/**
 * The constant catalog of learning resources the handler picks from.
 */
module Catalog {
  import opened Strings

  /** One catalog record; `resourceType` is the JSON field `resource_type`. */
  datatype Resource = Resource(
    title: string,
    description: string,
    url: string,
    resourceType: string,
    topics: seq<string>)

  /** The scheme every catalog url starts with; each url below is written as
      this scheme followed by the rest of the address. */
  const Https: string := "https://"

  /** The ten records, in the order the handler declares them. */
  const Resources: seq<Resource> := [
    OfficialDocs,
    GitHubRepository,
    ServersTutorial,
    ArchitectureOverview,
    ToolsSpecification,
    ClaudeIntegration,
    ServerDebugging,
    LambdaServers,
    AuthenticationPatterns,
    TestingServers
  ]

  const OfficialDocs := Resource(
    "MCP Official Documentation",
    "Comprehensive guide to the Model Context Protocol with detailed explanations of concepts and implementation details.",
    Https + "modelcontextprotocol.io/docs/",
    "documentation",
    ["general", "documentation"])

  const GitHubRepository := Resource(
    "MCP GitHub Repository",
    "Source code and examples for MCP implementations. A great resource for developers looking to understand the code behind MCP.",
    Https + "github.com/modelcontextprotocol/typescript-sdk",
    "code",
    ["implementation", "code", "examples"])

  const ServersTutorial := Resource(
    "Building MCP Servers Tutorial",
    "Step-by-step guide to creating your own MCP server from scratch, with detailed explanations of each component.",
    Https + "modelcontextprotocol.io/docs/getting-started",
    "tutorial",
    ["implementation", "tutorial", "getting started"])

  const ArchitectureOverview := Resource(
    "MCP Architecture Overview",
    "Understanding the architecture and components of MCP, including how clients and servers communicate.",
    Https + "modelcontextprotocol.io/docs/protocol-spec/architecture",
    "documentation",
    ["architecture", "design"])

  const ToolsSpecification := Resource(
    "MCP Tools Specification",
    "Detailed specification for implementing MCP tools, including tool definitions, calls, and responses.",
    Https + "modelcontextprotocol.io/docs/protocol-spec/tools",
    "specification",
    ["tools", "specification"])

  const ClaudeIntegration := Resource(
    "Anthropic Claude MCP Integration",
    "Learn how Claude integrates with MCP and how to build tools that work with Claude's MCP implementation.",
    Https + "docs.anthropic.com/claude/docs/model-context-protocol",
    "documentation",
    ["claude", "integration"])

  const ServerDebugging := Resource(
    "MCP Server Debugging",
    "Tips and techniques for debugging MCP servers, including common issues and their solutions.",
    Https + "modelcontextprotocol.io/docs/tools/debugging",
    "guide",
    ["debugging", "troubleshooting"])

  const LambdaServers := Resource(
    "Lambda-Based MCP Servers",
    "Building MCP servers with AWS Lambda - a scalable approach to MCP server implementation.",
    Https + "github.com/modelcontextprotocol/examples",
    "example",
    ["lambda", "aws", "architecture"])

  const AuthenticationPatterns := Resource(
    "MCP Authentication Patterns",
    "Implementing secure authentication in MCP servers to protect sensitive APIs and data.",
    Https + "modelcontextprotocol.io/docs/tools/security",
    "guide",
    ["security", "authentication"])

  const TestingServers := Resource(
    "Testing MCP Servers",
    "Strategies and tools for testing MCP servers to ensure reliability and correctness.",
    Https + "modelcontextprotocol.io/docs/tools/testing",
    "guide",
    ["testing", "quality"])

  /** The resource types the catalog uses. */
  predicate KnownType(t: string) {
    t in ["documentation", "code", "tutorial", "specification", "guide", "example"]
  }

  /** The url starts with `https://`. */
  predicate HasHttpsScheme(url: string) {
    Https <= url
  }

  /** What every catalog record promises: a secure absolute url, a known type and
      a non-empty list of non-empty lower-case tags. */
  predicate WellFormed(r: Resource) {
    && HasHttpsScheme(r.url)
    && KnownType(r.resourceType)
    && |r.topics| > 0
    && forall t :: t in r.topics ==> t != "" && IsLowerCase(t)
  }

  lemma OfficialDocsWellFormed() ensures WellFormed(OfficialDocs) {}
  lemma GitHubRepositoryWellFormed() ensures WellFormed(GitHubRepository) {}
  lemma ServersTutorialWellFormed() ensures WellFormed(ServersTutorial) {}
  lemma ArchitectureOverviewWellFormed() ensures WellFormed(ArchitectureOverview) {}
  lemma ToolsSpecificationWellFormed() ensures WellFormed(ToolsSpecification) {}
  lemma ClaudeIntegrationWellFormed() ensures WellFormed(ClaudeIntegration) {}
  lemma ServerDebuggingWellFormed() ensures WellFormed(ServerDebugging) {}
  lemma LambdaServersWellFormed() ensures WellFormed(LambdaServers) {}
  lemma AuthenticationPatternsWellFormed() ensures WellFormed(AuthenticationPatterns) {}
  lemma TestingServersWellFormed() ensures WellFormed(TestingServers) {}

  /** The catalog holds ten records and every one of them is well formed. */
  lemma CatalogWellFormed()
    ensures |Resources| == 10
    ensures forall r :: r in Resources ==> WellFormed(r)
  {
    OfficialDocsWellFormed();
    GitHubRepositoryWellFormed();
    ServersTutorialWellFormed();
    ArchitectureOverviewWellFormed();
    ToolsSpecificationWellFormed();
    ClaudeIntegrationWellFormed();
    ServerDebuggingWellFormed();
    LambdaServersWellFormed();
    AuthenticationPatternsWellFormed();
    TestingServersWellFormed();
  }
}
