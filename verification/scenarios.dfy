/**
 * Concrete requests and what the handler answers to them.
 */
module Scenarios {
  import opened Strings
  import opened Catalog
  import opened Selector
  import opened Handler

  /** Neither of `tag` and `topic` is a substring of the other: the shorter one
      has a character `c` the longer one lacks, or they differ at equal length. */
  lemma Unrelated(tag: string, topic: string, c: char)
    requires || (|tag| < |topic| && c in tag && c !in topic)
             || (|topic| < |tag| && c in topic && c !in tag)
             || (|tag| == |topic| && tag != topic)
    ensures !Related(tag, topic)
  {
    if Substring(tag, topic) {
      SubstringLength(tag, topic);
      SubstringKeepsChars(tag, topic, c);
    }
    if Substring(topic, tag) {
      SubstringLength(topic, tag);
      SubstringKeepsChars(topic, tag, c);
    }
  }

  /** No tag of the general documentation record is related to "security". */
  lemma OfficialDocsNotSecurity() ensures !HasRelatedTag(OfficialDocs, "security") {
    Unrelated("general", "security", 'g');
    Unrelated("documentation", "security", 'y');
  }

  lemma GitHubRepositoryNotSecurity() ensures !HasRelatedTag(GitHubRepository, "security") {
    Unrelated("implementation", "security", 'y');
    Unrelated("code", "security", 'o');
    Unrelated("examples", "security", 'y');
  }

  lemma ServersTutorialNotSecurity() ensures !HasRelatedTag(ServersTutorial, "security") {
    Unrelated("implementation", "security", 'y');
    Unrelated("tutorial", "security", 'y');
    Unrelated("getting started", "security", 'y');
  }

  lemma ArchitectureOverviewNotSecurity() ensures !HasRelatedTag(ArchitectureOverview, "security") {
    Unrelated("architecture", "security", 'y');
    Unrelated("design", "security", 'd');
  }

  lemma ToolsSpecificationNotSecurity() ensures !HasRelatedTag(ToolsSpecification, "security") {
    Unrelated("tools", "security", 'o');
    Unrelated("specification", "security", 'y');
  }

  lemma ClaudeIntegrationNotSecurity() ensures !HasRelatedTag(ClaudeIntegration, "security") {
    Unrelated("claude", "security", 'l');
    Unrelated("integration", "security", 'y');
  }

  lemma ServerDebuggingNotSecurity() ensures !HasRelatedTag(ServerDebugging, "security") {
    Unrelated("debugging", "security", 'y');
    Unrelated("troubleshooting", "security", 'y');
  }

  lemma LambdaServersNotSecurity() ensures !HasRelatedTag(LambdaServers, "security") {
    Unrelated("lambda", "security", 'l');
    Unrelated("aws", "security", 'a');
    Unrelated("architecture", "security", 'y');
  }

  lemma TestingServersNotSecurity() ensures !HasRelatedTag(TestingServers, "security") {
    Unrelated("testing", "security", 'g');
    Unrelated("quality", "security", 'q');
  }

  /** Of the whole catalog only the authentication record has a tag related to
      "security". */
  lemma OnlyAuthenticationRelatedToSecurity(r: Resource)
    requires r in Resources
    ensures HasRelatedTag(r, "security") <==> r == AuthenticationPatterns
  {
    assert OccursAt("security", "security", 0);
    assert Related(AuthenticationPatterns.topics[0], "security");
    OfficialDocsNotSecurity();
    GitHubRepositoryNotSecurity();
    ServersTutorialNotSecurity();
    ArchitectureOverviewNotSecurity();
    ToolsSpecificationNotSecurity();
    ClaudeIntegrationNotSecurity();
    ServerDebuggingNotSecurity();
    LambdaServersNotSecurity();
    TestingServersNotSecurity();
  }

  /** A "security" topic, in any letter case, always yields the authentication
      record, whose tags include "security". */
  lemma SecurityTopicScenario(s: string, draw: real)
    requires 0.0 <= draw < 1.0 && EqualIgnoringCase(s, "security")
    ensures Handle(LearnCall(Text(s)), draw)
              == Response(200, StandardHeaders, Record(AuthenticationPatterns))
    ensures "security" in AuthenticationPatterns.topics
  {
    HandleCaseInsensitive(s, "security", draw);
    SecurityIsMatched();
    var resp := Handle(LearnCall(Text("security")), draw);
    HandleMatchedTopic("security", draw);
    OnlyAuthenticationRelatedToSecurity(resp.body.resource);
  }

  /** The lower-cased "security" is itself, and the authentication record,
      which is in the catalog, matches it. */
  lemma SecurityIsMatched()
    ensures ToLower("security") == "security"
    ensures AuthenticationPatterns in Resources && Matches(AuthenticationPatterns, "security")
  {
    ToLowerOfLowerCase("security");
    assert Resources[8] == AuthenticationPatterns;
    assert OccursAt("security", "security", 0);
    assert Related(AuthenticationPatterns.topics[0], "security");
    MatchesIsRelatedTag(AuthenticationPatterns, "security");
  }
}
