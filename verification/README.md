# lamba-mcp-server request handler, modelled in Dafny

The service is a single AWS Lambda handler (`module.exports.handler` in
`index.js`). It answers one MCP tool call, `learn_mcp`, by returning one record
from a constant catalog of ten learning resources about the Model Context
Protocol. When a `topic` parameter is given, it is lower-cased. The catalog is
then filtered to the records with a tag that contains the topic or is contained
in it. If nothing matches, the whole catalog is used instead. One record of the
resulting candidate list is picked at random and returned with status 200. Any
other request gets a fixed 400 answer. A fault while reading the request gets a
500 answer. All three answers carry the same two headers.

The model is pure, as the handler is: datatypes, functions and lemmas, in five
modules.

- `Strings` (`strings.dfy`): ASCII lower-casing and `String.prototype.includes`.
  Each is proved against a reference definition: equality up to case, and
  substring occurrence at some position.
- `Catalog` (`catalog.dfy`): the ten records, with their exact titles,
  descriptions, urls, types and tags, and the well-formedness every record has.
- `Selector` (`selector.dfy`): the two-way tag match, `filter`/`some`, the
  fallback to the whole catalog, and the index `Math.floor(draw * n)`.
- `Handler` (`handler.dfy`): the parsed request body, the three responses, and
  `Handle`, which maps a body and a random draw to a response.
- `Scenarios` (`scenarios.dfy`): a concrete request (topic "security" in any
  letter case) and the single record it always gets.

How the request body is modelled:

- The request arrives as the already-parsed `Body`. `Malformed` stands for a
  string body on which `JSON.parse` throws. `Nullish` stands for a `null` or
  `undefined` body, on which reading `body.type` throws. `Object` stands for
  every other value. For a number or boolean body, `type` and `name` read as
  `undefined` and are `None`.
- `body.parameters?.topic` is the `TopicField`. Optional chaining makes a
  missing `parameters` object, or a missing or `null` topic, mean "no topic"
  (`NoTopic`) rather than a fault. Only a topic that is present but not a string
  makes `toLowerCase` throw (`NotText`), and only once the request has been
  recognised as a `learn_mcp` call. A missing `parameters` object is therefore
  not an error: optional chaining reads it as no topic (index.js:17).
- `Math.random()` is the parameter `draw`, a real number with
  0 ≤ draw < 1. The index is `(draw * n).Floor`.

## Model

| member | source | states |
|---|---|---|
| Strings.ToLower | index.js:17 | lower-casing keeps the length, lowers each character in place, and leaves no upper-case ASCII letter |
| Strings.ToLowerCaseInsensitive | index.js:17 | two topics lower-case to the same string if and only if they are equal up to ASCII letter case |
| Strings.ToLowerOfLowerCase | index.js:17 | lower-casing a string with no upper-case letter returns it unchanged (so lower-casing is idempotent) |
| Strings.Includes | index.js:97 | `String.prototype.includes`, searching from the left; its meaning is stated by `IncludesIsSubstring` |
| Strings.IncludesIsSubstring | index.js:97 | `includes`, searched from the left, is true exactly when the needle occurs at some position of the haystack |
| Catalog.OfficialDocsWellFormed | index.js:21-27 | the official documentation record is well formed |
| Catalog.GitHubRepositoryWellFormed | index.js:28-34 | the GitHub repository record is well formed |
| Catalog.ServersTutorialWellFormed | index.js:35-41 | the server tutorial record is well formed |
| Catalog.ArchitectureOverviewWellFormed | index.js:42-48 | the architecture overview record is well formed |
| Catalog.ToolsSpecificationWellFormed | index.js:49-55 | the tools specification record is well formed |
| Catalog.ClaudeIntegrationWellFormed | index.js:56-62 | the Claude integration record is well formed |
| Catalog.ServerDebuggingWellFormed | index.js:63-69 | the server debugging record is well formed |
| Catalog.LambdaServersWellFormed | index.js:70-76 | the Lambda servers record is well formed |
| Catalog.AuthenticationPatternsWellFormed | index.js:77-83 | the authentication patterns record is well formed |
| Catalog.TestingServersWellFormed | index.js:84-90 | the testing record is well formed |
| Catalog.Resources | index.js:20-91 | the constant catalog, the ten records in source order with their exact field values; what every record satisfies is stated by `CatalogWellFormed` |
| Catalog.CatalogWellFormed | index.js:20-91 | the catalog has ten records, each with an `https://` url, one of the six resource types, and a non-empty list of non-empty lower-case tags |
| Selector.TagMatches | index.js:97 | the `some` callback: the tag includes the topic or the topic includes the tag; its meaning is stated by `MatchesIsRelatedTag` |
| Selector.AnyTagMatches | index.js:97 | `resource.topics.some(...)`, trying the tags from the left; its meaning is stated by `AnyTagMatchesIff` |
| Selector.Matches | index.js:96-98 | the filter's test on one record; its meaning is stated by `MatchesIsRelatedTag` |
| Selector.AnyTagMatchesIff | index.js:97 | `some` over the tags holds exactly when some tag of the list matches the topic |
| Selector.MatchesIsRelatedTag | index.js:96-98 | a record passes the filter's test exactly when one of its tags contains the topic or is contained in it |
| Selector.Filter | index.js:96-98 | the filter never lengthens the list |
| Selector.FilterCount | index.js:96-98 | a matching record is kept as many times as it occurs, and a non-matching record is never kept |
| Selector.FilterMembers | index.js:96-98 | the filter keeps exactly the records that match the topic |
| Selector.FilterIsSubsequence | index.js:96-98 | the kept records appear in their original order |
| Selector.FilterKeepsAll | index.js:96-98 | a list whose every record matches is kept whole |
| Selector.Candidates | index.js:94-104 | the candidates are never empty for a non-empty catalog and are drawn from the catalog; without a topic, or when nothing matches, they are the whole catalog; otherwise they are the filtered catalog |
| Selector.CandidatesAreMatches | index.js:94-104 | with a topic that some record matches, a record is a candidate exactly when one of its tags is related to the topic, as often as in the catalog and in catalog order |
| Selector.CandidatesAllMatch | index.js:94-98 | with a topic that every record matches, the candidates are the whole catalog |
| Selector.DrawIndex | index.js:107 | the index `floor(draw * n)` lies in [0, n) |
| Selector.DrawIndexInterval | index.js:107 | index k is drawn exactly when the draw lies in [k/n, (k+1)/n), so every index gets an interval of width 1/n |
| Selector.Pick | index.js:107-108 | the picked record is one of the candidates |
| Selector.PickEachCandidate | index.js:107-108 | every candidate is picked for some draw in [0, 1): candidate k for the draw k/n |
| Handler.ErrorText | index.js:144 | the error text is the fault's message when that is non-empty and "Internal server error" otherwise, so it is never empty |
| Handler.InternalError | index.js:134-147 | the fault response has status 500, the standard headers, and the body with the error text of the fault and the fixed message "An unexpected error occurred" |
| Handler.RequestedTopic | index.js:17 | the requested topic is lower-case and equal to the given topic up to case; it is empty when no topic is given |
| Handler.IsLearnCall | index.js:16 | the dispatch test: `type` is exactly "tool_call" and `name` is exactly "learn_mcp"; the routing it decides is stated by `Handle` |
| Handler.Success | index.js:93-119 | the success response has status 200, the standard headers and a record from the candidate list for the requested topic |
| Handler.Handle | index.js:8-148 | every response has the standard headers and status 200, 400 or 500. Status 200 comes exactly for a `learn_mcp` tool call whose topic does not throw, and then carries a catalog record. Status 400 comes exactly for an object body that is not that call, and is then the fixed invalid-request response. Status 500 comes exactly for a parse failure, a null body or a non-string topic in a `learn_mcp` call, and then carries the fixed message and the error text of the caught fault: the parse or null-body fault, or the fault of the non-string topic |
| Handler.SuccessIsWellFormed | index.js:16-119 | every record returned with status 200 is well formed |
| Handler.HandlePicksDrawnCandidate | index.js:93-119 | candidate k is returned, unmodified and with status 200, whenever the draw lies in [k/n, (k+1)/n) |
| Handler.HandleMatchedTopic | index.js:93-119 | when some record matches a non-empty lower-cased topic, the returned record has a tag that contains the topic or is contained in it |
| Handler.HandleFallsBackToCatalog | index.js:93-119 | without a topic, or with a topic that nothing matches, every catalog record k is returned for the draw k/10 |
| Handler.HandleCaseInsensitive | index.js:17 | topics equal up to ASCII case get the same response |
| Scenarios.OfficialDocsNotSecurity | index.js:26 | no tag of the official documentation record is related to "security" |
| Scenarios.GitHubRepositoryNotSecurity | index.js:33 | no tag of the GitHub repository record is related to "security" |
| Scenarios.ServersTutorialNotSecurity | index.js:40 | no tag of the server tutorial record is related to "security" |
| Scenarios.ArchitectureOverviewNotSecurity | index.js:47 | no tag of the architecture overview record is related to "security" |
| Scenarios.ToolsSpecificationNotSecurity | index.js:54 | no tag of the tools specification record is related to "security" |
| Scenarios.ClaudeIntegrationNotSecurity | index.js:61 | no tag of the Claude integration record is related to "security" |
| Scenarios.ServerDebuggingNotSecurity | index.js:68 | no tag of the server debugging record is related to "security" |
| Scenarios.LambdaServersNotSecurity | index.js:75 | no tag of the Lambda servers record is related to "security" |
| Scenarios.TestingServersNotSecurity | index.js:89 | no tag of the testing record is related to "security" |
| Scenarios.OnlyAuthenticationRelatedToSecurity | index.js:20-98 | of the ten records, only the authentication record has a tag related to "security" |
| Scenarios.SecurityIsMatched | index.js:77-83 | "security" lower-cases to itself, and the authentication record is in the catalog and matches it |
| Scenarios.SecurityTopicScenario | index.js:16-119 | a `learn_mcp` call with topic "security", in any letter case, returns the authentication record with status 200 for every draw |

## Left out

- `JSON.parse` of a string body (index.js:11-12) is not modelled. Its outcome is the `Body` datatype: a parsed value, or `Malformed` for a body it rejects.
- `JSON.stringify` of the response bodies (index.js:118, 129, 143) is not modelled. The response carries the record or the error object itself, not its JSON text.
- `Math.random` (index.js:107) is modelled as a real number in [0, 1), not as an IEEE double produced by the runtime's generator.
- `console.log` and `console.error` (index.js:6, 110, 135) are output with no effect on the response and are left out.
- `toLowerCase` is modelled for ASCII letters only. Full Unicode case mapping, which can change a string's length, is left out.
- The content of `error.message` is an abstract fault string. Which runtime message a `TypeError` or `SyntaxError` carries is not modelled.
- The `async` function, the CommonJS export and the Lambda `event` wrapper (index.js:5) are hosting plumbing and are left out. The model starts from `event.body`.
- Selector.Filter: its own contract only bounds the length of the result; what it keeps, how often and in which order is stated by the lemmas FilterMembers, FilterCount and FilterIsSubsequence beside it.
