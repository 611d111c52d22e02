/**
 * The request handler: dispatch on the tool call, topic normalisation,
 * selection of one catalog record, and the three response shapes
 * (200 success, 400 invalid request, 500 unexpected error).
 */
module Handler {
  import opened Strings
  import opened Catalog
  import opened Selector

  datatype Option<T> = None | Some(value: T)

  /** What `body.parameters?.topic` holds once the body is an object. */
  datatype TopicField =
    | NoTopic                     // `parameters` or `topic` absent, `null` or `undefined`
    | Text(text: string)          // a string topic
    | NotText(fault: string)      // any other value: calling `toLowerCase` on it throws,
                                  // with the runtime's message `fault`

  /** The request body after the `typeof body === 'string'` / `JSON.parse` step. */
  datatype Body =
    | Malformed(fault: string)    // `JSON.parse` threw, with message `fault`
    | Nullish(fault: string)      // `null` or `undefined`: reading `body.type` throws
    | Object(kind: Option<string>, name: Option<string>, topic: TopicField)
                                  // `kind` is `body.type`; `None` when absent or not a string

  /** The JSON body of a response: a catalog record, or an error object. */
  datatype Payload =
    | Record(resource: Resource)
    | Error(error: string, message: string)

  datatype Response = Response(statusCode: int, headers: seq<(string, string)>, body: Payload)

  /** The header set every response carries. */
  const StandardHeaders: seq<(string, string)> :=
    [("Content-Type", "application/json"), ("Access-Control-Allow-Origin", "*")]

  const InvalidRequest: Response :=
    Response(400, StandardHeaders,
      Error("Invalid request", "This server expects a learn_mcp tool call"))

  /** The request names the one supported tool. */
  predicate IsLearnCall(kind: Option<string>, name: Option<string>) {
    kind == Some("tool_call") && name == Some("learn_mcp")
  }

  /** `error.message || 'Internal server error'`. */
  function ErrorText(fault: string): (e: string)
    ensures e != ""
    ensures fault != "" ==> e == fault
    ensures fault == "" ==> e == "Internal server error"
  {
    if fault == "" then "Internal server error" else fault
  }

  /** The response of the `catch` branch. */
  function InternalError(fault: string): (resp: Response)
    ensures resp.statusCode == 500 && resp.headers == StandardHeaders
    ensures resp.body == Error(ErrorText(fault), "An unexpected error occurred")
    ensures resp.body.error != ""
  {
    Response(500, StandardHeaders, Error(ErrorText(fault), "An unexpected error occurred"))
  }

  /** `parameters?.topic?.toLowerCase() || ''` for a topic that does not throw. */
  function RequestedTopic(topic: TopicField): (t: string)
    requires !topic.NotText?
    ensures IsLowerCase(t)
    ensures topic.Text? ==> EqualIgnoringCase(t, topic.text)
    ensures topic.NoTopic? ==> t == ""
  {
    match topic
    case NoTopic => ""
    case Text(s) =>
      ToLowerCaseInsensitive(ToLower(s), s);
      ToLowerOfLowerCase(ToLower(s));
      ToLower(s)
  }

  /** The 200 response for a request that names the tool and whose topic did not
      throw; `draw` stands for the value of `Math.random()`. */
  function Success(topic: TopicField, draw: real): (resp: Response)
    requires !topic.NotText? && 0.0 <= draw < 1.0
    ensures resp.statusCode == 200 && resp.headers == StandardHeaders
    ensures resp.body.Record? && resp.body.resource in Candidates(Resources, RequestedTopic(topic))
  {
    var candidates := Candidates(Resources, RequestedTopic(topic));
    Response(200, StandardHeaders, Record(Pick(candidates, draw)))
  }

  /** The handler: one response for every request body and draw. */
  function Handle(body: Body, draw: real): (resp: Response)
    requires 0.0 <= draw < 1.0
    ensures resp.headers == StandardHeaders
    ensures resp.statusCode == 200 || resp.statusCode == 400 || resp.statusCode == 500
    ensures resp.statusCode == 200 <==>
              body.Object? && IsLearnCall(body.kind, body.name) && !body.topic.NotText?
    ensures resp.statusCode == 400 <==> body.Object? && !IsLearnCall(body.kind, body.name)
    ensures resp.statusCode == 400 ==> resp == InvalidRequest
    ensures resp.statusCode == 500 <==>
              body.Malformed? || body.Nullish?
              || (body.Object? && IsLearnCall(body.kind, body.name) && body.topic.NotText?)
    ensures resp.statusCode == 500 ==>
              resp.body.Error? && resp.body.error != ""
              && resp.body.message == "An unexpected error occurred"
    ensures body.Malformed? || body.Nullish? ==> resp.body.error == ErrorText(body.fault)
    ensures body.Object? && IsLearnCall(body.kind, body.name) && body.topic.NotText? ==>
              resp.body.error == ErrorText(body.topic.fault)
    ensures resp.statusCode == 200 ==> resp.body.Record? && resp.body.resource in Resources
  {
    match body
    case Malformed(fault) => InternalError(fault)
    case Nullish(fault) => InternalError(fault)
    case Object(kind, name, topic) =>
      if IsLearnCall(kind, name) then
        if topic.NotText? then InternalError(topic.fault) else Success(topic, draw)
      else InvalidRequest
  }

  /** A learn_mcp tool call with the given topic field. */
  function LearnCall(topic: TopicField): Body {
    Object(Some("tool_call"), Some("learn_mcp"), topic)
  }

  /** Every success returns a well-formed catalog record: an `https://` url and
      a non-empty list of lower-case tags. */
  lemma SuccessIsWellFormed(body: Body, draw: real)
    requires 0.0 <= draw < 1.0 && Handle(body, draw).statusCode == 200
    ensures WellFormed(Handle(body, draw).body.resource)
  {
    CatalogWellFormed();
  }

  /** The record returned is the candidate at the drawn position: candidate `k`
      is returned exactly when the draw lies in [k/n, (k+1)/n), n being the
      number of candidates. */
  lemma HandlePicksDrawnCandidate(topic: TopicField, draw: real, k: nat)
    requires 0.0 <= draw < 1.0 && !topic.NotText?
    requires k < |Candidates(Resources, RequestedTopic(topic))|
    ensures var c := Candidates(Resources, RequestedTopic(topic));
            var n := |c| as real;
            k as real / n <= draw < (k + 1) as real / n ==>
              Handle(LearnCall(topic), draw) == Response(200, StandardHeaders, Record(c[k]))
  {
    var c := Candidates(Resources, RequestedTopic(topic));
    DrawIndexInterval(draw, |c|, k);
  }

  /** With a topic that some catalog record matches, the record returned has a
      tag that contains the lower-cased topic or is contained in it. */
  lemma HandleMatchedTopic(s: string, draw: real)
    requires 0.0 <= draw < 1.0
    requires ToLower(s) != "" && exists x :: x in Resources && Matches(x, ToLower(s))
    ensures var resp := Handle(LearnCall(Text(s)), draw);
            resp.statusCode == 200 && HasRelatedTag(resp.body.resource, ToLower(s))
  {
    var resp := Handle(LearnCall(Text(s)), draw);
    CandidatesAreMatches(Resources, ToLower(s), resp.body.resource);
  }

  /** Without a topic, or with one that no record matches, every catalog record
      can be returned: record `k` comes back for a draw of k/10. */
  lemma HandleFallsBackToCatalog(topic: TopicField, k: nat)
    requires !topic.NotText? && k < |Resources|
    requires RequestedTopic(topic) == ""
             || forall x :: x in Resources ==> !Matches(x, RequestedTopic(topic))
    ensures var draw := k as real / |Resources| as real;
            0.0 <= draw < 1.0
            && Handle(LearnCall(topic), draw) == Response(200, StandardHeaders, Record(Resources[k]))
  {
    PickEachCandidate(Resources, k);
  }

  /** Topics that differ only in ASCII case get the same response. */
  lemma HandleCaseInsensitive(s: string, t: string, draw: real)
    requires 0.0 <= draw < 1.0 && EqualIgnoringCase(s, t)
    ensures Handle(LearnCall(Text(s)), draw) == Handle(LearnCall(Text(t)), draw)
  {
    ToLowerCaseInsensitive(s, t);
  }
}
