/** How the tool pages read the AI route's reply: the shared pattern of
    `fetch('/api/ai')`, `response.json()`, the `response.ok` test, the
    `data.error || fallback` message and the structural marker check on
    `data.data`. */
module ApiClient {
  import opened Wrappers
  import opened Js
  import AiRoute

  /** What the page's `fetch` to the route gives: it threw (with the error's
      message), or the route answered. */
  datatype Reply = FetchFailed(message: string) | Answered(response: AiRoute.Response)

  /** The model name every page requests. */
  const PageModel: string := "openrouter/anthropic/claude-sonnet-4"
  const MalformedReply: string := "Format de réponse invalide"

  /** A property access whose value is truthy. */
  predicate Present(x: Option<Json>) {
    x.Some? && Truthy(x.value)
  }

  /** `data.error || fallback` as the message of the thrown Error. */
  function ErrorText(body: Json, fallback: string): (m: string)
    ensures Field(body, "error") == Some(JString(m)) || m == fallback
    ensures (exists s :: s != "" && Field(body, "error") == Some(JString(s))) ==> Field(body, "error") == Some(JString(m))
  {
    match Field(body, "error")
    case Some(JString(s)) => if s != "" then s else fallback
    case _ => fallback
  }

  /** The page's reading of a reply, with the property `marker` that the
      artifact must carry: the artifact `data.data`, or the message the page
      then shows in its error banner. */
  function Accept(reply: Reply, marker: string, failure: string): (r: Result<Json>)
    ensures reply.FetchFailed? ==> r == Err(reply.message)
    ensures r.Ok? ==> reply.Answered? && reply.response.Completed? && r.value == reply.response.data
    ensures reply.Answered? && reply.response.Completed? ==>
              (r.Ok? <==> Truthy(reply.response.data) && Present(Field(reply.response.data, marker)))
    ensures reply.Answered? && reply.response.Completed? && r.Err? ==> r.error == MalformedReply
    ensures reply.Answered? && reply.response.Rejected? && !AiRoute.IsOkStatus(reply.response.status) ==>
              r == Err(if reply.response.error != "" then reply.response.error else failure)
  {
    match reply
    case FetchFailed(message) => Err(message)
    case Answered(response) =>
      var body := AiRoute.BodyOf(response);
      if !AiRoute.IsOkStatus(AiRoute.StatusOf(response)) then Err(ErrorText(body, failure))
      else
        var data := Field(body, "data");
        if Present(data) && Present(OptField(data, marker)) then Ok(data.value) else Err(MalformedReply)
  }

  // ------------------------------------------------------------------
  // The page and the route together.

  /** The page asks the route directly: `api(request)` is the route's answer. */
  function ThroughRoute(r: AiRoute.Request, send: AiRoute.UpstreamRequest -> AiRoute.Upstream,
                        parse: Json -> Option<Json>): Reply
  {
    Answered(AiRoute.Handle(AiRoute.Body(r), send, parse))
  }

  /** Every refusal of the route carries a status the page treats as not ok. */
  lemma RouteRefusalsAreNotOk(incoming: AiRoute.Incoming, send: AiRoute.UpstreamRequest -> AiRoute.Upstream,
                              parse: Json -> Option<Json>)
    ensures AiRoute.Handle(incoming, send, parse).Rejected? ==>
              !AiRoute.IsOkStatus(AiRoute.Handle(incoming, send, parse).status)
  {
    if incoming.Body? && AiRoute.HasRequiredFields(incoming.request) {
      var u := send(AiRoute.Compose(incoming.request).value);
      assert AiRoute.Handle(incoming, send, parse) == AiRoute.Interpret(u, parse);
    }
  }

  /** The page shows exactly what a refusal of the route says. */
  lemma RefusalShown(r: AiRoute.Request, send: AiRoute.UpstreamRequest -> AiRoute.Upstream,
                     parse: Json -> Option<Json>, marker: string, failure: string)
    ensures AiRoute.Handle(AiRoute.Body(r), send, parse).Rejected? ==>
              Accept(ThroughRoute(r, send, parse), marker, failure) == Err(AiRoute.Handle(AiRoute.Body(r), send, parse).error)
  {
    RouteRefusalsAreNotOk(AiRoute.Body(r), send, parse);
  }

  /** A request without model or messages shows "Model and messages are required". */
  lemma MissingFieldsShown(r: AiRoute.Request, send: AiRoute.UpstreamRequest -> AiRoute.Upstream,
                           parse: Json -> Option<Json>, marker: string, failure: string)
    requires !AiRoute.HasRequiredFields(r)
    ensures Accept(ThroughRoute(r, send, parse), marker, failure) == Err(AiRoute.MissingFields)
  {
  }

  /** The gateway whose every call has outcome `u` (the route calls it once). */
  function Answering(u: AiRoute.Upstream): AiRoute.UpstreamRequest -> AiRoute.Upstream {
    _ => u
  }

  /** An upstream error status shows "AI service error". */
  lemma UpstreamErrorShown(r: AiRoute.Request, status: int, text: string, json: Result<Json>,
                           parse: Json -> Option<Json>, marker: string, failure: string)
    requires AiRoute.HasRequiredFields(r) && !AiRoute.IsOkStatus(status)
    ensures Accept(ThroughRoute(r, Answering(AiRoute.Responded(status, text, json)), parse), marker, failure)
            == Err(AiRoute.ServiceError)
  {
    AiRoute.ValidRequestSentAsComposed(r, Answering(AiRoute.Responded(status, text, json)), parse);
  }

  /** Model text that is not JSON reaches the page wrapped as `{content: text}`,
      which lacks any other marker: the page reports a malformed reply. */
  lemma UnparsableTextIsMalformed(r: AiRoute.Request, status: int, text: string, data: Json,
                                  parse: Json -> Option<Json>, marker: string, failure: string)
    requires AiRoute.HasRequiredFields(r) && AiRoute.IsOkStatus(status) && !data.JNull?
    requires parse(AiRoute.ModelText(data)).None?
    requires marker != "content"
    ensures Accept(ThroughRoute(r, Answering(AiRoute.Responded(status, text, Ok(data))), parse), marker, failure)
            == Err(MalformedReply)
  {
    AiRoute.ValidRequestSentAsComposed(r, Answering(AiRoute.Responded(status, text, Ok(data))), parse);
  }

  /** Model text that parses to an object carrying the marker reaches the
      page as that object. */
  lemma ParsedArtifactAccepted(r: AiRoute.Request, status: int, text: string, data: Json,
                               parse: Json -> Option<Json>, marker: string, failure: string, artifact: Json)
    requires AiRoute.HasRequiredFields(r) && AiRoute.IsOkStatus(status) && !data.JNull?
    requires parse(AiRoute.ModelText(data)) == Some(artifact)
    requires artifact.JObject? && Present(Field(artifact, marker))
    ensures Accept(ThroughRoute(r, Answering(AiRoute.Responded(status, text, Ok(data))), parse), marker, failure)
            == Ok(artifact)
  {
    AiRoute.ValidRequestSentAsComposed(r, Answering(AiRoute.Responded(status, text, Ok(data))), parse);
  }
}
