/** The POST handler of the AI route. The handler is a pure function of the
    request it read, of the upstream gateway `send` (the one network call) and
    of `parse` (JSON.parse on the model's text, None where it throws). */
module AiRoute {
  import opened Wrappers
  import opened Js
  import Prompts

  datatype Role = System | User | Assistant

  datatype Message = Message(role: Role, content: string)

  /** The decoded request body; a field the client left out is None. */
  datatype Request = Request(
    model: Option<string>,
    messages: Option<seq<Message>>,
    temperature: Option<real>,
    maxTokens: Option<int>,
    tool: Option<string>)

  /** What `await request.json()` produced: a body, or the error it threw. */
  datatype Incoming = Unreadable(reason: string) | Body(request: Request)

  /** The body posted to the upstream model endpoint. */
  datatype UpstreamRequest = UpstreamRequest(model: string, messages: seq<Message>, temperature: real, maxTokens: int)

  /** The outcome of the upstream call: `fetch` threw, or a response came back
      with a status, the text `response.text()` reads, and what
      `response.json()` reads (Err with the thrown message when it throws). */
  datatype Upstream =
    | TransportFailure(reason: string)
    | Responded(status: int, text: string, json: Result<Json>)

  /** What the route answers: a 200 with the interpreted artifact, or an
      error record with its status. */
  datatype Response =
    | Completed(data: Json, rawResponse: Json, usage: Json)
    | Rejected(status: int, error: string, details: Option<string>)

  const DefaultTemperature: real := 0.5
  const DefaultMaxTokens: int := 4000
  const FallbackModel: string := "openrouter/anthropic/claude-sonnet-4"
  const MissingFields: string := "Model and messages are required"
  const ServiceError: string := "AI service error"
  const InternalError: string := "Internal server error"
  /** The TypeError V8 raises for `data.choices` when the upstream body is `null`. */
  const NullBodyReason: string := "Cannot read properties of null (reading 'choices')"

  /** `response.ok`. */
  predicate IsOkStatus(status: int) {
    200 <= status <= 299
  }

  /** The negation of `!model || !messages || messages.length === 0`. */
  predicate HasRequiredFields(r: Request) {
    r.model.Some? && r.model.value != "" && r.messages.Some? && r.messages.value != []
  }

  /** `tool && systemPrompts[tool]`, with the table read by its own keys. */
  predicate SelectsPrompt(tool: Option<string>) {
    tool.Some? && tool.value != "" && Prompts.SystemPrompt(tool.value).Some?
  }

  /** `finalMessages`: a copy of the request's messages with the tool's system
      prompt put in front when the tool names one of the four prompts. */
  function FinalMessages(tool: Option<string>, messages: seq<Message>): (fm: seq<Message>)
    ensures |fm| == |messages| + (if SelectsPrompt(tool) then 1 else 0)
    ensures fm[|fm| - |messages|..] == messages
    ensures forall t: Prompts.Tool :: tool == Some(Prompts.Name(t)) ==> fm[0] == Message(System, Prompts.Prompt(t))
    ensures (tool.None? || forall t: Prompts.Tool :: tool.value != Prompts.Name(t)) ==> fm == messages
  {
    if SelectsPrompt(tool) then [Message(System, Prompts.SystemPrompt(tool.value).value)] + messages
    else messages
  }

  /** The same composition on arrays, as the route does it: a fresh copy
      of the caller's array, with the system message put in front of it. The
      caller's array is read and not modified. */
  method CopyWithSystemPrompt(tool: Option<string>, messages: array<Message>) returns (fm: array<Message>)
    ensures fresh(fm)
    ensures fm[..] == FinalMessages(tool, messages[..])
  {
    var offset := if SelectsPrompt(tool) then 1 else 0;
    fm := new Message[messages.Length + offset];
    var i := 0;
    while i < messages.Length
      invariant 0 <= i <= messages.Length
      invariant forall k :: 0 <= k < i ==> fm[k + offset] == messages[k]
    {
      fm[i + offset] := messages[i];
      i := i + 1;
    }
    if offset == 1 {
      fm[0] := Message(System, Prompts.SystemPrompt(tool.value).value);
    }
    assert fm[offset..] == messages[..];
  }

  /** Validation, defaults and message composition: the upstream request, or
      None when the request has to be refused before any upstream call. */
  function Compose(r: Request): (u: Option<UpstreamRequest>)
    ensures u.Some? <==> HasRequiredFields(r)
    ensures u.Some? ==> u.value.model == r.model.value
    ensures u.Some? ==> u.value.messages == FinalMessages(r.tool, r.messages.value)
    ensures u.Some? ==> u.value.temperature == (if r.temperature.Some? then r.temperature.value else 0.5)
    ensures u.Some? ==> u.value.maxTokens == (if r.maxTokens.Some? then r.maxTokens.value else 4000)
  {
    if !HasRequiredFields(r) then None
    else
      var model := if r.model.value != "" then r.model.value else FallbackModel;
      Some(UpstreamRequest(model, FinalMessages(r.tool, r.messages.value),
                           r.temperature.GetOr(DefaultTemperature), r.maxTokens.GetOr(DefaultMaxTokens)))
  }

  /** `data.choices?.[0]?.message?.content || ''` on a body that is not null. */
  function ModelText(data: Json): (text: Json)
    requires !data.JNull?
    ensures Truthy(text) || text == JString("")
  {
    var choices := Field(data, "choices");
    var message := OptField(OptFirst(choices), "message");
    Or(OptField(message, "content"), JString(""))
  }

  /** The parse-or-wrap step: the parsed value, or `{content: text}`. */
  function ParsedOrWrapped(text: Json, parse: Json -> Option<Json>): (d: Json)
    ensures parse(text).Some? ==> d == parse(text).value
    ensures parse(text).None? ==> d == JObject(map["content" := text])
  {
    match parse(text)
    case Some(v) => v
    case None => JObject(map["content" := text])
  }

  /** Interpretation of the upstream outcome (lines after the fetch). */
  function Interpret(u: Upstream, parse: Json -> Option<Json>): (resp: Response)
    ensures u.TransportFailure? ==> resp == Rejected(500, InternalError, Some(u.reason))
    ensures u.Responded? && !IsOkStatus(u.status) ==> resp == Rejected(u.status, ServiceError, Some(u.text))
    ensures u.Responded? && IsOkStatus(u.status) && u.json.Err? ==> resp == Rejected(500, InternalError, Some(u.json.error))
    ensures u.Responded? && IsOkStatus(u.status) && u.json == Ok(JNull) ==> resp == Rejected(500, InternalError, Some(NullBodyReason))
    ensures u.Responded? && IsOkStatus(u.status) && u.json.Ok? && !u.json.value.JNull? ==>
      resp.Completed? && resp.rawResponse == ModelText(u.json.value)
      && resp.data == ParsedOrWrapped(resp.rawResponse, parse)
      && resp.usage == Or(Field(u.json.value, "usage"), JObject(map[]))
  {
    match u
    case TransportFailure(reason) => Rejected(500, InternalError, Some(reason))
    case Responded(status, text, json) =>
      if !IsOkStatus(status) then Rejected(status, ServiceError, Some(text))
      else match json
        case Err(reason) => Rejected(500, InternalError, Some(reason))
        case Ok(data) =>
          if data.JNull? then Rejected(500, InternalError, Some(NullBodyReason))
          else
            var aiResponse := ModelText(data);
            Completed(ParsedOrWrapped(aiResponse, parse), aiResponse, Or(Field(data, "usage"), JObject(map[])))
  }

  /** The whole handler. */
  function Handle(incoming: Incoming, send: UpstreamRequest -> Upstream, parse: Json -> Option<Json>): (resp: Response)
    ensures incoming.Unreadable? ==> resp == Rejected(500, InternalError, Some(incoming.reason))
    ensures incoming.Body? && !HasRequiredFields(incoming.request) ==> resp == Rejected(400, MissingFields, None)
    ensures incoming.Body? && HasRequiredFields(incoming.request) ==>
      resp == Interpret(send(Compose(incoming.request).value), parse)
  {
    match incoming
    case Unreadable(reason) => Rejected(500, InternalError, Some(reason))
    case Body(r) =>
      match Compose(r)
      case None => Rejected(400, MissingFields, None)
      case Some(u) => Interpret(send(u), parse)
  }

  /** The status the route answers with. */
  function StatusOf(resp: Response): int {
    match resp
    case Completed(_, _, _) => 200
    case Rejected(status, _, _) => status
  }

  /** The JSON body the route answers with. */
  function BodyOf(resp: Response): (body: Json)
    ensures body.JObject?
    ensures resp.Rejected? ==> Field(body, "error") == Some(JString(resp.error)) && Field(body, "data").None?
    ensures resp.Completed? ==> Field(body, "data") == Some(resp.data) && Field(body, "error").None?
  {
    match resp
    case Completed(data, raw, usage) =>
      JObject(map["success" := JBool(true), "data" := data, "raw_response" := raw, "usage" := usage])
    case Rejected(_, error, details) =>
      if details.Some? then JObject(map["error" := JString(error), "details" := JString(details.value)])
      else JObject(map["error" := JString(error)])
  }

  // ------------------------------------------------------------------
  // Properties of the handler.

  /** A request without model or messages is refused with a 400 whatever the
      upstream would have done: the gateway is never consulted. */
  lemma RefusedBeforeUpstream(r: Request, send1: UpstreamRequest -> Upstream, send2: UpstreamRequest -> Upstream,
                              parse: Json -> Option<Json>)
    requires !HasRequiredFields(r)
    ensures Handle(Body(r), send1, parse) == Handle(Body(r), send2, parse) == Rejected(400, MissingFields, None)
  {
  }

  /** A valid request reaches the gateway exactly with the composed request,
      carrying the caller's own model: the `|| fallback` branch of the model
      field is never taken. */
  lemma ValidRequestSentAsComposed(r: Request, send: UpstreamRequest -> Upstream, parse: Json -> Option<Json>)
    requires HasRequiredFields(r)
    ensures Compose(r).Some? && Compose(r).value.model == r.model.value
    ensures Handle(Body(r), send, parse) == Interpret(send(Compose(r).value), parse)
  {
  }

  /** The route never fails on the model's text: once the upstream answered
      2xx with a non-null JSON body, the answer is a 200 whatever the text is,
      and `raw_response` is that text. */
  lemma InterpretationNeverFails(status: int, text: string, data: Json, parse: Json -> Option<Json>)
    requires IsOkStatus(status) && !data.JNull?
    ensures Interpret(Responded(status, text, Ok(data)), parse).Completed?
    ensures Interpret(Responded(status, text, Ok(data)), parse).rawResponse == ModelText(data)
  {
  }

  /** A well-formed completion yields its first choice's content. */
  lemma ModelTextOfCompletion(content: string, message: map<string, Json>, choice: map<string, Json>,
                              rest: seq<Json>, data: map<string, Json>)
    requires content != ""
    requires "content" in message && message["content"] == JString(content)
    requires "message" in choice && choice["message"] == JObject(message)
    requires "choices" in data && data["choices"] == JArray([JObject(choice)] + rest)
    ensures ModelText(JObject(data)) == JString(content)
  {
  }

  /** A missing `choices`, an empty `choices`, a first choice without
      `message`, or a message without `content` all give the empty text. */
  lemma ModelTextDefaultsToEmpty(data: map<string, Json>)
    requires "choices" !in data
      || data["choices"] == JArray([])
      || (data["choices"].JArray? && data["choices"].items != [] && data["choices"].items[0].JObject?
          && "message" !in data["choices"].items[0].fields)
      || (data["choices"].JArray? && data["choices"].items != [] && data["choices"].items[0].JObject?
          && "message" in data["choices"].items[0].fields
          && data["choices"].items[0].fields["message"].JObject?
          && "content" !in data["choices"].items[0].fields["message"].fields)
    ensures ModelText(JObject(data)) == JString("")
  {
  }

  /** With the code-evaluation tool and one user message, the upstream sees
      two messages: the code-evaluation prompt verbatim, then the message. */
  lemma CodeEvaluationComposition(model: string, m: Message, t: Option<real>, k: Option<int>)
    requires model != ""
    ensures Compose(Request(Some(model), Some([m]), t, k, Some("code-evaluation"))).Some?
    ensures Compose(Request(Some(model), Some([m]), t, k, Some("code-evaluation"))).value.messages
            == [Message(System, Prompts.CodeEvaluationPrompt), m]
  {
    var fm := FinalMessages(Some("code-evaluation"), [m]);
    assert fm[0] == Message(System, Prompts.Prompt(Prompts.CodeEvaluation));
    assert fm[1..] == [m];
  }
}
