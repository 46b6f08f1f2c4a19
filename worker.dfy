/** The request dispatcher of the worker: the routing decision of `fetch`
    and the header merge of `jsonResponse`. The request arrives as its
    method, its URL path and the outcome of reading its body as JSON; the
    credential is the optional `GOOGLE_AI_API_KEY` binding. The HTTP method
    is the field `verb`. */
module Worker {
  import opened Wrappers
  import opened Text
  import opened Records
  import opened Json
  import opened TaskAgent

  const CorsHeaders: seq<(string, string)> := [
    ("Access-Control-Allow-Origin", "*"),
    ("Access-Control-Allow-Methods", "GET, POST, OPTIONS"),
    ("Access-Control-Allow-Headers", "Content-Type")]
  const ContentTypeHeader: seq<(string, string)> := [("Content-Type", "application/json")]

  const InvalidTaskMessage: string := "Invalid request: \"task\" field is required"
  const InternalErrorMessage: string := "Internal server error"
  /** What a JavaScript engine (V8) throws for `agentRequest.task` when the body is `null`. */
  const NullBodyMessage: string := "Cannot read properties of null (reading 'task')"
  const AvailableEndpoints: seq<string> := ["/", "/health", "/agent", "/info"]

  /** The `task` property of the parsed body. */
  datatype TaskField = Absent | TaskString(value: string) | NonString

  /** The outcome of `request.json()`: it throws, it yields `null`, or it yields a
      value whose `task`, `context` and `model` properties are read. */
  datatype RequestBody =
    | Unparsable(thrown: Thrown)
    | NullBody
    | Fields(task: TaskField, context: Option<string>, model: Option<string>)

  datatype Inbound = Inbound(verb: string, path: string, body: RequestBody)

  datatype Env = Env(apiKey: Option<string>)

  /** The value a JSON response carries. */
  datatype Payload =
    | Health(timestamp: string, hasApiKey: bool)
    | Failure(error: string)
    | Processed(response: AgentResponse)
    | Description
    | NotFound

  /** `null` (the preflight answer) or a JSON document. */
  datatype Body = NoBody | JsonBody(payload: Payload)

  datatype HttpResponse = HttpResponse(status: nat, headers: seq<(string, string)>, body: Body)

  /** `agentRequest.task` is truthy and a string. */
  predicate ValidTask(task: TaskField) {
    task.TaskString? && task.value != ""
  }

  /** `jsonResponse(data, status, additionalHeaders)`. */
  function JsonResponse(payload: Payload, status: nat, additional: seq<(string, string)>): (r: HttpResponse)
    ensures r.status == status && r.body == JsonBody(payload)
    ensures Keys(r.headers) == {"Content-Type"} + Keys(additional)
  {
    HttpResponse(status, Spread(ContentTypeHeader, additional), JsonBody(payload))
  }

  /** The task processor chosen by the credential: the AI branch when it is truthy. */
  function Answer(env: Env, request: AgentRequest, now: string,
                  provider: ProviderRequest -> ProviderCall): (r: AgentResponse)
    ensures WellFormed(r) && r.timestamp == now
    ensures !Truthy(env.apiKey) ==> r.model == Some(FallbackModel)
  {
    if Truthy(env.apiKey) then ProcessTask(NewAgent(env.apiKey.value, None), request, now, provider)
    else ProcessFallback(request, now)
  }

  /** The `try` block of `fetch`: it either returns a response or throws. */
  function Routed(req: Inbound, env: Env, now: string,
                  provider: ProviderRequest -> ProviderCall): Result<HttpResponse, Thrown>
  {
    if req.path == "/health" || req.path == "/" then
      Ok(JsonResponse(Health(now, Truthy(env.apiKey)), 200, CorsHeaders))
    else if req.path == "/agent" && req.verb == "POST" then
      match req.body
      case Unparsable(e) => Err(e)
      case NullBody => Err(ErrorObject(NullBodyMessage))
      case Fields(task, context, model) =>
        if !ValidTask(task) then Ok(JsonResponse(Failure(InvalidTaskMessage), 400, CorsHeaders))
        else Ok(JsonResponse(Processed(Answer(env, AgentRequest(task.value, context, model), now, provider)),
                             200, CorsHeaders))
    else if req.path == "/info" then
      Ok(JsonResponse(Description, 200, CorsHeaders))
    else
      Ok(JsonResponse(NotFound, 404, CorsHeaders))
  }

  /** `fetch`: preflight first, then the routed section, whose exceptions become 500. */
  function Route(req: Inbound, env: Env, now: string,
                 provider: ProviderRequest -> ProviderCall): (r: HttpResponse)
    ensures r.status in {200, 400, 404, 500}
    ensures req.verb == "OPTIONS" ==> r == HttpResponse(200, CorsHeaders, NoBody)
    ensures req.verb != "OPTIONS" ==> r.headers == ContentTypeHeader + CorsHeaders && r.body.JsonBody?
  {
    CorsAfterContentType();
    if req.verb == "OPTIONS" then HttpResponse(200, CorsHeaders, NoBody)
    else match Routed(req, env, now, provider)
      case Ok(response) => response
      case Err(e) => JsonResponse(Failure(MessageOf(e, InternalErrorMessage)), 500, CorsHeaders)
  }

  /** Merging the CORS headers after `Content-Type` appends them in their order. */
  lemma CorsAfterContentType()
    ensures Spread(ContentTypeHeader, CorsHeaders) == ContentTypeHeader + CorsHeaders
  {
    assert Keys(CorsHeaders) == {"Access-Control-Allow-Origin", "Access-Control-Allow-Methods",
                                 "Access-Control-Allow-Headers"};
    assert UniqueKeys(CorsHeaders);
    SpreadDisjoint(ContentTypeHeader, CorsHeaders);
  }

  // ----- JSON rendering -----

  function OptionalString(s: Option<string>): Option<Json> {
    if s.Some? then Some(Str(s.value)) else None
  }

  function OptionalNumber(n: Option<nat>): Option<Json> {
    if n.Some? then Some(Number(n.value)) else None
  }

  /** `JSON.stringify` of an `AgentResponse`: undefined properties are left out. */
  function ResponseJson(r: AgentResponse): Json {
    Object([("success", Bool(r.success))]
           + Optional("result", OptionalString(r.result))
           + Optional("error", OptionalString(r.error))
           + [("timestamp", Str(r.timestamp))]
           + Optional("model", OptionalString(r.model))
           + Optional("tokensUsed", OptionalNumber(r.tokensUsed)))
  }

  const InfoJson: Json := Object([
    ("name", Str("Agent on Internet")),
    ("version", Str("1.0.0")),
    ("description", Str("AI Task Automation Agent powered by Google AI")),
    ("endpoints", Object([
      ("/", Str("Health check")),
      ("/health", Str("Health check")),
      ("/agent", Str("POST - Process a task")),
      ("/info", Str("GET - API information"))])),
    ("exampleRequest", Object([
      ("endpoint", Str("/agent")),
      ("method", Str("POST")),
      ("body", Object([
        ("task", Str("What is the capital of France?")),
        ("context", Str("Optional context information")),
        ("model", Str("gemini-1.5-flash"))]))]))])

  /** The JSON document each payload is written as. */
  function Render(p: Payload): Json {
    match p
    case Health(timestamp, hasApiKey) =>
      Object([("status", Str("healthy")), ("message", Str("Agent is running")),
              ("timestamp", Str(timestamp)), ("hasApiKey", Bool(hasApiKey))])
    case Failure(error) => Object([("success", Bool(false)), ("error", Str(error))])
    case Processed(response) => ResponseJson(response)
    case Description => InfoJson
    case NotFound =>
      Object([("success", Bool(false)), ("error", Str("Not found")),
              ("availableEndpoints", Array([Str("/"), Str("/health"), Str("/agent"), Str("/info")]))])
  }
}
