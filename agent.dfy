/** The task processor of the worker: the `Agent` class, its AI branch
    (`processTask`, `buildPrompt`, the reply rules of `callGoogleAI`) and the
    keyword fallback (`processFallback`). The network call and the clock are
    parameters: `provider` answers the one outbound request, `startTime` is
    the time captured when processing starts. */
module TaskAgent {
  import opened Wrappers
  import opened Text

  const DefaultModel: string := "gemini-2.5-flash"
  const FallbackModel: string := "fallback"
  const MaxOutputTokens: nat := 1024
  const TopK: nat := 40
  const UnknownErrorMessage: string := "Unknown error occurred"
  const NoResponseMessage: string := "No response from Google AI"
  /** What a JavaScript engine (V8) throws for `parts[0].text` when `parts` is empty. */
  const MissingPartMessage: string := "Cannot read properties of undefined (reading 'text')"

  /** The agent's configuration; it is set once, by the constructor. */
  datatype Agent = Agent(apiKey: string, model: string)

  /** `new Agent(apiKey, model?)`: an omitted model selects the default one. */
  function NewAgent(apiKey: string, model: Option<string>): (a: Agent)
    ensures a.apiKey == apiKey
    ensures model.None? ==> a.model == DefaultModel
    ensures model.Some? ==> a.model == model.value
  {
    Agent(apiKey, if model.Some? then model.value else DefaultModel)
  }

  datatype AgentRequest = AgentRequest(task: string, context: Option<string>, model: Option<string>)

  datatype AgentResponse = AgentResponse(
    success: bool,
    result: Option<string>,
    error: Option<string>,
    timestamp: string,
    model: Option<string>,
    tokensUsed: Option<nat>)

  /** Exactly one of `result` and `error` is set and `success` says which;
      a failed response names no model and no token count. */
  predicate WellFormed(r: AgentResponse) {
    && r.result.Some? != r.error.Some?
    && r.success == r.result.Some?
    && (!r.success ==> r.model.None? && r.tokensUsed.None?)
  }

  /** A value thrown while a task is processed: an `Error` object or anything else. */
  datatype Thrown = ErrorObject(message: string) | NonError

  /** `error instanceof Error ? error.message : otherwise`. */
  function MessageOf(e: Thrown, otherwise: string): string {
    if e.ErrorObject? then e.message else otherwise
  }

  // The provider's reply, in the shape the code reads it.
  datatype Part = Part(text: string)
  datatype Candidate = Candidate(parts: seq<Part>)
  datatype Usage = Usage(totalTokenCount: Option<nat>)
  datatype GenerateResponse = GenerateResponse(candidates: Option<seq<Candidate>>, usageMetadata: Option<Usage>)

  /** An HTTP reply: its status, its body as text, and its body parsed as JSON
      (or what `response.json()` throws). */
  datatype Reply = Reply(status: nat, bodyText: string, bodyJson: Result<GenerateResponse, Thrown>)

  /** What the one outbound `fetch` yields: a reply, or a rejection. */
  datatype ProviderCall = Replied(reply: Reply) | FetchFailed(thrown: Thrown)

  /** The outbound request: credential, model, prompt and the integer generation parameters. */
  datatype ProviderRequest = ProviderRequest(apiKey: string, model: string, prompt: string, maxOutputTokens: nat, topK: nat)

  /** What `callGoogleAI` resolves to. */
  datatype Generated = Generated(text: string, tokensUsed: Option<nat>)

  /** `response.ok`. */
  predicate IsOk(status: nat) {
    200 <= status <= 299
  }

  function ApiErrorMessage(status: nat, body: string): string {
    "Google AI API error (" + NatToString(status) + "): " + body
  }

  /** The reply carries text: an OK status, a parsed body, a first candidate with a first part. */
  predicate Answered(call: ProviderCall) {
    && call.Replied?
    && IsOk(call.reply.status)
    && call.reply.bodyJson.Ok?
    && var data := call.reply.bodyJson.value;
    && data.candidates.Some?
    && |data.candidates.value| > 0
    && |data.candidates.value[0].parts| > 0
  }

  /** The text of the first candidate's first part, for an answered call. */
  function FirstText(call: ProviderCall): string
    requires Answered(call)
  {
    call.reply.bodyJson.value.candidates.value[0].parts[0].text
  }

  /** `data.usageMetadata?.totalTokenCount`. */
  function TotalTokens(usage: Option<Usage>): Option<nat> {
    if usage.Some? then usage.value.totalTokenCount else None
  }

  /** The reply rules of `callGoogleAI`: a non-OK status, an unparsable body,
      a missing or empty candidate list and a missing first part each throw;
      otherwise the first candidate's first text and the reported token total. */
  function ReadReply(call: ProviderCall): (r: Result<Generated, Thrown>)
    ensures r.Ok? <==> Answered(call)
    ensures r.Ok? ==> r.value.text == FirstText(call)
    ensures r.Ok? ==> r.value.tokensUsed == TotalTokens(call.reply.bodyJson.value.usageMetadata)
  {
    match call
    case FetchFailed(e) => Err(e)
    case Replied(reply) =>
      if !IsOk(reply.status) then Err(ErrorObject(ApiErrorMessage(reply.status, reply.bodyText)))
      else match reply.bodyJson
        case Err(e) => Err(e)
        case Ok(data) =>
          if data.candidates.None? || |data.candidates.value| == 0 then Err(ErrorObject(NoResponseMessage))
          else if |data.candidates.value[0].parts| == 0 then Err(ErrorObject(MissingPartMessage))
          else Ok(Generated(data.candidates.value[0].parts[0].text, TotalTokens(data.usageMetadata)))
  }

  /** `request.model || this.model`: never empty once the agent has a model. */
  function ModelToUse(agent: Agent, request: AgentRequest): (m: string)
    ensures Truthy(request.model) ==> m == request.model.value
    ensures !Truthy(request.model) ==> m == agent.model
    ensures agent.model != "" ==> m != ""
  {
    if Truthy(request.model) then request.model.value else agent.model
  }

  const ContextLabel: string := "Context: "
  const TaskLabel: string := "\n\nTask: "
  const PromptSuffix: string := "\n\nPlease provide a helpful and concise response."

  /** `buildPrompt`: an absent or empty context leaves the task as it is. */
  function BuildPrompt(task: string, context: Option<string>): string {
    if Truthy(context) then ContextLabel + context.value + TaskLabel + task + PromptSuffix
    else task
  }

  /** The request `processTask` sends for `request`. */
  function Outbound(agent: Agent, request: AgentRequest): ProviderRequest {
    ProviderRequest(agent.apiKey, ModelToUse(agent, request), BuildPrompt(request.task, request.context),
                    MaxOutputTokens, TopK)
  }

  function CallGoogleAI(agent: Agent, request: AgentRequest, provider: ProviderRequest -> ProviderCall): Result<Generated, Thrown> {
    ReadReply(provider(Outbound(agent, request)))
  }

  /** `processTask`: one provider call, mapped to a response stamped with the start time. */
  function ProcessTask(agent: Agent, request: AgentRequest, startTime: string,
                       provider: ProviderRequest -> ProviderCall): (r: AgentResponse)
    ensures WellFormed(r)
    ensures r.timestamp == startTime
    ensures r.success <==> Answered(provider(Outbound(agent, request)))
    ensures r.success ==> r.model == Some(ModelToUse(agent, request))
  {
    match CallGoogleAI(agent, request, provider)
    case Ok(g) => AgentResponse(true, Some(g.text), None, startTime, Some(ModelToUse(agent, request)), g.tokensUsed)
    case Err(e) => AgentResponse(false, None, Some(MessageOf(e, UnknownErrorMessage)), startTime, None, None)
  }

  // ----- keyword fallback -----

  const GreetingReply: string :=
    "Hello! " + "I'm a task automation agent. "
    + "I can help you with various tasks when configured with Google AI API."
  const TimeLabel: string := "The current timestamp is: "
  const CapabilitiesReply: string :=
    "I'm an AI agent that can:\n"
    + "- Answer questions\n"
    + "- Process tasks\n"
    + "- Provide assistance\n"
    + "\n"
    + "To unlock full AI capabilities, configure the GOOGLE_AI_API_KEY secret."
  const EchoLabel: string := "Received task: \""
  const EchoSuffix: string := "\". " + "To process this with AI, please configure the GOOGLE_AI_API_KEY secret."

  function EchoReply(task: string): string {
    EchoLabel + task + EchoSuffix
  }

  /** The reply of `processFallback`: the first rule whose keyword the lower-cased task includes. */
  function FallbackReply(task: string, startTime: string): string {
    var lowered := Lower(task);
    if Contains(lowered, "hello") || Contains(lowered, "hi") then GreetingReply
    else if Contains(lowered, "time") then TimeLabel + startTime
    else if Contains(lowered, "help") || Contains(lowered, "what can you do") then CapabilitiesReply
    else EchoReply(task)
  }

  /** `processFallback`: always a success, from the fallback model, with no error. */
  function ProcessFallback(request: AgentRequest, startTime: string): (r: AgentResponse)
    ensures WellFormed(r) && r.success
    ensures r.model == Some(FallbackModel) && r.error.None? && r.tokensUsed.None?
    ensures r.timestamp == startTime
    ensures r.result.Some?
  {
    AgentResponse(true, Some(FallbackReply(request.task, startTime)), None, startTime, Some(FallbackModel), None)
  }
}
