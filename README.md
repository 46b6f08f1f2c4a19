# agent-on-internet, modelled in Dafny

A model of the two pieces of the "Agent on Internet" Cloudflare Worker:

- the **task processor** (`src/agent.ts`): the `Agent` configuration, `processTask`
  (model choice, prompt assembly, one call to the Gemini `generateContent`
  endpoint and the mapping of its outcome to an `AgentResponse`), and
  `processFallback`, the keyword responder used when no credential is configured;
- the **dispatcher** (`src/index.ts`): the routing decision of `fetch`
  (CORS preflight, health, `/agent` validation and branch choice, info, 404,
  500) and the header merge of `jsonResponse`.

Everything is pure. The network call is the parameter
`provider: ProviderRequest -> ProviderCall`: `processTask` builds one
`ProviderRequest` (credential, model, prompt, `maxOutputTokens` 1024, `topK` 40)
and the provider's answer is a reply (status, body text, body parsed as JSON or
what parsing threw) or a rejected `fetch`. The clock is a string parameter
(`startTime` / `now`). A request reaches `Route` as its method (`verb`), its URL
path and the outcome of `request.json()`.

Modules, one per concern:

| file | module | models |
|---|---|---|
| `wrappers.dfy` | `Wrappers` | `Option`, `Result` |
| `text.dfy` | `Text` | `includes`, ASCII `toLowerCase`, decimal printing of a status, string truthiness |
| `records.dfy` | `Records` | JavaScript objects as property lists in insertion order; assignment and `{...a, ...b}` |
| `json.dfy` | `Json` | JSON values; `undefined` properties left out |
| `agent.dfy` | `TaskAgent` | `src/agent.ts` |
| `agent_facts.dfy` | `TaskAgentFacts` | properties of `src/agent.ts` |
| `worker.dfy` | `Worker` | `src/index.ts` |
| `worker_facts.dfy` | `WorkerFacts` | properties of `src/index.ts` |

Behaviour worth noting: an empty `task` string is rejected with 400 as well as a
missing or non-string one (the `!agentRequest.task` test); the preflight answer
has status 200 (the `Response` default); the request's `model` is passed through
unchecked.

## Model

| member | source | states |
|---|---|---|
| `Text.ContainsIffOccurs` | src/agent.ts:120-124 | the left-to-right scan used for `includes` succeeds exactly when the word occurs at some index |
| `Text.Lower` | src/agent.ts:116 | lower-casing keeps the length, lowers each ASCII letter in place and leaves no upper-case ASCII letter |
| `Text.OccursLower` | src/agent.ts:116 | a word occurring in the task in any letter case occurs lower-cased in the lowered task |
| `Text.NatToString` | src/agent.ts:94 | a status is printed as a non-empty string of decimal digits without a leading zero |
| `Text.NatToStringRoundTrip` | src/agent.ts:94 | reading the printed digits back gives the status |
| `Records.Lookup` | src/index.ts:129-132 | a property lookup finds a value exactly for the keys the object has |
| `Records.Assign` | src/index.ts:129-132 | assigning a property sets that key, keeps every other key's value, keeps keys unique and appends a new key last |
| `Records.Spread` | src/index.ts:129-132 | a spread yields the union of both key sets and keeps keys unique |
| `Records.SpreadLookup` | src/index.ts:129-132 | after `{...base, ...extra}` a key of `extra` has `extra`'s value and any other key keeps `base`'s |
| `Records.SpreadDisjoint` | src/index.ts:129-132 | spreading properties with new keys appends them in their order |
| `TaskAgent.NewAgent` | src/agent.ts:10-13 | the constructor keeps the key and uses "gemini-2.5-flash" when no model is passed |
| `TaskAgent.ReadReply` | src/agent.ts:92-106 | the call yields text exactly when the status is OK, the body parses and the first candidate has a first part; the text is that part's and the token count is `usageMetadata.totalTokenCount` |
| `TaskAgent.ModelToUse` | src/agent.ts:23 | the `||` never yields an empty model once the agent's model is set; it is the request's model when that is non-empty, the agent's otherwise |
| `TaskAgentFacts.SuccessNamesRequestedModel` | src/agent.ts:23-35 | a successful response names exactly the model the provider request was sent to, which is non-empty for an agent with a model |
| `TaskAgent.ProcessTask` | src/agent.ts:18-44 | exactly one of result and error is set; the timestamp is the start time; success holds exactly when the provider answered with text; a success names the chosen model |
| `TaskAgent.ProcessFallback` | src/agent.ts:112-141 | the fallback always succeeds with model "fallback", a result, no error, no token count and the start time |
| `TaskAgentFacts.PromptIsTaskIffNoContext` | src/agent.ts:50-55 | the prompt equals the task exactly when the context is absent or empty |
| `TaskAgentFacts.PromptCarriesTaskAndContext` | src/agent.ts:50-55 | the prompt always contains the task; with a context it starts with "Context: " followed by the context |
| `TaskAgentFacts.DefaultModelUnlessRequested` | src/agent.ts:10-23 | a worker-built agent uses the requested model when non-empty, else "gemini-2.5-flash" |
| `TaskAgentFacts.HttpErrorReported` | src/agent.ts:92-95 | a non-OK status yields the failure "Google AI API error (<status>): <body>" at the start time |
| `TaskAgentFacts.NoCandidatesReported` | src/agent.ts:99-101 | an absent or empty candidate list yields the failure "No response from Google AI" |
| `TaskAgentFacts.ThrownReported` | src/agent.ts:38-44 | a rejected call or an unparsable body yields a failure carrying the thrown message, or "Unknown error occurred" for a non-Error |
| `TaskAgentFacts.FirstCandidateReturned` | src/agent.ts:103-106 | an answered call yields success with the first candidate's first text, the chosen model and the reported token total, absent when not reported |
| `TaskAgentFacts.OnlyTheOutboundRequestMatters` | src/agent.ts:26-29 | the response depends on the provider only through its answer to the one request built from the model and prompt |
| `TaskAgentFacts.ApiErrorMessageInjective` | src/agent.ts:94 | the status and the body text can be recovered from the API error message |
| `TaskAgentFacts.Status500Mentioned` | src/agent.ts:92-95 | a provider answering 500 yields a failure whose message contains "500" |
| `TaskAgentFacts.FallbackBranches` | src/agent.ts:116-133 | the fallback picks greeting, time, capabilities or echo by the first keyword group found in the lowered task |
| `TaskAgentFacts.GreetingIff` | src/agent.ts:120-121 | the greeting is the reply exactly when the lowered task contains "hello" or "hi", whatever else it contains |
| `TaskAgentFacts.TimeIff` | src/agent.ts:122-123 | the reply starts with "The current timestamp is: " exactly when no greeting keyword but "time" occurs, and then ends with the start time |
| `TaskAgentFacts.CapabilitiesIff` | src/agent.ts:124-130 | the capabilities text is the reply exactly when neither earlier group matched but "help" or "what can you do" occurs |
| `TaskAgentFacts.EchoIff` | src/agent.ts:131-132 | the reply starts with `Received task: "` exactly when no keyword occurs, and then quotes the original, un-lowered task |
| `TaskAgentFacts.GreetingInAnyCase` | src/agent.ts:116-121 | "hello" or "hi" in any ASCII letter case triggers the greeting |
| `TaskAgentFacts.FallbackCaseInsensitive` | src/agent.ts:116-133 | tasks that lower-case alike get the same reply unless both are echoed |
| `TaskAgentFacts.TimeReplyCarriesTimestamp` | src/agent.ts:122-139 | under the time rule the result is the label followed by the response's own timestamp, which it contains |
| `TaskAgentFacts.HiInsideAWord` | src/agent.ts:120 | "What time is this?" is greeted, because "hi" occurs inside "this" |
| `Worker.JsonResponse` | src/index.ts:126-133 | a JSON response has the given status and payload and the headers `Content-Type` plus the additional ones |
| `Worker.Answer` | src/index.ts:59-66 | the processor's answer is well formed and stamped with the clock; without a truthy key it comes from the fallback |
| `Worker.Route` | src/index.ts:8-120 | statuses are 200, 400, 404 or 500; OPTIONS gets a null body with only the CORS headers; every other answer is JSON with `Content-Type` followed by the three CORS headers |
| `Worker.CorsAfterContentType` | src/index.ts:10-14 | merging the CORS set after `Content-Type` gives the four headers in that order |
| `WorkerFacts.PreflightAnyPath` | src/index.ts:16-21 | OPTIONS on any path gets status 200, a null body and no `Content-Type` |
| `WorkerFacts.JsonHeaders` | src/index.ts:126-133 | in a JSON response an additional header wins over `Content-Type`, which is otherwise "application/json" |
| `WorkerFacts.HealthRoute` | src/index.ts:28-38 | "/" and "/health" answer 200 with the health payload for any method but OPTIONS; `hasApiKey` is whether the key is truthy |
| `WorkerFacts.HealthHidesKey` | src/index.ts:34 | the health answer is the same for any two keys that are both set or both unset, so it never carries the key |
| `WorkerFacts.BadRequestIff` | src/index.ts:46-55 | 400 is returned exactly for POST "/agent" with a body whose `task` is missing, empty or not a string, with the fixed message |
| `WorkerFacts.TaskRoute` | src/index.ts:57-68 | a valid POST "/agent" gets 200 with the AI answer when the key is truthy and the fallback's otherwise |
| `WorkerFacts.ProviderFailureStill200` | src/index.ts:68 | a provider failure still gives status 200, with `success` false |
| `WorkerFacts.ServerErrorIff` | src/index.ts:109-118 | 500 is returned exactly when the POST "/agent" body fails to parse or is null; an unparsable body carries the thrown message ("Internal server error" for a non-Error) and a null body the TypeError that reading `task` on `null` throws |
| `WorkerFacts.InfoRoute` | src/index.ts:72-97 | "/info" answers 200 with the static description for any method but OPTIONS |
| `WorkerFacts.NotFoundIff` | src/index.ts:99-108 | 404 is returned exactly for paths outside the four routes and for non-POST "/agent", with the not-found payload |
| `WorkerFacts.EndpointListIsAccurate` | src/index.ts:104 | the listed endpoints are exactly the paths a POST is routed on |
| `WorkerFacts.NotFoundDocumentListsEndpoints` | src/index.ts:100-105 | the 404 document's `availableEndpoints` holds the four listed paths in order |
| `WorkerFacts.RenderedResponseHasOneOutcome` | src/agent.ts:31-43 | the JSON of a processor response has exactly one of "result" and "error", plus "success" and "timestamp" |
| `WorkerFacts.GreetingWithoutKey` | src/index.ts:63-66 | without a key, POST "/agent" with task "hello there" gets 200 and the fallback greeting |

## Left out

- The outbound `fetch`, the endpoint URL carrying the key as a query parameter, and the reading of the reply (`response.text()`, `response.json()`): network I/O; their outcome is the `provider` parameter, and the key travels as a field of `ProviderRequest`.
- `temperature` 0.7 and `topP` 0.95: floating-point constants passed straight to the provider.
- `new Date().toISOString()`: the clock, passed in as a string.
- The `Request` and `Response` objects, `new URL(...).pathname` and `JSON.stringify` text: runtime plumbing; `Render` gives the JSON value of each payload, not its pretty-printed text.
- `toLowerCase` beyond ASCII: `Lower` lowers `A`-`Z` only. JavaScript can lower a non-ASCII character into ASCII letters (U+0130 becomes "i" followed by a combining dot), so a task such as "H\u0130" is greeted by the source but echoed by `FallbackReply`. The "only if" halves of `GreetingIff`, `TimeIff`, `CapabilitiesIff` and `EchoIff` therefore describe the source only for ASCII tasks.
- Strings: a Dafny `string` is a sequence of Unicode scalar values, while JavaScript strings are UTF-16 code units; a JSON body can put a lone surrogate (`"\ud800"`) in `task`, and the model cannot represent that task. Keyword matching and the echo agree with the source for every task the model can represent.
- Token counts: `usageMetadata.totalTokenCount`, a JavaScript number, is modelled as a `nat`.
- Records: JavaScript orders integer-like keys first; `Records` keeps insertion order only, which is exact for the header names the worker merges.
- `console.error` logging, the asynchronous execution, and the unused `AGENT_KV` binding.
- Request bodies whose `context` or `model` is present but not a string: such values would be stringified into the prompt or the URL; the model takes both as optional strings.
- Provider payloads that break the declared shape other than by a missing or empty candidate list or an empty `parts` list (a `null` body, a candidate without `content`, a part without `text`).
- The wording of the engine's own `TypeError`s (`parts[0].text` on empty parts, `.task` on a `null` body) is that of V8; other engines word them differently.
- A failure of `response.text()` on a non-OK reply: the body text is taken as read.
- Request methods are compared as given; any normalisation by the runtime happens before the model.
- The constraint on `model` to three names in `src/types.ts` is a type annotation only and not enforced, so it is not modelled.
