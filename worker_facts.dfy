/** Properties of the dispatcher: which request gets which status and
    payload, the header set, and what the JSON documents contain. */
module WorkerFacts {
  import opened Wrappers
  import opened Text
  import opened Records
  import opened Json
  import opened TaskAgent
  import opened TaskAgentFacts
  import opened Worker

  predicate IsTaskPath(req: Inbound) {
    req.path == "/agent" && req.verb == "POST"
  }

  /** A preflight is answered before the path is looked at: null body, CORS headers only. */
  lemma PreflightAnyPath(req: Inbound, env: Env, now: string, provider: ProviderRequest -> ProviderCall)
    requires req.verb == "OPTIONS"
    ensures Route(req, env, now, provider) == HttpResponse(200, CorsHeaders, NoBody)
    ensures "Content-Type" !in Keys(Route(req, env, now, provider).headers)
  {
    assert Keys(CorsHeaders) == {"Access-Control-Allow-Origin", "Access-Control-Allow-Methods",
                                 "Access-Control-Allow-Headers"};
  }

  /** Every other response is JSON and carries the four headers, the CORS values
      taking precedence over `Content-Type` for any name they share. */
  lemma JsonHeaders(payload: Payload, status: nat, additional: seq<(string, string)>, k: string)
    requires UniqueKeys(additional)
    ensures Lookup(JsonResponse(payload, status, additional).headers, k) ==
            if k in Keys(additional) then Lookup(additional, k)
            else if k == "Content-Type" then Some("application/json") else None
  {
    SpreadLookup(ContentTypeHeader, additional, k);
  }

  /** "/" and "/health" answer 200 with the health payload for every method but OPTIONS;
      `hasApiKey` is whether the credential is truthy. */
  lemma HealthRoute(req: Inbound, env: Env, now: string, provider: ProviderRequest -> ProviderCall)
    requires req.verb != "OPTIONS" && (req.path == "/" || req.path == "/health")
    ensures var r := Route(req, env, now, provider);
            r.status == 200 && r.body == JsonBody(Health(now, Truthy(env.apiKey)))
  {
  }

  /** The health answer depends on the credential only through its truthiness: it
      is the same for every two keys that are both set or both unset. */
  lemma HealthHidesKey(req: Inbound, k1: Option<string>, k2: Option<string>, now: string,
                       provider: ProviderRequest -> ProviderCall)
    requires req.verb != "OPTIONS" && (req.path == "/" || req.path == "/health")
    requires Truthy(k1) == Truthy(k2)
    ensures Route(req, Env(k1), now, provider) == Route(req, Env(k2), now, provider)
    ensures Render(Route(req, Env(k1), now, provider).body.payload).members[3] == ("hasApiKey", Bool(Truthy(k1)))
  {
  }

  /** A POST to "/agent" whose `task` is missing, empty or not a string is answered 400;
      nothing else is. */
  lemma BadRequestIff(req: Inbound, env: Env, now: string, provider: ProviderRequest -> ProviderCall)
    ensures var r := Route(req, env, now, provider);
            r.status == 400 <==>
            req.verb != "OPTIONS" && req.path != "/" && req.path != "/health" && IsTaskPath(req)
            && req.body.Fields? && !ValidTask(req.body.task)
    ensures Route(req, env, now, provider).status == 400 ==>
            Route(req, env, now, provider).body == JsonBody(Failure("Invalid request: \"task\" field is required"))
  {
  }

  /** A valid POST to "/agent" is answered 200 whatever the processor's `success` says;
      the AI branch is taken exactly when the credential is truthy. */
  lemma TaskRoute(req: Inbound, env: Env, now: string, provider: ProviderRequest -> ProviderCall)
    requires req.verb == "POST" && req.path == "/agent"
    requires req.body.Fields? && ValidTask(req.body.task)
    ensures var r := Route(req, env, now, provider);
            var request := AgentRequest(req.body.task.value, req.body.context, req.body.model);
            && r.status == 200
            && r.body == JsonBody(Processed(
                 if Truthy(env.apiKey) then ProcessTask(Agent(env.apiKey.value, "gemini-2.5-flash"), request, now, provider)
                 else ProcessFallback(request, now)))
  {
  }

  /** A failing provider still yields status 200, with `success` false. */
  lemma ProviderFailureStill200(req: Inbound, key: string, now: string, provider: ProviderRequest -> ProviderCall)
    requires req.verb == "POST" && req.path == "/agent"
    requires req.body.Fields? && ValidTask(req.body.task)
    requires key != ""
    requires !Answered(provider(Outbound(Agent(key, DefaultModel),
                                         AgentRequest(req.body.task.value, req.body.context, req.body.model))))
    ensures var r := Route(req, Env(Some(key)), now, provider);
            r.status == 200 && r.body.payload.Processed? && !r.body.payload.response.success
  {
  }

  /** A body that cannot be read as JSON, or reads as `null`, is answered 500 with the
      thrown message ("Internal server error" for a non-Error); nothing else is. */
  lemma ServerErrorIff(req: Inbound, env: Env, now: string, provider: ProviderRequest -> ProviderCall)
    ensures var r := Route(req, env, now, provider);
            r.status == 500 <==>
            req.verb != "OPTIONS" && req.path != "/" && req.path != "/health" && IsTaskPath(req)
            && (req.body.Unparsable? || req.body.NullBody?)
    ensures req.verb == "POST" && req.path == "/agent" && req.body.Unparsable? ==>
            Route(req, env, now, provider).body ==
            JsonBody(Failure(if req.body.thrown.ErrorObject? then req.body.thrown.message else "Internal server error"))
    ensures req.verb == "POST" && req.path == "/agent" && req.body.NullBody? ==>
            Route(req, env, now, provider).body == JsonBody(Failure(NullBodyMessage))
  {
  }

  /** "/info" answers 200 with the static description for every method but OPTIONS. */
  lemma InfoRoute(req: Inbound, env: Env, now: string, provider: ProviderRequest -> ProviderCall)
    requires req.verb != "OPTIONS" && req.path == "/info"
    ensures Route(req, env, now, provider) ==
            HttpResponse(200, ContentTypeHeader + CorsHeaders, JsonBody(Description))
  {
  }

  /** Exactly the paths outside the four routes, and non-POST requests to "/agent",
      are answered 404 (matching is exact and case-sensitive). */
  lemma NotFoundIff(req: Inbound, env: Env, now: string, provider: ProviderRequest -> ProviderCall)
    requires req.verb != "OPTIONS"
    ensures var r := Route(req, env, now, provider);
            r.status == 404 <==> req.path !in AvailableEndpoints || (req.path == "/agent" && req.verb != "POST")
    ensures Route(req, env, now, provider).status == 404 ==> Route(req, env, now, provider).body == JsonBody(NotFound)
  {
    assert req.path in AvailableEndpoints <==>
           req.path == "/" || req.path == "/health" || req.path == "/agent" || req.path == "/info";
  }

  /** The listed endpoints are exactly the paths some POST request is routed on. */
  lemma EndpointListIsAccurate(path: string, env: Env, now: string, provider: ProviderRequest -> ProviderCall)
    ensures path in AvailableEndpoints <==>
            Route(Inbound("POST", path, Fields(TaskString("ping"), None, None)), env, now, provider).status != 404
  {
    var req := Inbound("POST", path, Fields(TaskString("ping"), None, None));
    NotFoundIff(req, env, now, provider);
    assert req.path == "/agent" ==> req.verb == "POST";
  }

  /** The 404 document names the listed endpoints, in order. */
  lemma NotFoundDocumentListsEndpoints()
    ensures Render(NotFound).members[2].0 == "availableEndpoints"
    ensures var items := Render(NotFound).members[2].1.items;
            |items| == |AvailableEndpoints| && forall i :: 0 <= i < |items| ==> items[i] == Str(AvailableEndpoints[i])
  {
  }

  /** The rendered processor response has exactly one of "result" and "error",
      besides its "success" flag and "timestamp". */
  lemma RenderedResponseHasOneOutcome(r: AgentResponse)
    requires WellFormed(r)
    ensures var members := ResponseJson(r).members;
            && ("result" in Keys(members)) != ("error" in Keys(members))
            && ("result" in Keys(members) <==> r.success)
            && Lookup(members, "success") == Some(Bool(r.success))
            && "timestamp" in Keys(members)
  {
    var a := [("success", Bool(r.success))];
    var b := Optional("result", OptionalString(r.result));
    var c := Optional("error", OptionalString(r.error));
    var d := [("timestamp", Str(r.timestamp))];
    var e := Optional("model", OptionalString(r.model));
    var f := Optional("tokensUsed", OptionalNumber(r.tokensUsed));
    KeysAppend(a, b);
    KeysAppend(a + b, c);
    KeysAppend(a + b + c, d);
    KeysAppend(a + b + c + d, e);
    KeysAppend(a + b + c + d + e, f);
    assert Keys(e) <= {"model"} && Keys(f) <= {"tokensUsed"};
    assert ResponseJson(r).members == a + b + c + d + e + f;
  }

  /** The fallback greets "hello there". */
  lemma HelloThereGreeted(task: string, now: string)
    requires task == "hello there"
    ensures FallbackReply(task, now) == GreetingReply
  {
    assert task[0..5] == "hello";
    assert OccursAt(task, "hello", 0);
    GreetingInAnyCase(task, "hello", now);
  }

  /** Without a credential, "hello there" is greeted by the fallback with status 200. */
  lemma GreetingWithoutKey(task: string, now: string, provider: ProviderRequest -> ProviderCall)
    requires task == "hello there"
    ensures var r := Route(Inbound("POST", "/agent", Fields(TaskString(task), None, None)), Env(None), now, provider);
            r.status == 200
            && r.body == JsonBody(Processed(AgentResponse(true, Some(GreetingReply), None, now, Some("fallback"), None)))
  {
    HelloThereGreeted(task, now);
    TaskRoute(Inbound("POST", "/agent", Fields(TaskString(task), None, None)), Env(None), now, provider);
  }
}
