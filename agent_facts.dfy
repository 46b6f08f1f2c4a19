/** Properties of the task processor: prompt assembly, model choice, the
    mapping from provider outcome to response, and the fallback's rule order. */
module TaskAgentFacts {
  import opened Wrappers
  import opened Text
  import opened TaskAgent

  // ----- prompt and model -----

  /** The prompt is the bare task exactly when no (non-empty) context is given. */
  lemma PromptIsTaskIffNoContext(task: string, context: Option<string>)
    ensures BuildPrompt(task, context) == task <==> !Truthy(context)
  {
    if Truthy(context) {
      assert |BuildPrompt(task, context)| > |task|;
    }
  }

  /** The prompt always carries the task, and a given context, labelled, in front of it. */
  lemma PromptCarriesTaskAndContext(task: string, context: Option<string>)
    ensures Occurs(BuildPrompt(task, context), task)
    ensures Truthy(context) ==> IsPrefix(ContextLabel, BuildPrompt(task, context))
    ensures Truthy(context) ==> OccursAt(BuildPrompt(task, context), context.value, |ContextLabel|)
  {
    var p := BuildPrompt(task, context);
    if Truthy(context) {
      var c := context.value;
      var at := |ContextLabel| + |c| + |TaskLabel|;
      assert p == ContextLabel + c + TaskLabel + task + PromptSuffix;
      assert p[at..at + |task|] == task;
      assert OccursAt(p, task, at);
      assert p[|ContextLabel|..|ContextLabel| + |c|] == c;
      assert p[..|ContextLabel|] == ContextLabel;
    } else {
      assert p[0..|task|] == task;
      assert OccursAt(p, task, 0);
    }
  }

  /** An agent built without a model uses "gemini-2.5-flash" unless the request names one. */
  lemma DefaultModelUnlessRequested(apiKey: string, request: AgentRequest)
    ensures ModelToUse(NewAgent(apiKey, None), request) ==
            if Truthy(request.model) then request.model.value else "gemini-2.5-flash"
  {
  }

  /** A successful response names exactly the model its request was sent to,
      and for a worker-built agent that model is never empty. */
  lemma SuccessNamesRequestedModel(agent: Agent, request: AgentRequest, startTime: string,
                                   provider: ProviderRequest -> ProviderCall)
    ensures var r := ProcessTask(agent, request, startTime, provider);
            r.success ==> r.model == Some(Outbound(agent, request).model)
    ensures var r := ProcessTask(agent, request, startTime, provider);
            r.success && agent.model != "" ==> r.model.Some? && r.model.value != ""
  {
  }

  // ----- provider outcome to response -----

  /** A non-OK status is reported with the status code and the raw body text. */
  lemma HttpErrorReported(agent: Agent, request: AgentRequest, startTime: string,
                          provider: ProviderRequest -> ProviderCall)
    requires provider(Outbound(agent, request)).Replied?
    requires !IsOk(provider(Outbound(agent, request)).reply.status)
    ensures var reply := provider(Outbound(agent, request)).reply;
            ProcessTask(agent, request, startTime, provider) ==
            AgentResponse(false, None, Some(ApiErrorMessage(reply.status, reply.bodyText)), startTime, None, None)
  {
  }

  /** An OK reply without candidates is reported as "No response from Google AI". */
  lemma NoCandidatesReported(agent: Agent, request: AgentRequest, startTime: string,
                             provider: ProviderRequest -> ProviderCall)
    requires provider(Outbound(agent, request)).Replied?
    requires var reply := provider(Outbound(agent, request)).reply;
             IsOk(reply.status) && reply.bodyJson.Ok?
             && (reply.bodyJson.value.candidates.None? || reply.bodyJson.value.candidates.value == [])
    ensures ProcessTask(agent, request, startTime, provider) ==
            AgentResponse(false, None, Some("No response from Google AI"), startTime, None, None)
  {
  }

  /** Anything thrown by the call itself or by parsing its body keeps its message;
      a thrown non-Error becomes "Unknown error occurred". */
  lemma ThrownReported(agent: Agent, request: AgentRequest, startTime: string,
                       provider: ProviderRequest -> ProviderCall, e: Thrown)
    requires var call := provider(Outbound(agent, request));
             call == FetchFailed(e)
             || (call.Replied? && IsOk(call.reply.status) && call.reply.bodyJson == Err(e))
    ensures ProcessTask(agent, request, startTime, provider) ==
            AgentResponse(false, None,
                          Some(if e.ErrorObject? then e.message else "Unknown error occurred"),
                          startTime, None, None)
  {
  }

  /** An answered call gives the first candidate's first text, the chosen model and
      the reported token total (absent when the reply reports none). */
  lemma FirstCandidateReturned(agent: Agent, request: AgentRequest, startTime: string,
                               provider: ProviderRequest -> ProviderCall)
    requires Answered(provider(Outbound(agent, request)))
    ensures var call := provider(Outbound(agent, request));
            var data := call.reply.bodyJson.value;
            ProcessTask(agent, request, startTime, provider) ==
            AgentResponse(true, Some(data.candidates.value[0].parts[0].text), None, startTime,
                          Some(ModelToUse(agent, request)),
                          if data.usageMetadata.Some? then data.usageMetadata.value.totalTokenCount else None)
  {
  }

  /** The response depends on the provider only through its answer to the one request sent. */
  lemma OnlyTheOutboundRequestMatters(agent: Agent, request: AgentRequest, startTime: string,
                                      p: ProviderRequest -> ProviderCall, q: ProviderRequest -> ProviderCall)
    requires p(Outbound(agent, request)) == q(Outbound(agent, request))
    ensures ProcessTask(agent, request, startTime, p) == ProcessTask(agent, request, startTime, q)
  {
  }

  /** Strings of digits followed by text starting with ')' split in one way only. */
  lemma DigitsSplitUniquely(d1: string, r1: string, d2: string, r2: string)
    requires AllDigits(d1) && AllDigits(d2)
    requires |r1| > 0 && |r2| > 0 && r1[0] == ')' && r2[0] == ')'
    requires d1 + r1 == d2 + r2
    ensures d1 == d2 && r1 == r2
  {
    var k := if |d1| < |d2| then |d1| else |d2|;
    assert (d1 + r1)[k] == (d2 + r2)[k];
    assert |d1| == |d2|;
    assert d1 == (d1 + r1)[..|d1|];
    assert d2 == (d2 + r2)[..|d2|];
    assert r1 == (d1 + r1)[|d1|..];
    assert r2 == (d2 + r2)[|d2|..];
  }

  /** The status code and the body text can be read back from the error message. */
  lemma ApiErrorMessageInjective(s1: nat, b1: string, s2: nat, b2: string)
    requires ApiErrorMessage(s1, b1) == ApiErrorMessage(s2, b2)
    ensures s1 == s2 && b1 == b2
  {
    var lead := "Google AI API error (";
    var sep := "): ";
    var d1, d2 := NatToString(s1), NatToString(s2);
    assert ApiErrorMessage(s1, b1) == lead + (d1 + (sep + b1));
    assert ApiErrorMessage(s2, b2) == lead + (d2 + (sep + b2));
    assert d1 + (sep + b1) == ApiErrorMessage(s1, b1)[|lead|..];
    assert d2 + (sep + b2) == ApiErrorMessage(s2, b2)[|lead|..];
    DigitsSplitUniquely(d1, sep + b1, d2, sep + b2);
    assert b1 == (sep + b1)[|sep|..];
    assert b2 == (sep + b2)[|sep|..];
    NatToStringRoundTrip(s1);
    NatToStringRoundTrip(s2);
  }

  /** A provider answering 500 yields a failed response whose error mentions "500". */
  lemma Status500Mentioned(agent: Agent, request: AgentRequest, startTime: string,
                           provider: ProviderRequest -> ProviderCall)
    requires provider(Outbound(agent, request)).Replied?
    requires provider(Outbound(agent, request)).reply.status == 500
    ensures var r := ProcessTask(agent, request, startTime, provider);
            !r.success && r.error.Some? && Occurs(r.error.value, "500")
  {
    var reply := provider(Outbound(agent, request)).reply;
    var m := ApiErrorMessage(500, reply.bodyText);
    assert NatToString(500) == "500";
    assert m[21..24] == "500";
    assert OccursAt(m, "500", 21);
  }

  // ----- fallback -----

  ghost predicate Greets(task: string) {
    Occurs(Lower(task), "hello") || Occurs(Lower(task), "hi")
  }

  ghost predicate AsksTime(task: string) {
    Occurs(Lower(task), "time")
  }

  ghost predicate AsksHelp(task: string) {
    Occurs(Lower(task), "help") || Occurs(Lower(task), "what can you do")
  }

  /** `FallbackReply` tests exactly the keyword occurrences the rules name. */
  lemma FallbackBranches(task: string, startTime: string)
    ensures Greets(task) ==> FallbackReply(task, startTime) == GreetingReply
    ensures !Greets(task) && AsksTime(task) ==> FallbackReply(task, startTime) == TimeLabel + startTime
    ensures !Greets(task) && !AsksTime(task) && AsksHelp(task) ==> FallbackReply(task, startTime) == CapabilitiesReply
    ensures !Greets(task) && !AsksTime(task) && !AsksHelp(task) ==> FallbackReply(task, startTime) == EchoReply(task)
  {
    var l := Lower(task);
    ContainsIffOccurs(l, "hello");
    ContainsIffOccurs(l, "hi");
    ContainsIffOccurs(l, "time");
    ContainsIffOccurs(l, "help");
    ContainsIffOccurs(l, "what can you do");
  }

  /** The four replies start with four different letters. */
  lemma ReplyHeads(task: string, startTime: string)
    ensures GreetingReply[0] == 'H' && CapabilitiesReply[0] == 'I'
    ensures (TimeLabel + startTime)[0] == 'T' && EchoReply(task)[0] == 'R'
    ensures |TimeLabel| > 0 && TimeLabel[0] == 'T' && |EchoLabel| > 0 && EchoLabel[0] == 'R'
  {
  }

  lemma PrefixHead(p: string, s: string)
    requires IsPrefix(p, s) && |p| > 0
    ensures s[0] == p[0]
  {
    assert s[..|p|][0] == s[0];
  }

  /** The greeting is given exactly when the lower-cased task includes "hello" or "hi",
      whatever else it includes. */
  lemma GreetingIff(task: string, startTime: string)
    ensures FallbackReply(task, startTime) == GreetingReply <==> Greets(task)
  {
    FallbackBranches(task, startTime);
    ReplyHeads(task, startTime);
  }

  /** The time reply is given exactly when no greeting keyword but "time" occurs,
      and it then ends with the start time. */
  lemma TimeIff(task: string, startTime: string)
    ensures IsPrefix(TimeLabel, FallbackReply(task, startTime)) <==> !Greets(task) && AsksTime(task)
    ensures !Greets(task) && AsksTime(task) ==>
            OccursAt(FallbackReply(task, startTime), startTime, |TimeLabel|)
  {
    FallbackBranches(task, startTime);
    ReplyHeads(task, startTime);
    var r := FallbackReply(task, startTime);
    if !Greets(task) && AsksTime(task) {
      assert r[..|TimeLabel|] == TimeLabel;
      assert r[|TimeLabel|..|TimeLabel| + |startTime|] == startTime;
    } else if IsPrefix(TimeLabel, r) {
      PrefixHead(TimeLabel, r);
    }
  }

  /** The capabilities text is given exactly when neither earlier rule matched but
      "help" or "what can you do" occurs. */
  lemma CapabilitiesIff(task: string, startTime: string)
    ensures FallbackReply(task, startTime) == CapabilitiesReply <==>
            !Greets(task) && !AsksTime(task) && AsksHelp(task)
  {
    FallbackBranches(task, startTime);
    ReplyHeads(task, startTime);
  }

  /** When no keyword occurs, the reply quotes the task as given, before lower-casing. */
  lemma EchoIff(task: string, startTime: string)
    ensures IsPrefix(EchoLabel, FallbackReply(task, startTime)) <==>
            !Greets(task) && !AsksTime(task) && !AsksHelp(task)
    ensures !Greets(task) && !AsksTime(task) && !AsksHelp(task) ==>
            OccursAt(FallbackReply(task, startTime), task, |EchoLabel|)
  {
    FallbackBranches(task, startTime);
    ReplyHeads(task, startTime);
    var r := FallbackReply(task, startTime);
    if !Greets(task) && !AsksTime(task) && !AsksHelp(task) {
      assert r == EchoLabel + task + EchoSuffix;
      assert r[..|EchoLabel|] == EchoLabel;
      assert r[|EchoLabel|..|EchoLabel| + |task|] == task;
    } else if IsPrefix(EchoLabel, r) {
      PrefixHead(EchoLabel, r);
    }
  }

  /** A keyword matches in any mix of ASCII letter case. */
  lemma GreetingInAnyCase(task: string, word: string, startTime: string)
    requires Occurs(task, word)
    requires Lower(word) == "hello" || Lower(word) == "hi"
    ensures FallbackReply(task, startTime) == GreetingReply
  {
    OccursLower(task, word);
    FallbackBranches(task, startTime);
  }

  /** Tasks that lower-case alike get the same reply, unless both are echoed. */
  lemma FallbackCaseInsensitive(a: string, b: string, startTime: string)
    requires Lower(a) == Lower(b)
    ensures FallbackReply(a, startTime) == FallbackReply(b, startTime)
            || (FallbackReply(a, startTime) == EchoReply(a) && FallbackReply(b, startTime) == EchoReply(b))
  {
  }

  /** When the time rule applies, the reply carries the response's own timestamp. */
  lemma TimeReplyCarriesTimestamp(request: AgentRequest, startTime: string)
    requires !Greets(request.task) && AsksTime(request.task)
    ensures var r := ProcessFallback(request, startTime);
            r.result == Some(TimeLabel + r.timestamp) && Occurs(r.result.value, r.timestamp)
  {
    TimeIff(request.task, startTime);
    FallbackBranches(request.task, startTime);
  }

  /** "hi" is matched inside other words: "What time is this?" is greeted, not timed. */
  lemma HiInsideAWord(task: string, startTime: string)
    requires task == "What time is this?"
    ensures FallbackReply(task, startTime) == GreetingReply
  {
    assert task[14..16] == "hi";
    assert OccursAt(task, "hi", 14);
    GreetingInAnyCase(task, "hi", startTime);
  }
}
