// Provider selection, retries, fallback and streaming over arbitrary providers (internal/gateway/gateway.go).
module Gateway {
  import opened Options
  import opened Text
  import opened Messages

  datatype Provider = Provider(name: string, instanceId: string, structuredOutput: bool, reasoning: bool)

  datatype CallParams = CallParams(model: string, messages: seq<Message>, wantsReasoning: bool, needsStructured: bool)

  // Transient: retry here; permanent: try the next provider; context: the caller gave up.
  datatype ErrorClass = ErrorTransient | ErrorPermanent | ErrorContext

  datatype StreamResult = StreamResult(content: string, toolCalls: seq<ToolCall>)

  datatype Signal = TextDelta(text: string) | ReasoningDelta(text: string) | ProviderDone

  // One attempt as the environment plays it out.
  datatype Attempt = Attempt(
    acquired: bool, signals: seq<Signal>, result: Option<StreamResult>, callError: Option<ErrorClass>,
    parentDone: bool, attemptEnded: bool, waited: bool)

  type Oracle = (int, int) -> Attempt

  // What the user sees.
  datatype UserEvent = ShownText(text: string) | ShownReasoning(text: string) | ShownDone

  // One attempt as it was made.
  datatype Made = Made(provider: int, attempt: int, params: CallParams, shown: seq<UserEvent>)

  datatype GatewayError =
    NoProvider | ContextEnded | Failed(kind: ErrorClass) | RetryExhausted

  // --- Selection ---

  predicate Eligible(chain: seq<Option<Provider>>, i: int, params: CallParams) {
    0 <= i < |chain| && chain[i].Some? && (params.needsStructured ==> chain[i].value.structuredOutput)
  }

  // The first eligible provider at or after `start`.
  ghost predicate IsNext(chain: seq<Option<Provider>>, start: int, params: CallParams, i: int) {
    start <= i && Eligible(chain, i, params) && forall j :: start <= j < i ==> !Eligible(chain, j, params)
  }

  method NextEligibleProvider(chain: seq<Option<Provider>>, start: nat, params: CallParams) returns (next: Option<int>)
    ensures next.Some? ==> IsNext(chain, start, params, next.value)
    ensures next.None? ==> forall j :: start <= j ==> !Eligible(chain, j, params)
  {
    var i := start;
    while i < |chain|
      invariant start <= i
      invariant forall j :: start <= j < i ==> !Eligible(chain, j, params)
    {
      if chain[i].None? {
        i := i + 1;
        continue;
      }
      if params.needsStructured && !chain[i].value.structuredOutput {
        i := i + 1;
        continue;
      }
      return Some(i);
    }
    next := None;
  }

  // --- Request adaptation ---

  predicate SafeReasoning(p: Provider) {
    p.reasoning && TrimSpace(p.instanceId) != ""
  }

  predicate Foreign(p: Provider, model: string, m: Message) {
    m.reasoning.Some? && m.reasoning.value.state.Some?
    && (!SafeReasoning(p)
        || m.reasoning.value.state.value.provider != TrimSpace(p.instanceId)
        || m.reasoning.value.state.value.model != model)
  }

  function Stripped(p: Provider, model: string, m: Message): Message {
    if Foreign(p, model, m) then m.(reasoning := Some(Reasoning(m.reasoning.value.summary, None))) else m
  }

  function Prepared(p: Provider, params: CallParams): CallParams {
    params.(wantsReasoning := params.wantsReasoning && SafeReasoning(p),
            messages := seq(|params.messages|,
              i requires 0 <= i < |params.messages| => Stripped(p, params.model, params.messages[i])))
  }

  // No provider is sent continuation state bound to another endpoint or model, and what it is
  // sent differs from the request in nothing else.
  lemma PreparedLeaksNothing(p: Provider, params: CallParams)
    ensures var r := Prepared(p, params);
      && SameShape(params.messages, r.messages) && r.model == params.model
      && (r.wantsReasoning ==> SafeReasoning(p))
      && (forall i :: 0 <= i < |r.messages| ==> !Foreign(p, params.model, r.messages[i]))
      && (forall i :: 0 <= i < |r.messages| ==> r.messages[i].content == params.messages[i].content)
      && forall i :: 0 <= i < |r.messages| && !Foreign(p, params.model, params.messages[i]) ==>
        r.messages[i] == params.messages[i]
  {
    var r := Prepared(p, params);
    assert forall i :: 0 <= i < |r.messages| ==> r.messages[i] == Stripped(p, params.model, params.messages[i]);
  }

  method PrepareParamsFor(p: Provider, params: CallParams) returns (r: CallParams)
    ensures r == Prepared(p, params)
  {
    r := params;
    if r.wantsReasoning && !SafeReasoning(p) {
      r := r.(wantsReasoning := false);
    }
    var needsStrip := false;
    for i := 0 to |r.messages|
      invariant !needsStrip ==> forall j :: 0 <= j < i ==> !Foreign(p, params.model, params.messages[j])
    {
      if Foreign(p, params.model, r.messages[i]) {
        needsStrip := true;
        break;
      }
    }
    if !needsStrip {
      assert Prepared(p, params).messages == params.messages;
      return;
    }
    var msgs := r.messages;
    for i := 0 to |msgs|
      invariant |msgs| == |params.messages|
      invariant forall j :: 0 <= j < i ==> msgs[j] == Stripped(p, params.model, params.messages[j])
      invariant forall j :: i <= j < |msgs| ==> msgs[j] == params.messages[j]
    {
      msgs := msgs[i := Stripped(p, params.model, msgs[i])];
    }
    assert Prepared(p, params).messages == msgs;
    r := r.(messages := msgs);
  }

  // --- The sink ---

  predicate IsAnswerText(e: UserEvent) {
    e.ShownText? && e.text != ""
  }

  predicate ShowsText(events: seq<UserEvent>) {
    exists i :: 0 <= i < |events| && IsAnswerText(events[i])
  }

  // Forwards text and reasoning; a provider's own end signal is swallowed.
  function Forwarded(signals: seq<Signal>): seq<UserEvent> {
    if signals == [] then [] else
      Forwarded(signals[..|signals| - 1]) + match signals[|signals| - 1]
        case TextDelta(t) => [ShownText(t)]
        case ReasoningDelta(t) => [ShownReasoning(t)]
        case ProviderDone => []
  }

  class TrackingSink {
    var shown: seq<UserEvent>
    var emitted: bool

    constructor ()
      ensures shown == [] && !emitted
    {
      shown := [];
      emitted := false;
    }

    method OnTextDelta(text: string)
      modifies this
      ensures shown == old(shown) + [ShownText(text)] && emitted == (old(emitted) || text != "")
    {
      if text != "" {
        emitted := true;
      }
      shown := shown + [ShownText(text)];
    }

    method OnReasoningDelta(text: string)
      modifies this`shown
      ensures shown == old(shown) + [ShownReasoning(text)]
    {
      shown := shown + [ShownReasoning(text)];
    }

    method NotifyDone()
      modifies this`shown
      ensures shown == old(shown) + [ShownDone]
    {
      shown := shown + [ShownDone];
    }

    method Reset()
      modifies this`emitted
      ensures !emitted
    {
      emitted := false;
    }

    // One provider stream played into the sink.
    method Receive(signals: seq<Signal>)
      modifies this
      ensures shown == old(shown) + Forwarded(signals)
      ensures emitted == (old(emitted) || ShowsText(Forwarded(signals)))
    {
      assert shown + [] == shown;
      for i := 0 to |signals|
        invariant shown == old(shown) + Forwarded(signals[..i])
        invariant emitted == (old(emitted) || ShowsText(Forwarded(signals[..i])))
      {
        assert signals[..i + 1][..i] == signals[..i];
        ghost var before := Forwarded(signals[..i]);
        match signals[i] {
          case TextDelta(t) =>
            OnTextDelta(t);
            ShowsTextSnoc(before, ShownText(t));
          case ReasoningDelta(t) =>
            OnReasoningDelta(t);
            ShowsTextSnoc(before, ShownReasoning(t));
          case ProviderDone =>
            assert before + [] == before;
        }
      }
      assert signals[..|signals|] == signals;
    }
  }

  lemma ShowsTextSnoc(events: seq<UserEvent>, e: UserEvent)
    ensures ShowsText(events + [e]) <==> ShowsText(events) || IsAnswerText(e)
  {
    var all := events + [e];
    assert all[|events|] == e;
    if ShowsText(events) {
      var i :| 0 <= i < |events| && IsAnswerText(events[i]);
      assert all[i] == events[i];
    }
  }

  // --- Retry ---

  predicate ValidResult(r: Option<StreamResult>) {
    r.Some? && (TrimSpace(r.value.content) != "" || r.value.toolCalls != [])
  }

  // How an attempt failed, if it did; an empty answer is a permanent failure.
  function AttemptError(a: Attempt): Option<ErrorClass> {
    if a.callError.Some? then a.callError
    else if ValidResult(a.result) then None
    else Some(ErrorPermanent)
  }

  // Cancellation of the whole request ends it; a timeout local to the attempt is transient.
  function ClassifyAttemptError(a: Attempt, err: ErrorClass): ErrorClass {
    if a.parentDone then ErrorContext
    else if a.attemptEnded then ErrorTransient
    else if err == ErrorContext then ErrorTransient
    else err
  }

  predicate ShouldFallback(e: GatewayError) {
    e.RetryExhausted? || e == Failed(ErrorPermanent)
  }

  predicate ShowedText(a: Attempt) {
    ShowsText(Forwarded(a.signals))
  }

  // The attempt failed silently, for a passing reason, and there is another one to come.
  predicate Retries(a: Attempt, attempt: int, maxRetries: nat) {
    AttemptError(a).Some? && !ShowedText(a) && ClassifyAttemptError(a, AttemptError(a).value) == ErrorTransient
    && attempt < maxRetries && a.waited
  }

  // What the provider's caller is told after an attempt that is not repeated.
  function Ended(a: Attempt, attempt: int, maxRetries: nat): (Option<StreamResult>, Option<GatewayError>) {
    match AttemptError(a)
    case None => (a.result, None)
    case Some(err) =>
      if ShowedText(a) then (a.result, Some(Failed(err)))
      else match ClassifyAttemptError(a, err)
        case ErrorContext => (None, Some(ContextEnded))
        case ErrorPermanent => (None, Some(Failed(ErrorPermanent)))
        case ErrorTransient => (None, Some(if attempt == maxRetries then RetryExhausted else ContextEnded))
  }

  // The provider is given up on and the next one may be tried.
  predicate GivesUp(a: Attempt, attempt: int, maxRetries: nat) {
    !Retries(a, attempt, maxRetries) && !ShowedText(a)
    && Ended(a, attempt, maxRetries).1.Some? && ShouldFallback(Ended(a, attempt, maxRetries).1.value)
  }

  function ShownBy(made: seq<Made>): seq<UserEvent> {
    if made == [] then [] else ShownBy(made[..|made| - 1]) + made[|made| - 1].shown
  }

  ghost predicate IsMade(m: Made, idx: int, attempt: int, params: CallParams, oracle: Oracle) {
    m == Made(idx, attempt, params, Forwarded(oracle(idx, attempt).signals))
  }

  ghost predicate RetriesAt(oracle: Oracle, idx: int, n: int, maxRetries: nat) {
    Retries(oracle(idx, n), n, maxRetries)
  }

  // After `before`: attempts at one provider, numbered from zero, each but the last repeated.
  ghost predicate OneProviderRun(
    before: seq<Made>, made: seq<Made>, idx: int, params: CallParams, maxRetries: nat, oracle: Oracle)
  {
    && before <= made && |made| - |before| <= maxRetries + 1
    && (forall i :: |before| <= i < |made| ==> IsMade(made[i], idx, i - |before|, params, oracle))
    && forall n :: 0 <= n < |made| - |before| - 1 ==> RetriesAt(oracle, idx, n, maxRetries)
  }

  // How n attempts at one provider end: as the last of them does, or because the next one could
  // not be started.
  ghost predicate Stopped(
    idx: int, n: nat, maxRetries: nat, oracle: Oracle, result: Option<StreamResult>, error: Option<GatewayError>)
  {
    if n > 0 && !Retries(oracle(idx, n - 1), n - 1, maxRetries)
    then (result, error) == Ended(oracle(idx, n - 1), n - 1, maxRetries)
    else !oracle(idx, n).acquired && result == None && error == Some(ContextEnded)
  }

  ghost predicate SilentBefore(made: seq<Made>, n: int) {
    forall i :: 0 <= i < n && i < |made| ==> !ShowsText(made[i].shown)
  }

  lemma RunSnoc(
    before: seq<Made>, made: seq<Made>, idx: int, params: CallParams, maxRetries: nat, oracle: Oracle, m: Made)
    requires OneProviderRun(before, made, idx, params, maxRetries, oracle) && |made| - |before| <= maxRetries
    requires |before| < |made| ==> RetriesAt(oracle, idx, |made| - 1 - |before|, maxRetries)
    requires IsMade(m, idx, |made| - |before|, params, oracle)
    ensures OneProviderRun(before, made + [m], idx, params, maxRetries, oracle)
  {
    var more := made + [m];
    forall i | |before| <= i < |more|
      ensures IsMade(more[i], idx, i - |before|, params, oracle)
    {
      if i < |made| {
        assert IsMade(made[i], idx, i - |before|, params, oracle);
      }
    }
  }

  lemma ShownSnoc(made: seq<Made>, m: Made)
    requires SilentBefore(made, |made|)
    ensures ShownBy(made + [m]) == ShownBy(made) + m.shown
    ensures SilentBefore(made + [m], |made|)
    ensures !ShowsText(m.shown) ==> SilentBefore(made + [m], |made| + 1)
  {
    assert (made + [m])[..|made|] == made;
  }

  // The next attempt at this provider, streamed into the sink and put on record.
  method MakeAttempt(idx: int, params: CallParams, sink: TrackingSink, ghost maxRetries: nat, oracle: Oracle,
                     before: seq<Made>, made: seq<Made>)
    returns (more: seq<Made>)
    requires OneProviderRun(before, made, idx, params, maxRetries, oracle) && |made| - |before| <= maxRetries
    requires |before| < |made| ==> RetriesAt(oracle, idx, |made| - 1 - |before|, maxRetries)
    requires sink.shown == ShownBy(made) && SilentBefore(made, |made|) && !sink.emitted
    modifies sink
    ensures OneProviderRun(before, more, idx, params, maxRetries, oracle) && |more| == |made| + 1
    ensures more[|made|].shown == Forwarded(oracle(idx, |made| - |before|).signals)
    ensures sink.shown == ShownBy(more) && SilentBefore(more, |made|)
    ensures sink.emitted <==> ShowedText(oracle(idx, |made| - |before|))
    ensures !sink.emitted ==> SilentBefore(more, |more|)
  {
    var attempt := |made| - |before|;
    var signals := oracle(idx, attempt).signals;
    sink.Receive(signals);
    var m := Made(idx, attempt, params, Forwarded(signals));
    RunSnoc(before, made, idx, params, maxRetries, oracle, m);
    ShownSnoc(made, m);
    more := made + [m];
  }

  method StreamWithRetry(
    idx: int, params: CallParams, sink: TrackingSink, maxRetries: nat, oracle: Oracle, before: seq<Made>)
    returns (result: Option<StreamResult>, error: Option<GatewayError>, made: seq<Made>)
    requires !sink.emitted && SilentBefore(before, |before|)
    requires sink.shown == ShownBy(before)
    modifies sink
    ensures OneProviderRun(before, made, idx, params, maxRetries, oracle)
    ensures Stopped(idx, |made| - |before|, maxRetries, oracle, result, error)
    ensures sink.shown == ShownBy(made) && SilentBefore(made, |made| - 1)
    ensures sink.emitted <==> made != [] && ShowsText(made[|made| - 1].shown)
  {
    made := before;
    var attempt := 0;
    while true
      invariant 0 <= attempt <= maxRetries && |made| == |before| + attempt
      invariant OneProviderRun(before, made, idx, params, maxRetries, oracle)
      invariant 0 < attempt ==> RetriesAt(oracle, idx, attempt - 1, maxRetries)
      invariant sink.shown == ShownBy(made) && SilentBefore(made, |made|) && !sink.emitted
      decreases maxRetries - attempt
    {
      var a := oracle(idx, attempt);
      if !a.acquired {
        return None, Some(ContextEnded), made;
      }
      made := MakeAttempt(idx, params, sink, maxRetries, oracle, before, made);
      var err := AttemptError(a);
      if err == None {
        return a.result, None, made;
      }
      if sink.emitted {
        return a.result, Some(Failed(err.value)), made;
      }
      match ClassifyAttemptError(a, err.value) {
        case ErrorContext =>
          return None, Some(ContextEnded), made;
        case ErrorPermanent =>
          return None, Some(Failed(ErrorPermanent)), made;
        case ErrorTransient =>
          if attempt == maxRetries {
            return None, Some(RetryExhausted), made;
          }
          if !a.waited {
            return None, Some(ContextEnded), made;
          }
          sink.Reset();
      }
      attempt := attempt + 1;
    }
  }

  // --- Fallback ---

  // A repeated attempt is followed by the next at the same provider, a given-up one by the first
  // at the next eligible provider, and no other by anything.
  ghost predicate Follows(
    chain: seq<Option<Provider>>, params: CallParams, m: Made, next: Made, maxRetries: nat, oracle: Oracle)
  {
    var a := oracle(m.provider, m.attempt);
    if Retries(a, m.attempt, maxRetries) then next.provider == m.provider && next.attempt == m.attempt + 1
    else GivesUp(a, m.attempt, maxRetries) && next.attempt == 0 && IsNext(chain, m.provider + 1, params, next.provider)
  }

  ghost predicate WellMade(chain: seq<Option<Provider>>, params: CallParams, m: Made, maxRetries: nat, oracle: Oracle) {
    && 0 <= m.attempt <= maxRetries && Eligible(chain, m.provider, params)
    && IsMade(m, m.provider, m.attempt, Prepared(chain[m.provider].value, params), oracle)
  }

  // Each attempt is at an eligible provider with a request adapted to it, the first one at the
  // first of them, and each follows from the one before.
  ghost predicate ChainOrdered(
    chain: seq<Option<Provider>>, params: CallParams, made: seq<Made>, maxRetries: nat, oracle: Oracle)
  {
    && (made != [] ==> made[0].attempt == 0 && IsNext(chain, 0, params, made[0].provider))
    && (forall i :: 0 <= i < |made| ==> WellMade(chain, params, made[i], maxRetries, oracle))
    && forall i :: 0 <= i < |made| - 1 ==> Follows(chain, params, made[i], made[i + 1], maxRetries, oracle)
  }

  // The provider at which a call that has not ended by itself goes on.
  ghost predicate Resumes(
    chain: seq<Option<Provider>>, params: CallParams, made: seq<Made>, idx: int, maxRetries: nat, oracle: Oracle)
  {
    (made != [] ==> LastGivesUp(made, maxRetries, oracle))
    && IsNext(chain, if made == [] then 0 else made[|made| - 1].provider + 1, params, idx)
  }

  ghost predicate LastGivesUp(made: seq<Made>, maxRetries: nat, oracle: Oracle)
    requires made != []
  {
    var m := made[|made| - 1];
    GivesUp(oracle(m.provider, m.attempt), m.attempt, maxRetries)
  }

  ghost predicate NothingLeft(chain: seq<Option<Provider>>, params: CallParams, made: seq<Made>) {
    forall j :: (if made == [] then 0 else made[|made| - 1].provider + 1) <= j ==> !Eligible(chain, j, params)
  }

  // The attempt that would have come next, had it been allowed to start.
  ghost predicate IsUpcoming(
    chain: seq<Option<Provider>>, params: CallParams, made: seq<Made>, idx: int, attempt: int, maxRetries: nat,
    oracle: Oracle)
  {
    (made != [] && made[|made| - 1].provider == idx && attempt == made[|made| - 1].attempt + 1
     && Retries(oracle(idx, attempt - 1), attempt - 1, maxRetries))
    || (attempt == 0 && Resumes(chain, params, made, idx, maxRetries, oracle))
  }

  ghost predicate CouldNotStart(
    chain: seq<Option<Provider>>, params: CallParams, made: seq<Made>, maxRetries: nat, oracle: Oracle)
  {
    exists idx, attempt :: IsUpcoming(chain, params, made, idx, attempt, maxRetries, oracle)
      && !oracle(idx, attempt).acquired
  }

  ghost predicate EndedByLast(
    made: seq<Made>, maxRetries: nat, oracle: Oracle, result: Option<StreamResult>, error: Option<GatewayError>)
  {
    made != [] &&
    var m := made[|made| - 1];
    var a := oracle(m.provider, m.attempt);
    !Retries(a, m.attempt, maxRetries) && (result, error) == Ended(a, m.attempt, maxRetries)
  }

  // How a whole call ends: as its last attempt does, when that is not given up on or nothing is
  // left to try; for want of any provider; or because an attempt could not be started.
  ghost predicate Concluded(
    chain: seq<Option<Provider>>, params: CallParams, made: seq<Made>, maxRetries: nat, oracle: Oracle,
    result: Option<StreamResult>, error: Option<GatewayError>)
  {
    || (EndedByLast(made, maxRetries, oracle, result, error)
        && (!LastGivesUp(made, maxRetries, oracle) || NothingLeft(chain, params, made)))
    || (made == [] && NothingLeft(chain, params, made) && result == None && error == Some(NoProvider))
    || (CouldNotStart(chain, params, made, maxRetries, oracle) && result == None && error == Some(ContextEnded))
  }

  lemma RunExtendsChain(chain: seq<Option<Provider>>, params: CallParams, before: seq<Made>, made: seq<Made>, idx: int,
                        maxRetries: nat, oracle: Oracle)
    requires ChainOrdered(chain, params, before, maxRetries, oracle)
      && Resumes(chain, params, before, idx, maxRetries, oracle)
    requires OneProviderRun(before, made, idx, Prepared(chain[idx].value, params), maxRetries, oracle)
    ensures ChainOrdered(chain, params, made, maxRetries, oracle)
    ensures |before| < |made| ==> made[|made| - 1].provider == idx && made[|made| - 1].attempt == |made| - 1 - |before|
  {
    forall i | 0 <= i < |made|
      ensures WellMade(chain, params, made[i], maxRetries, oracle)
    {
      if |before| <= i {
        assert IsMade(made[i], idx, i - |before|, Prepared(chain[idx].value, params), oracle);
      } else {
        assert made[i] == before[i];
      }
    }
    forall i | 0 <= i < |made| - 1
      ensures Follows(chain, params, made[i], made[i + 1], maxRetries, oracle)
    {
      if i + 1 < |before| {
        assert Follows(chain, params, before[i], before[i + 1], maxRetries, oracle);
      } else {
        assert IsMade(made[i + 1], idx, i + 1 - |before|, Prepared(chain[idx].value, params), oracle);
        if |before| <= i {
          assert IsMade(made[i], idx, i - |before|, Prepared(chain[idx].value, params), oracle);
          assert RetriesAt(oracle, idx, i - |before|, maxRetries);
        }
      }
    }
  }

  ghost predicate TextShown(made: seq<Made>) {
    made != [] && ShowsText(made[|made| - 1].shown)
  }

  // What one provider's run means for the call.
  lemma RunConcludes(chain: seq<Option<Provider>>, params: CallParams, before: seq<Made>, made: seq<Made>, idx: int,
                     maxRetries: nat, oracle: Oracle, result: Option<StreamResult>, error: Option<GatewayError>)
    requires Resumes(chain, params, before, idx, maxRetries, oracle)
    requires OneProviderRun(before, made, idx, Prepared(chain[idx].value, params), maxRetries, oracle)
    requires Stopped(idx, |made| - |before|, maxRetries, oracle, result, error)
    requires error.None? || TextShown(made) || !ShouldFallback(error.value)
    requires SilentBefore(before, |before|)
    ensures Concluded(chain, params, made, maxRetries, oracle, result, error)
  {
    var n := |made| - |before|;
    if n > 0 {
      assert IsMade(made[|made| - 1], idx, n - 1, Prepared(chain[idx].value, params), oracle);
    } else {
      assert before == made;
    }
    if !(n > 0 && !Retries(oracle(idx, n - 1), n - 1, maxRetries)) {
      assert IsUpcoming(chain, params, made, idx, n, maxRetries, oracle);
    }
  }

  lemma RunGivesUp(chain: seq<Option<Provider>>, params: CallParams, before: seq<Made>, made: seq<Made>, idx: int,
                   maxRetries: nat, oracle: Oracle, result: Option<StreamResult>, error: Option<GatewayError>)
    requires OneProviderRun(before, made, idx, params, maxRetries, oracle)
    requires Stopped(idx, |made| - |before|, maxRetries, oracle, result, error)
    requires error.Some? && !TextShown(made) && ShouldFallback(error.value)
    ensures |before| < |made| && LastGivesUp(made, maxRetries, oracle)
    ensures EndedByLast(made, maxRetries, oracle, None, error)
  {
    assert IsMade(made[|made| - 1], idx, |made| - |before| - 1, params, oracle);
  }

  // After attempts that were all given up on, the search for the next provider decides.
  lemma ResumesOrConcludes(
    chain: seq<Option<Provider>>, params: CallParams, made: seq<Made>, start: int, next: Option<int>, maxRetries: nat,
    oracle: Oracle, error: Option<GatewayError>)
    requires start == if made == [] then 0 else made[|made| - 1].provider + 1
    requires next.Some? ==> IsNext(chain, start, params, next.value)
    requires next.None? ==> forall j :: start <= j ==> !Eligible(chain, j, params)
    requires made == [] ==> error == Some(NoProvider)
    requires made != [] ==> LastGivesUp(made, maxRetries, oracle) && EndedByLast(made, maxRetries, oracle, None, error)
    ensures next.Some? ==>
      Eligible(chain, next.value, params) && Resumes(chain, params, made, next.value, maxRetries, oracle)
    ensures next.None? ==> Concluded(chain, params, made, maxRetries, oracle, None, error)
  {
  }

  lemma SilentSoFar(made: seq<Made>)
    requires SilentBefore(made, |made| - 1) && !TextShown(made)
    ensures SilentBefore(made, |made|)
  {
  }

  lemma NoTextYet(made: seq<Made>)
    requires SilentBefore(made, |made|)
    ensures SilentBefore(made, |made| - 1) && !TextShown(made)
  {
  }

  lemma NothingMade(chain: seq<Option<Provider>>, params: CallParams, maxRetries: nat, oracle: Oracle)
    ensures ChainOrdered(chain, params, [], maxRetries, oracle) && ShownBy([]) == [] && SilentBefore([], 0)
  {
  }

  // Every attempt of a call, how it ends, and what the user has been shown by all of it.
  method Stream(chain: seq<Option<Provider>>, params: CallParams, sink: TrackingSink, maxRetries: nat, oracle: Oracle)
    returns (result: Option<StreamResult>, error: Option<GatewayError>, made: seq<Made>)
    requires sink.shown == [] && !sink.emitted
    modifies sink
    ensures ChainOrdered(chain, params, made, maxRetries, oracle)
    ensures Concluded(chain, params, made, maxRetries, oracle, result, error)
    // Answer text comes from at most one attempt, and that is the last one made.
    ensures SilentBefore(made, |made| - 1)
    // The user's end signal: once after success or shown text, otherwise never.
    ensures sink.shown == ShownBy(made) + if error.None? || TextShown(made) then [ShownDone] else []
  {
    hide OneProviderRun, Stopped, Concluded, Resumes, ChainOrdered, IsNext, LastGivesUp, EndedByLast, SilentBefore,
      ShownBy;
    made := [];
    NothingMade(chain, params, maxRetries, oracle);
    var next := NextEligibleProvider(chain, 0, params);
    error := Some(NoProvider);
    ResumesOrConcludes(chain, params, made, 0, next, maxRetries, oracle, error);
    while next.Some?
      invariant next.Some? ==> Eligible(chain, next.value, params)
      invariant if next.Some? then Resumes(chain, params, made, next.value, maxRetries, oracle)
                else Concluded(chain, params, made, maxRetries, oracle, None, error)
      invariant ChainOrdered(chain, params, made, maxRetries, oracle) && error.Some?
      invariant sink.shown == ShownBy(made) && SilentBefore(made, |made|) && !sink.emitted
      decreases if next.Some? then |chain| - next.value else -1
    {
      var idx := next.value;
      ghost var before := made;
      result, error, made := TryProvider(chain, idx, params, sink, maxRetries, oracle, made);
      if error == None || sink.emitted {
        RunConcludes(chain, params, before, made, idx, maxRetries, oracle, result, error);
        sink.NotifyDone();
        return;
      }
      if !ShouldFallback(error.value) {
        RunConcludes(chain, params, before, made, idx, maxRetries, oracle, result, error);
        assert ShownBy(made) + [] == ShownBy(made);
        return result, error, made;
      }
      RunGivesUp(chain, Prepared(chain[idx].value, params), before, made, idx, maxRetries, oracle, result, error);
      SilentSoFar(made);
      next := NextEligibleProvider(chain, idx + 1, params);
      ResumesOrConcludes(chain, params, made, idx + 1, next, maxRetries, oracle, error);
      sink.Reset();
    }
    NoTextYet(made);
    assert ShownBy(made) + [] == ShownBy(made);
    result := None;
  }

  // One provider of the chain, with the request adapted to it.
  method TryProvider(
    chain: seq<Option<Provider>>, idx: int, params: CallParams, sink: TrackingSink, maxRetries: nat, oracle: Oracle,
    before: seq<Made>)
    returns (result: Option<StreamResult>, error: Option<GatewayError>, made: seq<Made>)
    requires !sink.emitted && SilentBefore(before, |before|) && sink.shown == ShownBy(before)
    requires ChainOrdered(chain, params, before, maxRetries, oracle)
      && Resumes(chain, params, before, idx, maxRetries, oracle)
    modifies sink
    ensures OneProviderRun(before, made, idx, Prepared(chain[idx].value, params), maxRetries, oracle)
    ensures Stopped(idx, |made| - |before|, maxRetries, oracle, result, error)
    ensures ChainOrdered(chain, params, made, maxRetries, oracle)
    ensures |before| < |made| ==> made[|made| - 1].provider == idx
    ensures sink.shown == ShownBy(made) && SilentBefore(made, |made| - 1) && (sink.emitted <==> TextShown(made))
  {
    var prepared := PrepareParamsFor(chain[idx].value, params);
    result, error, made := StreamWithRetry(idx, prepared, sink, maxRetries, oracle, before);
    RunExtendsChain(chain, params, before, made, idx, maxRetries, oracle);
  }

  // A call succeeds only with a valid answer, its last attempt's own.
  lemma SuccessIsValid(
    chain: seq<Option<Provider>>, params: CallParams, made: seq<Made>, maxRetries: nat, oracle: Oracle,
    result: Option<StreamResult>)
    requires Concluded(chain, params, made, maxRetries, oracle, result, None)
    ensures made != [] && ValidResult(result)
      && result == oracle(made[|made| - 1].provider, made[|made| - 1].attempt).result
  {
  }

  // Giving up silently, other than on cancellation, means no eligible provider was left.
  lemma FailureLeavesNothing(
    chain: seq<Option<Provider>>, params: CallParams, made: seq<Made>, maxRetries: nat, oracle: Oracle,
    result: Option<StreamResult>, error: GatewayError)
    requires Concluded(chain, params, made, maxRetries, oracle, result, Some(error)) && error != ContextEnded
      && !TextShown(made)
    requires ChainOrdered(chain, params, made, maxRetries, oracle)
    ensures NothingLeft(chain, params, made)
  {
    if made != [] {
      assert WellMade(chain, params, made[|made| - 1], maxRetries, oracle);
    }
  }

  // --- What the order of attempts implies ---

  // Providers are used in chain order, and one provider's attempts are consecutive.
  lemma {:induction false} AttemptsInOrder(
    chain: seq<Option<Provider>>, params: CallParams, made: seq<Made>, maxRetries: nat, oracle: Oracle, i: nat, j: nat)
    requires ChainOrdered(chain, params, made, maxRetries, oracle) && i <= j < |made|
    ensures made[i].provider <= made[j].provider
    ensures made[i].provider == made[j].provider ==> made[j].attempt == made[i].attempt + (j - i)
    decreases j
  {
    if i < j {
      AttemptsInOrder(chain, params, made, maxRetries, oracle, i, j - 1);
      assert Follows(chain, params, made[j - 1], made[j - 1 + 1], maxRetries, oracle);
    }
  }

  // No provider is tried more than maxRetries + 1 times in one call.
  lemma AttemptsPerProviderBounded(
    chain: seq<Option<Provider>>, params: CallParams, made: seq<Made>, maxRetries: nat, oracle: Oracle, i: nat, j: nat)
    requires ChainOrdered(chain, params, made, maxRetries, oracle) && i <= j < |made|
      && made[i].provider == made[j].provider
    ensures j - i <= maxRetries
  {
    AttemptsInOrder(chain, params, made, maxRetries, oracle, i, j);
  }

  // No eligible provider is skipped: by the time one is tried, every eligible one before it was.
  lemma {:induction false} NoEligibleSkipped(
    chain: seq<Option<Provider>>, params: CallParams, made: seq<Made>, maxRetries: nat, oracle: Oracle, j: nat, q: int)
    requires ChainOrdered(chain, params, made, maxRetries, oracle) && j < |made|
    requires 0 <= q <= made[j].provider && Eligible(chain, q, params)
    ensures exists i :: 0 <= i <= j && made[i].provider == q
    decreases j
  {
    if made[j].provider != q && j > 0 {
      assert Follows(chain, params, made[j - 1], made[j - 1 + 1], maxRetries, oracle);
      NoEligibleSkipped(chain, params, made, maxRetries, oracle, j - 1, q);
    }
  }

  // A provider's own end signal never reaches the user: the gateway's is the only one.
  lemma {:induction false} ForwardedHasNoDone(signals: seq<Signal>)
    ensures forall i :: 0 <= i < |Forwarded(signals)| ==> Forwarded(signals)[i] != ShownDone
  {
    if signals != [] {
      ForwardedHasNoDone(signals[..|signals| - 1]);
    }
  }

  lemma {:induction false} OnlyOneEndSignal(
    chain: seq<Option<Provider>>, params: CallParams, made: seq<Made>, maxRetries: nat, oracle: Oracle, n: nat)
    requires ChainOrdered(chain, params, made, maxRetries, oracle) && n <= |made|
    ensures forall i :: 0 <= i < |ShownBy(made[..n])| ==> ShownBy(made[..n])[i] != ShownDone
  {
    if n > 0 {
      OnlyOneEndSignal(chain, params, made, maxRetries, oracle, n - 1);
      assert made[..n][..n - 1] == made[..n - 1];
      assert WellMade(chain, params, made[n - 1], maxRetries, oracle);
      ForwardedHasNoDone(oracle(made[n - 1].provider, made[n - 1].attempt).signals);
    }
  }

  // --- What each attempt's own outcome decides ---

  // An error, no answer at all, or a blank one without calls.
  predicate Fails(a: Attempt) {
    || a.callError.Some? || a.result.None?
    || (TrimSpace(a.result.value.content) == "" && a.result.value.toolCalls == [])
  }

  // Worth another try at the same provider: the request goes on, and the attempt ran out of time or
  // was cut short, or its error is a passing one.
  predicate FailsForNow(a: Attempt) {
    Fails(a) && !a.parentDone
    && (a.attemptEnded || a.callError == Some(ErrorTransient) || a.callError == Some(ErrorContext))
  }

  // Another try would fail alike: a permanent error, or an answer that says nothing.
  predicate FailsForGood(a: Attempt) {
    Fails(a) && !a.parentDone && !a.attemptEnded && (a.callError == Some(ErrorPermanent) || a.callError == None)
  }

  function Outcome(m: Made, oracle: Oracle): Attempt {
    oracle(m.provider, m.attempt)
  }

  // No answer text has been shown.
  ghost predicate Silent(m: Made) {
    forall k :: 0 <= k < |m.shown| ==> !(m.shown[k].ShownText? && m.shown[k].text != "")
  }

  lemma SilentIff(m: Made)
    ensures Silent(m) <==> !ShowsText(m.shown)
  {
    if !ShowsText(m.shown) {
      assert forall k :: 0 <= k < |m.shown| ==> !IsAnswerText(m.shown[k]);
    }
  }

  lemma RetriesIff(a: Attempt, attempt: int, maxRetries: nat)
    ensures Retries(a, attempt, maxRetries)
       <==> FailsForNow(a) && !ShowedText(a) && attempt < maxRetries && a.waited
  {
  }

  lemma GivesUpIff(a: Attempt, attempt: int, maxRetries: nat)
    ensures GivesUp(a, attempt, maxRetries)
       <==> !ShowedText(a) && (FailsForGood(a) || (FailsForNow(a) && attempt == maxRetries))
  {
  }

  // An attempt is followed by another at the same provider exactly when it failed for now with
  // retries left, and by one at another provider only when it failed for good or for the last time.
  lemma NextAttemptIff(
    chain: seq<Option<Provider>>, params: CallParams, made: seq<Made>, maxRetries: nat, oracle: Oracle, i: nat)
    requires ChainOrdered(chain, params, made, maxRetries, oracle) && i + 1 < |made|
    ensures var a, m := Outcome(made[i], oracle), made[i];
      && Silent(m)
      && (made[i + 1].provider == m.provider <==> FailsForNow(a) && m.attempt < maxRetries && a.waited)
      && (made[i + 1].provider == m.provider ==> made[i + 1].attempt == m.attempt + 1)
      && (made[i + 1].provider != m.provider ==>
            made[i + 1].attempt == 0 && (FailsForGood(a) || (FailsForNow(a) && m.attempt == maxRetries)))
  {
    hide Retries, GivesUp, ShowsText, Forwarded, Prepared, Eligible;
    var m := made[i];
    assert Follows(chain, params, made[i], made[i + 1], maxRetries, oracle);
    assert WellMade(chain, params, made[i], maxRetries, oracle);
    RetriesIff(Outcome(m, oracle), m.attempt, maxRetries);
    GivesUpIff(Outcome(m, oracle), m.attempt, maxRetries);
    SilentIff(m);
  }

  // Some eligible provider stands behind the last one tried.
  ghost predicate AnotherLeft(chain: seq<Option<Provider>>, params: CallParams, m: Made) {
    exists j :: m.provider < j && Eligible(chain, j, params)
  }

  // What the caller is told, read off the last attempt.
  ghost predicate ToldByLast(
    chain: seq<Option<Provider>>, params: CallParams, m: Made, a: Attempt, maxRetries: nat,
    result: Option<StreamResult>, error: Option<GatewayError>)
  {
    if !Fails(a) then result == a.result && error == None
    else if !Silent(m) then
      result == a.result && error == Some(Failed(if a.callError.Some? then a.callError.value else ErrorPermanent))
    else
      && result == None
      && (|| (error == Some(ContextEnded)
              && (a.parentDone || (FailsForNow(a) && m.attempt < maxRetries) || AnotherLeft(chain, params, m)))
          || (error == Some(Failed(ErrorPermanent)) && FailsForGood(a) && !AnotherLeft(chain, params, m))
          || (error == Some(RetryExhausted) && FailsForNow(a) && m.attempt == maxRetries
              && !AnotherLeft(chain, params, m)))
  }

  lemma EndedSays(m: Made, a: Attempt, maxRetries: nat)
    requires m.shown == Forwarded(a.signals) && m.attempt <= maxRetries && !Retries(a, m.attempt, maxRetries)
    ensures var (result, error) := Ended(a, m.attempt, maxRetries);
      && (!Fails(a) ==> result == a.result && error == None)
      && (Fails(a) && !Silent(m) ==>
            && result == a.result
            && error == Some(Failed(if a.callError.Some? then a.callError.value else ErrorPermanent)))
      && (Fails(a) && Silent(m) ==>
            && result == None
            && error == Some(if FailsForGood(a) then Failed(ErrorPermanent)
                             else if FailsForNow(a) && m.attempt == maxRetries then RetryExhausted
                             else ContextEnded))
  {
    SilentIff(m);
    hide Forwarded, ShowsText, Silent;
  }

  lemma LastAttemptDecides(
    chain: seq<Option<Provider>>, params: CallParams, made: seq<Made>, maxRetries: nat, oracle: Oracle,
    result: Option<StreamResult>, error: Option<GatewayError>)
    requires ChainOrdered(chain, params, made, maxRetries, oracle) && made != []
    requires Concluded(chain, params, made, maxRetries, oracle, result, error)
    ensures var m := made[|made| - 1];
      ToldByLast(chain, params, m, Outcome(m, oracle), maxRetries, result, error)
  {
    hide Forwarded, ShowsText, Silent, Ended, Retries, GivesUp, Prepared, Eligible, Fails, FailsForNow, FailsForGood;
    var m := made[|made| - 1];
    var a := Outcome(m, oracle);
    assert WellMade(chain, params, m, maxRetries, oracle);
    SilentIff(m);
    RetriesIff(a, m.attempt, maxRetries);
    GivesUpIff(a, m.attempt, maxRetries);
    if !Retries(a, m.attempt, maxRetries) {
      EndedSays(m, a, maxRetries);
    }
    FailureKinds(a);
  }

  lemma FailureKinds(a: Attempt)
    ensures FailsForNow(a) ==> Fails(a) && !a.parentDone && !FailsForGood(a)
    ensures FailsForGood(a) ==> Fails(a) && !a.parentDone
    ensures Fails(a) && !a.parentDone ==> FailsForNow(a) || FailsForGood(a)
  {
    if a.callError.Some? {
      match a.callError.value {
        case ErrorTransient =>
        case ErrorPermanent =>
        case ErrorContext =>
      }
    }
  }

  // Signal by signal: text and reasoning reach the user as they came, the provider's end does not.
  lemma SignalsReachUser(signals: seq<Signal>, i: nat)
    requires i < |signals|
    ensures Forwarded(signals[..i + 1]) == Forwarded(signals[..i])
      + (if signals[i].TextDelta? then [ShownText(signals[i].text)]
         else if signals[i].ReasoningDelta? then [ShownReasoning(signals[i].text)] else [])
  {
    assert signals[..i + 1][..i] == signals[..i];
  }

  // The reasoning a provider may be sent: state only if bound to this very endpoint and model.
  predicate KeepsState(p: Provider, model: string, r: Reasoning) {
    && p.reasoning && TrimSpace(p.instanceId) != "" && r.state.Some?
    && r.state.value.provider == TrimSpace(p.instanceId) && r.state.value.model == model
  }

  // Every attempt is at a provider that can serve the request, and asks what was asked: the same
  // messages but for foreign reasoning state, and reasoning only where it is safe.
  lemma MadeAsAsked(
    chain: seq<Option<Provider>>, params: CallParams, made: seq<Made>, maxRetries: nat, oracle: Oracle, i: nat)
    requires ChainOrdered(chain, params, made, maxRetries, oracle) && i < |made|
    ensures var m := made[i];
      && 0 <= m.provider < |chain| && chain[m.provider].Some?
      && var p := chain[m.provider].value;
         && (params.needsStructured ==> p.structuredOutput)
         && m.params.model == params.model && m.params.needsStructured == params.needsStructured
         && (m.params.wantsReasoning <==> params.wantsReasoning && p.reasoning && TrimSpace(p.instanceId) != "")
         && |m.params.messages| == |params.messages|
         && forall k :: 0 <= k < |params.messages| ==>
              var asked := params.messages[k];
              m.params.messages[k] ==
                if asked.reasoning.None? || KeepsState(p, params.model, asked.reasoning.value) then asked
                else asked.(reasoning := Some(Reasoning(asked.reasoning.value.summary, None)))
  {
    hide TrimSpace, Forwarded;
    assert WellMade(chain, params, made[i], maxRetries, oracle);
  }
}
