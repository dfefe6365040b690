// One run of the agent as steps on values, driven by an arbitrary script (internal/agent/runner.go).
module AgentRun {
  import opened Options
  import opened Text
  import opened Messages
  import opened PairingFacts
  import opened Compaction
  import opened CompactionFacts
  import opened MicroCompaction
  import opened TurnBudget

  const DEFAULT_MAX_ROUNDS := 100
  const LESSON_THRESHOLD := 3
  const LESSON_ROUNDS_LIMIT := 3
  const JUDGE_MAX_RETRY_INJECTS := 2
  const TOKEN_CHECK_INTERVAL := 3
  const MICRO_COMPACT_INTERVAL := 6
  const MICRO_COMPACT_MIN_CLEAR_BYTES := 4096
  const PROMPT_TOKEN_BUDGET := 80000

  datatype Stop = Cancelled | CallError | Answered | MaxRounds | PromptBudget | SoftDeadline | LessonBudget

  // The wording of what the loop itself says to the model.
  datatype Phrases = Phrases(
    limit: Stop -> string, interrupted: Stop -> string, budgetWarning: string, lesson: string, judgeCritical: string,
    truncated: string, cutOff: ToolCall -> string)

  datatype Profile = Profile(
    role: string, maxRounds: int, canMemory: bool, systemPrompt: string, judgeEnabled: bool, phrases: Phrases)

  datatype ModelReply = CallFailed
    | Reply(content: string, calls: seq<ToolCall>, reasoning: Option<Reasoning>, truncated: bool)

  datatype Verdict = JudgeUnavailable | Verdict(approved: bool, shouldRetry: bool, score: int, feedback: string)

  datatype Round = Round(
    cancelled: bool, deadline: bool,
    compactWanted: bool, cachedTokens: nat, summary: Option<string>, transcript: string, aboveMicroThreshold: bool,
    manualSummary: Option<string>, planNudge: Option<string>, reflections: seq<string>,
    estimate: nat, reply: ModelReply, finalReply: ModelReply,
    tools: int -> ToolPlay, verdict: Verdict)

  // What one run did, as the outside world could observe it: the requests sent, the model calls
  // whose reply was not cut off, the prompt estimates an explore run was allowed, the tool batches
  // after the lesson stage began, and what the outcome says.
  datatype RunLog = RunLog(
    requests: seq<seq<Message>>, completedCalls: nat, admitted: seq<nat>, batchesAfterLesson: nat,
    completed: bool, failed: bool)

  const NEW_LOG := RunLog([], 0, [], 0, false, false)

  datatype World = World(messages: seq<Message>, turn: Turn, log: RunLog, saved: Saved)

  // --- Nudges ---

  predicate OpensNudge(text: string) {
    exists tag :: tag in [
      "<mini-reflect>", "<strategy-change>", "<investigation-stuck>", "<stuck>", "<reflect>", "<task-nag>",
      "<convergence-nudge>", "<post-explore>", "<budget-warn>", "<limit>", "<judge-critical>",
      "<verification-failed>", "<auto-lesson>", "<planning-required>", "<session-context>", "<response-truncated>"]
      && HasPrefix(text, tag)
  }

  predicate IsEphemeralNudge(m: Message) {
    m.role == User && OpensNudge(TrimSpace(m.content))
  }

  predicate IsInjectedContext(m: Message) {
    m.role == User
    && (HasPrefix(TrimSpace(m.content), "<session-context>") || HasPrefix(TrimSpace(m.content), "<memory-recall>"))
  }

  // Position of the last assistant message, 0 when there is none.
  function LastAssistant(ms: seq<Message>): (at: nat)
    ensures at <= |ms|
    ensures at > 0 ==> at < |ms| && ms[at].role == Assistant
  {
    if ms == [] then 0
    else if ms[|ms| - 1].role == Assistant then |ms| - 1
    else LastAssistant(ms[..|ms| - 1])
  }

  // Nudges the model has already answered are dropped; later ones stay.
  function Unconsumed(ms: seq<Message>): seq<Message> {
    var at := LastAssistant(ms);
    Without(ms[..at], IsEphemeralNudge) + ms[at..]
  }

  function UserMessages(texts: seq<string>): (r: seq<Message>)
    ensures |r| == |texts| && forall i :: 0 <= i < |r| ==> r[i] == UserMessage(texts[i])
  {
    seq(|texts|, i requires 0 <= i < |texts| => UserMessage(texts[i]))
  }

  function Say(w: World, texts: seq<string>): World {
    w.(messages := w.messages + UserMessages(texts))
  }

  // --- The stages ---

  function ReplyMessage(r: ModelReply): Message
    requires r.Reply?
  {
    Message(Assistant, r.content, r.calls, "", r.reasoning)
  }

  // A request on record, and whether its reply counts as complete.
  function Sent(log: RunLog, request: seq<Message>, complete: bool): RunLog {
    log.(requests := log.requests + [request], completedCalls := log.completedCalls + if complete then 1 else 0)
  }

  function WithOutcome(log: RunLog, completed: bool, failed: bool): RunLog {
    log.(completed := completed, failed := failed)
  }

  // One last plain-text request.
  function Finalized(p: Profile, w: World, reason: Stop, reply: ModelReply): World {
    var asked := w.messages + [UserMessage(p.phrases.limit(reason))];
    var log := Sent(w.log, asked, true);
    World(asked + [if reply.Reply? then ReplyMessage(reply) else AssistantMessage(p.phrases.interrupted(reason))],
          w.turn.(rounds := w.turn.rounds + 1),
          WithOutcome(log, log.completed || reply.Reply?, log.failed || reply.CallFailed?), w.saved)
  }

  predicate CompactionDue(w: World, play: Round) {
    w.saved.wired && w.turn.rounds > 0 && w.turn.rounds % TOKEN_CHECK_INTERVAL == 0 && play.compactWanted
  }

  function Compacted(p: Profile, w: World, transcript: string, summary: Option<string>): World {
    var r := CompactOn(w.messages, w.saved, p.systemPrompt, transcript, summary);
    w.(messages := r.0, saved := r.1)
  }

  ghost function MicroCompacted(ms: seq<Message>): seq<Message> {
    var v := ViewOf(ms);
    if WorthIt(v, MICRO_COMPACT_MIN_CLEAR_BYTES) then Rewritten(v, |v.tools|) else ms
  }

  // Context pressure: summarise at the token-check interval, clear old results every few rounds.
  ghost function Relieved(p: Profile, w: World, play: Round): World {
    var w' :=
      if !CompactionDue(w, play) then w else
        Compacted(p,
          w.(turn := w.turn.(promptUsed := w.turn.promptUsed + if p.role == "explore" then play.cachedTokens else 0)),
                  play.transcript, play.summary);
    if w.turn.rounds > 0 && w.turn.rounds % MICRO_COMPACT_INTERVAL == 0 && play.aboveMicroThreshold
    then w'.(messages := MicroCompacted(w'.messages)) else w'
  }

  function RoundNudges(w: World, play: Round): seq<string> {
    (if w.turn.rounds <= 1 && play.planNudge.Some? then [play.planNudge.value] else []) + play.reflections
  }

  function RoundLimit(p: Profile): nat {
    if p.maxRounds <= 0 then DEFAULT_MAX_ROUNDS else p.maxRounds
  }

  // Housekeeping before a model call; may end the run.
  ghost function PrepareOn(p: Profile, w: World, play: Round): (World, Option<Stop>) {
    if p.role == "explore" && play.deadline then (Finalized(p, w, SoftDeadline, play.finalReply), Some(SoftDeadline))
    else
      var w' := w.(messages := Unconsumed(w.messages));
      if w.turn.rounds >= RoundLimit(p) then (Finalized(p, w', MaxRounds, play.finalReply), Some(MaxRounds))
      else (Say(Relieved(p, w', play), RoundNudges(w, play)), None)
  }

  predicate WarnDue(t: Turn) {
    t.promptUsed > 0 && !t.budgetWarned && t.promptUsed * 10 >= PROMPT_TOKEN_BUDGET * 7
  }

  // An explore run warns once near its prompt budget and refuses a prompt that would exceed it,
  // the first one excepted.
  function Budgeted(p: Profile, w: World, estimate: nat): (World, bool) {
    var w' := if WarnDue(w.turn) then Say(w, [p.phrases.budgetWarning]).(turn := w.turn.(budgetWarned := true)) else w;
    if w.turn.promptUsed > 0 && w.turn.promptUsed + estimate > PROMPT_TOKEN_BUDGET then (w', false)
    else (w'.(turn := w'.turn.(promptUsed := w.turn.promptUsed + estimate),
      log := w.log.(admitted := w.log.admitted + [estimate])), true)
  }

  // What is asked, and whether the prompt budget allows it.
  function AskedFor(p: Profile, w: World, play: Round): (World, bool) {
    var w' := w.(messages := Request(w.messages));
    if p.role == "explore" then Budgeted(p, w', play.estimate) else (w', true)
  }

  // The request goes on record; what comes back is the last message.
  function Replying(w: World, play: Round): (World, Option<Stop>) {
    var log := Sent(w.log, w.messages, play.reply.CallFailed? || !play.reply.truncated);
    if play.reply.CallFailed? then (w.(log := WithOutcome(log, log.completed, true)), Some(CallError))
    else (w.(messages := w.messages + [ReplyMessage(play.reply)], log := log), None)
  }

  // Repair, budget check, and the call itself.
  function CallOn(p: Profile, w: World, play: Round): (World, Option<Stop>) {
    var r := AskedFor(p, w, play);
    if !r.1 then (Finalized(p, r.0, PromptBudget, play.finalReply), Some(PromptBudget)) else Replying(r.0, play)
  }

  function CutOffAnswers(p: Profile, calls: seq<ToolCall>): (r: seq<Message>)
    ensures |r| == |calls| && forall k :: 0 <= k < |r| ==> r[k] == ToolMessage(p.phrases.cutOff(calls[k]), calls[k].id)
  {
    seq(|calls|, k requires 0 <= k < |calls| => ToolMessage(p.phrases.cutOff(calls[k]), calls[k].id))
  }

  // A reply cut off by the output limit: its calls are answered by errors, never executed.
  function TruncateOn(p: Profile, w: World, calls: seq<ToolCall>): World {
    Say(w.(messages := w.messages + CutOffAnswers(p, calls)), [p.phrases.truncated])
  }

  predicate LessonDue(p: Profile, t: Turn) {
    p.canMemory && t.rounds >= LESSON_THRESHOLD && t.failures > 0 && !t.lessonWritten
  }

  predicate SentBack(p: Profile, t: Turn, v: Verdict) {
    p.judgeEnabled && t.judgeRetryInjects < JUDGE_MAX_RETRY_INJECTS && v.Verdict? && !(v.approved && !v.shouldRetry)
  }

  function FeedbackTexts(p: Profile, v: Verdict): seq<string>
    requires v.Verdict?
  {
    [v.feedback] + if v.score <= 3 then [p.phrases.judgeCritical] else []
  }

  // Plain text: record lessons once, let the judge send it back a bounded number of times, or
  // finish.
  function NoToolCallsOn(p: Profile, w: World, verdict: Verdict): (World, bool) {
    if LessonDue(p, w.turn) then
      (Say(w, [p.phrases.lesson]).(
         turn := w.turn.(lessonWritten := true, lessonRoundsRemaining := LESSON_ROUNDS_LIMIT),
         log := WithOutcome(w.log, false, w.log.failed)), true)
    else if SentBack(p, w.turn, verdict) then
      (Say(w, FeedbackTexts(p, verdict)).(
         turn := w.turn.(judgeRetryInjects := w.turn.judgeRetryInjects + 1),
         log := WithOutcome(w.log, false, false)), true)
    else (w.(log := WithOutcome(w.log, true, w.log.failed)), false)
  }

  datatype Batch = Batch(turn: Turn, answers: seq<Message>, nudges: seq<string>, manualCompress: bool)

  // The calls of one reply, run in order.
  function BatchRun(env: Env, t: Turn, calls: seq<ToolCall>, tools: int -> ToolPlay): (b: Batch)
    ensures Answers(calls, b.answers)
  {
    if calls == [] then Batch(t, [], [], false)
    else
      var n := |calls| - 1;
      var b := BatchRun(env, t, calls[..n], tools);
      var r := Called(env, b.turn, calls[n], tools(n));
      assert calls == calls[..n] + [calls[n]];
      Batch(r.turn, b.answers + [ToolMessage(r.output, calls[n].id)], b.nudges + r.nudges,
            b.manualCompress || r.manualCompress)
  }

  // Exactly one tool message per call, in call order, then the nudges collected on the way.
  function BatchOn(env: Env, w: World, calls: seq<ToolCall>, tools: int -> ToolPlay): World {
    var b := BatchRun(env, w.turn, calls, tools);
    Say(w.(messages := w.messages + b.answers, turn := b.turn), b.nudges)
  }

  // Bookkeeping after a batch; the lesson stage ends after its last round.
  function AfterToolsOn(p: Profile, w: World, play: Round, manualCompress: bool): (World, Option<Stop>) {
    var counted := w.(turn := w.turn.(rounds := w.turn.rounds + 1));
    var w' := if manualCompress then Compacted(p, counted, play.transcript, play.manualSummary) else counted;
    if !w'.turn.lessonWritten then (w', None)
    else
      var left := w'.turn.lessonRoundsRemaining - 1;
      (w'.(turn := w'.turn.(lessonRoundsRemaining := left),
        log := w'.log.(batchesAfterLesson := w'.log.batchesAfterLesson + 1)),
       if left <= 0 then Some(LessonBudget) else None)
  }

  // --- The run ---

  // What follows a model reply, which is the last message.
  function ReplyOn(p: Profile, env: Env, w: World, play: Round): (World, Option<Stop>)
    requires play.reply.Reply?
  {
    var calls := play.reply.calls;
    if play.reply.truncated then (TruncateOn(p, w, calls), None)
    else if calls == [] then
      var r := NoToolCallsOn(p, w, play.verdict);
      (r.0, if r.1 then None else Some(Answered))
    else
      AfterToolsOn(p, BatchOn(env, w, calls, play.tools), play, BatchRun(env, w.turn, calls, play.tools).manualCompress)
  }

  ghost function RoundOn(p: Profile, env: Env, w: World, play: Round): (World, Option<Stop>) {
    var prepared := PrepareOn(p, w, play);
    if prepared.1.Some? then prepared
    else
      var called := CallOn(p, prepared.0, play);
      if called.1.Some? || play.reply.CallFailed? then called else ReplyOn(p, env, called.0, play)
  }

  function CancelledOn(w: World): World {
    w.(log := WithOutcome(w.log, w.log.completed, true))
  }

  // A script that ends stands for cancellation.
  ghost function RunOn(p: Profile, env: Env, w: World, script: seq<Round>): (World, Stop)
    decreases |script|
  {
    if script == [] || script[0].cancelled then (CancelledOn(w), Cancelled)
    else
      var r := RoundOn(p, env, w, script[0]);
      if r.1.Some? then (r.0, r.1.value) else RunOn(p, env, r.0, script[1..])
  }

  // What the model would answer to a wrap-up in the round the run ends in.
  ghost function LastReply(p: Profile, env: Env, w: World, script: seq<Round>): ModelReply
    decreases |script|
  {
    if script == [] || script[0].cancelled then CallFailed
    else
      var r := RoundOn(p, env, w, script[0]);
      if r.1.Some? then script[0].finalReply else LastReply(p, env, r.0, script[1..])
  }

  // The ways of ending a run with one last plain-text request.
  predicate WrapUp(stop: Stop) {
    stop == MaxRounds || stop == PromptBudget || stop == SoftDeadline
  }

  function Start(thread: seq<Message>, context: seq<string>, saved: Saved): World {
    World(thread + UserMessages(context), NEW_TURN, NEW_LOG, saved)
  }

  // --- What every round keeps ---

  function Sum(xs: seq<nat>): nat {
    if xs == [] then 0 else Sum(xs[..|xs| - 1]) + xs[|xs| - 1]
  }

  // The first estimate that counts for anything.
  function FirstPositive(xs: seq<nat>): nat {
    if xs == [] then 0
    else if FirstPositive(xs[..|xs| - 1]) > 0 then FirstPositive(xs[..|xs| - 1])
    else xs[|xs| - 1]
  }

  function AtLeast(a: nat, b: nat): nat {
    if a < b then b else a
  }

  ghost predicate AdmittedWithinBudget(admitted: seq<nat>, promptUsed: nat) {
    Sum(admitted) <= promptUsed && Sum(admitted) <= AtLeast(PROMPT_TOKEN_BUDGET, FirstPositive(admitted))
  }

  ghost predicate AllWellPaired(requests: seq<seq<Message>>) {
    forall i :: 0 <= i < |requests| ==> WellPaired(requests[i])
  }

  // Whatever happens next, these hold of what has happened.
  ghost predicate Kept(env: Env, w: World) {
    && AllWellPaired(w.log.requests)
    && Counted(env, w.turn.budget, w.turn.executed)
    && AdmittedWithinBudget(w.log.admitted, w.turn.promptUsed)
  }

  // Every completed call but `pending` ones ended in a tool batch, started the lesson stage, or
  // was sent back by the judge.
  ghost predicate Accounted(w: World, pending: nat) {
    && w.turn.judgeRetryInjects <= JUDGE_MAX_RETRY_INJECTS
    && w.log.completedCalls
      == w.turn.rounds + w.turn.judgeRetryInjects + (if w.turn.lessonWritten then 1 else 0) + pending
    && if w.turn.lessonWritten
       then 0 < w.turn.lessonRoundsRemaining
         && w.log.batchesAfterLesson + w.turn.lessonRoundsRemaining == LESSON_ROUNDS_LIMIT
       else w.log.batchesAfterLesson == 0
  }

  ghost predicate Bounded(p: Profile, log: RunLog) {
    log.completedCalls <= RoundLimit(p) + 4 && log.batchesAfterLesson <= LESSON_ROUNDS_LIMIT
  }

  ghost predicate Undecided(log: RunLog) {
    !log.completed && !log.failed
  }

  // Between rounds.
  ghost predicate Ongoing(p: Profile, env: Env, w: World) {
    && WellPaired(w.messages) && Kept(env, w) && Accounted(w, 0) && w.turn.rounds <= RoundLimit(p)
    && Undecided(w.log)
  }

  predicate EndsIn(ms: seq<Message>, m: Message) {
    ms != [] && ms[|ms| - 1] == m
  }

  // Only a wrap-up the model answers with calls leaves something unanswered behind.
  ghost predicate LeftOpen(stop: Stop, last: ModelReply) {
    WrapUp(stop) && last.Reply? && last.calls != []
  }

  // What the outcome reports, and how the conversation ends.
  ghost predicate Concluded(w: World, stop: Stop, last: ModelReply) {
    && (w.log.completed <==> stop == Answered || (WrapUp(stop) && last.Reply?))
    && (w.log.failed <==> stop == Cancelled || stop == CallError || (WrapUp(stop) && last.CallFailed?))
    && (WrapUp(stop) && last.Reply? ==> EndsIn(w.messages, ReplyMessage(last)))
    && (if LeftOpen(stop, last) then WellPaired(w.messages[..|w.messages| - 1]) else WellPaired(w.messages))
  }

  // After the last round.
  ghost predicate Over(p: Profile, env: Env, w: World, stop: Stop, last: ModelReply) {
    Kept(env, w) && Bounded(p, w.log) && Concluded(w, stop, last)
  }

  lemma SayKeepsPairing(w: World, texts: seq<string>)
    requires WellPaired(w.messages)
    ensures WellPaired(Say(w, texts).messages)
  {
    PlainIsWellPaired(UserMessages(texts));
    WellPairedConcat(w.messages, UserMessages(texts));
  }

  lemma UnconsumedKeepsPairing(ms: seq<Message>)
    requires WellPaired(ms)
    ensures WellPaired(Unconsumed(ms))
  {
    var at := LastAssistant(ms);
    if at == 0 {
      assert [] + ms[0..] == ms && ms[..0] == [];
    } else {
      SplitKeepsPairing(ms, at);
      WithoutKeepsPairing(ms[..at], IsEphemeralNudge);
      WellPairedConcat(Without(ms[..at], IsEphemeralNudge), ms[at..]);
    }
  }

  lemma SentKeepsPairing(log: RunLog, request: seq<Message>, complete: bool)
    requires AllWellPaired(log.requests) && WellPaired(request)
    ensures AllWellPaired(Sent(log, request, complete).requests)
  {
  }

  lemma FinalizedIsKept(p: Profile, env: Env, w: World, reason: Stop, reply: ModelReply)
    requires WellPaired(w.messages) && Kept(env, w) && Undecided(w.log) && WrapUp(reason)
    ensures Kept(env, Finalized(p, w, reason, reply)) && Concluded(Finalized(p, w, reason, reply), reason, reply)
    ensures Finalized(p, w, reason, reply).log.completedCalls == w.log.completedCalls + 1
    ensures Finalized(p, w, reason, reply).log.batchesAfterLesson == w.log.batchesAfterLesson
  {
    var asked := w.messages + [UserMessage(p.phrases.limit(reason))];
    WellPairedAppendPlain(w.messages, UserMessage(p.phrases.limit(reason)));
    SentKeepsPairing(w.log, asked, true);
    var answer := if reply.Reply? then ReplyMessage(reply) else AssistantMessage(p.phrases.interrupted(reason));
    assert (asked + [answer])[..|asked|] == asked;
    if Plain(answer) {
      WellPairedAppendPlain(asked, answer);
    }
  }

  lemma MicroCompactedKeepsPairing(ms: seq<Message>)
    requires WellPaired(ms)
    ensures WellPaired(MicroCompacted(ms))
  {
    RewrittenShape(ViewOf(ms), |ViewOf(ms).tools|);
    SameShapeKeepsPairing(ms, MicroCompacted(ms));
  }

  lemma MorePromptIsFine(admitted: seq<nat>, promptUsed: nat, more: nat)
    requires AdmittedWithinBudget(admitted, promptUsed)
    ensures AdmittedWithinBudget(admitted, promptUsed + more)
  {
  }

  // Relief touches messages, the prompt counter and the log on disk, nothing else.
  lemma RelievedKeeps(p: Profile, env: Env, w: World, play: Round)
    requires WellPaired(w.messages) && Kept(env, w)
    ensures var w' := Relieved(p, w, play);
      && WellPaired(w'.messages) && Kept(env, w') && w'.log == w.log
      && w'.turn == w.turn.(promptUsed := w'.turn.promptUsed)
  {
    var more := if p.role == "explore" then play.cachedTokens else 0;
    MorePromptIsFine(w.log.admitted, w.turn.promptUsed, more);
    CompactOnKeepsPairing(w.messages, w.saved, p.systemPrompt, play.transcript, play.summary);
    MicroCompactedKeepsPairing(w.messages);
    MicroCompactedKeepsPairing(CompactOn(w.messages, w.saved, p.systemPrompt, play.transcript, play.summary).0);
  }

  lemma PrepareKeeps(p: Profile, env: Env, w: World, play: Round)
    requires Ongoing(p, env, w)
    ensures var r := PrepareOn(p, w, play);
      if r.1.Some? then Over(p, env, r.0, r.1.value, play.finalReply)
        else Ongoing(p, env, r.0) && r.0.turn.rounds < RoundLimit(p)
  {
    hide Relieved, Unconsumed, WellPaired, Finalized, Counted, AdmittedWithinBudget;
    if p.role == "explore" && play.deadline {
      FinalizedIsKept(p, env, w, SoftDeadline, play.finalReply);
    } else {
      var w' := w.(messages := Unconsumed(w.messages));
      UnconsumedKeepsPairing(w.messages);
      if w.turn.rounds >= RoundLimit(p) {
        FinalizedIsKept(p, env, w', MaxRounds, play.finalReply);
      } else {
        RelievedKeeps(p, env, w', play);
        SayKeepsPairing(Relieved(p, w', play), RoundNudges(w, play));
      }
    }
  }

  lemma {:induction false} NothingYet(admitted: seq<nat>)
    requires Sum(admitted) == 0
    ensures FirstPositive(admitted) == 0
  {
    if admitted != [] {
      NothingYet(admitted[..|admitted| - 1]);
    }
  }

  lemma AdmitKeepsBudget(admitted: seq<nat>, promptUsed: nat, estimate: nat)
    requires AdmittedWithinBudget(admitted, promptUsed)
    requires promptUsed > 0 ==> promptUsed + estimate <= PROMPT_TOKEN_BUDGET
    ensures AdmittedWithinBudget(admitted + [estimate], promptUsed + estimate)
  {
    var more := admitted + [estimate];
    assert more[..|admitted|] == admitted;
    if promptUsed == 0 {
      NothingYet(admitted);
    }
  }

  lemma BudgetedKeeps(p: Profile, env: Env, w: World, estimate: nat)
    requires WellPaired(w.messages) && Kept(env, w)
    ensures var r := Budgeted(p, w, estimate);
      && WellPaired(r.0.messages) && Kept(env, r.0)
      && r.0.turn == w.turn.(promptUsed := r.0.turn.promptUsed, budgetWarned := r.0.turn.budgetWarned)
      && r.0.log == w.log.(admitted := r.0.log.admitted)
  {
    SayKeepsPairing(w, [p.phrases.budgetWarning]);
    if w.turn.promptUsed == 0 || w.turn.promptUsed + estimate <= PROMPT_TOKEN_BUDGET {
      AdmitKeepsBudget(w.log.admitted, w.turn.promptUsed, estimate);
    }
  }

  // After a call that came back, the reply is the last message and still open.
  ghost predicate Replied(p: Profile, env: Env, w: World, play: Round) {
    && play.reply.Reply? && w.messages != []
    && WellPaired(w.messages[..|w.messages| - 1]) && w.messages[|w.messages| - 1] == ReplyMessage(play.reply)
    && Kept(env, w) && Accounted(w, if play.reply.truncated then 0 else 1) && w.turn.rounds < RoundLimit(p)
    && Undecided(w.log)
  }

  // The same, with the conversation as the repair would send it.
  function Mended(w: World): World {
    w.(messages := Request(w.messages))
  }

  lemma AskedForKeeps(p: Profile, env: Env, w: World, play: Round)
    requires Ongoing(p, env, Mended(w))
    ensures Ongoing(p, env, AskedFor(p, w, play).0)
    ensures AskedFor(p, w, play).0.turn.rounds == w.turn.rounds
  {
    hide WellPaired, Request, Counted, AdmittedWithinBudget, AllWellPaired, Budgeted;
    if p.role == "explore" {
      BudgetedKeeps(p, env, Mended(w), play.estimate);
    }
  }

  lemma ReplyingKeeps(p: Profile, env: Env, w: World, play: Round)
    requires Ongoing(p, env, w) && w.turn.rounds < RoundLimit(p)
    ensures var r := Replying(w, play);
      if r.1.Some? then Over(p, env, r.0, r.1.value, play.finalReply) else Replied(p, env, r.0, play)
  {
    hide WellPaired, Counted, AdmittedWithinBudget, AllWellPaired;
    SentKeepsPairing(w.log, w.messages, play.reply.CallFailed? || !play.reply.truncated);
    if play.reply.Reply? {
      assert (w.messages + [ReplyMessage(play.reply)])[..|w.messages|] == w.messages;
    }
  }

  lemma CallKeeps(p: Profile, env: Env, w: World, play: Round)
    requires Ongoing(p, env, Mended(w)) && w.turn.rounds < RoundLimit(p)
    ensures var r := CallOn(p, w, play);
      if r.1.Some? then Over(p, env, r.0, r.1.value, play.finalReply) else Replied(p, env, r.0, play)
  {
    hide WellPaired, AskedFor, Replying, Finalized, Kept, Replied;
    AskedForKeeps(p, env, w, play);
    var r := AskedFor(p, w, play);
    if r.1 {
      ReplyingKeeps(p, env, r.0, play);
    } else {
      FinalizedIsKept(p, env, r.0, PromptBudget, play.finalReply);
    }
  }

  // A reply followed by exactly its answers closes the block; nudges may follow.
  lemma BlockClosed(w: World, m: Message, answers: seq<Message>)
    requires w.messages != [] && w.messages[|w.messages| - 1] == m && WellPaired(w.messages[..|w.messages| - 1])
    requires m.role == Assistant && Answers(m.calls, answers)
    ensures WellPaired(w.messages + answers)
  {
    var before := w.messages[..|w.messages| - 1];
    BlockIsWellPaired(m, answers);
    WellPairedConcat(before, [m] + answers);
    Regrouped(w.messages, answers);
  }

  lemma Regrouped(ms: seq<Message>, answers: seq<Message>)
    requires ms != []
    ensures ms[..|ms| - 1] + ([ms[|ms| - 1]] + answers) == ms + answers
  {
  }

  lemma NoToolCallsKeeps(p: Profile, env: Env, w: World, play: Round)
    requires Replied(p, env, w, play) && !play.reply.truncated && play.reply.calls == []
    ensures var r := NoToolCallsOn(p, w, play.verdict);
      if r.1 then Ongoing(p, env, r.0) else Over(p, env, r.0, Answered, play.finalReply)
  {
    BlockClosed(w, ReplyMessage(play.reply), []);
    assert w.messages + [] == w.messages;
    SayKeepsPairing(w, [p.phrases.lesson]);
    if play.verdict.Verdict? {
      SayKeepsPairing(w, FeedbackTexts(p, play.verdict));
    }
  }

  // Running calls moves nothing but the tool counters.
  lemma {:induction false} BatchKeepsCounts(env: Env, t: Turn, calls: seq<ToolCall>, tools: int -> ToolPlay)
    requires Counted(env, t.budget, t.executed)
    ensures var t' := BatchRun(env, t, calls, tools).turn;
      && Counted(env, t'.budget, t'.executed)
      && t' == t.(failures := t'.failures, budget := t'.budget, executed := t'.executed)
  {
    if calls != [] {
      var n := |calls| - 1;
      BatchKeepsCounts(env, t, calls[..n], tools);
      var before := BatchRun(env, t, calls[..n], tools).turn;
      CallKeepsCounts(env, before, calls[n], tools(n));
      CallTouchesToolCounters(env, before, calls[n], tools(n));
    }
  }

  lemma BatchKeeps(p: Profile, env: Env, w: World, play: Round)
    requires Replied(p, env, w, play) && !play.reply.truncated
    ensures var w' := BatchOn(env, w, play.reply.calls, play.tools);
      && WellPaired(w'.messages) && Kept(env, w') && Accounted(w', 1) && w'.turn.rounds < RoundLimit(p)
      && Undecided(w'.log)
  {
    var b := BatchRun(env, w.turn, play.reply.calls, play.tools);
    BatchKeepsCounts(env, w.turn, play.reply.calls, play.tools);
    BlockClosed(w, ReplyMessage(play.reply), b.answers);
    SayKeepsPairing(w.(messages := w.messages + b.answers, turn := b.turn), b.nudges);
  }

  lemma AfterToolsKeeps(p: Profile, env: Env, w: World, play: Round, manualCompress: bool)
    requires WellPaired(w.messages) && Kept(env, w) && Accounted(w, 1) && w.turn.rounds < RoundLimit(p)
    requires Undecided(w.log)
    ensures var r := AfterToolsOn(p, w, play, manualCompress);
      if r.1.Some? then Over(p, env, r.0, r.1.value, play.finalReply) else Ongoing(p, env, r.0)
  {
    CompactOnKeepsPairing(w.messages, w.saved, p.systemPrompt, play.transcript, play.manualSummary);
  }

  lemma ReplyKeeps(p: Profile, env: Env, w: World, play: Round)
    requires Replied(p, env, w, play)
    ensures var r := ReplyOn(p, env, w, play);
      if r.1.Some? then Over(p, env, r.0, r.1.value, play.finalReply) else Ongoing(p, env, r.0)
  {
    hide BatchOn, AfterToolsOn, BatchRun, NoToolCallsOn, WellPaired, Counted, AdmittedWithinBudget;
    var calls := play.reply.calls;
    if play.reply.truncated {
      BlockClosed(w, ReplyMessage(play.reply), CutOffAnswers(p, calls));
      SayKeepsPairing(w.(messages := w.messages + CutOffAnswers(p, calls)), [p.phrases.truncated]);
    } else if calls == [] {
      NoToolCallsKeeps(p, env, w, play);
    } else {
      BatchKeeps(p, env, w, play);
      AfterToolsKeeps(p, env, BatchOn(env, w, calls, play.tools), play,
        BatchRun(env, w.turn, calls, play.tools).manualCompress);
    }
  }

  lemma RoundKeeps(p: Profile, env: Env, w: World, play: Round)
    requires Ongoing(p, env, w)
    ensures var r := RoundOn(p, env, w, play);
      if r.1.Some? then Over(p, env, r.0, r.1.value, play.finalReply) else Ongoing(p, env, r.0)
  {
    hide PrepareOn, CallOn, ReplyOn, Over, Kept, WellPaired;
    PrepareKeeps(p, env, w, play);
    var prepared := PrepareOn(p, w, play);
    if prepared.1 == None {
      WellPairedRequest(prepared.0.messages);
      PreparedRoundKeeps(p, env, w, play);
    }
  }

  lemma PreparedRoundKeeps(p: Profile, env: Env, w: World, play: Round)
    requires var prepared := PrepareOn(p, w, play);
      prepared.1 == None && Ongoing(p, env, Mended(prepared.0)) && prepared.0.turn.rounds < RoundLimit(p)
    ensures var r := RoundOn(p, env, w, play);
      if r.1.Some? then Over(p, env, r.0, r.1.value, play.finalReply) else Ongoing(p, env, r.0)
  {
    hide PrepareOn, CallOn, ReplyOn, Ongoing, Over, Kept, Mended;
    var prepared := PrepareOn(p, w, play);
    CallKeeps(p, env, prepared.0, play);
    var called := CallOn(p, prepared.0, play);
    if called.1 == None {
      ReplyKeeps(p, env, called.0, play);
    }
  }

  lemma {:induction false} RunKeeps(p: Profile, env: Env, w: World, script: seq<Round>)
    requires Ongoing(p, env, w)
    ensures var end := RunOn(p, env, w, script); Over(p, env, end.0, end.1, LastReply(p, env, w, script))
    decreases |script|
  {
    if script != [] && !script[0].cancelled {
      RoundKeeps(p, env, w, script[0]);
      var r := RoundOn(p, env, w, script[0]);
      if r.1 == None {
        RunKeeps(p, env, r.0, script[1..]);
      }
    }
  }

  lemma StartIsOngoing(p: Profile, env: Env, thread: seq<Message>, context: seq<string>, saved: Saved)
    requires WellPaired(thread)
    ensures Ongoing(p, env, Start(thread, context, saved))
  {
    SayKeepsPairing(World(thread, NEW_TURN, NEW_LOG, saved), context);
  }

  // Every request the model has seen is well paired; calls with a complete reply and batches in
  // the lesson stage are bounded; repeats, delegations and reads stay within their run-wide limits;
  // and an explore run's prompts add up to its budget at most, or to the first prompt that counts.
  ghost predicate SafeRun(p: Profile, env: Env, executed: seq<Executed>, log: RunLog) {
    && AllWellPaired(log.requests)
    && log.completedCalls <= RoundLimit(p) + 4
    && log.batchesAfterLesson <= LESSON_ROUNDS_LIMIT
    && WithinLimits(env, executed)
    && Sum(log.admitted) <= AtLeast(PROMPT_TOKEN_BUDGET, FirstPositive(log.admitted))
  }

  lemma {:induction false} RunIsOver(
    p: Profile, env: Env, thread: seq<Message>, context: seq<string>, saved: Saved, script: seq<Round>)
    requires WellPaired(thread)
    ensures var start := Start(thread, context, saved);
      var end := RunOn(p, env, start, script); Over(p, env, end.0, end.1, LastReply(p, env, start, script))
  {
    StartIsOngoing(p, env, thread, context, saved);
    RunKeeps(p, env, Start(thread, context, saved), script);
  }

  // From a well-paired thread every run is safe, whatever its script.
  lemma {:induction false} EveryRunIsSafe(
    p: Profile, env: Env, thread: seq<Message>, context: seq<string>, saved: Saved, script: seq<Round>)
    requires WellPaired(thread)
    ensures var end := RunOn(p, env, Start(thread, context, saved), script).0;
      SafeRun(p, env, end.turn.executed, end.log)
  {
    RunIsOver(p, env, thread, context, saved, script);
    var end := RunOn(p, env, Start(thread, context, saved), script).0;
    CountedMeansWithinLimits(env, end.turn.budget, end.turn.executed);
  }

  // A run that leaves something open leaves one block open, behind a well-paired thread.
  lemma {:induction false} LeftOpenBehind(
    p: Profile, env: Env, thread: seq<Message>, context: seq<string>, saved: Saved, script: seq<Round>)
    returns (before: seq<Message>)
    requires WellPaired(thread)
    requires var start := Start(thread, context, saved);
      LeftOpen(RunOn(p, env, start, script).1, LastReply(p, env, start, script))
    ensures var start := Start(thread, context, saved);
      && WellPaired(before)
      && Returned(RunOn(p, env, start, script).0) == before + [ReplyMessage(LastReply(p, env, start, script))]
  {
    RunIsOver(p, env, thread, context, saved, script);
    var start := Start(thread, context, saved);
    var end, last := RunOn(p, env, start, script).0, LastReply(p, env, start, script);
    hide RunOn, LastReply;
    before := Without(end.messages[..|end.messages| - 1], IsInjectedContext);
    WithoutKeepsPairing(end.messages[..|end.messages| - 1], IsInjectedContext);
  }

  lemma OpenEndIsNotPaired(ms: seq<Message>, m: Message)
    requires HasCalls(m)
    ensures !WellPaired(ms + [m])
  {
    if WellPaired(ms + [m]) {
      WellPairedMeans(ms + [m], |ms|);
    }
  }

  // The messages a run hands back: everything but the context injected at its start.
  function Returned(w: World): seq<Message> {
    Without(w.messages, IsInjectedContext)
  }

  lemma ReturnedPairing(w: World, stop: Stop, last: ModelReply)
    requires Concluded(w, stop, last)
    ensures WellPaired(Returned(w)) <==> !LeftOpen(stop, last)
  {
    if LeftOpen(stop, last) {
      OpenEndIsNotPaired(Without(w.messages[..|w.messages| - 1], IsInjectedContext), ReplyMessage(last));
    } else {
      WithoutKeepsPairing(w.messages, IsInjectedContext);
    }
  }

  // The message a wrap-up ends in is never context injected at the start.
  lemma ReturnedLast(w: World, m: Message)
    requires EndsIn(w.messages, m) && m.role == Assistant
    ensures EndsIn(Returned(w), m)
  {
  }

  lemma LastCallsAreOpen(ms: seq<Message>)
    requires ms != [] && HasCalls(ms[|ms| - 1])
    ensures !WellPaired(ms)
  {
    OpenEndIsNotPaired(ms[..|ms| - 1], ms[|ms| - 1]);
    assert ms[..|ms| - 1] + [ms[|ms| - 1]] == ms;
  }

  // How every run ends: well paired unless a wrap-up is answered with calls, completed exactly when
  // the model had the last word, and failed exactly when a call failed or the run was cancelled.
  lemma {:induction false} EveryRunEndsPairedIff(
    p: Profile, env: Env, thread: seq<Message>, context: seq<string>, saved: Saved, script: seq<Round>)
    requires WellPaired(thread)
    ensures var start := Start(thread, context, saved);
      var end, last := RunOn(p, env, start, script), LastReply(p, env, start, script);
      && (WellPaired(Returned(end.0)) <==> !LeftOpen(end.1, last))
      && (end.0.log.completed <==> end.1 == Answered || (WrapUp(end.1) && last.Reply?))
      && (end.0.log.failed <==> end.1 == Cancelled || end.1 == CallError || (WrapUp(end.1) && last.CallFailed?))
  {
    RunIsOver(p, env, thread, context, saved, script);
    var start := Start(thread, context, saved);
    var end := RunOn(p, env, start, script);
    ReturnedPairing(end.0, end.1, LastReply(p, env, start, script));
  }

  // The same read off what the run hands back.
  lemma {:induction false} ReturnedEnd(
    p: Profile, env: Env, thread: seq<Message>, context: seq<string>, saved: Saved, script: seq<Round>)
    requires WellPaired(thread)
    ensures var end := RunOn(p, env, Start(thread, context, saved), script);
      var result := Returned(end.0);
      WellPaired(result) <==> !(WrapUp(end.1) && result != [] && HasCalls(result[|result| - 1]))
  {
    RunIsOver(p, env, thread, context, saved, script);
    var start := Start(thread, context, saved);
    var end, last := RunOn(p, env, start, script), LastReply(p, env, start, script);
    var result := Returned(end.0);
    ReturnedPairing(end.0, end.1, last);
    if LeftOpen(end.1, last) {
      ReturnedLast(end.0, ReplyMessage(last));
    } else if result != [] && HasCalls(result[|result| - 1]) {
      LastCallsAreOpen(result);
    }
  }

  // --- Dropping nudges against the caller's boundary ---

  // What remains of the messages from b on.
  function RemainingFrom(ms: seq<Message>, b: nat): seq<Message>
    requires b <= |ms|
  {
    var at := LastAssistant(ms);
    if b <= at then Without(ms[b..at], IsEphemeralNudge) + ms[at..] else ms[b..]
  }

  lemma {:induction false} UnconsumedSplit(ms: seq<Message>, b: nat)
    requires b <= |ms|
    ensures var k := Least(b, LastAssistant(ms));
      Unconsumed(ms) == Without(ms[..k], IsEphemeralNudge) + (if b <= k then [] else ms[k..b]) + RemainingFrom(ms, b)
  {
    hide IsEphemeralNudge, Without, LastAssistant;
    var at := LastAssistant(ms);
    if b <= at {
      assert ms[..b] + ms[b..at] == ms[..at];
      WithoutConcat(ms[..b], ms[b..at], IsEphemeralNudge);
    } else {
      assert ms[at..b] + ms[b..] == ms[at..];
    }
  }

  lemma SuffixOf<T>(a: seq<T>, c: seq<T>, b: nat)
    ensures b <= |a + c| && (a + c)[b..] == c <==> |a| == b
  {
    if b <= |a + c| && (a + c)[b..] == c {
      assert |(a + c)[b..]| == |a| + |c| - b;
    }
    assert (a + c)[|a|..] == c;
  }

  // The caller's index of the first message not yet saved still selects what it did exactly when
  // no consumed nudge stood before it.
  lemma {:induction false} DroppingKeepsBoundaryIff(ms: seq<Message>, b: nat)
    requires b <= |ms|
    ensures b <= |Unconsumed(ms)| && Unconsumed(ms)[b..] == RemainingFrom(ms, b)
       <==> forall i :: 0 <= i < Least(b, LastAssistant(ms)) ==> !IsEphemeralNudge(ms[i])
  {
    hide IsEphemeralNudge, Without, LastAssistant, RemainingFrom, Unconsumed;
    var k := Least(b, LastAssistant(ms));
    var before := Without(ms[..k], IsEphemeralNudge) + if b <= k then [] else ms[k..b];
    UnconsumedSplit(ms, b);
    SuffixOf(before, RemainingFrom(ms, b), b);
    WithoutLength(ms[..k], IsEphemeralNudge);
  }

  // A nudge left over from the turn before, an answer and the new prompt, all before the boundary: once
  // the nudge is dropped, the boundary skips the next message to come.
  lemma DroppedNudgeHidesReply(nudge: Message, answer: Message, prompt: Message, reply: Message)
    requires IsEphemeralNudge(nudge) && answer.role == Assistant && Plain(prompt) && prompt.role == User
    ensures var ms := [nudge, answer, prompt];
      Unconsumed(ms) == [answer, prompt] && (Unconsumed(ms) + [reply])[|ms|..] == []
  {
    var ms := [nudge, answer, prompt];
    assert ms[..2] == [nudge, answer] && ms[..1] == [nudge] && [nudge][..0] == [];
    assert LastAssistant(ms) == LastAssistant(ms[..2]) == 1;
    assert Without([nudge], IsEphemeralNudge) == [];
    assert [] + ms[1..] == [answer, prompt];
  }
}
