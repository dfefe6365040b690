// The agent loop itself (internal/agent/runner_loop.go): stages that update the turn state in
// place, each proved to take exactly the step it stands for.
module AgentLoop {
  import opened Options
  import opened Messages
  import opened Pairing
  import opened PairingFacts
  import opened Compaction
  import opened MicroCompaction
  import opened TurnBudget
  import opened AgentRun

  function SavedOf(compress: Compression?, boundary: Boundary?): Saved
    reads if compress == null then null else compress.histStore, boundary
  {
    if compress == null then NOT_WIRED else compress.View(boundary)
  }

  // The log the compactor writes to, if any, has counted its entries.
  ghost predicate StoreIntact(compress: Compression?)
    reads if compress == null then null else compress.histStore
  {
    compress == null || compress.histStore == null || compress.histStore.Valid()
  }

  method FilterOut(ms: seq<Message>, drop: Message -> bool) returns (res: seq<Message>)
    ensures res == Without(ms, drop)
  {
    res := [];
    for i := 0 to |ms|
      invariant res == Without(ms[..i], drop)
    {
      assert ms[..i + 1][..i] == ms[..i];
      if !drop(ms[i]) {
        res := res + [ms[i]];
      }
    }
    assert ms[..|ms|] == ms;
  }

  method FindLastAssistant(ms: seq<Message>) returns (at: nat)
    ensures at == LastAssistant(ms)
  {
    var i := |ms|;
    assert ms[..|ms|] == ms;
    while i > 0 && ms[i - 1].role != Assistant
      invariant 0 <= i <= |ms| && LastAssistant(ms[..i]) == LastAssistant(ms)
    {
      assert ms[..i][..i - 1] == ms[..i - 1];
      i := i - 1;
    }
    at := if i > 0 then i - 1 else 0;
  }

  method DropConsumedNudges(ms: seq<Message>) returns (res: seq<Message>, removed: nat)
    ensures res == Unconsumed(ms) && removed == |ms| - |res|
  {
    hide IsEphemeralNudge;
    var lastAsst := FindLastAssistant(ms);
    assert ms[..lastAsst] + ms[lastAsst..] == ms;
    removed := 0;
    for i := 0 to lastAsst
      invariant removed == i - |Without(ms[..i], IsEphemeralNudge)|
    {
      assert ms[..i + 1][..i] == ms[..i];
      if IsEphemeralNudge(ms[i]) {
        removed := removed + 1;
      }
    }
    if removed == 0 {
      WithoutLength(ms[..lastAsst], IsEphemeralNudge);
      WithoutNothing(ms[..lastAsst], IsEphemeralNudge);
      return ms, 0;
    }
    var kept := FilterOut(ms[..lastAsst], IsEphemeralNudge);
    res := kept + ms[lastAsst..];
  }

  // --- Stages ---

  method FinalizeWithoutTools(
    p: Profile, messages: seq<Message>, reason: Stop, reply: ModelReply, turn: TurnState, log: RunLog,
    ghost saved: Saved)
    returns (out: seq<Message>, log': RunLog)
    modifies turn`rounds
    ensures World(out, turn.View(), log', saved)
      == Finalized(p, World(messages, old(turn.View()), log, saved), reason, reply)
  {
    var asked := messages + [UserMessage(p.phrases.limit(reason))];
    log' := Sent(log, asked, true);
    turn.rounds := turn.rounds + 1;
    match reply {
      case CallFailed =>
        out := asked + [AssistantMessage(p.phrases.interrupted(reason))];
        log' := log'.(failed := true);
      case Reply(content, calls, reasoning, _) =>
        out := asked + [Message(Assistant, content, calls, "", reasoning)];
        log' := log'.(completed := true);
    }
  }

  method MicroCompactMessages(messages: seq<Message>) returns (out: seq<Message>)
    ensures out == MicroCompacted(messages)
  {
    var a := new Message[|messages|](i requires 0 <= i < |messages| => messages[i]);
    assert a[..] == messages;
    var cleared, reclaimed := MicroCompact(a, MICRO_COMPACT_MIN_CLEAR_BYTES);
    out := a[..];
  }

  method CompactIfWired(p: Profile, messages: seq<Message>, transcript: string, summary: Option<string>,
                        compress: Compression?, boundary: Boundary?)
    returns (out: seq<Message>)
    requires StoreIntact(compress)
    modifies if compress == null then null else compress.histStore, boundary
    ensures StoreIntact(compress)
    ensures (out, SavedOf(compress, boundary))
      == CompactOn(messages, old(SavedOf(compress, boundary)), p.systemPrompt, transcript, summary)
  {
    out := messages;
    if compress != null {
      out := compress.AutoCompact(out, p.systemPrompt, transcript, summary, boundary);
    }
  }

  method RelieveContext(
    p: Profile, messages: seq<Message>, play: Round, compress: Compression?, boundary: Boundary?, turn: TurnState,
    ghost log: RunLog)
    returns (out: seq<Message>)
    requires StoreIntact(compress)
    modifies turn`promptUsed
    modifies if compress == null then null else compress.histStore, boundary
    ensures StoreIntact(compress)
    ensures World(out, turn.View(), log, SavedOf(compress, boundary))
         == Relieved(p, old(World(messages, turn.View(), log, SavedOf(compress, boundary))), play)
  {
    hide CompactOn, MicroCompacted;
    out := messages;
    if compress != null && turn.rounds > 0 && turn.rounds % TOKEN_CHECK_INTERVAL == 0 {
      if play.compactWanted {
        if p.role == "explore" {
          turn.promptUsed := turn.promptUsed + play.cachedTokens;
        }
        out := CompactIfWired(p, out, play.transcript, play.summary, compress, boundary);
      }
    }
    if turn.rounds > 0 && turn.rounds % MICRO_COMPACT_INTERVAL == 0 {
      if play.aboveMicroThreshold {
        out := MicroCompactMessages(out);
      }
    }
  }

  method PrepareRound(p: Profile, messages: seq<Message>, play: Round, compress: Compression?, boundary: Boundary?,
                      turn: TurnState, log: RunLog)
    returns (out: seq<Message>, log': RunLog, stop: Option<Stop>)
    requires StoreIntact(compress)
    modifies turn`rounds, turn`promptUsed
    modifies if compress == null then null else compress.histStore, boundary
    ensures StoreIntact(compress)
    ensures (World(out, turn.View(), log', SavedOf(compress, boundary)), stop)
         == PrepareOn(p, old(World(messages, turn.View(), log, SavedOf(compress, boundary))), play)
  {
    hide Finalized, Unconsumed, Relieved, IsEphemeralNudge;
    if p.role == "explore" && play.deadline {
      out, log' := FinalizeWithoutTools(p, messages, SoftDeadline, play.finalReply, turn, log,
        SavedOf(compress, boundary));
      return out, log', Some(SoftDeadline);
    }
    var removed;
    out, removed := DropConsumedNudges(messages);
    if turn.rounds >= RoundLimit(p) {
      out, log' := FinalizeWithoutTools(p, out, MaxRounds, play.finalReply, turn, log, SavedOf(compress, boundary));
      return out, log', Some(MaxRounds);
    }
    var nudges: seq<string> := [];
    if turn.rounds <= 1 && play.planNudge.Some? {
      nudges := [play.planNudge.value];
    }
    out := RelieveContext(p, out, play, compress, boundary, turn, log);
    nudges := nudges + play.reflections;
    out, log', stop := out + UserMessages(nudges), log, None;
  }

  method ExploreBudget(
    p: Profile, messages: seq<Message>, estimate: nat, turn: TurnState, log: RunLog, ghost saved: Saved)
    returns (out: seq<Message>, log': RunLog, admitted: bool)
    modifies turn`promptUsed, turn`budgetWarned
    ensures (World(out, turn.View(), log', saved), admitted)
         == Budgeted(p, old(World(messages, turn.View(), log, saved)), estimate)
  {
    out, log' := messages, log;
    if turn.promptUsed > 0 {
      if !turn.budgetWarned && turn.promptUsed * 10 >= PROMPT_TOKEN_BUDGET * 7 {
        out := out + UserMessages([p.phrases.budgetWarning]);
        turn.budgetWarned := true;
      }
    }
    if turn.promptUsed > 0 && turn.promptUsed + estimate > PROMPT_TOKEN_BUDGET {
      return out, log', false;
    }
    turn.promptUsed := turn.promptUsed + estimate;
    log' := log.(admitted := log.admitted + [estimate]);
    admitted := true;
  }

  // The repaired list is used only when something was filled in.
  method RepairForRequest(messages: seq<Message>) returns (req: seq<Message>)
    ensures req == Request(messages)
  {
    req := messages;
    var repaired, n := EnsureToolCallPairing(req);
    if n > 0 {
      req := repaired;
    }
    ChangedWhenFilled(messages);
  }

  method CallModel(p: Profile, messages: seq<Message>, play: Round, turn: TurnState, log: RunLog, ghost saved: Saved)
    returns (out: seq<Message>, log': RunLog, stop: Option<Stop>)
    modifies turn`rounds, turn`promptUsed, turn`budgetWarned
    ensures (World(out, turn.View(), log', saved), stop)
      == CallOn(p, old(World(messages, turn.View(), log, saved)), play)
  {
    out := RepairForRequest(messages);
    log' := log;
    if p.role == "explore" {
      var admitted;
      out, log', admitted := ExploreBudget(p, out, play.estimate, turn, log, saved);
      if !admitted {
        out, log' := FinalizeWithoutTools(p, out, PromptBudget, play.finalReply, turn, log', saved);
        return out, log', Some(PromptBudget);
      }
    }
    log' := Sent(log', out, play.reply.CallFailed? || !play.reply.truncated);
    match play.reply {
      case CallFailed =>
        log', stop := log'.(failed := true), Some(CallError);
      case Reply(content, calls, reasoning, _) =>
        out, stop := out + [Message(Assistant, content, calls, "", reasoning)], None;
    }
  }

  method HandleTruncation(p: Profile, messages: seq<Message>, calls: seq<ToolCall>) returns (out: seq<Message>)
    ensures forall turn, log, saved ::
      World(out, turn, log, saved) == TruncateOn(p, World(messages, turn, log, saved), calls)
  {
    var answers: seq<Message> := [];
    for k := 0 to |calls|
      invariant answers == CutOffAnswers(p, calls)[..k]
    {
      answers := answers + [ToolMessage(p.phrases.cutOff(calls[k]), calls[k].id)];
    }
    out := messages + answers + UserMessages([p.phrases.truncated]);
  }

  method HandleNoToolCalls(p: Profile, messages: seq<Message>, play: Round, turn: TurnState, log: RunLog,
                           ghost saved: Saved)
    returns (out: seq<Message>, log': RunLog, cont: bool)
    modifies turn`lessonWritten, turn`lessonRoundsRemaining, turn`judgeRetryInjects
    ensures (World(out, turn.View(), log', saved), cont)
         == NoToolCallsOn(p, old(World(messages, turn.View(), log, saved)), play.verdict)
  {
    log' := log.(completed := true);
    if p.canMemory && turn.rounds >= LESSON_THRESHOLD && turn.failures > 0 && !turn.lessonWritten {
      turn.lessonWritten := true;
      turn.lessonRoundsRemaining := LESSON_ROUNDS_LIMIT;
      log' := log'.(completed := false);
      return messages + UserMessages([p.phrases.lesson]), log', true;
    }
    if p.judgeEnabled && turn.judgeRetryInjects < JUDGE_MAX_RETRY_INJECTS {
      match play.verdict {
        case JudgeUnavailable =>
        case Verdict(approved, shouldRetry, score, feedback) =>
          if !(approved && !shouldRetry) {
            turn.judgeRetryInjects := turn.judgeRetryInjects + 1;
            var texts := [feedback];
            if score <= 3 {
              texts := texts + [p.phrases.judgeCritical];
            }
            assert texts == FeedbackTexts(p, play.verdict);
            log' := log'.(completed := false, failed := false);
            return messages + UserMessages(texts), log', true;
          }
      }
    }
    out, cont := messages, false;
  }

  // The calls one by one, each answered before the next is run; nudges wait for the end.
  method RunCalls(env: Env, calls: seq<ToolCall>, tools: int -> ToolPlay, turn: TurnState)
    returns (answers: seq<Message>, nudges: seq<string>, manualCompress: bool)
    modifies turn`failures, turn`budget, turn`executed
    ensures Batch(turn.View(), answers, nudges, manualCompress) == BatchRun(env, old(turn.View()), calls, tools)
  {
    answers, nudges, manualCompress := [], [], false;
    for k := 0 to |calls|
      invariant Batch(turn.View(), answers, nudges, manualCompress)
        == BatchRun(env, old(turn.View()), calls[..k], tools)
    {
      assert calls[..k + 1][..k] == calls[..k];
      var output, raised, compressed := turn.RunCall(env, calls[k], tools(k));
      answers := answers + [ToolMessage(output, calls[k].id)];
      nudges := nudges + Worded(env, raised);
      manualCompress := manualCompress || compressed;
    }
    assert calls[..|calls|] == calls;
  }

  method ExecuteToolBatch(
    env: Env, messages: seq<Message>, calls: seq<ToolCall>, tools: int -> ToolPlay, turn: TurnState,
    ghost log: RunLog, ghost saved: Saved)
    returns (out: seq<Message>, manualCompress: bool)
    modifies turn`failures, turn`budget, turn`executed
    ensures World(out, turn.View(), log, saved)
      == BatchOn(env, old(World(messages, turn.View(), log, saved)), calls, tools)
    ensures manualCompress == BatchRun(env, old(turn.View()), calls, tools).manualCompress
  {
    var answers, pendingNudges;
    answers, pendingNudges, manualCompress := RunCalls(env, calls, tools, turn);
    out := messages + answers + UserMessages(pendingNudges);
  }

  method AfterTools(
    p: Profile, messages: seq<Message>, play: Round, manualCompress: bool, compress: Compression?,
    boundary: Boundary?, turn: TurnState, log: RunLog)
    returns (out: seq<Message>, log': RunLog, stop: Option<Stop>)
    requires StoreIntact(compress)
    modifies turn`rounds, turn`lessonRoundsRemaining
    modifies if compress == null then null else compress.histStore, boundary
    ensures StoreIntact(compress)
    ensures (World(out, turn.View(), log', SavedOf(compress, boundary)), stop)
         == AfterToolsOn(p, old(World(messages, turn.View(), log, SavedOf(compress, boundary))), play, manualCompress)
  {
    hide CompactOn;
    out, log', stop := messages, log, None;
    turn.rounds := turn.rounds + 1;
    if manualCompress {
      out := CompactIfWired(p, out, play.transcript, play.manualSummary, compress, boundary);
    }
    if turn.lessonWritten {
      log' := log.(batchesAfterLesson := log.batchesAfterLesson + 1);
      turn.lessonRoundsRemaining := turn.lessonRoundsRemaining - 1;
      if turn.lessonRoundsRemaining <= 0 {
        stop := Some(LessonBudget);
      }
    }
  }

  // --- The run ---

  method HandleReply(
    p: Profile, env: Env, messages: seq<Message>, play: Round, compress: Compression?, boundary: Boundary?,
    turn: TurnState, log: RunLog)
    returns (out: seq<Message>, log': RunLog, stop: Option<Stop>)
    requires StoreIntact(compress)
    requires play.reply.Reply?
    modifies turn
    modifies if compress == null then null else compress.histStore, boundary
    ensures StoreIntact(compress)
    ensures (World(out, turn.View(), log', SavedOf(compress, boundary)), stop)
         == ReplyOn(p, env, old(World(messages, turn.View(), log, SavedOf(compress, boundary))), play)
  {
    hide NoToolCallsOn, TruncateOn, BatchOn, AfterToolsOn, BatchRun;
    log' := log;
    if play.reply.truncated {
      out := HandleTruncation(p, messages, play.reply.calls);
      return out, log', None;
    }
    if |play.reply.calls| == 0 {
      var cont;
      out, log', cont := HandleNoToolCalls(p, messages, play, turn, log, SavedOf(compress, boundary));
      return out, log', if cont then None else Some(Answered);
    }
    var manualCompress;
    out, manualCompress := ExecuteToolBatch(env, messages, play.reply.calls, play.tools, turn, log,
      SavedOf(compress, boundary));
    out, log', stop := AfterTools(p, out, play, manualCompress, compress, boundary, turn, log);
  }

  // One iteration of the loop.
  method Iterate(p: Profile, env: Env, thread: seq<Message>, play: Round, compress: Compression?, boundary: Boundary?,
                 turn: TurnState, log: RunLog)
    returns (messages: seq<Message>, log': RunLog, stop: Option<Stop>)
    requires StoreIntact(compress)
    modifies turn
    modifies if compress == null then null else compress.histStore, boundary
    ensures StoreIntact(compress)
    ensures (World(messages, turn.View(), log', SavedOf(compress, boundary)), stop)
         == RoundOn(p, env, old(World(thread, turn.View(), log, SavedOf(compress, boundary))), play)
  {
    hide PrepareOn, ReplyOn;
    messages, log', stop := PrepareRound(p, thread, play, compress, boundary, turn, log);
    if stop.Some? {
      return;
    }
    messages, log', stop := CallModel(p, messages, play, turn, log', SavedOf(compress, boundary));
    if stop.Some? {
      return;
    }
    messages, log', stop := HandleReply(p, env, messages, play, compress, boundary, turn, log');
  }

  lemma NextRound(p: Profile, env: Env, w: World, script: seq<Round>, i: nat)
    requires i < |script| && !script[i].cancelled
    ensures var r := RoundOn(p, env, w, script[i]);
      RunOn(p, env, w, script[i..]) == if r.1.Some? then (r.0, r.1.value) else RunOn(p, env, r.0, script[i + 1..])
  {
    assert script[i..][1..] == script[i + 1..];
  }

  // How the run ends from here.
  ghost function Ending(p: Profile, env: Env, w: World, early: Option<Stop>, todo: seq<Round>): (World, Stop) {
    if early.Some? then (w, early.value) else RunOn(p, env, w, todo)
  }

  method Loop(
    p: Profile, env: Env, thread: seq<Message>, script: seq<Round>, compress: Compression?, boundary: Boundary?,
    turn: TurnState, log: RunLog)
    returns (messages: seq<Message>, log': RunLog, stop: Stop)
    requires StoreIntact(compress)
    modifies turn
    modifies if compress == null then null else compress.histStore, boundary
    ensures StoreIntact(compress)
    ensures (World(messages, turn.View(), log', SavedOf(compress, boundary)), stop)
         == RunOn(p, env, old(World(thread, turn.View(), log, SavedOf(compress, boundary))), script)
  {
    hide RoundOn;
    messages, log' := thread, log;
    ghost var start := World(thread, turn.View(), log, SavedOf(compress, boundary));
    var early: Option<Stop> := None;
    var i := 0;
    assert script[0..] == script;
    while i < |script| && early.None? && !script[i].cancelled
      invariant 0 <= i <= |script| && StoreIntact(compress)
      invariant RunOn(p, env, start, script)
             == Ending(p, env, World(messages, turn.View(), log', SavedOf(compress, boundary)), early, script[i..])
      decreases |script| - i
    {
      NextRound(p, env, World(messages, turn.View(), log', SavedOf(compress, boundary)), script, i);
      messages, log', early := Iterate(p, env, messages, script[i], compress, boundary, turn, log');
      i := i + 1;
    }
    if early.Some? {
      stop := early.value;
    } else {
      log', stop := log'.(failed := true), Cancelled;
    }
  }

  // The whole run. The injected per-turn context never leaves it, and from a well-paired thread
  // the run is safe and hands back a well-paired thread unless a wrap-up was answered with calls.
  method Run(p: Profile, env: Env, thread: seq<Message>, context: seq<string>, script: seq<Round>,
             compress: Compression?, boundary: Boundary?)
    returns (result: seq<Message>, stop: Stop, turn: TurnState, log: RunLog)
    requires StoreIntact(compress)
    modifies if compress == null then null else compress.histStore, boundary
    ensures fresh(turn) && StoreIntact(compress)
    ensures var end := RunOn(p, env, Start(thread, context, old(SavedOf(compress, boundary))), script);
      && result == Returned(end.0) && stop == end.1
      && turn.View() == end.0.turn && log == end.0.log && SavedOf(compress, boundary) == end.0.saved
    ensures WellPaired(thread) ==> SafeRun(p, env, turn.executed, log)
    ensures WellPaired(thread) ==>
      && (WellPaired(result) <==> !(WrapUp(stop) && result != [] && HasCalls(result[|result| - 1])))
      && (log.completed <==> stop == Answered || (WrapUp(stop) && !log.failed))
      && (log.failed ==> stop == Cancelled || stop == CallError || WrapUp(stop))
  {
    hide RunOn, LastReply, SafeRun, WellPaired;
    turn := new TurnState();
    ghost var saved := SavedOf(compress, boundary);
    var messages;
    messages, log, stop := Loop(p, env, thread + UserMessages(context), script, compress, boundary, turn, NEW_LOG);
    result := FilterOut(messages, IsInjectedContext);
    if WellPaired(thread) {
      EveryRunIsSafe(p, env, thread, context, saved, script);
      EveryRunEndsPairedIff(p, env, thread, context, saved, script);
      ReturnedEnd(p, env, thread, context, saved, script);
    }
  }
}
