// Many user turns on one conversation, and what each of them leaves in the log (internal/repl).
module Session {
  import opened Messages
  import opened History
  import opened HistoryFacts
  import opened Compaction
  import opened TurnBudget
  import opened AgentRun

  // --- Turns ---

  // What the outside contributes to one turn: notes from the inbox, the prompt, the injected context,
  // what is known about the log, and the script of the run.
  datatype UserTurn =
    UserTurn(inbox: seq<string>, line: string, context: seq<string>, saved: Saved, script: seq<Round>)

  function Notes(texts: seq<string>): (r: seq<Message>)
    ensures |r| == |texts| && forall i :: 0 <= i < |r| ==> r[i] == SystemMessage(texts[i])
  {
    seq(|texts|, i requires 0 <= i < |texts| => SystemMessage(texts[i]))
  }

  function Asked(thread: seq<Message>, t: UserTurn): seq<Message> {
    thread + (Notes(t.inbox) + [UserMessage(t.line)])
  }

  function StartOf(thread: seq<Message>, t: UserTurn): World {
    Start(Asked(thread, t), t.context, t.saved)
  }

  ghost function TurnEnd(p: Profile, env: Env, thread: seq<Message>, t: UserTurn): (World, Stop) {
    RunOn(p, env, StartOf(thread, t), t.script)
  }

  // The thread the next turn goes on with.
  ghost function ThreadAfter(p: Profile, env: Env, thread: seq<Message>, t: UserTurn): seq<Message> {
    Returned(TurnEnd(p, env, thread, t).0)
  }

  ghost predicate TurnLeftOpen(p: Profile, env: Env, thread: seq<Message>, t: UserTurn) {
    LeftOpen(TurnEnd(p, env, thread, t).1, LastReply(p, env, StartOf(thread, t), t.script))
  }

  // The thread each turn starts from, and the one after the last.
  ghost function Threads(p: Profile, env: Env, thread: seq<Message>, turns: seq<UserTurn>): (r: seq<seq<Message>>)
    ensures |r| == |turns| + 1
    decreases |turns|
  {
    if turns == [] then [thread]
    else [thread] + Threads(p, env, ThreadAfter(p, env, thread, turns[0]), turns[1..])
  }

  lemma AskedIsPaired(thread: seq<Message>, t: UserTurn)
    requires WellPaired(thread)
    ensures WellPaired(Asked(thread, t))
  {
    PlainIsWellPaired(Notes(t.inbox) + [UserMessage(t.line)]);
    WellPairedConcat(thread, Notes(t.inbox) + [UserMessage(t.line)]);
  }

  lemma TurnKeepsPairingIff(p: Profile, env: Env, thread: seq<Message>, t: UserTurn)
    requires WellPaired(thread)
    ensures WellPaired(ThreadAfter(p, env, thread, t)) <==> !TurnLeftOpen(p, env, thread, t)
    ensures var end := TurnEnd(p, env, thread, t).0; SafeRun(p, env, end.turn.executed, end.log)
  {
    AskedIsPaired(thread, t);
    EveryRunIsSafe(p, env, Asked(thread, t), t.context, t.saved, t.script);
    EveryRunEndsPairedIff(p, env, Asked(thread, t), t.context, t.saved, t.script);
  }

  // Over a whole session: as long as no earlier wrap-up was answered with calls, every turn starts
  // from a well-paired thread and runs safely.
  lemma NextThreads(p: Profile, env: Env, thread: seq<Message>, turns: seq<UserTurn>, j: nat)
    requires 0 < j <= |turns|
    ensures Threads(p, env, thread, turns)[j]
         == Threads(p, env, ThreadAfter(p, env, thread, turns[0]), turns[1..])[j - 1]
  {
    hide ThreadAfter;
  }

  lemma {:induction false} SessionIsSafe(p: Profile, env: Env, thread: seq<Message>, turns: seq<UserTurn>, i: nat)
    requires WellPaired(thread) && i <= |turns|
    requires forall j :: 0 <= j < i ==> !TurnLeftOpen(p, env, Threads(p, env, thread, turns)[j], turns[j])
    ensures var from := Threads(p, env, thread, turns)[i];
      && WellPaired(from)
      && (i < |turns| ==>
            var end := TurnEnd(p, env, from, turns[i]).0;
            SafeRun(p, env, end.turn.executed, end.log))
    decreases i
  {
    hide TurnEnd, TurnLeftOpen, ThreadAfter, WellPaired, SafeRun;
    assert Threads(p, env, thread, turns)[0] == thread;
    if turns != [] {
      TurnKeepsPairingIff(p, env, thread, turns[0]);
    }
    if 0 < i {
      var next := ThreadAfter(p, env, thread, turns[0]);
      forall j | 0 <= j < i - 1
        ensures !TurnLeftOpen(p, env, Threads(p, env, next, turns[1..])[j], turns[1..][j])
      {
        NextThreads(p, env, thread, turns, j + 1);
      }
      SessionIsSafe(p, env, next, turns[1..], i - 1);
      NextThreads(p, env, thread, turns, i);
    }
  }

  // --- What a turn leaves in the log ---

  // The prompt is saved when the turn starts; afterwards only what the agent said and what its tools
  // answered. Notes and nudges are not.
  predicate Unsaved(m: Message) {
    m.role == User || m.role == System
  }

  function EntriesOf(m: Message): seq<Entry> {
    match m.role
    case Assistant => [AssistantEntry(m.content, m.calls)]
    case Tool => [ToolEntry(m.callId, m.content)]
    case _ => []
  }

  function SavedEntries(ms: seq<Message>): seq<Entry> {
    if ms == [] then [] else SavedEntries(ms[..|ms| - 1]) + EntriesOf(ms[|ms| - 1])
  }

  method AppendHistoryMessages(store: Store, ms: seq<Message>)
    requires store.Valid()
    modifies store
    ensures store.Valid() && store.log == old(store.log) + SavedEntries(ms)
  {
    for k := 0 to |ms|
      invariant store.Valid() && store.log == old(store.log) + SavedEntries(ms[..k])
    {
      assert ms[..k + 1][..k] == ms[..k];
      var m := ms[k];
      match m.role {
        case Assistant =>
          store.AppendAssistant(m.content, m.calls);
        case Tool =>
          store.AppendTool(m.callId, m.content);
        case _ =>
      }
    }
    assert ms[..|ms|] == ms;
  }

  function Spoken(ms: seq<Message>): seq<Message> {
    Without(ms, Unsaved)
  }

  ghost predicate NamesItsCalls(ms: seq<Message>) {
    forall i :: 0 <= i < |ms| && ms[i].role == Tool ==> ms[i].callId != ""
  }

  lemma MirrorsConcat(a: seq<Entry>, ms: seq<Message>, b: seq<Entry>, more: seq<Message>)
    requires MirrorsAll(a, ms) && MirrorsAll(b, more)
    ensures MirrorsAll(a + b, ms + more)
  {
  }

  lemma {:induction false} SavedMirrors(ms: seq<Message>)
    requires NamesItsCalls(ms)
    ensures MirrorsAll(SavedEntries(ms), Spoken(ms))
  {
    if ms != [] {
      var init, last := ms[..|ms| - 1], ms[|ms| - 1];
      SavedMirrors(init);
      MirrorsConcat(SavedEntries(init), Spoken(init), EntriesOf(last), if Unsaved(last) then [] else [last]);
    }
  }

  // The log and the conversation behind it after a turn that said `said`.
  function LogAfter(log: seq<Entry>, line: string, said: seq<Message>): seq<Entry> {
    log + ([UserEntry(line)] + SavedEntries(said))
  }

  function HeardAfter(heard: seq<Message>, line: string, said: seq<Message>): seq<Message> {
    heard + ([UserMessage(line)] + Spoken(said))
  }

  lemma TurnIsMirrored(log: seq<Entry>, heard: seq<Message>, line: string, said: seq<Message>)
    requires MirrorsAll(log, heard) && WellPaired(heard) && line != "" && WellPaired(said) && NamesItsCalls(said)
    ensures MirrorsAll(LogAfter(log, line, said), HeardAfter(heard, line, said))
    ensures WellPaired(HeardAfter(heard, line, said))
  {
    SavedMirrors(said);
    MirrorsConcat([UserEntry(line)], [UserMessage(line)], SavedEntries(said), Spoken(said));
    MirrorsConcat(log, heard, [UserEntry(line)] + SavedEntries(said), [UserMessage(line)] + Spoken(said));
    WithoutKeepsPairing(said, Unsaved);
    WellPairedConcat([UserMessage(line)], Spoken(said));
    WellPairedConcat(heard, [UserMessage(line)] + Spoken(said));
  }

  lemma {:induction false} SpokenEndsInSpeech(ms: seq<Message>)
    ensures Spoken(ms) != [] ==> Spoken(ms)[|Spoken(ms)| - 1].role != User
  {
    if ms != [] {
      SpokenEndsInSpeech(ms[..|ms| - 1]);
    }
  }

  lemma HeardEnd(heard: seq<Message>, line: string, said: seq<Message>)
    requires Spoken(said) != []
    ensures var r := HeardAfter(heard, line, said);
      |r| == |heard| + 1 + |Spoken(said)| && r[|r| - 1].role != User
  {
    SpokenEndsInSpeech(said);
  }

  // After a restart, a turn the agent answered is there as it was said, prompt first; its nudges are
  // gone.
  lemma AnsweredTurnComesBack(
    log: seq<Entry>, heard: seq<Message>, line: string, said: seq<Message>, at: int, sys: string)
    requires MirrorsAll(log, heard) && WellPaired(heard) && line != "" && WellPaired(said) && NamesItsCalls(said)
    requires LastCheckpointIs(LogAfter(log, line, said), at) && Spoken(said) != []
    ensures Loaded(LogAfter(log, line, said), at, sys)
         == ([SystemMessage(sys)] + StoredAll(HeardAfter(heard, line, said)), |heard| + 1 + |Spoken(said)|)
  {
    hide *;
    TurnIsMirrored(log, heard, line, said);
    HeardEnd(heard, line, said);
    ReplayInvertsAppending(LogAfter(log, line, said), HeardAfter(heard, line, said), at, sys);
  }

  lemma PromptIsTrimmed(heard: seq<Message>, line: string)
    requires heard != [] && heard[|heard| - 1].role != User
    ensures WithoutTrailingUsers(StoredAll(HeardAfter(heard, line, []))) == StoredAll(heard)
  {
    var prompt := [UserMessage(line)];
    assert prompt + [] == prompt;
    StoredSnoc(heard, UserMessage(line));
    TrailingUsersBehind(StoredAll(heard), prompt);
    assert WithoutTrailingUsers(prompt) == [];
  }

  lemma TrimmedLog(log: seq<Entry>, heard: seq<Message>, at: int, sys: string)
    requires MirrorsAll(log, heard) && WellPaired(heard) && LastCheckpointIs(log, at)
    ensures Loaded(log, at, sys).0 == [SystemMessage(sys)] + WithoutTrailingUsers(StoredAll(heard))
  {
    NoCheckpointMirrored(log, heard, at);
    UntrimmedMirror(log, heard, sys);
    StoredKeepsPairing(heard);
    SystemHead(sys);
    TrimWellPaired([SystemMessage(sys)], StoredAll(heard));
  }

  // A turn broken off before the agent said anything leaves its prompt in the log, and a restart
  // drops it: the conversation resumes as if it had not been asked.
  lemma UnansweredTurnIsDropped(log: seq<Entry>, heard: seq<Message>, line: string, at: int, sys: string)
    requires MirrorsAll(log, heard) && WellPaired(heard) && line != ""
    requires heard != [] && heard[|heard| - 1].role != User
    requires LastCheckpointIs(LogAfter(log, line, []), at)
    ensures Loaded(LogAfter(log, line, []), at, sys).0 == [SystemMessage(sys)] + StoredAll(heard)
  {
    hide LogAfter, HeardAfter, LastCheckpointIs, Loaded, StoredAll;
    TurnIsMirrored(log, heard, line, []);
    TrimmedLog(LogAfter(log, line, []), HeardAfter(heard, line, []), at, sys);
    PromptIsTrimmed(heard, line);
  }

  // One turn as the log sees it.
  datatype SavedTurn = SavedTurn(line: string, said: seq<Message>)

  ghost predicate Savable(t: SavedTurn) {
    t.line != "" && WellPaired(t.said) && NamesItsCalls(t.said)
  }

  function LogOf(turns: seq<SavedTurn>): seq<Entry> {
    if turns == [] then [] else
      var last := turns[|turns| - 1];
      LogAfter(LogOf(turns[..|turns| - 1]), last.line, last.said)
  }

  function HeardIn(turns: seq<SavedTurn>): seq<Message> {
    if turns == [] then [] else
      var last := turns[|turns| - 1];
      HeardAfter(HeardIn(turns[..|turns| - 1]), last.line, last.said)
  }

  lemma {:induction false} SessionIsMirrored(turns: seq<SavedTurn>)
    requires forall i :: 0 <= i < |turns| ==> Savable(turns[i])
    ensures MirrorsAll(LogOf(turns), HeardIn(turns)) && WellPaired(HeardIn(turns))
  {
    if turns != [] {
      var init, last := turns[..|turns| - 1], turns[|turns| - 1];
      SessionIsMirrored(init);
      TurnIsMirrored(LogOf(init), HeardIn(init), last.line, last.said);
    }
  }

  // Any session the compactor left alone: a restart brings back every prompt, everything the agent
  // said and every tool result, in order, less the last prompt if it was never answered.
  lemma SessionComesBack(turns: seq<SavedTurn>, at: int, sys: string)
    requires forall i :: 0 <= i < |turns| ==> Savable(turns[i])
    requires LastCheckpointIs(LogOf(turns), at)
    ensures Loaded(LogOf(turns), at, sys).0 == [SystemMessage(sys)] + WithoutTrailingUsers(StoredAll(HeardIn(turns)))
  {
    hide *;
    SessionIsMirrored(turns);
    TrimmedLog(LogOf(turns), HeardIn(turns), at, sys);
  }
}
