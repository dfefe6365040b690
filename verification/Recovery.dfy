// What the next turn makes of a conversation whose last calls nobody answered, as a wrap-up may
// leave it (internal/agent/runner.go, internal/agent/runner_loop.go).
module Recovery {
  import opened Options
  import opened Messages
  import opened Pairing
  import opened PairingFacts
  import opened Compaction
  import opened TurnBudget
  import opened AgentRun
  import opened Session

  // A well-paired beginning, an assistant message with open calls, and what was said to it since.
  datatype OpenThread = OpenThread(before: seq<Message>, last: Message, since: seq<Message>)

  ghost predicate SaidToAgent(ms: seq<Message>) {
    forall i :: 0 <= i < |ms| ==> ms[i].role == User || ms[i].role == System
  }

  ghost predicate IsOpen(o: OpenThread) {
    && WellPaired(o.before) && AllDistinct(o.before)
    && HasCalls(o.last) && DistinctIds(o.last.calls) && SaidToAgent(o.since)
  }

  function Flat(o: OpenThread): seq<Message> {
    o.before + ([o.last] + o.since)
  }

  // --- The repair closes the block ---

  lemma {:induction false} PullDefersAll(needed: set<string>, deferred: seq<Message>, since: seq<Message>)
    requires 0 < |needed| && SaidToAgent(since)
    ensures Pull(needed, map[], deferred, since) == Pulled(map[], deferred + since, [])
    decreases |since|
  {
    if since == [] {
      assert deferred + since == deferred;
    } else {
      PullDefersAll(needed, deferred + [since[0]], since[1..]);
      assert deferred + since == (deferred + [since[0]]) + since[1..];
    }
  }

  lemma OpenBlockIsPulled(last: Message, since: seq<Message>)
    requires HasCalls(last) && DistinctIds(last.calls) && SaidToAgent(since)
    ensures PulledFor([last] + since) == Pulled(map[], since, [])
    ensures Synthetic(last.calls, map[]) != [] && Answers(last.calls, Emitted(last.calls, map[]))
  {
    hide Pull, Emitted, Synthetic, NeededIds;
    assert ([last] + since)[1..] == since && [] + since == since;
    NeededCount(last.calls);
    PullDefersAll(NeededIds(last.calls), [], since);
    NoneMissing(last.calls, map[]);
    assert last.calls[0].id != "";
    EmittedAnswers(last.calls, NeededIds(last.calls), map[]);
  }

  lemma {:induction false} OpenBlockIsRepaired(last: Message, since: seq<Message>)
    requires HasCalls(last) && DistinctIds(last.calls) && SaidToAgent(since)
    ensures var r := Repair([last] + since); 0 < |r.synthetic| && WellPaired(r.out)
  {
    hide Pull, Emitted, Synthetic, PulledFor, WellPaired, Answers, DistinctIds;
    var ms, block := [last] + since, Emitted(last.calls, map[]);
    OpenBlockIsPulled(last, since);
    assert Repair([]) == Outcome([], [], false);
    hide Repair;
    RepairMade(ms);
    RepairOut(ms);
    BlockIsWellPaired(last, block);
    PlainIsWellPaired(since);
    WellPairedConcat([last] + block, since);
    Assembled(last, block, since);
  }

  lemma Assembled(m: Message, block: seq<Message>, since: seq<Message>)
    ensures [m] + ((block + since) + []) == ([m] + block) + since
  {
  }

  // What repairing a with b behind it comes to when nothing in a needs repair.
  ghost predicate PassesThrough(a: seq<Message>, b: seq<Message>) {
    var r := Repair(b);
    Repair(a + b) == Outcome(a + r.out, r.synthetic, r.changed)
  }

  lemma {:induction false} PlainPasses(a: seq<Message>, b: seq<Message>)
    requires a != [] && !HasCalls(a[0]) && PassesThrough(a[1..], b)
    ensures PassesThrough(a, b)
  {
    assert (a + b)[1..] == a[1..] + b;
    assert [a[0]] + (a[1..] + Repair(b).out) == a + Repair(b).out;
  }

  lemma {:induction false} BlockInPlace(a: seq<Message>, b: seq<Message>)
    requires a != [] && HasCalls(a[0]) && HeadBlock(a) && DistinctIds(a[0].calls)
    ensures InPlace(a + b, |a[0].calls|, PulledFor(a + b))
  {
    hide Repair, Pull, Emitted, Synthetic, FoundFrom, AnswersSomehow, Answers, PulledFor;
    var ms, n := a + b, |a[0].calls|;
    assert ms[1..1 + n] == a[1..1 + n];
    AnsweredBlock(a[0].calls, a[1..1 + n]);
    BlockComplete(ms);
  }

  // The parts of a rebuilt list, once the block at its head is found to be in place.
  lemma {:induction false} BlockStays(ms: seq<Message>, n: nat)
    requires n < |ms| && HasCalls(ms[0]) && InPlace(ms, n, PulledFor(ms))
    ensures var todo := Repair(ms[1 + n..]);
      Repair(ms) == Outcome([ms[0]] + ((ms[1..1 + n] + []) + todo.out), [] + todo.synthetic, todo.changed)
  {
    hide Repair, Pull, Emitted, Synthetic, PulledFor;
    RepairOut(ms);
    RepairMade(ms);
    RepairChanged(ms);
  }

  lemma Reassembled(a: seq<Message>, n: nat, tail: seq<Message>)
    requires n < |a|
    ensures [a[0]] + ((a[1..1 + n] + []) + (a[1 + n..] + tail)) == a + tail
  {
  }

  lemma BehindBlock(a: seq<Message>, b: seq<Message>, n: nat)
    requires n < |a|
    ensures (a + b)[1 + n..] == a[1 + n..] + b && (a + b)[1..1 + n] == a[1..1 + n] && (a + b)[0] == a[0]
  {
  }

  lemma {:induction false} BlockStaysBehind(a: seq<Message>, b: seq<Message>, n: nat)
    requires n < |a| && HasCalls(a[0]) && InPlace(a + b, n, PulledFor(a + b))
    ensures var todo := Repair(a[1 + n..] + b);
      Repair(a + b) == Outcome([a[0]] + ((a[1..1 + n] + []) + todo.out), [] + todo.synthetic, todo.changed)
  {
    hide Repair, InPlace, PulledFor;
    BehindBlock(a, b, n);
    BlockStays(a + b, n);
  }

  lemma {:induction false} BlockPasses(a: seq<Message>, b: seq<Message>)
    requires a != [] && HasCalls(a[0]) && HeadBlock(a) && DistinctIds(a[0].calls)
    requires PassesThrough(a[1 + |a[0].calls|..], b)
    ensures PassesThrough(a, b)
  {
    hide Repair, HeadBlock, InPlace, PulledFor, DistinctIds;
    var n, r := |a[0].calls|, Repair(b);
    assert n < |a| by {
      BlockFits(a);
    }
    BlockInPlace(a, b);
    BlockStaysBehind(a, b, n);
    Reassembled(a, n, r.out);
    assert [] + r.synthetic == r.synthetic;
  }

  lemma BlockFits(a: seq<Message>)
    requires a != [] && HasCalls(a[0]) && HeadBlock(a)
    ensures |a[0].calls| < |a|
  {
  }

  // A well-paired beginning passes through the repair untouched.
  lemma {:induction false} RepairBehindPaired(a: seq<Message>, b: seq<Message>)
    requires WellPaired(a) && AllDistinct(a)
    ensures PassesThrough(a, b)
    decreases |a|
  {
    if a == [] {
      assert a + b == b && a + Repair(b).out == Repair(b).out;
    } else {
      hide PassesThrough, Answers;
      if HasCalls(a[0]) {
        AllDistinctSuffix(a, 1 + |a[0].calls|);
        RepairBehindPaired(a[1 + |a[0].calls|..], b);
        BlockPasses(a, b);
      } else {
        AllDistinctSuffix(a, 1);
        RepairBehindPaired(a[1..], b);
        PlainPasses(a, b);
      }
    }
  }

  // Whatever was said since, the request goes out with one error per open call.
  lemma OpenThreadIsMended(o: OpenThread)
    requires IsOpen(o)
    ensures WellPaired(Request(Flat(o)))
  {
    OpenBlockIsRepaired(o.last, o.since);
    RepairBehindPaired(o.before, [o.last] + o.since);
    WellPairedConcat(o.before, Repair([o.last] + o.since).out);
  }

  // --- Up to the first call ---

  lemma {:induction false} LastIsLast(a: seq<Message>, m: Message, since: seq<Message>)
    requires m.role == Assistant && SaidToAgent(since)
    ensures LastAssistant(a + ([m] + since)) == |a|
    decreases |since|
  {
    var ms := a + ([m] + since);
    if since != [] {
      assert ms[..|ms| - 1] == a + ([m] + since[..|since| - 1]);
      LastIsLast(a, m, since[..|since| - 1]);
    }
  }

  lemma {:induction false} WithoutKeepsDistinct(ms: seq<Message>, drop: Message -> bool)
    requires AllDistinct(ms)
    ensures AllDistinct(Without(ms, drop))
  {
    if ms != [] {
      WithoutKeepsDistinct(ms[..|ms| - 1], drop);
    }
  }

  lemma UnconsumedStaysOpen(o: OpenThread) returns (o': OpenThread)
    requires IsOpen(o)
    ensures IsOpen(o') && Flat(o') == Unconsumed(Flat(o))
  {
    hide OpensNudge;
    o' := o.(before := Without(o.before, IsEphemeralNudge));
    LastIsLast(o.before, o.last, o.since);
    assert Flat(o)[..|o.before|] == o.before && Flat(o)[|o.before|..] == [o.last] + o.since;
    WithoutKeepsPairing(o.before, IsEphemeralNudge);
    WithoutKeepsDistinct(o.before, IsEphemeralNudge);
  }

  lemma SayingKeepsOpen(o: OpenThread, texts: seq<string>) returns (o': OpenThread)
    requires IsOpen(o)
    ensures IsOpen(o') && Flat(o') == Flat(o) + UserMessages(texts)
  {
    o' := o.(since := o.since + UserMessages(texts));
    assert Flat(o') == Flat(o) + UserMessages(texts);
  }

  // In its first round a run neither compacts nor stops by itself.
  lemma FirstPrepared(p: Profile, w: World, play: Round)
    requires w.turn.rounds == 0 && !(p.role == "explore" && play.deadline)
    ensures PrepareOn(p, w, play)
         == (w.(messages := Unconsumed(w.messages) + UserMessages(RoundNudges(w, play))), None)
  {
    hide Unconsumed, MicroCompacted, CompactOn;
  }

  lemma FirstRoundRecovers(p: Profile, env: Env, w: World, o: OpenThread, play: Round)
    requires IsOpen(o) && w.messages == Flat(o) && w.turn.rounds == 0 && !(p.role == "explore" && play.deadline)
    requires Kept(env, w) && Accounted(w, 0) && Undecided(w.log)
    ensures var r := RoundOn(p, env, w, play);
      if r.1.Some? then Over(p, env, r.0, r.1.value, play.finalReply) else Ongoing(p, env, r.0)
  {
    hide IsOpen, Flat, Unconsumed, RoundNudges, PrepareOn, RoundOn, Over, Request, WellPaired;
    FirstPrepared(p, w, play);
    var o1 := UnconsumedStaysOpen(o);
    var o2 := SayingKeepsOpen(o1, RoundNudges(w, play));
    OpenThreadIsMended(o2);
    PreparedRoundKeeps(p, env, w, play);
  }

  // The run gets as far as its first call.
  predicate GetsToAsk(p: Profile, script: seq<Round>) {
    script != [] && !script[0].cancelled && !(p.role == "explore" && script[0].deadline)
  }

  lemma {:induction false} OpenRunIsOver(
    p: Profile, env: Env, o: OpenThread, context: seq<string>, saved: Saved, script: seq<Round>)
    requires IsOpen(o) && GetsToAsk(p, script)
    ensures var start := Start(Flat(o), context, saved);
      var end := RunOn(p, env, start, script); Over(p, env, end.0, end.1, LastReply(p, env, start, script))
  {
    var start := Start(Flat(o), context, saved);
    assert Kept(env, start) && Accounted(start, 0) && Undecided(start.log);
    hide IsOpen, Flat, Over, RoundOn, Kept, Accounted;
    var o1 := SayingKeepsOpen(o, context);
    FirstRoundRecovers(p, env, start, o1, script[0]);
    var r := RoundOn(p, env, start, script[0]);
    if r.1 == None {
      RunKeeps(p, env, r.0, script[1..]);
    }
  }

  // A run that gets as far as its first call is as safe on an open thread as on a well-paired one,
  // and hands back a well-paired one on the same terms.
  lemma {:induction false} OpenThreadRecovers(
    p: Profile, env: Env, o: OpenThread, context: seq<string>, saved: Saved, script: seq<Round>)
    requires IsOpen(o) && GetsToAsk(p, script)
    ensures var start := Start(Flat(o), context, saved);
      var end, last := RunOn(p, env, start, script), LastReply(p, env, start, script);
      && SafeRun(p, env, end.0.turn.executed, end.0.log)
      && (WellPaired(Returned(end.0)) <==> !LeftOpen(end.1, last))
  {
    OpenRunIsOver(p, env, o, context, saved, script);
    var start := Start(Flat(o), context, saved);
    var end, last := RunOn(p, env, start, script), LastReply(p, env, start, script);
    hide RunOn, LastReply, Start;
    ReturnedPairing(end.0, end.1, last);
    CountedMeansWithinLimits(env, end.0.turn.budget, end.0.turn.executed);
  }

  lemma AskedStaysOpen(before: seq<Message>, last: Message, t: UserTurn) returns (o: OpenThread)
    requires WellPaired(before) && AllDistinct(before + [last]) && HasCalls(last)
    ensures IsOpen(o) && Flat(o) == Asked(before + [last], t)
  {
    o := OpenThread(before, last, Notes(t.inbox) + [UserMessage(t.line)]);
    assert forall i :: 0 <= i < |before| ==> (before + [last])[i] == before[i];
    assert (before + [last])[|before|] == last;
    assert Flat(o) == Asked(before + [last], t);
  }

  // So a session survives a wrap-up answered with calls: provided call IDs are distinct, the next
  // turn runs as safely as any other and hands back a well-paired thread on the same terms.
  lemma {:induction false} NextTurnRecovers(p: Profile, env: Env, thread: seq<Message>, t: UserTurn, next: UserTurn)
    requires WellPaired(thread) && TurnLeftOpen(p, env, thread, t)
    requires AllDistinct(ThreadAfter(p, env, thread, t)) && GetsToAsk(p, next.script)
    ensures var between := ThreadAfter(p, env, thread, t);
      var end := TurnEnd(p, env, between, next).0;
      && SafeRun(p, env, end.turn.executed, end.log)
      && (WellPaired(ThreadAfter(p, env, between, next)) <==> !TurnLeftOpen(p, env, between, next))
  {
    AskedIsPaired(thread, t);
    var before := LeftOpenBehind(p, env, Asked(thread, t), t.context, t.saved, t.script);
    var last := ReplyMessage(LastReply(p, env, StartOf(thread, t), t.script));
    hide RunOn, LastReply, WellPaired, AllDistinct, IsOpen, Flat, Asked, SafeRun;
    var o := AskedStaysOpen(before, last, next);
    OpenThreadRecovers(p, env, o, next.context, next.saved, next.script);
  }
}
