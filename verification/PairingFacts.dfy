// What the pairing repair achieves, for distinct non-empty call IDs within each message.
module PairingFacts {
  import opened Options
  import opened Messages
  import opened Pairing
  import opened Ids

  ghost predicate DistinctIds(calls: seq<ToolCall>) {
    (forall k :: 0 <= k < |calls| ==> calls[k].id != "")
    && forall i, j :: 0 <= i < j < |calls| ==> calls[i].id != calls[j].id
  }

  ghost predicate AllDistinct(ms: seq<Message>) {
    forall i :: 0 <= i < |ms| && HasCalls(ms[i]) ==> DistinctIds(ms[i].calls)
  }

  ghost predicate ValidFound(needed: set<string>, found: map<string, Message>) {
    forall id :: id in found ==> id in needed && found[id].role == Tool && found[id].callId == id
  }

  ghost predicate NoAssistant(ms: seq<Message>) {
    forall i :: 0 <= i < |ms| ==> ms[i].role != Assistant
  }

  // Every assistant message with calls is followed at once by its answers in call order; stray
  // tool messages may stand elsewhere.
  ghost predicate Answered(ms: seq<Message>)
    decreases |ms|
  {
    if ms == [] then true
    else if HasCalls(ms[0]) then HeadBlock(ms) && Answered(ms[1 + |ms[0].calls|..])
    else Answered(ms[1..])
  }

  // One result per call, in any order.
  ghost predicate AnswersSomehow(calls: seq<ToolCall>, ts: seq<Message>) {
    && |ts| == |calls|
    && (forall k :: 0 <= k < |ts| ==> ts[k].role == Tool && ts[k].callId in NeededIds(calls))
    && forall i, j :: 0 <= i < j < |ts| ==> ts[i].callId != ts[j].callId
  }

  ghost predicate AnsweredSomehow(ms: seq<Message>)
    decreases |ms|
  {
    if ms == [] then true
    else if HasCalls(ms[0]) then
      var n := |ms[0].calls|;
      n < |ms| && AnswersSomehow(ms[0].calls, ms[1..1 + n]) && AnsweredSomehow(ms[1 + n..])
    else AnsweredSomehow(ms[1..])
  }

  // --- Pulling results forward ---

  // What is left over is a suffix.
  lemma {:induction false} PullLeavesSuffix(
    needed: set<string>, found: map<string, Message>, deferred: seq<Message>, rest: seq<Message>)
    ensures var p := Pull(needed, found, deferred, rest); |p.rest| <= |rest| && p.rest == rest[|rest| - |p.rest|..]
    decreases |rest|
  {
    if !(rest == [] || |found| >= |needed| || rest[0].role == Assistant) {
      var cur := rest[0];
      if cur.role == Tool && cur.callId in needed && cur.callId !in found {
        PullLeavesSuffix(needed, found[cur.callId := cur], deferred, rest[1..]);
      } else {
        PullLeavesSuffix(needed, found, deferred + [cur], rest[1..]);
      }
    }
  }

  // Found results are genuine and deferred messages are never assistant messages.
  lemma {:induction false} PullFacts(
    needed: set<string>, found: map<string, Message>, deferred: seq<Message>, rest: seq<Message>)
    requires ValidFound(needed, found) && NoAssistant(deferred)
    ensures var p := Pull(needed, found, deferred, rest); ValidFound(needed, p.found) && NoAssistant(p.deferred)
    decreases |rest|
  {
    if !(rest == [] || |found| >= |needed| || rest[0].role == Assistant) {
      var cur := rest[0];
      if cur.role == Tool && cur.callId in needed && cur.callId !in found {
        PullFacts(needed, found[cur.callId := cur], deferred, rest[1..]);
      } else {
        PullFacts(needed, found, deferred + [cur], rest[1..]);
      }
    }
  }

  lemma {:induction false} PullKeepsNonTools(
    needed: set<string>, found: map<string, Message>, deferred: seq<Message>, rest: seq<Message>,
    isTool: Message -> bool)
    requires forall m :: isTool(m) <==> m.role == Tool
    ensures var p := Pull(needed, found, deferred, rest);
            Without(p.deferred + p.rest, isTool) == Without(deferred + rest, isTool)
    decreases |rest|
  {
    if !(rest == [] || |found| >= |needed| || rest[0].role == Assistant) {
      var cur := rest[0];
      assert deferred + rest == (deferred + [cur]) + rest[1..];
      if cur.role == Tool && cur.callId in needed && cur.callId !in found {
        PullKeepsNonTools(needed, found[cur.callId := cur], deferred, rest[1..], isTool);
        WithoutConcat(deferred, [cur], isTool);
        WithoutConcat(deferred + [cur], rest[1..], isTool);
        WithoutConcat(deferred, rest[1..], isTool);
        assert [cur][..0] == [];
        assert Without([cur], isTool) == [];
        assert Without(deferred, isTool) + [] == Without(deferred, isTool);
      } else {
        PullKeepsNonTools(needed, found, deferred + [cur], rest[1..], isTool);
      }
    }
  }

  // The results found so far, in call order.
  function Collected(calls: seq<ToolCall>, found: map<string, Message>): seq<Message> {
    if calls == [] then [] else
      var tc := calls[|calls| - 1];
      Collected(calls[..|calls| - 1], found) + (if tc.id in found then [found[tc.id]] else [])
  }

  lemma {:induction false} CollectOther(calls: seq<ToolCall>, found: map<string, Message>, id: string, m: Message)
    requires forall k :: 0 <= k < |calls| ==> calls[k].id != id
    ensures Collected(calls, found[id := m]) == Collected(calls, found)
  {
    if calls != [] {
      CollectOther(calls[..|calls| - 1], found, id, m);
    }
  }

  // How often x occurs in ms.
  function Count(ms: seq<Message>, x: Message): nat {
    if ms == [] then 0 else
      Count(ms[..|ms| - 1], x) + (if ms[|ms| - 1] == x then 1 else 0)
  }

  lemma {:induction false} CountConcat(a: seq<Message>, b: seq<Message>, x: Message)
    ensures Count(a + b, x) == Count(a, x) + Count(b, x)
    decreases |b|
  {
    if b == [] {
      assert a + b == a;
    } else {
      var init, last := b[..|b| - 1], b[|b| - 1];
      assert (a + b)[..|a + b| - 1] == a + init && (a + b)[|a + b| - 1] == last;
      CountConcat(a, init, x);
    }
  }

  lemma CountCons(m: Message, ms: seq<Message>, x: Message)
    ensures Count([m] + ms, x) == (if m == x then 1 else 0) + Count(ms, x)
  {
    CountConcat([m], ms, x);
    assert [m][..0] == [];
  }

  lemma CountSnoc(ms: seq<Message>, m: Message, x: Message)
    ensures Count(ms + [m], x) == Count(ms, x) + (if m == x then 1 else 0)
  {
    assert (ms + [m])[..|ms|] == ms;
  }

  lemma {:induction false} CollectOneMore(
    calls: seq<ToolCall>, found: map<string, Message>, id: string, m: Message, x: Message)
    requires DistinctIds(calls) && id !in found && exists k :: 0 <= k < |calls| && calls[k].id == id
    ensures Count(Collected(calls, found[id := m]), x) == Count(Collected(calls, found), x) + (if m == x then 1 else 0)
  {
    var init, tc := calls[..|calls| - 1], calls[|calls| - 1];
    if tc.id == id {
      CollectOther(init, found, id, m);
      CountSnoc(Collected(init, found), m, x);
      assert Collected(init, found) + [] == Collected(init, found);
    } else {
      CollectOneMore(init, found, id, m, x);
      if tc.id in found {
        CountSnoc(Collected(init, found), found[tc.id], x);
        CountSnoc(Collected(init, found[id := m]), found[tc.id], x);
      } else {
        assert Collected(init, found) + [] == Collected(init, found);
        assert Collected(init, found[id := m]) + [] == Collected(init, found[id := m]);
      }
    }
  }

  // How often x has been found, deferred or not yet read.
  function Held(
    calls: seq<ToolCall>, found: map<string, Message>, deferred: seq<Message>, rest: seq<Message>, x: Message): nat
  {
    Count(Collected(calls, found), x) + Count(deferred, x) + Count(rest, x)
  }

  lemma HeldStep(
    calls: seq<ToolCall>, found: map<string, Message>, deferred: seq<Message>, rest: seq<Message>, x: Message)
    requires DistinctIds(calls) && rest != []
    ensures Held(calls, found, deferred + [rest[0]], rest[1..], x) == Held(calls, found, deferred, rest, x)
    ensures rest[0].callId in NeededIds(calls) && rest[0].callId !in found ==>
      Held(calls, found[rest[0].callId := rest[0]], deferred, rest[1..], x) == Held(calls, found, deferred, rest, x)
  {
    var cur := rest[0];
    assert rest == [cur] + rest[1..];
    CountCons(cur, rest[1..], x);
    CountSnoc(deferred, cur, x);
    if cur.callId in NeededIds(calls) && cur.callId !in found {
      CollectOneMore(calls, found, cur.callId, cur, x);
    }
  }

  lemma {:induction false} PullConserves(
    calls: seq<ToolCall>, found: map<string, Message>, deferred: seq<Message>, rest: seq<Message>, x: Message)
    requires DistinctIds(calls)
    ensures var p := Pull(NeededIds(calls), found, deferred, rest);
            Held(calls, p.found, p.deferred, p.rest, x) == Held(calls, found, deferred, rest, x)
    decreases |rest|
  {
    var needed := NeededIds(calls);
    if !(rest == [] || |found| >= |needed| || rest[0].role == Assistant) {
      var cur := rest[0];
      HeldStep(calls, found, deferred, rest, x);
      if cur.role == Tool && cur.callId in needed && cur.callId !in found {
        PullConserves(calls, found[cur.callId := cur], deferred, rest[1..], x);
      } else {
        PullConserves(calls, found, deferred + [cur], rest[1..], x);
      }
    }
  }

  lemma {:induction false} EmittedParts(calls: seq<ToolCall>, found: map<string, Message>, x: Message)
    requires forall k :: 0 <= k < |calls| ==> calls[k].id != ""
    ensures Count(Emitted(calls, found), x) == Count(Collected(calls, found), x) + Count(Synthetic(calls, found), x)
  {
    if calls != [] {
      var init, tc := calls[..|calls| - 1], calls[|calls| - 1];
      var e, c, s := Emitted(init, found), Collected(init, found), Synthetic(init, found);
      EmittedParts(init, found, x);
      CountConcat(e, if tc.id in found then [found[tc.id]] else [MissingResult(tc)], x);
      CountConcat(c, if tc.id in found then [found[tc.id]] else [], x);
      CountConcat(s, if tc.id in found then [] else [MissingResult(tc)], x);
    }
  }

  lemma {:induction false} EmittedAnswers(calls: seq<ToolCall>, needed: set<string>, found: map<string, Message>)
    requires (forall k :: 0 <= k < |calls| ==> calls[k].id != "") && ValidFound(needed, found)
    ensures Answers(calls, Emitted(calls, found))
    ensures forall i :: 0 <= i < |Emitted(calls, found)| ==> Emitted(calls, found)[i].role == Tool
  {
    if calls != [] {
      EmittedAnswers(calls[..|calls| - 1], needed, found);
    }
  }

  lemma {:induction false} AnsweredAfterPlain(xs: seq<Message>, ys: seq<Message>)
    requires NoAssistant(xs) && Answered(ys)
    ensures Answered(xs + ys)
    decreases |xs|
  {
    if xs == [] {
      assert xs + ys == ys;
    } else {
      assert (xs + ys)[1..] == xs[1..] + ys;
      AnsweredAfterPlain(xs[1..], ys);
    }
  }

  lemma AllDistinctSuffix(ms: seq<Message>, k: nat)
    requires AllDistinct(ms) && k <= |ms|
    ensures AllDistinct(ms[k..])
  {
  }

  // --- The rebuilt list ---

  lemma PulledForFacts(ms: seq<Message>) returns (p: Pulled)
    requires ms != [] && HasCalls(ms[0]) && AllDistinct(ms)
    ensures p == PulledFor(ms) && |p.rest| < |ms| && AllDistinct(p.rest)
    ensures NoAssistant(p.deferred) && Answers(ms[0].calls, Emitted(ms[0].calls, p.found))
  {
    p := PulledFor(ms);
    var needed := NeededIds(ms[0].calls);
    PullFacts(needed, map[], [], ms[1..]);
    PullLeavesSuffix(needed, map[], [], ms[1..]);
    AllDistinctSuffix(ms, 1);
    AllDistinctSuffix(ms[1..], |ms[1..]| - |p.rest|);
    EmittedAnswers(ms[0].calls, needed, p.found);
  }

  lemma BlockAnswered(m: Message, block: seq<Message>, tail: seq<Message>)
    requires HasCalls(m) && Answers(m.calls, block) && Answered(tail)
    ensures Answered([m] + block + tail)
  {
    var out := [m] + block + tail;
    assert out[1..1 + |m.calls|] == block && out[1 + |m.calls|..] == tail;
  }

  lemma {:induction false} RepairAnswers(ms: seq<Message>)
    requires AllDistinct(ms)
    ensures Answered(Repair(ms).out)
    decreases |ms|
  {
    hide DistinctIds, Pull, Emitted, AnswersSomehow;
    if ms == [] {
    } else if !HasCalls(ms[0]) {
      AllDistinctSuffix(ms, 1);
      RepairAnswers(ms[1..]);
      assert Repair(ms).out[1..] == Repair(ms[1..]).out;
    } else {
      var p := PulledForFacts(ms);
      RepairAnswers(p.rest);
      var block, tail := Emitted(ms[0].calls, p.found), Repair(p.rest).out;
      AnsweredAfterPlain(p.deferred, tail);
      BlockAnswered(ms[0], block, p.deferred + tail);
      assert [ms[0]] + block + p.deferred + tail == [ms[0]] + block + (p.deferred + tail);
    }
  }

  lemma {:induction false} CollectedNothing(calls: seq<ToolCall>)
    ensures Collected(calls, map[]) == []
  {
    if calls != [] {
      CollectedNothing(calls[..|calls| - 1]);
    }
  }

  lemma {:induction false} BlockConserves(ms: seq<Message>, x: Message)
    requires ms != [] && HasCalls(ms[0]) && DistinctIds(ms[0].calls)
    ensures var p := PulledFor(ms);
      && Count(Emitted(ms[0].calls, p.found) + p.deferred, x) + Count(p.rest, x)
           == Count(ms[1..], x) + Count(Synthetic(ms[0].calls, p.found), x)
  {
    var p := PulledFor(ms);
    PullConserves(ms[0].calls, map[], [], ms[1..], x);
    CollectedNothing(ms[0].calls);
    EmittedParts(ms[0].calls, p.found, x);
    CountConcat(Emitted(ms[0].calls, p.found), p.deferred, x);
  }

  lemma CountPieces(m: Message, block: seq<Message>, tail: seq<Message>, x: Message)
    ensures Count([m] + (block + tail), x) == (if m == x then 1 else 0) + Count(block, x) + Count(tail, x)
  {
    CountCons(m, block + tail, x);
    CountConcat(block, tail, x);
  }

  lemma RestIsShorter(ms: seq<Message>)
    requires ms != [] && HasCalls(ms[0])
    ensures |PulledFor(ms).rest| < |ms|
  {
    PullShrinks(NeededIds(ms[0].calls), map[], [], ms[1..]);
  }

  // What repairing a list that starts with calls comes to, field by field.
  lemma {:induction false} RepairOut(ms: seq<Message>)
    requires ms != [] && HasCalls(ms[0])
    ensures var p := PulledFor(ms);
      Repair(ms).out == [ms[0]] + ((Emitted(ms[0].calls, p.found) + p.deferred) + Repair(p.rest).out)
  {
    RestIsShorter(ms);
    var p := PulledFor(ms);
    Grouped(ms[0], Emitted(ms[0].calls, p.found), p.deferred, Repair(p.rest).out);
  }

  lemma Grouped(m: Message, block: seq<Message>, deferred: seq<Message>, tail: seq<Message>)
    ensures [m] + block + deferred + tail == [m] + ((block + deferred) + tail)
  {
  }

  lemma {:induction false} RepairMade(ms: seq<Message>)
    requires ms != [] && HasCalls(ms[0])
    ensures var p := PulledFor(ms); Repair(ms).synthetic == Synthetic(ms[0].calls, p.found) + Repair(p.rest).synthetic
  {
    RestIsShorter(ms);
  }

  lemma {:induction false} RepairChanged(ms: seq<Message>)
    requires ms != [] && HasCalls(ms[0])
    ensures var p := PulledFor(ms);
      Repair(ms).changed <==> p.deferred != [] || Synthetic(ms[0].calls, p.found) != [] || Repair(p.rest).changed
  {
    RestIsShorter(ms);
  }

  // Nothing is lost, and nothing invented beyond the synthetic errors: every message occurs as
  // often as in the input and among the synthetic ones together.
  lemma {:induction false} RepairConserves(ms: seq<Message>, x: Message)
    requires AllDistinct(ms)
    ensures Count(Repair(ms).out, x) == Count(ms, x) + Count(Repair(ms).synthetic, x)
    decreases |ms|
  {
    if ms != [] {
      assert ms == [ms[0]] + ms[1..];
      CountCons(ms[0], ms[1..], x);
      if !HasCalls(ms[0]) {
        AllDistinctSuffix(ms, 1);
        RepairConserves(ms[1..], x);
        CountCons(ms[0], Repair(ms[1..]).out, x);
      } else {
        var p := PulledForFacts(ms);
        RepairConserves(p.rest, x);
        BlockConserves(ms, x);
        RepairOut(ms);
        RepairMade(ms);
        CountPieces(ms[0], Emitted(ms[0].calls, p.found) + p.deferred, Repair(p.rest).out, x);
        CountConcat(Synthetic(ms[0].calls, p.found), Repair(p.rest).synthetic, x);
      }
    }
  }

  lemma {:induction false} WithoutAll(ms: seq<Message>, drop: Message -> bool)
    requires forall i :: 0 <= i < |ms| ==> drop(ms[i])
    ensures Without(ms, drop) == []
  {
    if ms != [] {
      WithoutAll(ms[..|ms| - 1], drop);
    }
  }

  lemma BlockKeepsOrder(ms: seq<Message>, p: Pulled, tail: seq<Message>, isTool: Message -> bool)
    requires ms != [] && HasCalls(ms[0]) && p == PulledFor(ms)
    requires Answers(ms[0].calls, Emitted(ms[0].calls, p.found))
    requires (forall m :: isTool(m) <==> m.role == Tool) && Without(tail, isTool) == Without(p.rest, isTool)
    ensures Without(Emitted(ms[0].calls, p.found) + p.deferred + tail, isTool) == Without(ms[1..], isTool)
  {
    var block := Emitted(ms[0].calls, p.found);
    PullKeepsNonTools(NeededIds(ms[0].calls), map[], [], ms[1..], isTool);
    assert [] + ms[1..] == ms[1..];
    WithoutAll(block, isTool);
    WithoutConcat(p.deferred, p.rest, isTool);
    WithoutConcat(block, p.deferred, isTool);
    WithoutConcat(block + p.deferred, tail, isTool);
    assert [] + Without(p.deferred, isTool) == Without(p.deferred, isTool);
  }

  // Messages other than tool results keep their relative order.
  lemma {:induction false} RepairKeepsOrder(ms: seq<Message>, isTool: Message -> bool)
    requires AllDistinct(ms) && forall m :: isTool(m) <==> m.role == Tool
    ensures Without(Repair(ms).out, isTool) == Without(ms, isTool)
    decreases |ms|
  {
    if ms != [] {
      assert ms == [ms[0]] + ms[1..];
      WithoutConcat([ms[0]], ms[1..], isTool);
      if !HasCalls(ms[0]) {
        AllDistinctSuffix(ms, 1);
        RepairKeepsOrder(ms[1..], isTool);
        WithoutConcat([ms[0]], Repair(ms[1..]).out, isTool);
      } else {
        var p := PulledForFacts(ms);
        var tail := Repair(p.rest).out;
        RepairKeepsOrder(p.rest, isTool);
        BlockKeepsOrder(ms, p, tail, isTool);
        RepairOut(ms);
        WithoutConcat([ms[0]], Emitted(ms[0].calls, p.found) + p.deferred + tail, isTool);
      }
    }
  }

  // --- When nothing needs repair ---

  lemma {:induction false} NeededCount(calls: seq<ToolCall>)
    requires DistinctIds(calls)
    ensures |NeededIds(calls)| == |calls|
  {
    if calls != [] {
      NeededCount(calls[..|calls| - 1]);
    }
  }

  function FoundFrom(found: map<string, Message>, ts: seq<Message>): map<string, Message>
    decreases |ts|
  {
    if ts == [] then found else FoundFrom(found[ts[0].callId := ts[0]], ts[1..])
  }

  ghost predicate FreshAnswers(needed: set<string>, found: map<string, Message>, ts: seq<Message>) {
    (forall k :: 0 <= k < |ts| ==> ts[k].role == Tool && ts[k].callId in needed && ts[k].callId !in found)
    && forall i, j :: 0 <= i < j < |ts| ==> ts[i].callId != ts[j].callId
  }

  lemma {:induction false} FoundFromFacts(needed: set<string>, found: map<string, Message>, ts: seq<Message>)
    requires FreshAnswers(needed, found, ts)
    ensures var f := FoundFrom(found, ts);
            && |f| == |found| + |ts|
            && (forall id :: id in found ==> id in f && f[id] == found[id])
            && (forall k :: 0 <= k < |ts| ==> ts[k].callId in f && f[ts[k].callId] == ts[k])
            && forall id :: id in f ==> id in found || id in needed
    decreases |ts|
  {
    if ts != [] {
      var more := found[ts[0].callId := ts[0]];
      assert FreshAnswers(needed, more, ts[1..]);
      FoundFromFacts(needed, more, ts[1..]);
      forall k | 0 <= k < |ts|
        ensures ts[k].callId in FoundFrom(found, ts) && FoundFrom(found, ts)[ts[k].callId] == ts[k]
      {
        if 0 < k {
          assert ts[k] == ts[1..][k - 1];
        }
      }
    }
  }

  lemma {:induction false} PullTakesAnswers(
    needed: set<string>, found: map<string, Message>, ts: seq<Message>, rest: seq<Message>)
    requires FreshAnswers(needed, found, ts) && |found| + |ts| == |needed|
    ensures Pull(needed, found, [], ts + rest) == Pulled(FoundFrom(found, ts), [], rest)
    decreases |ts|
  {
    if ts == [] {
      assert ts + rest == rest;
    } else {
      var more := found[ts[0].callId := ts[0]];
      assert FreshAnswers(needed, more, ts[1..]);
      assert (ts + rest)[1..] == ts[1..] + rest;
      PullTakesAnswers(needed, more, ts[1..], rest);
    }
  }

  lemma {:induction false} NoneMissing(calls: seq<ToolCall>, found: map<string, Message>)
    ensures Synthetic(calls, found) == [] <==>
      forall k :: 0 <= k < |calls| && calls[k].id != "" ==> calls[k].id in found
  {
    if calls != [] {
      var init, tc := calls[..|calls| - 1], calls[|calls| - 1];
      NoneMissing(init, found);
      assert Synthetic(calls, found) == [] <==> Synthetic(init, found) == [] && (tc.id == "" || tc.id in found);
      assert forall k :: 0 <= k < |init| ==> calls[k] == init[k];
    }
  }

  // A complete answer block, in whatever order, is taken whole and nothing is made up.
  lemma BlockTaken(calls: seq<ToolCall>, ts: seq<Message>, rest: seq<Message>)
    requires DistinctIds(calls) && AnswersSomehow(calls, ts)
    ensures Pull(NeededIds(calls), map[], [], ts + rest) == Pulled(FoundFrom(map[], ts), [], rest)
    ensures forall id :: id in NeededIds(calls) ==> id in FoundFrom(map[], ts)
  {
    var needed, found := NeededIds(calls), FoundFrom(map[], ts);
    NeededCount(calls);
    PullTakesAnswers(needed, map[], ts, rest);
    FoundFromFacts(needed, map[], ts);
    SubsetSize(found.Keys, needed);
  }

  lemma BlockComplete(ms: seq<Message>)
    requires ms != [] && HasCalls(ms[0]) && DistinctIds(ms[0].calls)
    requires var n := |ms[0].calls|; n < |ms| && AnswersSomehow(ms[0].calls, ms[1..1 + n])
    ensures var calls, n := ms[0].calls, |ms[0].calls|;
            && PulledFor(ms) == Pulled(FoundFrom(map[], ms[1..1 + n]), [], ms[1 + n..])
            && Synthetic(calls, PulledFor(ms).found) == []
  {
    var calls, n := ms[0].calls, |ms[0].calls|;
    assert ms[1..1 + n] + ms[1 + n..] == ms[1..];
    BlockTaken(calls, ms[1..1 + n], ms[1 + n..]);
    NoneMissing(calls, FoundFrom(map[], ms[1..1 + n]));
  }

  lemma {:induction false} DeferredGrows(
    needed: set<string>, found: map<string, Message>, deferred: seq<Message>, rest: seq<Message>)
    ensures |deferred| <= |Pull(needed, found, deferred, rest).deferred|
    decreases |rest|
  {
    if !(rest == [] || |found| >= |needed| || rest[0].role == Assistant) {
      var cur := rest[0];
      if cur.role == Tool && cur.callId in needed && cur.callId !in found {
        DeferredGrows(needed, found[cur.callId := cur], deferred, rest[1..]);
      } else {
        DeferredGrows(needed, found, deferred + [cur], rest[1..]);
      }
    }
  }

  lemma FreshCons(needed: set<string>, found: map<string, Message>, cur: Message, used: seq<Message>)
    requires cur.role == Tool && cur.callId in needed && cur.callId !in found
    requires FreshAnswers(needed, found[cur.callId := cur], used)
    ensures FreshAnswers(needed, found, [cur] + used)
  {
    var all := [cur] + used;
    assert forall k :: 1 <= k < |all| ==> all[k] == used[k - 1];
  }

  // With nothing deferred, what was consumed are answers, one for each ID found.
  ghost predicate Consumed(needed: set<string>, found: map<string, Message>, used: seq<Message>, p: Pulled) {
    FreshAnswers(needed, found, used) && |p.found| == |found| + |used| && forall id :: id in p.found ==> id in needed
  }

  lemma {:induction false} CleanPull(
    needed: set<string>, found: map<string, Message>, rest: seq<Message>)
    returns (used: seq<Message>)
    requires Pull(needed, found, [], rest).deferred == [] && forall id :: id in found ==> id in needed
    ensures var p := Pull(needed, found, [], rest); rest == used + p.rest && Consumed(needed, found, used, p)
    decreases |rest|
  {
    used := [];
    if !(rest == [] || |found| >= |needed| || rest[0].role == Assistant) {
      var cur := rest[0];
      if cur.role == Tool && cur.callId in needed && cur.callId !in found {
        hide FreshAnswers;
        var more := CleanPull(needed, found[cur.callId := cur], rest[1..]);
        FreshCons(needed, found, cur, more);
        used := [cur] + more;
      } else {
        DeferredGrows(needed, found, [] + [cur], rest[1..]);
      }
    }
  }

  lemma CleanBlock(calls: seq<ToolCall>, after: seq<Message>, p: Pulled)
    requires DistinctIds(calls) && p == Pull(NeededIds(calls), map[], [], after)
    requires p.deferred == [] && forall id :: id in NeededIds(calls) ==> id in p.found
    ensures |calls| <= |after| && AnswersSomehow(calls, after[..|calls|])
  {
    var needed := NeededIds(calls);
    var used := CleanPull(needed, map[], after);
    NeededCount(calls);
    SubsetSize(needed, p.found.Keys);
    SubsetSize(p.found.Keys, needed);
  }

  lemma UnchangedBlock(ms: seq<Message>)
    requires ms != [] && HasCalls(ms[0]) && DistinctIds(ms[0].calls)
    requires PulledFor(ms).deferred == [] && Synthetic(ms[0].calls, PulledFor(ms).found) == []
    ensures |ms[0].calls| < |ms| && AnswersSomehow(ms[0].calls, ms[1..1 + |ms[0].calls|])
  {
    hide AnsweredSomehow, Pull, FoundFrom, AnswersSomehow;
    var calls, p, n := ms[0].calls, PulledFor(ms), |ms[0].calls|;
    NoneMissing(calls, p.found);
    CleanBlock(calls, ms[1..], p);
    assert ms[1..][..n] == ms[1..1 + n];
  }

  // The repair reports a change exactly when some answer block is incomplete or interrupted.
  lemma {:induction false} ChangedIff(ms: seq<Message>)
    requires AllDistinct(ms)
    ensures Repair(ms).changed <==> !AnsweredSomehow(ms)
    decreases |ms|
  {
    if ms == [] {
    } else if !HasCalls(ms[0]) {
      AllDistinctSuffix(ms, 1);
      ChangedIff(ms[1..]);
    } else {
      var n := |ms[0].calls|;
      var p := PulledForFacts(ms);
      RepairChanged(ms);
      if n < |ms| && AnswersSomehow(ms[0].calls, ms[1..1 + n]) {
        BlockComplete(ms);
        ChangedIff(p.rest);
      } else if p.deferred == [] && Synthetic(ms[0].calls, p.found) == [] {
        UnchangedBlock(ms);
      }
    }
  }

  lemma {:induction false} EmittedInOrder(calls: seq<ToolCall>, found: map<string, Message>, ts: seq<Message>)
    requires |ts| == |calls|
    requires forall k :: 0 <= k < |calls| ==> calls[k].id != "" && calls[k].id in found && found[calls[k].id] == ts[k]
    ensures Emitted(calls, found) == ts
  {
    if calls != [] {
      EmittedInOrder(calls[..|calls| - 1], found, ts[..|ts| - 1]);
    }
  }

  lemma AnsweredBlock(calls: seq<ToolCall>, ts: seq<Message>)
    requires DistinctIds(calls) && Answers(calls, ts)
    ensures AnswersSomehow(calls, ts) && Emitted(calls, FoundFrom(map[], ts)) == ts
  {
    FoundFromFacts(NeededIds(calls), map[], ts);
    EmittedInOrder(calls, FoundFrom(map[], ts), ts);
  }

  lemma {:induction false} AnsweredImpliesSomehow(ms: seq<Message>)
    requires AllDistinct(ms) && Answered(ms)
    ensures AnsweredSomehow(ms)
    decreases |ms|
  {
    if ms == [] {
    } else if !HasCalls(ms[0]) {
      AllDistinctSuffix(ms, 1);
      AnsweredImpliesSomehow(ms[1..]);
    } else {
      var n := |ms[0].calls|;
      AllDistinctSuffix(ms, 1 + n);
      AnsweredImpliesSomehow(ms[1 + n..]);
      AnsweredBlock(ms[0].calls, ms[1..1 + n]);
    }
  }

  lemma Respliced(ms: seq<Message>, n: nat)
    requires n < |ms|
    ensures [ms[0]] + ((ms[1..1 + n] + []) + ms[1 + n..]) == ms
  {
  }

  // The n messages behind the first are its answers already, in order.
  ghost predicate InPlace(ms: seq<Message>, n: nat, p: Pulled)
    requires n < |ms|
  {
    p == Pulled(p.found, [], ms[1 + n..]) && Emitted(ms[0].calls, p.found) == ms[1..1 + n]
      && Synthetic(ms[0].calls, p.found) == []
  }

  lemma {:induction false} FixedPieces(ms: seq<Message>, n: nat)
    requires n < |ms| && HasCalls(ms[0]) && Repair(ms[1 + n..]) == Outcome(ms[1 + n..], [], false)
    ensures InPlace(ms, n, PulledFor(ms)) ==> Repair(ms) == Outcome(ms, [], false)
  {
    if InPlace(ms, n, PulledFor(ms)) {
      RepairOut(ms);
      RepairMade(ms);
      RepairChanged(ms);
      Respliced(ms, n);
    }
  }

  lemma {:induction false} FixedBlock(ms: seq<Message>)
    requires ms != [] && HasCalls(ms[0]) && DistinctIds(ms[0].calls) && HeadBlock(ms)
    requires var rest := ms[1 + |ms[0].calls|..]; Repair(rest) == Outcome(rest, [], false)
    ensures Repair(ms) == Outcome(ms, [], false)
  {
    var n := |ms[0].calls|;
    AnsweredBlock(ms[0].calls, ms[1..1 + n]);
    BlockComplete(ms);
    FixedPieces(ms, n);
  }

  // Rebuilding a list whose blocks are already answered in order gives it back.
  lemma {:induction false} AnsweredIsFixed(ms: seq<Message>)
    requires AllDistinct(ms) && Answered(ms)
    ensures Repair(ms) == Outcome(ms, [], false)
    decreases |ms|
  {
    if ms == [] {
    } else if !HasCalls(ms[0]) {
      AllDistinctSuffix(ms, 1);
      AnsweredIsFixed(ms[1..]);
    } else {
      AllDistinctSuffix(ms, 1 + |ms[0].calls|);
      AnsweredIsFixed(ms[1 + |ms[0].calls|..]);
      FixedBlock(ms);
    }
  }

  // --- The repair as its callers see it ---

  function Repaired(ms: seq<Message>): seq<Message> {
    if Repair(ms).changed then Repair(ms).out else ms
  }

  // Every block of the result is answered at once, and a second repair changes nothing and
  // fills nothing.
  lemma RepairedIsAnsweredAndStable(ms: seq<Message>)
    requires AllDistinct(ms)
    ensures AnsweredSomehow(Repaired(ms))
    ensures Repaired(Repaired(ms)) == Repaired(ms) && !Repair(Repaired(ms)).changed
  {
    ChangedIff(ms);
    if Repair(ms).changed {
      RepairAnswers(ms);
      RepairKeepsDistinct(ms);
      AnsweredIsFixed(Repair(ms).out);
      AnsweredImpliesSomehow(Repair(ms).out);
    }
  }

  lemma {:induction false} RepairKeepsDistinct(ms: seq<Message>)
    requires AllDistinct(ms)
    ensures AllDistinct(Repair(ms).out)
    decreases |ms|
  {
    if ms == [] {
    } else if !HasCalls(ms[0]) {
      AllDistinctSuffix(ms, 1);
      RepairKeepsDistinct(ms[1..]);
    } else {
      var p := PulledForFacts(ms);
      RepairOut(ms);
      RepairKeepsDistinct(p.rest);
      BlockKeepsDistinct(ms[0], Emitted(ms[0].calls, p.found) + p.deferred, Repair(p.rest).out);
    }
  }

  lemma BlockKeepsDistinct(m: Message, others: seq<Message>, tail: seq<Message>)
    requires (HasCalls(m) ==> DistinctIds(m.calls)) && NoAssistant(others) && AllDistinct(tail)
    ensures AllDistinct([m] + (others + tail))
  {
  }

  // The request the loop sends: the rebuilt list only when something was filled in.
  function Request(ms: seq<Message>): seq<Message> {
    if |Repair(ms).synthetic| > 0 then Repair(ms).out else ms
  }

  lemma {:induction false} ChangedWhenFilled(ms: seq<Message>)
    ensures |Repair(ms).synthetic| > 0 ==> Repair(ms).changed
    decreases |ms|
  {
    if ms == [] {
    } else if !HasCalls(ms[0]) {
      ChangedWhenFilled(ms[1..]);
    } else {
      PullShrinks(NeededIds(ms[0].calls), map[], [], ms[1..]);
      RepairMade(ms);
      RepairChanged(ms);
      ChangedWhenFilled(PulledFor(ms).rest);
    }
  }

  // The IDs answered before the next assistant message.
  function AnsweredSoon(rest: seq<Message>): set<string> {
    if rest == [] || rest[0].role == Assistant then {} else
      AnsweredSoon(rest[1..]) + (if rest[0].role == Tool then {rest[0].callId} else {})
  }

  predicate LacksResult(calls: seq<ToolCall>, rest: seq<Message>) {
    exists k :: 0 <= k < |calls| && calls[k].id !in AnsweredSoon(rest)
  }

  // Some call has no result before the next assistant message.
  predicate SomeMissing(ms: seq<Message>) {
    ms != [] && ((HasCalls(ms[0]) && LacksResult(ms[0].calls, ms[1..])) || SomeMissing(ms[1..]))
  }

  lemma {:induction false} PullFinds(
    needed: set<string>, found: map<string, Message>, deferred: seq<Message>, rest: seq<Message>, id: string)
    requires found.Keys <= needed && id in needed
    ensures id in Pull(needed, found, deferred, rest).found <==> id in found || id in AnsweredSoon(rest)
    decreases |rest|
  {
    SubsetSize(found.Keys, needed);
    if !(rest == [] || |found| >= |needed| || rest[0].role == Assistant) {
      var cur := rest[0];
      if cur.role == Tool && cur.callId in needed && cur.callId !in found {
        PullFinds(needed, found[cur.callId := cur], deferred, rest[1..], id);
      } else {
        PullFinds(needed, found, deferred + [cur], rest[1..], id);
      }
    }
  }

  // What the scan consumes holds no call of its own.
  lemma {:induction false} PullKeepsMissing(
    needed: set<string>, found: map<string, Message>, deferred: seq<Message>, rest: seq<Message>)
    ensures SomeMissing(Pull(needed, found, deferred, rest).rest) <==> SomeMissing(rest)
    decreases |rest|
  {
    if !(rest == [] || |found| >= |needed| || rest[0].role == Assistant) {
      var cur := rest[0];
      if cur.role == Tool && cur.callId in needed && cur.callId !in found {
        PullKeepsMissing(needed, found[cur.callId := cur], deferred, rest[1..]);
      } else {
        PullKeepsMissing(needed, found, deferred + [cur], rest[1..]);
      }
    }
  }

  lemma BlockLacks(ms: seq<Message>)
    requires ms != [] && HasCalls(ms[0]) && DistinctIds(ms[0].calls)
    ensures Synthetic(ms[0].calls, PulledFor(ms).found) != [] <==> LacksResult(ms[0].calls, ms[1..])
  {
    var calls := ms[0].calls;
    NoneMissing(calls, PulledFor(ms).found);
    forall k | 0 <= k < |calls|
      ensures calls[k].id in PulledFor(ms).found <==> calls[k].id in AnsweredSoon(ms[1..])
    {
      PullFinds(NeededIds(calls), map[], [], ms[1..], calls[k].id);
    }
  }

  // The repair makes results up exactly when some call lacks one.
  lemma {:induction false} FilledIffMissing(ms: seq<Message>)
    requires AllDistinct(ms)
    ensures |Repair(ms).synthetic| > 0 <==> SomeMissing(ms)
    decreases |ms|
  {
    if ms == [] {
    } else if !HasCalls(ms[0]) {
      AllDistinctSuffix(ms, 1);
      FilledIffMissing(ms[1..]);
    } else {
      var p := PulledForFacts(ms);
      RepairMade(ms);
      FilledIffMissing(p.rest);
      BlockLacks(ms);
      PullKeepsMissing(NeededIds(ms[0].calls), map[], [], ms[1..]);
    }
  }

  // A block interrupted by another message, with all its results present, is rebuilt with
  // nothing filled in, so the loop sends it as it was. The request is answered exactly when
  // some call lacked a result altogether or nothing was out of place to begin with.
  lemma RequestAnsweredIff(ms: seq<Message>)
    requires AllDistinct(ms)
    ensures AnsweredSomehow(Request(ms)) <==> SomeMissing(ms) || AnsweredSomehow(ms)
  {
    FilledIffMissing(ms);
    if SomeMissing(ms) {
      RepairAnswers(ms);
      RepairKeepsDistinct(ms);
      AnsweredImpliesSomehow(Repair(ms).out);
    }
  }

  // A block whose answers are all present satisfies the scan before it leaves the block,
  // whatever the call IDs are: empty, repeated or distinct.
  lemma {:induction false} PullStaysInBlock(
    needed: set<string>, found: map<string, Message>, deferred: seq<Message>, ts: seq<Message>, k: nat,
    rest: seq<Message>)
    returns (j: nat)
    requires k <= |ts| && (forall i :: 0 <= i < |ts| ==> ts[i].role == Tool) && found.Keys <= needed
    requires forall id :: id in needed ==> id in found || exists i :: k <= i < |ts| && ts[i].callId == id
    ensures j <= |ts| && Pull(needed, found, deferred, ts[k..] + rest).rest == ts[j..] + rest
    ensures forall id :: id in needed ==> id in Pull(needed, found, deferred, ts[k..] + rest).found
    decreases |ts| - k
  {
    SubsetSize(found.Keys, needed);
    if |found| >= |needed| {
      j := k;
    } else if k == |ts| {
      SubsetSize(needed, found.Keys);
      j := k;
    } else {
      var cur := ts[k];
      assert (ts[k..] + rest)[1..] == ts[k + 1..] + rest;
      if cur.callId in needed && cur.callId !in found {
        j := PullStaysInBlock(needed, found[cur.callId := cur], deferred, ts, k + 1, rest);
      } else {
        j := PullStaysInBlock(needed, found, deferred + [cur], ts, k + 1, rest);
      }
    }
  }

  lemma NeededAreAnswered(calls: seq<ToolCall>, ts: seq<Message>)
    requires Answers(calls, ts)
    ensures forall id :: id in NeededIds(calls) ==> exists i :: 0 <= i < |ts| && ts[i].callId == id
  {
    forall id | id in NeededIds(calls)
      ensures exists i :: 0 <= i < |ts| && ts[i].callId == id
    {
      var k :| 0 <= k < |calls| && calls[k].id == id;
      assert ts[k].callId == id;
    }
  }

  lemma BlockNeedsNothing(ms: seq<Message>) returns (j: nat)
    requires ms != [] && HasCalls(ms[0]) && HeadBlock(ms)
    ensures var n := |ms[0].calls|;
      j <= n && PulledFor(ms).rest == ms[1..1 + n][j..] + ms[1 + n..]
        && Synthetic(ms[0].calls, PulledFor(ms).found) == []
  {
    hide WellPaired, Pull;
    var calls, n := ms[0].calls, |ms[0].calls|;
    var ts, rest, needed := ms[1..1 + n], ms[1 + n..], NeededIds(calls);
    assert ts[0..] + rest == ms[1..];
    NeededAreAnswered(calls, ts);
    j := PullStaysInBlock(needed, map[], [], ts, 0, rest);
    NoneMissing(calls, PulledFor(ms).found);
  }

  lemma {:induction false} BlockMakesNothing(ms: seq<Message>, p: Pulled)
    requires ms != [] && HasCalls(ms[0]) && p == PulledFor(ms) && |p.rest| < |ms|
    requires Synthetic(ms[0].calls, p.found) == [] && Repair(p.rest).synthetic == []
    ensures Repair(ms).synthetic == []
  {
    RepairMade(ms);
  }

  lemma {:induction false} PlainMakesNothing(ms: seq<Message>)
    requires ms != [] && !HasCalls(ms[0]) && Repair(ms[1..]).synthetic == []
    ensures Repair(ms).synthetic == []
  {
  }

  lemma {:induction false} BlockLeavesStrays(ms: seq<Message>) returns (xs: seq<Message>, ys: seq<Message>)
    requires WellPaired(ms) && ms != [] && HasCalls(ms[0])
    ensures NoAssistant(xs) && WellPaired(ys) && |xs| + |ys| < |ms|
    ensures Repair(xs + ys).synthetic == [] ==> Repair(ms).synthetic == []
  {
    var n := |ms[0].calls|;
    var j := BlockNeedsNothing(ms);
    xs, ys := ms[1..1 + n][j..], ms[1 + n..];
    if Repair(xs + ys).synthetic == [] {
      BlockMakesNothing(ms, PulledFor(ms));
    }
  }

  lemma {:induction false} NothingMissing(xs: seq<Message>, ys: seq<Message>)
    requires NoAssistant(xs) && WellPaired(ys)
    ensures Repair(xs + ys).synthetic == []
    decreases |xs| + |ys|
  {
    if xs != [] {
      assert (xs + ys)[1..] == xs[1..] + ys;
      NothingMissing(xs[1..], ys);
      PlainMakesNothing(xs + ys);
    } else if ys != [] {
      WellPairedMakesNothing(ys);
      assert xs + ys == ys;
    }
  }

  lemma {:induction false} WellPairedMakesNothing(ys: seq<Message>)
    requires WellPaired(ys) && ys != []
    ensures Repair(ys).synthetic == []
    decreases |ys|, 0
  {
    if HasCalls(ys[0]) {
      var xs, rest := BlockLeavesStrays(ys);
      NothingMissing(xs, rest);
    } else {
      NothingMissing([], ys[1..]);
      assert [] + ys[1..] == ys[1..];
      PlainMakesNothing(ys);
    }
  }

  // A well-paired conversation goes out as it is, for every choice of call IDs.
  lemma WellPairedRequest(ms: seq<Message>)
    requires WellPaired(ms)
    ensures Request(ms) == ms
  {
    assert [] + ms == ms;
    NothingMissing([], ms);
  }

  // One call, a user message slipped in, then its result.
  function Interrupted(tc: ToolCall, nudge: string, result: string): seq<Message> {
    [Message(Assistant, "", [tc], "", None), UserMessage(nudge), ToolMessage(result, tc.id)]
  }

  lemma InterruptedPull(tc: ToolCall, nudge: string, result: string)
    requires tc.id != ""
    ensures var t := ToolMessage(result, tc.id);
      PulledFor(Interrupted(tc, nudge, result)) == Pulled(map[tc.id := t], [UserMessage(nudge)], [])
  {
    var ms, u, t := Interrupted(tc, nudge, result), UserMessage(nudge), ToolMessage(result, tc.id);
    assert [tc][..0] == [] && NeededIds([tc]) == {tc.id};
    assert ms[1..] == [u, t] && [u, t][1..] == [t] && [t][1..] == [];
    var needed := {tc.id};
    assert |needed| == 1 && [] + [u] == [u];
    assert Pull(needed, map[], [], [u, t]) == Pull(needed, map[], [u], [t]);
    assert Pull(needed, map[], [u], [t]) == Pull(needed, map[tc.id := t], [u], []);
  }

  // The rebuild would cure it but fills nothing in, so the request goes out broken.
  lemma {:induction false} InterruptedBlockIsSentBroken(tc: ToolCall, nudge: string, result: string)
    requires tc.id != ""
    ensures var ms := Interrupted(tc, nudge, result);
      AllDistinct(ms) && Answered(Repair(ms).out) && Request(ms) == ms && !AnsweredSomehow(ms)
  {
    hide Pull, NeededIds, Emitted, PulledFor;
    var ms := Interrupted(tc, nudge, result);
    InterruptedPull(tc, nudge, result);
    assert [tc][..0] == [];
    assert Synthetic([tc], PulledFor(ms).found) == [];
    RepairMade(ms);
    RepairAnswers(ms);
    assert ms[1..2][0] == UserMessage(nudge);
  }
}
