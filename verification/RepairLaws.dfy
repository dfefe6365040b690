// Which message the pairing repair puts behind which call (internal/agent/runner.go).
module RepairLaws {
  import opened Options
  import opened Messages
  import opened Pairing
  import opened PairingFacts
  import opened Ids

  // The first result for an ID before the next assistant message.
  function FirstAnswer(rest: seq<Message>, id: string): Option<Message> {
    if rest == [] || rest[0].role == Assistant then None
    else if rest[0].role == Tool && rest[0].callId == id then Some(rest[0])
    else FirstAnswer(rest[1..], id)
  }

  // A call is answered by its first result, or told that there is none.
  function AnswerTo(tc: ToolCall, rest: seq<Message>): Message {
    match FirstAnswer(rest, tc.id)
    case Some(m) => m
    case None =>
      var name := if tc.name == "" then "unknown" else tc.name;
      Message(Tool, "Error: missing tool result for '" + name + "' (auto-repaired)", [], tc.id, None)
  }

  function AnswersTo(calls: seq<ToolCall>, rest: seq<Message>): (r: seq<Message>)
    ensures |r| == |calls| && forall k :: 0 <= k < |calls| ==> r[k] == AnswerTo(calls[k], rest)
  {
    seq(|calls|, k requires 0 <= k < |calls| => AnswerTo(calls[k], rest))
  }

  lemma {:induction false} PullFindsFirst(
    needed: set<string>, found: map<string, Message>, deferred: seq<Message>, rest: seq<Message>, id: string)
    requires found.Keys <= needed && id in needed
    ensures var p, first := Pull(needed, found, deferred, rest).found, FirstAnswer(rest, id);
      if id in found then id in p && p[id] == found[id]
      else (id in p <==> first.Some?) && (id in p ==> p[id] == first.value)
    decreases |rest|
  {
    SubsetSize(found.Keys, needed);
    if !(rest == [] || |found| >= |needed| || rest[0].role == Assistant) {
      var cur := rest[0];
      if cur.role == Tool && cur.callId in needed && cur.callId !in found {
        PullFindsFirst(needed, found[cur.callId := cur], deferred, rest[1..], id);
      } else {
        PullFindsFirst(needed, found, deferred + [cur], rest[1..], id);
      }
    }
  }

  lemma {:induction false} EmittedAre(calls: seq<ToolCall>, found: map<string, Message>, rest: seq<Message>)
    requires forall k :: 0 <= k < |calls| ==> calls[k].id != ""
    requires forall k :: 0 <= k < |calls| ==>
      var id, first := calls[k].id, FirstAnswer(rest, calls[k].id);
      (id in found <==> first.Some?) && (id in found ==> found[id] == first.value)
    ensures Emitted(calls, found) == AnswersTo(calls, rest)
  {
    if calls != [] {
      EmittedAre(calls[..|calls| - 1], found, rest);
    }
  }

  lemma {:induction false} BlockEmits(m: Message, rest: seq<Message>)
    requires forall k :: 0 <= k < |m.calls| ==> m.calls[k].id != ""
    ensures Emitted(m.calls, PulledFor([m] + rest).found) == AnswersTo(m.calls, rest)
  {
    var needed := NeededIds(m.calls);
    assert ([m] + rest)[1..] == rest;
    forall k | 0 <= k < |m.calls|
      ensures var p, first := PulledFor([m] + rest).found, FirstAnswer(rest, m.calls[k].id);
        && (m.calls[k].id in p <==> first.Some?) && (m.calls[k].id in p ==> p[m.calls[k].id] == first.value)
    {
      PullFindsFirst(needed, map[], [], rest, m.calls[k].id);
    }
    EmittedAre(m.calls, PulledFor([m] + rest).found, rest);
  }

  // --- Behind an assistant message the repair starts afresh ---

  lemma {:induction false} PullStopsAtAssistant(
    needed: set<string>, found: map<string, Message>, deferred: seq<Message>, rest: seq<Message>, ys: seq<Message>)
    requires ys != [] && ys[0].role == Assistant
    ensures var p := Pull(needed, found, deferred, rest);
      Pull(needed, found, deferred, rest + ys) == Pulled(p.found, p.deferred, p.rest + ys)
    decreases |rest|
  {
    if rest == [] {
      assert rest + ys == ys;
    } else if |found| < |needed| && rest[0].role != Assistant {
      var cur := rest[0];
      assert (rest + ys)[1..] == rest[1..] + ys;
      if cur.role == Tool && cur.callId in needed && cur.callId !in found {
        PullStopsAtAssistant(needed, found[cur.callId := cur], deferred, rest[1..], ys);
      } else {
        PullStopsAtAssistant(needed, found, deferred + [cur], rest[1..], ys);
      }
    }
  }

  lemma {:induction false} RepairStartsAfresh(xs: seq<Message>, ys: seq<Message>)
    requires ys != [] && ys[0].role == Assistant
    ensures Repair(xs + ys).out == Repair(xs).out + Repair(ys).out
    decreases |xs|
  {
    if xs == [] {
      assert xs + ys == ys;
    } else {
      assert (xs + ys)[1..] == xs[1..] + ys && (xs + ys)[0] == xs[0];
      if !HasCalls(xs[0]) {
        RepairStartsAfresh(xs[1..], ys);
      } else {
        var p := PulledFor(xs);
        PullStopsAtAssistant(NeededIds(xs[0].calls), map[], [], xs[1..], ys);
        PullShrinks(NeededIds(xs[0].calls), map[], [], xs[1..]);
        RepairStartsAfresh(p.rest, ys);
        RepairOut(xs);
        RepairOut(xs + ys);
        Rejoined([xs[0]] + Emitted(xs[0].calls, p.found), p.deferred, Repair(p.rest).out, Repair(ys).out);
      }
    }
  }

  lemma Rejoined(a: seq<Message>, b: seq<Message>, c: seq<Message>, d: seq<Message>)
    ensures a + b + (c + d) == a + b + c + d
    ensures a + (b + (c + d)) == a + (b + c) + d
  {
  }

  // In the rebuilt list every assistant message with calls is followed at once by the answer to each
  // call, in call order: its first result before the next assistant message, or an error naming the
  // tool.
  lemma {:induction false} EveryCallGetsItsAnswer(ms: seq<Message>, i: nat) returns (more: seq<Message>)
    requires i < |ms| && HasCalls(ms[i]) && forall k :: 0 <= k < |ms[i].calls| ==> ms[i].calls[k].id != ""
    ensures Repair(ms).out == Repair(ms[..i]).out + [ms[i]] + AnswersTo(ms[i].calls, ms[i + 1..]) + more
  {
    hide Repair, Emitted, AnswersTo, PulledFor;
    var m, rest := ms[i], ms[i + 1..];
    Cut(ms, i);
    RepairStartsAfresh(ms[..i], [m] + rest);
    BlockEmits(m, rest);
    var p := PulledFor([m] + rest);
    RepairOut([m] + rest);
    more := p.deferred + Repair(p.rest).out;
    Flattened(Repair(ms[..i]).out, m, AnswersTo(m.calls, rest), p.deferred, Repair(p.rest).out);
  }

  lemma Cut(ms: seq<Message>, i: nat)
    requires i < |ms|
    ensures ms[..i] + ([ms[i]] + ms[i + 1..]) == ms
    ensures ([ms[i]] + ms[i + 1..])[0] == ms[i]
  {
  }

  lemma Flattened(a: seq<Message>, m: Message, b: seq<Message>, c: seq<Message>, d: seq<Message>)
    ensures a + ([m] + ((b + c) + d)) == a + [m] + b + (c + d)
  {
  }
}
