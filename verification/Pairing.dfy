// Repair of broken call/result pairing before a request leaves the process
// (internal/agent/runner.go, ensureToolCallPairing).
module Pairing {
  import opened Messages

  // What pulling results forward for one assistant message leaves behind.
  datatype Pulled = Pulled(found: map<string, Message>, deferred: seq<Message>, rest: seq<Message>)

  function NeededIds(calls: seq<ToolCall>): (ids: set<string>)
    ensures forall k :: 0 <= k < |calls| && calls[k].id != "" ==> calls[k].id in ids
    ensures forall id :: id in ids ==> id != "" && exists k :: 0 <= k < |calls| && calls[k].id == id
  {
    if calls == [] then {} else
      var id := calls[|calls| - 1].id;
      NeededIds(calls[..|calls| - 1]) + (if id == "" then {} else {id})
  }

  // Scan on, collecting the first result for each needed ID and deferring everything else,
  // until all are found or the next assistant message starts.
  function Pull(needed: set<string>, found: map<string, Message>, deferred: seq<Message>, rest: seq<Message>): Pulled
    decreases |rest|
  {
    if rest == [] || |found| >= |needed| || rest[0].role == Assistant then Pulled(found, deferred, rest)
    else
      var cur := rest[0];
      if cur.role == Tool && cur.callId in needed && cur.callId !in found
      then Pull(needed, found[cur.callId := cur], deferred, rest[1..])
      else Pull(needed, found, deferred + [cur], rest[1..])
  }

  function MissingResult(tc: ToolCall): Message {
    var name := if tc.name == "" then "unknown" else tc.name;
    ToolMessage("Error: missing tool result for '" + name + "' (auto-repaired)", tc.id)
  }

  // The answer block, in call order.
  function Emitted(calls: seq<ToolCall>, found: map<string, Message>): seq<Message> {
    if calls == [] then [] else
      var tc := calls[|calls| - 1];
      Emitted(calls[..|calls| - 1], found)
      + (if tc.id == "" then [] else if tc.id in found then [found[tc.id]] else [MissingResult(tc)])
  }

  // The results that had to be made up.
  function Synthetic(calls: seq<ToolCall>, found: map<string, Message>): seq<Message> {
    if calls == [] then [] else
      var tc := calls[|calls| - 1];
      Synthetic(calls[..|calls| - 1], found)
      + (if tc.id == "" || tc.id in found then [] else [MissingResult(tc)])
  }

  function PulledFor(ms: seq<Message>): Pulled
    requires ms != []
  {
    Pull(NeededIds(ms[0].calls), map[], [], ms[1..])
  }

  lemma {:induction false} PullShrinks(
    needed: set<string>, found: map<string, Message>, deferred: seq<Message>, rest: seq<Message>)
    ensures |Pull(needed, found, deferred, rest).rest| <= |rest|
    decreases |rest|
  {
    if !(rest == [] || |found| >= |needed| || rest[0].role == Assistant) {
      var cur := rest[0];
      if cur.role == Tool && cur.callId in needed && cur.callId !in found {
        PullShrinks(needed, found[cur.callId := cur], deferred, rest[1..]);
      } else {
        PullShrinks(needed, found, deferred + [cur], rest[1..]);
      }
    }
  }

  datatype Outcome = Outcome(out: seq<Message>, synthetic: seq<Message>, changed: bool)

  // One assistant message, its repaired block, and the repaired remainder.
  function Repair(ms: seq<Message>): Outcome
    decreases |ms|
  {
    if ms == [] then Outcome([], [], false)
    else if !HasCalls(ms[0]) then
      var tail := Repair(ms[1..]);
      Outcome([ms[0]] + tail.out, tail.synthetic, tail.changed)
    else
      var p := PulledFor(ms);
      PullShrinks(NeededIds(ms[0].calls), map[], [], ms[1..]);
      var tail := Repair(p.rest);
      var extra := Synthetic(ms[0].calls, p.found);
      Outcome([ms[0]] + Emitted(ms[0].calls, p.found) + p.deferred + tail.out,
              extra + tail.synthetic, p.deferred != [] || extra != [] || tail.changed)
  }

  // --- The source's loops ---

  method PullForward(
    needed: set<string>, msgs: seq<Message>, start: nat)
    returns (found: map<string, Message>, deferred: seq<Message>, i: nat)
    requires start <= |msgs|
    ensures start <= i <= |msgs|
    ensures Pulled(found, deferred, msgs[i..]) == Pull(needed, map[], [], msgs[start..])
  {
    found, deferred, i := map[], [], start;
    while i < |msgs| && |found| < |needed|
      invariant start <= i <= |msgs|
      invariant Pull(needed, found, deferred, msgs[i..]) == Pull(needed, map[], [], msgs[start..])
    {
      var cur := msgs[i];
      if cur.role == Assistant {
        break;
      }
      assert msgs[i..][1..] == msgs[i + 1..];
      i := i + 1;
      if cur.role == Tool {
        if cur.callId in needed {
          if cur.callId !in found {
            found := found[cur.callId := cur];
            continue;
          }
        }
      }
      deferred := deferred + [cur];
    }
  }

  method EmitBlock(calls: seq<ToolCall>, found: map<string, Message>) returns (block: seq<Message>, filled: nat)
    ensures block == Emitted(calls, found)
    ensures filled == |Synthetic(calls, found)|
  {
    block, filled := [], 0;
    for k := 0 to |calls|
      invariant block == Emitted(calls[..k], found)
      invariant filled == |Synthetic(calls[..k], found)|
    {
      assert calls[..k + 1][..k] == calls[..k];
      var tc := calls[k];
      if tc.id == "" {
        continue;
      }
      if tc.id in found {
        block := block + [found[tc.id]];
        continue;
      }
      block := block + [MissingResult(tc)];
      filled := filled + 1;
    }
    assert calls[..|calls|] == calls;
  }

  // The rebuilt list so far, the made-up results and the change flag, with position i next.
  ghost predicate Progress(msgs: seq<Message>, i: nat, out: seq<Message>, filled: nat, changed: bool)
    requires i <= |msgs|
  {
    var r, todo := Repair(msgs), Repair(msgs[i..]);
    out + todo.out == r.out && filled + |todo.synthetic| == |r.synthetic| && (changed || todo.changed <==> r.changed)
  }

  lemma PlainStep(msgs: seq<Message>, i: nat, out: seq<Message>, filled: nat, changed: bool)
    requires i < |msgs| && !HasCalls(msgs[i]) && Progress(msgs, i, out, filled, changed)
    ensures Progress(msgs, i + 1, out + [msgs[i]], filled, changed)
  {
    assert msgs[i..][1..] == msgs[i + 1..];
    assert out + ([msgs[i]] + Repair(msgs[i + 1..]).out) == (out + [msgs[i]]) + Repair(msgs[i + 1..]).out;
  }

  lemma BlockStep(msgs: seq<Message>, i: nat, out: seq<Message>, filled: nat, changed: bool, p: Pulled, i': nat)
    requires i < i' <= |msgs| && HasCalls(msgs[i]) && Progress(msgs, i, out, filled, changed)
    requires p == PulledFor(msgs[i..]) && p.rest == msgs[i'..]
    ensures Progress(msgs, i', out + [msgs[i]] + Emitted(msgs[i].calls, p.found) + p.deferred,
                     filled + |Synthetic(msgs[i].calls, p.found)|,
                     changed || p.deferred != [] || Synthetic(msgs[i].calls, p.found) != [])
  {
    var m, block, tail := msgs[i], Emitted(msgs[i].calls, p.found), Repair(p.rest);
    assert Repair(msgs[i..]) == Outcome([m] + block + p.deferred + tail.out,
                                        Synthetic(m.calls, p.found) + tail.synthetic,
                                        p.deferred != [] || Synthetic(m.calls, p.found) != [] || tail.changed);
    Reassociate(out, m, block, p.deferred, tail.out);
  }

  lemma Reassociate(out: seq<Message>, m: Message, block: seq<Message>, deferred: seq<Message>, tail: seq<Message>)
    ensures out + ([m] + block + deferred + tail) == (out + [m] + block + deferred) + tail
  {
  }

  // The rebuilt list is dropped again when nothing but the order inside answer blocks moved.
  method EnsureToolCallPairing(msgs: seq<Message>) returns (res: seq<Message>, filled: nat)
    ensures var r := Repair(msgs);
            if r.changed then res == r.out && filled == |r.synthetic| else res == msgs && filled == 0
  {
    if msgs == [] {
      return msgs, 0;
    }
    var out: seq<Message> := [];
    filled := 0;
    var changed := false;
    var i := 0;
    assert msgs[0..] == msgs;
    while i < |msgs|
      invariant 0 <= i <= |msgs|
      invariant Progress(msgs, i, out, filled, changed)
    {
      ghost var start := i;
      var m := msgs[i];
      i := i + 1;
      if !HasCalls(m) {
        PlainStep(msgs, start, out, filled, changed);
        out := out + [m];
        continue;
      }
      var needed := NeededIds(m.calls);
      var found, deferred;
      found, deferred, i := PullForward(needed, msgs, i);
      var block, made := EmitBlock(m.calls, found);
      assert msgs[start..][1..] == msgs[start + 1..];
      BlockStep(msgs, start, out, filled, changed, Pulled(found, deferred, msgs[i..]), i);
      out := out + [m] + block + deferred;
      filled := filled + made;
      changed := changed || deferred != [] || made > 0;
    }
    if !changed {
      return msgs, 0;
    }
    res := out;
  }
}
