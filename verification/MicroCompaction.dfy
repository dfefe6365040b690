// In-place clearing of old tool results (internal/agent/compression.go, MicroCompact).
//
// Contents are byte strings, one character per byte.
module MicroCompaction {
  import opened Options
  import opened Messages

  const KEEP_RECENT := 15

  function TaskStateKey(name: string): string {
    if name == "TodoWrite" then "todo"
    else if name == "task_list" || name == "task_dag" then "overview"
    else if name in ["task_create", "task_update", "task_get", "task_ready", "claim_task", "task_add_dep",
      "task_remove_dep"]
    then "mutation"
    else ""
  }

  function NamesOf(calls: seq<ToolCall>, names: map<string, string>): map<string, string> {
    if calls == [] then names else
      var tc := calls[|calls| - 1];
      NamesOf(calls[..|calls| - 1], names)[tc.id := tc.name]
  }

  // Tool names by call ID; a reused ID names the latest call.
  function NameMap(ms: seq<Message>): map<string, string> {
    if ms == [] then map[] else
      var m, names := ms[|ms| - 1], NameMap(ms[..|ms| - 1]);
      if m.role == Assistant then NamesOf(m.calls, names) else names
  }

  function ToolIndices(ms: seq<Message>): (r: seq<int>)
    ensures forall p :: 0 <= p < |r| ==> 0 <= r[p] < |ms| && ms[r[p]].role == Tool
    ensures forall p, q :: 0 <= p < q < |r| ==> r[p] < r[q]
  {
    if ms == [] then [] else
      var n := |ms| - 1;
      ToolIndices(ms[..n]) + (if ms[n].role == Tool then [n] else [])
  }

  lemma {:induction false} ToolIndicesComplete(ms: seq<Message>, i: nat)
    requires i < |ms| && ms[i].role == Tool
    ensures i in ToolIndices(ms)
  {
    if i < |ms| - 1 {
      ToolIndicesComplete(ms[..|ms| - 1], i);
    }
  }

  // The conversation, its tool results and their names.
  datatype View = View(ms: seq<Message>, tools: seq<int>, names: map<string, string>)

  function ViewOf(ms: seq<Message>): View {
    View(ms, ToolIndices(ms), NameMap(ms))
  }

  ghost predicate Consistent(v: View) {
    (forall p :: 0 <= p < |v.tools| ==> 0 <= v.tools[p] < |v.ms| && v.ms[v.tools[p]].role == Tool)
    && forall p, q :: 0 <= p < q < |v.tools| ==> v.tools[p] < v.tools[q]
  }

  function Content(v: View, p: nat): string
    requires Consistent(v) && p < |v.tools|
  {
    v.ms[v.tools[p]].content
  }

  function CallName(v: View, p: nat): string
    requires Consistent(v) && p < |v.tools|
  {
    var id := v.ms[v.tools[p]].callId;
    if id in v.names then v.names[id] else ""
  }

  function ShownName(v: View, p: nat): string
    requires Consistent(v) && p < |v.tools|
  {
    if CallName(v, p) == "" then "unknown" else CallName(v, p)
  }

  function Placeholder(name: string): string {
    "[cleared: " + name + "]"
  }

  // What the placeholder text takes besides the name.
  const PLACEHOLDER_OVERHEAD := 11

  lemma PlaceholderLength(name: string)
    ensures |Placeholder(name)| == PLACEHOLDER_OVERHEAD + |name|
  {
  }

  function Gain(v: View, p: nat): int
    requires Consistent(v) && p < |v.tools|
  {
    |Content(v, p)| - PLACEHOLDER_OVERHEAD - |ShownName(v, p)|
  }

  // The latest result of its task-state category.
  ghost predicate NewestOfKind(v: View, p: nat)
    requires Consistent(v) && p < |v.tools|
  {
    TaskStateKey(CallName(v, p)) != ""
    && forall q :: p < q < |v.tools| ==> TaskStateKey(CallName(v, q)) != TaskStateKey(CallName(v, p))
  }

  // Old, not protected, long, and worth clearing.
  ghost predicate Clearable(v: View, p: nat)
    requires Consistent(v)
  {
    p < |v.tools| - KEEP_RECENT && !NewestOfKind(v, p) && |Content(v, p)| > 100 && Gain(v, p) > 0
  }

  ghost function Reclaimable(v: View, upto: nat): nat
    requires Consistent(v)
  {
    if upto == 0 then 0 else Reclaimable(v, upto - 1) + (if Clearable(v, upto - 1) then Gain(v, upto - 1) else 0)
  }

  ghost function Cleared(v: View, upto: nat): nat
    requires Consistent(v)
  {
    if upto == 0 then 0 else Cleared(v, upto - 1) + (if Clearable(v, upto - 1) then 1 else 0)
  }

  // The conversation with the clearable results among the first `upto` replaced.
  ghost function Rewritten(v: View, upto: nat): (r: seq<Message>)
    requires Consistent(v)
    ensures |r| == |v.ms|
  {
    if upto == 0 then v.ms else
      var r := Rewritten(v, upto - 1);
      if Clearable(v, upto - 1)
      then r[v.tools[upto - 1] := ToolMessage(Placeholder(ShownName(v, upto - 1)), v.ms[v.tools[upto - 1]].callId)]
      else r
  }

  ghost predicate WorthIt(v: View, minClearBytes: int)
    requires Consistent(v)
  {
    minClearBytes <= 0 || Reclaimable(v, |v.tools|) >= minClearBytes
  }

  // --- The passes ---

  method BuildNameMap(ms: seq<Message>) returns (names: map<string, string>)
    ensures names == NameMap(ms)
  {
    names := map[];
    for i := 0 to |ms|
      invariant names == NameMap(ms[..i])
    {
      assert ms[..i + 1][..i] == ms[..i];
      var m := ms[i];
      if m.role == Assistant {
        ghost var before := names;
        for k := 0 to |m.calls|
          invariant names == NamesOf(m.calls[..k], before)
        {
          assert m.calls[..k + 1][..k] == m.calls[..k];
          names := names[m.calls[k].id := m.calls[k].name];
        }
        assert m.calls[..|m.calls|] == m.calls;
      }
    }
    assert ms[..|ms|] == ms;
  }

  method FindTools(ms: seq<Message>) returns (tools: seq<int>)
    ensures tools == ToolIndices(ms)
  {
    tools := [];
    for i := 0 to |ms|
      invariant tools == ToolIndices(ms[..i])
    {
      assert ms[..i + 1][..i] == ms[..i];
      if ms[i].role == Tool {
        tools := tools + [i];
      }
    }
    assert ms[..|ms|] == ms;
  }

  // Non-empty, and the last of its kind in the list.
  ghost predicate LastOfKind(keys: seq<string>, p: nat)
    requires p < |keys|
  {
    keys[p] != "" && forall q :: p < q < |keys| ==> keys[q] != keys[p]
  }

  method ProtectionKeys(v: View) returns (keys: seq<string>)
    requires Consistent(v)
    ensures |keys| == |v.tools| && forall p :: 0 <= p < |keys| ==> keys[p] == TaskStateKey(CallName(v, p))
  {
    keys := seq(|v.tools|, p requires 0 <= p < |v.tools| => TaskStateKey(CallName(v, p)));
  }

  method MarkLast(keys: seq<string>) returns (marked: seq<bool>)
    ensures |marked| == |keys| && forall p :: 0 <= p < |keys| ==> (marked[p] <==> LastOfKind(keys, p))
  {
    marked := [];
    var seen: set<string> := {};
    for i := |keys| downto 0
      invariant |marked| == |keys| - i
      invariant forall k :: k in seen <==> k != "" && exists q :: i <= q < |keys| && keys[q] == k
      invariant forall p :: i <= p < |keys| ==> (marked[p - i] <==> LastOfKind(keys, p))
    {
      var newest := keys[i] != "" && keys[i] !in seen;
      if newest {
        seen := seen + {keys[i]};
      }
      marked := [newest] + marked;
    }
  }

  // Positions (in the list of tool results) protected as newest of their kind.
  method ProtectNewest(v: View) returns (protected: seq<bool>)
    requires Consistent(v)
    ensures |protected| == |v.tools| && forall p :: 0 <= p < |v.tools| ==> (protected[p] <==> NewestOfKind(v, p))
  {
    var keys := ProtectionKeys(v);
    protected := MarkLast(keys);
    forall p | 0 <= p < |keys|
      ensures LastOfKind(keys, p) <==> NewestOfKind(v, p)
    {
      SameKeysSameNewest(v, keys, p);
    }
  }

  lemma SameKeysSameNewest(v: View, keys: seq<string>, p: nat)
    requires Consistent(v) && p < |keys| == |v.tools| && forall q :: 0 <= q < |keys| ==>
      keys[q] == TaskStateKey(CallName(v, q))
    ensures LastOfKind(keys, p) <==> NewestOfKind(v, p)
  {
    if LastOfKind(keys, p) {
      forall q | p < q < |v.tools|
        ensures TaskStateKey(CallName(v, q)) != TaskStateKey(CallName(v, p))
      {
        assert keys[q] != keys[p];
      }
    }
  }

  // Indices and names of the results to clear, and the bytes that would free.
  method FindTargets(v: View, protected: seq<bool>) returns (targets: seq<(int, string)>, reclaimable: nat)
    requires Consistent(v) && KEEP_RECENT < |v.tools|
    requires |protected| == |v.tools| && forall p :: 0 <= p < |v.tools| ==> (protected[p] <==> NewestOfKind(v, p))
    ensures targets == Targets(v, |v.tools| - KEEP_RECENT) && reclaimable == Reclaimable(v, |v.tools| - KEEP_RECENT)
  {
    hide Clearable, NewestOfKind, ShownName, Gain;
    targets, reclaimable := [], 0;
    for p := 0 to |v.tools| - KEEP_RECENT
      invariant targets == Targets(v, p) && reclaimable == Reclaimable(v, p)
    {
      var worth, name, gain := WorthClearing(v, p, protected[p]);
      if !worth {
        continue;
      }
      targets := targets + [(v.tools[p], name)];
      reclaimable := reclaimable + gain;
    }
  }

  method WorthClearing(v: View, p: nat, protected: bool) returns (worth: bool, name: string, gain: int)
    requires Consistent(v) && p < |v.tools| - KEEP_RECENT && (protected <==> NewestOfKind(v, p))
    ensures worth <==> Clearable(v, p)
    ensures worth ==> name == ShownName(v, p) && gain == Gain(v, p) && 0 < gain
  {
    name, gain := "", 0;
    if protected {
      return false, name, gain;
    }
    if |Content(v, p)| <= 100 {
      return false, name, gain;
    }
    name := ShownName(v, p);
    gain := |Content(v, p)| - PLACEHOLDER_OVERHEAD - |name|;
    worth := gain > 0;
  }

  ghost function Targets(v: View, upto: nat): seq<(int, string)>
    requires Consistent(v)
  {
    if upto == 0 then [] else
      Targets(v, upto - 1) + (if Clearable(v, upto - 1) then [(v.tools[upto - 1], ShownName(v, upto - 1))] else [])
  }

  // Writing the placeholders one by one.
  ghost function Applied(ms: seq<Message>, targets: seq<(int, string)>): (r: seq<Message>)
    requires forall t :: t in targets ==> 0 <= t.0 < |ms|
    ensures |r| == |ms|
  {
    if targets == [] then ms else
      var t := targets[|targets| - 1];
      Applied(ms, targets[..|targets| - 1])[t.0 := ToolMessage(Placeholder(t.1), ms[t.0].callId)]
  }

  lemma {:induction false} TargetsFacts(v: View, upto: nat)
    requires Consistent(v) && upto <= |v.tools|
    ensures forall t :: t in Targets(v, upto) ==> 0 <= t.0 < |v.ms|
    ensures Applied(v.ms, Targets(v, upto)) == Rewritten(v, upto)
    ensures |Targets(v, upto)| == Cleared(v, upto)
  {
    hide Clearable, ShownName, Placeholder;
    if upto > 0 {
      TargetsFacts(v, upto - 1);
      var before := Targets(v, upto - 1);
      if Clearable(v, upto - 1) {
        var t := (v.tools[upto - 1], ShownName(v, upto - 1));
        AppliedSnoc(v.ms, before, t);
      } else {
        assert before + [] == before;
      }
    }
  }

  lemma {:induction false} AppliedSnoc(ms: seq<Message>, targets: seq<(int, string)>, t: (int, string))
    requires (forall u :: u in targets ==> 0 <= u.0 < |ms|) && 0 <= t.0 < |ms|
    ensures forall u :: u in targets + [t] ==> 0 <= u.0 < |ms|
    ensures Applied(ms, targets + [t]) == Applied(ms, targets)[t.0 := ToolMessage(Placeholder(t.1), ms[t.0].callId)]
  {
    assert (targets + [t])[..|targets|] == targets && (targets + [t])[|targets|] == t;
  }

  lemma {:induction false} NothingBeyond(v: View, upto: nat)
    requires Consistent(v) && |v.tools| - KEEP_RECENT <= upto <= |v.tools|
    ensures var base := if |v.tools| < KEEP_RECENT then 0 else |v.tools| - KEEP_RECENT;
            && Rewritten(v, upto) == Rewritten(v, base) && Reclaimable(v, upto) == Reclaimable(v, base)
            && Cleared(v, upto) == Cleared(v, base)
  {
    if upto > 0 && upto > |v.tools| - KEEP_RECENT {
      NothingBeyond(v, upto - 1);
    }
  }

  // Same-length in-place rewrite: indices stay valid.
  method ApplyTargets(msgs: array<Message>, targets: seq<(int, string)>)
    requires forall t :: t in targets ==> 0 <= t.0 < msgs.Length
    modifies msgs
    ensures msgs[..] == Applied(old(msgs[..]), targets)
  {
    ghost var ms := msgs[..];
    assert targets[..0] == [];
    for k := 0 to |targets|
      invariant forall t :: t in targets[..k] ==> 0 <= t.0 < |ms|
      invariant msgs[..] == Applied(ms, targets[..k])
      invariant forall i :: 0 <= i < |ms| ==> msgs[i].callId == ms[i].callId
    {
      var t := targets[k];
      assert t in targets;
      AppliedSnoc(ms, targets[..k], t);
      assert targets[..k + 1] == targets[..k] + [t];
      msgs[t.0] := ToolMessage(Placeholder(t.1), msgs[t.0].callId);
    }
    assert targets[..|targets|] == targets;
  }

  // All or nothing: either every clearable result is replaced, or the guard leaves all as it was.
  ghost predicate Outcome(v: View, minClearBytes: int, after: seq<Message>, cleared: nat, reclaimed: nat)
    requires Consistent(v)
  {
    if WorthIt(v, minClearBytes)
    then after == Rewritten(v, |v.tools|) && reclaimed == Reclaimable(v, |v.tools|) && cleared == Cleared(v, |v.tools|)
    else after == v.ms && reclaimed == 0 && cleared == 0
  }

  lemma FewToolsOutcome(v: View, minClearBytes: int)
    requires Consistent(v) && |v.tools| <= KEEP_RECENT
    ensures Outcome(v, minClearBytes, v.ms, 0, 0)
  {
    NothingBeyond(v, |v.tools|);
  }

  lemma ManyToolsOutcome(v: View, minClearBytes: int, targets: seq<(int, string)>, base: nat)
    requires Consistent(v) && base == |v.tools| - KEEP_RECENT && targets == Targets(v, base)
    ensures forall t :: t in targets ==> 0 <= t.0 < |v.ms|
    ensures WorthIt(v, minClearBytes) <==> !(minClearBytes > 0 && Reclaimable(v, base) < minClearBytes)
    ensures WorthIt(v, minClearBytes) ==>
      Outcome(v, minClearBytes, Applied(v.ms, targets), |targets|, Reclaimable(v, base))
  {
    hide Clearable, Targets, Applied, Reclaimable, Cleared, Rewritten, Consistent;
    NothingBeyond(v, |v.tools|);
    TargetsFacts(v, base);
  }

  // Which results to clear, none of them when too few could be or too little would be saved.
  method PlanClearing(v: View, minClearBytes: int) returns (targets: seq<(int, string)>, reclaimed: nat)
    requires Consistent(v)
    ensures forall t :: t in targets ==> 0 <= t.0 < |v.ms|
    ensures Outcome(v, minClearBytes, Applied(v.ms, targets), |targets|, reclaimed)
  {
    hide Clearable, Targets, Rewritten, Reclaimable, Cleared, NewestOfKind, WorthIt;
    if |v.tools| <= KEEP_RECENT {
      FewToolsOutcome(v, minClearBytes);
      return [], 0;
    }
    var protected := ProtectNewest(v);
    targets, reclaimed := FindTargets(v, protected);
    ManyToolsOutcome(v, minClearBytes, targets, |v.tools| - KEEP_RECENT);
    if minClearBytes > 0 && reclaimed < minClearBytes {
      return [], 0;
    }
  }

  method MicroCompact(msgs: array<Message>, minClearBytes: int) returns (cleared: nat, reclaimed: nat)
    modifies msgs
    ensures Outcome(ViewOf(old(msgs[..])), minClearBytes, msgs[..], cleared, reclaimed)
  {
    var ms := msgs[..];
    var names := BuildNameMap(ms);
    var tools := FindTools(ms);
    var targets;
    targets, reclaimed := PlanClearing(View(ms, tools, names), minClearBytes);
    ApplyTargets(msgs, targets);
    cleared := |targets|;
  }

  // --- What clearing keeps and saves ---

  function TotalLength(ms: seq<Message>): nat {
    if ms == [] then 0 else TotalLength(ms[..|ms| - 1]) + |ms[|ms| - 1].content|
  }

  lemma {:induction false} TotalAfterUpdate(ms: seq<Message>, i: nat, m: Message)
    requires i < |ms|
    ensures TotalLength(ms[i := m]) == TotalLength(ms) - |ms[i].content| + |m.content|
    decreases |ms|
  {
    var n := |ms| - 1;
    if i == n {
      assert ms[i := m][..n] == ms[..n];
    } else {
      assert ms[i := m][..n] == ms[..n][i := m];
      TotalAfterUpdate(ms[..n], i, m);
    }
  }

  // Position by position: a clearable result becomes its placeholder, everything else stays.
  lemma {:induction false} RewrittenElsewhere(v: View, upto: nat, i: nat)
    requires Consistent(v) && upto <= |v.tools| && i < |v.ms|
    requires forall p :: 0 <= p < upto && Clearable(v, p) ==> v.tools[p] != i
    ensures Rewritten(v, upto)[i] == v.ms[i]
  {
    if upto > 0 {
      RewrittenElsewhere(v, upto - 1, i);
    }
  }

  lemma {:induction false} RewrittenAt(v: View, upto: nat, p: nat)
    requires Consistent(v) && p < upto <= |v.tools|
    ensures Rewritten(v, upto)[v.tools[p]] ==
      if Clearable(v, p) then ToolMessage(Placeholder(ShownName(v, p)), v.ms[v.tools[p]].callId) else v.ms[v.tools[p]]
  {
    hide Clearable, ShownName, Placeholder;
    if p == upto - 1 {
      RewrittenElsewhere(v, p, v.tools[p]);
    } else {
      RewrittenAt(v, upto - 1, p);
    }
  }

  // Total content shrinks by exactly the bytes reported.
  lemma {:induction false} ReclaimedExactly(v: View, upto: nat)
    requires Consistent(v) && upto <= |v.tools|
    ensures TotalLength(Rewritten(v, upto)) + Reclaimable(v, upto) == TotalLength(v.ms)
  {
    hide Clearable, ShownName, Placeholder;
    if upto > 0 {
      ReclaimedExactly(v, upto - 1);
      if Clearable(v, upto - 1) {
        var i := v.tools[upto - 1];
        RewrittenElsewhere(v, upto - 1, i);
        PlaceholderLength(ShownName(v, upto - 1));
        TotalAfterUpdate(Rewritten(v, upto - 1), i, ToolMessage(Placeholder(ShownName(v, upto - 1)), v.ms[i].callId));
      }
    }
  }

  // How many tool messages stand behind position i.
  function ToolsAfter(ms: seq<Message>, i: nat): nat {
    if |ms| <= i + 1 then 0 else
      ToolsAfter(ms[..|ms| - 1], i) + (if ms[|ms| - 1].role == Tool then 1 else 0)
  }

  // The name of the call a message answers.
  function AnsweredName(ms: seq<Message>, i: nat): string
    requires i < |ms|
  {
    var names := NameMap(ms);
    if ms[i].callId in names then names[ms[i].callId] else ""
  }

  // No later tool message belongs to the same task-state category.
  ghost predicate NewestResult(ms: seq<Message>, i: nat)
    requires i < |ms|
  {
    TaskStateKey(AnsweredName(ms, i)) != ""
    && forall j :: i < j < |ms| && ms[j].role == Tool ==>
         TaskStateKey(AnsweredName(ms, j)) != TaskStateKey(AnsweredName(ms, i))
  }

  lemma {:induction false} ToolsAfterIndex(ms: seq<Message>, p: nat)
    requires p < |ToolIndices(ms)|
    ensures ToolsAfter(ms, ToolIndices(ms)[p]) == |ToolIndices(ms)| - 1 - p
    decreases |ms|
  {
    var n := |ms| - 1;
    var before := ToolIndices(ms[..n]);
    if p < |before| {
      ToolsAfterIndex(ms[..n], p);
    }
  }

  lemma NewestResultIsNewest(ms: seq<Message>, p: nat)
    requires p < |ToolIndices(ms)| && NewestResult(ms, ToolIndices(ms)[p])
    ensures NewestOfKind(ViewOf(ms), p)
  {
    var v := ViewOf(ms);
    forall q | p < q < |v.tools|
      ensures TaskStateKey(CallName(v, q)) != TaskStateKey(CallName(v, p))
    {
      assert v.tools[p] < v.tools[q] && ms[v.tools[q]].role == Tool;
    }
  }

  lemma NewestIsResult(ms: seq<Message>, p: nat)
    requires p < |ToolIndices(ms)| && NewestOfKind(ViewOf(ms), p)
    ensures NewestResult(ms, ToolIndices(ms)[p])
  {
    hide NameMap, ToolIndices, TaskStateKey;
    var v := ViewOf(ms);
    forall j | v.tools[p] < j < |ms| && ms[j].role == Tool
      ensures TaskStateKey(AnsweredName(ms, j)) != TaskStateKey(AnsweredName(ms, v.tools[p]))
    {
      ToolIndicesComplete(ms, j);
      var q :| 0 <= q < |v.tools| && v.tools[q] == j;
      assert CallName(v, q) == AnsweredName(ms, j);
    }
  }

  lemma NewestOfKindIff(ms: seq<Message>, p: nat)
    requires p < |ToolIndices(ms)|
    ensures NewestOfKind(ViewOf(ms), p) <==> NewestResult(ms, ToolIndices(ms)[p])
  {
    if NewestResult(ms, ToolIndices(ms)[p]) {
      NewestResultIsNewest(ms, p);
    } else if NewestOfKind(ViewOf(ms), p) {
      NewestIsResult(ms, p);
    }
  }

  // What a cleared result says instead.
  function Note(ms: seq<Message>, i: nat): string
    requires i < |ms|
  {
    "[cleared: " + (if AnsweredName(ms, i) == "" then "unknown" else AnsweredName(ms, i)) + "]"
  }

  // A result is given up when fifteen or more stand behind it, it is not the newest of its
  // task-state category, and it is long and longer than the note that takes its place.
  ghost predicate GivenUp(ms: seq<Message>, i: nat)
    requires i < |ms|
  {
    && ms[i].role == Tool && ToolsAfter(ms, i) >= 15 && !NewestResult(ms, i)
    && |ms[i].content| > 100 && |ms[i].content| > |Note(ms, i)|
  }

  lemma ClearableIff(ms: seq<Message>, p: nat)
    requires p < |ToolIndices(ms)|
    ensures Clearable(ViewOf(ms), p) <==> GivenUp(ms, ToolIndices(ms)[p])
    ensures Placeholder(ShownName(ViewOf(ms), p)) == Note(ms, ToolIndices(ms)[p])
  {
    var v := ViewOf(ms);
    ToolsAfterIndex(ms, p);
    NewestOfKindIff(ms, p);
    PlaceholderLength(ShownName(v, p));
    hide NameMap, ToolIndices, ToolsAfter, NewestResult, NewestOfKind;
  }

  // Message by message, the rewritten conversation.
  lemma ClearedIff(ms: seq<Message>, i: nat)
    requires i < |ms|
    ensures var out := Rewritten(ViewOf(ms), |ToolIndices(ms)|);
      && |out| == |ms|
      && out[i] == if GivenUp(ms, i) then Message(Tool, Note(ms, i), [], ms[i].callId, None) else ms[i]
  {
    var v := ViewOf(ms);
    if ms[i].role != Tool {
      RewrittenElsewhere(v, |v.tools|, i);
    } else {
      ToolIndicesComplete(ms, i);
      var p :| 0 <= p < |v.tools| && v.tools[p] == i;
      hide Rewritten, NameMap, ToolIndices, GivenUp, Clearable, Note, ShownName, Placeholder;
      RewrittenAt(v, |v.tools|, p);
      ClearableIff(ms, p);
    }
  }

  // It is used when as much is saved as asked for.
  lemma UsedIffItSaves(ms: seq<Message>, minClearBytes: int)
    ensures var v := ViewOf(ms);
      WorthIt(v, minClearBytes) <==>
        minClearBytes <= 0 || TotalLength(ms) - TotalLength(Rewritten(v, |v.tools|)) >= minClearBytes
  {
    ReclaimedExactly(ViewOf(ms), |ViewOf(ms).tools|);
  }

  // --- The name of the call a result answers ---

  // The latest call under an ID.
  ghost predicate LatestCall(ms: seq<Message>, id: string, j: nat, k: nat) {
    && j < |ms| && ms[j].role == Assistant && k < |ms[j].calls| && ms[j].calls[k].id == id
    && (forall k' :: k < k' < |ms[j].calls| ==> ms[j].calls[k'].id != id)
    && forall j', k' :: j < j' < |ms| && ms[j'].role == Assistant && 0 <= k' < |ms[j'].calls| ==>
         ms[j'].calls[k'].id != id
  }

  lemma {:induction false} NamesOfLatest(calls: seq<ToolCall>, names: map<string, string>, id: string) returns (k: int)
    ensures -1 <= k < |calls| && forall k' :: k < k' < |calls| ==> calls[k'].id != id
    ensures var r := NamesOf(calls, names);
      if k < 0 then (id in r <==> id in names) && (id in r ==> r[id] == names[id])
      else calls[k].id == id && id in r && r[id] == calls[k].name
  {
    if calls == [] {
      k := -1;
    } else {
      var n := |calls| - 1;
      if calls[n].id == id {
        k := n;
      } else {
        k := NamesOfLatest(calls[..n], names, id);
      }
    }
  }

  // A result is named after the latest call under its ID, if there is one.
  lemma {:induction false} NamedAfterLatestCall(ms: seq<Message>, id: string) returns (j: int, k: int)
    ensures if id in NameMap(ms)
      then 0 <= j && 0 <= k && LatestCall(ms, id, j, k) && NameMap(ms)[id] == ms[j].calls[k].name
      else forall j', k' :: 0 <= j' < |ms| && ms[j'].role == Assistant && 0 <= k' < |ms[j'].calls| ==>
             ms[j'].calls[k'].id != id
  {
    j, k := -1, -1;
    if ms != [] {
      var n := |ms| - 1;
      var m, init := ms[n], ms[..n];
      if m.role == Assistant {
        k := NamesOfLatest(m.calls, NameMap(init), id);
      }
      if k >= 0 {
        j := n;
      } else {
        j, k := NamedAfterLatestCall(init, id);
      }
    }
  }

  // The pairing protocol is untouched, and so is every message but an old tool result: one with
  // at least 15 tool messages behind it that is not the newest of its task-state category.
  lemma KeptVerbatim(ms: seq<Message>, i: nat)
    requires i < |ms|
    ensures SameShape(ms, Rewritten(ViewOf(ms), |ToolIndices(ms)|))
    ensures ms[i].role != Tool || ToolsAfter(ms, i) < KEEP_RECENT || NewestResult(ms, i) ==>
      Rewritten(ViewOf(ms), |ToolIndices(ms)|)[i] == ms[i]
  {
    hide Rewritten, NameMap, ToolIndices, ToolsAfter, NewestResult, ShownName, Placeholder;
    var v := ViewOf(ms);
    RewrittenShape(v, |v.tools|);
    if ms[i].role != Tool {
      RewrittenElsewhere(v, |v.tools|, i);
    } else {
      ToolIndicesComplete(ms, i);
      var p :| 0 <= p < |v.tools| && v.tools[p] == i;
      RewrittenAt(v, |v.tools|, p);
      ToolsAfterIndex(ms, p);
      if NewestResult(ms, i) {
        NewestResultIsNewest(ms, p);
      }
    }
  }

  lemma {:induction false} RewrittenShape(v: View, upto: nat)
    requires Consistent(v) && upto <= |v.tools|
    ensures SameShape(v.ms, Rewritten(v, upto))
  {
    if upto > 0 {
      RewrittenShape(v, upto - 1);
    }
  }

  lemma {:induction false} SameShapeSameView(a: seq<Message>, b: seq<Message>)
    requires SameShape(a, b)
    ensures ToolIndices(a) == ToolIndices(b) && NameMap(a) == NameMap(b)
  {
    if a != [] {
      SameShapeSameView(a[..|a| - 1], b[..|b| - 1]);
    }
  }

  lemma {:induction false} NothingClearable(v: View, upto: nat)
    requires Consistent(v) && upto <= |v.tools| && forall p :: 0 <= p < upto ==> !Clearable(v, p)
    ensures Reclaimable(v, upto) == 0 && Cleared(v, upto) == 0 && Rewritten(v, upto) == v.ms
  {
    if upto > 0 {
      NothingClearable(v, upto - 1);
    }
  }

  // A second pass finds nothing left to clear.
  lemma {:induction false} SecondPassClearsNothing(ms: seq<Message>)
    ensures var v := ViewOf(ms); var v' := ViewOf(Rewritten(v, |v.tools|));
            Reclaimable(v', |v'.tools|) == 0 && Cleared(v', |v'.tools|) == 0 && Rewritten(v', |v'.tools|) == v'.ms
  {
    hide Clearable, NameMap, ToolIndices, Reclaimable, Cleared, Rewritten, ShownName, Placeholder;
    var v := ViewOf(ms);
    var v' := ViewOf(Rewritten(v, |v.tools|));
    RewrittenShape(v, |v.tools|);
    SameShapeSameView(ms, v'.ms);
    forall p | 0 <= p < |v.tools|
      ensures !Clearable(v', p)
    {
      RewrittenAt(v, |v.tools|, p);
      NotClearableAgain(v, v', p);
    }
    NothingClearable(v', |v'.tools|);
  }

  lemma NotClearableAgain(v: View, v': View, p: nat)
    requires Consistent(v) && Consistent(v') && p < |v.tools| && v'.tools == v.tools && v'.names == v.names
    requires SameShape(v.ms, v'.ms)
    requires Clearable(v, p) ==> v'.ms[v.tools[p]].content == Placeholder(ShownName(v, p))
    requires !Clearable(v, p) ==> v'.ms[v.tools[p]] == v.ms[v.tools[p]]
    ensures !Clearable(v', p)
  {
    forall q | 0 <= q < |v.tools|
      ensures CallName(v', q) == CallName(v, q)
    {
      assert SameLinks(v.ms[v.tools[q]], v'.ms[v.tools[q]]);
    }
  }
}
