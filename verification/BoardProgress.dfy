// Progress on the task board: when something is ready, that the three readiness computations
// agree, and which whole-run facts about owners and sealed batches hold.
module BoardProgress {
  import opened Dag
  import opened Ids
  import opened Board
  import opened Options
  import opened Text

  ghost predicate NoneInProgress(b: Board) {
    forall id :: id in b.tasks ==> b.tasks[id].status != InProgress
  }

  predicate IsPending(b: Board, id: int) {
    id in b.tasks && b.tasks[id].status == Pending
  }

  ghost predicate PendingWalk(b: Board, p: seq<int>) {
    Walk(b.edges, p) && forall i :: 0 <= i < |p| ==> IsPending(b, p[i])
  }

  // p leads from a soft-deleted task through pending tasks only.
  ghost predicate StrandingWalk(b: Board, p: seq<int>) {
    2 <= |p| && Walk(b.edges, p) && p[0] in b.tasks && b.tasks[p[0]].status == Deleted
    && forall i :: 1 <= i < |p| ==> IsPending(b, p[i])
  }

  ghost predicate Stranded(b: Board, id: int) {
    exists p :: StrandingWalk(b, p) && p[|p| - 1] == id
  }

  lemma PrependWalk(es: seq<Edge>, a: int, p: seq<int>)
    requires Walk(es, p) && Edge(a, p[0]) in es
    ensures Walk(es, [a] + p)
  {
    var q := [a] + p;
    forall i | 0 <= i < |q| - 1
      ensures Edge(q[i], q[i + 1]) in es
    {
      if 0 < i {
        assert Edge(p[i - 1], p[i - 1 + 1]) in es;
      }
    }
  }

  // Extending a walk backwards by one of its own nodes closes a cycle.
  lemma OwnPredecessorClosesCycle(es: seq<Edge>, a: int, p: seq<int>)
    requires Walk(es, p) && Edge(a, p[0]) in es && a in p
    ensures !Acyclic(es)
  {
    PrependWalk(es, a, p);
    var i :| 0 <= i < |p| && p[i] == a;
    var q := ([a] + p)[..i + 2];
    forall k | 0 <= k < |q| - 1
      ensures Edge(q[k], q[k + 1]) in es
    {
      assert Edge(([a] + p)[k], ([a] + p)[k + 1]) in es;
    }
    assert Walk(es, q);
  }

  lemma DeletedPredecessorStrands(b: Board, f: int, p: seq<int>)
    requires PendingWalk(b, p) && Edge(f, p[0]) in b.edges && f in b.tasks && b.tasks[f].status == Deleted
    ensures Stranded(b, p[|p| - 1])
  {
    PrependWalk(b.edges, f, p);
    assert forall i :: 1 <= i < |[f] + p| ==> ([f] + p)[i] == p[i - 1];
    assert StrandingWalk(b, [f] + p);
  }

  // A pending task that is not ready has an unfinished predecessor; it is pending too, unless
  // it is a soft-deleted one stranding the end of the walk.
  lemma ExtendBackwards(b: Board, p: seq<int>) returns (f: int)
    requires Inv(b) && NoneInProgress(b)
    requires PendingWalk(b, p) && !Stranded(b, p[|p| - 1]) && !Ready(b, p[0])
    ensures f in b.tasks && f !in p && PendingWalk(b, [f] + p)
  {
    assert IsPending(b, p[0]);
    var e :| e in b.edges && e.to == p[0] && e.from !in CompletedIds(b);
    f := e.from;
    assert Edge(f, p[0]) in b.edges;
    PrependWalk(b.edges, f, p);
    if f in p {
      OwnPredecessorClosesCycle(b.edges, f, p);
    }
    if b.tasks[f].status == Deleted {
      DeletedPredecessorStrands(b, f, p);
    }
    assert forall i :: 1 <= i < |[f] + p| ==> ([f] + p)[i] == p[i - 1];
  }

  ghost function OffWalk(b: Board, p: seq<int>): set<int> {
    b.tasks.Keys - set x | x in p
  }

  lemma LongerWalkLeavesLess(b: Board, f: int, p: seq<int>)
    requires f in b.tasks && f !in p
    ensures OffWalk(b, [f] + p) < OffWalk(b, p)
  {
    assert forall x :: x in p ==> x in [f] + p;
    assert f in [f] + p && f in OffWalk(b, p) && f !in OffWalk(b, [f] + p);
  }

  // Walk backwards along unfinished predecessors; the graph is finite and acyclic, so the walk
  // ends at a ready task.
  lemma {:induction false} FindReady(b: Board, p: seq<int>) returns (r: int)
    requires Inv(b) && NoneInProgress(b)
    requires PendingWalk(b, p) && !Stranded(b, p[|p| - 1])
    ensures Ready(b, r)
    decreases OffWalk(b, p)
  {
    r := p[0];
    hide Ready, Stranded, Inv, NoneInProgress, PendingWalk, OffWalk;
    if !Ready(b, r) {
      var f := ExtendBackwards(b, p);
      LongerWalkLeavesLess(b, f, p);
      r := FindReady(b, [f] + p);
    }
  }

  lemma StrandedHasUnfinishedPredecessor(b: Board, id: int)
    requires Stranded(b, id)
    ensures exists e :: e in b.edges && e.to == id && e.from !in CompletedIds(b)
  {
    var p :| StrandingWalk(b, p) && p[|p| - 1] == id;
    var k := |p| - 2;
    assert Edge(p[k], p[k + 1]) in b.edges;
    assert k == 0 || IsPending(b, p[k]);
  }

  lemma StrandedBehindDeletedEdge(b: Board, id: int)
    requires Stranded(b, id)
    ensures exists e :: e in b.edges && e.from in b.tasks && b.tasks[e.from].status == Deleted
  {
    var p :| StrandingWalk(b, p) && p[|p| - 1] == id;
    assert Edge(p[0], p[0 + 1]) in b.edges;
  }

  // With nothing in progress, some task is ready exactly when some pending task is not
  // stranded behind a soft-deleted one.
  lemma ProgressIff(b: Board)
    requires Inv(b) && NoneInProgress(b)
    ensures ReadyIds(b) != [] <==> exists id :: IsPending(b, id) && !Stranded(b, id)
  {
    if id :| IsPending(b, id) && !Stranded(b, id) {
      var r := FindReady(b, [id]);
      assert r in ReadyIds(b);
    }
    if ReadyIds(b) != [] {
      var id := ReadyIds(b)[0];
      assert id in ReadyIds(b);
      if Stranded(b, id) {
        StrandedHasUnfinishedPredecessor(b, id);
      }
      assert IsPending(b, id);
    }
  }

  // The guard a caller can check: no dependency starts at a soft-deleted task.
  lemma Progress(ops: seq<Op>, b: Board, id: int)
    requires b == Run(EMPTY, ops) && IsPending(b, id) && NoneInProgress(b)
    requires forall e :: e in b.edges && e.from in b.tasks ==> b.tasks[e.from].status != Deleted
    ensures ReadyIds(b) != []
  {
    ReachableBoardsAreDags(ops);
    if Stranded(b, id) {
      StrandedBehindDeletedEdge(b, id);
    }
    ProgressIff(b);
  }

  lemma {:induction false} RunSnoc(b: Board, ops: seq<Op>, op: Op)
    ensures Run(b, ops + [op]) == Step(Run(b, ops), op).0
    decreases |ops|
  {
    if ops == [] {
      assert [op][1..] == [];
    } else {
      assert (ops + [op])[1..] == ops[1..] + [op];
      RunSnoc(Step(b, ops[0]).0, ops[1..], op);
    }
  }

  const FIRST := Task("first", Pending, "", "b", false)
  const SECOND := Task("second", Pending, "", "b", false)
  const ONE_TASK := Board(map[1 := FIRST], [])
  const TWO_TASKS := Board(map[1 := FIRST, 2 := SECOND], [Edge(1, 2)])

  lemma CreateFirst()
    ensures CreateOn(EMPTY, "b", "first", []).0 == ONE_TASK
  {
    assert EMPTY.tasks.Keys == {};
    assert NewBatch("b") == "b";
    assert TrimSpace("first") == "first";
  }

  lemma SecondId()
    ensures ONE_TASK.tasks.Keys == {1} && NextId({1}) == 2
  {
    assert Min({1}) == 1 && {1} - {1} == {};
  }

  lemma SecondDependency()
    ensures DependencyEdges(TWO_TASKS.tasks, "b", 2, [1]) == [Edge(1, 2)]
  {
    assert [1][..0] == [];
  }

  lemma CreateSecond()
    ensures CreateOn(ONE_TASK, "b", "second", [1]).0 == TWO_TASKS
  {
    hide NextId, DependencyEdges;
    SecondId();
    SecondDependency();
    assert NewBatch("b") == "b";
    assert TrimSpace("second") == "second";
  }

  // A ready dependent that stays pending, on a board where nothing is ready any more.
  ghost predicate StrandsByClearing(b: Board) {
    Ready(b, 2) && IsPending(ClearOn(b), 2) && NoneInProgress(ClearOn(b)) && forall id :: !Ready(ClearOn(b), id)
  }

  lemma ReachFirstDone() returns (ops: seq<Op>)
    ensures SecondWaitsForFirst(Run(EMPTY, ops))
  {
    assert Run(EMPTY, []) == EMPTY;
    hide Run, CreateOn, UpdateOn;
    var one := [] + [Create("b", "first", [])];
    RunSnoc(EMPTY, [], Create("b", "first", []));
    CreateFirst();
    assert Run(EMPTY, one) == ONE_TASK;
    var two := one + [Create("b", "second", [1])];
    RunSnoc(EMPTY, one, Create("b", "second", [1]));
    CreateSecond();
    assert Run(EMPTY, two) == TWO_TASKS;
    ops := two + [Update(1, "completed")];
    RunSnoc(EMPTY, two, Update(1, "completed"));
    FinishFirstOfTwo();
  }

  lemma FinishFirstOfTwo()
    ensures SecondWaitsForFirst(UpdateOn(TWO_TASKS, 1, "completed").0)
  {
  }

  // After clearing, a pending task is ready exactly when it never had a dependency on record.
  lemma ReadyAfterClearing(b: Board, id: int)
    ensures Ready(ClearOn(b), id) <==> IsPending(b, id) && forall e :: e in b.edges ==> e.to != id
  {
    var after := ClearOn(b);
    assert forall other :: other !in CompletedIds(after);
    assert IsPending(after, id) <==> IsPending(b, id);
  }

  // Clearing completed tasks can strand their pending dependents: task 2 waits for task 1 and
  // is ready once task 1 completes, but clearing task 1 first leaves nothing ready.
  lemma ClearingStrandsDependents() returns (ops: seq<Op>)
    ensures StrandsByClearing(Run(EMPTY, ops))
  {
    ops := ReachFirstDone();
    SecondIsBlocked(Run(EMPTY, ops));
  }

  ghost predicate SecondWaitsForFirst(b: Board) {
    b.tasks.Keys == {1, 2} && b.tasks[1].status == Completed && b.tasks[2].status == Pending && b.edges == [Edge(1, 2)]
  }

  lemma SecondIsBlocked(b: Board)
    requires SecondWaitsForFirst(b)
    ensures StrandsByClearing(b)
  {
    assert Edge(1, 2) in b.edges && 1 in b.tasks && 2 in b.tasks;
    forall id
      ensures !Ready(ClearOn(b), id)
    {
      ReadyAfterClearing(b, id);
    }
  }

  // --- One readiness, computed three ways ---

  // The completed set of one batch, as the progress summary keeps it.
  function CompletedIn(b: Board, batch: string): set<int> {
    set id | id in b.tasks && b.tasks[id].status == Completed && BatchOf(b.tasks[id]) == batch
  }

  predicate InBatch(b: Board, batch: string, id: int) {
    id in b.tasks && BatchOf(b.tasks[id]) == batch
  }

  function OfBatch(b: Board, batch: string, ids: seq<int>): seq<int> {
    if ids == [] then [] else
      var id := ids[|ids| - 1];
      OfBatch(b, batch, ids[..|ids| - 1]) + (if InBatch(b, batch, id) then [id] else [])
  }

  // What the progress summary lists as next for one batch, out of the given tasks.
  function NextUp(b: Board, batch: string, ids: seq<int>): seq<int> {
    if ids == [] then [] else
      var id := ids[|ids| - 1];
      NextUp(b, batch, ids[..|ids| - 1])
      + (if InBatch(b, batch, id) && ReadyGiven(b, CompletedIn(b, batch), id) then [id] else [])
  }

  lemma BatchReadinessIsReadiness(b: Board, id: int)
    requires Inv(b) && id in b.tasks
    ensures ReadyGiven(b, CompletedIn(b, BatchOf(b.tasks[id])), id) <==> Ready(b, id)
  {
  }

  lemma OfBatchSnoc(b: Board, batch: string, ids: seq<int>, id: int)
    ensures OfBatch(b, batch, ids + [id]) == OfBatch(b, batch, ids) + (if InBatch(b, batch, id) then [id] else [])
  {
    assert (ids + [id])[..|ids|] == ids;
  }

  lemma {:induction false} NextUpIsReadyOfBatch(b: Board, batch: string, ids: seq<int>)
    requires Inv(b)
    ensures NextUp(b, batch, ids) == OfBatch(b, batch, ReadyAmong(b, CompletedIds(b), ids))
  {
    if ids != [] {
      var n := |ids| - 1;
      var id, before := ids[n], ReadyAmong(b, CompletedIds(b), ids[..n]);
      NextUpIsReadyOfBatch(b, batch, ids[..n]);
      if id in b.tasks {
        BatchReadinessIsReadiness(b, id);
      }
      OfBatchSnoc(b, batch, before, id);
      assert before + [] == before;
    }
  }

  // On every reachable board (ReachableBoardsAreDags), each batch's next-up list is the ready
  // list cut down to that batch.
  lemma NextUpAgreesWithReady(b: Board, batch: string)
    requires Inv(b)
    ensures NextUp(b, batch, SortedIds(b.tasks.Keys)) == OfBatch(b, batch, ReadyIds(b))
  {
    var ids := SortedIds(b.tasks.Keys);
    NextUpIsReadyOfBatch(b, batch, ids);
    assert ReadyIds(b) == ReadyAmong(b, CompletedIds(b), ids);
  }

  // --- Owners and sealed batches ---

  // A claimed task is never handed to someone else: it keeps its owner until it is gone.
  lemma OwnerIsNeverReplaced(b: Board, op: Op, id: int)
    requires id in b.tasks && b.tasks[id].owner != ""
    ensures var b' := Step(b, op).0; id in b'.tasks ==> b'.tasks[id].owner == b.tasks[id].owner
  {
  }

  predicate SealedIn(t: Task, batch: string) {
    t.sealed && BatchOf(t) == batch
  }

  predicate BatchIsSealed(b: Board, batch: string) {
    exists id :: id in b.tasks && SealedIn(b.tasks[id], batch)
  }

  // Unfinished, in a batch with no sealed member.
  predicate Candidate(b: Board, id: int) {
    id in b.tasks && b.tasks[id].status != Deleted && b.tasks[id].status != Completed
    && !BatchIsSealed(b, BatchOf(b.tasks[id]))
  }

  // The batch of the newest candidate, or none.
  ghost predicate IsActiveBatch(b: Board, batch: string) {
    if batch == "" then forall id :: !Candidate(b, id)
    else exists id :: Candidate(b, id) && BatchOf(b.tasks[id]) == batch
                   && forall other :: Candidate(b, other) ==> other <= id
  }

  // Deleting a task for good and resetting are the only ways a seal can be lost.
  ghost predicate KeepsSeals(op: Op) {
    match op
    case Update(_, status) => ParseStatus(status) != Some(Deleted)
    case Reset => false
    case _ => true
  }

  lemma StepKeepsSeal(b: Board, op: Op, batch: string)
    requires BatchIsSealed(b, batch) && KeepsSeals(op)
    ensures BatchIsSealed(Step(b, op).0, batch)
  {
    var id :| id in b.tasks && SealedIn(b.tasks[id], batch);
    var b' := Step(b, op).0;
    assert id in b'.tasks && SealedIn(b'.tasks[id], batch);
  }

  lemma {:induction false} RunKeepsSeal(b: Board, ops: seq<Op>, batch: string)
    requires BatchIsSealed(b, batch) && forall i :: 0 <= i < |ops| ==> KeepsSeals(ops[i])
    ensures BatchIsSealed(Run(b, ops), batch)
    decreases |ops|
  {
    if ops != [] {
      StepKeepsSeal(b, ops[0], batch);
      RunKeepsSeal(Step(b, ops[0]).0, ops[1..], batch);
    }
  }

  // Starting a new batch seals the active one, and no later run without hard deletion or reset
  // ever makes it active again: an abandoned plan absorbs no new tasks.
  lemma SealedBatchStaysInactive(b: Board, batch: string, ops: seq<Op>)
    requires batch != "" && IsActiveBatch(b, batch)
    requires forall i :: 0 <= i < |ops| ==> KeepsSeals(ops[i])
    ensures !IsActiveBatch(Run(SealOn(b, batch), ops), batch)
  {
    var id :| Candidate(b, id) && BatchOf(b.tasks[id]) == batch;
    var b' := SealOn(b, batch);
    assert id in b'.tasks && SealedIn(b'.tasks[id], batch);
    RunKeepsSeal(b', ops, batch);
  }

  // --- The transition table ---

  // Every task on both boards kept its status or moved along the table.
  ghost predicate LegalMoves(b: Board, b': Board) {
    forall id :: id in b.tasks && id in b'.tasks ==>
      b'.tasks[id].status == b.tasks[id].status || Allowed(b.tasks[id].status, b'.tasks[id].status)
  }

  // A claim that goes through although the task is finished.
  predicate ReopensFinished(b: Board, op: Op) {
    op.Claim? && op.id in b.tasks && (b.tasks[op.id].owner == "" || b.tasks[op.id].owner == op.owner)
    && (b.tasks[op.id].status == Completed || b.tasks[op.id].status == Deleted)
  }

  // Claiming a finished task is the one operation that breaks the transition table.
  lemma StepIsLegalIff(b: Board, op: Op)
    ensures LegalMoves(b, Step(b, op).0) <==> !ReopensFinished(b, op)
  {
    if op.Claim? && op.id in b.tasks && ReopensFinished(b, op) {
      assert Step(b, op).0.tasks[op.id].status == InProgress;
    }
  }

  const FINISHED := Board(map[1 := FIRST.(status := Completed)], [])

  lemma FinishFirst()
    ensures UpdateOn(ONE_TASK, 1, "completed").0 == FINISHED
  {
  }

  // Such a claim can happen: create a task, complete it, and let anyone claim it.
  lemma ClaimReopensFinished(owner: string) returns (ops: seq<Op>)
    ensures var b := Run(EMPTY, ops);
      && 1 in b.tasks && b.tasks[1].status == Completed && ReopensFinished(b, Claim(1, owner))
      && !LegalMoves(b, Step(b, Claim(1, owner)).0)
  {
    assert Run(EMPTY, []) == EMPTY;
    hide Run, CreateOn, UpdateOn;
    var one := [] + [Create("b", "first", [])];
    RunSnoc(EMPTY, [], Create("b", "first", []));
    CreateFirst();
    ops := one + [Update(1, "completed")];
    RunSnoc(EMPTY, one, Update(1, "completed"));
    FinishFirst();
    StepIsLegalIff(FINISHED, Claim(1, owner));
  }
}
