// What each board operation does, read off the tasks' own fields (internal/task/service.go).
module BoardLaws {
  import opened Dag
  import opened Ids
  import opened Board
  import opened BoardProgress
  import opened Options
  import opened Text

  // Every task but one is as it was.
  ghost predicate OthersStay(b: Board, b': Board, id: int) {
    && (forall x :: x != id ==> (x in b'.tasks <==> x in b.tasks))
    && forall x :: x != id && x in b.tasks ==> b'.tasks[x] == b.tasks[x]
  }

  // --- Creating ---

  ghost predicate Warned(tasks: map<int, Task>, batch: string, id: int, w: Skipped) {
    match w
    case OnItself(dep) => dep == id
    case Missing(dep) => dep != id && dep !in tasks
    case InOtherBatch(dep) => dep != id && dep in tasks && BatchOf(tasks[dep]) != batch
  }

  lemma {:induction false} WarningsAreRight(tasks: map<int, Task>, batch: string, id: int, deps: seq<int>)
    ensures forall w :: w in SkippedDependencies(tasks, batch, id, deps) ==> Warned(tasks, batch, id, w)
  {
    if deps != [] {
      WarningsAreRight(tasks, batch, id, deps[..|deps| - 1]);
    }
  }

  // A created task is new, pending, nobody's, and in the named batch; the board changes in nothing
  // else but the edges into it, and the answer says what was made and what was skipped.
  lemma CreateMeans(b: Board, batch: string, subject: string, deps: seq<int>)
    ensures var (b', reply) := Step(b, Create(batch, subject, deps));
      var name := if TrimSpace(batch) == "" then "legacy" else TrimSpace(batch);
      if TrimSpace(subject) == "" then b' == b && reply == SubjectRequired
      else
        && reply.Created? && reply.batch == name && reply.subject == TrimSpace(subject)
        && 0 < reply.id && reply.id in b'.tasks && (forall x :: x in b.tasks ==> x < reply.id)
        && b'.tasks[reply.id] == Task(TrimSpace(subject), Pending, "", name, false)
        && OthersStay(b, b', reply.id)
        && b.edges <= b'.edges
        && (forall w :: w in reply.warnings ==> Warned(b'.tasks, name, reply.id, w))
        && |b'.edges| + |reply.warnings| == |b.edges| + |deps|
        && forall e :: e in b'.edges[|b.edges|..] <==>
             e.to == reply.id && e.from in deps && e.from in b.tasks && BatchOf(b.tasks[e.from]) == name
  {
    if TrimSpace(subject) != "" {
      var id, name := NextId(b.tasks.Keys), NewBatch(batch);
      var b' := CreateOn(b, batch, subject, deps).0;
      var more := DependencyEdges(b'.tasks, name, id, deps);
      hide DependencyEdges, SkippedDependencies, TrimSpace;
      WarningsAreRight(b'.tasks, name, id, deps);
      NoDependencyIsLost(b'.tasks, name, id, deps, 0);
      DependencyEdgesShape(b'.tasks, name, id, deps);
      assert b'.edges[|b.edges|..] == more;
    }
  }

  // --- Updating ---

  // What the announcement of a completed task lists: the pending tasks all of whose predecessors
  // are completed, by ascending ID.
  ghost predicate Announces(b: Board, ids: seq<int>) {
    && (forall i, j :: 0 <= i < j < |ids| ==> ids[i] < ids[j])
    && forall id :: id in ids <==>
         id in b.tasks && b.tasks[id].status == Pending
         && forall e :: e in b.edges && e.to == id ==> e.from in b.tasks && b.tasks[e.from].status == Completed
  }

  lemma {:induction false} ReadyAscends(b: Board, done: set<int>, ids: seq<int>)
    requires forall i, j :: 0 <= i < j < |ids| ==> ids[i] < ids[j]
    ensures forall i, j :: 0 <= i < j < |ReadyAmong(b, done, ids)| ==>
      ReadyAmong(b, done, ids)[i] < ReadyAmong(b, done, ids)[j]
  {
    if ids != [] {
      var init := ids[..|ids| - 1];
      var before := ReadyAmong(b, done, init);
      ReadyAscends(b, done, init);
      forall i | 0 <= i < |before|
        ensures before[i] < ids[|ids| - 1]
      {
        assert before[i] in before && before[i] in init;
      }
    }
  }

  lemma ReadyIsAnnounced(b: Board)
    ensures Announces(b, ReadyIds(b))
  {
    ReadyAscends(b, CompletedIds(b), SortedIds(b.tasks.Keys));
  }

  // Nothing but the status of one task differs.
  ghost predicate OnlyStatus(b: Board, b': Board, id: int, next: Status) {
    && id in b.tasks && id in b'.tasks && b'.tasks[id] == b.tasks[id].(status := next)
    && OthersStay(b, b', id) && b'.edges == b.edges
  }

  // One task is gone, and every edge that touched it; the other edges keep their order.
  ghost predicate OnlyGone(b: Board, b': Board, id: int) {
    && id in b.tasks && id !in b'.tasks && OthersStay(b, b', id)
    && (forall e :: e in b'.edges <==> e in b.edges && e.from != id && e.to != id)
  }

  // The statuses one can be moved to from each: anything else from open ones, only deletion from
  // completed ones, nothing from deleted ones.
  ghost predicate MayMove(was: Status, next: Status) {
    next == was || was == Pending || was == InProgress || (was == Completed && next == Deleted)
  }

  ghost predicate Names(status: string, s: Status) {
    status == match s
      case Pending => "pending"
      case InProgress => "in_progress"
      case Completed => "completed"
      case Deleted => "deleted"
  }

  lemma ParsedNames(status: string, s: Status)
    ensures ParseStatus(status) == Some(s) <==> Names(status, s)
  {
    assert "pending"[0] == 'p' && "in_progress"[0] == 'i' && "completed"[0] == 'c' && "deleted"[0] == 'd';
  }

  // An update takes effect exactly for a known task, a known status and an allowed move; deleting
  // removes the task, everything else changes its status, and completion announces what is ready.
  lemma UpdateMeans(b: Board, id: int, status: string, next: Status)
    requires Names(status, next)
    ensures var (b', reply) := Step(b, Update(id, status));
      if id == 0 then b' == b && reply == BadTaskId
      else if id !in b.tasks then b' == b && reply == NotFound(id)
      else if !MayMove(b.tasks[id].status, next) then
        b' == b && reply == InvalidTransition(b.tasks[id].status, next)
      else if next == Deleted then OnlyGone(b, b', id) && reply == Done([])
      else
        && OnlyStatus(b, b', id, next) && reply.Done?
        && if next == Completed then Announces(b', reply.info) else reply.info == []
  {
    ParsedNames(status, next);
    ReadyIsAnnounced(Step(b, Update(id, status)).0);
    hide ParseStatus, ReadyIds, Announces, Names;
  }

  lemma UnknownStatusMeans(b: Board, id: int, status: string)
    requires forall s :: !Names(status, s)
    ensures var (b', reply) := Step(b, Update(id, status));
      b' == b && (id != 0 && id in b.tasks ==> reply == InvalidStatus)
  {
    forall s
      ensures ParseStatus(status) != Some(s)
    {
      ParsedNames(status, s);
    }
  }

  // --- Claiming ---

  // A claim goes through exactly for a known task that is nobody else's; it then names its owner, is
  // in progress, and nothing else changes.
  lemma ClaimMeans(b: Board, id: int, owner: string)
    ensures var (b', reply) := Step(b, Claim(id, owner));
      if id !in b.tasks then b' == b && reply == NotFound(id)
      else if b.tasks[id].owner != "" && b.tasks[id].owner != owner then
        b' == b && reply == AlreadyClaimed(b.tasks[id].owner)
      else
        && reply == Done([]) && id in b'.tasks && OthersStay(b, b', id) && b'.edges == b.edges
        && b'.tasks[id] == Task(b.tasks[id].subject, InProgress, owner, b.tasks[id].batch, b.tasks[id].sealed)
  {
  }

  // The task stays on record all along.
  ghost predicate StaysOnRecord(b: Board, ops: seq<Op>, id: int)
    decreases |ops|
  {
    id in b.tasks && (ops == [] || StaysOnRecord(Step(b, ops[0]).0, ops[1..], id))
  }

  lemma {:induction false} OwnerStays(b: Board, ops: seq<Op>, id: int)
    requires StaysOnRecord(b, ops, id) && b.tasks[id].owner != ""
    ensures id in Run(b, ops).tasks && Run(b, ops).tasks[id].owner == b.tasks[id].owner
    decreases |ops|
  {
    if ops != [] {
      hide Step;
      OwnerIsNeverReplaced(b, ops[0], id);
      OwnerStays(Step(b, ops[0]).0, ops[1..], id);
    }
  }

  // Once claimed, a task is refused to everybody else for as long as it is on record.
  lemma ClaimIsExclusive(b: Board, id: int, owner: string, ops: seq<Op>, other: string)
    requires owner != "" && other != owner && Step(b, Claim(id, owner)).1.Done?
    requires StaysOnRecord(Step(b, Claim(id, owner)).0, ops, id)
    ensures var later := Run(Step(b, Claim(id, owner)).0, ops);
      Step(later, Claim(id, other)) == (later, AlreadyClaimed(owner))
  {
    ClaimMeans(b, id, owner);
    OwnerStays(Step(b, Claim(id, owner)).0, ops, id);
    ClaimMeans(Run(Step(b, Claim(id, owner)).0, ops), id, other);
  }

  // --- Edges ---

  // A dependency is recorded exactly between two known tasks of one batch that are distinct, not yet
  // joined, and not joined the other way round by any walk.
  lemma AddEdgeMeans(b: Board, from: int, to: int)
    ensures var (b', reply) := Step(b, AddEdge(from, to));
      var fits := from != to && from in b.tasks && to in b.tasks
        && BatchOf(b.tasks[from]) == BatchOf(b.tasks[to]) && Edge(from, to) !in b.edges && !Reach(b.edges, to, from);
      && b'.tasks == b.tasks
      && (reply.Done? <==> fits)
      && b'.edges == if fits then b.edges + [Edge(from, to)] else b.edges
  {
  }

  // How often e is recorded.
  function Copies(es: seq<Edge>, e: Edge): nat {
    if es == [] then 0 else Copies(es[..|es| - 1], e) + if es[|es| - 1] == e then 1 else 0
  }

  lemma {:induction false} CopiesWithout(es: seq<Edge>, gone: Edge, e: Edge)
    ensures Copies(EdgesWithout(es, gone), e) == if e == gone then 0 else Copies(es, e)
  {
    if es != [] {
      var init, last := es[..|es| - 1], es[|es| - 1];
      CopiesWithout(init, gone, e);
      if last != gone {
        var kept := EdgesWithout(init, gone);
        assert (kept + [last])[..|kept|] == kept;
      } else {
        assert EdgesWithout(init, gone) + [] == EdgesWithout(init, gone);
      }
    }
  }

  // Removing takes every copy of one edge and leaves every other as often as it was.
  lemma RemoveEdgeMeans(b: Board, from: int, to: int, e: Edge)
    ensures var (b', reply) := Step(b, RemoveEdge(from, to));
      && b'.tasks == b.tasks
      && reply == (if Edge(from, to) in b.edges then Done([]) else NoSuchEdge)
      && Copies(b'.edges, e) == if e == Edge(from, to) && e in b.edges then 0 else Copies(b.edges, e)
  {
    CopiesWithout(b.edges, Edge(from, to), e);
  }

  // --- Clearing, sealing, resetting ---

  lemma ClearMeans(b: Board, id: int)
    ensures var (b', reply) := Step(b, ClearCompleted);
      && b'.edges == b.edges && (id in b'.tasks <==> id in b.tasks)
      && (id in b.tasks ==>
            b'.tasks[id] == if b.tasks[id].status == Completed then b.tasks[id].(status := Deleted) else b.tasks[id])
  {
  }

  lemma SealMeans(b: Board, batch: string, id: int)
    requires batch != ""
    ensures var (b', reply) := Step(b, Seal(batch));
      && b'.edges == b.edges && (id in b'.tasks <==> id in b.tasks)
      && (id in b.tasks ==>
            var live := b.tasks[id].status != Deleted && BatchOf(b.tasks[id]) == batch;
            b'.tasks[id] == b.tasks[id].(sealed := live || b.tasks[id].sealed))
  {
  }

  lemma ResetMeans(b: Board)
    ensures var (b', reply) := Step(b, Reset); b'.tasks == map[] && b'.edges == []
  {
  }

  // --- The active batch ---

  // Unfinished, and no task of its batch is sealed.
  ghost predicate Open(b: Board, id: int) {
    && id in b.tasks && (b.tasks[id].status == Pending || b.tasks[id].status == InProgress)
    && forall other :: other in b.tasks && b.tasks[other].sealed ==> BatchOf(b.tasks[other]) != BatchOf(b.tasks[id])
  }

  lemma OpenIffCandidate(b: Board, id: int)
    ensures Open(b, id) <==> Candidate(b, id)
  {
    if id in b.tasks && !BatchIsSealed(b, BatchOf(b.tasks[id])) {
      forall other | other in b.tasks && b.tasks[other].sealed
        ensures BatchOf(b.tasks[other]) != BatchOf(b.tasks[id])
      {
        assert !SealedIn(b.tasks[other], BatchOf(b.tasks[id]));
      }
    }
  }

  // It is the batch of the open task of the highest ID, and there is none without an open task.
  lemma ActiveBatchMeans(b: Board, batch: string)
    requires IsActiveBatch(b, batch)
    ensures batch == "" ==> forall id :: !Open(b, id)
    ensures batch != "" ==>
      exists id :: Open(b, id) && BatchOf(b.tasks[id]) == batch && forall other :: Open(b, other) ==> other <= id
  {
    forall id
      ensures Open(b, id) <==> Candidate(b, id)
    {
      OpenIffCandidate(b, id);
    }
    hide Open, Candidate;
    if batch != "" {
      var id :| Candidate(b, id) && BatchOf(b.tasks[id]) == batch
        && forall other :: Candidate(b, other) ==> other <= id;
      assert Open(b, id);
    }
  }
}
