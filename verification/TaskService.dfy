// The task service itself (internal/task/service.go): a task cache and an edge list updated in
// place. Every method is proved to take exactly the board step it stands for.
module TaskService {
  import opened Options
  import opened Text
  import opened Dag
  import opened Ids
  import opened Board
  import opened BoardProgress

  // One batch as the progress summary gathers it.
  datatype BatchProgress = BatchProgress(
    total: nat, done: nat, inProgress: nat, pending: nat, newestTask: int, sealed: bool, completed: set<int>,
      nextUp: seq<int>)

  const NO_PROGRESS := BatchProgress(0, 0, 0, 0, 0, false, {}, [])

  // One live task more.
  function Counting(p: BatchProgress, id: int, t: Task): BatchProgress {
    var p' := p.(total := p.total + 1, newestTask := if id > p.newestTask then id else p.newestTask,
                 sealed := p.sealed || t.sealed);
    match t.status
    case Completed => p'.(done := p.done + 1, completed := p.completed + {id})
    case InProgress => p'.(inProgress := p.inProgress + 1)
    case _ => p'.(pending := p.pending + 1)
  }

  // The first pass of the summary over some of the tasks, for one batch.
  function Gathered(b: Board, batch: string, ids: seq<int>): BatchProgress {
    if ids == [] then NO_PROGRESS else
      var id := ids[|ids| - 1];
      var p := Gathered(b, batch, ids[..|ids| - 1]);
      if id !in b.tasks || !LiveIn(b.tasks[id], batch) then p else Counting(p, id, b.tasks[id])
  }

  lemma {:induction false} GatheredMeaning(b: Board, batch: string, ids: seq<int>)
    requires forall id :: id in ids ==> id in b.tasks
    ensures var p := Gathered(b, batch, ids);
            && p.nextUp == [] && p.total == p.done + p.inProgress + p.pending
            && (p.done == p.total <==>
                forall id :: id in ids && LiveIn(b.tasks[id], batch) ==> b.tasks[id].status == Completed)
            && forall id :: id in p.completed <==> id in ids && id in CompletedIn(b, batch)
  {
    if ids != [] {
      var n := |ids| - 1;
      GatheredMeaning(b, batch, ids[..n]);
      assert forall id :: id in ids <==> id in ids[..n] || id == ids[n];
    }
  }

  // A batch counts as sealed when a live member is, and its newest task is its live task of the
  // highest ID.
  lemma {:induction false} GatheredSealAndNewest(b: Board, batch: string, ids: seq<int>)
    requires forall id :: id in ids ==> 0 < id && id in b.tasks
    ensures var p := Gathered(b, batch, ids);
            && (p.sealed <==> exists id :: id in ids && LiveIn(b.tasks[id], batch) && b.tasks[id].sealed)
            && (forall id :: id in ids && LiveIn(b.tasks[id], batch) ==> id <= p.newestTask)
            && (0 < p.total ==> p.newestTask in ids && LiveIn(b.tasks[p.newestTask], batch))
            && (p.total == 0 ==> p.newestTask == 0)
  {
    if ids != [] {
      var n := |ids| - 1;
      assert forall id :: id in ids[..n] ==> id in ids;
      GatheredSealAndNewest(b, batch, ids[..n]);
      assert forall id :: id in ids <==> id in ids[..n] || id == ids[n];
    }
  }

  // The listed tasks of a batch that stand at a status.
  function StandingAt(b: Board, batch: string, ids: seq<int>, s: Status): set<int> {
    set id | id in ids && id in b.tasks && BatchOf(b.tasks[id]) == batch && b.tasks[id].status == s
  }

  lemma StandingSnoc(b: Board, batch: string, ids: seq<int>, id: int, s: Status)
    requires id !in ids && id in b.tasks
    ensures StandingAt(b, batch, ids + [id], s)
         == StandingAt(b, batch, ids, s)
          + (if BatchOf(b.tasks[id]) == batch && b.tasks[id].status == s then {id} else {})
    ensures id !in StandingAt(b, batch, ids, s)
  {
  }

  function Tally(p: BatchProgress, s: Status): nat {
    match s
    case Completed => p.done
    case InProgress => p.inProgress
    case Pending => p.pending
    case Deleted => 0
  }

  lemma CountedOnce(b: Board, batch: string, ids: seq<int>, id: int, s: Status)
    requires id in b.tasks && s != Deleted
    ensures Tally(Gathered(b, batch, ids + [id]), s) == Tally(Gathered(b, batch, ids), s)
         + if BatchOf(b.tasks[id]) == batch && b.tasks[id].status == s then 1 else 0
  {
    assert (ids + [id])[..|ids|] == ids;
    hide BatchOf;
  }

  // Each task is counted once, under its own status.
  lemma {:induction false} GatheredCounts(b: Board, batch: string, ids: seq<int>, s: Status)
    requires forall i, j :: 0 <= i < j < |ids| ==> ids[i] < ids[j]
    requires (forall id :: id in ids ==> id in b.tasks) && s != Deleted
    ensures Tally(Gathered(b, batch, ids), s) == |StandingAt(b, batch, ids, s)|
  {
    if ids != [] {
      var init, id := ids[..|ids| - 1], ids[|ids| - 1];
      assert ids == init + [id] && id !in init;
      StandingSnoc(b, batch, init, id, s);
      CountedOnce(b, batch, init, id, s);
      hide StandingAt, Gathered, Tally, BatchOf;
      GatheredCounts(b, batch, init, s);
    } else {
      assert StandingAt(b, batch, ids, s) == {};
    }
  }

  lemma CompletedAlready(b: Board, id: int)
    requires id in CompletedIds(b)
    ensures CompletedIds(b) + {id} == CompletedIds(b)
  {
  }

  // Lists read one task further.
  lemma OneMore(b: Board, done: set<int>, batch: string, ids: seq<int>, i: nat)
    requires i < |ids|
    ensures ReadyAmong(b, done, ids[..i + 1])
         == ReadyAmong(b, done, ids[..i]) + (if ReadyGiven(b, done, ids[i]) then [ids[i]] else [])
    ensures NextUp(b, batch, ids[..i + 1]) == NextUp(b, batch, ids[..i])
         + (if InBatch(b, batch, ids[i]) && ReadyGiven(b, CompletedIn(b, batch), ids[i]) then [ids[i]] else [])
  {
    assert ids[..i + 1][..i] == ids[..i];
  }

  // The inner loop shared by the readiness listings.
  method PredecessorsDone(edges: seq<Edge>, id: int, done: set<int>) returns (allDone: bool)
    ensures allDone <==> forall e :: e in edges && e.to == id ==> e.from in done
  {
    allDone := true;
    for k := 0 to |edges|
      invariant allDone
      invariant forall j :: 0 <= j < k && edges[j].to == id ==> edges[j].from in done
    {
      if edges[k].to == id && edges[k].from !in done {
        return false;
      }
    }
  }

  // The dependency loop of task creation: skips the task itself, unknown tasks and tasks of
  // other batches, with a warning each.
  method KeptDependencies(tasks: map<int, Task>, batch: string, id: int, dependsOn: seq<int>)
    returns (more: seq<Edge>, warn: seq<Skipped>)
    ensures more == DependencyEdges(tasks, batch, id, dependsOn)
    ensures warn == SkippedDependencies(tasks, batch, id, dependsOn)
  {
    more, warn := [], [];
    for i := 0 to |dependsOn|
      invariant more == DependencyEdges(tasks, batch, id, dependsOn[..i])
      invariant warn == SkippedDependencies(tasks, batch, id, dependsOn[..i])
    {
      assert dependsOn[..i + 1][..i] == dependsOn[..i];
      var dep := dependsOn[i];
      if dep == id {
        warn := warn + [OnItself(dep)];
        continue;
      }
      if dep !in tasks {
        warn := warn + [Missing(dep)];
        continue;
      }
      if BatchOf(tasks[dep]) != batch {
        warn := warn + [InOtherBatch(dep)];
        continue;
      }
      more := more + [Edge(dep, id)];
    }
    assert dependsOn[..|dependsOn|] == dependsOn;
  }

  // The clearing and sealing loops after some of the tasks, read from the listing they walk.
  function ClearedAlong(tasks: map<int, Task>, ids: seq<int>): map<int, Task> {
    if ids == [] then tasks else
      var id, m := ids[|ids| - 1], ClearedAlong(tasks, ids[..|ids| - 1]);
      if id in tasks && tasks[id].status == Completed then m[id := tasks[id].(status := Deleted)] else m
  }

  lemma {:induction false} ClearedAlongMeaning(tasks: map<int, Task>, ids: seq<int>)
    ensures var m := ClearedAlong(tasks, ids);
            m.Keys == tasks.Keys
            && forall id :: id in tasks ==> m[id] == (if id in ids then Cleared(tasks[id]) else tasks[id])
  {
    if ids != [] {
      var n := |ids| - 1;
      ClearedAlongMeaning(tasks, ids[..n]);
      assert forall id :: id in ids <==> id in ids[..n] || id == ids[n];
    }
  }

  lemma ClearedAlongAll(b: Board)
    ensures ClearedAlong(b.tasks, SortedIds(b.tasks.Keys)) == ClearOn(b).tasks
  {
    var ids := SortedIds(b.tasks.Keys);
    ClearedAlongMeaning(b.tasks, ids);
    assert forall id :: id in b.tasks ==> id in ids;
  }

  function SealedAlong(tasks: map<int, Task>, batch: string, ids: seq<int>): map<int, Task> {
    if ids == [] then tasks else
      var id, m := ids[|ids| - 1], SealedAlong(tasks, batch, ids[..|ids| - 1]);
      if id in tasks && LiveIn(tasks[id], batch) && !tasks[id].sealed then m[id := tasks[id].(sealed := true)] else m
  }

  lemma {:induction false} SealedAlongMeaning(tasks: map<int, Task>, batch: string, ids: seq<int>)
    ensures var m := SealedAlong(tasks, batch, ids);
            m.Keys == tasks.Keys
            && forall id :: id in tasks ==> m[id] == (if id in ids then Sealed(tasks[id], batch) else tasks[id])
  {
    if ids != [] {
      var n := |ids| - 1;
      SealedAlongMeaning(tasks, batch, ids[..n]);
      assert forall id :: id in ids <==> id in ids[..n] || id == ids[n];
    }
  }

  lemma SealedAlongAll(b: Board, batch: string)
    requires batch != ""
    ensures SealedAlong(b.tasks, batch, SortedIds(b.tasks.Keys)) == SealOn(b, batch).tasks
  {
    var ids := SortedIds(b.tasks.Keys);
    SealedAlongMeaning(b.tasks, batch, ids);
    assert forall id :: id in b.tasks ==> id in ids;
  }

  // How many of the listed tasks the clearing loop marks, and how many the sealing loop leaves
  // unfinished.
  function CompletedAmong(tasks: map<int, Task>, ids: seq<int>): nat {
    if ids == [] then 0 else
      var id := ids[|ids| - 1];
      CompletedAmong(tasks, ids[..|ids| - 1]) + (if id in tasks && tasks[id].status == Completed then 1 else 0)
  }

  function UnfinishedAmong(tasks: map<int, Task>, batch: string, ids: seq<int>): nat {
    if ids == [] then 0 else
      var id := ids[|ids| - 1];
      UnfinishedAmong(tasks, batch, ids[..|ids| - 1])
      + (if id in tasks && LiveIn(tasks[id], batch) && tasks[id].status != Completed then 1 else 0)
  }

  method ClearTasks(tasks: map<int, Task>, ids: seq<int>) returns (cache: map<int, Task>, count: nat)
    requires forall id :: id in ids <==> id in tasks
    ensures cache == ClearedAlong(tasks, ids) && count == CompletedAmong(tasks, ids)
    ensures count == 0 <==> forall id :: id in tasks ==> tasks[id].status != Completed
  {
    cache, count := tasks, 0;
    for i := 0 to |ids|
      invariant cache == ClearedAlong(tasks, ids[..i]) && count == CompletedAmong(tasks, ids[..i])
      invariant count == 0 <==> forall id :: id in ids[..i] && id in tasks ==> tasks[id].status != Completed
    {
      assert ids[..i + 1][..i] == ids[..i] && ids[..i + 1] == ids[..i] + [ids[i]];
      var id := ids[i];
      assert id in ids;
      if tasks[id].status == Completed {
        cache := cache[id := tasks[id].(status := Deleted)];
        count := count + 1;
      }
    }
    assert ids[..|ids|] == ids;
    assert forall id :: id in tasks ==> id in ids;
  }

  lemma {:induction false} NoneUnfinishedIff(tasks: map<int, Task>, batch: string, ids: seq<int>)
    ensures UnfinishedAmong(tasks, batch, ids) == 0 <==>
      forall id :: id in ids && id in tasks && LiveIn(tasks[id], batch) ==> tasks[id].status == Completed
  {
    if ids != [] {
      var init := ids[..|ids| - 1];
      NoneUnfinishedIff(tasks, batch, init);
      assert ids == init + [ids[|ids| - 1]];
    }
  }

  method SealTasks(tasks: map<int, Task>, batch: string, ids: seq<int>) returns (cache: map<int, Task>, remaining: nat)
    requires forall id :: id in ids <==> id in tasks
    ensures cache == SealedAlong(tasks, batch, ids) && remaining == UnfinishedAmong(tasks, batch, ids)
    ensures remaining == 0 <==> AllLiveDone(Board(tasks, []), batch)
  {
    cache, remaining := tasks, 0;
    for i := 0 to |ids|
      invariant cache == SealedAlong(tasks, batch, ids[..i]) && remaining == UnfinishedAmong(tasks, batch, ids[..i])
    {
      assert ids[..i + 1][..i] == ids[..i];
      var id := ids[i];
      assert id in ids;
      if tasks[id].status == Deleted || BatchOf(tasks[id]) != batch {
        continue;
      }
      if !tasks[id].sealed {
        cache := cache[id := tasks[id].(sealed := true)];
      }
      if tasks[id].status != Completed {
        remaining := remaining + 1;
      }
    }
    assert ids[..|ids|] == ids;
    NoneUnfinishedIff(tasks, batch, ids);
    assert forall id :: id in tasks ==> id in ids;
  }

  // The IDs are exactly the tasks on record.
  ghost predicate Lists(ids: seq<int>, b: Board) {
    (forall i :: 0 <= i < |ids| ==> ids[i] in b.tasks) && forall id :: id in b.tasks ==> id in ids
  }

  method SealedBatches(b: Board, ids: seq<int>) returns (sealed: set<string>)
    requires Lists(ids, b)
    ensures forall batch :: batch in sealed <==> BatchIsSealed(b, batch)
  {
    sealed := {};
    for i := 0 to |ids|
      invariant forall batch :: batch in sealed <==> exists j :: 0 <= j < i && SealedIn(b.tasks[ids[j]], batch)
    {
      var t := b.tasks[ids[i]];
      if t.sealed {
        sealed := sealed + {BatchOf(t)};
      }
    }
    forall batch | BatchIsSealed(b, batch)
      ensures batch in sealed
    {
      var id :| id in b.tasks && SealedIn(b.tasks[id], batch);
      var j :| 0 <= j < |ids| && ids[j] == id;
    }
    forall batch | batch in sealed
      ensures BatchIsSealed(b, batch)
    {
      var j :| 0 <= j < |ids| && SealedIn(b.tasks[ids[j]], batch);
      var id := ids[j];
      assert id in b.tasks && SealedIn(b.tasks[id], batch);
    }
  }

  // The unsealed batch owning the newest unfinished task: walk back from the highest ID.
  method FindActiveBatch(b: Board, ids: seq<int>) returns (batch: string)
    requires Lists(ids, b)
    requires forall i, j :: 0 <= i < j < |ids| ==> ids[i] < ids[j]
    ensures IsActiveBatch(b, batch)
  {
    var sealed := SealedBatches(b, ids);
    for i := |ids| downto 0
      invariant forall j :: i <= j < |ids| ==> !Candidate(b, ids[j])
    {
      var t := b.tasks[ids[i]];
      if t.status == Deleted || t.status == Completed {
        continue;
      }
      if BatchOf(t) !in sealed {
        NewestCandidate(b, ids, i);
        return BatchOf(t);
      }
    }
    batch := "";
  }

  lemma NewestCandidate(b: Board, ids: seq<int>, i: nat)
    requires Lists(ids, b) && i < |ids| && Candidate(b, ids[i])
    requires forall i, j :: 0 <= i < j < |ids| ==> ids[i] < ids[j]
    requires forall j :: i < j < |ids| ==> !Candidate(b, ids[j])
    ensures IsActiveBatch(b, BatchOf(b.tasks[ids[i]]))
  {
    forall other | Candidate(b, other)
      ensures other <= ids[i]
    {
      assert other in ids;
    }
  }

  ghost predicate AllLiveDone(b: Board, batch: string) {
    forall id :: id in b.tasks && LiveIn(b.tasks[id], batch) ==> b.tasks[id].status == Completed
  }

  method CountTask(before: BatchProgress, id: int, t: Task) returns (p: BatchProgress)
    requires t.status != Deleted
    ensures p == Counting(before, id, t)
  {
    p := before;
    if id > p.newestTask {
      p := p.(newestTask := id);
    }
    p := p.(total := p.total + 1, sealed := p.sealed || t.sealed);
    if t.status == Completed {
      p := p.(done := p.done + 1, completed := p.completed + {id});
    } else if t.status == InProgress {
      p := p.(inProgress := p.inProgress + 1);
    } else {
      p := p.(pending := p.pending + 1);
    }
  }

  lemma GatheredSnoc(b: Board, batch: string, ids: seq<int>, i: nat)
    requires i < |ids|
    ensures var p := Gathered(b, batch, ids[..i]);
      Gathered(b, batch, ids[..i + 1])
        == if ids[i] !in b.tasks || !LiveIn(b.tasks[ids[i]], batch) then p else Counting(p, ids[i], b.tasks[ids[i]])
  {
    assert ids[..i + 1][..i] == ids[..i];
  }

  // What has been gathered, batch by batch, after the tasks listed so far.
  ghost predicate GatheredSoFar(b: Board, ids: seq<int>, batches: map<string, BatchProgress>) {
    forall batch :: Gathered(b, batch, ids) == if batch in batches then batches[batch] else NO_PROGRESS
  }

  lemma GatherStep(b: Board, ids: seq<int>, i: nat, batches: map<string, BatchProgress>)
    requires i < |ids| && ids[i] in b.tasks && GatheredSoFar(b, ids[..i], batches)
    ensures b.tasks[ids[i]].status == Deleted ==> GatheredSoFar(b, ids[..i + 1], batches)
    ensures b.tasks[ids[i]].status != Deleted ==>
      var batch := BatchOf(b.tasks[ids[i]]);
      var p := if batch in batches then batches[batch] else NO_PROGRESS;
      GatheredSoFar(b, ids[..i + 1], batches[batch := Counting(p, ids[i], b.tasks[ids[i]])])
  {
    hide Gathered, Counting, BatchOf;
    forall batch {
      GatheredSnoc(b, batch, ids, i);
    }
  }

  // The batches with a live task among those listed.
  ghost predicate LiveBatches(b: Board, ids: seq<int>, batches: set<string>)
    requires forall id :: id in ids ==> id in b.tasks
  {
    forall batch :: batch in batches <==> exists id :: id in ids && LiveIn(b.tasks[id], batch)
  }

  lemma LiveStep(b: Board, ids: seq<int>, i: nat, batches: set<string>)
    requires i < |ids| && ids[i] in b.tasks && (forall id :: id in ids ==> id in b.tasks)
    requires LiveBatches(b, ids[..i], batches)
    ensures b.tasks[ids[i]].status == Deleted ==> LiveBatches(b, ids[..i + 1], batches)
    ensures b.tasks[ids[i]].status != Deleted ==> LiveBatches(b, ids[..i + 1], batches + {BatchOf(b.tasks[ids[i]])})
  {
    hide BatchOf;
    var id := ids[i];
    assert ids[..i + 1] == ids[..i] + [id];
    assert forall x :: x in ids[..i + 1] <==> x in ids[..i] || x == id;
  }

  // First pass of the progress summary: one entry per batch with a live task.
  method GatherBatches(b: Board, ids: seq<int>) returns (batches: map<string, BatchProgress>)
    requires Lists(ids, b)
    ensures forall batch :: batch in batches <==> exists id :: id in ids && LiveIn(b.tasks[id], batch)
    ensures forall batch :: batch in batches ==> batches[batch] == Gathered(b, batch, ids)
  {
    hide Gathered, Counting, BatchOf, LiveIn;
    batches := map[];
    NothingGathered(b);
    for i := 0 to |ids|
      invariant LiveBatches(b, ids[..i], batches.Keys) && GatheredSoFar(b, ids[..i], batches)
    {
      GatherStep(b, ids, i, batches);
      LiveStep(b, ids, i, batches.Keys);
      var t := b.tasks[ids[i]];
      if t.status == Deleted {
        continue;
      }
      var batch := BatchOf(t);
      var p := CountTask(if batch in batches then batches[batch] else NO_PROGRESS, ids[i], t);
      assert batches[batch := p].Keys == batches.Keys + {batch};
      batches := batches[batch := p];
    }
    assert ids[..|ids|] == ids;
  }

  lemma NothingGathered(b: Board)
    ensures GatheredSoFar(b, [], map[]) && LiveBatches(b, [], {})
  {
  }

  // What has been listed as next, batch by batch, after the tasks walked so far.
  ghost predicate NextSoFar(
    b: Board, ids: seq<int>, gathered: map<string, BatchProgress>, batches: map<string, BatchProgress>)
  {
    batches.Keys == gathered.Keys
    && forall batch :: batch in batches ==> batches[batch] == gathered[batch].(nextUp := NextUp(b, batch, ids))
  }

  lemma NextStep(
    b: Board, ids: seq<int>, i: nat, gathered: map<string, BatchProgress>, batches: map<string, BatchProgress>)
    requires i < |ids| && ids[i] in b.tasks && NextSoFar(b, ids[..i], gathered, batches)
    ensures var id := ids[i];
      var batch := BatchOf(b.tasks[id]);
      if batch in batches && ReadyGiven(b, CompletedIn(b, batch), id)
      then NextSoFar(b, ids[..i + 1], gathered,
        batches[batch := batches[batch].(nextUp := batches[batch].nextUp + [id])])
      else NextSoFar(b, ids[..i + 1], gathered, batches)
  {
    hide NextUp, ReadyGiven, CompletedIn, BatchOf;
    forall batch {
      OneMore(b, {}, batch, ids, i);
    }
  }

  lemma SameDone(b: Board, done: set<int>, other: set<int>, id: int)
    requires forall x :: x in done <==> x in other
    ensures ReadyGiven(b, done, id) <==> ReadyGiven(b, other, id)
  {
  }

  // Second pass: what is next in each batch.
  method AddNextUp(b: Board, ids: seq<int>, gathered: map<string, BatchProgress>)
    returns (batches: map<string, BatchProgress>)
    requires Lists(ids, b)
    requires forall batch :: batch in gathered ==> gathered[batch] == Gathered(b, batch, ids)
    ensures NextSoFar(b, ids, gathered, batches)
  {
    hide Gathered, NextUp, BatchOf;
    batches := gathered;
    NothingListed(b, ids, gathered);
    for i := 0 to |ids|
      invariant NextSoFar(b, ids[..i], gathered, batches)
    {
      NextStep(b, ids, i, gathered, batches);
      var id := ids[i];
      var batch := BatchOf(b.tasks[id]);
      if batch !in batches {
        continue;
      }
      var progress := batches[batch];
      GatheredMeaning(b, batch, ids);
      SameDone(b, progress.completed, CompletedIn(b, batch), id);
      if b.tasks[id].status != Pending {
        continue;
      }
      var ready := PredecessorsDone(b.edges, id, progress.completed);
      if ready {
        batches := batches[batch := progress.(nextUp := progress.nextUp + [id])];
      }
    }
    assert ids[..|ids|] == ids;
  }

  lemma NothingListed(b: Board, ids: seq<int>, gathered: map<string, BatchProgress>)
    requires forall id :: id in ids ==> id in b.tasks
    requires forall batch :: batch in gathered ==> gathered[batch] == Gathered(b, batch, ids)
    ensures NextSoFar(b, [], gathered, gathered)
  {
    hide Gathered;
    forall batch | batch in gathered
      ensures gathered[batch].nextUp == []
    {
      GatheredMeaning(b, batch, ids);
    }
  }

  class Service {
    var cache: map<int, Task>
    var edges: seq<Edge>

    function View(): Board
      reads this
    {
      Board(cache, edges)
    }

    constructor ()
      ensures View() == EMPTY
    {
      cache := map[];
      edges := [];
    }

    method CreateForBatch(batchId: string, subject: string, dependsOn: seq<int>) returns (reply: Reply)
      modifies this
      ensures (View(), reply) == CreateOn(old(View()), batchId, subject, dependsOn)
    {
      var trimmed := TrimSpace(subject);
      if trimmed == "" {
        return SubjectRequired;
      }
      var batch := TrimSpace(batchId);
      if batch == "" {
        batch := LEGACY_BATCH;
      }
      var id := NextId(cache.Keys);
      cache := cache[id := Task(trimmed, Pending, "", batch, false)];
      var warn: seq<Skipped> := [];
      if dependsOn != [] {
        var more;
        more, warn := KeptDependencies(cache, batch, id, dependsOn);
        edges := edges + more;
      } else {
        assert edges + [] == edges;
      }
      reply := Created(id, batch, trimmed, warn);
    }

    method Update(id: int, status: string) returns (reply: Reply)
      modifies this
      ensures (View(), reply) == UpdateOn(old(View()), id, status)
    {
      if id == 0 {
        return BadTaskId;
      }
      if id !in cache {
        return NotFound(id);
      }
      var t := cache[id];
      var parsed := ParseStatus(status);
      if parsed == None {
        return InvalidStatus;
      }
      var next := parsed.value;
      if next != t.status && !Allowed(t.status, next) {
        return InvalidTransition(t.status, next);
      }
      if next == Deleted {
        cache := cache - {id};
        var filtered: seq<Edge> := [];
        for i := 0 to |edges|
          invariant edges == old(edges) && cache == old(cache) - {id}
          invariant filtered == EdgesAvoiding(edges[..i], id)
        {
          assert edges[..i + 1][..i] == edges[..i];
          if edges[i].from != id && edges[i].to != id {
            filtered := filtered + [edges[i]];
          }
        }
        assert edges[..|edges|] == edges;
        edges := filtered;
        return Done([]);
      }
      cache := cache[id := t.(status := next)];
      assert View() == SetStatus(old(View()), id, next);
      if next == Completed {
        var ready := OnComplete(id);
        return Done(ready);
      }
      reply := Done([]);
    }

    // The tasks announced as ready once completedId has been stored as completed.
    method OnComplete(completedId: int) returns (ready: seq<int>)
      requires completedId in CompletedIds(View())
      ensures ready == ReadyIds(View())
    {
      CompletedAlready(View(), completedId);
      ready := ReadyGivenDone(CompletedIds(View()) + {completedId});
    }

    method ReadyTasks() returns (ready: seq<int>)
      ensures ready == ReadyIds(View())
    {
      ready := ReadyGivenDone(CompletedIds(View()));
    }

    // The shared double loop: tasks in ID order, and for each pending one all edges.
    method ReadyGivenDone(done: set<int>) returns (ready: seq<int>)
      ensures ready == ReadyAmong(View(), done, SortedIds(cache.Keys))
    {
      var ids := SortedIds(cache.Keys);
      ready := [];
      for i := 0 to |ids|
        invariant ready == ReadyAmong(View(), done, ids[..i])
      {
        OneMore(View(), done, "", ids, i);
        var id := ids[i];
        assert id in ids;
        if cache[id].status != Pending {
          continue;
        }
        var allDone := PredecessorsDone(edges, id, done);
        if allDone {
          ready := ready + [id];
        }
      }
      assert ids[..|ids|] == ids;
    }

    method Claim(id: int, owner: string) returns (reply: Reply)
      modifies this`cache
      ensures (View(), reply) == ClaimOn(old(View()), id, owner)
    {
      if id !in cache {
        return NotFound(id);
      }
      var existing := cache[id].owner;
      if existing != "" && existing != owner {
        return AlreadyClaimed(existing);
      }
      cache := cache[id := cache[id].(owner := owner, status := InProgress)];
      reply := Done([]);
    }

    method AddEdge(from: int, to: int) returns (reply: Reply)
      modifies this`edges
      ensures (View(), reply) == AddEdgeOn(old(View()), from, to)
    {
      if from == to {
        return SelfDependency;
      }
      if from !in cache {
        return NotFound(from);
      }
      if to !in cache {
        return NotFound(to);
      }
      if BatchOf(cache[from]) != BatchOf(cache[to]) {
        return DifferentBatches;
      }
      for i := 0 to |edges|
        invariant Edge(from, to) !in edges[..i]
      {
        if edges[i] == Edge(from, to) {
          return AlreadyPresent;
        }
      }
      var cyclic := HasPath(edges, to, from);
      if cyclic {
        return WouldCycle;
      }
      edges := edges + [Edge(from, to)];
      reply := Done([]);
    }

    method RemoveEdge(from: int, to: int) returns (reply: Reply)
      modifies this`edges
      ensures (View(), reply) == RemoveEdgeOn(old(View()), from, to)
    {
      var found := false;
      var filtered: seq<Edge> := [];
      for i := 0 to |edges|
        invariant filtered == EdgesWithout(edges[..i], Edge(from, to))
        invariant found <==> Edge(from, to) in edges[..i]
      {
        assert edges[..i + 1][..i] == edges[..i];
        if edges[i].from == from && edges[i].to == to {
          found := true;
          continue;
        }
        filtered := filtered + [edges[i]];
      }
      assert edges[..|edges|] == edges;
      if !found {
        return NoSuchEdge;
      }
      edges := filtered;
      reply := Done([]);
    }

    method ClearCompleted() returns (count: nat)
      modifies this`cache
      ensures View() == ClearOn(old(View()))
      ensures count == CompletedAmong(old(cache), SortedIds(old(cache).Keys))
      ensures count == 0 <==> forall id :: id in old(cache) ==> old(cache)[id].status != Completed
    {
      ghost var b := View();
      cache, count := ClearTasks(cache, SortedIds(cache.Keys));
      ClearedAlongAll(b);
    }

    method Reset() returns (count: nat)
      modifies this
      ensures View() == EMPTY && count == |old(cache)|
    {
      count := 0;
      for i := 0 to |SortedIds(cache.Keys)|
        invariant count == i && cache == old(cache)
      {
        count := count + 1;
      }
      SortedIdsCount(cache.Keys);
      cache := map[];
      edges := [];
    }

    // Seals every live task of the batch; returns how many of those were still unfinished.
    method SealBatch(batch: string) returns (remaining: nat)
      modifies this`cache
      ensures View() == SealOn(old(View()), batch)
      ensures remaining == if batch == "" then 0 else UnfinishedAmong(old(cache), batch, SortedIds(old(cache).Keys))
      ensures batch != "" ==> (remaining == 0 <==> AllLiveDone(old(View()), batch))
    {
      if batch == "" {
        return 0;
      }
      ghost var b := View();
      cache, remaining := SealTasks(cache, batch, SortedIds(cache.Keys));
      SealedAlongAll(b, batch);
    }

    method ActiveBatch() returns (batch: string)
      ensures IsActiveBatch(View(), batch)
    {
      batch := FindActiveBatch(View(), SortedIds(cache.Keys));
    }

    // The two passes of the progress summary: batches with a live task, what is completed in
    // each, and what is next in each.
    method ProgressSummary() returns (batches: map<string, BatchProgress>)
      ensures forall batch :: batch in batches <==> exists id :: id in cache && LiveIn(cache[id], batch)
      ensures forall batch :: batch in batches ==>
        var p := batches[batch];
        && p == Gathered(View(), batch, SortedIds(cache.Keys)).(nextUp := NextUp(View(), batch, SortedIds(cache.Keys)))
        && (p.done == p.total <==> AllLiveDone(View(), batch))
    {
      var b, ids := View(), SortedIds(cache.Keys);
      batches := GatherBatches(b, ids);
      batches := AddNextUp(b, ids, batches);
      assert forall id :: id in cache ==> id in ids;
      forall batch | batch in batches
        ensures Gathered(b, batch, ids).done == Gathered(b, batch, ids).total <==> AllLiveDone(b, batch)
      {
        GatheredMeaning(b, batch, ids);
      }
    }
  }
}
