// The persistent task board (internal/task/service.go): its state, its operations as
// functions from board to board, and what every run of them keeps.
module Board {
  import opened Dag
  import opened Ids
  import opened Options
  import opened Text

  const LEGACY_BATCH := "legacy"

  datatype Status = Pending | InProgress | Completed | Deleted

  datatype Task = Task(subject: string, status: Status, owner: string, batch: string, sealed: bool)

  datatype Board = Board(tasks: map<int, Task>, edges: seq<Edge>)

  datatype Op =
    | Create(batch: string, subject: string, deps: seq<int>)
    | Update(id: int, status: string)
    | Claim(id: int, owner: string)
    | AddEdge(from: int, to: int)
    | RemoveEdge(from: int, to: int)
    | ClearCompleted
    | Reset
    | Seal(batch: string)

  // Why a requested dependency was not recorded.
  datatype Skipped = OnItself(dep: int) | Missing(dep: int) | InOtherBatch(dep: int)

  datatype Reply =
    | Created(id: int, batch: string, subject: string, warnings: seq<Skipped>)
    | Done(info: seq<int>)
    | SubjectRequired
    | BadTaskId
    | NotFound(id: int)
    | InvalidStatus
    | InvalidTransition(was: Status, next: Status)
    | AlreadyClaimed(owner: string)
    | SelfDependency
    | DifferentBatches
    | AlreadyPresent
    | WouldCycle
    | NoSuchEdge

  // --- Reading the board ---

  function ParseStatus(s: string): Option<Status> {
    if s == "pending" then Some(Pending)
    else if s == "in_progress" then Some(InProgress)
    else if s == "completed" then Some(Completed)
    else if s == "deleted" then Some(Deleted)
    else None
  }

  predicate Allowed(was: Status, next: Status) {
    match was
    case Pending => next != Pending
    case InProgress => next != InProgress
    case Completed => next == Deleted
    case Deleted => false
  }

  function BatchOf(t: Task): string {
    if t.batch != "" then t.batch else LEGACY_BATCH
  }

  function CompletedIds(b: Board): set<int> {
    set id | id in b.tasks && b.tasks[id].status == Completed
  }

  // Pending, with every predecessor in `done`.
  predicate ReadyGiven(b: Board, done: set<int>, id: int) {
    id in b.tasks && b.tasks[id].status == Pending
    && forall e :: e in b.edges && e.to == id ==> e.from in done
  }

  predicate Ready(b: Board, id: int) {
    ReadyGiven(b, CompletedIds(b), id)
  }

  function ReadyAmong(b: Board, done: set<int>, ids: seq<int>): (r: seq<int>)
    ensures forall x :: x in r <==> x in ids && ReadyGiven(b, done, x)
  {
    if ids == [] then [] else
      var id := ids[|ids| - 1];
      ReadyAmong(b, done, ids[..|ids| - 1]) + (if ReadyGiven(b, done, id) then [id] else [])
  }

  function ReadyIds(b: Board): seq<int> {
    ReadyAmong(b, CompletedIds(b), SortedIds(b.tasks.Keys))
  }

  // --- Operations ---

  function NewBatch(batch: string): (r: string)
    ensures r != ""
  {
    var trimmed := TrimSpace(batch);
    if trimmed == "" then LEGACY_BATCH else trimmed
  }

  // The edge a requested dependency becomes, or why it becomes none.
  function Linked(tasks: map<int, Task>, batch: string, id: int, dep: int): (seq<Edge>, seq<Skipped>) {
    if dep == id then ([], [OnItself(dep)])
    else if dep !in tasks then ([], [Missing(dep)])
    else if BatchOf(tasks[dep]) != batch then ([], [InOtherBatch(dep)])
    else ([Edge(dep, id)], [])
  }

  function DependencyEdges(tasks: map<int, Task>, batch: string, id: int, deps: seq<int>): seq<Edge> {
    if deps == [] then [] else
      DependencyEdges(tasks, batch, id, deps[..|deps| - 1]) + Linked(tasks, batch, id, deps[|deps| - 1]).0
  }

  function SkippedDependencies(tasks: map<int, Task>, batch: string, id: int, deps: seq<int>): seq<Skipped> {
    if deps == [] then [] else
      SkippedDependencies(tasks, batch, id, deps[..|deps| - 1]) + Linked(tasks, batch, id, deps[|deps| - 1]).1
  }

  function CreateOn(b: Board, batch: string, subject: string, deps: seq<int>): (Board, Reply) {
    if TrimSpace(subject) == "" then (b, SubjectRequired) else
      var id, named := NextId(b.tasks.Keys), NewBatch(batch);
      var tasks := b.tasks[id := Task(TrimSpace(subject), Pending, "", named, false)];
      (Board(tasks, b.edges + DependencyEdges(tasks, named, id, deps)),
       Created(id, named, TrimSpace(subject), SkippedDependencies(tasks, named, id, deps)))
  }

  function EdgesAvoiding(es: seq<Edge>, id: int): (r: seq<Edge>)
    ensures forall e :: e in r <==> e in es && e.from != id && e.to != id
  {
    if es == [] then [] else
      var e := es[|es| - 1];
      EdgesAvoiding(es[..|es| - 1], id) + (if e.from != id && e.to != id then [e] else [])
  }

  function DeleteFrom(b: Board, id: int): Board {
    Board(b.tasks - {id}, EdgesAvoiding(b.edges, id))
  }

  function SetStatus(b: Board, id: int, status: Status): Board
    requires id in b.tasks
  {
    b.(tasks := b.tasks[id := b.tasks[id].(status := status)])
  }

  // A status update that passed validation.
  function MoveTo(b: Board, id: int, next: Status): (Board, Reply)
    requires id in b.tasks
  {
    var was := b.tasks[id].status;
    if next != was && !Allowed(was, next) then (b, InvalidTransition(was, next))
    else if next == Deleted then (DeleteFrom(b, id), Done([]))
    else
      var b' := SetStatus(b, id, next);
      (b', Done(if next == Completed then ReadyIds(b') else []))
  }

  function UpdateOn(b: Board, id: int, status: string): (Board, Reply) {
    if id == 0 then (b, BadTaskId)
    else if id !in b.tasks then (b, NotFound(id))
    else match ParseStatus(status)
      case None => (b, InvalidStatus)
      case Some(next) => MoveTo(b, id, next)
  }

  function ClaimOn(b: Board, id: int, owner: string): (Board, Reply) {
    if id !in b.tasks then (b, NotFound(id))
    else if b.tasks[id].owner != "" && b.tasks[id].owner != owner then (b, AlreadyClaimed(b.tasks[id].owner))
    else (b.(tasks := b.tasks[id := b.tasks[id].(owner := owner, status := InProgress)]), Done([]))
  }

  ghost function AddEdgeOn(b: Board, from: int, to: int): (Board, Reply) {
    if from == to then (b, SelfDependency)
    else if from !in b.tasks then (b, NotFound(from))
    else if to !in b.tasks then (b, NotFound(to))
    else if BatchOf(b.tasks[from]) != BatchOf(b.tasks[to]) then (b, DifferentBatches)
    else if Edge(from, to) in b.edges then (b, AlreadyPresent)
    else if Reach(b.edges, to, from) then (b, WouldCycle)
    else (b.(edges := b.edges + [Edge(from, to)]), Done([]))
  }

  function EdgesWithout(es: seq<Edge>, gone: Edge): (r: seq<Edge>)
    ensures forall e :: e in r <==> e in es && e != gone
  {
    if es == [] then [] else
      var e := es[|es| - 1];
      EdgesWithout(es[..|es| - 1], gone) + (if e != gone then [e] else [])
  }

  function RemoveEdgeOn(b: Board, from: int, to: int): (Board, Reply) {
    if Edge(from, to) !in b.edges then (b, NoSuchEdge)
    else (b.(edges := EdgesWithout(b.edges, Edge(from, to))), Done([]))
  }

  function Cleared(t: Task): Task {
    if t.status == Completed then t.(status := Deleted) else t
  }

  function ClearOn(b: Board): Board {
    b.(tasks := map id | id in b.tasks :: Cleared(b.tasks[id]))
  }

  predicate LiveIn(t: Task, batch: string) {
    t.status != Deleted && BatchOf(t) == batch
  }

  function Sealed(t: Task, batch: string): Task {
    if LiveIn(t, batch) then t.(sealed := true) else t
  }

  function SealOn(b: Board, batch: string): Board {
    if batch == "" then b else b.(tasks := map id | id in b.tasks :: Sealed(b.tasks[id], batch))
  }

  const EMPTY := Board(map[], [])

  ghost function Step(b: Board, op: Op): (Board, Reply) {
    match op
    case Create(batch, subject, deps) => CreateOn(b, batch, subject, deps)
    case Update(id, status) => UpdateOn(b, id, status)
    case Claim(id, owner) => ClaimOn(b, id, owner)
    case AddEdge(from, to) => AddEdgeOn(b, from, to)
    case RemoveEdge(from, to) => RemoveEdgeOn(b, from, to)
    case ClearCompleted => (ClearOn(b), Done([]))
    case Reset => (EMPTY, Done([]))
    case Seal(batch) => (SealOn(b, batch), Done([]))
  }

  ghost function Run(b: Board, ops: seq<Op>): Board
    decreases |ops|
  {
    if ops == [] then b else Run(Step(b, ops[0]).0, ops[1..])
  }

  // --- What every run keeps ---

  ghost predicate EdgesConfined(b: Board) {
    forall e :: e in b.edges ==>
      e.from in b.tasks && e.to in b.tasks && BatchOf(b.tasks[e.from]) == BatchOf(b.tasks[e.to])
  }

  ghost predicate Inv(b: Board) {
    (forall id :: id in b.tasks ==> 0 < id) && EdgesConfined(b) && Acyclic(b.edges)
  }

  lemma {:induction false} DependencyEdgesShape(tasks: map<int, Task>, batch: string, id: int, deps: seq<int>)
    ensures forall e :: e in DependencyEdges(tasks, batch, id, deps) <==>
      e.to == id && e.from in deps && e.from != id && e.from in tasks && BatchOf(tasks[e.from]) == batch
  {
    if deps != [] {
      DependencyEdgesShape(tasks, batch, id, deps[..|deps| - 1]);
    }
  }

  // Every requested dependency becomes an edge or a warning, never both.
  lemma {:induction false} NoDependencyIsLost(tasks: map<int, Task>, batch: string, id: int, deps: seq<int>, dep: int)
    ensures |DependencyEdges(tasks, batch, id, deps)| + |SkippedDependencies(tasks, batch, id, deps)| == |deps|
    ensures dep in deps ==>
      (Edge(dep, id) in DependencyEdges(tasks, batch, id, deps)
       <==> forall w :: w in SkippedDependencies(tasks, batch, id, deps) ==> w.dep != dep)
  {
    if deps != [] {
      NoDependencyIsLost(tasks, batch, id, deps[..|deps| - 1], dep);
      SkippedOnlyRequested(tasks, batch, id, deps[..|deps| - 1]);
      DependencyEdgesShape(tasks, batch, id, deps[..|deps| - 1]);
    }
  }

  lemma {:induction false} SkippedOnlyRequested(tasks: map<int, Task>, batch: string, id: int, deps: seq<int>)
    ensures forall w :: w in SkippedDependencies(tasks, batch, id, deps) ==>
      w.dep in deps && (w.dep == id || w.dep !in tasks || BatchOf(tasks[w.dep]) != batch)
  {
    if deps != [] {
      SkippedOnlyRequested(tasks, batch, id, deps[..|deps| - 1]);
    }
  }

  lemma CreateKeepsInv(b: Board, batch: string, subject: string, deps: seq<int>)
    requires Inv(b)
    ensures Inv(CreateOn(b, batch, subject, deps).0)
  {
    if TrimSpace(subject) != "" {
      var id := NextId(b.tasks.Keys);
      var b' := CreateOn(b, batch, subject, deps).0;
      var more := DependencyEdges(b'.tasks, NewBatch(batch), id, deps);
      DependencyEdgesShape(b'.tasks, NewBatch(batch), id, deps);
      AcyclicWithSink(b.edges, more, id);
    }
  }

  lemma AddEdgeKeepsInv(b: Board, from: int, to: int)
    requires Inv(b)
    ensures Inv(AddEdgeOn(b, from, to).0)
  {
    NewEdgeClosesCycle(b.edges, Edge(from, to));
  }

  lemma EmptyBoardKeepsInv()
    ensures Inv(EMPTY)
  {
    forall p | Walk([], p)
      ensures |p| < 2
    {
      if 2 <= |p| {
        LongWalkNeedsEdge([], p);
      }
    }
  }

  // Updates that leave IDs, batches and edges alone.
  ghost predicate SameShape(b: Board, b': Board) {
    b'.edges == b.edges && b'.tasks.Keys == b.tasks.Keys
    && forall id :: id in b.tasks ==> BatchOf(b'.tasks[id]) == BatchOf(b.tasks[id])
  }

  lemma SameShapeKeepsInv(b: Board, b': Board)
    requires Inv(b) && SameShape(b, b')
    ensures Inv(b')
  {
  }

  lemma DeleteKeepsInv(b: Board, id: int)
    requires Inv(b)
    ensures Inv(DeleteFrom(b, id))
  {
    AcyclicSubset(b.edges, DeleteFrom(b, id).edges);
  }

  lemma UpdateKeepsInv(b: Board, id: int, status: string)
    requires Inv(b)
    ensures Inv(UpdateOn(b, id, status).0)
  {
    if id in b.tasks {
      DeleteKeepsInv(b, id);
      forall next
        ensures Inv(SetStatus(b, id, next))
      {
        SameShapeKeepsInv(b, SetStatus(b, id, next));
      }
    }
  }

  lemma StepKeepsInv(b: Board, op: Op)
    requires Inv(b)
    ensures Inv(Step(b, op).0)
  {
    hide Acyclic, AddEdgeOn, CreateOn;
    match op
    case Create(batch, subject, deps) => CreateKeepsInv(b, batch, subject, deps);
    case AddEdge(from, to) => AddEdgeKeepsInv(b, from, to);
    case Update(id, status) => UpdateKeepsInv(b, id, status);
    case RemoveEdge(from, to) => AcyclicSubset(b.edges, Step(b, op).0.edges);
    case Reset => EmptyBoardKeepsInv();
    case _ => SameShapeKeepsInv(b, Step(b, op).0);
  }

  lemma {:induction false} RunKeepsInv(b: Board, ops: seq<Op>)
    requires Inv(b)
    ensures Inv(Run(b, ops))
    decreases |ops|
  {
    if ops != [] {
      StepKeepsInv(b, ops[0]);
      RunKeepsInv(Step(b, ops[0]).0, ops[1..]);
    }
  }

  // Over every sequence of operations from the empty board, edges join existing tasks of one
  // batch and never form a cycle.
  lemma ReachableBoardsAreDags(ops: seq<Op>)
    ensures Inv(Run(EMPTY, ops))
  {
    EmptyBoardKeepsInv();
    RunKeepsInv(EMPTY, ops);
  }

  // Between two existing, distinct tasks of one batch not yet joined, a dependency is refused
  // exactly when accepting it would break acyclicity.
  lemma AddEdgeRefusesExactlyCycles(b: Board, from: int, to: int)
    requires Inv(b) && from != to && from in b.tasks && to in b.tasks
    requires BatchOf(b.tasks[from]) == BatchOf(b.tasks[to]) && Edge(from, to) !in b.edges
    ensures AddEdgeOn(b, from, to).1 == WouldCycle <==> !Acyclic(b.edges + [Edge(from, to)])
  {
    NewEdgeClosesCycle(b.edges, Edge(from, to));
  }
}
