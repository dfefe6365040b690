// Directed edges, walks and the visited-set depth-first search behind the cycle check
// of the task board (internal/task/service.go, hasPath).
module Dag {

  datatype Edge = Edge(from: int, to: int)

  // p visits its nodes along edges of es; a single node is a walk of length zero.
  ghost predicate Walk(es: seq<Edge>, p: seq<int>) {
    p != [] && forall i :: 0 <= i < |p| - 1 ==> Edge(p[i], p[i + 1]) in es
  }

  ghost predicate WalkFromTo(es: seq<Edge>, p: seq<int>, a: int, b: int) {
    Walk(es, p) && p[0] == a && p[|p| - 1] == b
  }

  // Reflexive-transitive reachability.
  ghost predicate Reach(es: seq<Edge>, a: int, b: int) {
    exists p :: WalkFromTo(es, p, a, b)
  }

  ghost predicate Acyclic(es: seq<Edge>) {
    forall p :: Walk(es, p) && 2 <= |p| ==> p[0] != p[|p| - 1]
  }

  // Every successor of a node of s lies in t.
  ghost predicate Closed(es: seq<Edge>, s: set<int>, t: set<int>) {
    forall e :: e in es && e.from in s ==> e.to in t
  }

  lemma ReachSelf(es: seq<Edge>, a: int)
    ensures Reach(es, a, a)
  {
    assert WalkFromTo(es, [a], a, a);
  }

  lemma ReachStep(es: seq<Edge>, a: int, b: int, c: int)
    requires Edge(a, b) in es && Reach(es, b, c)
    ensures Reach(es, a, c)
  {
    var p :| WalkFromTo(es, p, b, c);
    var q := [a] + p;
    forall i | 0 <= i < |q| - 1
      ensures Edge(q[i], q[i + 1]) in es
    {
      if 0 < i { assert q[i] == p[i - 1] && q[i + 1] == p[i]; }
    }
    assert WalkFromTo(es, q, a, c);
  }

  lemma LongWalkNeedsEdge(es: seq<Edge>, p: seq<int>)
    requires Walk(es, p) && 2 <= |p|
    ensures es != []
  {
    assert Edge(p[0], p[0 + 1]) in es;
  }

  // A walk that starts in a closed set never leaves it.
  lemma {:induction false} WalkStaysInside(es: seq<Edge>, s: set<int>, p: seq<int>, i: nat)
    requires Closed(es, s, s) && Walk(es, p) && p[0] in s && i < |p|
    ensures p[i] in s
  {
    if 0 < i {
      WalkStaysInside(es, s, p, i - 1);
      assert Edge(p[i - 1], p[i - 1 + 1]) in es;
    }
  }

  lemma ClosedSetExcludes(es: seq<Edge>, s: set<int>, a: int, b: int)
    requires Closed(es, s, s) && a in s && b !in s
    ensures !Reach(es, a, b)
  {
    if Reach(es, a, b) {
      var p :| WalkFromTo(es, p, a, b);
      WalkStaysInside(es, s, p, |p| - 1);
    }
  }

  // Removing edges cannot create a cycle.
  lemma AcyclicSubset(es: seq<Edge>, es': seq<Edge>)
    requires Acyclic(es) && forall e :: e in es' ==> e in es
    ensures Acyclic(es')
  {
    forall p | Walk(es', p) && 2 <= |p|
      ensures p[0] != p[|p| - 1]
    {
      assert Walk(es, p);
    }
  }

  // Edges into a node that nothing leaves cannot close a cycle.
  lemma AcyclicWithSink(es: seq<Edge>, more: seq<Edge>, sink: int)
    requires Acyclic(es)
    requires forall e :: e in es ==> e.from != sink
    requires forall e :: e in more ==> e.to == sink && e.from != sink
    ensures Acyclic(es + more)
  {
    forall p | Walk(es + more, p) && 2 <= |p|
      ensures p[0] != p[|p| - 1]
    {
      forall i | 0 <= i < |p| - 1
        ensures p[i] != sink && (i < |p| - 2 ==> Edge(p[i], p[i + 1]) in es)
      {
        assert Edge(p[i], p[i + 1]) in es + more;
        if i < |p| - 2 {
          assert Edge(p[i + 1], p[i + 1 + 1]) in es + more;
        }
      }
      if p[|p| - 1] != sink {
        assert Edge(p[|p| - 2], p[|p| - 2 + 1]) in es;
        assert Walk(es, p);
      }
    }
  }

  // A walk over es + [e] either avoids e, or reaches e's tail by old edges alone and then goes
  // on by old edges from e's head to its own end or back to e's tail.
  lemma {:induction false} WalkUsesNewEdge(es: seq<Edge>, e: Edge, p: seq<int>)
    requires Walk(es + [e], p)
    ensures Walk(es, p)
         || (Reach(es, p[0], e.from) && (Reach(es, e.to, p[|p| - 1]) || Reach(es, e.to, e.from)))
    decreases |p|
  {
    if |p| == 1 {
    } else {
      var q := p[1..];
      forall i | 0 <= i < |q| - 1
        ensures Edge(q[i], q[i + 1]) in es + [e]
      {
        assert Edge(p[i + 1], p[i + 1 + 1]) in es + [e];
      }
      WalkUsesNewEdge(es, e, q);
      assert Edge(p[0], p[0 + 1]) in es + [e];
      if Edge(p[0], p[1]) in es {
        if Walk(es, q) {
          forall i | 0 <= i < |p| - 1
            ensures Edge(p[i], p[i + 1]) in es
          {
            if 0 < i { assert Edge(q[i - 1], q[i - 1 + 1]) in es; }
          }
        } else {
          ReachStep(es, p[0], q[0], e.from);
        }
      } else {
        ReachSelf(es, p[0]);
        if Walk(es, q) {
          assert WalkFromTo(es, q, e.to, p[|p| - 1]);
        }
      }
    }
  }

  // A new edge closes a cycle exactly when its head already reaches its tail.
  lemma NewEdgeClosesCycle(es: seq<Edge>, e: Edge)
    requires Acyclic(es)
    ensures Acyclic(es + [e]) <==> !Reach(es, e.to, e.from)
  {
    if Reach(es, e.to, e.from) {
      var p :| WalkFromTo(es, p, e.to, e.from);
      var q := [e.from] + p;
      forall i | 0 <= i < |q| - 1
        ensures Edge(q[i], q[i + 1]) in es + [e]
      {
        if 0 < i {
          assert Edge(p[i - 1], p[i - 1 + 1]) in es;
          assert q[i] == p[i - 1] && q[i + 1] == p[i];
        }
      }
      assert Walk(es + [e], q);
    } else {
      forall p | Walk(es + [e], p) && 2 <= |p|
        ensures p[0] != p[|p| - 1]
      {
        WalkUsesNewEdge(es, e, p);
        if !Walk(es, p) && p[0] == p[|p| - 1] {
          ReachConcat(es, e.to, p[0], e.from);
        }
      }
    }
  }

  lemma ReachConcat(es: seq<Edge>, a: int, b: int, c: int)
    requires Reach(es, a, b) && Reach(es, b, c)
    ensures Reach(es, a, c)
  {
    var p :| WalkFromTo(es, p, a, b);
    var q :| WalkFromTo(es, q, b, c);
    var r := p + q[1..];
    forall i | 0 <= i < |r| - 1
      ensures Edge(r[i], r[i + 1]) in es
    {
      if i < |p| - 1 {
        assert Edge(p[i], p[i + 1]) in es;
      } else {
        var j := i - (|p| - 1);
        assert Edge(q[j], q[j + 1]) in es;
      }
    }
    assert WalkFromTo(es, r, a, c);
  }

  // --- The search ---

  class PathSearch {
    ghost const edges: seq<Edge>
    const dst: int
    var adj: map<int, seq<int>>
    var visited: set<int>

    // The adjacency lists say exactly what the edge list says.
    ghost predicate Valid()
      reads this
    {
      forall n, m :: (n in adj && m in adj[n]) <==> Edge(n, m) in edges
    }

    constructor (es: seq<Edge>, dst: int)
      ensures Valid() && edges == es && this.dst == dst && visited == {}
    {
      edges := es;
      this.dst := dst;
      var lists: map<int, seq<int>> := map[];
      for i := 0 to |es|
        invariant forall n, m :: (n in lists && m in lists[n]) <==> Edge(n, m) in es[..i]
      {
        var e := es[i];
        assert es[..i + 1] == es[..i] + [e];
        lists := lists[e.from := (if e.from in lists then lists[e.from] else []) + [e.to]];
      }
      assert es[..|es|] == es;
      adj := lists;
      visited := {};
    }

    // Recursive search with one visited set shared by all calls. Nodes visited by a failed
    // call have all their successors visited, which is what makes skipping them sound.
    method Dfs(n: int, ghost universe: set<int>) returns (found: bool)
      requires Valid() && n in universe
      requires forall e :: e in edges ==> e.to in universe
      modifies this`visited
      ensures old(visited) <= visited
      ensures found ==> Reach(edges, n, dst)
      ensures !found ==> n in visited && dst !in visited - old(visited)
      ensures !found ==> Closed(edges, visited - old(visited), visited)
      decreases universe - visited
    {
      if n == dst {
        ReachSelf(edges, n);
        return true;
      }
      if n in visited {
        return false;
      }
      ghost var before := visited;
      visited := visited + {n};
      var next := if n in adj then adj[n] else [];
      for i := 0 to |next|
        invariant before + {n} <= visited
        invariant dst !in visited - before
        invariant Closed(edges, visited - before - {n}, visited)
        invariant forall j :: 0 <= j < i ==> next[j] in visited
      {
        assert next[i] in adj[n];
        found := Dfs(next[i], universe);
        if found {
          ReachStep(edges, n, next[i], dst);
          return true;
        }
      }
      forall e | e in edges && e.from == n
        ensures e.to in visited
      {
        assert Edge(n, e.to) in edges;
      }
      return false;
    }
  }

  // Exactly reflexive-transitive reachability, for every edge list, cyclic ones included.
  method HasPath(edges: seq<Edge>, src: int, dst: int) returns (found: bool)
    ensures found <==> Reach(edges, src, dst)
  {
    var search := new PathSearch(edges, dst);
    ghost var universe := {src} + set e | e in edges :: e.to;
    found := search.Dfs(src, universe);
    if !found {
      ClosedSetExcludes(edges, search.visited, src, dst);
    }
  }
}
