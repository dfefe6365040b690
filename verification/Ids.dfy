// Task IDs: least element, ascending listing and the next free ID (internal/task/service.go).
module Ids {

  lemma Pick<T>(s: set<T>) returns (x: T)
    requires s != {}
    ensures x in s
  {
    x :| x in s;
  }

  lemma {:induction false} SubsetSize<T>(a: set<T>, b: set<T>)
    requires a <= b
    ensures |a| <= |b|
    ensures |a| == |b| ==> a == b
    decreases b
  {
    if b == {} {
      assert a == {};
    } else {
      var x := Pick(b);
      SubsetSize(a - {x}, b - {x});
      if x in a {
        assert a == (a - {x}) + {x} && b == (b - {x}) + {x};
      } else {
        assert a - {x} == a;
      }
    }
  }

  function Min(s: set<int>): (m: int)
    requires s != {}
    ensures m in s && forall x :: x in s ==> m <= x
  {
    MinExists(s);
    var m :| m in s && forall x :: x in s ==> m <= x;
    m
  }

  lemma {:induction false} MinExists(s: set<int>)
    requires s != {}
    ensures exists m :: m in s && forall x :: x in s ==> m <= x
  {
    var y := Pick(s);
    if s == {y} {
    } else {
      var rest := s - {y};
      MinExists(rest);
      var m :| m in rest && forall x :: x in rest ==> m <= x;
      var least := if y < m then y else m;
      assert forall x :: x in s ==> x == y || x in rest;
      assert least in s && forall x :: x in s ==> least <= x;
    }
  }

  // The task IDs in ascending order, as every listing walks them.
  function SortedIds(s: set<int>): (ids: seq<int>)
    ensures forall x :: x in ids <==> x in s
    ensures forall i, j :: 0 <= i < j < |ids| ==> ids[i] < ids[j]
  {
    if s == {} then [] else
      var m := Min(s);
      [m] + SortedIds(s - {m})
  }

  lemma {:induction false} SortedIdsCount(s: set<int>)
    ensures |SortedIds(s)| == |s|
  {
    if s != {} {
      SortedIdsCount(s - {Min(s)});
    }
  }

  // One more than the largest ID on record, counting from zero.
  function NextId(ids: set<int>): (n: int)
    ensures 0 < n && forall x :: x in ids ==> x < n
  {
    if ids == {} then 1 else
      var m := Min(ids);
      var n := NextId(ids - {m});
      assert forall x :: x in ids ==> x == m || x in ids - {m};
      if m < n then n else m + 1
  }
}
