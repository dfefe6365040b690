// The tool catalog (internal/tool/definition.go): snapshots of definitions and handlers with a
// stable order, replaced as a whole by every change.
module Catalog {
  import opened Text

  // A handler is known by what it stands for.
  datatype Definition = Definition(name: string, description: string, handler: string)

  datatype Snapshot = Snapshot(definitions: map<string, Definition>, handlers: map<string, string>, order: seq<string>)

  const NO_TOOLS := Snapshot(map[], map[], [])

  ghost predicate NoRepeats(order: seq<string>) {
    forall i, j :: 0 <= i < j < |order| ==> order[i] != order[j]
  }

  // The order lists exactly the defined names, each once, and handlers are those of the
  // definitions.
  ghost predicate Consistent(s: Snapshot) {
    && NoRepeats(s.order)
    && (forall n :: n in s.order <==> n in s.definitions)
    && (forall n :: n in s.handlers <==> n in s.definitions)
    && forall n :: n in s.definitions ==> s.definitions[n].name == n && s.handlers[n] == s.definitions[n].handler
  }

  // --- Registering ---

  // A known name is updated in place, a new one goes to the end.
  function With(s: Snapshot, d: Definition): Snapshot {
    Snapshot(s.definitions[d.name := d], s.handlers[d.name := d.handler],
             if d.name in s.order then s.order else s.order + [d.name])
  }

  function WithAll(s: Snapshot, defs: seq<Definition>): Snapshot {
    if defs == [] then s else With(WithAll(s, defs[..|defs| - 1]), defs[|defs| - 1])
  }

  lemma {:induction false} WithAllConsistent(s: Snapshot, defs: seq<Definition>)
    requires Consistent(s)
    ensures Consistent(WithAll(s, defs))
  {
    if defs != [] {
      WithAllConsistent(s, defs[..|defs| - 1]);
    }
  }

  predicate Names(defs: seq<Definition>, name: string) {
    exists i :: 0 <= i < |defs| && defs[i].name == name
  }

  // Registering only extends the order, defines exactly the names on either side, and leaves
  // every tool it does not name as it was.
  lemma {:induction false} RegisterOnlyExtends(s: Snapshot, defs: seq<Definition>)
    requires Consistent(s)
    ensures var s' := WithAll(s, defs);
      && s.order <= s'.order
      && (forall n :: n in s'.definitions <==> n in s.definitions || Names(defs, n))
      && forall n :: n in s.definitions && !Names(defs, n) ==>
           n in s'.definitions && s'.definitions[n] == s.definitions[n]
  {
    if defs != [] {
      var init, last := defs[..|defs| - 1], defs[|defs| - 1];
      RegisterOnlyExtends(s, init);
      forall n
        ensures Names(defs, n) <==> Names(init, n) || last.name == n
      {
        assert defs == init + [last];
        if Names(init, n) {
          var i :| 0 <= i < |init| && init[i].name == n;
          assert defs[i].name == n;
        }
        assert defs[|defs| - 1] == last;
      }
    }
  }

  // Of several definitions of one name the last is the one that counts.
  lemma {:induction false} LastDefinitionCounts(s: Snapshot, defs: seq<Definition>, i: nat)
    requires i < |defs| && forall j :: i < j < |defs| ==> defs[j].name != defs[i].name
    ensures defs[i].name in WithAll(s, defs).definitions && WithAll(s, defs).definitions[defs[i].name] == defs[i]
  {
    if i < |defs| - 1 {
      LastDefinitionCounts(s, defs[..|defs| - 1], i);
    }
  }

  // --- Restricting ---

  function KeptNames(order: seq<string>, keep: string -> bool): (r: seq<string>)
    ensures forall n :: n in r <==> n in order && keep(n)
  {
    if order == [] then [] else
      var last := order[|order| - 1];
      KeptNames(order[..|order| - 1], keep) + (if keep(last) then [last] else [])
  }

  function Selected<V>(m: map<string, V>, names: seq<string>, keep: string -> bool): map<string, V> {
    map n | n in m && n in names && keep(n) :: m[n]
  }

  lemma SelectedStep<V>(m: map<string, V>, names: seq<string>, n: string, keep: string -> bool)
    requires n in m
    ensures Selected(m, names + [n], keep) == if keep(n) then Selected(m, names, keep)[n := m[n]]
      else Selected(m, names, keep)
  {
  }

  lemma SelectedAll<V>(m: map<string, V>, names: seq<string>, keep: string -> bool)
    requires forall n :: n in m ==> n in names && keep(n)
    ensures Selected(m, names, keep) == m
  {
  }

  lemma SelectedIgnores<V>(m: map<string, V>, names: seq<string>, n: string, v: V, keep: string -> bool)
    requires !keep(n)
    ensures Selected(m[n := v], names, keep) == Selected(m, names, keep)
    ensures Selected(m[n := v], names + [n], keep) == Selected(m, names, keep)
  {
  }

  // What is left of a snapshot when only some of the given names are kept.
  function PartOf(s: Snapshot, names: seq<string>, keep: string -> bool): Snapshot {
    Snapshot(Selected(s.definitions, names, keep), Selected(s.handlers, names, keep), KeptNames(names, keep))
  }

  function Part(s: Snapshot, keep: string -> bool, k: nat): Snapshot
    requires k <= |s.order|
  {
    PartOf(s, s.order[..k], keep)
  }

  function Restricted(s: Snapshot, keep: string -> bool): Snapshot {
    PartOf(s, s.order, keep)
  }

  lemma KeptNamesSnoc(order: seq<string>, n: string, keep: string -> bool)
    ensures KeptNames(order + [n], keep) == KeptNames(order, keep) + (if keep(n) then [n] else [])
  {
    assert (order + [n])[..|order|] == order;
  }

  lemma NextIsNew(s: Snapshot, k: nat)
    requires Consistent(s) && k < |s.order|
    ensures s.order[..k + 1] == s.order[..k] + [s.order[k]] && s.order[k] !in s.order[..k]
    ensures s.order[k] in s.order && s.order[k] in s.definitions && s.order[k] in s.handlers
    ensures s.definitions[s.order[k]].name == s.order[k] && s.definitions[s.order[k]].handler == s.handlers[s.order[k]]
  {
  }

  lemma PartStep(s: Snapshot, keep: string -> bool, k: nat)
    requires Consistent(s) && k < |s.order|
    ensures var n := s.order[k];
      n in s.definitions && Part(s, keep, k + 1) == if keep(n) then With(Part(s, keep, k), s.definitions[n])
        else Part(s, keep, k)
  {
    var n := s.order[k];
    NextIsNew(s, k);
    SelectedStep(s.definitions, s.order[..k], n, keep);
    SelectedStep(s.handlers, s.order[..k], n, keep);
    KeptNamesSnoc(s.order[..k], n, keep);
  }

  lemma {:induction false} PartNoRepeats(s: Snapshot, keep: string -> bool, k: nat)
    requires Consistent(s) && k <= |s.order|
    ensures NoRepeats(KeptNames(s.order[..k], keep))
  {
    if k > 0 {
      PartNoRepeats(s, keep, k - 1);
      assert s.order[..k][..k - 1] == s.order[..k - 1];
    }
  }

  // Exactly the wanted tools stay, with their definitions and in their order.
  lemma RestrictedIsConsistent(s: Snapshot, keep: string -> bool)
    requires Consistent(s)
    ensures var r := Restricted(s, keep);
      && Consistent(r)
      && (forall n :: n in r.definitions <==> n in s.definitions && keep(n))
      && forall n :: n in r.definitions ==> r.definitions[n] == s.definitions[n]
  {
    PartNoRepeats(s, keep, |s.order|);
    assert s.order[..|s.order|] == s.order;
  }

  lemma {:induction false} KeptNamesAll(order: seq<string>, keep: string -> bool)
    requires forall i :: 0 <= i < |order| ==> keep(order[i])
    ensures KeptNames(order, keep) == order
  {
    if order != [] {
      var init, last := order[..|order| - 1], order[|order| - 1];
      assert forall i :: 0 <= i < |init| ==> init[i] == order[i];
      KeptNamesAll(init, keep);
      assert init + [last] == order;
    }
  }

  lemma {:induction false} KeptNamesPrefix(head: seq<string>, order: seq<string>, keep: string -> bool)
    requires head <= order && forall i :: 0 <= i < |head| ==> keep(head[i])
    ensures head <= KeptNames(order, keep)
    decreases |order|
  {
    if |order| == |head| {
      assert order == head;
      KeptNamesAll(head, keep);
    } else {
      KeptNamesPrefix(head, order[..|order| - 1], keep);
    }
  }

  // Restricting twice is restricting once.
  lemma {:induction false} KeptNamesTwice(
    order: seq<string>, first: string -> bool, second: string -> bool, both: string -> bool)
    requires forall n :: both(n) <==> first(n) && second(n)
    ensures KeptNames(KeptNames(order, first), second) == KeptNames(order, both)
  {
    if order != [] {
      var init, last := order[..|order| - 1], order[|order| - 1];
      KeptNamesTwice(init, first, second, both);
      if first(last) {
        KeptNamesSnoc(KeptNames(init, first), last, second);
      } else {
        assert KeptNames(order, first) == KeptNames(init, first);
      }
    }
  }

  lemma RestrictedTwice(s: Snapshot, first: string -> bool, second: string -> bool, both: string -> bool)
    requires Consistent(s) && forall n :: both(n) <==> first(n) && second(n)
    ensures Restricted(Restricted(s, first), second) == Restricted(s, both)
  {
    KeptNamesTwice(s.order, first, second, both);
    SelectedTwice(s.definitions, s.order, first, second, both);
    SelectedTwice(s.handlers, s.order, first, second, both);
  }

  lemma SelectedTwice<V>(
    m: map<string, V>, names: seq<string>, first: string -> bool, second: string -> bool, both: string -> bool)
    requires forall n :: both(n) <==> first(n) && second(n)
    ensures Selected(Selected(m, names, first), KeptNames(names, first), second) == Selected(m, names, both)
  {
  }

  lemma RestrictedToAll(s: Snapshot, keep: string -> bool)
    requires Consistent(s) && forall n :: n in s.definitions ==> keep(n)
    ensures Restricted(s, keep) == s
  {
    forall i | 0 <= i < |s.order|
      ensures keep(s.order[i])
    {
      assert s.order[i] in s.order;
    }
    KeptNamesAll(s.order, keep);
    SelectedAll(s.definitions, s.order, keep);
    SelectedAll(s.handlers, s.order, keep);
  }

  lemma RestrictedIgnores(s: Snapshot, d: Definition, keep: string -> bool)
    requires !keep(d.name)
    ensures Restricted(With(s, d), keep) == Restricted(s, keep)
  {
    SelectedIgnores(s.definitions, s.order, d.name, d, keep);
    SelectedIgnores(s.handlers, s.order, d.name, d.handler, keep);
    KeptNamesSnoc(s.order, d.name, keep);
    assert KeptNames(s.order, keep) + [] == KeptNames(s.order, keep);
  }

  // Registering tools under names of their own and dropping those names again restores the
  // catalog exactly, order included.
  lemma {:induction false} RegisterThenDropRestores(s: Snapshot, defs: seq<Definition>, keep: string -> bool)
    requires Consistent(s) && (forall n :: n in s.definitions ==> keep(n))
    requires forall i :: 0 <= i < |defs| ==> !keep(defs[i].name)
    ensures Consistent(WithAll(s, defs)) && Restricted(WithAll(s, defs), keep) == s
  {
    WithAllConsistent(s, defs);
    if defs == [] {
      RestrictedToAll(s, keep);
    } else {
      var init, last := defs[..|defs| - 1], defs[|defs| - 1];
      RegisterThenDropRestores(s, init, keep);
      RestrictedIgnores(WithAll(s, init), last, keep);
    }
  }

  // --- The catalog ---

  function Unprefixed(prefix: string): string -> bool {
    (n: string) => !HasPrefix(n, prefix)
  }

  function Prefixed(s: Snapshot, prefix: string): set<string> {
    set n | n in s.definitions && HasPrefix(n, prefix)
  }

  function Wanted(names: seq<string>): string -> bool {
    (n: string) => n in names
  }

  // The entries whose names do not start with the prefix.
  method CopyWithout(
    before: Snapshot, names: seq<string>, prefix: string, ghost keep: string -> bool)
    returns (s: Snapshot)
    requires Consistent(before) && names == before.order && forall n :: keep(n) <==> !HasPrefix(n, prefix)
    ensures s == Restricted(before, keep)
  {
    s := NO_TOOLS;
    assert Part(before, keep, 0) == NO_TOOLS;
    for k := 0 to |names|
      invariant s == Part(before, keep, k)
    {
      PartStep(before, keep, k);
      NextIsNew(before, k);
      var n := names[k];
      if HasPrefix(n, prefix) {
        continue;
      }
      if n in before.definitions {
        s := Snapshot(s.definitions[n := before.definitions[n]], s.handlers[n := before.handlers[n]], s.order + [n]);
      }
    }
    assert before.order[..|names|] == before.order;
  }

  method WantedDefinitions(
    s: Snapshot, ordered: seq<string>, names: seq<string>, ghost keep: string -> bool)
    returns (defs: seq<Definition>)
    requires Consistent(s) && ordered == s.order && forall n :: keep(n) <==> n in names
    ensures WithAll(NO_TOOLS, defs) == Restricted(s, keep)
  {
    hide Consistent;
    defs := [];
    assert Part(s, keep, 0) == NO_TOOLS;
    for k := 0 to |ordered|
      invariant WithAll(NO_TOOLS, defs) == Part(s, keep, k)
    {
      PartStep(s, keep, k);
      var n := ordered[k];
      if n !in names {
        continue;
      }
      if n !in s.definitions {
        continue;
      }
      var d := s.definitions[n];
      assert (defs + [d])[..|defs|] == defs;
      defs := defs + [d];
    }
    assert s.order[..|ordered|] == s.order;
  }

  class ToolCatalog {
    var snapshot: Snapshot

    ghost predicate Valid()
      reads this
    {
      Consistent(snapshot)
    }

    constructor ()
      ensures Valid() && snapshot == NO_TOOLS
    {
      snapshot := NO_TOOLS;
    }

    // The sorted fallback for an order that does not match the definitions is never taken.
    method OrderedNames() returns (names: seq<string>)
      requires Valid()
      ensures names == snapshot.order
    {
      OrderCounts(snapshot);
      if |snapshot.order| == |snapshot.definitions| {
        return snapshot.order;
      }
      assert false;
    }

    method RegisterAll(defs: seq<Definition>)
      modifies this
      ensures Valid() && snapshot == WithAll(NO_TOOLS, defs)
    {
      var s := NO_TOOLS;
      var seen: set<string> := {};
      for i := 0 to |defs|
        invariant s == WithAll(NO_TOOLS, defs[..i]) && Consistent(s)
        invariant forall n :: n in seen <==> n in s.order
      {
        assert defs[..i + 1][..i] == defs[..i];
        var d := defs[i];
        s := s.(definitions := s.definitions[d.name := d], handlers := s.handlers[d.name := d.handler]);
        if d.name !in seen {
          s := s.(order := s.order + [d.name]);
          seen := seen + {d.name};
        }
      }
      assert defs[..|defs|] == defs;
      snapshot := s;
    }

    method Register(defs: seq<Definition>)
      requires Valid()
      modifies this
      ensures Valid() && snapshot == WithAll(old(snapshot), defs)
    {
      var names := OrderedNames();
      var s := Snapshot(snapshot.definitions, snapshot.handlers, names);
      var existing := set n | n in s.order;
      for i := 0 to |defs|
        invariant s == WithAll(snapshot, defs[..i]) && Consistent(s)
        invariant forall n :: n in existing <==> n in s.order
      {
        assert defs[..i + 1][..i] == defs[..i];
        var d := defs[i];
        s := s.(definitions := s.definitions[d.name := d], handlers := s.handlers[d.name := d.handler]);
        if d.name !in existing {
          s := s.(order := s.order + [d.name]);
          existing := existing + {d.name};
        }
      }
      assert defs[..|defs|] == defs;
      snapshot := s;
    }

    // Rebuilds the snapshot from the names that stay, in order.
    method UnregisterPrefix(prefix: string) returns (removed: nat)
      requires Valid()
      modifies this
      ensures Valid() && snapshot == if prefix == "" then old(snapshot)
        else Restricted(old(snapshot), Unprefixed(prefix))
      ensures removed == if prefix == "" then 0 else |Prefixed(old(snapshot), prefix)|
    {
      if prefix == "" {
        return 0;
      }
      var before := snapshot;
      ghost var keep := Unprefixed(prefix);
      var gone := Prefixed(before, prefix);
      removed := |gone|;
      if removed == 0 {
        assert forall n :: n in before.definitions ==> n !in gone;
        RestrictedToAll(before, keep);
        return;
      }
      var names := OrderedNames();
      var s := CopyWithout(before, names, prefix, keep);
      RestrictedIsConsistent(before, keep);
      snapshot := s;
    }

    // A new catalog of the named tools, in this catalog's order.
    method Subset(names: seq<string>) returns (sub: ToolCatalog)
      requires Valid()
      ensures fresh(sub) && sub.Valid() && sub.snapshot == Restricted(snapshot, Wanted(names))
    {
      var ordered := OrderedNames();
      var defs := WantedDefinitions(snapshot, ordered, names, Wanted(names));
      sub := new ToolCatalog();
      sub.RegisterAll(defs);
    }

    method Resolve(name: string) returns (handler: string, found: bool)
      requires Valid()
      ensures found <==> name in snapshot.definitions
      ensures found ==> handler == snapshot.definitions[name].handler
    {
      found := name in snapshot.handlers;
      handler := if found then snapshot.handlers[name] else "";
    }
  }

  lemma {:induction false} DistinctCount(order: seq<string>, names: set<string>)
    requires NoRepeats(order) && forall n :: n in names <==> n in order
    ensures |order| == |names|
    decreases |order|
  {
    if order == [] {
      assert names == {};
    } else {
      var init, last := order[..|order| - 1], order[|order| - 1];
      assert order == init + [last];
      DistinctCount(init, names - {last});
      assert last in names;
    }
  }

  lemma OrderCounts(s: Snapshot)
    requires Consistent(s)
    ensures |s.order| == |s.definitions|
  {
    DistinctCount(s.order, s.definitions.Keys);
  }
}
