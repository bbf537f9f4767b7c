/**
 Unsubscribing (source/topic_tree.c:307-453): the node loses its subscription,
 nodes that serve no one are pruned upwards, the ancestors that name their levels
 by the departing string are given another, and the string is released.
 */
module Pruning {
  import opened Options
  import opened Topics
  import opened Matching
  import opened NodeStore

  /** A node without its subscription. It still owns its string. */
  function Bare(n: Node): Node {
    n.(callback := None, cleanup := None, userdata := None)
  }

  /** q is one of the nodes on the path that are deeper than m. */
  ghost predicate Gone(path: Path, m: nat, q: Path) {
    q <= path && m < |q|
  }

  ghost function PrunedPlaces(at: Places, path: Path, m: nat): Places {
    map q | q in at && !Gone(path, m, q) :: at[q]
  }

  /** The first m levels of the path are left, of the deeper ones only the node that
      was subscribed, and that one unhooked; no other node has changed. */
  ghost predicate Pruned(w0: Snap, w: Snap, path: Path, m: nat) {
    && path != [] && m <= |path| && path in w0.at && w0.at[path] in w0.nodes
    && Linked(w.nodes, w.at, [])
    && w.at == PrunedPlaces(w0.at, path, m)
    && w0.at[path] in w.nodes && SameFields(w.nodes[w0.at[path]], Bare(w0.nodes[w0.at[path]]))
    && (forall q | q in w.at && q != path :: Kept(w0.nodes, w0.at, w.nodes, w.at, q))
    && (forall q | q in w0.at && Gone(path, m, q) && q != path :: w0.at[q] in w0.nodes && !w0.nodes[w0.at[q]].owns)
    && (m < |path| ==> w.nodes[w0.at[path]].subtopics == map[])
    && Reachable(w.nodes, w.at, {w0.at[path]})
  }

  lemma PruneStart(w0: Snap, path: Path)
    requires Linked(w0.nodes, w0.at, []) && Reachable(w0.nodes, w0.at, {}) && path in w0.at && path != []
    ensures w0.at[path] in w0.nodes
    ensures Pruned(w0, Snap(w0.nodes[w0.at[path] := Bare(w0.nodes[w0.at[path]])], w0.at), path, |path|)
  {
    var cur := w0.at[path];
    assert Hooked(w0.nodes, w0.at, path);
    var x := Bare(w0.nodes[cur]);
    SetLinked(w0.nodes, w0.at, path, x);
    SetReachable(w0.nodes, w0.at, path, x);
    assert PrunedPlaces(w0.at, path, |path|) == w0.at;
    forall q | q in w0.at && q != path ensures Kept(w0.nodes, w0.at, w0.nodes[cur := x], w0.at, q) {
      assert Hooked(w0.nodes, w0.at, q);
      SetOther(w0.nodes, w0.at, path, x, q);
    }
  }

  /** Below a node without children there is nothing. */
  lemma LeafAlone(nodes: Nodes, at: Places, f: Path)
    requires Linked(nodes, at, []) && f in at && nodes[at[f]].subtopics == map[]
    ensures forall q | q in at && f <= q :: q == f
  {
    hide Distinct;
    assert Hooked(nodes, at, f);
    forall q | q in at && f <= q ensures q == f {
      if q != f {
        Below(f, q);
        PrefixesPresent(nodes, at, Child(f, q[|f|]), q);
      }
    }
  }

  lemma PrunedPlacesStep(at0: Places, at: Places, path: Path, m: nat)
    requires 0 < m <= |path| && at == PrunedPlaces(at0, path, m)
    requires forall q | q in at && path[..m] <= q :: q == path[..m]
    ensures CutPlaces(at, path[..m]) == PrunedPlaces(at0, path, m - 1)
  {
    var f := path[..m];
    forall q | q in at0 ensures Gone(path, m - 1, q) <==> Gone(path, m, q) || q == f {
      if Gone(path, m - 1, q) && |q| == m { assert q == f; }
    }
    forall q | q in at0 ensures q in CutPlaces(at, f) <==> q in PrunedPlaces(at0, path, m - 1) {
      assert q in at <==> !Gone(path, m, q);
      if q in at { assert f <= q <==> q == f; }
    }
  }

  /** One level of pruning: the node at path[..m] is unhooked, and released unless it is
      the one that was subscribed. */
  lemma PruneStep(w0: Snap, w: Snap, spells: Spells, path: Path, m: nat)
    requires Good(w0.nodes, spells, w0.at, {}) && Pruned(w0, w, path, m) && m > 0
    requires path[..m] in w.at && w.at[path[..m]] in w.nodes
    requires !IsSubscription(w.nodes[w.at[path[..m]]]) && w.nodes[w.at[path[..m]]].subtopics == map[]
    ensures Parent(path[..m]) in w.at && w.at[Parent(path[..m])] in w.nodes
    ensures var f := path[..m];
            var nodes := Unhook(w.nodes, w.at, f);
            Pruned(w0, Snap(if m == |path| then nodes else nodes - {w.at[f]}, CutPlaces(w.at, f)), path, m - 1)
  {
    hide Linked, Reachable, Good, Kept, Gone, Unhook, CutPlaces;
    assert m == |path| ==> path[..m] == path;
    if m == |path| { PruneFirst(w0, w, spells, path); } else { PruneOn(w0, w, spells, path, m); }
  }

  /** The node that was subscribed: unhooked, and released later. */
  lemma PruneFirst(w0: Snap, w: Snap, spells: Spells, path: Path)
    requires Good(w0.nodes, spells, w0.at, {}) && Pruned(w0, w, path, |path|)
    requires path in w.at && w.at[path] in w.nodes && w.nodes[w.at[path]].subtopics == map[]
    ensures Parent(path) in w.at && w.at[Parent(path)] in w.nodes
    ensures Pruned(w0, Snap(Unhook(w.nodes, w.at, path), CutPlaces(w.at, path)), path, |path| - 1)
  {
    hide Linked, Reachable, Placed, Sound, OwnedAt, Distinct, Hooked;
    var m, cur := |path|, w0.at[path];
    assert path[..m] == path;
    UnhookLinked(w.nodes, w.at, path);
    LeafAlone(w.nodes, w.at, path);
    PrunedPlacesStep(w0.at, w.at, path, m);
    UnhookApart(w, path);
    UnhookReachable(w, path, {cur}, cur);
    assert forall q | q in w0.at && Gone(path, m - 1, q) :: q == path;
  }

  /** A node above it: unhooked and released. */
  lemma PruneOn(w0: Snap, w: Snap, spells: Spells, path: Path, m: nat)
    requires Good(w0.nodes, spells, w0.at, {}) && Pruned(w0, w, path, m) && 0 < m < |path|
    requires path[..m] in w.at && w.at[path[..m]] in w.nodes
    requires !IsSubscription(w.nodes[w.at[path[..m]]]) && w.nodes[w.at[path[..m]]].subtopics == map[]
    ensures Parent(path[..m]) in w.at && w.at[Parent(path[..m])] in w.nodes
    ensures var f := path[..m];
            Pruned(w0, Snap(Unhook(w.nodes, w.at, f) - {w.at[f]}, CutPlaces(w.at, f)), path, m - 1)
  {
    hide Linked, Reachable, Placed, Sound, OwnedAt, Distinct, Hooked, Kept;
    var f := path[..m];
    var n, cur := w.at[f], w0.at[path];
    UnhookLinked(w.nodes, w.at, f);
    LeafAlone(w.nodes, w.at, f);
    PrunedPlacesStep(w0.at, w.at, path, m);
    UnhookApart(w, f);
    assert f != path && Kept(w0.nodes, w0.at, w.nodes, w.at, f);
    KeptOwns(w0, w, f);
    UnhookReachable(w, f, {cur}, cur);
    FreeLinked(Unhook(w.nodes, w.at, f), CutPlaces(w.at, f), n);
    PrunedDetached(w0, w, path, m);
    assert Tagged(w0.nodes[w0.at[f]], spells, f);
    GoneNext(path, m);
    PruneKept(w0, w, path, f);
  }

  lemma KeptOwns(w0: Snap, w: Snap, f: Path)
    requires Kept(w0.nodes, w0.at, w.nodes, w.at, f)
    ensures f in w0.at && w0.at[f] in w0.nodes && f in w.at && w.at[f] in w.nodes && w0.at[f] == w.at[f]
    ensures IsSubscription(w.nodes[w.at[f]]) <==> IsSubscription(w0.nodes[w0.at[f]])
  {
  }

  lemma PruneKept(w0: Snap, w: Snap, path: Path, f: Path)
    requires f != [] && f in w.at && Parent(f) in w.at && w.at[Parent(f)] in w.nodes
    requires forall q | q in w.at && q != path :: Kept(w0.nodes, w0.at, w.nodes, w.at, q)
    requires forall q | q in CutPlaces(w.at, f) :: CutPlaces(w.at, f)[q] == w.at[q] != w.at[f]
    ensures var nodes, at := Unhook(w.nodes, w.at, f) - {w.at[f]}, CutPlaces(w.at, f);
            forall q | q in at && q != path :: Kept(w0.nodes, w0.at, nodes, at, q)
  {
    var nodes, at := Unhook(w.nodes, w.at, f) - {w.at[f]}, CutPlaces(w.at, f);
    forall q | q in at && q != path ensures Kept(w0.nodes, w0.at, nodes, at, q) {
      assert Kept(w0.nodes, w0.at, w.nodes, w.at, q);
    }
  }

  lemma GoneNext(path: Path, m: nat)
    requires 0 < m <= |path|
    ensures forall q | Gone(path, m - 1, q) :: Gone(path, m, q) || q == path[..m]
  {
  }

  lemma UnhookApart(w: Snap, f: Path)
    requires Linked(w.nodes, w.at, []) && f in w.at && f != []
    ensures forall q | q in CutPlaces(w.at, f) :: CutPlaces(w.at, f)[q] == w.at[q] != w.at[f]
  {
    hide Linked;
    forall q | q in CutPlaces(w.at, f) ensures w.at[q] != w.at[f] { LinkedApart(w.nodes, w.at, q, f); }
  }

  lemma PrunedDetached(w0: Snap, w: Snap, path: Path, m: nat)
    requires Pruned(w0, w, path, m) && m < |path| && Linked(w0.nodes, w0.at, [])
    ensures forall q | q in w.at :: w.at[q] != w0.at[path]
  {
    hide Linked, Reachable, SameFields;
    assert Gone(path, m, path);
    forall q | q in w.at ensures w.at[q] != w0.at[path] {
      LinkedApart(w0.nodes, w0.at, q, path);
    }
  }

  lemma UnhookReachable(w: Snap, f: Path, extra: set<NodePtr>, cur: NodePtr)
    requires f != [] && f in w.at && Parent(f) in w.at && w.at[Parent(f)] in w.nodes
    requires Reachable(w.nodes, w.at, {cur}) && forall q | q in w.at && f <= q :: q == f
    requires extra == {cur}
    ensures Reachable(Unhook(w.nodes, w.at, f) - {w.at[f]}, CutPlaces(w.at, f), extra)
    ensures w.at[f] == cur ==> Reachable(Unhook(w.nodes, w.at, f), CutPlaces(w.at, f), extra)
  {
    forall m | m in w.nodes && m != w.at[f] && m != cur ensures Placed(CutPlaces(w.at, f), m) {
      assert Placed(w.at, m);
      var q :| q in w.at && w.at[q] == m;
      assert CutPlaces(w.at, f)[q] == m;
    }
  }

  // ----- the string -----

  /** The node at q once the levels deeper than i have been looked at: one that named its
      level by the departing string os names it by the string nf. */
  ghost function Fixed(n: Node, q: Path, path: Path, os: StrPtr, nf: Option<StrPtr>, i: nat): Node {
    var b := if q == path then Bare(n) else n;
    if |q| > i && n.filter == Some(os) && nf.Some?
    then b.(filter := nf, topic := SliceFor(q, nf.value), owns := b.owns && q != path)
    else b
  }

  /** The string ns has an owner, and runs through every node that needs a new string. */
  ghost predicate Replaces(w0: Snap, spells: Spells, at: Places, os: StrPtr, ns: StrPtr) {
    && ns != os && OwnedAt(w0.nodes, spells, w0.at, ns)
    && forall q | q in at && q in w0.at && w0.at[q] in w0.nodes && w0.nodes[w0.at[q]].filter == Some(os) ::
       q <= spells[ns]
  }

  ghost predicate FixedAt(w0: Snap, w: Snap, path: Path, os: StrPtr, nf: Option<StrPtr>, i: nat, q: Path) {
    && q in w0.at && w0.at[q] in w0.nodes && q in w.at && w.at[q] == w0.at[q] && w.at[q] in w.nodes
    && SameFields(w.nodes[w.at[q]], Fixed(w0.nodes[w0.at[q]], q, path, os, nf, i))
  }

  ghost predicate Repointed(w0: Snap, w: Snap, spells: Spells, path: Path, m: nat, i: nat, os: StrPtr,
                            nf: Option<StrPtr>) {
    && path != [] && i <= m <= |path| && path in w0.at && w0.at[path] in w0.nodes && w0.at[path] in w.nodes
    && Linked(w.nodes, w.at, []) && w.at == PrunedPlaces(w0.at, path, m)
    && Reachable(w.nodes, w.at, {w0.at[path]})
    && (forall q | q in w.at :: FixedAt(w0, w, path, os, nf, i, q))
    && (m < |path| ==>
          && w.nodes[w0.at[path]].subtopics == map[]
          && SameFields(w.nodes[w0.at[path]], Bare(w0.nodes[w0.at[path]]).(owns := nf.None?)))
    && (forall q | q in w0.at && Gone(path, m, q) && q != path :: w0.at[q] in w0.nodes && !w0.nodes[w0.at[q]].owns)
    && (nf.None? ==> forall q | q in w.at && |q| > i :: !Uses(w0, q, os))
    && (nf.Some? ==> i < m && Replaces(w0, spells, w.at, os, nf.value))
  }

  ghost predicate Uses(w: Snap, q: Path, os: StrPtr) {
    q in w.at && w.at[q] in w.nodes && w.nodes[w.at[q]].filter == Some(os)
  }

  /** The string that the node at path owns. */
  ghost predicate Departing(w: Snap, spells: Spells, path: Path, os: StrPtr) {
    && Good(w.nodes, spells, w.at, {})
    && path in w.at && path != [] && w.at[path] in w.nodes && w.nodes[w.at[path]].owns
    && w.nodes[w.at[path]].filter == Some(os)
    && os in spells && spells[os] == path
  }

  /** Only the node itself and its ancestors use the string that it owns. */
  lemma UsersAreAncestors(w: Snap, spells: Spells, path: Path, os: StrPtr, q: Path)
    requires Departing(w, spells, path, os) && q != [] && Uses(w, q, os)
    ensures q <= path && path[..|q|] == q && (w.nodes[w.at[q]].owns ==> q == path)
  {
    hide Linked, OwnedAt, FilterPath;
    assert Sound(w.nodes, spells, w.at, {}, q) && Tagged(w.nodes[w.at[q]], spells, q);
  }

  lemma RepointStart(w0: Snap, w: Snap, spells: Spells, path: Path, m: nat, os: StrPtr)
    requires Departing(w0, spells, path, os) && Pruned(w0, w, path, m)
    ensures Repointed(w0, w, spells, path, m, m, os, None)
  {
    hide Good, Linked, Reachable;
    forall q | q in w.at ensures FixedAt(w0, w, path, os, None, m, q) {
      if q != path { assert Kept(w0.nodes, w0.at, w.nodes, w.at, q); }
    }
    forall q | q in w.at && |q| > m ensures !Uses(w0, q, os) {
      if Uses(w0, q, os) {
        UsersAreAncestors(w0, spells, path, os, q);
      }
    }
  }

  /** A level that does not use the string needs nothing. */
  lemma RepointSkip(w0: Snap, w: Snap, spells: Spells, path: Path, m: nat, i: nat, os: StrPtr, nf: Option<StrPtr>)
    requires Departing(w0, spells, path, os) && Repointed(w0, w, spells, path, m, i, os, nf) && i > 0
    requires path[..i] in w.at && w.at[path[..i]] in w.nodes && w.nodes[w.at[path[..i]]].filter != Some(os)
    ensures Repointed(w0, w, spells, path, m, i - 1, os, nf)
  {
    hide Good, Linked, Reachable, Replaces;
    forall q | q in w.at ensures FixedAt(w0, w, path, os, nf, i - 1, q) && (|q| == i ==> !Uses(w0, q, os)) {
      assert FixedAt(w0, w, path, os, nf, i, q);
      if |q| == i && Uses(w0, q, os) {
        UsersAreAncestors(w0, spells, path, os, q);
      }
    }
  }

  /** A kept level that uses the string has a child that does not. */
  lemma AnotherString(w0: Snap, w: Snap, spells: Spells, path: Path, m: nat, i: nat, os: StrPtr)
    requires Departing(w0, spells, path, os) && Repointed(w0, w, spells, path, m, i, os, None) && i > 0
    requires path[..i] in w.at && w.at[path[..i]] in w.nodes && w.nodes[w.at[path[..i]]].filter == Some(os)
    requires i == m ==> IsSubscription(w.nodes[w.at[path[..i]]]) || w.nodes[w.at[path[..i]]].subtopics != map[]
    ensures exists q :: q in w.at && path[..i] <= q && q != path[..i] && !Uses(w, q, os)
  {
    hide Good, Linked, Reachable, Replaces;
    var f := path[..i];
    assert FixedAt(w0, w, path, os, None, i, f);
    var c: Path;
    if i < m {
      c := path[..i + 1];
      RepointedPath(w0, w, spells, path, m, i, os, None, i + 1);
    } else {
      SubscriptionKeepsOwn(w0, w, spells, path, m, i, os);
      var s :| s in w.nodes[w.at[f]].subtopics;
      c := Child(f, s);
      LinkedChild(w.nodes, w.at, f, s);
    }
    assert f <= c && c != f && |c| > i;
    assert FixedAt(w0, w, path, os, None, i, c) && !Uses(w0, c, os);
    assert !Uses(w, c, os);
  }

  lemma SubscriptionKeepsOwn(w0: Snap, w: Snap, spells: Spells, path: Path, m: nat, i: nat, os: StrPtr)
    requires Departing(w0, spells, path, os) && Repointed(w0, w, spells, path, m, i, os, None) && i > 0
    requires path[..i] in w.at && w.at[path[..i]] in w.nodes && w.nodes[w.at[path[..i]]].filter == Some(os)
    ensures !IsSubscription(w.nodes[w.at[path[..i]]])
  {
    hide Linked, Reachable, Replaces, Sound;
    var f := path[..i];
    assert FixedAt(w0, w, path, os, None, i, f);
    UsersAreAncestors(w0, spells, path, os, f);
    assert Tagged(w0.nodes[w0.at[f]], spells, f);
  }

  lemma LinkedChild(nodes: Nodes, at: Places, p: Path, s: string)
    requires Linked(nodes, at, []) && p in at && at[p] in nodes && s in nodes[at[p]].subtopics
    ensures Child(p, s) in at
  {
    assert Hooked(nodes, at, p);
  }

  lemma RepointedPath(w0: Snap, w: Snap, spells: Spells, path: Path, m: nat, i: nat, os: StrPtr, nf: Option<StrPtr>,
                      k: nat)
    requires Repointed(w0, w, spells, path, m, i, os, nf) && Departing(w0, spells, path, os) && k <= m
    ensures path[..k] in w.at && w.at[path[..k]] in w.nodes
  {
    hide Reachable, Replaces, SameFields;
    PrefixesPresent(w0.nodes, w0.at, path[..k], path);
    assert !Gone(path, m, path[..k]);
    assert FixedAt(w0, w, path, os, nf, i, path[..k]);
  }

  /** The string of a node below f serves f and everything above it. */
  lemma FoundReplaces(w0: Snap, w: Snap, spells: Spells, path: Path, m: nat, i: nat, os: StrPtr, q: Path, ns: StrPtr)
    requires Departing(w0, spells, path, os) && Repointed(w0, w, spells, path, m, i, os, None)
    requires q in w.at && path[..i] <= q && |q| > i && Uses(w, q, ns) && ns != os
    ensures Replaces(w0, spells, w.at, os, ns)
  {
    hide Linked, Reachable, Tagged;
    assert FixedAt(w0, w, path, os, None, i, q);
    assert Sound(w0.nodes, spells, w0.at, {}, q);
    hide OwnedAt;
    forall r | r in w.at && Uses(w0, r, os) ensures r <= spells[ns] {
      if r != [] {
        UsersAreAncestors(w0, spells, path, os, r);
        assert |r| <= i && r == path[..|r|] == path[..i][..|r|];
      }
    }
  }

  function Disowned(nodes: Nodes, cur: NodePtr): Nodes
    requires cur in nodes
  {
    nodes[cur := nodes[cur].(owns := false)]
  }

  function Renamed(nodes: Nodes, n: NodePtr, f: Path, ns: StrPtr): Nodes
    requires n in nodes && f != []
  {
    nodes[n := nodes[n].(filter := Some(ns), topic := SliceFor(f, ns))]
  }

  /** Giving the node at path[..i] the new string. */
  lemma RepointFix(w0: Snap, w: Snap, spells: Spells, path: Path, m: nat, i: nat, os: StrPtr, nf: Option<StrPtr>,
                   ns: StrPtr)
    requires Departing(w0, spells, path, os) && Repointed(w0, w, spells, path, m, i, os, nf) && i > 0
    requires Replaces(w0, spells, w.at, os, ns) && (nf == None || nf == Some(ns))
    requires path[..i] in w.at && w.at[path[..i]] in w.nodes && w.nodes[w.at[path[..i]]].filter == Some(os)
    ensures Repointed(w0, Snap(Renamed(Disowned(w.nodes, w0.at[path]), w.at[path[..i]], path[..i], ns), w.at),
                      spells, path, m, i - 1, os, Some(ns))
    ensures nf.Some? ==> !w.nodes[w0.at[path]].owns
  {
    hide Good, Linked, Reachable, Replaces, Placed;
    var f, cur := path[..i], w0.at[path];
    var w' := Snap(Renamed(Disowned(w.nodes, cur), w.at[f], f, ns), w.at);
    FixLinked(w, cur, f, ns);
    assert FixedAt(w0, w, path, os, nf, i, f);
    UsersAreAncestors(w0, spells, path, os, f);
    RepointedOwner(w0, w, spells, path, m, i, os, nf);
    forall q | q in w.at ensures FixedAt(w0, w', path, os, Some(ns), i - 1, q) {
      assert FixedAt(w0, w, path, os, nf, i, q);
      FixedStep(w0, w, spells, path, m, i, os, nf, ns, q);
    }
    ReachableFix(w.nodes, w'.nodes, w.at, cur);
  }

  lemma ReachableFix(nodes: Nodes, nodes': Nodes, at: Places, cur: NodePtr)
    requires Reachable(nodes, at, {cur}) && nodes'.Keys == nodes.Keys
    ensures Reachable(nodes', at, {cur})
  {
  }

  lemma FixLinked(w: Snap, cur: NodePtr, f: Path, ns: StrPtr)
    requires Linked(w.nodes, w.at, []) && f in w.at && f != [] && cur in w.nodes && w.at[f] in w.nodes
    ensures Linked(Renamed(Disowned(w.nodes, cur), w.at[f], f, ns), w.at, [])
  {
    hide Distinct;
    var nodes := Renamed(Disowned(w.nodes, cur), w.at[f], f, ns);
    forall q | q in w.at ensures Hooked(nodes, w.at, q) {
      assert Hooked(w.nodes, w.at, q);
    }
  }

  /** Once a new string has been found, the node that was subscribed owns none. */
  lemma RepointedOwner(w0: Snap, w: Snap, spells: Spells, path: Path, m: nat, i: nat, os: StrPtr, nf: Option<StrPtr>)
    requires Departing(w0, spells, path, os) && Repointed(w0, w, spells, path, m, i, os, nf)
    ensures nf.Some? ==> !w.nodes[w0.at[path]].owns
    ensures nf.None? && m == |path| ==> i == m
  {
    hide Good, Linked, Reachable, Replaces;
    if m == |path| {
      assert !Gone(path, m, path) && path in w.at;
      assert FixedAt(w0, w, path, os, nf, i, path);
      assert Uses(w0, path, os);
    }
  }

  lemma FixedStep(w0: Snap, w: Snap, spells: Spells, path: Path, m: nat, i: nat, os: StrPtr,
                  nf: Option<StrPtr>, ns: StrPtr, q: Path)
    requires Departing(w0, spells, path, os) && Repointed(w0, w, spells, path, m, i, os, nf) && i > 0
    requires (nf == None || nf == Some(ns)) && q in w.at && FixedAt(w0, w, path, os, nf, i, q)
    requires path[..i] in w.at && w.at[path[..i]] in w.nodes && w.nodes[w.at[path[..i]]].filter == Some(os)
    requires FixedAt(w0, w, path, os, nf, i, path[..i])
    ensures FixedAt(w0, Snap(Renamed(Disowned(w.nodes, w0.at[path]), w.at[path[..i]], path[..i], ns), w.at),
                    path, os, Some(ns), i - 1, q)
  {
    hide Good, Linked, Reachable, Replaces;
    var f, cur := path[..i], w0.at[path];
    if q != f {
      LinkedApart(w.nodes, w.at, q, f);
      if q != path { DepartingApart(w0, spells, path, os, q); }
      if |q| == i && Uses(w0, q, os) { UsersAreAncestors(w0, spells, path, os, q); }
    } else if f != path {
      DepartingApart(w0, spells, path, os, f);
    }
  }

  lemma DepartingApart(w0: Snap, spells: Spells, path: Path, os: StrPtr, q: Path)
    requires Departing(w0, spells, path, os) && q in w0.at && q != path
    ensures w0.at[q] != w0.at[path]
  {
    hide Linked, Sound, Tagged;
    LinkedApart(w0.nodes, w0.at, q, path);
  }

  // ----- the outcome -----

  /** The tree in the end, without the node that was subscribed if that was unhooked. */
  ghost function Outcome(w0: Snap, w: Snap, path: Path, m: nat): Snap
    requires path in w0.at
  {
    Snap(if m < |path| then w.nodes - {w0.at[path]} else w.nodes, w.at)
  }

  lemma OutcomeLinked(w0: Snap, w: Snap, spells: Spells, path: Path, m: nat, os: StrPtr, nf: Option<StrPtr>)
    requires Departing(w0, spells, path, os) && Repointed(w0, w, spells, path, m, 0, os, nf)
    ensures var w' := Outcome(w0, w, path, m);
            && Linked(w'.nodes, w'.at, []) && Reachable(w'.nodes, w'.at, {})
            && forall q | q in w.at :: FixedAt(w0, w', path, os, nf, 0, q)
  {
    hide Good, Linked, Replaces, SameFields, Distinct, Placed;
    var cur, w' := w0.at[path], Outcome(w0, w, path, m);
    assert m < |path| ==> Gone(path, m, path);
    forall q | q in w.at && q != path ensures w.at[q] != cur {
      assert FixedAt(w0, w, path, os, nf, 0, q);
      DepartingApart(w0, spells, path, os, q);
    }
    if m < |path| {
      FreeLinked(w.nodes, w.at, cur);
    } else {
      assert !Gone(path, m, path) && path in w.at;
      assert Placed(w.at, cur) by { assert FixedAt(w0, w, path, os, nf, 0, path); PlacedHere(w.at, path); }
    }
    forall q | q in w.at ensures FixedAt(w0, w', path, os, nf, 0, q) {
      assert FixedAt(w0, w, path, os, nf, 0, q);
    }
  }

  lemma PlacedHere(at: Places, p: Path)
    requires p in at
    ensures Placed(at, at[p])
  {
  }

  /** Every other string keeps its owner. */
  lemma OutcomeOwners(w0: Snap, w: Snap, w': Snap, spells: Spells, path: Path, m: nat, os: StrPtr, nf: Option<StrPtr>,
                      x: StrPtr)
    requires Departing(w0, spells, path, os) && Repointed(w0, w, spells, path, m, 0, os, nf)
    requires w'.at == w.at && forall q | q in w.at :: FixedAt(w0, w', path, os, nf, 0, q)
    requires x in spells && x != os
    ensures OwnedAt(w'.nodes, spells - {os}, w'.at, x) <==> OwnedAt(w0.nodes, spells, w0.at, x)
  {
    hide Good, Linked, Replaces, Reachable;
    var r := spells[x];
    if r in w.at {
      assert FixedAt(w0, w', path, os, nf, 0, r);
      if r != [] && Uses(w0, r, os) { UsersAreAncestors(w0, spells, path, os, r); }
    }
  }

  lemma OutcomeSound(w0: Snap, w: Snap, w': Snap, spells: Spells, path: Path, m: nat, os: StrPtr, nf: Option<StrPtr>,
                     q: Path)
    requires Departing(w0, spells, path, os) && Repointed(w0, w, spells, path, m, 0, os, nf)
    requires w'.at == w.at && forall r | r in w.at :: FixedAt(w0, w', path, os, nf, 0, r)
    requires q in w.at && q != []
    ensures Sound(w'.nodes, spells - {os}, w'.at, {}, q)
  {
    hide Linked, Reachable, Tagged, OwnedAt;
    assert FixedAt(w0, w', path, os, nf, 0, q);
    assert Sound(w0.nodes, spells, w0.at, {}, q);
    if Uses(w0, q, os) {
      OwnedIsLive(w0, spells, nf.value);
      OutcomeOwners(w0, w, w', spells, path, m, os, nf, nf.value);
    } else {
      OutcomeOwners(w0, w, w', spells, path, m, os, nf, w0.nodes[w0.at[q]].filter.value);
    }
  }

  lemma OwnedIsLive(w: Snap, spells: Spells, x: StrPtr)
    requires OwnedAt(w.nodes, spells, w.at, x)
    ensures x in spells
  {
  }

  lemma OutcomeTagged(w0: Snap, w: Snap, w': Snap, spells: Spells, path: Path, m: nat, os: StrPtr, nf: Option<StrPtr>,
                      q: Path)
    requires Departing(w0, spells, path, os) && Repointed(w0, w, spells, path, m, 0, os, nf)
    requires q in w.at && FixedAt(w0, w', path, os, nf, 0, q)
    ensures w'.at[q] in w'.nodes && Tagged(w'.nodes[w'.at[q]], spells - {os}, q)
    ensures q == path ==> !IsSubscription(w'.nodes[w'.at[q]])
    ensures q != path ==> (IsSubscription(w'.nodes[w'.at[q]]) <==> IsSubscription(w0.nodes[w0.at[q]]))
    ensures q != path && IsSubscription(w0.nodes[w0.at[q]]) ==> SubOf(w'.nodes[w'.at[q]]) == SubOf(w0.nodes[w0.at[q]])
  {
    hide Linked, Reachable, Replaces, Sound, FilterPath, OwnedAt;
    assert Tagged(w0.nodes[w0.at[q]], spells, q);
    if q != [] { RepointedRoot(w0, w, spells, path, m, os, nf, q); }
    if q != [] && Uses(w0, q, os) { UsersAreAncestors(w0, spells, path, os, q); }
  }

  /** With every level looked at, a string has been found if any node needed one. */
  lemma RepointedRoot(w0: Snap, w: Snap, spells: Spells, path: Path, m: nat, os: StrPtr, nf: Option<StrPtr>, q: Path)
    requires Departing(w0, spells, path, os) && Repointed(w0, w, spells, path, m, 0, os, nf) && q in w.at && q != []
    ensures Uses(w0, q, os) ==> nf.Some?
    ensures q == path ==> nf.Some?
  {
    hide Good, Linked, Reachable, Replaces;
  }

  lemma OutcomeSubs(w0: Snap, w': Snap, path: Path)
    requires Linked(w0.nodes, w0.at, []) && Linked(w'.nodes, w'.at, [])
    requires forall q | q in w'.at :: q in w0.at && w0.at[q] in w0.nodes && w'.at[q] in w'.nodes
    requires forall q | q in w0.at :: w0.at[q] in w0.nodes
    requires forall q | q in w0.at && w0.at[q] in w0.nodes && IsSubscription(w0.nodes[w0.at[q]]) && q != path ::
             q in w'.at
    requires path in w'.at ==> !IsSubscription(w'.nodes[w'.at[path]])
    requires forall q | q in w'.at && q != path ::
               && (IsSubscription(w'.nodes[w'.at[q]]) <==> IsSubscription(w0.nodes[w0.at[q]]))
               && (IsSubscription(w0.nodes[w0.at[q]]) ==> SubOf(w'.nodes[w'.at[q]]) == SubOf(w0.nodes[w0.at[q]]))
    ensures Subs(w'.nodes, w'.at) == Subs(w0.nodes, w0.at) - {path}
  {
    hide Linked, IsSubscription, SubOf;
  }

  lemma LinkedLive(nodes: Nodes, at: Places)
    requires Linked(nodes, at, [])
    ensures forall q | q in at :: at[q] in nodes
  {
    hide Distinct;
    forall q | q in at ensures at[q] in nodes { assert Hooked(nodes, at, q); }
  }

  /** What a committed remove comes to: a committed tree with one subscription less. */
  lemma Removed(w0: Snap, w: Snap, spells: Spells, path: Path, m: nat, os: StrPtr, nf: Option<StrPtr>,
                held: set<StrPtr>)
    requires Departing(w0, spells, path, os) && Repointed(w0, w, spells, path, m, 0, os, nf)
    requires Accounted(w0.nodes, spells, w0.at, held)
    ensures var w' := Outcome(w0, w, path, m);
            && Good(w'.nodes, spells - {os}, w'.at, {}) && Accounted(w'.nodes, spells - {os}, w'.at, held)
            && Reachable(w'.nodes, w'.at, {})
            && Linked(w0.nodes, w0.at, []) && Subs(w'.nodes, w'.at) == Subs(w0.nodes, w0.at) - {path}
  {
    hide Linked, Reachable, Replaces, Sound, Tagged, OwnedAt, SameFields, IsSubscription, SubOf, Subs;
    var w' := Outcome(w0, w, path, m);
    OutcomeLinked(w0, w, spells, path, m, os, nf);
    forall q | q in w.at && q != [] ensures Sound(w'.nodes, spells - {os}, w'.at, {}, q) {
      OutcomeSound(w0, w, w', spells, path, m, os, nf, q);
    }
    forall q | q in w.at
      ensures q in w0.at && w0.at[q] in w0.nodes && w'.at[q] in w'.nodes && Tagged(w'.nodes[w'.at[q]], spells - {os}, q)
      ensures q == path ==> !IsSubscription(w'.nodes[w'.at[q]])
      ensures q != path ==> (IsSubscription(w'.nodes[w'.at[q]]) <==> IsSubscription(w0.nodes[w0.at[q]]))
      ensures q != path && IsSubscription(w0.nodes[w0.at[q]]) ==> SubOf(w'.nodes[w'.at[q]]) == SubOf(w0.nodes[w0.at[q]])
    {
      assert FixedAt(w0, w', path, os, nf, 0, q);
      OutcomeTagged(w0, w, w', spells, path, m, os, nf, q);
    }
    forall x | x in spells - {os} ensures x in held <==> !OwnedAt(w'.nodes, spells - {os}, w'.at, x) {
      OutcomeOwners(w0, w, w', spells, path, m, os, nf, x);
    }
    forall q | q in w0.at && w0.at[q] in w0.nodes && IsSubscription(w0.nodes[w0.at[q]]) && q != path
      ensures q in w'.at
    {
      TaggedOwns(w0, spells, q);
    }
    LinkedLive(w0.nodes, w0.at);
    OutcomeSubs(w0, w', path);
  }

  lemma TaggedOwns(w: Snap, spells: Spells, q: Path)
    requires Good(w.nodes, spells, w.at, {}) && q in w.at && w.at[q] in w.nodes && IsSubscription(w.nodes[w.at[q]])
    ensures w.nodes[w.at[q]].owns
  {
    hide Linked, Sound;
    assert Tagged(w.nodes[w.at[q]], spells, q);
  }

  // ----- what the loops rely on -----

  /** The nodes from the root down the path, as recorded when the remove began. */
  ghost predicate Trail(at: Places, path: Path, trail: seq<NodePtr>) {
    |trail| == |path| + 1 && forall i | 0 <= i <= |path| :: path[..i] in at && trail[i] == at[path[..i]]
  }

  /** The deepest node that is left, as the pruning loop sees it. */
  lemma PrunedDeepest(w0: Snap, w: Snap, spells: Spells, path: Path, m: nat, trail: seq<NodePtr>)
    requires Good(w0.nodes, spells, w0.at, {}) && Pruned(w0, w, path, m) && m > 0 && Trail(w0.at, path, trail)
    ensures var f := path[..m];
            && f != [] && Parent(f) == path[..m - 1] && f in w.at && Parent(f) in w.at
            && trail[m] == w.at[f] && trail[m - 1] == w.at[Parent(f)] && trail[m] != trail[m - 1]
            && trail[m] in w.nodes && trail[m - 1] in w.nodes
            && Backed(w.nodes[trail[m]], spells, f)
            && (m < |path| && !IsSubscription(w.nodes[trail[m]]) ==>
                !w.nodes[trail[m]].owns && Owes(w.nodes[trail[m]]) == None)
  {
    hide Reachable, OwnedAt, Distinct, Backed, SliceFor;
    var f := path[..m];
    assert path[..m - 1] == Parent(f);
    assert !Gone(path, m, f) && !Gone(path, m, Parent(f));
    assert f in w.at && Parent(f) in w.at;
    assert Hooked(w.nodes, w.at, f) && Hooked(w.nodes, w.at, Parent(f));
    LinkedApart(w.nodes, w.at, f, Parent(f));
    assert Sound(w0.nodes, spells, w0.at, {}, f) && Tagged(w0.nodes[w0.at[f]], spells, f);
    if f != path {
      assert Kept(w0.nodes, w0.at, w.nodes, w.at, f);
      BackedSame(w0.nodes[w0.at[f]], w.nodes[w.at[f]], spells, f);
    } else {
      BackedSame(w0.nodes[w0.at[f]], w0.nodes[w0.at[f]], spells, f);
      BackedSame(Bare(w0.nodes[w0.at[f]]), w.nodes[w.at[f]], spells, f);
    }
    assert m < |path| ==> f != path;
  }

  lemma BackedSame(a: Node, b: Node, spells: Spells, f: Path)
    requires f != [] && (SameFields(a, b) || SameFields(b, a))
    ensures Backed(a, spells, f) <==> Backed(b, spells, f)
    ensures Backed(Bare(a), spells, f) <==> Backed(a, spells, f)
  {
  }

  /** A node without children is a tree of its own. */
  lemma LeafLinked(nodes: Nodes, spells: Spells, f: Path, n: NodePtr)
    requires n in nodes && nodes[n].subtopics == map[]
    ensures Linked(nodes, map[f := n], f) && Subtree(map[f := n], f) == {n}
    ensures forall q | q in map[f := n] :: |q| <= |f| + 0
    ensures OwnedBelow(nodes, map[f := n], f)
            == if nodes[n].owns && nodes[n].filter.Some? then {nodes[n].filter.value} else {}
    ensures var x := nodes[n].filter;
            !nodes[n].owns || (x.Some? && x.value in spells && spells[x.value] == f)
            ==> OwnedOnce(nodes, spells, map[f := n], f)
    ensures Owes(nodes[n]) == None ==> OwesNothing(nodes, map[f := n], f)
  {
    hide Owes;
    var at: Places := map[f := n];
    assert Homes(at, map[n := f]);
    assert f <= f && at[f] == n;
    assert Owned(nodes, at, f) == if nodes[n].owns then nodes[n].filter else None;
    assert Hooked(nodes, at, f);
  }

  ghost predicate AllUse(w: Snap, c: Path, os: StrPtr) {
    forall q | q in w.at && c <= q :: Uses(w, q, os)
  }

  /** Every node strictly below p has a string. */
  ghost predicate Named(w: Snap, p: Path) {
    forall q | q in w.at && p <= q && q != p :: w.at[q] in w.nodes && w.nodes[w.at[q]].filter.Some?
  }

  lemma FinderChild(w: Snap, p: Path, s: string, os: StrPtr, depth: nat)
    requires Linked(w.nodes, w.at, p) && Named(w, p) && w.at[p] in w.nodes && s in w.nodes[w.at[p]].subtopics
    requires forall q | q in w.at :: |q| <= |p| + depth
    ensures var c := Child(p, s);
            && depth > 0 && c in w.at && w.at[c] == w.nodes[w.at[p]].subtopics[s] && w.at[c] in w.nodes
            && w.nodes[w.at[c]].filter.Some? && p <= c && p != c
            && Linked(w.nodes, w.at, c) && Named(w, c)
            && (w.nodes[w.at[c]].subtopics == map[] && Uses(w, c, os) ==> AllUse(w, c, os))
  {
    hide Distinct;
    var c := Child(p, s);
    assert Hooked(w.nodes, w.at, p);
    LinkedBelow(w.nodes, w.at, p, c);
    if w.nodes[w.at[c]].subtopics == map[] {
      assert Hooked(w.nodes, w.at, c);
      forall q | q in w.at && c <= q ensures q == c {
        if q != c {
          Below(c, q);
          PrefixesBelow(w.nodes, w.at, c, Child(c, q[|c|]), q);
        }
      }
    }
  }

  lemma FinderEnd(w: Snap, p: Path, os: StrPtr)
    requires Linked(w.nodes, w.at, p) && w.at[p] in w.nodes
    requires forall s | s in w.nodes[w.at[p]].subtopics :: AllUse(w, Child(p, s), os)
    ensures forall q | q in w.at && p <= q && q != p :: Uses(w, q, os)
  {
    hide Distinct, Uses;
    assert Hooked(w.nodes, w.at, p);
    forall q | q in w.at && p <= q && q != p ensures Uses(w, q, os) {
      Below(p, q);
      PrefixesBelow(w.nodes, w.at, p, Child(p, q[|p|]), q);
      assert AllUse(w, Child(p, q[|p|]), os);
    }
  }

  lemma AllUseFrom(w: Snap, c: Path, os: StrPtr)
    requires Uses(w, c, os) && forall q | q in w.at && c <= q && q != c :: Uses(w, q, os)
    ensures AllUse(w, c, os)
  {
  }

  lemma DeeperFound(w: Snap, p: Path, s: string, found: StrPtr)
    requires exists q :: q in w.at && Child(p, s) <= q && q != Child(p, s) && Uses(w, q, found)
    ensures exists q :: q in w.at && p <= q && q != p && Uses(w, q, found)
  {
    var q :| q in w.at && Child(p, s) <= q && q != Child(p, s) && Uses(w, q, found);
    assert p <= q && q != p;
  }

  /** The level that the repointing loop looks at. */
  lemma RepointedLevel(w0: Snap, w: Snap, spells: Spells, path: Path, m: nat, i: nat, os: StrPtr, nf: Option<StrPtr>,
                       trail: seq<NodePtr>)
    requires Departing(w0, spells, path, os) && Repointed(w0, w, spells, path, m, i, os, nf) && i > 0
    requires Trail(w0.at, path, trail)
    ensures i <= |path| < |trail| && path[..i] in w.at && trail[i] == w.at[path[..i]] && trail[i] in w.nodes
    ensures w.nodes[trail[i]].topic.len == |path[i - 1]| && w.nodes[trail[i]].topic.off == Offset(path, i - 1)
    ensures w0.at[path] in w.nodes && (nf.Some? ==> Replaces(w0, spells, w.at, os, nf.value))
    ensures forall x :: SliceFor(path[..i], x) == Slice(x, Offset(path, i - 1), |path[i - 1]|)
    ensures i > 1 ==> Offset(path, i - 1) == Offset(path, i - 2) + |path[i - 2]| + 1
    ensures i == 1 ==> Offset(path, i - 1) == 0
  {
    hide Linked, Reachable, Replaces, OwnedAt, Tagged;
    var f := path[..i];
    RepointedPath(w0, w, spells, path, m, i, os, nf, i);
    assert FixedAt(w0, w, path, os, nf, i, f);
    assert Sound(w0.nodes, spells, w0.at, {}, f);
    OffsetOfPrefix(f, path, i - 1);
  }

  /** While no new string has been found, the finder can search below the level. */
  lemma FinderReady(w0: Snap, w: Snap, spells: Spells, path: Path, m: nat, i: nat, os: StrPtr)
    requires Departing(w0, spells, path, os) && Repointed(w0, w, spells, path, m, i, os, None)
    requires path[..i] in w.at && w.at[path[..i]] in w.nodes
    ensures Linked(w.nodes, w.at, path[..i]) && Named(w, path[..i])
  {
    hide Reachable, Replaces, OwnedAt, Tagged, Distinct, Hooked;
    LinkedBelow(w.nodes, w.at, [], path[..i]);
    forall q | q in w.at && path[..i] <= q && q != path[..i]
      ensures w.at[q] in w.nodes && w.nodes[w.at[q]].filter.Some?
    {
      assert FixedAt(w0, w, path, os, None, i, q);
      assert Sound(w0.nodes, spells, w0.at, {}, q);
    }
  }

  lemma FoundString(w0: Snap, w: Snap, spells: Spells, path: Path, m: nat, i: nat, os: StrPtr, ns: StrPtr)
    requires Departing(w0, spells, path, os) && Repointed(w0, w, spells, path, m, i, os, None)
    requires i <= |path| && ns != os
    requires exists q :: q in w.at && path[..i] <= q && q != path[..i] && Uses(w, q, ns)
    ensures Replaces(w0, spells, w.at, os, ns)
  {
    hide Departing, Repointed, Uses, Replaces;
    var q :| q in w.at && path[..i] <= q && q != path[..i] && Uses(w, q, ns);
    FoundReplaces(w0, w, spells, path, m, i, os, q, ns);
  }

  lemma FixConserved(w: Snap, cur: NodePtr, n: NodePtr, f: Path, ns: StrPtr, cleaned: seq<Held>,
                     committed: multiset<Held>)
    requires Conserved(w.nodes, cleaned, committed) && cur in w.nodes && n in w.nodes && f != []
    ensures Conserved(Renamed(Disowned(w.nodes, cur), n, f, ns), cleaned, committed)
  {
    hide Conserved;
    ConservedSame(w.nodes, cur, w.nodes[cur].(owns := false), cleaned, committed);
    var nodes := Disowned(w.nodes, cur);
    ConservedSame(nodes, n, nodes[n].(filter := Some(ns), topic := SliceFor(f, ns)), cleaned, committed);
  }

  /** The unhooked node at the end of the repointing. */
  lemma DetachedCurrent(w0: Snap, w: Snap, spells: Spells, path: Path, m: nat, os: StrPtr, nf: Option<StrPtr>)
    requires Departing(w0, spells, path, os) && Repointed(w0, w, spells, path, m, 0, os, nf)
    ensures w0.at[path] in w.nodes
    ensures m < |path| ==>
              var n := w.nodes[w0.at[path]];
              n.subtopics == map[] && n.filter == Some(os) && os in spells && spells[os] == path
                && n.owns == nf.None? && Owes(n) == None
    ensures m == |path| ==> nf.Some?
  {
    hide Good, Linked, Reachable, Replaces;
    if m == |path| {
      assert !Gone(path, m, path) && path in w.at;
      RepointedRoot(w0, w, spells, path, m, os, nf, path);
    }
  }

  /** The node of a subscription, and the string that leaves with it. */
  lemma SubscribedNode(w: Snap, spells: Spells, path: Path)
    requires Good(w.nodes, spells, w.at, {}) && path in Subs(w.nodes, w.at)
    ensures path in w.at && w.at[path] in w.nodes && w.nodes[w.at[path]].filter.Some?
    ensures Departing(w, spells, path, w.nodes[w.at[path]].filter.value)
  {
    hide Sound, OwnedAt;
    assert Hooked(w.nodes, w.at, path) && Tagged(w.nodes[w.at[path]], spells, path);
  }

  lemma PrunedCurrent(w0: Snap, w: Snap, path: Path, m: nat)
    requires Pruned(w0, w, path, m)
    ensures w0.at[path] in w.nodes && w.nodes[w0.at[path]].filter == w0.nodes[w0.at[path]].filter
  {
    hide Linked, Reachable, Kept;
  }

  lemma DepartingGood(w: Snap, spells: Spells, path: Path, os: StrPtr)
    requires Departing(w, spells, path, os)
    ensures Good(w.nodes, spells, w.at, {}) && Linked(w.nodes, w.at, [])
    ensures path in w.at && path != [] && w.at[path] in w.nodes && w.nodes[w.at[path]].filter == Some(os)
            && os in spells
  {
    hide Linked, Sound, Tagged;
  }
}
