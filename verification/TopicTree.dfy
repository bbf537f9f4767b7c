/**
 The subscription topic tree (source/topic_tree.c): transactions of inserts or of
 one remove, commit, roll back, and dispatch of a published topic.
 */
module TopicTrees {
  import opened Options
  import opened Topics
  import opened Matching
  import opened NodeStore
  import opened Pruning

  datatype Mode = Add | Update

  /** topic_tree_action, one constructor for ADD and UPDATE and one for REMOVE. */
  datatype Action =
    | Insert(mode: Mode, node: NodePtr, topic: Option<Slice>, filter: Option<StrPtr>, sub: Sub,
             lastFound: Option<NodePtr>, firstCreated: Option<NodePtr>)
    | Remove(target: Option<NodePtr>, toRemove: seq<NodePtr>)

  /** The filter strings that the actions carry until commit. */
  ghost function HeldBy(acts: seq<Action>): set<StrPtr> {
    set i | 0 <= i < |acts| && acts[i].Insert? && acts[i].filter.Some? :: acts[i].filter.value
  }

  lemma HeldByOne(acts: seq<Action>, i: nat)
    requires i < |acts| && acts[i].Insert? && acts[i].filter.Some?
    ensures acts[i].filter.value in HeldBy(acts)
  {
  }

  lemma HeldByOneMore(acts: seq<Action>, a: Action)
    requires a.Insert?
    ensures HeldBy(acts + [a]) == HeldBy(acts) + (if a.filter.Some? then {a.filter.value} else {})
  {
    var all := acts + [a];
    assert all[|acts|] == a;
    forall x | x in HeldBy(acts) ensures x in HeldBy(all) {
      var i :| 0 <= i < |acts| && acts[i].Insert? && acts[i].filter == Some(x);
      assert all[i] == acts[i];
    }
  }

  ghost predicate SnapOk(w: Snap, spells: Spells, refs: set<StrPtr>, held: set<StrPtr>) {
    && Good(w.nodes, spells, w.at, refs)
    && Accounted(w.nodes, spells, w.at, held)
    && Reachable(w.nodes, w.at, {})
  }

  lemma SnapWithout(w: Snap, spells: Spells, refs: set<StrPtr>, held: set<StrPtr>, str: StrPtr)
    requires SnapOk(w, spells, refs, held) && str in held && str !in refs && str in spells
    ensures SnapOk(w, spells - {str}, refs, held - {str}) && SnapOk(w, spells - {str}, refs, held)
  {
    GoodWithout(w.nodes, spells, w.at, refs, held, str);
  }

  lemma SnapWith(w: Snap, spells: Spells, held: set<StrPtr>, str: StrPtr, path: Path)
    requires SnapOk(w, spells, {}, held) && str !in spells
    ensures SnapOk(w, spells[str := path], {}, held + {str})
  {
    var spells' := spells[str := path];
    forall x | x in spells ensures OwnedAt(w.nodes, spells', w.at, x) <==> OwnedAt(w.nodes, spells, w.at, x) {}
    forall p | p in w.at && p != [] ensures Sound(w.nodes, spells', w.at, {}, p) {
      assert Sound(w.nodes, spells, w.at, {}, p);
    }
    assert !OwnedAt(w.nodes, spells', w.at, str) by {
      if path in w.at && path != [] { assert Sound(w.nodes, spells, w.at, {}, path); }
      assert path in w.at ==> Tagged(w.nodes[w.at[path]], spells, path);
    }
  }

  /** w' is w and a chain of fresh nodes hanging from the one at top. */
  ghost predicate Created(w: Snap, w': Snap, top: Path) {
    && top != [] && top in w'.at && Parent(top) in w'.at && w'.at[Parent(top)] in w'.nodes
    && Cut(w'.nodes, w'.at, top) == w.nodes && CutPlaces(w'.at, top) == w.at
    && forall q | q in w'.at && top <= q :: w'.at[q] in w'.nodes && !w'.nodes[w'.at[q]].owns
  }

  ghost function Grown(w: Snap, p: Path, s: string, n: NodePtr, node: Node): Snap
    requires p in w.at && w.at[p] in w.nodes
  {
    Snap(Grow(w.nodes, w.at[p], s, n, node), w.at[Child(p, s) := n])
  }

  lemma StartCreated(w: Snap, p: Path, s: string, n: NodePtr, node: Node)
    requires Linked(w.nodes, w.at, []) && p in w.at && s !in w.nodes[w.at[p]].subtopics
    requires n !in w.nodes && !node.owns
    ensures Created(w, Grown(w, p, s, n, node), Child(p, s))
    ensures Child(p, s) !in w.at
  {
    var w', f := Grown(w, p, s, n, node), Child(p, s);
    ChildParent(p, s);
    GrowCut(w.nodes, w.at, p, s, n, node);
    assert Hooked(w.nodes, w.at, p);
    forall q | q in w'.at && f <= q ensures w'.at[q] == n {
      if q != f { PrefixesPresent(w.nodes, w.at, f, q); assert false; }
    }
  }

  lemma ExtendCreated(w: Snap, w1: Snap, top: Path, p: Path, s: string, n: NodePtr, node: Node)
    requires Linked(w.nodes, w.at, []) && Linked(w1.nodes, w1.at, []) && Created(w, w1, top)
    requires p in w1.at && top <= p && s !in w1.nodes[w1.at[p]].subtopics
    requires n !in w1.nodes && !node.owns
    ensures Created(w, Grown(w1, p, s, n, node), top)
    ensures Child(p, s) !in w.at
  {
    GrowCutBelow(w1.nodes, w1.at, p, s, n, node, top);
    assert Hooked(w1.nodes, w1.at, p);
  }

  /** An insert has come from w0 to w, where it stands at path p. */
  ghost predicate Growing(w0: Snap, w: Snap, spells: Spells, refs: set<StrPtr>, mode: Mode, top: Path, p: Path) {
    && Good(w.nodes, spells, w.at, refs) && Reachable(w.nodes, w.at, {})
    && Linked(w0.nodes, w0.at, []) && Subs(w.nodes, w.at) == Subs(w0.nodes, w0.at)
    && SameOwners(w0.nodes, w0.at, w.nodes, w.at, spells)
    && (forall q | q in w0.at :: Kept(w0.nodes, w0.at, w.nodes, w.at, q))
    && p in w.at && w.at[p] in w.nodes
    && (mode.Update? ==> w == w0)
    && (mode.Add? ==> Created(w0, w, top) && top <= p && p !in w0.at && w.nodes[w.at[p]].subtopics == map[])
  }

  lemma StartGrowing(w: Snap, spells: Spells, refs: set<StrPtr>)
    requires Good(w.nodes, spells, w.at, refs) && Reachable(w.nodes, w.at, {})
    ensures Growing(w, w, spells, refs, Update, [], [])
  {
    assert Hooked(w.nodes, w.at, []);
    forall q | q in w.at ensures Kept(w.nodes, w.at, w.nodes, w.at, q) { assert Hooked(w.nodes, w.at, q); }
  }

  lemma GrowingHere(w0: Snap, w: Snap, spells: Spells, refs: set<StrPtr>, mode: Mode, top: Path, p: Path, s: string)
    requires Growing(w0, w, spells, refs, mode, top, p)
    ensures p in w.at && w.at[p] in w.nodes
    ensures s in w.nodes[w.at[p]].subtopics <==> Child(p, s) in w.at
    ensures s in w.nodes[w.at[p]].subtopics ==>
              && mode == Update && w.nodes[w.at[p]].subtopics[s] == w.at[Child(p, s)]
              && Growing(w0, w, spells, refs, mode, top, Child(p, s))
    ensures mode == Update ==> w == w0
  {
    assert Hooked(w.nodes, w.at, p);
    if s in w.nodes[w.at[p]].subtopics { assert Hooked(w.nodes, w.at, Child(p, s)); }
  }

  ghost predicate Recorded(at: Places, top: Path, lastFound: Option<NodePtr>, firstCreated: Option<NodePtr>) {
    && top != [] && top in at && Parent(top) in at
    && lastFound == Some(at[Parent(top)]) && firstCreated == Some(at[top])
  }

  lemma RecordedStart(at: Places, p: Path, s: string, n: NodePtr)
    requires p in at
    ensures Recorded(at[Child(p, s) := n], Child(p, s), Some(at[p]), Some(n))
  {
    ChildParent(p, s);
  }

  lemma RecordedKept(at: Places, top: Path, lastFound: Option<NodePtr>, firstCreated: Option<NodePtr>, c: Path,
                     n: NodePtr)
    requires Recorded(at, top, lastFound, firstCreated) && c !in at
    ensures Recorded(at[c := n], top, lastFound, firstCreated)
  {
  }

  lemma GrowingStep(w0: Snap, w: Snap, spells: Spells, refs: set<StrPtr>, mode: Mode, top: Path,
                    p: Path, s: string, n: NodePtr, str: StrPtr)
    requires Growing(w0, w, spells, refs, mode, top, p)
    requires s !in w.nodes[w.at[p]].subtopics && n !in w.nodes
    requires str in refs && str in spells && Child(p, s) <= spells[str]
    ensures Growing(w0, Grown(w, p, s, n, NewNode(Child(p, s), str)), spells, refs, Add,
                    if mode.Update? then Child(p, s) else top, Child(p, s))
  {
    hide Good, Linked, OwnedAt, Reachable, Kept, SameOwners, Created;
    var node := NewNode(Child(p, s), str);
    var w' := Grown(w, p, s, n, node);
    GrowGood(w.nodes, spells, w.at, refs, p, s, n, str);
    GoodIsLinked(w.nodes, spells, w.at, refs);
    if mode == Update {
      StartCreated(w, p, s, n, node);
    } else {
      ExtendCreated(w0, w, top, p, s, n, node);
    }
    KeptTwice(w0, w, w');
    SameOwnersTwice(w0, w, w', spells);
  }

  lemma GoodIsLinked(nodes: Nodes, spells: Spells, at: Places, refs: set<StrPtr>)
    requires Good(nodes, spells, at, refs)
    ensures Linked(nodes, at, [])
  {
  }

  lemma SpelledMore(strings: Strings, str: StrPtr, text: string)
    ensures SpellsOf(strings).Keys == strings.Keys
    ensures SpellsOf(strings[str := text]) == SpellsOf(strings)[str := Split(text)]
  {
  }

  lemma SpelledLess(strings: Strings, str: StrPtr)
    ensures SpellsOf(strings).Keys == strings.Keys
    ensures SpellsOf(strings - {str}) == SpellsOf(strings) - {str}
  {
  }

  lemma SpelledKeys(strings: Strings)
    ensures SpellsOf(strings).Keys == strings.Keys
  {
  }

  lemma DepartingLive(w: Snap, spells: Spells, path: Path, os: StrPtr, strings: Strings)
    requires Departing(w, spells, path, os) && spells == SpellsOf(strings)
    ensures os in strings
  {
    hide Good;
  }

  lemma SpelledOne(strings: Strings, str: StrPtr)
    requires str in strings
    ensures str in SpellsOf(strings) && SpellsOf(strings)[str] == Split(strings[str])
  {
  }

  lemma KeptTwice(w0: Snap, w: Snap, w': Snap)
    requires forall q | q in w0.at :: Kept(w0.nodes, w0.at, w.nodes, w.at, q)
    requires forall q | q in w.at :: Kept(w.nodes, w.at, w'.nodes, w'.at, q)
    ensures forall q | q in w0.at :: Kept(w0.nodes, w0.at, w'.nodes, w'.at, q)
  {
    forall q | q in w0.at ensures Kept(w0.nodes, w0.at, w'.nodes, w'.at, q) {
      assert Kept(w0.nodes, w0.at, w.nodes, w.at, q) && Kept(w.nodes, w.at, w'.nodes, w'.at, q);
    }
  }

  lemma SameOwnersTwice(w0: Snap, w: Snap, w': Snap, spells: Spells)
    requires SameOwners(w0.nodes, w0.at, w.nodes, w.at, spells)
    requires SameOwners(w.nodes, w.at, w'.nodes, w'.at, spells)
    ensures SameOwners(w0.nodes, w0.at, w'.nodes, w'.at, spells)
  {
    forall x ensures OwnedAt(w'.nodes, spells, w'.at, x) <==> OwnedAt(w0.nodes, spells, w0.at, x) {
      assert OwnedAt(w'.nodes, spells, w'.at, x) <==> OwnedAt(w.nodes, spells, w.at, x);
    }
  }

  /** The insert action still describes the node at path. */
  ghost predicate Pending(a: Action, path: Path, w: Snap, spells: Spells) {
    && a.Insert? && FilterPath(path)
    && path in w.at && w.at[path] in w.nodes && a.node == w.at[path]
    && (a.filter.Some? <==> !w.nodes[w.at[path]].owns)
    && (a.filter.Some? ==> a.filter.value in spells && spells[a.filter.value] == path
                           && a.topic == Some(SliceFor(path, a.filter.value)))
    && (a.filter.None? ==> a.topic.None?)
  }

  /** Rolling the action back leads from w' to w: an update did nothing, and an add
      made a subtree, free of subscriptions, whose first node is at top. */
  ghost predicate Undoes(w: Snap, w': Snap, a: Action, top: Path) {
    && a.Insert?
    && (a.mode.Update? ==> w' == w)
    && (a.mode.Add? ==>
          && top != [] && top in w'.at && Parent(top) in w'.at && w'.at[Parent(top)] in w'.nodes
          && a.lastFound == Some(w'.at[Parent(top)]) && a.firstCreated == Some(w'.at[top])
          && Cut(w'.nodes, w'.at, top) == w.nodes && CutPlaces(w'.at, top) == w.at
          && a.filter.Some?
          && forall q | q in w'.at && top <= q :: w'.at[q] in w'.nodes && !w'.nodes[w'.at[q]].owns)
  }

  /** Inserts of distinct filters wait in the tree w. */
  ghost predicate Waiting(w: Snap, spells: Spells, loose: set<StrPtr>, acts: seq<Action>, paths: seq<Path>) {
    && |acts| == |paths|
    && (forall i, j | 0 <= i < j < |paths| :: paths[i] != paths[j])
    && HeldBy(acts) !! loose
    && SnapOk(w, spells, HeldBy(acts), HeldBy(acts) + loose)
    && (forall i | 0 <= i < |acts| :: Pending(acts[i], paths[i], w, spells))
  }

  /** The trees before each action and after the last: each is sound by the strings of
      the actions before it, and each action leads from one to the next. */
  ghost predicate History(trees: seq<Snap>, spells: Spells, loose: set<StrPtr>, root: NodePtr,
                          acts: seq<Action>, tops: seq<Path>)
  {
    && |trees| == |acts| + 1 && |tops| == |acts|
    && (forall i | 0 <= i < |trees| ::
          Stage(trees[i], spells, root, HeldBy(acts[..i]), HeldBy(acts) + loose))
    && (forall i | 0 <= i < |acts| :: Undoes(trees[i], trees[i + 1], acts[i], tops[i]))
  }

  ghost predicate Stage(w: Snap, spells: Spells, root: NodePtr, refs: set<StrPtr>, held: set<StrPtr>) {
    [] in w.at && w.at[[]] == root && SnapOk(w, spells, refs, held)
  }

  lemma PendingKept(a: Action, path: Path, w: Snap, w': Snap, spells: Spells)
    requires Pending(a, path, w, spells) && Kept(w.nodes, w.at, w'.nodes, w'.at, path)
    ensures Pending(a, path, w', spells)
  {
  }

  lemma GrowingIsOk(w0: Snap, w: Snap, spells: Spells, refs: set<StrPtr>, mode: Mode, top: Path, p: Path,
                    held: set<StrPtr>)
    requires Growing(w0, w, spells, refs, mode, top, p)
    requires Accounted(w0.nodes, spells, w0.at, held)
    ensures SnapOk(w, spells, refs, held)
  {
    forall x | x in spells ensures x in held <==> !OwnedAt(w.nodes, spells, w.at, x) {
      assert OwnedAt(w.nodes, spells, w.at, x) <==> OwnedAt(w0.nodes, spells, w0.at, x);
    }
  }

  /** One more insert waits, with its string. */
  lemma WaitingMore(w0: Snap, w: Snap, spells: Spells, loose: set<StrPtr>, acts: seq<Action>, paths: seq<Path>,
                    top: Path, a: Action, path: Path, str: StrPtr)
    requires Waiting(w0, spells, loose, acts, paths) && path !in paths && str in loose
    requires a.Insert? && a.filter == Some(str)
    requires Growing(w0, w, spells, HeldBy(acts) + {str}, a.mode, top, path)
    requires Pending(a, path, w, spells)
    ensures Waiting(w, spells, loose - {str}, acts + [a], paths + [path])
    ensures HeldBy(acts + [a]) + (loose - {str}) == HeldBy(acts) + loose
  {
    hide Growing, Good, Reachable, HeldBy;
    HeldByOneMore(acts, a);
    assert HeldBy(acts) + {str} + (loose - {str}) == HeldBy(acts) + loose;
    GrowingIsOk(w0, w, spells, HeldBy(acts) + {str}, a.mode, top, path, HeldBy(acts) + loose);
    forall i | 0 <= i < |acts| + 1 ensures Pending((acts + [a])[i], (paths + [path])[i], w, spells) {
      if i < |acts| {
        GrowingKeeps(w0, w, spells, HeldBy(acts) + {str}, a.mode, top, path, paths[i]);
        PendingKept(acts[i], paths[i], w0, w, spells);
      }
    }
  }

  lemma GrowingKeeps(w0: Snap, w: Snap, spells: Spells, refs: set<StrPtr>, mode: Mode, top: Path, p: Path, q: Path)
    requires Growing(w0, w, spells, refs, mode, top, p) && q in w0.at
    ensures Kept(w0.nodes, w0.at, w.nodes, w.at, q)
  {
  }

  /** One more insert waits; its node has a string, so the new one is released. */
  lemma WaitingDropped(w: Snap, spells: Spells, loose: set<StrPtr>, acts: seq<Action>, paths: seq<Path>,
                       a: Action, path: Path, str: StrPtr)
    requires Waiting(w, spells, loose, acts, paths) && path !in paths && str in loose && str in spells
    requires a.Insert? && a.filter == None
    requires Pending(a, path, w, spells)
    ensures Waiting(w, spells - {str}, loose - {str}, acts + [a], paths + [path])
    ensures HeldBy(acts + [a]) == HeldBy(acts)
  {
    hide SnapOk, HeldBy;
    HeldByOneMore(acts, a);
    assert HeldBy(acts + [a]) == HeldBy(acts);
    SnapWithout(w, spells, HeldBy(acts), HeldBy(acts) + loose, str);
    assert HeldBy(acts) + loose - {str} == HeldBy(acts) + (loose - {str});
    assert SnapOk(w, spells - {str}, HeldBy(acts + [a]), HeldBy(acts + [a]) + (loose - {str}));
    forall i | 0 <= i < |acts| + 1 ensures Pending((acts + [a])[i], (paths + [path])[i], w, spells - {str}) {
      if i < |acts| && acts[i].filter.Some? { HeldByOne(acts, i); }
    }
  }

  lemma HistoryMore(trees: seq<Snap>, w: Snap, spells: Spells, loose: set<StrPtr>, root: NodePtr,
                    acts: seq<Action>, tops: seq<Path>, loose': set<StrPtr>, a: Action, top: Path)
    requires History(trees, spells, loose, root, acts, tops)
    requires HeldBy(acts + [a]) + loose' == HeldBy(acts) + loose
    requires Stage(w, spells, root, HeldBy(acts + [a]), HeldBy(acts + [a]) + loose')
    requires Undoes(trees[|acts|], w, a, top)
    ensures History(trees + [w], spells, loose', root, acts + [a], tops + [top])
  {
    hide Stage, Undoes, HeldBy;
    var acts', trees' := acts + [a], trees + [w];
    forall i | 0 <= i < |trees'| ensures Stage(trees'[i], spells, root, HeldBy(acts'[..i]), HeldBy(acts') + loose') {
      if i < |trees| {
        assert acts'[..i] == acts[..i];
      } else {
        assert acts'[..i] == acts';
      }
    }
    forall i | 0 <= i < |acts'| ensures Undoes(trees'[i], trees'[i + 1], acts'[i], (tops + [top])[i]) {
    }
  }

  /** Releasing a string that no action holds does not disturb the history. */
  lemma HistoryWithout(trees: seq<Snap>, spells: Spells, loose: set<StrPtr>, root: NodePtr,
                       acts: seq<Action>, tops: seq<Path>, str: StrPtr)
    requires History(trees, spells, loose, root, acts, tops)
    requires str in loose && str !in HeldBy(acts) && str in spells
    ensures History(trees, spells - {str}, loose - {str}, root, acts, tops)
  {
    hide SnapOk, Undoes, HeldBy;
    var held := HeldBy(acts) + loose;
    assert held - {str} == HeldBy(acts) + (loose - {str});
    forall i | 0 <= i < |trees| ensures Stage(trees[i], spells - {str}, root, HeldBy(acts[..i]), held - {str}) {
      HeldByPrefix(acts, i);
      assert Stage(trees[i], spells, root, HeldBy(acts[..i]), held);
      SnapWithout(trees[i], spells, HeldBy(acts[..i]), held, str);
    }
  }

  lemma HeldByPrefix(acts: seq<Action>, i: nat)
    requires i <= |acts|
    ensures HeldBy(acts[..i]) <= HeldBy(acts)
  {
    assert forall j | 0 <= j < i :: acts[..i][j] == acts[j];
  }

  lemma WaitingIsGood(w: Snap, spells: Spells, loose: set<StrPtr>, acts: seq<Action>, paths: seq<Path>, str: StrPtr)
    requires Waiting(w, spells, loose, acts, paths)
    ensures Good(w.nodes, spells, w.at, HeldBy(acts) + {str}) && Reachable(w.nodes, w.at, {})
  {
    hide Good, HeldBy, Pending;
    GoodMono(w.nodes, spells, w.at, HeldBy(acts), HeldBy(acts) + {str});
  }

  /** Where an insert ends: nothing to be seen, and the node owns a string exactly
      when the filter was subscribed. */
  lemma InsertedNode(w0: Snap, w: Snap, spells: Spells, refs: set<StrPtr>, mode: Mode, top: Path, path: Path)
    requires Growing(w0, w, spells, refs, mode, top, path)
    ensures Linked(w0.nodes, w0.at, []) && Linked(w.nodes, w.at, []) && Subs(w.nodes, w.at) == Subs(w0.nodes, w0.at)
    ensures path in w.at && w.at[path] in w.nodes
    ensures w.nodes[w.at[path]].owns <==> path in Subs(w0.nodes, w0.at)
    ensures w.nodes[w.at[path]].owns ==> mode == Update && w == w0
    ensures mode == Update <==> path in w0.at
  {
    assert Tagged(w.nodes[w.at[path]], spells, path);
    assert path in Subs(w.nodes, w.at) <==> IsSubscription(w.nodes[w.at[path]]);
  }

  lemma InsertedHeld(before: seq<Snap>, w0: Snap, w: Snap, spells: Spells, loose: set<StrPtr>, root: NodePtr,
                     acts: seq<Action>, paths: seq<Path>, tops: seq<Path>, a: Action, path: Path, top: Path,
                     str: StrPtr)
    requires Waiting(w0, spells, loose, acts, paths) && path !in paths && str in loose && FilterPath(path)
    requires History(before + [w0], spells, loose, root, acts, tops)
    requires str in spells && spells[str] == path
    requires a.Insert? && a.filter == Some(str) && a.topic == Some(SliceFor(path, str))
    requires Growing(w0, w, spells, HeldBy(acts) + {str}, a.mode, top, path)
    requires path in w.at && w.at[path] in w.nodes && a.node == w.at[path] && !w.nodes[w.at[path]].owns
    requires [] in w.at && w.at[[]] == root
    requires a.mode.Add? ==> Recorded(w.at, top, a.lastFound, a.firstCreated)
    ensures Waiting(w, spells, loose - {str}, acts + [a], paths + [path])
    ensures History(before + [w0] + [w], spells, loose - {str}, root, acts + [a], tops + [top])
  {
    hide Growing, SnapOk, HeldBy, FilterPath, SliceFor, Stage;
    WaitingMore(w0, w, spells, loose, acts, paths, top, a, path, str);
    GrownUndoes(w0, w, spells, HeldBy(acts) + {str}, a, top, path);
    assert Stage(w, spells, root, HeldBy(acts + [a]), HeldBy(acts + [a]) + (loose - {str})) by {
      StageIs(w, spells, root, HeldBy(acts + [a]), HeldBy(acts + [a]) + (loose - {str}));
    }
    HistoryMore(before + [w0], w, spells, loose, root, acts, tops, loose - {str}, a, top);
  }

  lemma StageIs(w: Snap, spells: Spells, root: NodePtr, refs: set<StrPtr>, held: set<StrPtr>)
    requires [] in w.at && w.at[[]] == root && SnapOk(w, spells, refs, held)
    ensures Stage(w, spells, root, refs, held)
  {
  }

  lemma GrownUndoes(w0: Snap, w: Snap, spells: Spells, refs: set<StrPtr>, a: Action, top: Path, path: Path)
    requires a.Insert? && a.filter.Some? && Growing(w0, w, spells, refs, a.mode, top, path)
    requires a.mode.Add? ==> Recorded(w.at, top, a.lastFound, a.firstCreated)
    ensures Undoes(w0, w, a, top)
  {
    hide Good, Linked, Cut, CutPlaces, SameOwners, Kept, Subs;
  }

  lemma InsertedUpdate(before: seq<Snap>, w: Snap, spells: Spells, loose: set<StrPtr>, root: NodePtr,
                       acts: seq<Action>, paths: seq<Path>, tops: seq<Path>, a: Action, path: Path, top: Path,
                       str: StrPtr)
    requires Waiting(w, spells, loose, acts, paths) && path !in paths && str in loose && FilterPath(path)
    requires History(before + [w], spells, loose, root, acts, tops)
    requires str in spells
    requires a.Insert? && a.mode == Update && a.filter == None && a.topic == None
    requires path in w.at && w.at[path] in w.nodes && a.node == w.at[path] && w.nodes[w.at[path]].owns
    requires [] in w.at && w.at[[]] == root
    ensures Waiting(w, spells - {str}, loose - {str}, acts + [a], paths + [path])
    ensures History(before + [w] + [w], spells - {str}, loose - {str}, root, acts + [a], tops + [top])
  {
    hide SnapOk, HeldBy, FilterPath, Stage;
    WaitingDropped(w, spells, loose, acts, paths, a, path, str);
    HistoryWithout(before + [w], spells, loose, root, acts, tops, str);
    assert Stage(w, spells - {str}, root, HeldBy(acts + [a]), HeldBy(acts + [a]) + (loose - {str})) by {
      StageIs(w, spells - {str}, root, HeldBy(acts + [a]), HeldBy(acts + [a]) + (loose - {str}));
    }
    assert Undoes(w, w, a, top);
    HistoryMore(before + [w], w, spells - {str}, loose - {str}, root, acts, tops, loose - {str}, a, top);
  }

  // ----- rolling back -----

  ghost function HeldOf(a: Action): set<StrPtr> {
    if a.Insert? && a.filter.Some? then {a.filter.value} else {}
  }

  /** The strings carried by the actions of one mode. */
  ghost function Carried(acts: seq<Action>, mode: Mode): set<StrPtr> {
    if acts == [] then {}
    else (if acts[0].Insert? && acts[0].mode == mode then HeldOf(acts[0]) else {}) + Carried(acts[1..], mode)
  }

  /** No two actions carry the same string. */
  ghost predicate Apart(acts: seq<Action>) {
    forall i, j | 0 <= i < j < |acts| :: HeldOf(acts[i]) !! HeldOf(acts[j])
  }

  lemma WaitingApart(w: Snap, spells: Spells, loose: set<StrPtr>, acts: seq<Action>, paths: seq<Path>)
    requires Waiting(w, spells, loose, acts, paths)
    ensures Apart(acts) && HeldBy(acts) !! loose && HeldBy(acts) <= spells.Keys
  {
    hide SnapOk;
    forall i, j | 0 <= i < j < |acts| ensures HeldOf(acts[i]) !! HeldOf(acts[j]) {
      assert Pending(acts[i], paths[i], w, spells) && Pending(acts[j], paths[j], w, spells);
    }
    forall x | x in HeldBy(acts) ensures x in spells {
      var i :| 0 <= i < |acts| && acts[i].Insert? && acts[i].filter == Some(x);
      assert Pending(acts[i], paths[i], w, spells);
    }
  }

  lemma HeldByLast(acts: seq<Action>)
    requires |acts| > 0 && acts[|acts| - 1].Insert?
    ensures HeldBy(acts) == HeldBy(acts[..|acts| - 1]) + HeldOf(acts[|acts| - 1])
    ensures Apart(acts) ==> HeldBy(acts[..|acts| - 1]) !! HeldOf(acts[|acts| - 1])
  {
    var n := |acts| - 1;
    assert acts == acts[..n] + [acts[n]];
    HeldByOneMore(acts[..n], acts[n]);
    if Apart(acts) {
      forall x | x in HeldBy(acts[..n]) ensures x !in HeldOf(acts[n]) {
        var i :| 0 <= i < n && acts[..n][i].Insert? && acts[..n][i].filter == Some(x);
        assert HeldOf(acts[i]) !! HeldOf(acts[n]) && x in HeldOf(acts[i]);
      }
    }
  }

  /** Undoing an update forgets the string that it carried. */
  lemma UndoUpdate(trees: seq<Snap>, spells: Spells, loose: set<StrPtr>, root: NodePtr,
                   acts: seq<Action>, tops: seq<Path>)
    requires History(trees, spells, loose, root, acts, tops) && |acts| > 0
    requires acts[|acts| - 1].Insert? && acts[|acts| - 1].mode == Update
    ensures var n := |acts| - 1;
            trees[n + 1] == trees[n]
            && History(trees[..n + 1], spells, loose + HeldOf(acts[n]), root, acts[..n], tops[..n])
  {
    hide Stage, HeldBy, HeldOf, Cut, CutPlaces;
    var n := |acts| - 1;
    HeldByLast(acts);
    assert HeldBy(acts) + loose == HeldBy(acts[..n]) + (loose + HeldOf(acts[n]));
    assert Undoes(trees[n], trees[n + 1], acts[n], tops[n]);
    var trees' := trees[..n + 1];
    forall i | 0 <= i < |trees'|
      ensures Stage(trees'[i], spells, root, HeldBy(acts[..n][..i]), HeldBy(acts[..n]) + (loose + HeldOf(acts[n])))
    {
      assert acts[..n][..i] == acts[..i];
      assert Stage(trees[i], spells, root, HeldBy(acts[..i]), HeldBy(acts) + loose);
    }
    UndoesPrefix(trees, acts, tops);
  }

  lemma UndoesPrefix(trees: seq<Snap>, acts: seq<Action>, tops: seq<Path>)
    requires |trees| == |acts| + 1 && |tops| == |acts| && |acts| > 0
    requires forall i | 0 <= i < |acts| :: Undoes(trees[i], trees[i + 1], acts[i], tops[i])
    ensures var n := |acts| - 1;
            forall i | 0 <= i < n :: Undoes(trees[..n + 1][i], trees[..n + 1][i + 1], acts[..n][i], tops[..n][i])
  {
    hide Undoes;
  }

  /** Undoing an add releases its string. */
  lemma UndoAdd(trees: seq<Snap>, spells: Spells, loose: set<StrPtr>, root: NodePtr,
                acts: seq<Action>, tops: seq<Path>, str: StrPtr)
    requires History(trees, spells, loose, root, acts, tops) && |acts| > 0
    requires acts[|acts| - 1].Insert? && acts[|acts| - 1].filter == Some(str)
    requires Apart(acts) && str !in loose && str in spells
    ensures var n := |acts| - 1; History(trees[..n + 1], spells - {str}, loose, root, acts[..n], tops[..n])
  {
    hide SnapOk, HeldBy, Undoes, Apart;
    var n := |acts| - 1;
    HeldByLast(acts);
    var held := HeldBy(acts) + loose;
    assert held - {str} == HeldBy(acts[..n]) + loose;
    var trees' := trees[..n + 1];
    forall i | 0 <= i < |trees'|
      ensures Stage(trees'[i], spells - {str}, root, HeldBy(acts[..n][..i]), HeldBy(acts[..n]) + loose)
    {
      assert acts[..n][..i] == acts[..i];
      HeldByPrefix(acts[..n], i);
      assert Stage(trees[i], spells, root, HeldBy(acts[..i]), held);
      SnapWithout(trees[i], spells, HeldBy(acts[..i]), held, str);
    }
    UndoesPrefix(trees, acts, tops);
  }

  /** The subtree that an add made, unhooked from the tree, is whole and owes nothing. */
  lemma Unhooked(w: Snap, w': Snap, spells: Spells, refs: set<StrPtr>, a: Action, top: Path)
    requires Good(w'.nodes, spells, w'.at, refs) && Undoes(w, w', a, top) && a.mode == Add
    ensures top != [] && top in w'.at && w'.at[top] in w'.nodes && a.firstCreated == Some(w'.at[top])
    ensures Backed(w'.nodes[w'.at[top]], spells, top)
    ensures Parent(top) in w'.at && w'.at[Parent(top)] in w'.nodes && a.lastFound == Some(w'.at[Parent(top)])
    ensures var parent := w'.at[Parent(top)];
            var nodes := w'.nodes[parent := w'.nodes[parent].(subtopics := w'.nodes[parent].subtopics - {Last(top)})];
            && Linked(nodes, w'.at, top) && OwnedOnce(nodes, spells, w'.at, top)
            && OwnedBelow(nodes, w'.at, top) == {} && OwesNothing(nodes, w'.at, top)
            && nodes - Subtree(w'.at, top) == w.nodes && CutPlaces(w'.at, top) == w.at
  {
    hide OwnedAt, Tagged;
    var at, parent := w'.at, w'.at[Parent(top)];
    var x := w'.nodes[parent].(subtopics := w'.nodes[parent].subtopics - {Last(top)});
    var nodes := w'.nodes[parent := x];
    assert Sound(w'.nodes, spells, at, refs, top);
    forall q | q in at && top <= q
      ensures at[q] in nodes && at[q] != parent && nodes[at[q]] == w'.nodes[at[q]] && !nodes[at[q]].owns
      ensures Owes(nodes[at[q]]) == None && Hooked(nodes, at, q)
    {
      assert Hooked(w'.nodes, at, q) && Tagged(w'.nodes[at[q]], spells, q);
      OtherHomes(at, q, Parent(top));
      TaggedBare(w'.nodes[at[q]], spells, q);
    }
    assert parent !in Subtree(at, top);
    assert nodes - Subtree(at, top) == Cut(w'.nodes, at, top);
  }

  lemma TaggedBare(n: Node, spells: Spells, p: Path)
    requires Tagged(n, spells, p) && !n.owns
    ensures Owes(n) == None
  {
  }

  /** The last action of a history, and what is left of the history without it. */
  ghost predicate Undoable(trees: seq<Snap>, spells: Spells, loose: set<StrPtr>, root: NodePtr,
                           acts: seq<Action>, tops: seq<Path>, k: nat)
  {
    && k <= |acts| && k < |trees| && k <= |tops|
    && History(trees[..k + 1], spells, loose, root, acts[..k], tops[..k])
    && Apart(acts[..k]) && HeldBy(acts[..k]) !! loose && HeldBy(acts[..k]) + loose <= spells.Keys
  }

  lemma LastAction(trees: seq<Snap>, spells: Spells, loose: set<StrPtr>, root: NodePtr,
                   acts: seq<Action>, tops: seq<Path>, k: nat)
    requires Undoable(trees, spells, loose, root, acts, tops, k) && k > 0
    ensures acts[k - 1].Insert? && Undoes(trees[k - 1], trees[k], acts[k - 1], tops[k - 1])
    ensures Good(trees[k].nodes, spells, trees[k].at, HeldBy(acts[..k]))
    ensures [] in trees[k - 1].at && trees[k - 1].at[[]] == root
    ensures acts[k - 1].filter.Some? ==> acts[k - 1].filter.value in spells
    ensures acts[k - 1].mode == Add ==> acts[k - 1].filter.Some?
  {
    hide Good, HeldBy, Apart, Cut, CutPlaces;
    var n := k - 1;
    assert Undoes(trees[..k + 1][n], trees[..k + 1][n + 1], acts[..k][n], tops[..k][n]);
    assert Stage(trees[..k + 1][k], spells, root, HeldBy(acts[..k][..k]), HeldBy(acts[..k]) + loose);
    assert Stage(trees[..k + 1][n], spells, root, HeldBy(acts[..k][..n]), HeldBy(acts[..k]) + loose);
    assert acts[..k][..k] == acts[..k];
    if acts[n].filter.Some? { HeldByOne(acts[..k], n); }
  }

  lemma AfterUndo(trees: seq<Snap>, spells: Spells, loose: set<StrPtr>, root: NodePtr,
                  acts: seq<Action>, tops: seq<Path>, k: nat)
    requires Undoable(trees, spells, loose, root, acts, tops, k) && k > 0 && acts[k - 1].Insert?
    ensures acts[k - 1].mode == Update ==>
              trees[k] == trees[k - 1] && Undoable(trees, spells, loose + HeldOf(acts[k - 1]), root, acts, tops, k - 1)
    ensures acts[k - 1].mode == Add && acts[k - 1].filter.Some? ==>
              Undoable(trees, spells - HeldOf(acts[k - 1]), loose, root, acts, tops, k - 1)
  {
    hide History, HeldBy, Apart;
    var n := k - 1;
    var trees', acts', tops' := trees[..k + 1], acts[..k], tops[..k];
    assert trees'[..k] == trees[..k] && acts'[..n] == acts[..n] && tops'[..n] == tops[..n];
    HeldByLast(acts');
    ApartPrefix(acts', n);
    if acts[n].mode == Update {
      UndoUpdate(trees', spells, loose, root, acts', tops');
    } else if acts[n].filter.Some? {
      UndoAdd(trees', spells, loose, root, acts', tops', acts[n].filter.value);
    }
  }

  lemma StartUndo(before: seq<Snap>, w: Snap, spells: Spells, loose: set<StrPtr>, root: NodePtr,
                  acts: seq<Action>, paths: seq<Path>, tops: seq<Path>)
    requires Waiting(w, spells, loose, acts, paths) && History(before + [w], spells, loose, root, acts, tops)
    requires loose <= spells.Keys
    ensures |before| == |acts| == |tops| && Undoable(before + [w], spells, loose, root, acts, tops, |acts|)
    ensures acts[|acts|..] == [] && Carried([], Add) == {} && Carried([], Update) == {}
  {
    hide Stage, Undoes, HeldBy, Apart, Waiting;
    var trees, n := before + [w], |acts|;
    WaitingApart(w, spells, loose, acts, paths);
    assert trees[..n + 1] == trees && acts[..n] == acts && tops[..n] == tops;
  }

  lemma EndUndo(trees: seq<Snap>, spells: Spells, loose: set<StrPtr>, root: NodePtr, acts: seq<Action>, tops: seq<Path>)
    requires Undoable(trees, spells, loose, root, acts, tops, 0)
    ensures SnapOk(trees[0], spells, {}, loose) && loose <= spells.Keys && acts[0..] == acts
  {
    hide SnapOk;
    assert Stage(trees[..1][0], spells, root, HeldBy(acts[..0][..0]), HeldBy(acts[..0]) + loose);
    assert HeldBy(acts[..0]) == {} && acts[..0][..0] == [] && HeldBy([]) == {};
    assert {} + loose == loose;
  }

  lemma ApartPrefix(acts: seq<Action>, n: nat)
    requires Apart(acts) && n <= |acts|
    ensures Apart(acts[..n])
  {
  }

  lemma CarriedMore(acts: seq<Action>, k: nat, mode: Mode)
    requires k < |acts| && acts[k].Insert?
    ensures Carried(acts[k..], mode) == Carried(acts[k + 1..], mode)
            + (if acts[k].mode == mode then HeldOf(acts[k]) else {})
  {
    assert acts[k..][1..] == acts[k + 1..];
  }

  // ----- committing inserts -----

  /** The node as the commit of an insert leaves it. */
  function Committed(n: Node, a: Action): Node
    requires a.Insert?
  {
    var m := n.(callback := Some(a.sub.callback), cleanup := a.sub.cleanup,
                userdata := a.sub.userdata, qos := a.sub.qos);
    var m := if a.topic.Some? then m.(topic := a.topic.value) else m;
    if a.filter.Some? then m.(filter := a.filter, owns := true) else m
  }

  ghost function CommittedSnap(w: Snap, a: Action): Snap
    requires a.Insert? && a.node in w.nodes
  {
    Snap(w.nodes[a.node := Committed(w.nodes[a.node], a)], w.at)
  }

  lemma CommittedNode(a: Action, path: Path, w: Snap, spells: Spells)
    requires Pending(a, path, w, spells) && Tagged(w.nodes[a.node], spells, path)
    requires Backed(w.nodes[a.node], spells, path)
    ensures var m := Committed(w.nodes[a.node], a);
            && Tagged(m, spells, path) && Backed(m, spells, path) && m.owns && m.subtopics == w.nodes[a.node].subtopics
            && IsSubscription(m) && SubOf(m) == a.sub
            && m.filter == if a.filter.Some? then a.filter else w.nodes[a.node].filter
  {
  }

  lemma HeldByTail(acts: seq<Action>)
    requires |acts| > 0 && acts[0].Insert?
    ensures HeldBy(acts) == HeldBy(acts[1..]) + (if acts[0].filter.Some? then {acts[0].filter.value} else {})
  {
    forall x | x in HeldBy(acts[1..]) ensures x in HeldBy(acts) {
      var i :| 0 <= i < |acts[1..]| && acts[1..][i].Insert? && acts[1..][i].filter == Some(x);
      assert acts[i + 1] == acts[1..][i];
    }
    forall x | x in HeldBy(acts) && acts[0].filter != Some(x) ensures x in HeldBy(acts[1..]) {
      var i :| 0 <= i < |acts| && acts[i].Insert? && acts[i].filter == Some(x);
      assert acts[i] == acts[1..][i - 1];
    }
  }

  /** The strings held by the other actions spell other paths. */
  lemma HeldElsewhere(w: Snap, spells: Spells, loose: set<StrPtr>, acts: seq<Action>, paths: seq<Path>)
    requires Waiting(w, spells, loose, acts, paths) && |acts| > 0
    ensures forall x | x in HeldBy(acts[1..]) :: x in spells && spells[x] != paths[0]
  {
    hide SnapOk;
    forall x | x in HeldBy(acts[1..]) ensures x in spells && spells[x] != paths[0] {
      var i :| 0 <= i < |acts[1..]| && acts[1..][i].Insert? && acts[1..][i].filter == Some(x);
      assert acts[i + 1] == acts[1..][i] && Pending(acts[i + 1], paths[i + 1], w, spells);
    }
  }

  lemma CommittedOwners(w: Snap, spells: Spells, a: Action, path: Path, x: StrPtr)
    requires Linked(w.nodes, w.at, []) && Pending(a, path, w, spells)
    requires w.nodes[a.node].owns ==> w.nodes[a.node].filter.Some?
    ensures var w' := CommittedSnap(w, a);
            OwnedAt(w'.nodes, spells, w'.at, x) <==> OwnedAt(w.nodes, spells, w.at, x) || a.filter == Some(x)
  {
    hide Linked, Distinct;
    var w' := CommittedSnap(w, a);
    if x in spells && spells[x] in w.at && spells[x] != path {
      LinkedOther(w, path, Committed(w.nodes[a.node], a), spells[x]);
    }
  }

  lemma LinkedOther(w: Snap, p: Path, x: Node, q: Path)
    requires Linked(w.nodes, w.at, []) && p in w.at && q in w.at && q != p
    ensures w.at[q] in w.nodes && w.nodes[w.at[p] := x][w.at[q]] == w.nodes[w.at[q]]
  {
    assert Hooked(w.nodes, w.at, q);
    SetOther(w.nodes, w.at, p, x, q);
  }

  lemma CommittedGood(w: Snap, spells: Spells, refs: set<StrPtr>, refs': set<StrPtr>, a: Action, path: Path)
    requires Good(w.nodes, spells, w.at, refs) && Pending(a, path, w, spells)
    requires refs <= refs' + (if a.filter.Some? then {a.filter.value} else {})
    ensures Good(CommittedSnap(w, a).nodes, spells, w.at, refs')
    ensures Subs(CommittedSnap(w, a).nodes, w.at) == Subs(w.nodes, w.at)[path := a.sub]
  {
    hide Linked, OwnedAt, Tagged, Committed, Subs, SliceFor;
    var w' := CommittedSnap(w, a);
    var m := Committed(w.nodes[a.node], a);
    assert Sound(w.nodes, spells, w.at, refs, path);
    CommittedNode(a, path, w, spells);
    SetSubs(w.nodes, w.at, path, m);
    forall q | q in w.at && q != [] ensures Sound(w'.nodes, spells, w.at, refs', q) {
      assert Sound(w.nodes, spells, w.at, refs, q);
      if q != path { LinkedOther(w, path, m, q); }
      CommittedOwners(w, spells, a, path, w'.nodes[w.at[q]].filter.value);
    }
    forall q | q in w.at ensures w.at[q] in w'.nodes && Tagged(w'.nodes[w.at[q]], spells, q) {
      if q != path { LinkedOther(w, path, m, q); }
    }
  }

  /** Committing the first of the waiting inserts. */
  lemma CommitOne(w: Snap, spells: Spells, loose: set<StrPtr>, acts: seq<Action>, paths: seq<Path>)
    requires Waiting(w, spells, loose, acts, paths) && |acts| > 0
    ensures acts[0].Insert? && paths[0] in w.at && acts[0].node == w.at[paths[0]] && acts[0].node in w.nodes
    ensures Waiting(CommittedSnap(w, acts[0]), spells, loose, acts[1..], paths[1..])
    ensures Linked(w.nodes, w.at, []) && Linked(CommittedSnap(w, acts[0]).nodes, w.at, [])
    ensures Subs(CommittedSnap(w, acts[0]).nodes, w.at) == Subs(w.nodes, w.at)[paths[0] := acts[0].sub]
  {
    hide HeldBy, Linked, OwnedAt, Committed, FilterPath, SliceFor, Subs, Sound;
    var a, path := acts[0], paths[0];
    assert Pending(a, path, w, spells);
    HeldByTail(acts);
    HeldElsewhere(w, spells, loose, acts, paths);
    CommittedGood(w, spells, HeldBy(acts), HeldBy(acts[1..]), a, path);
    SetReachable(w.nodes, w.at, path, Committed(w.nodes[a.node], a));
    CommittedAccounts(w, spells, HeldBy(acts) + loose, HeldBy(acts[1..]) + loose, a, path);
    forall i | 0 <= i < |acts[1..]| ensures Pending(acts[1..][i], paths[1..][i], CommittedSnap(w, a), spells) {
      assert Pending(acts[i + 1], paths[i + 1], w, spells);
      LinkedOther(w, path, Committed(w.nodes[a.node], a), paths[i + 1]);
    }
  }

  lemma CommittedAccounts(w: Snap, spells: Spells, held: set<StrPtr>, held': set<StrPtr>, a: Action, path: Path)
    requires Linked(w.nodes, w.at, []) && Accounted(w.nodes, spells, w.at, held) && Pending(a, path, w, spells)
    requires w.nodes[a.node].owns ==> w.nodes[a.node].filter.Some?
    requires held' == if a.filter.Some? then held - {a.filter.value} else held
    ensures Accounted(CommittedSnap(w, a).nodes, spells, w.at, held')
  {
    hide Linked, OwnedAt, Good;
    forall x | x in spells ensures x in held' <==> !OwnedAt(CommittedSnap(w, a).nodes, spells, w.at, x) {
      CommittedOwners(w, spells, a, path, x);
    }
  }

  function OwedBy(sub: Sub): Option<Held> {
    if sub.cleanup.Some? && sub.userdata.Some? then Some((sub.cleanup.value, sub.userdata.value)) else None
  }

  /** The map after all the inserts, and the userdata they put into it. */
  ghost function Applied(subs: map<Path, Sub>, paths: seq<Path>, acts: seq<Action>): map<Path, Sub>
    requires |paths| == |acts|
    decreases acts
  {
    if acts == [] then subs
    else Applied(if acts[0].Insert? then subs[paths[0] := acts[0].sub] else subs, paths[1..], acts[1..])
  }

  ghost function Charges(acts: seq<Action>): multiset<Held> {
    if acts == [] then multiset{}
    else (if acts[0].Insert? then Charge(OwedBy(acts[0].sub)) else multiset{}) + Charges(acts[1..])
  }

  lemma CommittedOwes(n: Node, a: Action)
    requires a.Insert?
    ensures Owes(Committed(n, a)) == OwedBy(a.sub)
  {
  }

  lemma SnapPlaces(w: Snap, a: Action)
    requires a.Insert? && a.node in w.nodes
    ensures CommittedSnap(w, a).at == w.at
  {
  }

  lemma WaitingLinked(w: Snap, spells: Spells, loose: set<StrPtr>, acts: seq<Action>, paths: seq<Path>)
    requires Waiting(w, spells, loose, acts, paths)
    ensures |acts| == |paths| && Linked(w.nodes, w.at, [])
  {
    hide HeldBy, Pending, Linked;
  }

  lemma ValidLinked(w: Snap, spells: Spells, loose: set<StrPtr>)
    requires SnapOk(w, spells, {}, loose)
    ensures Good(w.nodes, spells, w.at, {}) && Linked(w.nodes, w.at, [])
    ensures Accounted(w.nodes, spells, w.at, loose) && Reachable(w.nodes, w.at, {})
  {
    hide Linked;
  }

  /** One level down a path, if the tree goes that far. */
  lemma WalkDown(nodes: Nodes, at: Places, path: Path, i: nat)
    requires Linked(nodes, at, []) && i < |path| && path[..i] in at
    ensures at[path[..i]] in nodes
    ensures path[i] in nodes[at[path[..i]]].subtopics <==> path[..i + 1] in at
    ensures path[..i + 1] in at ==> nodes[at[path[..i]]].subtopics[path[i]] == at[path[..i + 1]]
    ensures path in at ==> path[..i + 1] in at
  {
    hide Distinct;
    assert Hooked(nodes, at, path[..i]);
    assert path[..i + 1] == Child(path[..i], path[i]);
    if path in at { PrefixesPresent(nodes, at, path[..i + 1], path); }
  }

  lemma SpelledBacked(strings: Strings, spells: Spells, n: Node, f: Path)
    requires spells == SpellsOf(strings) && f != [] && Backed(n, spells, f)
    ensures spells.Keys == strings.Keys
    ensures n.topic.str in strings && n.topic.off + n.topic.len <= |strings[n.topic.str]|
    ensures Text(strings, n.topic) == Last(f)
  {
    hide Text, Backed;
    BackedReads(n, strings, f);
  }

  lemma SnapIsOk(w: Snap, spells: Spells, loose: set<StrPtr>)
    requires Good(w.nodes, spells, w.at, {}) && Accounted(w.nodes, spells, w.at, loose) && Reachable(w.nodes, w.at, {})
    ensures SnapOk(w, spells, {}, loose)
  {
  }

  /** The string is released once, by the repointing or with the node. */
  lemma StringGone(s0: Strings, s1: Strings, s2: Strings, os: StrPtr, nf: Option<StrPtr>)
    requires s1 == if nf.Some? then s0 - {os} else s0
    requires s2 == s1 - (if nf.None? then {os} else {})
    ensures s2 == s0 - {os}
  {
  }

  lemma LooseStays(w: Snap, spells: Spells, path: Path, os: StrPtr, loose: set<StrPtr>)
    requires Departing(w, spells, path, os) && Accounted(w.nodes, spells, w.at, loose) && loose <= spells.Keys
    ensures os !in loose && loose <= (spells - {os}).Keys
  {
    hide Good;
    assert OwnedAt(w.nodes, spells, w.at, os);
  }

  lemma RootStays(w0: Snap, w: Snap, spells: Spells, path: Path, m: nat, os: StrPtr, nf: Option<StrPtr>, root: NodePtr)
    requires Repointed(w0, w, spells, path, m, 0, os, nf) && [] in w0.at && w0.at[[]] == root
    ensures [] in w.at && w.at[[]] == root
  {
    hide Linked, Reachable, Replaces;
    assert !Gone(path, m, []);
  }

  lemma OutcomeIs(w0: Snap, w: Snap, w': Snap, path: Path, m: nat)
    requires path in w0.at && w'.at == w.at
    requires w'.nodes == if m < |path| then w.nodes - {w0.at[path]} else w.nodes
    ensures w' == Outcome(w0, w, path, m)
  {
  }

  lemma BareConserved(nodes: Nodes, n: NodePtr, cleaned: seq<Held>, cleaned': seq<Held>, committed: multiset<Held>)
    requires Conserved(nodes, cleaned, committed) && n in nodes
    requires multiset(cleaned') == multiset(cleaned) + Charge(Owes(nodes[n]))
    ensures Conserved(nodes[n := Bare(nodes[n])], cleaned', committed)
  {
    hide Conserved;
    ConservedUpdate(nodes, n, Bare(nodes[n]), cleaned, cleaned', committed, committed);
  }

  /** The map with the filters entered one after the other. */
  ghost function Updated(m: map<Path, Sub>, filters: seq<string>, subs: seq<Sub>): map<Path, Sub>
    requires |filters| == |subs|
    decreases filters
  {
    if filters == [] then m else Updated(m[Split(filters[0]) := subs[0]], filters[1..], subs[1..])
  }

  lemma {:induction false} UpdatedIs(m: map<Path, Sub>, filters: seq<string>, subs: seq<Sub>, paths: seq<Path>,
                                     acts: seq<Action>)
    requires |filters| == |subs| == |paths| == |acts|
    requires forall k | 0 <= k < |acts| :: acts[k].Insert? && acts[k].sub == subs[k] && paths[k] == Split(filters[k])
    ensures Applied(m, paths, acts) == Updated(m, filters, subs)
    decreases filters
  {
    hide Split;
    if filters != [] {
      UpdatedIs(m[paths[0] := subs[0]], filters[1..], subs[1..], paths[1..], acts[1..]);
    }
  }

  /** The userdata that a request puts into the tree. */
  ghost function SubCharges(subs: seq<Sub>): multiset<Held> {
    if subs == [] then multiset{} else Charge(OwedBy(subs[0])) + SubCharges(subs[1..])
  }

  lemma {:induction false} ChargesAre(acts: seq<Action>, subs: seq<Sub>)
    requires |acts| == |subs| && forall k | 0 <= k < |acts| :: acts[k].Insert? && acts[k].sub == subs[k]
    ensures Charges(acts) == SubCharges(subs)
    decreases acts
  {
    hide Charge, OwedBy;
    if acts != [] { ChargesAre(acts[1..], subs[1..]); }
  }

  // ----- strings that a failed request forgets -----

  /** While inserts wait, the nodes are exactly the prefixes of what is subscribed or waits. */
  lemma WaitingPrefixes(w: Snap, spells: Spells, loose: set<StrPtr>, acts: seq<Action>, paths: seq<Path>, p: Path)
    requires Waiting(w, spells, loose, acts, paths) && Linked(w.nodes, w.at, []) && p != []
    ensures p in w.at <==>
              (exists f | f in Subs(w.nodes, w.at) :: p <= f) || (exists j | 0 <= j < |paths| :: p <= paths[j])
  {
    hide Distinct, Hooked, SliceFor;
    if p in w.at {
      assert Sound(w.nodes, spells, w.at, HeldBy(acts), p);
      var x := w.nodes[w.at[p]].filter.value;
      if x in HeldBy(acts) {
        var j :| 0 <= j < |acts| && acts[j].Insert? && acts[j].filter == Some(x);
        assert Pending(acts[j], paths[j], w, spells) && p <= paths[j];
      } else {
        assert Tagged(w.nodes[w.at[spells[x]]], spells, spells[x]);
        assert spells[x] in Subs(w.nodes, w.at);
      }
    }
    if f :| f in Subs(w.nodes, w.at) && p <= f { PrefixesPresent(w.nodes, w.at, p, f); }
    if j :| 0 <= j < |paths| && p <= paths[j] {
      assert Pending(acts[j], paths[j], w, spells);
      PrefixesPresent(w.nodes, w.at, p, paths[j]);
    }
  }

  /** The k-th filter of a request is not subscribed, and begins one that is, or an earlier one of the request. */
  ghost predicate Forgets(m: map<Path, Sub>, filters: seq<string>, k: nat)
    requires k < |filters|
  {
    var p := Split(filters[k]);
    && p !in m
    && ((exists f | f in m :: p <= f) || (exists j | 0 <= j < k :: p <= Split(filters[j])))
  }

  /** How many of the filters from the k-th on do. */
  ghost function ForgottenFrom(m: map<Path, Sub>, filters: seq<string>, k: nat): nat
    requires k <= |filters|
    decreases |filters| - k
  {
    if k == |filters| then 0 else (if Forgets(m, filters, k) then 1 else 0) + ForgottenFrom(m, filters, k + 1)
  }

  lemma {:induction false} NoneForgotten(m: map<Path, Sub>, filters: seq<string>, k: nat)
    requires k <= |filters|
    ensures ForgottenFrom(m, filters, k) == 0 <==> forall i | k <= i < |filters| :: !Forgets(m, filters, i)
    decreases |filters| - k
  {
    hide Forgets;
    if k < |filters| { NoneForgotten(m, filters, k + 1); }
  }

  /** The action carries a string and made no node: rolling it back releases nothing. */
  predicate Drops(a: Action) {
    a.Insert? && a.mode == Update && a.filter.Some?
  }

  lemma ForgetsHere(w: Snap, spells: Spells, loose: set<StrPtr>, acts: seq<Action>, paths: seq<Path>,
                    filters: seq<string>, i: nat)
    requires Waiting(w, spells, loose, acts, paths) && Linked(w.nodes, w.at, []) && i == |paths| < |filters|
    requires forall k | 0 <= k < i :: paths[k] == Split(filters[k])
    ensures var p := Split(filters[i]);
            Forgets(Subs(w.nodes, w.at), filters, i) <==> p in w.at && p !in Subs(w.nodes, w.at)
  {
    hide Waiting, Linked, Subs, Split;
    WaitingPrefixes(w, spells, loose, acts, paths, Split(filters[i]));
    assert forall k | 0 <= k < i :: paths[k] == Split(filters[k]);
  }

  lemma {:induction false} CarriedIn(acts: seq<Action>, k: nat, mode: Mode, x: StrPtr)
    requires k <= |acts| && x in Carried(acts[k..], mode) && forall j | 0 <= j < |acts| :: acts[j].Insert?
    ensures exists j | k <= j < |acts| :: x in HeldOf(acts[j])
    decreases |acts| - k
  {
    if k < |acts| {
      CarriedMore(acts, k, mode);
      if x in Carried(acts[k + 1..], mode) { CarriedIn(acts, k + 1, mode, x); } else { assert x in HeldOf(acts[k]); }
    }
  }

  lemma CarriedHeld(acts: seq<Action>, mode: Mode)
    requires forall j | 0 <= j < |acts| :: acts[j].Insert?
    ensures Carried(acts, mode) <= HeldBy(acts)
  {
    assert acts[0..] == acts;
    forall x | x in Carried(acts, mode) ensures x in HeldBy(acts) {
      CarriedIn(acts, 0, mode, x);
      var j :| 0 <= j < |acts| && x in HeldOf(acts[j]);
      HeldByOne(acts, j);
    }
  }

  lemma {:induction false} CarriedCount(acts: seq<Action>, k: nat, m: map<Path, Sub>, filters: seq<string>)
    requires |acts| == |filters| && k <= |acts| && Apart(acts)
    requires forall j | 0 <= j < |acts| :: acts[j].Insert? && (Drops(acts[j]) <==> Forgets(m, filters, j))
    ensures |Carried(acts[k..], Update)| == ForgottenFrom(m, filters, k)
    decreases |acts| - k
  {
    hide Forgets, Carried;
    if k == |acts| {
      assert acts[k..] == [];
      NothingCarried();
    } else {
      CarriedCount(acts, k + 1, m, filters);
      CarriedMore(acts, k, Update);
      forall x | x in Carried(acts[k + 1..], Update) ensures x !in HeldOf(acts[k]) {
        CarriedIn(acts, k + 1, Update, x);
        var j :| k + 1 <= j < |acts| && x in HeldOf(acts[j]);
        assert HeldOf(acts[k]) !! HeldOf(acts[j]);
      }
      if Drops(acts[k]) {
        assert HeldOf(acts[k]) == {acts[k].filter.value};
      } else {
        assert Carried(acts[k..], Update) == Carried(acts[k + 1..], Update);
      }
    }
  }

  lemma NothingCarried()
    ensures Carried([], Update) == {}
  {
  }

  /** What rolling back a request leaves behind. */
  lemma ForgottenNow(w: Snap, spells: Spells, loose: set<StrPtr>, acts: seq<Action>, paths: seq<Path>,
                     m: map<Path, Sub>, filters: seq<string>)
    requires Waiting(w, spells, loose, acts, paths) && |acts| == |filters|
    requires forall j | 0 <= j < |acts| :: acts[j].Insert? && (Drops(acts[j]) <==> Forgets(m, filters, j))
    ensures |loose + Carried(acts, Update)| == |loose| + ForgottenFrom(m, filters, 0)
    ensures loose + Carried(acts, Update) == loose <==> forall k | 0 <= k < |filters| :: !Forgets(m, filters, k)
  {
    hide Forgets, Carried, ForgottenFrom, Waiting, HeldBy;
    WaitingApart(w, spells, loose, acts, paths);
    CarriedHeld(acts, Update);
    assert acts[0..] == acts;
    CarriedCount(acts, 0, m, filters);
    NoneForgotten(m, filters, 0);
    assert loose !! Carried(acts, Update);
    assert |loose + Carried(acts, Update)| == |loose| + |Carried(acts, Update)|;
  }

  ghost function Elements(s: seq<StrPtr>): set<StrPtr> {
    set x | x in s
  }

  lemma ElementsFrom(s: seq<StrPtr>, i: nat)
    requires i < |s| && forall j, k | 0 <= j < k < |s| :: s[j] != s[k]
    ensures s[i] in Elements(s[i..]) && Elements(s[i..]) - {s[i]} == Elements(s[i + 1..])
  {
    assert s[i..] == [s[i]] + s[i + 1..];
  }

  lemma NoElements()
    ensures Elements([]) == {}
  {
  }

  lemma ElementsIn(s: seq<StrPtr>, i: nat)
    requires i < |s|
    ensures s[i] in Elements(s) && s[i] in Elements(s[i..])
  {
    assert s[i..][0] == s[i];
  }

  lemma AppliedOne(subs: map<Path, Sub>, paths: seq<Path>, acts: seq<Action>)
    requires |paths| == |acts| == 1 && acts[0].Insert?
    ensures Applied(subs, paths, acts) == subs[paths[0] := acts[0].sub]
    ensures Charges(acts) == Charge(OwedBy(acts[0].sub))
  {
    assert acts[1..] == [] && paths[1..] == [];
  }

  /** Releasing the root releases everything: each node, each owned string. */
  lemma CleanUpReady(w: Snap, spells: Spells, loose: set<StrPtr>)
    requires SnapOk(w, spells, {}, loose) && loose <= spells.Keys
    ensures Linked(w.nodes, w.at, []) && OwnedOnce(w.nodes, spells, w.at, [])
    ensures OwnedBelow(w.nodes, w.at, []) <= spells.Keys && spells.Keys - OwnedBelow(w.nodes, w.at, []) == loose
    ensures w.nodes - Subtree(w.at, []) == map[]
  {
    hide Sound, Distinct;
    forall q | q in w.at ensures Tagged(w.nodes[w.at[q]], spells, q) && Hooked(w.nodes, w.at, q) {}
    forall x | x in OwnedBelow(w.nodes, w.at, []) ensures x in spells && x !in loose {
      var q :| q in w.at && Owned(w.nodes, w.at, q) == Some(x);
      assert OwnedAt(w.nodes, spells, w.at, x);
    }
    forall x | x in spells && x !in loose ensures x in OwnedBelow(w.nodes, w.at, []) {
      assert OwnedAt(w.nodes, spells, w.at, x);
      assert Owned(w.nodes, w.at, spells[x]) == Some(x) && [] <= spells[x];
    }
    forall n | n in w.nodes ensures n in Subtree(w.at, []) {
      assert Placed(w.at, n);
      var q :| q in w.at && w.at[q] == n;
      assert [] <= q;
    }
  }

  lemma NothingHeld(cleaned: seq<Held>, committed: multiset<Held>)
    requires Conserved(map[], cleaned, committed)
    ensures multiset(cleaned) == committed
  {
    forall u: Held ensures multiset(cleaned)[u] == committed[u] {
      assert multiset(cleaned)[u] + |Holders(map[], u)| == committed[u];
      assert Holders(map[], u) == {};
    }
  }

  lemma NewRootOk(spells: Spells, loose: set<StrPtr>, cleaned: seq<Held>, committed: multiset<Held>)
    requires spells.Keys == loose && multiset(cleaned) == committed
    ensures var w := Snap(map[0 := ZERO_NODE], map[[] := 0]);
            SnapOk(w, spells, {}, loose) && Linked(w.nodes, w.at, []) && Subs(w.nodes, w.at) == map[]
            && Conserved(w.nodes, cleaned, committed)
  {
    var w := Snap(map[0 := ZERO_NODE], map[[] := 0]);
    forall u: Held ensures Holders(w.nodes, u) == {} {}
    assert Homes(w.at, map[0 := []]) && w.at[[]] == 0;
  }

  lemma NoneWaiting(w: Snap, spells: Spells, loose: set<StrPtr>)
    requires Waiting(w, spells, loose, [], [])
    ensures SnapOk(w, spells, {}, loose)
  {
    hide SnapOk;
    assert HeldBy([]) == {} && {} + loose == loose;
  }

  // ----- dispatch -----

  /** A call of a subscription's callback. */
  datatype Call = Call(callback: Fn, userdata: Option<Userdata>)

  function CallOf(sub: Sub): Call {
    Call(sub.callback, sub.userdata)
  }

  /** The calls go to the subscriptions in want, once each. */
  ghost predicate Delivers(subs: map<Path, Sub>, want: set<Path>, calls: seq<Call>, hits: seq<Path>) {
    && |calls| == |hits|
    && (forall i, j | 0 <= i < j < |hits| :: hits[i] != hits[j])
    && (forall f :: f in hits <==> f in want)
    && (forall i | 0 <= i < |hits| :: hits[i] in subs && calls[i] == CallOf(subs[hits[i]]))
  }

  lemma DeliversNone(subs: map<Path, Sub>)
    ensures Delivers(subs, {}, [], [])
  {
  }

  lemma DeliversOne(subs: map<Path, Sub>, f: Path)
    requires f in subs
    ensures Delivers(subs, {f}, [CallOf(subs[f])], [f])
  {
  }

  lemma DeliversMore(subs: map<Path, Sub>, want: set<Path>, calls: seq<Call>, hits: seq<Path>,
                     want': set<Path>, calls': seq<Call>, hits': seq<Path>)
    requires Delivers(subs, want, calls, hits) && Delivers(subs, want', calls', hits') && want !! want'
    ensures Delivers(subs, want + want', calls + calls', hits + hits')
  {
    var h := hits + hits';
    forall f ensures f in h <==> f in want + want' {}
    forall i, j | 0 <= i < j < |h| ensures h[i] != h[j] {
      if i < |hits| { assert h[i] in want; }
      if j >= |hits| { assert h[j] in want'; }
    }
  }

  lemma PlainLevel(parts: Path, k: nat)
    requires TopicPath(parts) && k < |parts|
    ensures parts[k] != PLUS && parts[k] != HASH
  {
    assert LevelOk(parts[k], false);
    assert '+' in PLUS && '#' in HASH;
  }

  lemma DispatchNode(w: Snap, spells: Spells, p: Path)
    requires Good(w.nodes, spells, w.at, {}) && p in w.at
    ensures w.at[p] in w.nodes && Linked(w.nodes, w.at, [])
    ensures p in Subs(w.nodes, w.at) <==> IsSubscription(w.nodes[w.at[p]])
    ensures p in Subs(w.nodes, w.at) ==>
              CallOf(Subs(w.nodes, w.at)[p]) == Call(w.nodes[w.at[p]].callback.value, w.nodes[w.at[p]].userdata)
  {
    hide Sound, Tagged;
    assert Hooked(w.nodes, w.at, p);
  }

  lemma DispatchChild(w: Snap, spells: Spells, p: Path, s: string, rest: Path)
    requires Good(w.nodes, spells, w.at, {}) && p in w.at && w.at[p] in w.nodes && Linked(w.nodes, w.at, [])
    ensures s in w.nodes[w.at[p]].subtopics <==> Child(p, s) in w.at
    ensures s in w.nodes[w.at[p]].subtopics ==>
              w.nodes[w.at[p]].subtopics[s] == w.at[Child(p, s)] && w.at[Child(p, s)] in w.nodes
    ensures Child(p, s) !in w.at ==>
              Hits(Subs(w.nodes, w.at).Keys, Child(p, s), rest) == {} && Child(p, s) !in Subs(w.nodes, w.at)
  {
    hide Sound, Tagged, Hits;
    assert Hooked(w.nodes, w.at, p);
    if Child(p, s) in w.at {
      assert Hooked(w.nodes, w.at, Child(p, s));
    } else {
      forall f | f in Subs(w.nodes, w.at) ensures !(Child(p, s) <= f) {
        if Child(p, s) <= f { PrefixesPresent(w.nodes, w.at, Child(p, s), f); }
      }
      HitsNowhere(Subs(w.nodes, w.at).Keys, Child(p, s), rest);
    }
  }

  lemma DispatchHash(w: Snap, spells: Spells, p: Path)
    requires Good(w.nodes, spells, w.at, {}) && Child(p, HASH) in w.at && Linked(w.nodes, w.at, [])
    ensures var c := Child(p, HASH);
            && w.at[c] in w.nodes && IsSubscription(w.nodes[w.at[c]]) && w.nodes[w.at[c]].subtopics == map[]
            && c in Subs(w.nodes, w.at)
            && CallOf(Subs(w.nodes, w.at)[c]) == Call(w.nodes[w.at[c]].callback.value, w.nodes[w.at[c]].userdata)
  {
    hide Good;
    ChildParent(p, HASH);
    HashIsLeaf(w.nodes, spells, w.at, Child(p, HASH));
    DispatchNode(w, spells, Child(p, HASH));
  }

  /** Removing a path that the tree only passes through would release the string of a
      filter below it: a node that is not a subscription reads a string that another node, strictly below, owns. */
  lemma InnerStringIsOwnedBelow(w: Snap, spells: Spells, path: Path)
    requires Good(w.nodes, spells, w.at, {}) && path != [] && path in w.at && path !in Subs(w.nodes, w.at)
    ensures w.at[path] in w.nodes && w.nodes[w.at[path]].filter.Some?
    ensures var str := w.nodes[w.at[path]].filter.value;
            str in spells && var f := spells[str];
            path < f && f in w.at && w.at[f] in w.nodes && w.nodes[w.at[f]].owns && w.nodes[w.at[f]].filter == Some(str)
  {
    assert Sound(w.nodes, spells, w.at, {}, path);
    var f := spells[w.nodes[w.at[path]].filter.value];
    assert path <= f;
    assert Tagged(w.nodes[w.at[f]], spells, f);
    assert f in Subs(w.nodes, w.at);
    assert |f| == |path| ==> f == path;
  }

  /** So no tree that still has that filter's node, untouched, is sound once the string is gone. */
  lemma InnerRemoveBreaks(w: Snap, spells: Spells, path: Path, w': Snap, spells': Spells)
    requires Good(w.nodes, spells, w.at, {}) && path != [] && path in w.at && path !in Subs(w.nodes, w.at)
    requires var n := w.nodes[w.at[path]];
             n.filter.Some? && n.filter.value in spells && n.filter.value !in spells'
             && var f := spells[n.filter.value];
                f in w.at && w.at[f] in w.nodes && f in w'.at && w'.at[f] in w'.nodes
                  && w'.nodes[w'.at[f]] == w.nodes[w.at[f]]
    ensures !Good(w'.nodes, spells', w'.at, {})
  {
    InnerStringIsOwnedBelow(w, spells, path);
    var f := spells[w.nodes[w.at[path]].filter.value];
    assert !Tagged(w'.nodes[w'.at[f]], spells', f);
  }

  lemma NotOkWhenBad(w: Snap, spells: Spells, refs: set<StrPtr>, held: set<StrPtr>)
    requires !Good(w.nodes, spells, w.at, refs)
    ensures !SnapOk(w, spells, refs, held)
  {
    hide Good;
  }

  /** What removing a node that the tree passes through sees at that node. */
  lemma InnerNode(w: Snap, spells: Spells, path: Path, f: Path)
    requires Good(w.nodes, spells, w.at, {}) && path != [] && path in w.at && path !in Subs(w.nodes, w.at)
    requires path < f && f in w.at
    ensures w.at[path] in w.nodes && w.nodes[w.at[path]].subtopics != map[]
    ensures var n := w.nodes[w.at[path]]; n.(callback := None, cleanup := None, userdata := None) == n
    ensures Linked(w.nodes, w.at, path) && Named(w, path)
  {
    hide Distinct;
    assert Tagged(w.nodes[w.at[path]], spells, path);
    var c := f[..|path| + 1];
    PrefixesPresent(w.nodes, w.at, c, f);
    assert c == Child(path, f[|path|]);
    assert Hooked(w.nodes, w.at, path);
    LinkedBelow(w.nodes, w.at, [], path);
    forall q | q in w.at && path <= q && q != path ensures w.at[q] in w.nodes && w.nodes[w.at[q]].filter.Some? {
      assert Sound(w.nodes, spells, w.at, {}, q);
    }
  }

  lemma TrailApart(w: Snap, path: Path, trail: seq<NodePtr>)
    requires Linked(w.nodes, w.at, []) && Trail(w.at, path, trail)
    ensures forall k | 0 <= k <= |path| :: trail[k] in w.nodes
    ensures forall j, k | 0 <= j < k <= |path| :: trail[j] != trail[k]
  {
    hide Distinct;
    forall k | 0 <= k <= |path| ensures trail[k] in w.nodes { assert Hooked(w.nodes, w.at, path[..k]); }
    forall j, k | 0 <= j < k <= |path| ensures trail[j] != trail[k] {
      assert |path[..j]| != |path[..k]|;
      LinkedApart(w.nodes, w.at, path[..j], path[..k]);
    }
  }

  /** And at each level of its path. */
  lemma InnerLevel(w: Snap, spells: Spells, path: Path, f: Path, i: nat)
    requires Good(w.nodes, spells, w.at, {}) && 0 < i <= |path| && path < f && f in w.at && path in w.at
    ensures path[..i] in w.at && w.at[path[..i]] in w.nodes && w.at[path[..i]] != w.at[f]
    ensures i < |path| ==> w.at[path[..i]] != w.at[path]
    ensures var n := w.nodes[w.at[path[..i]]]; n.topic.len == |path[i - 1]| && n.topic.off == Offset(path, i - 1)
    ensures i > 1 ==> Offset(path, i - 1) == Offset(path, i - 2) + |path[i - 2]| + 1
    ensures i == 1 ==> Offset(path, i - 1) == 0
  {
    hide Distinct;
    var q := path[..i];
    PrefixesPresent(w.nodes, w.at, q, path);
    assert Sound(w.nodes, spells, w.at, {}, q);
    LinkedApart(w.nodes, w.at, q, f);
    if i < |path| { LinkedApart(w.nodes, w.at, q, path); }
    OffsetOfPrefix(q, path, i - 1);
  }

  class Transaction {
    var actions: seq<Action>
    ghost var paths: seq<Path>
    ghost var tops: seq<Path>
    ghost var before: seq<Snap>

    constructor ()
      ensures actions == [] && paths == [] && tops == [] && before == []
    {
      actions := [];
      paths, tops, before := [], [], [];
    }
  }

  class TopicTree {
    var root: NodePtr
    var nodes: Nodes
    var strings: Strings
    var cleaned: seq<Held>                 // cleanup calls made, oldest first
    ghost var at: Places                   // where each node is
    ghost var loose: set<StrPtr>           // strings of the caller, not handed over yet, or forgotten
    ghost var committed: multiset<Held>    // userdata that commits have put into nodes

    ghost function Now(): Snap
      reads this
    {
      Snap(nodes, at)
    }

    ghost function Spelled(): Spells
      reads this
    {
      SpellsOf(strings)
    }

    ghost predicate Books()
      reads this
    {
      && [] in at && at[[]] == root
      && loose <= strings.Keys
      && Conserved(nodes, cleaned, committed)
    }

    /** A committed state. */
    ghost predicate Valid()
      reads this
    {
      Books() && SnapOk(Now(), Spelled(), {}, loose)
    }

    /** The subscriptions that the tree stands for. */
    ghost function Contents(): map<Path, Sub>
      requires Linked(nodes, at, [])
      reads this
    {
      Subs(nodes, at)
    }

    /** Each userdata that was committed is held by one subscription or has been cleaned. */
    lemma BooksAre()
      requires Valid() && Linked(nodes, at, [])
      ensures forall u: Held :: multiset(cleaned)[u] + |HeldIn(Contents(), u)| == committed[u]
    {
      hide SnapOk, Linked, HeldIn, Holders;
      forall u: Held ensures multiset(cleaned)[u] + |HeldIn(Contents(), u)| == committed[u] {
        HoldersAreSubs(Now(), Spelled(), loose, u);
      }
    }

    lemma ContentsAre()
      requires Linked(nodes, at, [])
      ensures Contents() == Subs(nodes, at)
    {
    }

    /** A state in which inserts of distinct filters wait for commit or roll back. */
    ghost predicate Open(tr: Transaction)
      reads this, tr
    {
      && Books()
      && Waiting(Now(), Spelled(), loose, tr.actions, tr.paths)
      && History(tr.before + [Now()], Spelled(), loose, root, tr.actions, tr.tops)
    }

    constructor ()
      ensures Valid() && Contents() == map[] && strings == map[] && cleaned == [] && committed == multiset{}
      ensures loose == {}
    {
      root := 0;
      nodes := map[0 := ZERO_NODE];
      strings := map[];
      cleaned := [];
      at, loose, committed := map[[] := 0], {}, multiset{};
      new;
      forall u: Held ensures Holders(nodes, u) == {} {}
      assert Homes(at, map[0 := []]) && at[[]] == 0;
    }

    /** aws_string_new_from_array, by which callers obtain the string they hand over. */
    method NewString(text: string) returns (str: StrPtr)
      requires Valid()
      modifies this
      ensures Valid()
      ensures str !in old(strings) && strings == old(strings)[str := text] && loose == old(loose) + {str}
      ensures nodes == old(nodes) && at == old(at) && cleaned == old(cleaned) && committed == old(committed)
    {
      hide SnapOk, Conserved, SpellsOf, Split;
      str := Unused(strings.Keys);
      SpelledMore(strings, str, text);
      SnapWith(Now(), Spelled(), loose, str, Split(text));
      strings := strings[str := text];
      loose := loose + {str};
    }

    /** aws_string_destroy: only of a string that is still there. */
    method DestroyString(str: StrPtr)
      requires str in strings
      modifies this`strings
      ensures strings == old(strings) - {str}
    {
      strings := strings - {str};
    }

    /** The loop of an insert: walk the levels of the filter, and from the first
        level that is missing on make a node for each. */
    method FindOrCreate(str: StrPtr, parts: Path, ghost spells: Spells, ghost refs: set<StrPtr>)
      returns (mode: Mode, current: NodePtr, lastFound: Option<NodePtr>, firstCreated: Option<NodePtr>, ghost top: Path)
      requires [] in at && at[[]] == root && Conserved(nodes, cleaned, committed)
      requires str in spells && str in refs && parts == spells[str]
      requires Good(nodes, spells, at, refs) && Reachable(nodes, at, {})
      modifies this`nodes, this`at
      ensures [] in at && at[[]] == root && Conserved(nodes, cleaned, committed)
      ensures Growing(old(Now()), Now(), spells, refs, mode, top, parts)
      ensures parts in at && current == at[parts]
      ensures mode.Add? ==> Recorded(at, top, lastFound, firstCreated)
    {
      hide Growing, Good, Reachable, Conserved, SliceFor, Recorded, Grow;
      mode, current, lastFound, firstCreated := Update, root, None, None;
      top := [];
      ghost var w0 := Now();
      var i := 0;
      assert parts[..0] == [];
      StartGrowing(w0, spells, refs);
      while i < |parts|
        invariant 0 <= i <= |parts|
        invariant [] in at && at[[]] == root && Conserved(nodes, cleaned, committed)
        invariant Growing(w0, Now(), spells, refs, mode, top, parts[..i])
        invariant parts[..i] in at && current == at[parts[..i]]
        invariant mode.Add? ==> Recorded(at, top, lastFound, firstCreated)
      {
        ghost var p := parts[..i];
        var part := parts[i];
        assert parts[..i + 1] == Child(p, part);
        GrowingHere(w0, Now(), spells, refs, mode, top, p, part);
        if part in nodes[current].subtopics {
          assert mode == Update;
          current := nodes[current].subtopics[part];
        } else {
          if mode == Update { lastFound := Some(current); }
          var n := Unused(nodes.Keys);
          var node := NewNode(parts[..i + 1], str);
          GrowingStep(w0, Now(), spells, refs, mode, top, p, part, n, str);
          ConservedGrow(nodes, current, part, n, node, cleaned, committed);
          assert Child(p, part) !in at;
          if mode == Update {
            RecordedStart(at, p, part, n);
          } else {
            RecordedKept(at, top, lastFound, firstCreated, Child(p, part), n);
          }
          nodes := Grow(nodes, current, part, n, node);
          at := at[Child(p, part) := n];
          current := n;
          if mode == Update {
            mode, firstCreated := Add, Some(n);
            top := Child(p, part);
          }
        }
        i := i + 1;
      }
      assert parts[..|parts|] == parts;
    }

    /** The end of an insert: the action takes the string, unless the node has one, in which case it is released. */
    method MakeAction(tr: Transaction, str: StrPtr, parts: Path, sub: Sub, mode: Mode, current: NodePtr,
                      lastFound: Option<NodePtr>, firstCreated: Option<NodePtr>,
                      ghost w0: Snap, ghost spells: Spells, ghost path: Path, ghost top: Path)
      returns (action: Action)
      requires str in strings && spells == Spelled() && str in spells && spells[str] == path == parts && path != []
      requires Waiting(w0, spells, loose, tr.actions, tr.paths) && path !in tr.paths && str in loose && FilterPath(path)
      requires History(tr.before + [w0], spells, loose, root, tr.actions, tr.tops)
      requires Growing(w0, Now(), spells, HeldBy(tr.actions) + {str}, mode, top, path)
      requires path in at && current == at[path] && current in nodes && [] in at && at[[]] == root
      requires nodes[current].owns ==> mode == Update && Now() == w0
      requires mode.Add? ==> Recorded(at, top, lastFound, firstCreated)
      modifies this`strings
      ensures action.Insert? && action.mode == mode && action.sub == sub
      ensures action.filter == if nodes[current].owns then None else Some(str)
      ensures strings == if nodes[current].owns then old(strings) - {str} else old(strings)
      ensures Waiting(Now(), Spelled(), loose - {str}, tr.actions + [action], tr.paths + [path])
      ensures History(tr.before + [w0] + [Now()], Spelled(), loose - {str}, root,
                      tr.actions + [action], tr.tops + [top])
    {
      hide Waiting, History, Growing, SpellsOf, HeldBy, FilterPath, SliceFor, Recorded;
      SpelledLess(strings, str);
      if nodes[current].owns {
        action := Insert(mode, current, None, None, sub, lastFound, firstCreated);
        InsertedUpdate(tr.before, w0, spells, loose, root, tr.actions, tr.paths, tr.tops, action, path, top, str);
        DestroyString(str);
      } else {
        action := Insert(mode, current, Some(SliceFor(parts, str)), Some(str), sub, lastFound, firstCreated);
        InsertedHeld(tr.before, w0, Now(), spells, loose, root, tr.actions, tr.paths, tr.tops, action, path, top, str);
      }
    }

    /** aws_mqtt_topic_tree_transaction_insert: the tree shows nothing of it yet, but the
        node is there and the action has, or has released, the string. */
    method TransactionInsert(tr: Transaction, str: StrPtr, sub: Sub)
      requires Open(tr) && str in loose
      requires FilterPath(Split(strings[str])) && Split(strings[str]) !in tr.paths
      modifies this, tr
      ensures Open(tr)
      ensures tr.paths == old(tr.paths) + [Split(old(strings)[str])]
      ensures tr.before == old(tr.before) + [old(Now())]
      ensures |tr.actions| == |old(tr.actions)| + 1 && tr.actions[..|old(tr.actions)|] == old(tr.actions)
      ensures old(Linked(nodes, at, []))
      ensures var a := tr.actions[|old(tr.actions)|];
              && a.Insert? && a.sub == sub
              && (a.mode == Update <==> Split(old(strings)[str]) in old(at))
              && a.filter == if Split(old(strings)[str]) in old(Contents()) then None else Some(str)
      ensures Linked(nodes, at, []) && Contents() == old(Contents())
      ensures cleaned == old(cleaned) && committed == old(committed) && root == old(root)
      ensures loose == old(loose) - {str}
      ensures strings == if Split(old(strings)[str]) in old(Contents()) then old(strings) - {str} else old(strings)
    {
      hide Waiting, History, Growing, Good, SnapOk, Linked, Reachable, Conserved, SpellsOf, Split, HeldBy, Subs,
           FilterPath, SliceFor, Recorded;
      SpelledOne(strings, str);
      ghost var spells, refs, w0, path := Spelled(), HeldBy(tr.actions) + {str}, Now(), Split(strings[str]);
      WaitingIsGood(w0, spells, loose, tr.actions, tr.paths, str);
      var parts := Split(strings[str]);
      ghost var top;
      var mode, current, lastFound, firstCreated;
      mode, current, lastFound, firstCreated, top := FindOrCreate(str, parts, spells, refs);
      InsertedNode(w0, Now(), spells, refs, mode, top, path);
      var action := MakeAction(tr, str, parts, sub, mode, current, lastFound, firstCreated, w0, spells, path, top);
      loose := loose - {str};
      tr.actions := tr.actions + [action];
      tr.paths, tr.tops, tr.before := tr.paths + [path], tr.tops + [top], tr.before + [w0];
    }

    /** s_topic_node_destroy: children first, then the userdata, the string and the node. */
    method DestroyNode(node: NodePtr, ghost places: Places, ghost p: Path, ghost depth: nat, ghost spells: Spells)
      requires Linked(nodes, places, p) && node == places[p]
      requires forall q | q in places :: |q| <= |p| + depth
      requires OwnedOnce(nodes, spells, places, p) && OwnedBelow(nodes, places, p) <= strings.Keys <= spells.Keys
      requires Conserved(nodes, cleaned, committed)
      modifies this`nodes, this`strings, this`cleaned
      ensures nodes == old(nodes) - Subtree(places, p)
      ensures strings == old(strings) - OwnedBelow(old(nodes), places, p)
      ensures Conserved(nodes, cleaned, committed)
      ensures OwesNothing(old(nodes), places, p) ==> cleaned == old(cleaned)
      decreases depth, 1
    {
      hide Linked, Conserved, OwnedOnce, OwnedBelow, Owes, OwesNothing, Partly, PartlyFreed, Subtree;
      ghost var n0, s0 := nodes, strings;
      DestroyChildren(node, places, p, depth, spells);
      DestroyedAll(n0, nodes, s0, strings, spells, places, p);
      ghost var before := cleaned;
      if nodes[node].cleanup.Some? && nodes[node].userdata.Some? {
        cleaned := cleaned + [(nodes[node].cleanup.value, nodes[node].userdata.value)];
      }
      OwesCharge(nodes[node], before, cleaned);
      ConservedFree(nodes, node, before, cleaned, committed);
      if nodes[node].owns {
        DestroyString(nodes[node].filter.value);
      }
      nodes := nodes - {node};
    }

    /** The traversal of the table of children, which empties it as it goes. */
    method DestroyChildren(node: NodePtr, ghost places: Places, ghost p: Path, ghost depth: nat, ghost spells: Spells)
      requires Linked(nodes, places, p) && node == places[p]
      requires forall q | q in places :: |q| <= |p| + depth
      requires OwnedOnce(nodes, spells, places, p) && OwnedBelow(nodes, places, p) <= strings.Keys <= spells.Keys
      requires Conserved(nodes, cleaned, committed)
      modifies this`nodes, this`strings, this`cleaned
      ensures Partly(old(nodes), nodes, places, p, {}) && PartlyFreed(old(nodes), old(strings), strings, places, p, {})
      ensures Conserved(nodes, cleaned, committed)
      ensures OwesNothing(old(nodes), places, p) ==> cleaned == old(cleaned)
      decreases depth, 0
    {
      hide Linked, Conserved, OwnedOnce, OwnedBelow, Owes, OwesNothing, Partly, PartlyFreed, Subtree;
      ghost var n0, s0 := nodes, strings;
      DestroyStart(n0, s0, places, p);
      ghost var left := nodes[node].subtopics.Keys;
      while nodes[node].subtopics != map[]
        invariant Partly(n0, nodes, places, p, left) && PartlyFreed(n0, s0, strings, places, p, left)
        invariant node in nodes && left == nodes[node].subtopics.Keys
        invariant Conserved(nodes, cleaned, committed)
        invariant OwesNothing(n0, places, p) ==> cleaned == old(cleaned)
        decreases left
      {
        var s :| s in nodes[node].subtopics;
        DestroyChild(n0, nodes, s0, strings, spells, places, p, left, s, depth);
        ghost var n1, s1 := nodes, strings;
        DestroyNode(nodes[node].subtopics[s], places, Child(p, s), depth - 1, spells);
        FreeStep(n0, n1, s0, s1, places, p, left, s);
        DestroyedChild(n0, n1, nodes, places, p, left, s);
        ConservedUnhook(nodes, node, s, cleaned, committed);
        nodes := nodes[node := nodes[node].(subtopics := nodes[node].subtopics - {s})];
        left := left - {s};
      }
      assert left == {};
    }

    /** s_topic_tree_action_roll_back of an add. */
    method RollBackAdd(a: Action, ghost w: Snap, ghost top: Path, ghost refs: set<StrPtr>)
      requires a.Insert? && a.mode == Add && a.filter.Some? && a.filter.value in strings
      requires Undoes(w, Now(), a, top) && Good(nodes, Spelled(), at, refs) && Conserved(nodes, cleaned, committed)
      modifies this`nodes, this`strings, this`cleaned, this`at
      ensures Now() == w && strings == old(strings) - {a.filter.value}
      ensures cleaned == old(cleaned) && Conserved(nodes, cleaned, committed)
    {
      hide Undoes, Good, Linked, Conserved, Backed, OwnedOnce, OwnedBelow, OwesNothing, Subtree, CutPlaces, SpellsOf,
           Text;
      ghost var spells := Spelled();
      Unhooked(w, Now(), spells, refs, a, top);
      BackedReads(nodes[at[top]], strings, top);
      SpelledLess(strings, a.filter.value);
      ghost var depth := DepthBound(at.Keys);
      var first, last := a.firstCreated.value, a.lastFound.value;
      var key := Text(strings, nodes[first].topic);
      ConservedUnhook(nodes, last, key, cleaned, committed);
      nodes := nodes[last := nodes[last].(subtopics := nodes[last].subtopics - {key})];
      DestroyNode(first, at, top, depth, spells);
      at := CutPlaces(at, top);
      if a.filter.Some? {
        DestroyString(a.filter.value);
      }
    }

    /** The roll back of waiting inserts: undone in reverse order, they leave every node exactly
        as it was. A string is released when its insert made nodes; an insert that found the node
        there forgets its string. */
    method RollBackInserts(tr: Transaction)
      requires Open(tr)
      modifies this, tr
      ensures Valid() && tr.actions == []
      ensures Now() == (old(tr.before) + [old(Now())])[0]
      ensures cleaned == old(cleaned) && committed == old(committed) && root == old(root)
      ensures strings == old(strings) - Carried(old(tr.actions), Add)
      ensures loose == old(loose) + Carried(old(tr.actions), Update)
    {
      hide History, Waiting, SnapOk, Good, Linked, Conserved, SpellsOf, HeldBy, Undoes, Carried, Undoable;
      SpelledKeys(strings);
      StartUndo(tr.before, Now(), Spelled(), loose, root, tr.actions, tr.paths, tr.tops);
      ghost var trees := tr.before + [Now()];
      var acts := tr.actions;
      var k := |acts|;
      while k > 0
        invariant 0 <= k <= |acts| < |trees|
        invariant unchanged(tr) && root == old(root) && committed == old(committed)
        invariant [] in at && at[[]] == root && Conserved(nodes, cleaned, committed) && cleaned == old(cleaned)
        invariant Undoable(trees, Spelled(), loose, root, acts, tr.tops, k) && Now() == trees[k]
        invariant strings == old(strings) - Carried(acts[k..], Add)
        invariant loose == old(loose) + Carried(acts[k..], Update)
      {
        LastAction(trees, Spelled(), loose, root, acts, tr.tops, k);
        AfterUndo(trees, Spelled(), loose, root, acts, tr.tops, k);
        CarriedMore(acts, k - 1, Add);
        CarriedMore(acts, k - 1, Update);
        SpelledKeys(strings);
        k := k - 1;
        var action := acts[k];
        if action.mode == Add {
          SpelledLess(strings, action.filter.value);
          RollBackAdd(action, trees[k], tr.tops[k], HeldBy(acts[..k + 1]));
        } else {
          loose := loose + HeldOf(action);
        }
      }
      EndUndo(trees, Spelled(), loose, root, acts, tr.tops);
      SpelledKeys(strings);
      tr.actions := [];
      tr.paths, tr.tops, tr.before := [], [], [];
    }

    /** s_topic_tree_action_commit of an add or an update. */
    method CommitInsert(a: Action)
      requires a.Insert? && a.node in nodes && Conserved(nodes, cleaned, committed)
      modifies this`nodes, this`cleaned, this`committed
      ensures Now() == CommittedSnap(old(Now()), a)
      ensures var owed := Owes(old(nodes)[a.node]);
              cleaned == old(cleaned) + (if owed.Some? then [owed.value] else [])
      ensures Conserved(nodes, cleaned, committed) && committed == old(committed) + Charge(OwedBy(a.sub))
    {
      hide Conserved, Charge, Owes, OwedBy;
      ghost var before := cleaned;
      var node := nodes[a.node];
      CommittedOwes(node, a);
      if node.cleanup.Some? && node.userdata.Some? {
        cleaned := cleaned + [(node.cleanup.value, node.userdata.value)];
      }
      OwesCharge(node, before, cleaned);
      node := node.(callback := Some(a.sub.callback), cleanup := a.sub.cleanup, userdata := a.sub.userdata);
      node := node.(qos := a.sub.qos);
      if a.topic.Some? { node := node.(topic := a.topic.value); }
      if a.filter.Some? { node := node.(filter := a.filter, owns := true); }
      ConservedUpdate(nodes, a.node, node, before, cleaned, committed, committed + Charge(OwedBy(a.sub)));
      nodes := nodes[a.node := node];
      committed := committed + Charge(OwedBy(a.sub));
    }

    /** The commit loop over waiting inserts. */
    method CommitInserts(tr: Transaction)
      requires Open(tr)
      modifies this
      ensures Valid() && old(Linked(nodes, at, []))
      ensures |tr.paths| == |tr.actions| && Contents() == Applied(old(Contents()), tr.paths, tr.actions)
      ensures committed == old(committed) + Charges(tr.actions)
      ensures strings == old(strings) && loose == old(loose) && at == old(at) && root == old(root)
    {
      hide Waiting, History, SnapOk, Linked, Conserved, SpellsOf, Subs, CommittedSnap;
      var acts := tr.actions;
      ghost var paths, spells := tr.paths, Spelled();
      WaitingLinked(Now(), spells, loose, acts, paths);
      assert acts[0..] == acts && paths[0..] == paths;
      var i := 0;
      while i < |acts|
        invariant 0 <= i <= |acts| == |paths|
        invariant strings == old(strings) && loose == old(loose) && at == old(at) && root == old(root)
        invariant Linked(nodes, at, []) && old(Linked(nodes, at, [])) && Conserved(nodes, cleaned, committed)
        invariant Waiting(Now(), spells, loose, acts[i..], paths[i..])
        invariant Applied(Contents(), paths[i..], acts[i..]) == Applied(old(Contents()), paths, acts)
        invariant committed + Charges(acts[i..]) == old(committed) + Charges(acts)
      {
        CommitOne(Now(), spells, loose, acts[i..], paths[i..]);
        assert acts[i..][1..] == acts[i + 1..] && paths[i..][1..] == paths[i + 1..];
        ghost var w := Now();
        CommitInsert(acts[i]);
        SnapPlaces(w, acts[i]);
        i := i + 1;
      }
      assert acts[|acts|..] == [] && paths[|acts|..] == [];
      NoneWaiting(Now(), spells, loose);
    }

    // ----- removing -----

    /** aws_mqtt_topic_tree_transaction_remove: the action records the nodes down the path,
        and a target only if the whole path is there. */
    method TransactionRemove(tr: Transaction, filter: string)
      requires Valid() && tr.actions == []
      modifies tr
      ensures |tr.actions| == 1 && tr.actions[0].Remove? && tr.paths == [Split(filter)]
      ensures tr.actions[0].target.Some? <==> Split(filter) in at
      ensures tr.actions[0].target.Some? ==>
                && tr.actions[0].target.value == at[Split(filter)]
                && Trail(at, Split(filter), tr.actions[0].toRemove)
    {
      hide SnapOk, Conserved, SpellsOf, Split;
      ghost var path := Split(filter);
      var parts := Split(filter);
      var current := Some(root);
      var toRemove := [root];
      var i := 0;
      assert path[..0] == [];
      ValidLinked(Now(), Spelled(), loose);
      while i < |parts|
        invariant 0 <= i <= |parts|
        invariant current.Some? && path[..i] in at && current.value == at[path[..i]]
        invariant |toRemove| == i + 1 && forall k | 0 <= k <= i :: path[..k] in at && toRemove[k] == at[path[..k]]
      {
        assert path[..i + 1] == Child(path[..i], parts[i]);
        WalkDown(nodes, at, path, i);
        if parts[i] in nodes[current.value].subtopics {
          current := Some(nodes[current.value].subtopics[parts[i]]);
          toRemove := toRemove + [current.value];
          i := i + 1;
        } else {
          current := None;
          break;
        }
      }
      assert path[..|path|] == path;
      tr.actions := [Remove(current, toRemove)];
      tr.paths := [path];
    }

    /** The loop that releases nodes without subscription and without children, from the
        node that was subscribed upwards. */
    method Prune(toRemove: seq<NodePtr>, ghost w0: Snap, ghost spells: Spells, ghost path: Path)
      returns (left: nat, destroyCurrent: bool)
      requires Good(w0.nodes, spells, w0.at, {}) && Pruned(w0, Now(), path, |path|) && Trail(w0.at, path, toRemove)
      requires spells == Spelled() && Conserved(nodes, cleaned, committed)
      modifies this`nodes, this`strings, this`cleaned, this`at
      ensures left <= |path| && Pruned(w0, Now(), path, left) && (destroyCurrent <==> left < |path|)
      ensures left > 0 ==>
                && toRemove[left] in nodes
                && (IsSubscription(nodes[toRemove[left]]) || nodes[toRemove[left]].subtopics != map[])
      ensures strings == old(strings) && cleaned == old(cleaned) && Conserved(nodes, cleaned, committed)
    {
      hide Good, Pruned, Conserved, SpellsOf, Linked, Backed, OwnedOnce, OwnedBelow, OwesNothing, Subtree, Text,
           CutPlaces, Owes;
      left, destroyCurrent := |toRemove| - 1, false;
      while left > 0
        invariant 0 <= left <= |path|
        invariant Pruned(w0, Now(), path, left) && (destroyCurrent <==> left < |path|)
        invariant strings == old(strings) && cleaned == old(cleaned) && Conserved(nodes, cleaned, committed)
      {
        PrunedDeepest(w0, Now(), spells, path, left, toRemove);
        var node := toRemove[left];
        ghost var f := path[..left];
        if IsSubscription(nodes[node]) || nodes[node].subtopics != map[] { break; }
        var grandma := toRemove[left - 1];
        SpelledBacked(strings, spells, nodes[node], f);
        var key := Text(strings, nodes[node].topic);
        PruneStep(w0, Now(), spells, path, left);
        ConservedUnhook(nodes, grandma, key, cleaned, committed);
        nodes := nodes[grandma := nodes[grandma].(subtopics := nodes[grandma].subtopics - {key})];
        if left != |toRemove| - 1 {
          LeafLinked(nodes, spells, f, node);
          DestroyNode(node, map[f := node], f, 0, spells);
        } else {
          destroyCurrent := true;
        }
        at := CutPlaces(at, f);
        left := left - 1;
      }
    }

    /** s_topic_node_string_finder over the children of a node: some string other than os
        that a node strictly below uses, or os if there is none. */
    method FindString(node: NodePtr, os: StrPtr, ghost p: Path, ghost depth: nat) returns (found: StrPtr)
      requires Linked(nodes, at, p) && node == at[p] && node in nodes && Named(Now(), p)
      requires forall q | q in at :: |q| <= |p| + depth
      ensures found != os ==> exists q :: q in at && p <= q && q != p && Uses(Now(), q, found)
      ensures found == os ==> forall q | q in at && p <= q && q != p :: Uses(Now(), q, os)
      decreases depth
    {
      hide Linked, Named, AllUse;
      ghost var w := Now();
      var todo := nodes[node].subtopics;
      while todo != map[]
        invariant forall s | s in todo :: s in nodes[node].subtopics && todo[s] == nodes[node].subtopics[s]
        invariant forall s | s in nodes[node].subtopics && s !in todo :: AllUse(w, Child(p, s), os)
        decreases todo.Keys
      {
        var s :| s in todo;
        var child := todo[s];
        FinderChild(w, p, s, os, depth);
        if nodes[child].filter == Some(os) {
          if nodes[child].subtopics != map[] {
            var deeper := FindString(child, os, Child(p, s), depth - 1);
            if deeper != os {
              DeeperFound(w, p, s, deeper);
              return deeper;
            }
            AllUseFrom(w, Child(p, s), os);
          }
        } else {
          assert Uses(w, Child(p, s), nodes[child].filter.value);
          return nodes[child].filter.value;
        }
        todo := todo - {s};
      }
      FinderEnd(w, p, os);
      return os;
    }

    /** A string below the node that is not the departing one. There always is one. */
    method AnotherFilter(parent: NodePtr, oldFilter: StrPtr, ghost w0: Snap, ghost spells: Spells, ghost path: Path,
                         ghost m: nat, ghost i: nat)
      returns (found: StrPtr)
      requires Departing(w0, spells, path, oldFilter) && Repointed(w0, Now(), spells, path, m, i, oldFilter, None)
      requires 0 < i <= |path| && path[..i] in at && parent == at[path[..i]] && parent in nodes
               && nodes[parent].filter == Some(oldFilter)
      requires i == m ==> IsSubscription(nodes[parent]) || nodes[parent].subtopics != map[]
      ensures found != oldFilter && Replaces(w0, spells, at, oldFilter, found)
    {
      hide Departing, Repointed, Linked, Named, Uses, Replaces;
      AnotherString(w0, Now(), spells, path, m, i, oldFilter);
      FinderReady(w0, Now(), spells, path, m, i, oldFilter);
      ghost var depth := DepthBound(at.Keys);
      found := FindString(parent, oldFilter, path[..i], depth);
      assert found != oldFilter;
      FoundString(w0, Now(), spells, path, m, i, oldFilter, found);
    }

    /** The loop up the path that gives every node still naming its level by the departing
        string another one; the string is released when the first is found. */
    method Repoint(current: NodePtr, toRemove: seq<NodePtr>, left: nat,
                   ghost w0: Snap, ghost spells: Spells, ghost path: Path, ghost os: StrPtr)
      returns (ghost nf: Option<StrPtr>)
      requires Departing(w0, spells, path, os) && Pruned(w0, Now(), path, left) && Trail(w0.at, path, toRemove)
      requires current == w0.at[path] && current in nodes && nodes[current].filter == Some(os)
      requires left > 0 ==>
                 && toRemove[left] in nodes
                 && (IsSubscription(nodes[toRemove[left]]) || nodes[toRemove[left]].subtopics != map[])
      requires spells == SpellsOf(strings) && Conserved(nodes, cleaned, committed)
      modifies this`nodes, this`strings
      ensures Repointed(w0, Now(), spells, path, left, 0, os, nf)
      ensures strings == if nf.Some? then old(strings) - {os} else old(strings)
      ensures Conserved(nodes, cleaned, committed)
    {
      hide Departing, Pruned, Repointed, Trail, SpellsOf, Conserved, Linked, Named, Uses, Replaces;
      nf := None;
      DepartingLive(w0, spells, path, os, strings);
      RepointStart(w0, Now(), spells, path, left, os);
      if left > 0 {
        var newFilter: Option<StrPtr> := None;
        var oldFilter := nodes[current].filter.value;
        RepointedLevel(w0, Now(), spells, path, left, left, os, None, toRemove);
        var parent := toRemove[left];
        var topicOffset := nodes[parent].topic.off + nodes[parent].topic.len + 1;
        var i := left;
        ghost var w1 := Now();
        while i > 0
          invariant 0 <= i <= left && newFilter == nf && at == w1.at
          invariant Repointed(w0, Now(), spells, path, left, i, os, nf)
          invariant topicOffset == if i == 0 then 0 else Offset(path, i - 1) + |path[i - 1]| + 1
          invariant strings == if nf.Some? then old(strings) - {os} else old(strings)
          invariant nf.None? ==> nodes == w1.nodes
          invariant Conserved(nodes, cleaned, committed)
        {
          RepointedLevel(w0, Now(), spells, path, left, i, os, nf, toRemove);
          parent := toRemove[i];
          topicOffset := topicOffset - (nodes[parent].topic.len + 1);
          if nodes[parent].filter == Some(oldFilter) {
            ghost var w := Now();
            if newFilter.None? {
              var found := AnotherFilter(parent, oldFilter, w0, spells, path, left, i);
              DestroyString(oldFilter);
              nodes := nodes[current := nodes[current].(owns := false)];
              newFilter, nf := Some(found), Some(found);
              RepointFix(w0, w, spells, path, left, i, os, None, found);
            } else {
              RepointFix(w0, w, spells, path, left, i, os, nf, nf.value);
              assert Disowned(nodes, current) == nodes;
            }
            assert nodes == Disowned(w.nodes, current);
            FixConserved(w, current, parent, path[..i], newFilter.value, cleaned, committed);
            var topic := Slice(newFilter.value, topicOffset, nodes[parent].topic.len);
            nodes := nodes[parent := nodes[parent].(filter := newFilter, topic := topic)];
          } else {
            RepointSkip(w0, Now(), spells, path, left, i, os, nf);
          }
          i := i - 1;
        }
      }
    }

    /** s_topic_tree_action_commit of a remove: one subscription less, its string released,
        its userdata cleaned, and again a committed tree. */
    method CommitRemove(a: Action, ghost path: Path)
      requires Valid() && path in Contents()
      requires a.Remove? && a.target == Some(at[path]) && Trail(at, path, a.toRemove)
      modifies this
      ensures Valid() && old(Linked(nodes, at, [])) && Contents() == old(Contents()) - {path}
      ensures old(at[path] in nodes) && old(nodes[at[path]]).filter.Some?
      ensures old(nodes[at[path]]).filter.value in old(strings)
      ensures strings == old(strings) - {old(nodes[at[path]]).filter.value}
      ensures var owed := Owes(old(nodes[at[path]]));
              cleaned == old(cleaned) + (if owed.Some? then [owed.value] else [])
      ensures loose == old(loose) && committed == old(committed) && root == old(root)
    {
      hide SnapOk, Good, Linked, Conserved, SpellsOf, Subs, Owes, Charge, Departing, Pruned, Repointed, Trail, Outcome,
           OwnedOnce, OwnedBelow, OwesNothing, Subtree, Accounted, Reachable, Contents;
      ghost var w0, spells, s0 := Now(), Spelled(), strings;
      ValidLinked(w0, spells, loose);
      ContentsAre();
      SubscribedNode(w0, spells, path);
      var current := a.target.value;
      ghost var os := nodes[current].filter.value;
      DepartingGood(w0, spells, path, os);
      SpelledLess(strings, os);
      PruneStart(w0, path);

      ghost var before := cleaned;
      if nodes[current].cleanup.Some? && nodes[current].userdata.Some? {
        cleaned := cleaned + [(nodes[current].cleanup.value, nodes[current].userdata.value)];
      }
      OwesCharge(nodes[current], before, cleaned);
      BareConserved(nodes, current, before, cleaned, committed);
      nodes := nodes[current := nodes[current].(callback := None, cleanup := None, userdata := None)];

      var left, destroyCurrent := Prune(a.toRemove, w0, spells, path);
      PrunedCurrent(w0, Now(), path, left);
      ghost var nf := Repoint(current, a.toRemove, left, w0, spells, path, os);
      DetachedCurrent(w0, Now(), spells, path, left, os, nf);
      Removed(w0, Now(), spells, path, left, os, nf, loose);
      RootStays(w0, Now(), spells, path, left, os, nf, root);
      ghost var w := Now();
      if destroyCurrent {
        LeafLinked(nodes, spells, path, current);
        ghost var s1 := strings;
        DestroyNode(current, map[path := current], path, 0, spells);
        StringGone(s0, s1, strings, os, nf);
      }
      OutcomeIs(w0, w, Now(), path, left);
      SpelledKeys(strings);
      assert strings == old(strings) - {os};
      assert loose <= strings.Keys by { LooseStays(w0, spells, path, os, loose); }
      SnapIsOk(Now(), Spelled(), loose);
      ValidLinked(Now(), Spelled(), loose);
      ContentsAre();
    }

    /** The loop up the path, for a node that is not a subscription. */
    method RepointInner(current: NodePtr, toRemove: seq<NodePtr>, ghost w0: Snap, ghost spells: Spells,
                        ghost path: Path, ghost f: Path)
      requires w0 == Now() && Good(nodes, spells, at, {}) && Linked(nodes, at, []) && Trail(at, path, toRemove)
      requires path != [] && path in at && path < f && f in at && at[f] in nodes && current == at[path]
               && current in nodes
      requires Linked(nodes, at, path) && Named(w0, path)
      requires nodes[current].filter.Some? && nodes[current].filter.value in strings
      modifies this`nodes, this`strings
      ensures at[f] in nodes && nodes[at[f]] == w0.nodes[at[f]]
      ensures strings == old(strings) - {w0.nodes[current].filter.value}
    {
      hide Good, Linked, Named, Uses, Offset;
      TrailApart(w0, path, toRemove);
      var left := |toRemove| - 1;
      var newFilter: Option<StrPtr> := None;
      var oldFilter := nodes[current].filter.value;
      InnerLevel(w0, spells, path, f, left);
      assert path[..left] == path;
      var parent := toRemove[left];
      var topicOffset := nodes[parent].topic.off + nodes[parent].topic.len + 1;
      var i := left;
      while i > 0
        invariant 0 <= i <= left && at == w0.at && (newFilter.Some? <==> i < left)
        invariant strings == if i == left then old(strings) else old(strings) - {oldFilter}
        invariant nodes.Keys == w0.nodes.Keys && nodes[at[f]] == w0.nodes[at[f]] && (i == left ==> nodes == w0.nodes)
        invariant forall k | 0 < k <= i :: nodes[toRemove[k]] == w0.nodes[toRemove[k]]
        invariant topicOffset == if i == 0 then 0 else Offset(path, i - 1) + |path[i - 1]| + 1
      {
        InnerLevel(w0, spells, path, f, i);
        parent := toRemove[i];
        topicOffset := topicOffset - (nodes[parent].topic.len + 1);
        if nodes[parent].filter == Some(oldFilter) {
          if newFilter.None? {
            ghost var depth := DepthBound(at.Keys);
            var found := FindString(parent, oldFilter, path, depth);
            DestroyString(oldFilter);
            nodes := nodes[current := nodes[current].(owns := false)];
            newFilter := Some(found);
          }
          var topic := Slice(newFilter.value, topicOffset, nodes[parent].topic.len);
          nodes := nodes[parent := nodes[parent].(filter := newFilter, topic := topic)];
        }
        i := i - 1;
      }
    }

    /** The same code on a node that the tree only passes through: its string, which a filter
        below owns, is released, and the tree is not sound any more. */
    method CommitRemoveInner(a: Action, ghost path: Path)
      requires Valid() && path != [] && path in at && path !in Contents()
      requires a.Remove? && a.target == Some(at[path]) && Trail(at, path, a.toRemove)
      modifies this
      ensures old(at[path] in nodes) && old(nodes[at[path]]).filter.Some?
      ensures strings == old(strings) - {old(nodes[at[path]]).filter.value} != old(strings)
      ensures at == old(at) && loose == old(loose) && !Valid()
    {
      hide SnapOk, Good, Linked, Conserved, SpellsOf, Subs, Named, Uses, Sound, Offset;
      ghost var w0, spells := Now(), Spelled();
      ValidLinked(w0, spells, loose);
      InnerStringIsOwnedBelow(w0, spells, path);
      var current := a.target.value;
      ghost var str := nodes[current].filter.value;
      ghost var f := spells[str];
      InnerNode(w0, spells, path, f);
      SpelledKeys(strings);
      nodes := nodes[current := nodes[current].(callback := None, cleanup := None, userdata := None)];
      assert nodes == w0.nodes;
      assert nodes[current].subtopics != map[];   // so nothing is pruned
      RepointInner(current, a.toRemove, w0, spells, path, f);
      SpelledKeys(strings);
      InnerRemoveBreaks(w0, spells, path, Now(), Spelled());
      NotOkWhenBad(Now(), Spelled(), {}, loose);
    }

    // ----- dispatch -----

    /** s_topic_tree_publish_do_recurse at the node at p, with the levels from k on to go. */
    method PublishRecurse(parts: Path, k: nat, current: NodePtr, ghost p: Path)
      returns (calls: seq<Call>, ghost hits: seq<Path>)
      requires Valid() && TopicPath(parts) && k <= |parts| && p in at && current == at[p]
      ensures Delivers(Contents(), Hits(Contents().Keys, p, parts[k..]), calls, hits)
      decreases |parts| - k
    {
      hide SnapOk, Good, Conserved, SpellsOf, Linked, Hits, Subs, Contents, Delivers, Reaches;
      ghost var w, spells := Now(), Spelled();
      ValidLinked(w, spells, loose);
      ContentsAre();
      ghost var subs := Contents();
      ghost var rest := parts[k..];
      DispatchNode(w, spells, p);
      if k == |parts| {
        assert rest == [];
        HitsAtEnd(subs.Keys, p);
        if IsSubscription(nodes[current]) {
          calls, hits := [Call(nodes[current].callback.value, nodes[current].userdata)], [p];
          DeliversOne(subs, p);
        } else {
          calls, hits := [], [];
          DeliversNone(subs);
        }
        return;
      }
      assert rest[0] == parts[k] && rest[1..] == parts[k + 1..];
      PlainLevel(parts, k);
      HitsOfLevel(subs.Keys, p, rest);
      calls, hits := [], [];
      DeliversNone(subs);
      ghost var reached: set<Path> := {};
      DispatchChild(w, spells, p, HASH, rest[1..]);
      if HASH in nodes[current].subtopics {
        var multi := nodes[nodes[current].subtopics[HASH]];
        DispatchHash(w, spells, p);
        assert IsSubscription(multi) && multi.subtopics == map[];
        calls, hits := [Call(multi.callback.value, multi.userdata)], [Child(p, HASH)];
        DeliversOne(subs, Child(p, HASH));
        reached := {Child(p, HASH)};
      }
      var calls1, calls2: seq<Call> := [], [];
      ghost var hits1, hits2: seq<Path> := [], [];
      DispatchChild(w, spells, p, PLUS, rest[1..]);
      if PLUS in nodes[current].subtopics {
        calls1, hits1 := PublishRecurse(parts, k + 1, nodes[current].subtopics[PLUS], Child(p, PLUS));
      }
      DispatchChild(w, spells, p, parts[k], rest[1..]);
      if parts[k] in nodes[current].subtopics {
        calls2, hits2 := PublishRecurse(parts, k + 1, nodes[current].subtopics[parts[k]], Child(p, parts[k]));
      }
      DeliversMore(subs, reached, calls, hits, Hits(subs.Keys, Child(p, PLUS), rest[1..]), calls1, hits1);
      DeliversMore(subs, reached + Hits(subs.Keys, Child(p, PLUS), rest[1..]), calls + calls1, hits + hits1,
                   Hits(subs.Keys, Child(p, parts[k]), rest[1..]), calls2, hits2);
      calls, hits := calls + calls1 + calls2, hits + hits1 + hits2;
    }

    /** aws_mqtt_topic_tree_publish: exactly the subscriptions whose filter reaches the
        topic are called, each once, with the callback and userdata that it has now. */
    method Publish(topic: string) returns (calls: seq<Call>, ghost hits: seq<Path>)
      requires Valid() && TopicPath(Split(topic))
      ensures |calls| == |hits|
      ensures forall i, j | 0 <= i < j < |hits| :: hits[i] != hits[j]
      ensures forall f :: f in hits <==> f in Contents() && Reaches(f, Split(topic))
      ensures forall i | 0 <= i < |hits| :: hits[i] in Contents() && calls[i] == CallOf(Contents()[hits[i]])
    {
      hide SnapOk, Conserved, SpellsOf, Linked, Subs, Contents, Reaches, Split;
      ValidLinked(Now(), Spelled(), loose);
      calls, hits := PublishRecurse(Split(topic), 0, root, []);
      ghost var t := Split(topic);
      assert t[0..] == t;
      forall f ensures f in hits <==> f in Contents() && Reaches(f, t) {
        assert f[0..] == f;
        assert f in Hits(Contents().Keys, [], t[0..]) <==> f in hits;
      }
    }

    // ----- whole operations -----

    /** A remove that waits for commit. */
    ghost predicate Removing(tr: Transaction)
      reads this, tr
    {
      && Valid()
      && |tr.actions| == 1 && |tr.paths| == 1 && tr.actions[0].Remove? && tr.paths[0] != []
      && match tr.actions[0].target
         case None => tr.paths[0] !in at
         case Some(node) =>
           tr.paths[0] in at && node == at[tr.paths[0]] && Trail(at, tr.paths[0], tr.actions[0].toRemove)
    }

    /** What can be removed without harm: a subscribed filter, and one that the tree has no node for. */
    ghost predicate Removable(path: Path)
      requires Linked(nodes, at, [])
      reads this
    {
      path in Contents() || path !in at
    }

    /** aws_mqtt_topic_tree_transaction_commit. A transaction is a list of inserts or one remove. A
        remove leaves a sound tree exactly when it can be removed. (The code makes no difference between the
        two ways to commit one; they are apart here because their proofs are.) */
    method TransactionCommit(tr: Transaction)
      requires Open(tr) || Removing(tr)
      modifies this, tr
      ensures tr.actions == [] && old(Linked(nodes, at, [])) && loose == old(loose)
      ensures old(Open(tr)) ==>
                && Valid() && |old(tr.paths)| == |old(tr.actions)|
                && Contents() == Applied(old(Contents()), old(tr.paths), old(tr.actions))
                && strings == old(strings) && committed == old(committed) + Charges(old(tr.actions))
      ensures old(Removing(tr)) ==>
                && (Valid() <==> old(Removable(tr.paths[0])))
                && (Valid() ==>
                      && Contents() == old(Contents()) - {old(tr.paths)[0]} && committed == old(committed)
                      && if old(tr.actions)[0].target.Some? then strings.Keys < old(strings.Keys)
                         else strings == old(strings) && Now() == old(Now()) && cleaned == old(cleaned))
    {
      hide Waiting, History, SnapOk, Linked, Conserved, SpellsOf, Subs, Contents, Trail, Applied, Charges, Owes;
      OpenOrRemoving(tr);
      if |tr.actions| == 1 && tr.actions[0].Remove? {
        if tr.actions[0].target.Some? {
          SubscribedOrNot(tr.paths[0]);
          if IsSubscription(nodes[tr.actions[0].target.value]) {
            CommitRemove(tr.actions[0], tr.paths[0]);
          } else {
            CommitRemoveInner(tr.actions[0], tr.paths[0]);
          }
        } else {
          NothingThere(tr.paths[0]);
        }
      } else {
        CommitInserts(tr);
      }
      tr.actions := [];
      tr.paths, tr.tops, tr.before := [], [], [];
    }

    lemma SubscribedOrNot(path: Path)
      requires Linked(nodes, at, []) && path in at
      ensures at[path] in nodes && (path in Contents() <==> IsSubscription(nodes[at[path]]))
    {
      assert Hooked(nodes, at, path);
    }

    /** aws_mqtt_topic_tree_transaction_roll_back: of a list of inserts, or of one remove, which
        has nothing to undo. */
    method TransactionRollBack(tr: Transaction)
      requires Open(tr) || Removing(tr)
      modifies this, tr
      ensures Valid() && tr.actions == [] && cleaned == old(cleaned) && committed == old(committed)
      ensures old(Open(tr)) ==>
                && Now() == (old(tr.before) + [old(Now())])[0]
                && strings == old(strings) - Carried(old(tr.actions), Add)
                && loose == old(loose) + Carried(old(tr.actions), Update)
      ensures old(Removing(tr)) ==> Now() == old(Now()) && strings == old(strings) && loose == old(loose)
    {
      hide Waiting, History, SnapOk, Linked, Conserved, SpellsOf, Subs, Contents, Trail, Carried;
      OpenOrRemoving(tr);
      if |tr.actions| == 1 && tr.actions[0].Remove? {
        tr.actions := [];
        tr.paths, tr.tops, tr.before := [], [], [];
      } else {
        RollBackInserts(tr);
      }
    }

    lemma NothingThere(path: Path)
      requires Linked(nodes, at, []) && path !in at
      ensures Contents() == Contents() - {path}
    {
      hide Linked;
    }

    lemma OpenOrRemoving(tr: Transaction)
      requires Open(tr) || Removing(tr)
      ensures Linked(nodes, at, [])
      ensures Open(tr) ==> forall i | 0 <= i < |tr.actions| :: tr.actions[i].Insert?
    {
      hide SnapOk, History, Linked;
      if Open(tr) {
        WaitingLinked(Now(), Spelled(), loose, tr.actions, tr.paths);
        forall i | 0 <= i < |tr.actions| ensures tr.actions[i].Insert? {
          assert Pending(tr.actions[i], tr.paths[i], Now(), Spelled());
        }
      } else {
        ValidLinked(Now(), Spelled(), loose);
      }
    }

    /** A transaction with nothing in it is open. */
    lemma NothingWaits(tr: Transaction)
      requires Valid() && tr.actions == [] && tr.paths == [] && tr.tops == [] && tr.before == []
      ensures Open(tr)
    {
      hide SnapOk;
      assert HeldBy([]) == {} && {} + loose == loose;
      assert tr.actions[..0] == [] && (tr.before + [Now()])[0] == Now();
    }

    /** aws_mqtt_topic_tree_insert. */
    method Subscribe(filter: string, sub: Sub)
      requires Valid() && FilterPath(Split(filter))
      modifies this
      ensures Valid() && old(Linked(nodes, at, [])) && Contents() == old(Contents())[Split(filter) := sub]
      ensures loose == old(loose) && committed == old(committed) + Charge(OwedBy(sub))
    {
      hide Waiting, History, SnapOk, Linked, Conserved, SpellsOf, Subs, Split, FilterPath, Charge, OwedBy;
      ValidLinked(Now(), Spelled(), loose);
      var str := NewString(filter);
      var tr := new Transaction();
      NothingWaits(tr);
      TransactionInsert(tr, str, sub);
      OpenOrRemoving(tr);
      ghost var acts, paths, subs := tr.actions, tr.paths, Contents();
      TransactionCommit(tr);
      AppliedOne(subs, paths, acts);
      assert loose == old(loose);
    }

    /** aws_mqtt_topic_tree_remove: the map without the filter, and a sound tree exactly when
        the filter was subscribed or no subscribed filter continues it. */
    method Unsubscribe(filter: string)
      requires Valid()
      modifies this
      ensures old(Linked(nodes, at, [])) && loose == old(loose)
      ensures Valid() <==> old(Removable(Split(filter)))
      ensures Valid() ==> Contents() == old(Contents()) - {Split(filter)} && committed == old(committed)
    {
      hide SnapOk, Linked, Conserved, SpellsOf, Subs, Split, Trail;
      ValidLinked(Now(), Spelled(), loose);
      var tr := new Transaction();
      TransactionRemove(tr, filter);
      TransactionCommit(tr);
    }

    /** The transaction of s_unsubscribe_send: commit the remove, or roll it back, which changes nothing. */
    method UnsubscribeRequest(filter: string, sent: bool)
      requires Valid()
      modifies this
      ensures old(Linked(nodes, at, [])) && loose == old(loose)
      ensures sent ==> (Valid() <==> old(Removable(Split(filter))))
      ensures sent && Valid() ==> Contents() == old(Contents()) - {Split(filter)} && committed == old(committed)
      ensures !sent ==>
                && Valid() && Now() == old(Now()) && strings == old(strings)
                && cleaned == old(cleaned) && committed == old(committed)
    {
      hide SnapOk, Linked, Conserved, SpellsOf, Subs, Split, Trail;
      ValidLinked(Now(), Spelled(), loose);
      var tr := new Transaction();
      TransactionRemove(tr, filter);
      if sent {
        TransactionCommit(tr);
      } else {
        TransactionRollBack(tr);
      }
    }

    /** Inserting a fresh filter and removing it gives back the same tree: the same nodes at
        the same paths, with the same names, ownership and children. */
    method SubscribeThenUnsubscribe(filter: string, sub: Sub)
      requires Valid() && FilterPath(Split(filter)) && Split(filter) !in Contents()
      modifies this
      ensures Valid() && old(Linked(nodes, at, [])) && Contents() == old(Contents())
      ensures at.Keys == old(at).Keys && forall p | p in at :: SameNode(old(nodes), old(at), nodes, at, p)
      ensures loose == old(loose)
    {
      hide SnapOk, Good, Linked, Conserved, SpellsOf, Subs, Split, FilterPath, SameNode;
      ValidLinked(Now(), Spelled(), loose);
      ghost var n0, a0, s0 := nodes, at, Spelled();
      Subscribe(filter, sub);
      Unsubscribe(filter);
      ValidLinked(Now(), Spelled(), loose);
      ShapeIsCanonical(n0, s0, a0, nodes, Spelled(), at);
    }

    /** aws_mqtt_topic_tree_clean_up: every node and every owned string is released, and
        every committed userdata has been cleaned, as often as it was committed. */
    method CleanUp()
      requires Valid()
      modifies this
      ensures nodes == map[] && strings.Keys == old(loose)
      ensures multiset(cleaned) == committed == old(committed) && loose == old(loose)
    {
      hide SnapOk, Linked, Conserved, SpellsOf, OwnedOnce, OwnedBelow, OwesNothing, Subtree;
      SpelledKeys(strings);
      CleanUpReady(Now(), Spelled(), loose);
      ghost var depth := DepthBound(at.Keys);
      DestroyNode(root, at, [], depth, Spelled());
      NothingHeld(cleaned, committed);
    }

    /** What a reconnect with a clean session does: the tree is cleaned up and made anew. Strings
        that were forgotten stay forgotten. */
    method StartCleanSession()
      requires Valid()
      modifies this
      ensures Valid() && Contents() == map[] && loose == old(loose)
      ensures multiset(cleaned) == committed == old(committed)
    {
      hide SnapOk, Conserved, SpellsOf;
      CleanUp();
      SpelledKeys(strings);
      NewRootOk(Spelled(), loose, cleaned, committed);
      root := 0;
      nodes := map[0 := ZERO_NODE];
      at := map[[] := 0];
    }

    /** The filter strings of a subscribe request. */
    method NewStrings(filters: seq<string>) returns (strs: seq<StrPtr>)
      requires Valid()
      modifies this
      ensures Valid() && Now() == old(Now()) && cleaned == old(cleaned) && committed == old(committed)
      ensures |strs| == |filters| && loose == old(loose) + Elements(strs) && old(loose) !! Elements(strs)
      ensures forall k | 0 <= k < |strs| :: strs[k] in strings && strings[strs[k]] == filters[k]
      ensures forall j, k | 0 <= j < k < |strs| :: strs[j] != strs[k]
    {
      hide SnapOk, Conserved, SpellsOf;
      strs := [];
      for i := 0 to |filters|
        invariant Valid() && Now() == old(Now()) && cleaned == old(cleaned) && committed == old(committed)
        invariant |strs| == i && loose == old(loose) + Elements(strs) && old(loose) !! Elements(strs)
        invariant forall k | 0 <= k < i :: strs[k] in strings && strings[strs[k]] == filters[k]
        invariant forall j, k | 0 <= j < k < i :: strs[j] != strs[k]
      {
        var str := NewString(filters[i]);
        assert Elements(strs + [str]) == Elements(strs) + {str};
        strs := strs + [str];
      }
    }

    /** One insert after the other into an empty transaction. */
    method InsertAll(tr: Transaction, filters: seq<string>, strs: seq<StrPtr>, subs: seq<Sub>)
      requires Open(tr) && tr.actions == [] && tr.paths == [] && tr.before == []
      requires |filters| == |strs| == |subs| && Elements(strs) <= loose
      requires forall k | 0 <= k < |strs| :: strs[k] in strings && strings[strs[k]] == filters[k]
      requires forall j, k | 0 <= j < k < |strs| :: strs[j] != strs[k]
      requires forall i | 0 <= i < |filters| :: FilterPath(Split(filters[i]))
      requires forall i, j | 0 <= i < j < |filters| :: Split(filters[i]) != Split(filters[j])
      modifies this, tr
      ensures Open(tr) && Linked(nodes, at, []) && old(Linked(nodes, at, [])) && Contents() == old(Contents())
      ensures cleaned == old(cleaned) && committed == old(committed) && loose == old(loose) - Elements(strs)
      ensures (tr.before + [Now()])[0] == old(Now())
      ensures |tr.paths| == |tr.actions| == |filters|
      ensures forall k | 0 <= k < |filters| ::
                tr.paths[k] == Split(filters[k]) && tr.actions[k].Insert? && tr.actions[k].sub == subs[k]
      ensures forall k | 0 <= k < |strs| :: strs[k] in strings <==> Split(filters[k]) !in old(Contents())
      ensures forall k | 0 <= k < |filters| :: Drops(tr.actions[k]) <==> Forgets(old(Contents()), filters, k)
    {
      hide Waiting, History, SnapOk, Linked, Conserved, SpellsOf, Subs, Split, FilterPath, Books, Elements, Contents,
           Forgets;
      OpenOrRemoving(tr);
      assert strs[0..] == strs && strs[|strs|..] == [];
      NoElements();
      for i := 0 to |filters|
        invariant Open(tr) && Linked(nodes, at, []) && Contents() == old(Contents())
        invariant cleaned == old(cleaned) && committed == old(committed)
        invariant loose == old(loose) - Elements(strs) + Elements(strs[i..])
        invariant forall k | i <= k < |filters| :: strs[k] in strings && strings[strs[k]] == filters[k]
        invariant forall k | 0 <= k < i :: strs[k] in strings <==> Split(filters[k]) !in old(Contents())
        invariant |tr.paths| == |tr.actions| == i && (tr.before + [Now()])[0] == old(Now())
        invariant forall k | 0 <= k < i ::
                    tr.paths[k] == Split(filters[k]) && tr.actions[k].Insert? && tr.actions[k].sub == subs[k]
        invariant forall k | 0 <= k < i :: Drops(tr.actions[k]) <==> Forgets(old(Contents()), filters, k)
      {
        ElementsFrom(strs, i);
        ElementsIn(strs, i);
        ghost var earlier := tr.actions;
        assert forall k | 0 <= k < i :: Split(filters[i]) != tr.paths[k];
        ContentsAre();
        ForgetsHere(Now(), Spelled(), loose, tr.actions, tr.paths, filters, i);
        TransactionInsert(tr, strs[i], subs[i]);
        assert forall k | 0 <= k < i :: tr.actions[k] == tr.actions[..i][k] == earlier[k];
      }
    }

    /** The transaction of s_subscribe_send: insert every filter, encode the packet, which reads
        the same strings, then commit, or roll back when that failed. The strings are all there to be
        read exactly when none of the filters was subscribed before. A failed request forgets a string
        for each filter that begins another without being subscribed. */
    method SubscribeAll(filters: seq<string>, subs: seq<Sub>, sent: bool) returns (readable: bool)
      requires Valid() && |filters| == |subs|
      requires forall i | 0 <= i < |filters| :: FilterPath(Split(filters[i]))
      requires forall i, j | 0 <= i < j < |filters| :: Split(filters[i]) != Split(filters[j])
      modifies this
      ensures Valid() && old(Linked(nodes, at, []))
      ensures sent ==>
                && Contents() == Updated(old(Contents()), filters, subs) && loose == old(loose)
                && committed == old(committed) + SubCharges(subs)
      ensures !sent ==>
                && Now() == old(Now()) && cleaned == old(cleaned) && committed == old(committed)
                && old(loose) <= loose && |loose| == |old(loose)| + ForgottenFrom(old(Contents()), filters, 0)
                && (loose == old(loose) <==> forall k | 0 <= k < |filters| :: !Forgets(old(Contents()), filters, k))
      ensures readable <==> forall i | 0 <= i < |filters| :: Split(filters[i]) !in old(Contents())
    {
      hide Waiting, History, SnapOk, Linked, Conserved, SpellsOf, Subs, Split, FilterPath, Applied, Charges, Carried,
           Updated, Elements, Forgets, ForgottenFrom, SubCharges;
      ValidLinked(Now(), Spelled(), loose);
      var strs := NewStrings(filters);
      var tr := new Transaction();
      NothingWaits(tr);
      InsertAll(tr, filters, strs, subs);
      readable := forall k | 0 <= k < |strs| :: strs[k] in strings;
      if sent {
        UpdatedIs(old(Contents()), filters, subs, tr.paths, tr.actions);
        ChargesAre(tr.actions, subs);
        TransactionCommit(tr);
      } else {
        assert loose == old(loose);
        ForgottenNow(Now(), Spelled(), loose, tr.actions, tr.paths, old(Contents()), filters);
        TransactionRollBack(tr);
      }
    }
  }

  method Unused(taken: set<nat>) returns (n: nat)
    ensures n !in taken
  {
    n := 0;
    var left := taken;
    while left != {}
      invariant forall m | m in taken :: m in left || m < n
    {
      var m :| m in left;
      left := left - {m};
      if m >= n { n := m + 1; }
    }
  }

  // ----- whole runs -----

  /** What a client does to its tree: subscribe and unsubscribe requests, sent or failed, and
      reconnecting with a clean session. */
  datatype Op =
    | SubscribeOp(filters: seq<string>, subs: seq<Sub>, sent: bool)
    | UnsubscribeOp(filter: string, sent: bool)
    | CleanSessionOp

  ghost function StepMeaning(m: map<Path, Sub>, op: Op): map<Path, Sub> {
    match op
    case SubscribeOp(filters, subs, sent) => if sent && |filters| == |subs| then Updated(m, filters, subs) else m
    case UnsubscribeOp(filter, sent) => if sent then m - {Split(filter)} else m
    case CleanSessionOp => map[]
  }

  /** The map that a run leaves. */
  ghost function Meaning(ops: seq<Op>): map<Path, Sub> {
    if ops == [] then map[] else StepMeaning(Meaning(ops[..|ops| - 1]), ops[|ops| - 1])
  }

  /** Accepted and distinct filters are subscribed; what is unsubscribed was subscribed, or
      is not the beginning of what was. */
  ghost predicate LegalStep(m: map<Path, Sub>, op: Op) {
    match op
    case SubscribeOp(filters, subs, sent) =>
      && |filters| == |subs|
      && (forall i | 0 <= i < |filters| :: FilterPath(Split(filters[i])))
      && (forall i, j | 0 <= i < j < |filters| :: Split(filters[i]) != Split(filters[j]))
    case UnsubscribeOp(filter, sent) => sent ==> Split(filter) in m || forall f | f in m :: !(Split(filter) <= f)
    case CleanSessionOp => true
  }

  ghost predicate Legal(ops: seq<Op>) {
    forall i | 0 <= i < |ops| :: LegalStep(Meaning(ops[..i]), ops[i])
  }

  /** The userdata with a cleanup that the sent subscribes of a run handed over. */
  ghost function Charged(ops: seq<Op>): multiset<Held> {
    if ops == [] then multiset{}
    else
      var op := ops[|ops| - 1];
      Charged(ops[..|ops| - 1]) + (if op.SubscribeOp? && op.sent then SubCharges(op.subs) else multiset{})
  }

  /** The strings that the failed subscribes of a run forgot. */
  ghost function Forgotten(ops: seq<Op>): nat {
    if ops == [] then 0
    else
      var before, op := ops[..|ops| - 1], ops[|ops| - 1];
      Forgotten(before)
      + (if op.SubscribeOp? && !op.sent then ForgottenFrom(Meaning(before), op.filters, 0) else 0)
  }

  /** The subscriptions that hold a userdata. */
  ghost function HeldIn(m: map<Path, Sub>, u: Held): set<Path> {
    set p | p in m && OwedBy(m[p]) == Some(u)
  }

  lemma {:induction false} SameSize(ps: set<Path>, ns: set<NodePtr>, at: Places)
    requires forall p | p in ps :: p in at && at[p] in ns
    requires forall n | n in ns :: exists p :: p in ps && at[p] == n
    requires forall p, q | p in ps && q in ps && p != q :: at[p] != at[q]
    ensures |ps| == |ns|
    decreases ps
  {
    if ps != {} {
      var p :| p in ps;
      forall n | n in ns - {at[p]} ensures exists q :: q in ps - {p} && at[q] == n {
        var q :| q in ps && at[q] == n;
        assert q in ps - {p};
      }
      SameSize(ps - {p}, ns - {at[p]}, at);
      assert ps == ps - {p} + {p} && ns == ns - {at[p]} + {at[p]};
    } else {
      assert ns == {};
    }
  }

  lemma HoldersAreSubs(w: Snap, spells: Spells, loose: set<StrPtr>, u: Held)
    requires SnapOk(w, spells, {}, loose)
    ensures Linked(w.nodes, w.at, []) && |Holders(w.nodes, u)| == |HeldIn(Subs(w.nodes, w.at), u)|
  {
    hide Distinct, Hooked, Sound;
    var ps, ns := HeldIn(Subs(w.nodes, w.at), u), Holders(w.nodes, u);
    forall n | n in ns ensures exists p :: p in ps && w.at[p] == n {
      assert Placed(w.at, n);
      var p :| p in w.at && w.at[p] == n;
      assert Tagged(w.nodes[w.at[p]], spells, p);
      assert p in ps;
    }
    forall p | p in ps ensures p in w.at && w.at[p] in ns { OwedByNode(w, p); }
    forall p, q | p in ps && q in ps && p != q ensures w.at[p] != w.at[q] { LinkedApart(w.nodes, w.at, p, q); }
    SameSize(ps, ns, w.at);
  }

  lemma OwedByNode(w: Snap, p: Path)
    requires Linked(w.nodes, w.at, []) && p in Subs(w.nodes, w.at)
    ensures p in w.at && w.at[p] in w.nodes && OwedBy(Subs(w.nodes, w.at)[p]) == Owes(w.nodes[w.at[p]])
  {
    assert Hooked(w.nodes, w.at, p);
  }

  lemma AbsentOrSubscribed(nodes: Nodes, spells: Spells, at: Places, path: Path)
    requires Good(nodes, spells, at, {}) && path != []
    requires path in Subs(nodes, at) || forall f | f in Subs(nodes, at) :: !(path <= f)
    ensures path in Subs(nodes, at) || path !in at
  {
    hide Good, Subs;
    NodesArePrefixes(nodes, spells, at, path);
  }

  /** Removing what only begins a subscribed filter does break the tree: "a" after "a/b". */
  method RemoveBeginning(sub: Sub) returns (t: TopicTree)
    ensures fresh(t) && !t.Valid()
  {
    hide SnapOk, Linked, Conserved, SpellsOf, Subs, Split, FilterPath, Good;
    SplitExample();
    t := new TopicTree();
    t.Subscribe("a/b", sub);
    ValidLinked(t.Now(), t.Spelled(), t.loose);
    BeginningIsThere(t.nodes, t.Spelled(), t.at, sub);
    t.Unsubscribe("a");
  }

  lemma SplitExample()
    ensures Split("a/b") == ["a", "b"] && Split("a") == ["a"] && FilterPath(["a", "b"]) && FilterPath(["a"])
  {
    hide Split;
    SplitJoin(["a"]);
    SplitJoin(["a", "b"]);
    assert ["a", "b"][1..] == ["b"];
    assert Join(["a", "b"]) == "a/b";
  }

  lemma BeginningIsThere(nodes: Nodes, spells: Spells, at: Places, sub: Sub)
    requires Good(nodes, spells, at, {}) && Subs(nodes, at) == map[["a", "b"] := sub]
    ensures ["a"] in at && ["a"] !in Subs(nodes, at)
  {
    hide Subs, Linked, Sound;
    NodesArePrefixes(nodes, spells, at, ["a"]);
    assert ["a", "b"] in Subs(nodes, at) && ["a"] <= ["a", "b"];
  }

  /** And a failed request for "a", with "a/b" subscribed, forgets a string: it is still there when
      the tree is gone. */
  method ForgetString(sub: Sub) returns (t: TopicTree)
    ensures fresh(t) && t.nodes == map[] && |t.strings| == 1
  {
    hide SnapOk, Linked, Conserved, SpellsOf, Subs, Split, FilterPath, Good, Forgets, ForgottenFrom;
    SplitExample();
    t := new TopicTree();
    t.Subscribe("a/b", sub);
    ValidLinked(t.Now(), t.Spelled(), t.loose);
    assert t.Contents() == map[["a", "b"] := sub];
    OneForgotten(t.Contents(), sub);
    var _ := t.SubscribeAll(["a"], [sub], false);
    t.CleanUp();
    assert |t.strings.Keys| == |t.strings|;
  }

  lemma OneForgotten(m: map<Path, Sub>, sub: Sub)
    requires m == map[["a", "b"] := sub]
    ensures ForgottenFrom(m, ["a"], 0) == 1
  {
    hide Split;
    SplitExample();
    assert ["a", "b"] in m && ["a"] <= ["a", "b"];
    assert Forgets(m, ["a"], 0);
    assert ForgottenFrom(m, ["a"], 1) == 0;
  }

  /** Every run of the tree keeps to the simple map, and to its books: each userdata that was
      handed over with a cleanup is held by one subscription of the map or has been cleaned, each as often as it was
      handed over; and as many strings are forgotten as the failed requests say. */
  method Replay(ops: seq<Op>) returns (t: TopicTree)
    requires Legal(ops)
    ensures fresh(t) && t.Valid() && t.Contents() == Meaning(ops)
    ensures t.committed == Charged(ops) && |t.loose| == Forgotten(ops)
    ensures forall u: Held :: multiset(t.cleaned)[u] + |HeldIn(Meaning(ops), u)| == Charged(ops)[u]
  {
    hide SnapOk, Linked, Conserved, SpellsOf, Subs, Split, FilterPath, Updated, Forgets, ForgottenFrom, SubCharges,
         HeldIn;
    t := new TopicTree();
    ValidLinked(t.Now(), t.Spelled(), t.loose);
    assert ops[..0] == [];
    for i := 0 to |ops|
      invariant fresh(t) && t.Valid() && Linked(t.nodes, t.at, []) && t.Contents() == Meaning(ops[..i])
      invariant t.committed == Charged(ops[..i]) && |t.loose| == Forgotten(ops[..i])
    {
      assert LegalStep(Meaning(ops[..i]), ops[i]);
      assert ops[..i + 1][..i] == ops[..i] && ops[..i + 1][i] == ops[i];
      match ops[i] {
        case SubscribeOp(filters, subs, sent) => var _ := t.SubscribeAll(filters, subs, sent);
        case UnsubscribeOp(filter, sent) =>
          ValidLinked(t.Now(), t.Spelled(), t.loose);
          if sent { AbsentOrSubscribed(t.nodes, t.Spelled(), t.at, Split(filter)); }
          t.UnsubscribeRequest(filter, sent);
        case CleanSessionOp => t.StartCleanSession();
      }
      ValidLinked(t.Now(), t.Spelled(), t.loose);
    }
    assert ops[..|ops|] == ops;
    t.BooksAre();
  }

  /** After any run and the clean-up of the tree, no node is left, every userdata has been cleaned exactly as
      often as it was handed over, and the strings that are left are the forgotten ones. */
  method ReplayAndCleanUp(ops: seq<Op>) returns (t: TopicTree)
    requires Legal(ops)
    ensures fresh(t) && t.nodes == map[] && multiset(t.cleaned) == Charged(ops) && |t.strings| == Forgotten(ops)
  {
    hide SnapOk, Linked, Conserved, SpellsOf, Subs, Split, Meaning, Legal, Charged, Forgotten, HeldIn;
    t := Replay(ops);
    t.CleanUp();
    assert |t.strings.Keys| == |t.strings|;
  }

  /** After any run, a published topic calls exactly the filters of the simple map that
      reach it, each once, with what was subscribed last. */
  method ReplayAndPublish(ops: seq<Op>, topic: string) returns (calls: seq<Call>, ghost hits: seq<Path>)
    requires Legal(ops) && TopicPath(Split(topic))
    ensures |calls| == |hits| && forall i, j | 0 <= i < j < |hits| :: hits[i] != hits[j]
    ensures forall f :: f in hits <==> f in Meaning(ops) && Reaches(f, Split(topic))
    ensures forall i | 0 <= i < |hits| :: hits[i] in Meaning(ops) && calls[i] == CallOf(Meaning(ops)[hits[i]])
  {
    hide SnapOk, Linked, Conserved, SpellsOf, Subs, Split, Meaning, Legal, Reaches, TopicPath;
    var t := Replay(ops);
    calls, hits := t.Publish(topic);
  }
}
