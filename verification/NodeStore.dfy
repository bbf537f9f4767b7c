/**
 The memory of a topic tree (source/topic_tree.c) as values: nodes and filter
 strings live in maps from addresses, so that what has been released can no
 longer be read. Every invariant is stated over a ghost map from paths to node
 addresses.
 */
module NodeStore {
  import opened Options
  import opened Topics
  import opened Matching

  type NodePtr = nat
  type StrPtr = nat
  type Fn = nat
  type Userdata = nat

  /** An aws_byte_cursor into a filter string. */
  datatype Slice = Slice(str: StrPtr, off: nat, len: nat)

  /** What a caller subscribes with. */
  datatype Sub = Sub(qos: nat, callback: Fn, cleanup: Option<Fn>, userdata: Option<Userdata>)

  datatype Node = Node(
    topic: Slice,
    filter: Option<StrPtr>,
    owns: bool,
    qos: nat,
    callback: Option<Fn>,
    cleanup: Option<Fn>,
    userdata: Option<Userdata>,
    subtopics: map<string, NodePtr>)

  type Nodes = map<NodePtr, Node>
  type Strings = map<StrPtr, string>
  type Places = map<Path, NodePtr>

  /** The path that each live string spells. */
  type Spells = map<StrPtr, Path>

  ghost function SpellsOf(strings: Strings): Spells {
    map s | s in strings :: Split(strings[s])
  }

  /** Nodes and places at one moment. */
  datatype Snap = Snap(nodes: Nodes, at: Places)

  const ZERO_NODE := Node(Slice(0, 0, 0), None, false, 0, None, None, None, map[])

  predicate IsSubscription(n: Node) { n.callback.Some? }

  function SubOf(n: Node): Sub
    requires IsSubscription(n)
  {
    Sub(n.qos, n.callback.value, n.cleanup, n.userdata)
  }

  // ----- paths -----

  function Child(p: Path, s: string): Path { p + [s] }

  function Parent(p: Path): Path
    requires p != []
  {
    p[..|p| - 1]
  }

  function Last(p: Path): string
    requires p != []
  {
    p[|p| - 1]
  }

  lemma ChildParent(p: Path, s: string)
    ensures p != [] ==> Child(Parent(p), Last(p)) == p
    ensures Parent(Child(p, s)) == p && Last(Child(p, s)) == s
  {
  }

  lemma Below(p: Path, q: Path)
    requires p <= q && p != q
    ensures p <= Parent(q) && Child(p, q[|p|]) <= q
  {
  }

  // ----- shape -----

  /** The node at p has the children that the places say. */
  ghost predicate Hooked(nodes: Nodes, at: Places, p: Path) {
    && p in at && at[p] in nodes
    && (forall s :: s in nodes[at[p]].subtopics <==> Child(p, s) in at)
    && (forall s | s in nodes[at[p]].subtopics :: nodes[at[p]].subtopics[s] == at[Child(p, s)])
  }

  /** No two paths lead to one node: each node has a home. */
  ghost predicate Distinct(at: Places) {
    exists home :: Homes(at, home)
  }

  ghost predicate Homes(at: Places, home: map<NodePtr, Path>) {
    forall p | p in at :: at[p] in home && home[at[p]] == p
  }

  lemma OneHome(at: Places, p: Path, q: Path)
    requires Distinct(at) && p in at && q in at && at[p] == at[q]
    ensures p == q
  {
    var home :| Homes(at, home);
    assert home[at[p]] == p;
  }

  lemma OtherHomes(at: Places, p: Path, q: Path)
    requires Distinct(at) && p in at && q in at && p != q
    ensures at[p] != at[q]
  {
    var home :| Homes(at, home);
    assert home[at[p]] == p && home[at[q]] == q;
  }

  /** The nodes at and below path base hang together as the places say. */
  ghost predicate Linked(nodes: Nodes, at: Places, base: Path) {
    && base in at
    && Distinct(at)
    && (forall p | p in at && base <= p :: Hooked(nodes, at, p))
    && (forall p {:trigger Parent(p)} | p in at && base <= p && p != base :: Parent(p) in at)
  }

  lemma LinkedBelow(nodes: Nodes, at: Places, base: Path, p: Path)
    requires Linked(nodes, at, base) && p in at && base <= p
    ensures Linked(nodes, at, p)
  {
  }

  lemma {:induction false} PrefixesPresent(nodes: Nodes, at: Places, p: Path, q: Path)
    requires Linked(nodes, at, []) && q in at && p <= q
    ensures p in at
    decreases |q| - |p|
  {
    if p != q {
      Below(p, q);
      PrefixesPresent(nodes, at, p, Parent(q));
    }
  }

  lemma {:induction false} DepthBound(ps: set<Path>) returns (d: nat)
    ensures forall p | p in ps :: |p| <= d
  {
    if ps == {} { return 0; }
    var p :| p in ps;
    d := DepthBound(ps - {p});
    if |p| > d { d := |p|; }
  }

  /** A new child node, as aws_hash_table_create and s_topic_node_new leave it. */
  function Grow(nodes: Nodes, parent: NodePtr, s: string, n: NodePtr, node: Node): Nodes
    requires parent in nodes
  {
    nodes[n := node][parent := nodes[parent].(subtopics := nodes[parent].subtopics[s := n])]
  }

  lemma GrowLinked(nodes: Nodes, at: Places, p: Path, s: string, n: NodePtr, node: Node)
    requires Linked(nodes, at, []) && p in at && s !in nodes[at[p]].subtopics
    requires n !in nodes && node.subtopics == map[]
    ensures Linked(Grow(nodes, at[p], s, n, node), at[Child(p, s) := n], [])
  {
    var nodes', at' := Grow(nodes, at[p], s, n, node), at[Child(p, s) := n];
    assert forall q | q in at :: Hooked(nodes, at, q);
    var home :| Homes(at, home);
    assert Homes(at', home[n := Child(p, s)]);
    forall q | q in at' ensures Hooked(nodes', at', q) {
      GrowHooked(nodes, at, p, s, n, node, q);
    }
    forall q | q in at' && q != [] ensures Parent(q) in at' {
      ChildParent(p, s);
    }
  }

  lemma GrowHooked(nodes: Nodes, at: Places, p: Path, s: string, n: NodePtr, node: Node, q: Path)
    requires Linked(nodes, at, []) && p in at && s !in nodes[at[p]].subtopics
    requires n !in nodes && node.subtopics == map[]
    requires q == Child(p, s) || (q in at && Hooked(nodes, at, q))
    ensures Hooked(Grow(nodes, at[p], s, n, node), at[Child(p, s) := n], q)
  {
    hide Distinct;
    var nodes', at' := Grow(nodes, at[p], s, n, node), at[Child(p, s) := n];
    var c := Child(p, s);
    assert Hooked(nodes, at, p) && c !in at;
    if q in at && q != p { LinkedApart(nodes, at, q, p); }
    forall t ensures t in nodes'[at'[q]].subtopics <==> Child(q, t) in at' {
      ChildParent(p, s);
      ChildParent(q, t);
      if q == c { assert Child(c, t) !in at; }
    }
  }

  /** The addresses of the subtree at f. */
  ghost function Subtree(at: Places, f: Path): set<NodePtr> {
    set q | q in at && f <= q :: at[q]
  }

  /** Nodes and places once the subtree at f has been unhooked and released. */
  ghost function Cut(nodes: Nodes, at: Places, f: Path): Nodes
    requires f != [] && Parent(f) in at && at[Parent(f)] in nodes
  {
    var parent := at[Parent(f)];
    (nodes - Subtree(at, f))[parent := nodes[parent].(subtopics := nodes[parent].subtopics - {Last(f)})]
  }

  ghost function CutPlaces(at: Places, f: Path): Places {
    map q | q in at && !(f <= q) :: at[q]
  }

  /** The tree once the subtree at f has been unhooked. */
  ghost function Unhook(nodes: Nodes, at: Places, f: Path): Nodes
    requires f != [] && Parent(f) in at && at[Parent(f)] in nodes
  {
    var parent := at[Parent(f)];
    nodes[parent := nodes[parent].(subtopics := nodes[parent].subtopics - {Last(f)})]
  }

  lemma UnhookLinked(nodes: Nodes, at: Places, f: Path)
    requires Linked(nodes, at, []) && f != [] && f in at
    ensures Parent(f) in at && at[Parent(f)] in nodes && Linked(Unhook(nodes, at, f), CutPlaces(at, f), [])
  {
    assert Hooked(nodes, at, Parent(f));
    var nodes', at' := Unhook(nodes, at, f), CutPlaces(at, f);
    var home :| Homes(at, home);
    assert Homes(at', home);
    forall q | q in at' ensures Hooked(nodes', at', q) {
      UnhookHooked(nodes, at, f, q);
    }
    forall q | q in at' && q != [] ensures Parent(q) in at' {
      assert f <= Parent(q) ==> f <= q;
    }
  }

  lemma UnhookHooked(nodes: Nodes, at: Places, f: Path, q: Path)
    requires Linked(nodes, at, []) && f != [] && f in at && Parent(f) in at && at[Parent(f)] in nodes
    requires q in at && !(f <= q)
    ensures Hooked(Unhook(nodes, at, f), CutPlaces(at, f), q)
  {
    hide Distinct;
    var nodes', at' := Unhook(nodes, at, f), CutPlaces(at, f);
    assert Hooked(nodes, at, q) && Hooked(nodes, at, Parent(f));
    assert q != Parent(f) ==> at[q] != at[Parent(f)] by {
      if q != Parent(f) { LinkedApart(nodes, at, q, Parent(f)); }
    }
    forall t ensures t in nodes'[at'[q]].subtopics <==> Child(q, t) in at' {
      FirstOutside(f, q, t);
    }
    forall t | t in nodes'[at'[q]].subtopics ensures nodes'[at'[q]].subtopics[t] == at'[Child(q, t)] {
      FirstOutside(f, q, t);
    }
  }

  lemma LinkedApart(nodes: Nodes, at: Places, p: Path, q: Path)
    requires Linked(nodes, at, []) && p in at && q in at && p != q
    ensures at[p] != at[q]
  {
    hide Hooked;
    OtherHomes(at, p, q);
  }

  lemma FreeLinked(nodes: Nodes, at: Places, n: NodePtr)
    requires Linked(nodes, at, []) && forall q | q in at :: at[q] != n
    ensures Linked(nodes - {n}, at, [])
  {
    hide Distinct;
    forall q | q in at ensures Hooked(nodes - {n}, at, q) {
      assert Hooked(nodes, at, q);
    }
  }

  lemma FirstOutside(f: Path, q: Path, t: string)
    requires f != [] && !(f <= q)
    ensures f <= Child(q, t) <==> f == Child(q, t)
    ensures f == Child(q, t) <==> q == Parent(f) && t == Last(f)
  {
    ChildParent(f, t);
    ChildParent(q, t);
  }

  // ----- filter strings -----

  /** The node at p names its level by a slice of a live filter that runs through p. */
  ghost predicate Backed(n: Node, spells: Spells, p: Path)
    requires p != []
  {
    && n.filter.Some? && n.filter.value in spells
    && p <= spells[n.filter.value]
    && n.topic == SliceFor(p, n.filter.value)
  }

  function SliceFor(p: Path, s: StrPtr): Slice
    requires p != []
  {
    Slice(s, Offset(p, |p| - 1), |Last(p)|)
  }

  function Text(strings: Strings, c: Slice): string
    requires c.str in strings && c.off + c.len <= |strings[c.str]|
  {
    strings[c.str][c.off..c.off + c.len]
  }

  /** So the table key, which is read through the slice, is the last level of p. */
  lemma BackedReads(n: Node, strings: Strings, p: Path)
    requires p != [] && Backed(n, SpellsOf(strings), p)
    ensures n.topic.str in strings && n.topic.off + n.topic.len <= |strings[n.topic.str]|
    ensures Text(strings, n.topic) == Last(p)
  {
    var q := Split(strings[n.filter.value]);
    JoinSplit(strings[n.filter.value]);
    LevelInJoin(q, |p| - 1);
    OffsetOfPrefix(p, q, |p| - 1);
  }

  /** The string is owned by the node at the path it spells. */
  ghost predicate OwnedAt(nodes: Nodes, spells: Spells, at: Places, s: StrPtr) {
    && s in spells
    && spells[s] in at && at[spells[s]] in nodes
    && var n := nodes[at[spells[s]]];
       n.owns && n.filter == Some(s)
  }

  /** The node at p is backed, by a string with an owner or by one of refs. */
  ghost predicate Sound(nodes: Nodes, spells: Spells, at: Places, refs: set<StrPtr>, p: Path) {
    && p != [] && p in at && at[p] in nodes
    && Backed(nodes[at[p]], spells, p)
    && (nodes[at[p]].filter.value in refs || OwnedAt(nodes, spells, at, nodes[at[p]].filter.value))
  }

  /** A node that owns its string sits at the path the string spells; owning a
      string and being a subscription are the same thing. */
  ghost predicate Tagged(n: Node, spells: Spells, p: Path) {
    && (n.owns <==> IsSubscription(n))
    && (n.owns ==> n.filter.Some? && n.filter.value in spells && spells[n.filter.value] == p && FilterPath(p))
    && (!n.owns ==> n.cleanup.None? && n.userdata.None?)
  }

  ghost predicate Good(nodes: Nodes, spells: Spells, at: Places, refs: set<StrPtr>) {
    && Linked(nodes, at, [])
    && (forall p {:trigger Sound(nodes, spells, at, refs, p)} | p in at && p != [] ::
          Sound(nodes, spells, at, refs, p))
    && (forall p | p in at :: Tagged(nodes[at[p]], spells, p))
  }

  /** No string is forgotten: each live one has an owner or is in held, not both. */
  ghost predicate Accounted(nodes: Nodes, spells: Spells, at: Places, held: set<StrPtr>) {
    forall s | s in spells :: s in held <==> !OwnedAt(nodes, spells, at, s)
  }

  /** No node is forgotten. */
  ghost predicate Placed(at: Places, n: NodePtr) {
    exists p :: p in at && at[p] == n
  }

  ghost predicate Reachable(nodes: Nodes, at: Places, extra: set<NodePtr>) {
    forall n {:trigger Placed(at, n)} | n in nodes && n !in extra :: Placed(at, n)
  }

  /** The simple map that the tree stands for. */
  ghost function Subs(nodes: Nodes, at: Places): map<Path, Sub>
    requires Linked(nodes, at, [])
  {
    map p | p in at && IsSubscription(nodes[at[p]]) :: SubOf(nodes[at[p]])
  }

  /** Canonical shape: the nodes are exactly the prefixes of the subscribed filters. */
  lemma NodesArePrefixes(nodes: Nodes, spells: Spells, at: Places, p: Path)
    requires Good(nodes, spells, at, {})
    ensures p in at <==> p == [] || exists f | f in Subs(nodes, at) :: p <= f
  {
    if p in at && p != [] {
      assert Sound(nodes, spells, at, {}, p);
      var f := spells[nodes[at[p]].filter.value];
      assert f in Subs(nodes, at) && p <= f;
    }
    if f :| f in Subs(nodes, at) && p <= f {
      PrefixesPresent(nodes, at, p, f);
    }
  }

  /** The shape is a function of the subscriptions: two trees with the same map,
      whatever was done to reach them, have nodes at the same paths, with the same
      ownership, and the same names. */
  lemma ShapeIsCanonical(nodes: Nodes, spells: Spells, at: Places,
                         nodes': Nodes, spells': Spells, at': Places)
    requires Good(nodes, spells, at, {}) && Good(nodes', spells', at', {})
    requires Subs(nodes, at) == Subs(nodes', at')
    ensures at.Keys == at'.Keys
    ensures forall p | p in at :: SameNode(nodes, at, nodes', at', p)
  {
    SamePaths(nodes, spells, at, nodes', spells', at');
    SamePaths(nodes', spells', at', nodes, spells, at);
    forall p | p in at ensures SameNode(nodes, at, nodes', at', p) {
      assert p in Subs(nodes, at) <==> p in Subs(nodes', at');
      if p != [] { assert Sound(nodes, spells, at, {}, p) && Sound(nodes', spells', at', {}, p); }
      SameNodeAt(nodes, spells, at, nodes', spells', at', p);
    }
  }

  lemma SamePaths(nodes: Nodes, spells: Spells, at: Places,
                  nodes': Nodes, spells': Spells, at': Places)
    requires Good(nodes, spells, at, {}) && Good(nodes', spells', at', {})
    requires Subs(nodes, at) == Subs(nodes', at')
    ensures at.Keys <= at'.Keys
  {
    forall p | p in at ensures p in at' {
      NodesArePrefixes(nodes, spells, at, p);
      NodesArePrefixes(nodes', spells', at', p);
    }
  }

  lemma SameNodeAt(nodes: Nodes, spells: Spells, at: Places,
                   nodes': Nodes, spells': Spells, at': Places, p: Path)
    requires Hooked(nodes, at, p) && Hooked(nodes', at', p) && at.Keys == at'.Keys
    requires p != [] ==> Backed(nodes[at[p]], spells, p) && Backed(nodes'[at'[p]], spells', p)
    requires nodes[at[p]].owns == nodes'[at'[p]].owns
    ensures SameNode(nodes, at, nodes', at', p)
  {
    forall s ensures s in nodes[at[p]].subtopics <==> s in nodes'[at'[p]].subtopics {
      assert Child(p, s) in at.Keys <==> Child(p, s) in at'.Keys;
    }
  }

  /** The two nodes at p agree on all but the addresses. */
  ghost predicate SameNode(nodes: Nodes, at: Places, nodes': Nodes, at': Places, p: Path) {
    && p in at && at[p] in nodes && p in at' && at'[p] in nodes'
    && var n, n' := nodes[at[p]], nodes'[at'[p]];
       && n.owns == n'.owns
       && (p != [] ==> n.topic.off == n'.topic.off && n.topic.len == n'.topic.len)
       && n.subtopics.Keys == n'.subtopics.Keys
  }

  /** A '#' node is a subscription without children, which dispatch relies on. */
  lemma HashIsLeaf(nodes: Nodes, spells: Spells, at: Places, p: Path)
    requires Good(nodes, spells, at, {})
    requires p in at && p != [] && Last(p) == HASH
    ensures IsSubscription(nodes[at[p]]) && nodes[at[p]].subtopics == map[]
  {
    HashEndsFilter(nodes, spells, at, p);
    forall s ensures s !in nodes[at[p]].subtopics {
      NodesArePrefixes(nodes, spells, at, Child(p, s));
      assert Hooked(nodes, at, p);
      forall f | f in Subs(nodes, at) ensures !(Child(p, s) <= f) {
        HashOnlyLast(p, s, f);
      }
    }
  }

  lemma HashOnlyLast(p: Path, s: string, f: Path)
    requires p != [] && Last(p) == HASH && FilterPath(f)
    ensures !(Child(p, s) <= f)
  {
    assert '#' in Last(p) && Child(p, s)[|p| - 1] == Last(p);
    assert |f| > |p| ==> '#' !in f[|p| - 1];
  }

  lemma HashEndsFilter(nodes: Nodes, spells: Spells, at: Places, p: Path)
    requires Good(nodes, spells, at, {})
    requires p in at && p != [] && Last(p) == HASH
    ensures IsSubscription(nodes[at[p]])
  {
    NodesArePrefixes(nodes, spells, at, p);
    var f :| f in Subs(nodes, at) && p <= f;
    assert f[|p| - 1] == HASH && '#' in f[|p| - 1];
    assert p == f;
  }

  // ----- inserting -----

  function NewNode(p: Path, str: StrPtr): Node
    requires p != []
  {
    ZERO_NODE.(topic := SliceFor(p, str), filter := Some(str))
  }

  ghost predicate SameOwners(nodes: Nodes, at: Places, nodes': Nodes, at': Places, spells: Spells) {
    forall x :: OwnedAt(nodes', spells, at', x) <==> OwnedAt(nodes, spells, at, x)
  }

  /** Adding a node for the next level of a filter in refs. */
  lemma GrowGood(nodes: Nodes, spells: Spells, at: Places, refs: set<StrPtr>,
                 p: Path, s: string, n: NodePtr, str: StrPtr)
    requires Good(nodes, spells, at, refs) && p in at && s !in nodes[at[p]].subtopics
    requires n !in nodes && str in refs && str in spells && Child(p, s) <= spells[str]
    ensures var nodes', at' := Grow(nodes, at[p], s, n, NewNode(Child(p, s), str)), at[Child(p, s) := n];
            && Good(nodes', spells, at', refs)
            && Subs(nodes', at') == Subs(nodes, at)
            && SameOwners(nodes, at, nodes', at', spells)
            && (forall q | q in at :: Kept(nodes, at, nodes', at', q))
            && (Reachable(nodes, at, {}) ==> Reachable(nodes', at', {}))
  {
    hide Linked, Tagged, SameFields, OwnedAt, Backed;
    var c := Child(p, s);
    GrowKept(nodes, at, p, s, n, NewNode(c, str));
    var nodes', at' := Grow(nodes, at[p], s, n, NewNode(c, str)), at[c := n];
    GrowLinked(nodes, at, p, s, n, NewNode(c, str));
    OwnersKept(nodes, at, nodes', at', spells, c);
    forall q | q in at' && q != [] ensures Sound(nodes', spells, at', refs, q) {
      if q != c {
        assert Sound(nodes, spells, at, refs, q);
        SoundKept(nodes, at, nodes', at', spells, refs, q);
      } else {
        NewNodeBacked(c, str, spells);
      }
    }
    forall q | q in at' ensures Tagged(nodes'[at'[q]], spells, q) {
      if q != c {
        assert Tagged(nodes[at[q]], spells, q);
        TaggedKept(nodes[at[q]], nodes'[at[q]], spells, q);
      } else {
        NewNodeBacked(c, str, spells);
      }
    }
    SubsKept(nodes, at, nodes', at', c);
    if Reachable(nodes, at, {}) { ReachableGrow(nodes, at, n, c, nodes'); }
  }

  lemma GrowKept(nodes: Nodes, at: Places, p: Path, s: string, n: NodePtr, node: Node)
    requires Linked(nodes, at, []) && p in at && s !in nodes[at[p]].subtopics && n !in nodes
    ensures Child(p, s) !in at && at[p] in nodes
    ensures forall q | q in at :: Kept(nodes, at, Grow(nodes, at[p], s, n, node), at[Child(p, s) := n], q)
  {
    assert Hooked(nodes, at, p);
    forall q | q in at ensures Kept(nodes, at, Grow(nodes, at[p], s, n, node), at[Child(p, s) := n], q) {
      assert Hooked(nodes, at, q);
    }
  }

  lemma NewNodeBacked(c: Path, str: StrPtr, spells: Spells)
    requires c != [] && str in spells && c <= spells[str]
    ensures Backed(NewNode(c, str), spells, c) && Tagged(NewNode(c, str), spells, c)
  {
  }

  lemma TaggedKept(a: Node, b: Node, spells: Spells, q: Path)
    requires SameFields(a, b) && Tagged(a, spells, q)
    ensures Tagged(b, spells, q)
  {
  }

  /** The same owners, when the only new node, at c, owns nothing. */
  lemma OwnersKept(nodes: Nodes, at: Places, nodes': Nodes, at': Places, spells: Spells, c: Path)
    requires forall q | q in at :: Kept(nodes, at, nodes', at', q)
    requires at'.Keys == at.Keys + {c} && c !in at && at'[c] in nodes' && !nodes'[at'[c]].owns
    ensures SameOwners(nodes, at, nodes', at', spells)
  {
    forall x ensures OwnedAt(nodes', spells, at', x) <==> OwnedAt(nodes, spells, at, x) {
      if x in spells && spells[x] in at { assert Kept(nodes, at, nodes', at', spells[x]); }
    }
  }

  lemma SoundKept(nodes: Nodes, at: Places, nodes': Nodes, at': Places, spells: Spells, refs: set<StrPtr>, q: Path)
    requires Sound(nodes, spells, at, refs, q) && Kept(nodes, at, nodes', at', q)
    requires SameOwners(nodes, at, nodes', at', spells)
    ensures Sound(nodes', spells, at', refs, q)
  {
    var x := nodes[at[q]].filter.value;
    assert OwnedAt(nodes', spells, at', x) <==> OwnedAt(nodes, spells, at, x);
  }

  predicate SameFields(a: Node, b: Node) {
    a.(subtopics := map[]) == b.(subtopics := map[])
  }

  /** The node at q is the same in both, but for its children. */
  ghost predicate Kept(nodes: Nodes, at: Places, nodes': Nodes, at': Places, q: Path) {
    && q in at && at[q] in nodes && q in at' && at'[q] == at[q] && at[q] in nodes'
    && SameFields(nodes[at[q]], nodes'[at[q]])
  }

  lemma SubsKept(nodes: Nodes, at: Places, nodes': Nodes, at': Places, c: Path)
    requires Linked(nodes, at, []) && Linked(nodes', at', [])
    requires at'.Keys == at.Keys + {c} && at'[c] in nodes' && !IsSubscription(nodes'[at'[c]]) && c !in at
    requires forall q | q in at :: Kept(nodes, at, nodes', at', q)
    ensures Subs(nodes', at') == Subs(nodes, at)
  {
    hide Linked, SameFields;
    forall q | q in at
      ensures at[q] in nodes && at'[q] in nodes'
      ensures IsSubscription(nodes'[at'[q]]) <==> IsSubscription(nodes[at[q]])
      ensures IsSubscription(nodes[at[q]]) ==> SubOf(nodes'[at'[q]]) == SubOf(nodes[at[q]])
    {
      assert Kept(nodes, at, nodes', at', q);
      SameSub(nodes[at[q]], nodes'[at'[q]]);
    }
  }

  lemma SameSub(a: Node, b: Node)
    requires SameFields(a, b)
    ensures IsSubscription(a) <==> IsSubscription(b)
    ensures IsSubscription(a) ==> SubOf(a) == SubOf(b)
  {
  }

  lemma ReachableGrow(nodes: Nodes, at: Places, n: NodePtr, c: Path, nodes': Nodes)
    requires Reachable(nodes, at, {}) && c !in at && nodes'.Keys == nodes.Keys + {n}
    ensures Reachable(nodes', at[c := n], {})
  {
    var at' := at[c := n];
    forall m | m in nodes' ensures Placed(at', m) {
      if m == n { assert at'[c] == n; } else {
        assert Placed(at, m);
        var q :| q in at && at[q] == m;
        assert at'[q] == m;
      }
    }
  }

  /** The first node added, cut off again, leaves what there was. */
  lemma GrowCut(nodes: Nodes, at: Places, p: Path, s: string, n: NodePtr, node: Node)
    requires Linked(nodes, at, []) && p in at && s !in nodes[at[p]].subtopics && n !in nodes
    ensures var nodes', at' := Grow(nodes, at[p], s, n, node), at[Child(p, s) := n];
            var f := Child(p, s);
            f != [] && Parent(f) == p && at'[p] in nodes' && Cut(nodes', at', f) == nodes && CutPlaces(at', f) == at
  {
    var f := Child(p, s);
    var nodes', at' := Grow(nodes, at[p], s, n, node), at[f := n];
    ChildParent(p, s);
    assert Hooked(nodes, at, p) && f !in at;
    forall q | q in at ensures !(f <= q) {
      if f <= q { PrefixesPresent(nodes, at, f, q); assert false; }
    }
    assert at'[f] == n && f <= f;
    assert Subtree(at', f) == {n};
    assert at'[p] == at[p] != n;
    assert nodes'[at[p]].subtopics - {s} == nodes[at[p]].subtopics;
    assert Cut(nodes', at', f) == nodes;
  }

  /** And so do the nodes added below it. */
  lemma GrowCutBelow(nodes: Nodes, at: Places, p: Path, s: string, n: NodePtr, node: Node, f: Path)
    requires Linked(nodes, at, []) && p in at && s !in nodes[at[p]].subtopics && n !in nodes
    requires f != [] && Parent(f) in at && f <= p
    ensures var nodes', at' := Grow(nodes, at[p], s, n, node), at[Child(p, s) := n];
            && Parent(f) in at' && at'[Parent(f)] in nodes' && at[Parent(f)] in nodes
            && Cut(nodes', at', f) == Cut(nodes, at, f) && CutPlaces(at', f) == CutPlaces(at, f)
  {
    var c := Child(p, s);
    var nodes', at' := Grow(nodes, at[p], s, n, node), at[c := n];
    assert Hooked(nodes, at, p) && Hooked(nodes, at, Parent(f)) && c !in at;
    assert f <= c && !(f <= Parent(f));
    assert at'[c] == n;
    forall m | m in Subtree(at, f) ensures m in Subtree(at', f) {
      var q :| q in at && f <= q && at[q] == m;
      assert at'[q] == m;
    }
    assert Subtree(at', f) == Subtree(at, f) + {n};
    assert at[p] in Subtree(at, f);
    assert at[Parent(f)] != at[p];
  }

  lemma GoodMono(nodes: Nodes, spells: Spells, at: Places, refs: set<StrPtr>, refs': set<StrPtr>)
    requires Good(nodes, spells, at, refs) && refs <= refs'
    ensures Good(nodes, spells, at, refs')
  {
    forall p | p in at && p != [] ensures Sound(nodes, spells, at, refs', p) {
      assert Sound(nodes, spells, at, refs, p);
    }
  }

  /** A string that no node refers to may be released. */
  lemma GoodWithout(nodes: Nodes, spells: Spells, at: Places, refs: set<StrPtr>, held: set<StrPtr>, str: StrPtr)
    requires Good(nodes, spells, at, refs) && Accounted(nodes, spells, at, held)
    requires str in held && str !in refs && str in spells
    ensures Good(nodes, spells - {str}, at, refs)
    ensures Accounted(nodes, spells - {str}, at, held) && Accounted(nodes, spells - {str}, at, held - {str})
  {
    var spells' := spells - {str};
    assert !OwnedAt(nodes, spells, at, str);
    forall x | x in spells' ensures OwnedAt(nodes, spells', at, x) <==> OwnedAt(nodes, spells, at, x) {}
    forall p | p in at && p != [] ensures Sound(nodes, spells', at, refs, p) {
      assert Sound(nodes, spells, at, refs, p);
    }
    forall p | p in at ensures Tagged(nodes[at[p]], spells', p) {
      assert Hooked(nodes, at, p) && Tagged(nodes[at[p]], spells, p);
      if nodes[at[p]].owns { assert OwnedAt(nodes, spells, at, nodes[at[p]].filter.value); }
    }
  }

  // ----- rewriting the fields of one node -----

  lemma SetLinked(nodes: Nodes, at: Places, p: Path, x: Node)
    requires Linked(nodes, at, []) && p in at && x.subtopics == nodes[at[p]].subtopics
    ensures Linked(nodes[at[p] := x], at, [])
  {
    forall q | q in at ensures Hooked(nodes[at[p] := x], at, q) {
      assert Hooked(nodes, at, q);
    }
  }

  lemma SetOther(nodes: Nodes, at: Places, p: Path, x: Node, q: Path)
    requires Distinct(at) && p in at && q in at && q != p && at[q] in nodes
    ensures nodes[at[p] := x][at[q]] == nodes[at[q]]
  {
    if at[p] == at[q] { OneHome(at, p, q); }
  }

  lemma SetReachable(nodes: Nodes, at: Places, p: Path, x: Node)
    requires Reachable(nodes, at, {}) && p in at && at[p] in nodes
    ensures Reachable(nodes[at[p] := x], at, {})
  {
    forall m | m in nodes[at[p] := x] ensures Placed(at, m) {
    }
  }

  lemma SetSubs(nodes: Nodes, at: Places, p: Path, x: Node)
    requires Linked(nodes, at, []) && p in at && x.subtopics == nodes[at[p]].subtopics
    ensures Linked(nodes[at[p] := x], at, [])
    ensures Subs(nodes[at[p] := x], at)
         == if IsSubscription(x) then Subs(nodes, at)[p := SubOf(x)] else Subs(nodes, at) - {p}
  {
    SetLinked(nodes, at, p, x);
    forall q | q in at && q != p ensures nodes[at[p] := x][at[q]] == nodes[at[q]] {
      assert Hooked(nodes, at, q);
      SetOther(nodes, at, p, x, q);
    }
  }

  // ----- userdata -----

  type Held = (Fn, Userdata)

  /** The cleanup a node owes, if any. */
  function Owes(n: Node): Option<Held> {
    if n.cleanup.Some? && n.userdata.Some? then Some((n.cleanup.value, n.userdata.value)) else None
  }

  ghost function Holders(nodes: Nodes, u: Held): set<NodePtr> {
    set n | n in nodes && Owes(nodes[n]) == Some(u)
  }

  /** Every committed userdata is held by a node or has been cleaned, exactly once. */
  ghost predicate Conserved(nodes: Nodes, cleaned: seq<Held>, committed: multiset<Held>) {
    forall u: Held :: multiset(cleaned)[u] + |Holders(nodes, u)| == committed[u]
  }

  ghost function Charge(o: Option<Held>): multiset<Held> {
    if o.Some? then multiset{o.value} else multiset{}
  }

  /** Overwriting a node keeps the books straight when what it owed is cleaned and
      what it owes now is committed. */
  lemma ConservedUpdate(nodes: Nodes, n: NodePtr, x: Node, cleaned: seq<Held>, cleaned': seq<Held>,
                        committed: multiset<Held>, committed': multiset<Held>)
    requires Conserved(nodes, cleaned, committed)
    requires multiset(cleaned') == multiset(cleaned) + (if n in nodes then Charge(Owes(nodes[n])) else multiset{})
    requires committed' == committed + Charge(Owes(x))
    ensures Conserved(nodes[n := x], cleaned', committed')
  {
    forall u: Held
      ensures multiset(cleaned')[u] + |Holders(nodes[n := x], u)| == committed'[u]
    {
      assert multiset(cleaned)[u] + |Holders(nodes, u)| == committed[u];
      HoldersUpdate(nodes, n, x, u);
    }
  }

  lemma HoldersUpdate(nodes: Nodes, n: NodePtr, x: Node, u: Held)
    ensures |Holders(nodes[n := x], u)| + (if n in nodes && Owes(nodes[n]) == Some(u) then 1 else 0)
         == |Holders(nodes, u)| + (if Owes(x) == Some(u) then 1 else 0)
  {
    assert nodes[n := x] - {n} == nodes - {n};
    HoldersWithout(nodes, n, u);
    HoldersWithout(nodes[n := x], n, u);
  }

  lemma HoldersWithout(nodes: Nodes, n: NodePtr, u: Held)
    ensures |Holders(nodes, u)| == |Holders(nodes - {n}, u)|
            + (if n in nodes && Owes(nodes[n]) == Some(u) then 1 else 0)
  {
    if n in nodes && Owes(nodes[n]) == Some(u) {
      assert Holders(nodes, u) == Holders(nodes - {n}, u) + {n};
    } else {
      assert Holders(nodes, u) == Holders(nodes - {n}, u);
    }
  }

  /** Changing what a node does not owe changes nothing in the books. */
  lemma ConservedSame(nodes: Nodes, n: NodePtr, x: Node, cleaned: seq<Held>, committed: multiset<Held>)
    requires Conserved(nodes, cleaned, committed)
    requires Owes(x) == if n in nodes then Owes(nodes[n]) else None
    ensures Conserved(nodes[n := x], cleaned, committed)
  {
    forall u: Held
      ensures multiset(cleaned)[u] + |Holders(nodes[n := x], u)| == committed[u]
    {
      assert multiset(cleaned)[u] + |Holders(nodes, u)| == committed[u];
      HoldersUpdate(nodes, n, x, u);
    }
  }

  lemma ConservedUnhook(nodes: Nodes, n: NodePtr, s: string, cleaned: seq<Held>, committed: multiset<Held>)
    requires Conserved(nodes, cleaned, committed) && n in nodes
    ensures Conserved(nodes[n := nodes[n].(subtopics := nodes[n].subtopics - {s})], cleaned, committed)
  {
    ConservedSame(nodes, n, nodes[n].(subtopics := nodes[n].subtopics - {s}), cleaned, committed);
  }

  lemma ConservedFree(nodes: Nodes, n: NodePtr, cleaned: seq<Held>, cleaned': seq<Held>, committed: multiset<Held>)
    requires Conserved(nodes, cleaned, committed) && n in nodes
    requires multiset(cleaned') == multiset(cleaned) + Charge(Owes(nodes[n]))
    ensures Conserved(nodes - {n}, cleaned', committed)
  {
    forall u: Held
      ensures multiset(cleaned')[u] + |Holders(nodes - {n}, u)| == committed[u]
    {
      assert multiset(cleaned)[u] + |Holders(nodes, u)| == committed[u];
      HoldersWithout(nodes, n, u);
    }
  }

  lemma ConservedGrow(nodes: Nodes, parent: NodePtr, s: string, n: NodePtr, node: Node,
                      cleaned: seq<Held>, committed: multiset<Held>)
    requires Conserved(nodes, cleaned, committed) && parent in nodes && n !in nodes && Owes(node) == None
    ensures Conserved(Grow(nodes, parent, s, n, node), cleaned, committed)
  {
    ConservedSame(nodes, n, node, cleaned, committed);
    var x := nodes[parent].(subtopics := nodes[parent].subtopics[s := n]);
    ConservedSame(nodes[n := node], parent, x, cleaned, committed);
  }

  // ----- releasing a subtree -----

  /** The strings owned at or below p. */
  ghost function OwnedBelow(nodes: Nodes, at: Places, p: Path): set<StrPtr> {
    set q | q in at && p <= q && Owned(nodes, at, q).Some? :: Owned(nodes, at, q).value
  }

  ghost function Owned(nodes: Nodes, at: Places, q: Path): Option<StrPtr> {
    if q in at && at[q] in nodes && nodes[at[q]].owns then nodes[at[q]].filter else None
  }

  /** Each string owned at or below p is live, and owned once. */
  ghost predicate OwnedOnce(nodes: Nodes, spells: Spells, at: Places, p: Path) {
    forall q | q in at && p <= q && at[q] in nodes && nodes[at[q]].owns ::
      nodes[at[q]].filter.Some? && nodes[at[q]].filter.value in spells && spells[nodes[at[q]].filter.value] == q
  }

  ghost predicate OwesNothing(nodes: Nodes, at: Places, p: Path) {
    forall q | q in at && p <= q && at[q] in nodes :: Owes(nodes[at[q]]) == None
  }

  /** q lies below p, under one of the children not in left. */
  ghost predicate Done(p: Path, left: set<string>, q: Path) {
    p <= q && p != q && q[|p|] !in left
  }

  ghost predicate Partly(n0: Nodes, nodes: Nodes, at: Places, p: Path, left: set<string>) {
    && p in at && at[p] in n0 && at[p] in nodes
    && left <= n0[at[p]].subtopics.Keys
    && nodes[at[p]] == n0[at[p]].(subtopics := map s | s in left :: n0[at[p]].subtopics[s])
    && (forall m | m in nodes && m != at[p] :: m in n0 && nodes[m] == n0[m])
    && (forall q | q in at && Done(p, left, q) :: at[q] !in nodes)
    && (forall m | m in n0 && m !in nodes :: exists q :: q in at && Done(p, left, q) && at[q] == m)
  }

  /** The string s is owned by a node that is done. */
  ghost predicate OwnedByDone(n0: Nodes, at: Places, p: Path, left: set<string>, s: StrPtr) {
    exists q :: q in at && Done(p, left, q) && Owned(n0, at, q) == Some(s)
  }

  ghost predicate PartlyFreed(n0: Nodes, s0: Strings, strings: Strings, at: Places, p: Path, left: set<string>) {
    && (forall s | s in strings :: s in s0 && strings[s] == s0[s])
    && (forall s | s in s0 :: s in strings <==> !OwnedByDone(n0, at, p, left, s))
  }

  lemma DestroyStart(nodes: Nodes, strings: Strings, at: Places, p: Path)
    requires Linked(nodes, at, p)
    ensures p in at && at[p] in nodes && Partly(nodes, nodes, at, p, nodes[at[p]].subtopics.Keys)
    ensures PartlyFreed(nodes, strings, strings, at, p, nodes[at[p]].subtopics.Keys)
  {
    hide Distinct;
    assert Hooked(nodes, at, p);
    var left := nodes[at[p]].subtopics.Keys;
    assert nodes[at[p]].subtopics == map s | s in left :: nodes[at[p]].subtopics[s];
    forall q | q in at && p <= q && p != q ensures q[|p|] in left {
      Below(p, q);
      PrefixesBelow(nodes, at, p, Child(p, q[|p|]), q);
    }
  }

  lemma {:induction false} PrefixesBelow(nodes: Nodes, at: Places, base: Path, p: Path, q: Path)
    requires Linked(nodes, at, base) && q in at && base <= p <= q
    ensures p in at
    decreases |q| - |p|
  {
    hide Distinct, Hooked;
    if p != q {
      Below(p, q);
      PrefixesBelow(nodes, at, base, p, Parent(q));
    }
  }

  /** A child not done yet still has all of its subtree. */
  lemma DestroyNext(n0: Nodes, nodes: Nodes, at: Places, p: Path, left: set<string>, s: string)
    requires Linked(n0, at, p) && Partly(n0, nodes, at, p, left) && s in left
    ensures Linked(nodes, at, Child(p, s)) && at[Child(p, s)] == nodes[at[p]].subtopics[s]
    ensures forall q | q in at && Child(p, s) <= q :: at[q] in n0 && at[q] in nodes && nodes[at[q]] == n0[at[q]]
  {
    var c := Child(p, s);
    assert Hooked(n0, at, p) && c in at;
    forall q | q in at && c <= q ensures at[q] in n0 && at[q] in nodes && nodes[at[q]] == n0[at[q]] {
      assert p <= q && p != q && q[|p|] == s && Hooked(n0, at, q);
      forall r | r in at && Done(p, left, r) ensures at[r] != at[q] {
        if at[r] == at[q] { OneHome(at, r, q); }
      }
      if at[q] == at[p] { OneHome(at, p, q); }
    }
    forall q | q in at && c <= q ensures Hooked(nodes, at, q) {
      assert p <= q && Hooked(n0, at, q);
    }
    forall q | q in at && c <= q && q != c ensures Parent(q) in at {
      assert p <= q && p != q;
    }
  }

  lemma DestroyStep(n0: Nodes, nodes: Nodes, at: Places, p: Path, left: set<string>, s: string, nodes': Nodes)
    requires Linked(n0, at, p) && Partly(n0, nodes, at, p, left) && s in left
    requires at[p] in nodes'
    requires nodes' == (nodes - Subtree(at, Child(p, s)))
                       [at[p] := nodes[at[p]].(subtopics := nodes[at[p]].subtopics - {s})]
    ensures Partly(n0, nodes', at, p, left - {s})
  {
    hide Hooked;
    var c := Child(p, s);
    forall q | q in at && Done(p, left - {s}, q) ensures at[q] !in nodes' {
      if q[|p|] == s { assert c <= q && at[q] in Subtree(at, c); }
      if at[q] == at[p] { OneHome(at, p, q); }
    }
    forall m | m in n0 && m !in nodes' ensures exists q :: q in at && Done(p, left - {s}, q) && at[q] == m {
      if m in nodes {
        var q :| q in at && c <= q && at[q] == m;
        assert q[|p|] == c[|p|] == s;
        assert Done(p, left - {s}, q);
      } else {
        var q :| q in at && Done(p, left, q) && at[q] == m;
        assert Done(p, left - {s}, q);
      }
    }
  }

  lemma ParentNotBelow(at: Places, p: Path, s: string)
    requires Distinct(at) && p in at
    ensures at[p] !in Subtree(at, Child(p, s))
  {
    forall q | q in at && Child(p, s) <= q ensures at[q] != at[p] {
      if at[q] == at[p] { OneHome(at, p, q); }
    }
  }

  lemma FreeStep(n0: Nodes, nodes: Nodes, s0: Strings, strings: Strings, at: Places, p: Path, left: set<string>,
                 s: string)
    requires s in left && PartlyFreed(n0, s0, strings, at, p, left)
    requires forall q | q in at && Child(p, s) <= q :: Owned(nodes, at, q) == Owned(n0, at, q)
    ensures PartlyFreed(n0, s0, strings - OwnedBelow(nodes, at, Child(p, s)), at, p, left - {s})
  {
    hide Owned;
    var c := Child(p, s);
    var strings' := strings - OwnedBelow(nodes, at, c);
    forall x | x in s0 ensures x in strings' <==> !OwnedByDone(n0, at, p, left - {s}, x) {
      if x in OwnedBelow(nodes, at, c) {
        var q :| q in at && c <= q && Owned(nodes, at, q) == Some(x);
        assert q[|p|] == c[|p|] == s && Done(p, left - {s}, q);
      }
      if OwnedByDone(n0, at, p, left, x) {
        var q :| q in at && Done(p, left, q) && Owned(n0, at, q) == Some(x);
        assert Done(p, left - {s}, q);
      }
      if OwnedByDone(n0, at, p, left - {s}, x) {
        var q :| q in at && Done(p, left - {s}, q) && Owned(n0, at, q) == Some(x);
        if q[|p|] == s { assert c <= q; } else { assert Done(p, left, q); }
      }
    }
  }

  lemma DestroyLast(n0: Nodes, nodes: Nodes, at: Places, p: Path)
    requires Linked(n0, at, p) && Partly(n0, nodes, at, p, {})
    ensures nodes - {at[p]} == n0 - Subtree(at, p)
  {
    hide Hooked, Distinct;
    assert p <= p && at[p] in Subtree(at, p);
    forall m | m in n0 ensures m in nodes - {at[p]} <==> m !in Subtree(at, p) {
      if m in Subtree(at, p) {
        var q :| q in at && p <= q && at[q] == m;
        assert q == p || Done(p, {}, q);
      }
    }
  }

  lemma FreeLast(n0: Nodes, s0: Strings, strings: Strings, at: Places, p: Path)
    requires p in at && at[p] in n0 && PartlyFreed(n0, s0, strings, at, p, {})
    ensures strings - (if Owned(n0, at, p).Some? then {Owned(n0, at, p).value} else {}) == s0 - OwnedBelow(n0, at, p)
  {
    hide Owned;
    var strings' := strings - (if Owned(n0, at, p).Some? then {Owned(n0, at, p).value} else {});
    forall x | x in s0 ensures x in strings' <==> x !in OwnedBelow(n0, at, p) {
      if x in OwnedBelow(n0, at, p) {
        var q :| q in at && p <= q && Owned(n0, at, q) == Some(x);
        assert q == p || Done(p, {}, q);
      }
      if OwnedByDone(n0, at, p, {}, x) {
        var q :| q in at && Done(p, {}, q) && Owned(n0, at, q) == Some(x);
        assert p <= q;
      }
      assert p <= p;
    }
  }

  /** The string of p itself outlives its children's. */
  lemma StillLive(n0: Nodes, s0: Strings, strings: Strings, spells: Spells, at: Places, p: Path)
    requires p in at && at[p] in n0 && n0[at[p]].owns && OwnedOnce(n0, spells, at, p)
    requires PartlyFreed(n0, s0, strings, at, p, {}) && n0[at[p]].filter.value in s0
    ensures n0[at[p]].filter.value in strings
  {
    var x := n0[at[p]].filter.value;
    assert p <= p && spells[x] == p;
    forall q | q in at && Done(p, {}, q) ensures Owned(n0, at, q) != Some(x) {
    }
  }

  /** The strings owned below c are still live while c is not done. */
  lemma LiveBelow(n0: Nodes, s0: Strings, strings: Strings, spells: Spells, at: Places, p: Path, left: set<string>,
                  s: string)
    requires OwnedOnce(n0, spells, at, p) && s in left && OwnedBelow(n0, at, p) <= s0.Keys
    requires PartlyFreed(n0, s0, strings, at, p, left)
    ensures OwnedBelow(n0, at, Child(p, s)) <= strings.Keys
  {
    var c := Child(p, s);
    forall x | x in OwnedBelow(n0, at, c) ensures x in strings {
      var q :| q in at && c <= q && Owned(n0, at, q) == Some(x);
      assert p <= q && spells[x] == q && q[|p|] == c[|p|] == s && x in OwnedBelow(n0, at, p);
      forall r | r in at && Done(p, left, r) ensures Owned(n0, at, r) != Some(x) {
      }
    }
  }

  /** What the release of the child s relies on. */
  lemma DestroyChild(n0: Nodes, nodes: Nodes, s0: Strings, strings: Strings, spells: Spells,
                     at: Places, p: Path, left: set<string>, s: string, depth: nat)
    requires Linked(n0, at, p) && Partly(n0, nodes, at, p, left) && PartlyFreed(n0, s0, strings, at, p, left)
             && s in left
    requires OwnedOnce(n0, spells, at, p) && OwnedBelow(n0, at, p) <= s0.Keys <= spells.Keys
    requires forall q | q in at :: |q| <= |p| + depth
    ensures depth > 0 && strings.Keys <= spells.Keys
    ensures Linked(nodes, at, Child(p, s)) && at[Child(p, s)] == nodes[at[p]].subtopics[s]
    ensures OwnedOnce(nodes, spells, at, Child(p, s)) && OwnedBelow(nodes, at, Child(p, s)) <= strings.Keys
    ensures OwesNothing(n0, at, p) ==> OwesNothing(nodes, at, Child(p, s))
    ensures forall q | q in at && Child(p, s) <= q :: Owned(nodes, at, q) == Owned(n0, at, q)
  {
    hide Linked, Partly, Owes;
    var c := Child(p, s);
    DestroyNext(n0, nodes, at, p, left, s);
    LiveBelow(n0, s0, strings, spells, at, p, left, s);
    LinkedBase(nodes, at, c);
    assert OwnedBelow(nodes, at, c) == OwnedBelow(n0, at, c) by {
      assert forall q | q in at && c <= q :: Owned(nodes, at, q) == Owned(n0, at, q);
    }
    forall q | q in at && c <= q ensures p <= q {}
  }

  lemma LinkedBase(nodes: Nodes, at: Places, p: Path)
    requires Linked(nodes, at, p)
    ensures p in at && at[p] in nodes && Distinct(at)
  {
    assert Hooked(nodes, at, p);
  }

  lemma DestroyedChild(n0: Nodes, n1: Nodes, n2: Nodes, at: Places, p: Path, left: set<string>, s: string)
    requires Linked(n0, at, p) && Partly(n0, n1, at, p, left) && s in left
    requires n2 == n1 - Subtree(at, Child(p, s))
    ensures at[p] in n1 && at[p] in n2 && n2[at[p]] == n1[at[p]] && left == n1[at[p]].subtopics.Keys
    ensures Partly(n0, n2[at[p] := n2[at[p]].(subtopics := n2[at[p]].subtopics - {s})], at, p, left - {s})
  {
    hide Subtree, Hooked;
    LinkedBase(n0, at, p);
    ParentNotBelow(at, p, s);
    DestroyStep(n0, n1, at, p, left, s, n2[at[p] := n2[at[p]].(subtopics := n2[at[p]].subtopics - {s})]);
  }

  /** With every child gone, releasing the node itself leaves nothing of the subtree. */
  lemma DestroyedAll(n0: Nodes, nodes: Nodes, s0: Strings, strings: Strings, spells: Spells, at: Places, p: Path)
    requires Linked(n0, at, p) && Partly(n0, nodes, at, p, {}) && PartlyFreed(n0, s0, strings, at, p, {})
    requires OwnedOnce(n0, spells, at, p) && OwnedBelow(n0, at, p) <= s0.Keys
    ensures p in at && at[p] in nodes && at[p] in n0 && SameFields(nodes[at[p]], n0[at[p]])
    ensures nodes - {at[p]} == n0 - Subtree(at, p)
    ensures nodes[at[p]].owns ==> nodes[at[p]].filter.Some? && nodes[at[p]].filter.value in strings
    ensures nodes[at[p]].owns ==> strings - {nodes[at[p]].filter.value} == s0 - OwnedBelow(n0, at, p)
    ensures !nodes[at[p]].owns ==> strings == s0 - OwnedBelow(n0, at, p)
    ensures OwesNothing(n0, at, p) ==> Owes(nodes[at[p]]) == None
  {
    hide Linked, PartlyFreed, Owes, Subtree, OwnedBelow;
    LinkedBase(n0, at, p);
    DestroyLast(n0, nodes, at, p);
    FreeLast(n0, s0, strings, at, p);
    assert p <= p;
    SameOwes(nodes[at[p]], n0[at[p]]);
    if n0[at[p]].owns {
      OwnedHere(n0, at, p);
      StillLive(n0, s0, strings, spells, at, p);
    }
  }

  lemma SameOwes(a: Node, b: Node)
    requires SameFields(a, b)
    ensures Owes(a) == Owes(b)
  {
  }

  lemma OwnedHere(nodes: Nodes, at: Places, p: Path)
    requires p in at && at[p] in nodes && nodes[at[p]].owns && nodes[at[p]].filter.Some?
    ensures nodes[at[p]].filter.value in OwnedBelow(nodes, at, p)
  {
    assert p <= p && Owned(nodes, at, p) == nodes[at[p]].filter;
  }

  lemma OwesCharge(n: Node, cleaned: seq<Held>, cleaned': seq<Held>)
    requires cleaned' == if n.cleanup.Some? && n.userdata.Some? then cleaned + [(n.cleanup.value, n.userdata.value)]
             else cleaned
    ensures multiset(cleaned') == multiset(cleaned) + Charge(Owes(n))
    ensures cleaned' == cleaned + (if Owes(n).Some? then [Owes(n).value] else [])
  {
  }
}
