/**
 Which filters a published topic reaches: the relation that the recursive
 dispatch walks (source/topic_tree.c), against section 4.7 of MQTT 3.1.1.
 */
module Matching {
  import opened Topics

  const PLUS := "+"
  const HASH := "#"

  /** The path of an accepted filter. */
  predicate FilterPath(f: Path) {
    |f| > 0 && LevelsOk(f, true)
  }

  /** The path of an accepted topic name: no wildcards. */
  predicate TopicPath(t: Path) {
    |t| > 0 && LevelsOk(t, false)
  }

  /** One level of topic at a time: '#' takes everything that is left, of which
      there must be something; '+' takes one level; any other text takes itself. */
  predicate Reaches(f: Path, t: Path)
    decreases |t|
  {
    if t == [] then f == []
    else f == [HASH] || (f != [] && (f[0] == PLUS || f[0] == t[0]) && Reaches(f[1..], t[1..]))
  }

  // ----- section 4.7 of MQTT 3.1.1 -----

  ghost predicate LevelMatches(f: Path, t: Path, k: nat)
    requires k < |f| && k < |t|
  {
    f[k] == PLUS || f[k] == t[k]
  }

  ghost predicate FirstLevelsMatch(f: Path, t: Path, n: nat) {
    n <= |f| && n <= |t| && forall k | 0 <= k < n :: LevelMatches(f, t, k)
  }

  /** Section 4.7.2: a filter that starts with a wildcard must not reach a topic
      that starts with a dollar sign. */
  ghost predicate Hidden(f: Path, t: Path)
    requires |f| > 0 && |t| > 0
  {
    (f[0] == PLUS || f[0] == HASH) && t[0] != "" && t[0][0] == '$'
  }

  /** Sections 4.7.1.2 and 4.7.1.3: a final '#' stands for any number of levels,
      none included; every other level stands for exactly one. */
  ghost predicate StandardMatches(f: Path, t: Path)
    requires |f| > 0 && |t| > 0
  {
    && !Hidden(f, t)
    && if f[|f| - 1] == HASH then FirstLevelsMatch(f, t, |f| - 1)
       else |f| == |t| && FirstLevelsMatch(f, t, |f|)
  }

  /** The filter is g/# and g matches the whole topic. */
  ghost predicate ParentLevel(f: Path, t: Path)
    requires |f| > 0
  {
    f[|f| - 1] == HASH && |f| == |t| + 1 && FirstLevelsMatch(f, t, |t|)
  }

  lemma {:induction false} ReachesClosedForm(f: Path, t: Path)
    requires LevelsOk(f, true) && LevelsOk(t, false)
    ensures Reaches(f, t) <==>
            if f != [] && f[|f| - 1] == HASH then |f| <= |t| && FirstLevelsMatch(f, t, |f| - 1)
            else |f| == |t| && FirstLevelsMatch(f, t, |f|)
  {
    if f != [] && t != [] {
      var f', t' := f[1..], t[1..];
      assert forall i | 0 <= i < |f'| :: f'[i] == f[i + 1];
      assert forall i | 0 <= i < |t'| :: t'[i] == t[i + 1];
      ReachesClosedForm(f', t');
      FirstLevelsOfTail(f, t, |f| - 1);
      FirstLevelsOfTail(f, t, |f|);
      assert t[0] != HASH by { assert LevelOk(t[0], false); }
      if |f| > 1 { assert f[0] != HASH && f'[|f'| - 1] == f[|f| - 1]; }
    }
  }

  lemma FirstLevelsOfTail(f: Path, t: Path, n: nat)
    requires f != [] && t != []
    ensures n > 0 ==> (FirstLevelsMatch(f, t, n)
                       <==> (f[0] == PLUS || f[0] == t[0]) && FirstLevelsMatch(f[1..], t[1..], n - 1))
  {
    if n > 0 && (f[0] == PLUS || f[0] == t[0]) && FirstLevelsMatch(f[1..], t[1..], n - 1) {
      forall k | 0 <= k < n ensures LevelMatches(f, t, k) {
        if k > 0 { assert LevelMatches(f[1..], t[1..], k - 1); }
      }
    }
    if n > 0 && FirstLevelsMatch(f, t, n) {
      assert LevelMatches(f, t, 0);
      forall k | 0 <= k < n - 1 ensures LevelMatches(f[1..], t[1..], k) {
        assert LevelMatches(f, t, k + 1);
      }
    }
  }

  /** Dispatch and the standard: the code misses exactly the parent level of g/#,
      and it does not hide dollar topics from leading wildcards. */
  lemma DispatchVersusStandard(f: Path, t: Path)
    requires FilterPath(f) && TopicPath(t)
    ensures StandardMatches(f, t) <==> (Reaches(f, t) || ParentLevel(f, t)) && !Hidden(f, t)
    ensures !(Reaches(f, t) && ParentLevel(f, t))
    ensures t[0] == "" || t[0][0] != '$' ==>
              (Reaches(f, t) == StandardMatches(f, t) <==> !ParentLevel(f, t))
  {
    ReachesClosedForm(f, t);
  }

  /** The difference is real: the standard's own example "sport/#" and "sport". */
  lemma ParentLevelIsMissed()
    ensures FilterPath(["sport", HASH]) && TopicPath(["sport"])
    ensures StandardMatches(["sport", HASH], ["sport"])
    ensures !Reaches(["sport", HASH], ["sport"])
  {
    assert FirstLevelsMatch(["sport", HASH], ["sport"], 1);
  }

  /** Nor are dollar topics hidden: "#" is called for "$SYS". */
  lemma DollarIsNotHidden()
    ensures FilterPath([HASH]) && TopicPath(["$SYS"])
    ensures Reaches([HASH], ["$SYS"]) && !StandardMatches([HASH], ["$SYS"])
  {
  }

  /** What validation accepts is what the tree is made for. */
  lemma AcceptedPaths(s: string)
    ensures WellFormed(s, true) <==> 0 < |s| <= 65535 && '\0' !in s && FilterPath(Split(s))
    ensures WellFormed(s, false) <==> 0 < |s| <= 65535 && '\0' !in s && TopicPath(Split(s))
  {
    JoinSplit(s);
    LevelsAndCharacters(Split(s), true);
    LevelsAndCharacters(Split(s), false);
  }

  // ----- dispatch over a set of filters -----

  /** The filters at or below p whose levels after p reach the rest of the topic. */
  ghost function Hits(filters: set<Path>, p: Path, rest: Path): set<Path> {
    set f | f in filters && p <= f && Reaches(f[|p|..], rest)
  }

  /** With no level left, only the filter that ends here. */
  lemma HitsAtEnd(filters: set<Path>, p: Path)
    ensures Hits(filters, p, []) == if p in filters then {p} else {}
  {
    forall f | p <= f ensures Reaches(f[|p|..], []) <==> f == p {
      if f[|p|..] == [] { assert f == p + f[|p|..]; }
    }
  }

  /** Otherwise the three ways on: '#', '+' and the level itself. They do not overlap. */
  lemma HitsOfLevel(filters: set<Path>, p: Path, rest: Path)
    requires rest != [] && rest[0] != PLUS && rest[0] != HASH
    ensures Hits(filters, p, rest)
         == (if p + [HASH] in filters then {p + [HASH]} else {})
            + Hits(filters, p + [PLUS], rest[1..]) + Hits(filters, p + [rest[0]], rest[1..])
    ensures Hits(filters, p + [PLUS], rest[1..]) !! Hits(filters, p + [rest[0]], rest[1..])
    ensures p + [HASH] !in Hits(filters, p + [PLUS], rest[1..])
            && p + [HASH] !in Hits(filters, p + [rest[0]], rest[1..])
  {
    var all := (if p + [HASH] in filters then {p + [HASH]} else {})
               + Hits(filters, p + [PLUS], rest[1..]) + Hits(filters, p + [rest[0]], rest[1..]);
    forall f | f in filters ensures f in Hits(filters, p, rest) <==> f in all {
      HitOneLevel(f, p, rest);
    }
    forall f | f in Hits(filters, p + [PLUS], rest[1..]) ensures f[|p|] == PLUS {
      assert f[|p|] == (p + [PLUS])[|p|];
    }
    forall f | f in Hits(filters, p + [rest[0]], rest[1..]) ensures f[|p|] == rest[0] {
      assert f[|p|] == (p + [rest[0]])[|p|];
    }
    assert (p + [HASH])[|p|] == HASH;
  }

  lemma HitOneLevel(f: Path, p: Path, rest: Path)
    requires rest != []
    ensures p <= f && Reaches(f[|p|..], rest) <==>
            || f == p + [HASH]
            || (p + [PLUS] <= f && Reaches(f[|p| + 1..], rest[1..]))
            || (p + [rest[0]] <= f && Reaches(f[|p| + 1..], rest[1..]))
  {
    if p <= f && |f| > |p| {
      var g := f[|p|..];
      assert f == p + g && g[1..] == f[|p| + 1..];
      assert forall s :: p + [s] <= f <==> s == g[0] by {
        forall s ensures p + [s] <= f <==> s == g[0] {
          if s == g[0] { assert f[..|p| + 1] == p + [s]; }
          if p + [s] <= f { assert (p + [s])[|p|] == f[|p|]; }
        }
      }
      assert f == p + [HASH] <==> g == [HASH];
    }
  }

  /** Nothing below a prefix that no filter has. */
  lemma HitsNowhere(filters: set<Path>, p: Path, rest: Path)
    requires forall f | f in filters :: !(p <= f)
    ensures Hits(filters, p, rest) == {}
  {
  }
}
