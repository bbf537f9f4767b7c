/**
 Topic names and topic filters: how they are cut into levels, and which of them
 are accepted (source/mqtt.c).
 */
module Topics {

  /** A topic or filter as the list of its levels, the text between the slashes. */
  type Path = seq<string>

  /** The levels that successive calls of aws_byte_cursor_next_split deliver. */
  function Split(s: string): (ps: Path)
    ensures |ps| > 0
    ensures SlashFree(ps)
  {
    if s == "" then [""]
    else if s[0] == '/' then [""] + Split(s[1..])
    else
      var rest := Split(s[1..]);
      [[s[0]] + rest[0]] + rest[1..]
  }

  function Join(ps: Path): string
    requires |ps| > 0
  {
    if |ps| == 1 then ps[0] else ps[0] + "/" + Join(ps[1..])
  }

  ghost predicate SlashFree(ps: Path) {
    forall i | 0 <= i < |ps| :: '/' !in ps[i]
  }

  /** Splitting loses nothing. */
  lemma {:induction false} JoinSplit(s: string)
    ensures Join(Split(s)) == s
  {
    if s != "" {
      var rest := Split(s[1..]);
      JoinSplit(s[1..]);
      if s[0] == '/' {
        assert ([""] + rest)[1..] == rest;
      } else {
        assert ([[s[0]] + rest[0]] + rest[1..])[1..] == rest[1..];
      }
    }
  }

  /** Joining loses nothing, so a filter and its path determine each other. */
  lemma {:induction false} SplitJoin(ps: Path)
    requires |ps| > 0 && SlashFree(ps)
    ensures Split(Join(ps)) == ps
    decreases |ps|, |ps[0]|
  {
    if ps[0] != "" {
      var shorter := [ps[0][1..]] + ps[1..];
      assert shorter[1..] == ps[1..];
      SplitJoin(shorter);
      assert Join(ps)[1..] == Join(shorter);
      assert [ps[0][0]] + shorter[0] == ps[0];
      assert [ps[0]] + shorter[1..] == ps;
    } else if |ps| > 1 {
      SplitJoin(ps[1..]);
      assert Join(ps)[1..] == Join(ps[1..]);
    }
  }

  /** Where level k starts in the joined text. */
  function Offset(ps: Path, k: nat): nat
    requires k < |ps|
  {
    if k == 0 then 0 else Offset(ps, k - 1) + |ps[k - 1]| + 1
  }

  lemma {:induction false} OffsetOfTail(ps: Path, k: nat)
    requires 0 < k < |ps|
    ensures Offset(ps, k) == |ps[0]| + 1 + Offset(ps[1..], k - 1)
  {
    if k > 1 { OffsetOfTail(ps, k - 1); }
  }

  /** A level can be read back out of the joined text at its offset. */
  lemma {:induction false} LevelInJoin(ps: Path, k: nat)
    requires k < |ps|
    ensures Offset(ps, k) + |ps[k]| <= |Join(ps)|
    ensures Join(ps)[Offset(ps, k)..Offset(ps, k) + |ps[k]|] == ps[k]
  {
    if k > 0 {
      LevelInJoin(ps[1..], k - 1);
      OffsetOfTail(ps, k);
      var rest, o := Join(ps[1..]), Offset(ps[1..], k - 1);
      assert Join(ps) == (ps[0] + "/") + rest;
      assert Join(ps)[|ps[0]| + 1 + o..|ps[0]| + 1 + o + |ps[k]|] == rest[o..o + |ps[k]|];
    }
  }

  /** Offsets depend only on the levels before. */
  lemma {:induction false} OffsetOfPrefix(ps: Path, qs: Path, k: nat)
    requires k < |ps| && ps <= qs
    ensures Offset(ps, k) == Offset(qs, k)
  {
    if k > 0 { OffsetOfPrefix(ps, qs, k - 1); }
  }

  // ----- validation -----

  /** Section 4.7.1 of MQTT 3.1.1 character by character: '+' fills a whole level,
      '#' fills the last one, and neither may appear in a topic name. */
  ghost predicate WildcardsPlaced(s: string, isFilter: bool) {
    forall i | 0 <= i < |s| && IsWildcard(s[i]) :: isFilter && FillsLevel(s, i)
  }

  predicate IsWildcard(c: char) { c == '+' || c == '#' }

  ghost predicate FillsLevel(s: string, i: nat)
    requires i < |s|
  {
    && (i == 0 || s[i - 1] == '/')
    && (i == |s| - 1 || (s[i] == '+' && s[i + 1] == '/'))
  }

  /** What a topic name or filter must be (sections 4.7.1 and 4.7.3 of MQTT 3.1.1). */
  ghost predicate WellFormed(s: string, isFilter: bool) {
    0 < |s| <= 65535 && '\0' !in s && WildcardsPlaced(s, isFilter)
  }

  /** The same, level by level. */
  predicate LevelOk(part: string, isFilter: bool) {
    '+' in part || '#' in part ==> isFilter && |part| == 1
  }

  predicate LevelsOk(ps: Path, isFilter: bool) {
    && (forall i | 0 <= i < |ps| :: LevelOk(ps[i], isFilter))
    && (forall i | 0 <= i < |ps| - 1 :: '#' !in ps[i])
  }

  lemma {:induction false} LevelsAndCharacters(ps: Path, isFilter: bool)
    requires |ps| > 0 && SlashFree(ps)
    ensures LevelsOk(ps, isFilter) <==> WildcardsPlaced(Join(ps), isFilter)
  {
    if |ps| == 1 {
      OneLevel(ps[0], isFilter);
      assert LevelsOk(ps, isFilter) <==> LevelOk(ps[0], isFilter);
    } else {
      LevelsAndCharacters(ps[1..], isFilter);
      FirstLevel(ps[0], Join(ps[1..]), isFilter);
      LevelsOfTail(ps, isFilter);
      assert Join(ps) == ps[0] + "/" + Join(ps[1..]);
    }
  }

  lemma LevelsOfTail(ps: Path, isFilter: bool)
    requires |ps| > 1
    ensures LevelsOk(ps, isFilter) <==> LevelOk(ps[0], isFilter) && '#' !in ps[0] && LevelsOk(ps[1..], isFilter)
  {
    var t := ps[1..];
    if LevelOk(ps[0], isFilter) && '#' !in ps[0] && LevelsOk(t, isFilter) {
      assert forall i | 0 < i < |ps| :: ps[i] == t[i - 1];
    }
  }

  lemma OneLevel(a: string, isFilter: bool)
    requires '/' !in a
    ensures LevelOk(a, isFilter) <==> WildcardsPlaced(a, isFilter)
  {
    if WildcardsPlaced(a, isFilter) && ('+' in a || '#' in a) {
      var i :| 0 <= i < |a| && IsWildcard(a[i]);
      assert FillsLevel(a, i);
    }
  }

  lemma FirstLevel(a: string, t: string, isFilter: bool)
    requires '/' !in a
    ensures WildcardsPlaced(a + "/" + t, isFilter)
       <==> LevelOk(a, isFilter) && '#' !in a && WildcardsPlaced(t, isFilter)
  {
    var s := a + "/" + t;
    var n := |a| + 1;
    if WildcardsPlaced(s, isFilter) {
      forall i | 0 <= i < |t| && IsWildcard(t[i]) ensures isFilter && FillsLevel(t, i) {
        assert s[n + i] == t[i] && FillsLevel(s, n + i);
      }
      forall i | 0 <= i < |a| && IsWildcard(a[i]) ensures isFilter && a == "+" {
        assert s[i] == a[i] && FillsLevel(s, i);
      }
    }
    if LevelOk(a, isFilter) && '#' !in a && WildcardsPlaced(t, isFilter) {
      forall i | 0 <= i < |s| && IsWildcard(s[i]) ensures isFilter && FillsLevel(s, i) {
        if i < |a| {
          assert a[i] in a && a == "+";
        } else {
          assert t[i - n] == s[i] && FillsLevel(t, i - n);
        }
      }
    }
  }

  /** s_is_valid_topic: the loop over the levels decides exactly the declarative form. */
  method IsValidTopic(topic: string, isFilter: bool) returns (ok: bool)
    ensures ok <==> WellFormed(topic, isFilter)
  {
    if |topic| == 0 { return false; }
    if '\0' in topic { return false; }
    if |topic| > 65535 { return false; }

    LevelsAndCharacters(Split(topic), isFilter);
    JoinSplit(topic);
    var sawHash := false;
    var parts := Split(topic);
    var i := 0;
    while i < |parts|
      invariant 0 <= i <= |parts|
      invariant forall j | 0 <= j < i :: LevelOk(parts[j], isFilter)
      invariant forall j | 0 <= j < i - 1 :: '#' !in parts[j]
      invariant sawHash <==> i > 0 && '#' in parts[i - 1]
    {
      var part := parts[i];
      if sawHash { return false; }
      if |part| == 0 { i := i + 1; continue; }
      if '+' in part {
        if !isFilter { return false; }
        if |part| > 1 { return false; }
      }
      if '#' in part {
        if !isFilter { return false; }
        if |part| > 1 { return false; }
        sawHash := true;
      }
      i := i + 1;
    }
    return true;
  }
}
