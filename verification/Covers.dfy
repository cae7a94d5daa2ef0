/** `CoversFilter` decides inclusion of filters exactly: it answers true if and only if every valid
    topic name matched by the requested filter is matched by the allowed one. */
module Covers {
  import opened Bytes
  import opened Levels
  import opened Filters
  import Utf8

  /** Every valid topic name that `requested` matches is matched by `allowed`. */
  ghost predicate Includes(allowed: bytes, requested: bytes) {
    forall t :: Utf8.TopicName(t) && Matches(requested, t) ==> Matches(allowed, t)
  }

  predicate LevelsCover(a: seq<Level>, r: seq<Level>) {
    if a == [] then r == []
    else if a[0] == REST then true
    else r != [] && r[0] != REST && (a[0] == ONE || a[0] == r[0]) && LevelsCover(a[1..], r[1..])
  }

  // ----- Soundness

  lemma {:induction false} CoverIsSound(a: seq<Level>, r: seq<Level>, t: seq<Level>)
    requires LevelsCover(a, r) && LevelsMatch(r, t)
    ensures LevelsMatch(a, t)
  {
    if a != [] && a[0] != REST {
      CoverIsSound(a[1..], r[1..], t[1..]);
    }
  }

  // ----- Completeness: a witness topic for every refusal

  /** A topic level that differs from `l` and is as long as a wildcard. */
  function OtherThan(l: Level): (r: Level)
    ensures r != l && |r| == 1
  {
    if l == [LOWER_X] then [LOWER_Y] else [LOWER_X]
  }

  /** One topic level that the filter level `l` matches. */
  function Fill(l: Level): Level {
    if l == ONE then [LOWER_X] else if l == REST then [] else l
  }

  function FillAll(r: seq<Level>): (t: seq<Level>)
    ensures |t| == |r|
  {
    if r == [] then [] else [Fill(r[0])] + FillAll(r[1..])
  }

  /** Topic levels that `r` matches and `a` does not. */
  function Witness(a: seq<Level>, r: seq<Level>): seq<Level> {
    if a == [] then FillAll(r)
    else if r == [] || r[0] == REST then []
    else if a[0] != ONE && a[0] != r[0] then [if r[0] == ONE then OtherThan(a[0]) else r[0]] + FillAll(r[1..])
    else [Fill(r[0])] + Witness(a[1..], r[1..])
  }

  ghost predicate RestOnlyLast(r: seq<Level>) {
    forall i :: 0 <= i < |r| - 1 ==> r[i] != REST
  }

  lemma {:induction false} FillAllMatches(r: seq<Level>)
    requires RestOnlyLast(r)
    ensures LevelsMatch(r, FillAll(r))
  {
    if r != [] && r[0] != REST {
      assert RestOnlyLast(r[1..]);
      FillAllMatches(r[1..]);
      assert FillAll(r)[1..] == FillAll(r[1..]);
    }
  }

  lemma {:induction false} WitnessSeparates(a: seq<Level>, r: seq<Level>)
    requires RestOnlyLast(r) && !LevelsCover(a, r)
    ensures LevelsMatch(r, Witness(a, r)) && !LevelsMatch(a, Witness(a, r))
  {
    if a == [] {
      FillAllMatches(r);
    } else if r != [] && r[0] != REST {
      assert RestOnlyLast(r[1..]);
      if a[0] != ONE && a[0] != r[0] {
        FillAllMatches(r[1..]);
        assert Witness(a, r)[1..] == FillAll(r[1..]);
      } else {
        WitnessSeparates(a[1..], r[1..]);
        assert Witness(a, r)[1..] == Witness(a[1..], r[1..]);
      }
    }
  }

  /** Bytes that may stand in a topic level. */
  ghost predicate TopicLevel(l: Level) {
    Utf8.Valid(l) && 0 !in l && PLUS !in l && HASH !in l && SLASH !in l
  }

  /** `t` is no longer than `r`, level by level, and made of topic levels. */
  ghost predicate Fits(t: seq<Level>, r: seq<Level>) {
    |t| <= |r| && forall i :: 0 <= i < |t| ==> TopicLevel(t[i]) && |t[i]| <= |r[i]|
  }

  ghost predicate Literal(l: Level) {
    l == ONE || l == REST || TopicLevel(l)
  }

  lemma ShortTopicLevels()
    ensures TopicLevel([]) && TopicLevel([LOWER_X]) && TopicLevel([LOWER_Y])
  {
    assert Utf8.Valid([LOWER_X][1..]) && Utf8.Valid([LOWER_Y][1..]);
  }

  lemma FitsCons(l: Level, t: seq<Level>, r: seq<Level>)
    requires r != [] && TopicLevel(l) && |l| <= |r[0]| && Fits(t, r[1..])
    ensures Fits([l] + t, r)
  {
    forall i | 0 <= i < |[l] + t| ensures TopicLevel(([l] + t)[i]) && |([l] + t)[i]| <= |r[i]| {
      assert 0 < i ==> r[i] == r[1..][i - 1] && ([l] + t)[i] == t[i - 1];
    }
  }

  lemma {:induction false} FillAllFits(r: seq<Level>)
    requires forall l :: l in r ==> Literal(l)
    ensures Fits(FillAll(r), r)
  {
    ShortTopicLevels();
    if r != [] {
      assert Literal(r[0]);
      FillAllFits(r[1..]);
      FitsCons(Fill(r[0]), FillAll(r[1..]), r);
    }
  }

  lemma {:induction false} WitnessFits(a: seq<Level>, r: seq<Level>)
    requires forall l :: l in r ==> Literal(l)
    ensures Fits(Witness(a, r), r)
    ensures r != [] && r[0] != REST ==> Witness(a, r) != [] && (r[0] == ONE || Witness(a, r)[0] == r[0])
    ensures r != [] && r[0] == ONE ==> Witness(a, r)[0] in [[LOWER_X], [LOWER_Y]]
  {
    ShortTopicLevels();
    FillAllFits(r);
    if a != [] && r != [] && r[0] != REST {
      if a[0] != ONE && a[0] != r[0] {
        FillAllFits(r[1..]);
        FitsCons(if r[0] == ONE then OtherThan(a[0]) else r[0], FillAll(r[1..]), r);
      } else {
        WitnessFits(a[1..], r[1..]);
        FitsCons(Fill(r[0]), Witness(a[1..], r[1..]), r);
      }
    }
  }

  /** Joined topic levels form a topic string no longer than the filter they fit. */
  lemma {:induction false} FitsJoin(t: seq<Level>, r: seq<Level>)
    requires t != [] && Fits(t, r)
    ensures |Join(t)| <= |Join(r)|
    ensures Utf8.Valid(Join(t)) && 0 !in Join(t) && PLUS !in Join(t) && HASH !in Join(t)
    ensures SlashFree(t)
  {
    if |t| > 1 {
      assert Fits(t[1..], r[1..]) by {
        forall i | 0 <= i < |t[1..]| ensures TopicLevel(t[1..][i]) && |t[1..][i]| <= |r[1..][i]| {
          assert TopicLevel(t[i + 1]) && |t[i + 1]| <= |r[i + 1]|;
        }
      }
      FitsJoin(t[1..], r[1..]);
      Utf8.ValidAroundAscii(t[0], SLASH, Join(t[1..]));
    }
    forall l | l in t ensures SLASH !in l {
      var i :| 0 <= i < |t| && t[i] == l;
      assert TopicLevel(t[i]);
    }
  }

  /** The levels of a valid filter are wildcards or topic levels. */
  lemma {:induction false} LevelsOfText(s: bytes, ls: seq<Level>)
    requires Utf8.Valid(s) && 0 !in s && ls == Split(s) && FilterLevels(ls)
    ensures forall l :: l in ls ==> Literal(l)
    decreases |ls|
  {
    SplitSlashFree(s);
    JoinOfSplit(s);
    assert FilterLevel(ls[0], |ls| == 1);
    if |ls| > 1 {
      var rest := Join(ls[1..]);
      Utf8.ValidAroundAscii(ls[0], SLASH, rest);
      SplitOfJoin(ls[1..]);
      assert FilterLevels(ls[1..]) by {
        forall i | 0 <= i < |ls[1..]| ensures FilterLevel(ls[1..][i], i == |ls[1..]| - 1) {
          assert FilterLevel(ls[i + 1], i + 1 == |ls| - 1);
        }
      }
      assert 0 !in rest;
      LevelsOfText(rest, ls[1..]);
      assert ls == [ls[0]] + ls[1..];
    }
  }

  lemma FilterShape(s: bytes)
    requires Filter(s)
    ensures RestOnlyLast(Split(s))
    ensures forall l :: l in Split(s) ==> Literal(l)
    ensures Join(Split(s)) == s
    ensures |Split(s)| == 1 ==> Split(s)[0] != []
    ensures StartsWithWildcard(s) <==> Split(s)[0] == ONE || Split(s)[0] == REST
    ensures StartsWithDollar(s) <==> StartsWithDollar(Split(s)[0])
  {
    var ls := Split(s);
    JoinOfSplit(s);
    LevelsOfText(s, ls);
    assert forall i :: 0 <= i < |ls| - 1 ==> FilterLevel(ls[i], false);
    assert Literal(ls[0]);
    assert ls[0] != [] ==> s[0] == ls[0][0];
    assert ls[0] == [] ==> s[0] == SLASH;
  }

  lemma TopicShape(t: bytes)
    requires t != []
    ensures |Split(t)| == 1 ==> Split(t)[0] != []
    ensures StartsWithDollar(t) <==> StartsWithDollar(Split(t)[0])
  {
    var ls := Split(t);
    JoinOfSplit(t);
    assert ls[0] != [] ==> t[0] == ls[0][0];
    assert ls[0] == [] && |ls| > 1 ==> t[0] == SLASH;
  }

  /** Levels that fit a filter join to a valid topic name that splits into them again. */
  lemma FitsMakesTopic(t: seq<Level>, r: seq<Level>)
    requires t != [] && Fits(t, r) && |Join(r)| <= MAX_UINT16
    requires |t| > 1 || t[0] != []
    ensures Utf8.TopicName(Join(t)) && Split(Join(t)) == t
  {
    FitsJoin(t, r);
    SplitOfJoin(t);
  }

  /** The two filters that are rewritten before their levels are compared. */
  function Rewritten(requested: bytes): bytes {
    if requested == [HASH] then [PLUS, SLASH, HASH]
    else if requested == [SLASH, HASH] then [SLASH, PLUS, SLASH, HASH]
    else requested
  }

  lemma RewrittenLevels()
    ensures Split([HASH]) == [REST] && Split([PLUS, SLASH, HASH]) == [ONE, REST]
    ensures Split([SLASH, HASH]) == [[], REST] && Split([SLASH, PLUS, SLASH, HASH]) == [[], ONE, REST]
  {
    SplitWhole([]);
    SplitWhole([HASH]);
    SplitWhole([PLUS]);
    SplitAtSlash([PLUS], [HASH]);
    assert [PLUS] + [SLASH] + [HASH] == [PLUS, SLASH, HASH];
    SplitAtSlash([], [HASH]);
    assert [] + [SLASH] + [HASH] == [SLASH, HASH];
    SplitAtSlash([], [PLUS, SLASH, HASH]);
    assert [] + [SLASH] + [PLUS, SLASH, HASH] == [SLASH, PLUS, SLASH, HASH];
  }

  lemma AnyLevels(t: seq<Level>)
    ensures LevelsMatch([REST], t)
    ensures LevelsMatch([ONE, REST], t) <==> t != []
  {
    assert [ONE, REST][1..] == [REST];
  }

  /** Rewriting keeps the matched topic names, keeps the filter valid and leaves a filter whose
      final `#` never stands for the whole topic name. */
  lemma RewrittenSame(requested: bytes)
    requires Filter(requested)
    ensures Filter(Rewritten(requested))
    ensures forall t :: Utf8.TopicName(t) ==> (Matches(requested, t) <==> Matches(Rewritten(requested), t))
    ensures StartsWithDollar(Rewritten(requested)) <==> StartsWithDollar(requested)
    ensures var r := Split(Rewritten(requested)); r[0] != REST && (r[0] == [] ==> |r| > 1 && r[1] != REST)
  {
    RewrittenLevels();
    FilterShape(requested);
    var r := Split(requested);
    assert r[0] == REST ==> |r| == 1 && requested == [HASH];
    if r[0] == [] && |r| > 1 && r[1] == REST {
      assert |r| == 2 && Join(r[1..]) == [HASH];
      assert requested == [SLASH, HASH];
    }
    if requested == [HASH] {
      assert Utf8.Valid([PLUS, SLASH, HASH]) by { assert Utf8.Valid([PLUS, SLASH, HASH][1..][1..][1..]); }
      forall t ensures LevelsMatch([REST], Split(t)) && LevelsMatch([ONE, REST], Split(t)) {
        AnyLevels(Split(t));
      }
    } else if requested == [SLASH, HASH] {
      assert Utf8.Valid([SLASH, PLUS, SLASH, HASH]) by { assert Utf8.Valid([SLASH, PLUS, SLASH, HASH][1..][1..][1..][1..]); }
      forall t | Utf8.TopicName(t) ensures Matches(requested, t) <==> Matches(Rewritten(requested), t) {
        TopicShape(t);
        var ls := Split(t);
        AnyLevels(ls[1..]);
        assert LevelsMatch([[], REST], ls) <==> ls[0] == [] by { assert [[], REST][1..] == [REST]; }
        assert LevelsMatch([[], ONE, REST], ls) <==> ls[0] == [] && |ls| > 1 by {
          assert [[], ONE, REST][1..] == [ONE, REST];
        }
      }
    }
  }

  /** A refusal because of the leading `$` is justified. */
  lemma DollarRefusal(allowed: bytes, requested: bytes)
    requires Filter(allowed) && Filter(requested)
    requires StartsWithDollar(requested) && StartsWithWildcard(allowed)
    ensures !Includes(allowed, requested)
  {
    FilterShape(requested);
    var r := Split(requested);
    var t := FillAll(r);
    FillAllFits(r);
    FillAllMatches(r);
    FitsMakesTopic(t, r);
    TopicShape(Join(t));
    assert Utf8.TopicName(Join(t)) && Matches(requested, Join(t)) && !Matches(allowed, Join(t));
  }

  /** Otherwise the level comparison decides inclusion. */
  lemma LevelsDecide(allowed: bytes, requested: bytes)
    requires Filter(allowed) && Filter(requested)
    requires !(StartsWithDollar(requested) && StartsWithWildcard(allowed))
    requires var r := Split(requested); r[0] != REST && (r[0] == [] ==> |r| > 1 && r[1] != REST)
    ensures LevelsCover(Split(allowed), Split(requested)) <==> Includes(allowed, requested)
  {
    var a, r := Split(allowed), Split(requested);
    FilterShape(requested);
    if LevelsCover(a, r) {
      forall t | Utf8.TopicName(t) && Matches(requested, t) ensures Matches(allowed, t) {
        CoverIsSound(a, r, Split(t));
        TopicShape(t);
      }
    } else {
      var t := Witness(a, r);
      WitnessSeparates(a, r);
      WitnessFits(a, r);
      if r[0] == [] {
        WitnessSecond(a, r);
      }
      FitsMakesTopic(t, r);
      TopicShape(Join(t));
      assert Utf8.TopicName(Join(t)) && Matches(requested, Join(t)) && !Matches(allowed, Join(t));
    }
  }

  lemma WitnessSecond(a: seq<Level>, r: seq<Level>)
    requires |r| > 1 && r[0] != REST && r[1] != REST
    ensures |Witness(a, r)| > 1
  {
  }

  method CoversFilter(allowed: bytes, requested: bytes) returns (b: bool)
    requires Filter(allowed) && Filter(requested)
    ensures b <==> Includes(allowed, requested)
  {
    if |requested| > 0 && requested[0] == DOLLAR && (allowed[0] == PLUS || allowed[0] == HASH) {
      DollarRefusal(allowed, requested);
      return false;
    }
    RewrittenSame(requested);
    var asked := requested;
    if asked == [HASH] {
      asked := [PLUS, SLASH, HASH];
    }
    if asked == [SLASH, HASH] {
      asked := [SLASH, PLUS, SLASH, HASH];
    }
    assert asked == Rewritten(requested);
    assert Includes(allowed, asked) <==> Includes(allowed, requested);
    LevelsDecide(allowed, asked);
    var a := SplitLevels(allowed);
    var r := SplitLevels(asked);
    for i := 0 to |a|
      invariant i <= |r|
      invariant LevelsCover(a, r) == LevelsCover(a[i..], r[i..])
    {
      if a[i] == REST {
        return true;
      }
      if i >= |r| || r[i] == REST || (a[i] != ONE && a[i] != r[i]) {
        return false;
      }
      assert a[i..][1..] == a[i + 1..];
      assert r[i..][1..] == r[i + 1..];
    }
    return |a| == |r|;
  }
}
