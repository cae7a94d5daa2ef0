/** Topic filters: which byte strings are filters and which topics a filter matches (sections 4.7.1
    to 4.7.3 of MQTT 3.1.1). */
module Filters {
  import opened Bytes
  import opened Levels
  import Utf8

  const ONE: Level := [PLUS]
  const REST: Level := [HASH]

  /** A level may be a wildcard on its own; `#` only in last position. */
  predicate FilterLevel(l: Level, last: bool) {
    l == ONE || (l == REST && last) || (PLUS !in l && HASH !in l)
  }

  ghost predicate FilterLevels(ls: seq<Level>) {
    forall i :: 0 <= i < |ls| ==> FilterLevel(ls[i], i == |ls| - 1)
  }

  /** A valid topic filter (section 4.7.1). */
  ghost predicate Filter(s: bytes) {
    Utf8.MqttString(s) && s != [] && FilterLevels(Split(s))
  }

  // ----- ValidateTopicFilter: a scan over bytes decides a property of levels

  predicate ScanOk(s: bytes, i: nat)
    requires i < |s|
  {
    && (s[i] == PLUS ==> (i == 0 || s[i - 1] == SLASH) && (i + 1 == |s| || s[i + 1] == SLASH))
    && (s[i] == HASH ==> (i == 0 || s[i - 1] == SLASH) && i + 1 == |s|)
  }

  ghost predicate ScanAll(s: bytes) {
    forall i :: 0 <= i < |s| ==> ScanOk(s, i)
  }

  lemma ScanSingle(l: Level)
    requires SLASH !in l
    ensures ScanAll(l) <==> FilterLevel(l, true)
  {
    if ScanAll(l) && (PLUS in l || HASH in l) {
      var i :| 0 <= i < |l| && (l[i] == PLUS || l[i] == HASH);
      assert ScanOk(l, i);
      assert i == 0 && |l| == 1;
    }
  }

  lemma ScanStep(l: Level, r: bytes)
    requires SLASH !in l
    ensures ScanAll(l + [SLASH] + r) <==> FilterLevel(l, false) && ScanAll(r)
  {
    var s := l + [SLASH] + r;
    var n := |l| + 1;
    assert forall j :: 0 <= j < |r| ==> s[n + j] == r[j];
    if ScanAll(s) {
      forall j | 0 <= j < |r| ensures ScanOk(r, j) {
        assert ScanOk(s, n + j);
      }
      if PLUS in l || HASH in l {
        var i :| 0 <= i < |l| && (l[i] == PLUS || l[i] == HASH);
        assert ScanOk(s, i);
        assert s[i] == PLUS && i == 0;
      }
    }
    if FilterLevel(l, false) && ScanAll(r) {
      forall i | 0 <= i < |s| ensures ScanOk(s, i) {
        if n <= i {
          assert s[i] == r[i - n];
          assert ScanOk(r, i - n);
          assert i + 1 < |s| ==> s[i + 1] == r[i + 1 - n];
        }
      }
    }
  }

  /** The byte scan accepts exactly the strings whose levels are well placed. */
  lemma {:induction false} ScanIsLevelwise(ls: seq<Level>)
    requires ls != [] && SlashFree(ls)
    ensures ScanAll(Join(ls)) <==> FilterLevels(ls)
  {
    if |ls| == 1 {
      ScanSingle(ls[0]);
    } else {
      ScanIsLevelwise(ls[1..]);
      ScanStep(ls[0], Join(ls[1..]));
      if FilterLevels(ls[1..]) && FilterLevel(ls[0], false) {
        forall i | 0 <= i < |ls| ensures FilterLevel(ls[i], i == |ls| - 1) {
          assert 0 < i ==> ls[i] == ls[1..][i - 1];
        }
      }
      if FilterLevels(ls) {
        assert FilterLevel(ls[0], false);
        assert forall i :: 0 <= i < |ls[1..]| ==> ls[1..][i] == ls[i + 1];
      }
    }
  }

  lemma ScanDecides(value: bytes)
    ensures ScanAll(value) <==> FilterLevels(Split(value))
  {
    hide Split, ScanAll, FilterLevels;
    SplitSlashFree(value);
    JoinOfSplit(value);
    ScanIsLevelwise(Split(value));
  }

  method ValidateTopicFilter(value: bytes) returns (ok: bool)
    ensures ok <==> Filter(value)
  {
    hide Split, Utf8.MqttString, FilterLevels;
    ScanDecides(value);
    if !Utf8.MqttString(value) {
      return false;
    }
    if value == [] {
      return false;
    }
    for i := 0 to |value|
      invariant forall j :: 0 <= j < i ==> ScanOk(value, j)
    {
      if value[i] == PLUS {
        if (i > 0 && value[i - 1] != SLASH) || (i + 1 < |value| && value[i + 1] != SLASH) {
          assert !ScanOk(value, i);
          return false;
        }
      } else if value[i] == HASH {
        if (i > 0 && value[i - 1] != SLASH) || i != |value| - 1 {
          assert !ScanOk(value, i);
          return false;
        }
      }
    }
    return true;
  }

  /** A byte other than a slash is in one of the levels. */
  lemma {:induction false} InSomeLevel(s: bytes, c: byte)
    requires c != SLASH
    ensures c in s <==> exists i :: 0 <= i < |Split(s)| && c in Split(s)[i]
  {
    if s != [] {
      var r, ls := Split(s[1..]), Split(s);
      InSomeLevel(s[1..], c);
      assert c in s <==> s[0] == c || c in s[1..];
      if s[0] == SLASH {
        assert forall i :: 0 <= i < |r| ==> ls[i + 1] == r[i];
        assert forall i :: 0 < i < |ls| ==> ls[i] == r[i - 1];
      } else {
        assert ls[0] == [s[0]] + r[0] && forall i :: 0 < i < |ls| ==> ls[i] == r[i];
      }
    }
  }

  /** Topic names are the filters without wildcards. */
  lemma NameIsPlainFilter(s: bytes)
    ensures Utf8.TopicName(s) <==> Filter(s) && forall i :: 0 <= i < |Split(s)| ==> Split(s)[i] != ONE && Split(s)[i] != REST
  {
    hide Utf8.MqttString, Split;
    InSomeLevel(s, PLUS);
    InSomeLevel(s, HASH);
    forall i | 0 <= i < |Split(s)| && FilterLevel(Split(s)[i], i == |Split(s)| - 1) && Split(s)[i] != ONE && Split(s)[i] != REST
      ensures PLUS !in Split(s)[i] && HASH !in Split(s)[i]
    {
    }
  }

  // ----- MatchFilter

  predicate LevelsMatch(f: seq<Level>, t: seq<Level>) {
    if f == [] then t == []
    else if f[0] == REST then true
    else t != [] && (f[0] == ONE || f[0] == t[0]) && LevelsMatch(f[1..], t[1..])
  }

  predicate StartsWithWildcard(s: bytes) {
    s != [] && (s[0] == PLUS || s[0] == HASH)
  }

  predicate StartsWithDollar(s: bytes) {
    s != [] && s[0] == DOLLAR
  }

  predicate Matches(filter: bytes, topic: bytes) {
    !(StartsWithDollar(topic) && StartsWithWildcard(filter)) && LevelsMatch(Split(filter), Split(topic))
  }

  /** The wildcard rules as section 4.7.1 words them: without `#` the levels pair up one to one;
      a final `#` stands for any number of further levels, including none. */
  ghost predicate PairsUp(f: seq<Level>, t: seq<Level>) {
    |f| <= |t| && forall i :: 0 <= i < |f| ==> f[i] == ONE || f[i] == t[i]
  }

  lemma {:induction false} MatchMeansPairing(f: seq<Level>, t: seq<Level>)
    requires FilterLevels(f) && f != []
    ensures f[|f| - 1] == REST ==> (LevelsMatch(f, t) <==> PairsUp(f[..|f| - 1], t))
    ensures f[|f| - 1] != REST ==> (LevelsMatch(f, t) <==> |f| == |t| && PairsUp(f, t))
  {
    if |f| > 1 && t != [] {
      assert f[0] != REST by { assert FilterLevel(f[0], false); }
      assert FilterLevels(f[1..]) by {
        forall i | 0 <= i < |f[1..]| ensures FilterLevel(f[1..][i], i == |f[1..]| - 1) {
          assert FilterLevel(f[i + 1], i + 1 == |f| - 1);
        }
      }
      MatchMeansPairing(f[1..], t[1..]);
      var n := |f| - 1;
      assert f[1..][..n - 1] == f[..n][1..];
      PairsUpStep(f, t);
      PairsUpStep(f[..n], t);
    } else if |f| > 1 {
      assert f[0] != REST by { assert FilterLevel(f[0], false); }
    } else if f[0] != REST && t != [] {
      assert LevelsMatch(f[1..], t[1..]) <==> |t| == 1;
    }
  }

  lemma PairsUpStep(f: seq<Level>, t: seq<Level>)
    requires f != [] && t != []
    ensures PairsUp(f, t) <==> (f[0] == ONE || f[0] == t[0]) && PairsUp(f[1..], t[1..])
  {
    if (f[0] == ONE || f[0] == t[0]) && PairsUp(f[1..], t[1..]) {
      forall i | 0 <= i < |f| ensures f[i] == ONE || f[i] == t[i] {
        assert 0 < i ==> f[i] == f[1..][i - 1] && t[i] == t[1..][i - 1];
      }
    }
    if PairsUp(f, t) {
      forall i | 0 <= i < |f[1..]| ensures f[1..][i] == ONE || f[1..][i] == t[1..][i] {
        assert f[i + 1] == ONE || f[i + 1] == t[i + 1];
      }
    }
  }

  /** Level by level, as section 4.7.1 words it. */
  ghost predicate Paired(f: seq<Level>, t: seq<Level>)
    requires f != []
  {
    if f[|f| - 1] == REST then PairsUp(f[..|f| - 1], t) else |f| == |t| && PairsUp(f, t)
  }

  /** A filter matches a topic exactly when their levels pair up, except that no filter that starts with
      a wildcard matches a topic that starts with `$` (section 4.7.2). */
  lemma MatchMeans(filter: bytes, topic: bytes)
    requires Filter(filter)
    ensures Matches(filter, topic) <==>
              && Paired(Split(filter), Split(topic))
              && !(topic != [] && topic[0] == DOLLAR && filter != [] && (filter[0] == PLUS || filter[0] == HASH))
  {
    hide Split, PairsUp, LevelsMatch;
    MatchMeansPairing(Split(filter), Split(topic));
  }

  method MatchFilter(filter: bytes, topic: bytes) returns (b: bool)
    ensures b <==> Matches(filter, topic)
  {
    if |topic| > 0 && topic[0] == DOLLAR && |filter| > 0 && (filter[0] == PLUS || filter[0] == HASH) {
      return false;
    }
    var fLevels := SplitLevels(filter);
    var tLevels := SplitLevels(topic);
    for i := 0 to |fLevels|
      invariant i <= |tLevels|
      invariant LevelsMatch(fLevels, tLevels) == LevelsMatch(fLevels[i..], tLevels[i..])
    {
      if fLevels[i] == REST {
        return true;
      }
      if i >= |tLevels| {
        return false;
      }
      if fLevels[i] != ONE && fLevels[i] != tLevels[i] {
        return false;
      }
      assert fLevels[i..][1..] == fLevels[i + 1..];
      assert tLevels[i..][1..] == tLevels[i + 1..];
    }
    return |fLevels| == |tLevels|;
  }
}
