/** Topic levels: splitting on '/' and joining again. */
module Levels {
  import opened Bytes

  type Level = bytes

  /** The pieces of `s` between slashes; never empty. */
  function Split(s: bytes): (r: seq<Level>)
    ensures r != []
  {
    if s == [] then [[]]
    else
      var r := Split(s[1..]);
      if s[0] == SLASH then [[]] + r else [[s[0]] + r[0]] + r[1..]
  }

  function Join(ls: seq<Level>): bytes
    requires ls != []
  {
    if |ls| == 1 then ls[0] else ls[0] + [SLASH] + Join(ls[1..])
  }

  ghost predicate SlashFree(ls: seq<Level>) {
    forall l :: l in ls ==> SLASH !in l
  }

  lemma {:induction false} SplitWhole(s: bytes)
    requires SLASH !in s
    ensures Split(s) == [s]
  {
    if s != [] {
      SplitWhole(s[1..]);
      assert [s[0]] + s[1..] == s;
    }
  }

  lemma SplitCons(c: byte, t: bytes)
    ensures Split([c] + t) == if c == SLASH then [[]] + Split(t) else [[c] + Split(t)[0]] + Split(t)[1..]
  {
    assert ([c] + t)[1..] == t;
  }

  lemma {:induction false} SplitAtSlash(a: bytes, b: bytes)
    ensures Split(a + [SLASH] + b) == Split(a) + Split(b)
  {
    hide Split;
    if a == [] {
      SplitWhole([]);
      SplitCons(SLASH, b);
      assert a + [SLASH] + b == [SLASH] + b;
    } else {
      SplitAtSlash(a[1..], b);
      assert a == [a[0]] + a[1..] && a + [SLASH] + b == [a[0]] + (a[1..] + [SLASH] + b);
      SplitApart(a[0], a[1..], a[1..] + [SLASH] + b, b);
    }
  }

  /** A byte in front goes to the first piece, whatever pieces come last. */
  lemma SplitApart(c: byte, s: bytes, t: bytes, b: bytes)
    requires Split(t) == Split(s) + Split(b)
    ensures Split([c] + t) == Split([c] + s) + Split(b)
  {
    hide Split;
    SplitCons(c, s);
    SplitCons(c, t);
    FirstApart(Split(s), Split(b));
    if c == SLASH {
      ConsApart([], Split(s), Split(b));
    } else {
      ConsApart([c] + Split(s)[0], Split(s)[1..], Split(b));
    }
  }

  lemma FirstApart(x: seq<Level>, y: seq<Level>)
    requires x != []
    ensures (x + y)[0] == x[0] && (x + y)[1..] == x[1..] + y
  {
  }

  lemma ConsApart(h: Level, x: seq<Level>, y: seq<Level>)
    ensures [h] + (x + y) == ([h] + x) + y
  {
  }

  lemma {:induction false} SplitSlashFree(s: bytes)
    ensures SlashFree(Split(s))
  {
    if s != [] {
      SplitSlashFree(s[1..]);
    }
  }

  /** Joining undoes splitting, so splitting is injective. */
  lemma {:induction false} JoinOfSplit(s: bytes)
    ensures Join(Split(s)) == s
  {
    if s != [] {
      JoinOfSplit(s[1..]);
      var r := Split(s[1..]);
      if s[0] == SLASH {
        assert ([[]] + r)[1..] == r;
      } else {
        assert ([[s[0]] + r[0]] + r[1..])[1..] == r[1..];
      }
    }
  }

  /** Splitting undoes joining for slash-free levels. */
  lemma {:induction false} SplitOfJoin(ls: seq<Level>)
    requires ls != [] && SlashFree(ls)
    ensures Split(Join(ls)) == ls
  {
    SplitWhole(ls[0]);
    if |ls| > 1 {
      SplitOfJoin(ls[1..]);
      SplitAtSlash(ls[0], Join(ls[1..]));
      assert [ls[0]] + ls[1..] == ls;
    }
  }

  /** `splitFilter` and `splitTopic` (the source has the same loop twice). */
  method SplitLevels(s: bytes) returns (res: seq<Level>)
    ensures res == Split(s)
  {
    hide Split;
    res := [];
    var start := 0;
    for i := 0 to |s|
      invariant 0 <= start <= i
      invariant SLASH !in s[start..i]
      invariant Split(s) == res + Split(s[start..])
    {
      if s[i] == SLASH {
        SplitAtSlash(s[start..i], s[i + 1..]);
        SplitWhole(s[start..i]);
        assert s[start..] == s[start..i] + [SLASH] + s[i + 1..];
        res := res + [s[start..i]];
        start := i + 1;
      } else {
        assert s[start..i + 1] == s[start..i] + [s[i]];
      }
    }
    assert s[start..|s|] == s[start..];
    SplitWhole(s[start..]);
    res := res + [s[start..]];
  }
}
