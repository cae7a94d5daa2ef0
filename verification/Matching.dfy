/** Which paths of a view a topic reaches, level by level, and how the subscriptions found there
    are merged into one per client. */
module Matching {
  import opened Bytes
  import opened Levels
  import opened Filters
  import opened Routing
  import opened Views
  import Covers

  /** The levels that lead from `p` down to `q`. */
  function Suffix(p: Path, q: Path): seq<Level>
    requires Above(p, q)
  {
    if p == q then [] else Suffix(p, q.parent) + [q.level]
  }

  lemma {:induction false} SuffixStep(p: Path, l: Level, q: Path)
    requires Above(Child(p, l), q)
    ensures Above(p, q) && p != q && Suffix(p, q) == [l] + Suffix(Child(p, l), q)
  {
    ChildIsBelow(p, l);
    if q != Child(p, l) {
      SuffixStep(p, l, q.parent);
    }
  }

  lemma {:induction false} SuffixSteps(p: Path, q: Path)
    requires Above(p, q)
    ensures Steps(q) == Steps(p) + Suffix(p, q)
  {
    if p != q {
      SuffixSteps(p, q.parent);
    }
  }

  /** The paths with subscriptions, at or below `p`, that the levels `rem` match from `p` on. */
  ghost function Hits<S>(view: View<S>, p: Path, rem: seq<Level>): set<Path> {
    set q | q in view && view[q] != map[] && Above(p, q) && LevelsMatch(Suffix(p, q), rem)
  }

  ghost function Here<S>(view: View<S>, p: Path): set<Path> {
    if p in view && view[p] != map[] then {p} else {}
  }

  /** In a well-formed view nothing is stored below a `#`. */
  lemma RestIsLast<S>(view: View<S>, p: Path, q: Path)
    requires WellFormed(view) && q in view && view[q] != map[] && Above(Child(p, REST), q)
    ensures q == Child(p, REST)
  {
    var c :| c in view[q];
    assert Has(view, q, c);
    SplitOfJoin(Steps(q));
    Covers.FilterShape(Join(Steps(q)));
    SuffixSteps(Child(p, REST), q);
    assert Steps(Child(p, REST))[|Steps(p)|] == REST;
    assert Steps(q)[|Steps(p)|] == REST;
    assert Suffix(Child(p, REST), q) == [];
  }

  lemma HitsStep<S>(view: View<S>, p: Path, l: Level, rest: seq<Level>)
    requires WellFormed(view)
    ensures Hits(view, p, [l] + rest)
         == Hits(view, Child(p, l), rest) + Hits(view, Child(p, ONE), rest) + Here(view, Child(p, REST))
  {
    var rem := [l] + rest;
    assert rem[1..] == rest;
    forall q | q in Hits(view, p, rem)
      ensures q in Hits(view, Child(p, l), rest) + Hits(view, Child(p, ONE), rest) + Here(view, Child(p, REST))
    {
      assert p != q;
      var k := FirstStep(p, q);
      SuffixStep(p, k, q);
      assert Suffix(p, q)[1..] == Suffix(Child(p, k), q);
      if k == REST {
        RestIsLast(view, p, q);
      }
    }
    forall k, q | (k == l || k == ONE) && q in Hits(view, Child(p, k), rest) ensures q in Hits(view, p, rem) {
      SuffixStep(p, k, q);
      assert Suffix(p, q)[1..] == Suffix(Child(p, k), q);
    }
    forall q | q in Here(view, Child(p, REST)) ensures q in Hits(view, p, rem) {
      SuffixStep(p, REST, q);
    }
  }

  lemma HitsEnd<S>(view: View<S>, p: Path)
    requires WellFormed(view)
    ensures Hits(view, p, []) == Here(view, p) + Here(view, Child(p, REST))
  {
    forall q | q in Hits(view, p, []) ensures q in Here(view, p) + Here(view, Child(p, REST)) {
      if p != q {
        var k := FirstStep(p, q);
        SuffixStep(p, k, q);
        RestIsLast(view, p, q);
      }
    }
    forall q | q in Here(view, Child(p, REST)) ensures q in Hits(view, p, []) {
      SuffixStep(p, REST, q);
    }
  }

  lemma NoHits<S>(view: View<S>, p: Path, rem: seq<Level>)
    requires Closed(view) && p !in view
    ensures Hits(view, p, rem) == {}
  {
    forall q | q in Hits(view, p, rem) ensures false {
      NothingBelow(view, p, q);
    }
  }

  /** The levels of `topic` from index `idx` on; an index past the end marks exhaustion. */
  function Remaining(topic: bytes, idx: nat): seq<Level> {
    if idx > |topic| then [] else Split(topic[idx..])
  }

  lemma RemainingStep(topic: bytes, idx: nat, next: nat)
    requires idx <= next <= |topic| && SLASH !in topic[idx..next] && (next < |topic| ==> topic[next] == SLASH)
    ensures Remaining(topic, idx) == [topic[idx..next]] + Remaining(topic, next + 1)
  {
    SplitWhole(topic[idx..next]);
    if next < |topic| {
      SplitAtSlash(topic[idx..next], topic[next + 1..]);
      assert topic[idx..] == topic[idx..next] + [SLASH] + topic[next + 1..];
    } else {
      assert topic[idx..] == topic[idx..next];
    }
  }

  /** What the walk from `p` at `idx` must find: at the start of a `$` topic no wildcard counts. */
  ghost function Targets<S>(view: View<S>, p: Path, topic: bytes, idx: nat): set<Path> {
    if idx == 0 && StartsWithDollar(topic) then Hits(view, Child(p, Split(topic)[0]), Split(topic)[1..])
    else Hits(view, p, Remaining(topic, idx))
  }

  lemma TargetsNone<S>(view: View<S>, p: Path, topic: bytes, idx: nat)
    requires Closed(view) && p !in view
    ensures Targets(view, p, topic, idx) == {}
  {
    NoHits(view, p, Remaining(topic, idx));
    NoHits(view, Child(p, Split(topic)[0]), Split(topic)[1..]);
  }

  /** From the root, the walk must find exactly the filters that match. */
  lemma TargetsAreMatches<S>(view: View<S>, topic: bytes, q: Path, c: bytes)
    requires WellFormed(view) && Has(view, q, c)
    ensures q in Targets(view, Root, topic, 0) <==> Matches(Join(Steps(q)), topic)
  {
    var f := Join(Steps(q));
    SplitOfJoin(Steps(q));
    Covers.FilterShape(f);
    RootAbove(q);
    SuffixSteps(Root, q);
    assert Suffix(Root, q) == Steps(q);
    assert topic[0..] == topic;
    if StartsWithDollar(topic) {
      Covers.TopicShape(topic);
      var l := Split(topic)[0];
      assert l != ONE && l != REST;
      var k := FirstStep(Root, q);
      SuffixStep(Root, k, q);
      assert Steps(q)[1..] == Suffix(Child(Root, k), q);
      if k != l {
        if Above(Child(Root, l), q) {
          ChildrenApart(Root, l, k, q);
        }
      }
    }
  }

  // ----- Merging

  type Found<+S> = map<bytes, Subscription<S>>

  /** `after` is `before` joined with the subscriptions at `paths`: nothing from elsewhere, and per
      client at least the QoS of everything joined. */
  ghost predicate Merged<S>(view: View<S>, paths: set<Path>, before: Found<S>, after: Found<S>) {
    && (forall c :: c in after ==> (c in before && after[c] == before[c]) || Supplies(view, paths, c, after[c]))
    && (forall c :: c in before ==> c in after && before[c].qos <= after[c].qos)
    && (forall q, c :: q in paths && Has(view, q, c) ==> c in after && view[q][c].qos <= after[c].qos)
  }

  ghost predicate Supplies<S>(view: View<S>, paths: set<Path>, c: bytes, sub: Subscription<S>) {
    exists q :: q in paths && Has(view, q, c) && view[q][c] == sub
  }

  lemma MergedNothing<S>(view: View<S>, out: Found<S>)
    ensures Merged(view, {}, out, out)
  {
  }

  lemma MergedTwice<S>(view: View<S>, h1: set<Path>, h2: set<Path>, a: Found<S>, b: Found<S>, c: Found<S>)
    requires Merged(view, h1, a, b) && Merged(view, h2, b, c)
    ensures Merged(view, h1 + h2, a, c)
  {
    forall k | k in c && !(k in a && c[k] == a[k]) ensures Supplies(view, h1 + h2, k, c[k]) {
      if Supplies(view, h2, k, c[k]) {
        var q :| q in h2 && Has(view, q, k) && view[q][k] == c[k];
        assert q in h1 + h2;
      } else {
        var q :| q in h1 && Has(view, q, k) && view[q][k] == b[k];
        assert q in h1 + h2;
      }
    }
  }

  /** A level of the walk: the literal child, then `+`, then `#`. */
  lemma LevelMerged<S>(view: View<S>, p: Path, l: Level, rest: seq<Level>, a: Found<S>, b: Found<S>, c: Found<S>, d: Found<S>)
    requires WellFormed(view)
    requires Merged(view, Hits(view, Child(p, l), rest), a, b) && Merged(view, Hits(view, Child(p, ONE), rest), b, c)
    requires Merged(view, Here(view, Child(p, REST)), c, d)
    ensures Merged(view, Hits(view, p, [l] + rest), a, d)
  {
    hide Merged, Hits, Here, WellFormed;
    HitsStep(view, p, l, rest);
    MergedTwice(view, Hits(view, Child(p, l), rest), Hits(view, Child(p, ONE), rest), a, b, c);
    MergedTwice(view, Hits(view, Child(p, l), rest) + Hits(view, Child(p, ONE), rest), Here(view, Child(p, REST)), a, c, d);
  }

  /** `addMatch`: a later subscription of a client replaces an earlier one only with a higher QoS. */
  function AddMatch<S>(out: Found<S>, sub: Subscription<S>): Found<S> {
    if sub.client !in out || sub.qos > out[sub.client].qos then out[sub.client := sub] else out
  }

  /** `found` is `out` joined with `subs`, per client the higher QoS. */
  ghost predicate Joined<S>(subs: Found<S>, out: Found<S>, found: Found<S>) {
    && (forall c :: c in found ==> (c in out && found[c] == out[c]) || (c in subs && found[c] == subs[c]))
    && (forall c :: c in out ==> c in found && out[c].qos <= found[c].qos)
    && (forall c :: c in subs ==> c in found && subs[c].qos <= found[c].qos)
  }

  /** One more entry of `subs` is joined. */
  lemma JoinedNext<S>(subs: Found<S>, done: set<bytes>, out: Found<S>, found: Found<S>, c: bytes)
    requires done <= subs.Keys && c in subs && subs[c].client == c
    requires Joined(Part(subs, done), out, found)
    ensures Joined(Part(subs, done + {c}), out, AddMatch(found, subs[c]))
  {
  }

  function Part<S>(subs: Found<S>, keys: set<bytes>): Found<S> {
    map c | c in keys && c in subs :: subs[c]
  }

  method AddAll<S>(subs: Found<S>, out: Found<S>) returns (found: Found<S>)
    requires forall c :: c in subs ==> subs[c].client == c
    ensures Joined(subs, out, found)
  {
    hide Joined, AddMatch;
    found := out;
    var todo := subs.Keys;
    JoinedNothing(subs, out);
    assert subs.Keys - todo == {};
    while todo != {}
      invariant todo <= subs.Keys
      invariant Joined(Part(subs, subs.Keys - todo), out, found)
      decreases todo
    {
      var c :| c in todo;
      JoinedNext(subs, subs.Keys - todo, out, found, c);
      assert subs.Keys - todo + {c} == subs.Keys - (todo - {c});
      found := AddMatch(found, subs[c]);
      todo := todo - {c};
    }
    assert Part(subs, subs.Keys - todo) == subs;
  }

  lemma JoinedNothing<S>(subs: Found<S>, out: Found<S>)
    ensures Joined(Part(subs, {}), out, out)
  {
  }

  lemma JoinedMerged<S>(view: View<S>, p: Path, out: Found<S>, found: Found<S>)
    requires p in view && Joined(view[p], out, found)
    ensures Merged(view, Here(view, p), out, found)
  {
    forall c | c in found && !(c in out && found[c] == out[c]) ensures Supplies(view, Here(view, p), c, found[c]) {
      assert p in Here(view, p) && Has(view, p, c);
    }
  }

  /** `subs` lists the entries of `found` at `keys`, one each. */
  ghost predicate Listed<S>(found: Found<S>, keys: set<bytes>, subs: seq<Subscription<S>>) {
    && (forall i, j :: 0 <= i < j < |subs| ==> subs[i].client != subs[j].client)
    && (forall i :: 0 <= i < |subs| ==>
          subs[i].client in keys && subs[i].client in found && found[subs[i].client] == subs[i])
    && (forall c :: c in keys ==> exists i :: 0 <= i < |subs| && subs[i].client == c)
  }

  lemma ListedNext<S>(found: Found<S>, keys: set<bytes>, subs: seq<Subscription<S>>, c: bytes)
    requires Listed(found, keys, subs) && c in found && c !in keys && found[c].client == c
    ensures Listed(found, keys + {c}, subs + [found[c]])
  {
    var more := subs + [found[c]];
    forall k | k in keys + {c} ensures exists i :: 0 <= i < |more| && more[i].client == k {
      if k == c {
        assert more[|subs|].client == c;
      } else {
        var i :| 0 <= i < |subs| && subs[i].client == k;
        assert more[i].client == k;
      }
    }
  }

  /** The final loop of `Match`, in whatever order the map yields its entries. */
  method ListFound<S>(found: Found<S>) returns (subs: seq<Subscription<S>>)
    requires forall c :: c in found ==> found[c].client == c
    ensures Listed(found, found.Keys, subs)
  {
    subs := [];
    var todo := found.Keys;
    while todo != {}
      invariant todo <= found.Keys
      invariant Listed(found, found.Keys - todo, subs)
      decreases todo
    {
      var c :| c in todo;
      ListedNext(found, found.Keys - todo, subs, c);
      assert found.Keys - (todo - {c}) == found.Keys - todo + {c};
      subs := subs + [found[c]];
      todo := todo - {c};
    }
    assert found.Keys - todo == found.Keys;
  }

  lemma FoundUnderClient<S>(view: View<S>, paths: set<Path>, found: Found<S>)
    requires WellFormed(view) && Merged(view, paths, map[], found)
    ensures forall c :: c in found ==> found[c].client == c
  {
    forall c | c in found ensures found[c].client == c {
      assert Supplies(view, paths, c, found[c]);
    }
  }

  lemma ListedFanout<S>(view: View<S>, topic: bytes, found: Found<S>, subs: seq<Subscription<S>>)
    requires WellFormed(view)
    requires Merged(view, Targets(view, Root, topic, 0), map[], found) && Listed(found, found.Keys, subs)
    ensures IsFanout(ToRoutes(view), topic, subs)
  {
    var routes := ToRoutes(view);
    forall i | 0 <= i < |subs| ensures Reaches(routes, topic, subs[i]) {
      var c := subs[i].client;
      assert Supplies(view, Targets(view, Root, topic, 0), c, subs[i]);
      var q :| q in Targets(view, Root, topic, 0) && Has(view, q, c) && view[q][c] == subs[i];
      TargetsAreMatches(view, topic, q, c);
      var f := Join(Steps(q));
      PathOfName(q);
      RouteAt(view, f, c);
      assert (f, c) in routes && Matches(f, topic) && routes[(f, c)] == subs[i];
    }
    forall f, c | (f, c) in routes && Matches(f, topic)
      ensures exists i :: 0 <= i < |subs| && subs[i].client == c && routes[(f, c)].qos <= subs[i].qos
    {
      RouteAt(view, f, c);
      PathOfFilter(f);
      TargetsAreMatches(view, topic, PathOf(f), c);
      assert c in found && view[PathOf(f)][c].qos <= found[c].qos;
      var i :| 0 <= i < |subs| && subs[i].client == c;
    }
  }

  lemma PathOfName(q: Path)
    requires q != Root && SlashFree(Steps(q)) && Steps(q) != []
    ensures PathOf(Join(Steps(q))) == q
  {
    SplitOfJoin(Steps(q));
    PathOfFilter(Join(Steps(q)));
    StepsInjective(PathOf(Join(Steps(q))), q);
  }
}
