/** What the topic tree stores: subscriptions by path and client, read as routes by filter and
    client, and what publishing to a topic must reach. */
module Routing {
  import opened Bytes
  import opened Levels
  import opened Filters

  datatype Subscription<+S> = Subscription(client: bytes, subscriber: S, qos: nat)

  /** A position in the tree: the levels from the root. */
  datatype Path = Root | Child(parent: Path, level: Level)

  function Steps(p: Path): seq<Level> {
    match p
    case Root => []
    case Child(q, l) => Steps(q) + [l]
  }

  function Walk(p: Path, ls: seq<Level>): Path
    decreases |ls|
  {
    if ls == [] then p else Walk(Child(p, ls[0]), ls[1..])
  }

  lemma {:induction false} WalkSteps(p: Path, ls: seq<Level>)
    ensures Steps(Walk(p, ls)) == Steps(p) + ls
    decreases |ls|
  {
    if ls != [] {
      WalkSteps(Child(p, ls[0]), ls[1..]);
      assert ls == [ls[0]] + ls[1..];
    }
  }

  lemma {:induction false} StepsInjective(p: Path, q: Path)
    requires Steps(p) == Steps(q)
    ensures p == q
  {
    if p.Child? && q.Child? {
      assert Steps(p)[..|Steps(p)| - 1] == Steps(p.parent);
      assert Steps(q)[..|Steps(q)| - 1] == Steps(q.parent);
      StepsInjective(p.parent, q.parent);
      assert Steps(p)[|Steps(p)| - 1] == p.level;
      assert Steps(q)[|Steps(q)| - 1] == q.level;
    }
  }

  /** `q` is `p` or lies below it. */
  predicate Above(p: Path, q: Path) {
    p == q || (q.Child? && Above(p, q.parent))
  }

  ghost function Below(p: Path): iset<Path> {
    iset q | Above(p, q)
  }

  lemma {:induction false} RootAbove(q: Path)
    ensures Above(Root, q)
  {
    if q.Child? {
      RootAbove(q.parent);
    }
  }

  function PathOf(filter: bytes): Path {
    Walk(Root, Split(filter))
  }

  lemma PathOfFilter(f: bytes)
    ensures PathOf(f) != Root && Steps(PathOf(f)) == Split(f) && Join(Steps(PathOf(f))) == f
  {
    WalkSteps(Root, Split(f));
    JoinOfSplit(f);
  }

  /** Stored subscriptions: by path, then by client. */
  type View<+S> = map<Path, map<bytes, Subscription<S>>>

  /** The same, by (filter, client). */
  type Routes<+S> = map<(bytes, bytes), Subscription<S>>

  ghost predicate Has<S>(view: View<S>, p: Path, c: bytes) {
    p in view && c in view[p]
  }

  /** Subscriptions sit at the levels of valid filters and under their own client. */
  ghost predicate WellFormed<S>(view: View<S>) {
    forall p, c :: Has(view, p, c) ==>
      p != Root && SlashFree(Steps(p)) && Filter(Join(Steps(p))) && view[p][c].client == c
  }

  ghost function ToRoutes<S>(view: View<S>): Routes<S> {
    map f, c | f in Names(view) && PathOf(f) in view && c in view[PathOf(f)] :: (f, c) := view[PathOf(f)][c]
  }

  ghost function Names<S>(view: View<S>): set<bytes> {
    set p | p in view && p != Root && Steps(p) != [] :: Join(Steps(p))
  }

  /** A route is stored under the levels of its filter and nowhere else. */
  lemma RouteAt<S>(view: View<S>, f: bytes, c: bytes)
    ensures (f, c) in ToRoutes(view) <==> Has(view, PathOf(f), c)
    ensures (f, c) in ToRoutes(view) ==> ToRoutes(view)[(f, c)] == view[PathOf(f)][c]
  {
    PathOfFilter(f);
    if Has(view, PathOf(f), c) {
      assert f in Names(view);
    }
  }

  ghost predicate SameAt<V>(a: map<(bytes, bytes), V>, b: map<(bytes, bytes), V>, f: bytes, c: bytes) {
    ((f, c) in a <==> (f, c) in b) && ((f, c) in a ==> a[(f, c)] == b[(f, c)])
  }

  lemma SameRoutes<V>(a: map<(bytes, bytes), V>, b: map<(bytes, bytes), V>)
    requires forall f, c :: SameAt(a, b, f, c)
    ensures a == b
  {
    forall k: (bytes, bytes) ensures (k in a <==> k in b) && (k in a ==> a[k] == b[k]) {
      assert SameAt(a, b, k.0, k.1);
    }
  }

  /** `w` differs from `v` only in that `sub` is filed at `p`. */
  ghost predicate Added<S>(v: View<S>, w: View<S>, p: Path, sub: Subscription<S>) {
    && (forall q, c :: Has(w, q, c) <==> Has(v, q, c) || (q == p && c == sub.client))
    && (forall q, c :: Has(w, q, c) ==> w[q][c] == if q == p && c == sub.client then sub else v[q][c])
  }

  lemma AddRoute<S>(v: View<S>, w: View<S>, f: bytes, sub: Subscription<S>)
    requires WellFormed(v) && Filter(f) && Added(v, w, PathOf(f), sub)
    ensures WellFormed(w)
    ensures ToRoutes(w) == ToRoutes(v)[(f, sub.client) := sub]
  {
    hide Steps, Split, Join, Walk, ToRoutes;
    PathOfFilter(f);
    SplitSlashFree(f);
    var r' := ToRoutes(v)[(f, sub.client) := sub];
    forall g, c ensures SameAt(ToRoutes(w), r', g, c) {
      RouteAt(v, g, c);
      RouteAt(w, g, c);
      PathOfFilter(g);
    }
    SameRoutes(ToRoutes(w), r');
  }

  /** `w` is `v` without the entries of `client` at the paths of `gone`. */
  ghost predicate Removed<S>(v: View<S>, w: View<S>, gone: iset<Path>, client: bytes) {
    && (forall q, c :: Has(w, q, c) <==> Has(v, q, c) && !(q in gone && c == client))
    && (forall q, c :: Has(w, q, c) ==> w[q][c] == v[q][c])
  }

  lemma RemovedWellFormed<S>(v: View<S>, w: View<S>, gone: iset<Path>, client: bytes)
    requires WellFormed(v) && Removed(v, w, gone, client)
    ensures WellFormed(w)
  {
    assert forall p, c :: Has(w, p, c) ==> Has(v, p, c);
  }

  lemma RemovedRoute<S>(v: View<S>, w: View<S>, f: bytes, client: bytes, g: bytes, c: bytes)
    requires Removed(v, w, iset{PathOf(f)}, client)
    ensures SameAt(ToRoutes(w), ToRoutes(v) - {(f, client)}, g, c)
  {
    PathOfFilter(f);
    PathOfFilter(g);
    RouteAt(v, g, c);
    RouteAt(w, g, c);
  }

  lemma DropRoute<S>(v: View<S>, w: View<S>, f: bytes, client: bytes)
    requires WellFormed(v) && Removed(v, w, iset{PathOf(f)}, client)
    ensures WellFormed(w)
    ensures ToRoutes(w) == ToRoutes(v) - {(f, client)}
  {
    RemovedWellFormed(v, w, iset{PathOf(f)}, client);
    forall g, c ensures SameAt(ToRoutes(w), ToRoutes(v) - {(f, client)}, g, c) {
      RemovedRoute(v, w, f, client, g, c);
    }
    SameRoutes(ToRoutes(w), ToRoutes(v) - {(f, client)});
  }

  /** The routes left when `client` is removed everywhere. */
  function Without<S>(routes: Routes<S>, client: bytes): Routes<S> {
    map k | k in routes && k.1 != client :: routes[k]
  }

  lemma DropClient<S>(v: View<S>, w: View<S>, client: bytes)
    requires WellFormed(v) && Removed(v, w, Below(Root), client)
    ensures WellFormed(w)
    ensures ToRoutes(w) == Without(ToRoutes(v), client)
  {
    RemovedWellFormed(v, w, Below(Root), client);
    forall g, c ensures SameAt(ToRoutes(w), Without(ToRoutes(v), client), g, c) {
      RouteAt(v, g, c);
      RouteAt(w, g, c);
      RootAbove(PathOf(g));
    }
    SameRoutes(ToRoutes(w), Without(ToRoutes(v), client));
  }

  // ----- What a topic must reach

  /** `sub` is a subscription of its client with a filter that matches `topic`. */
  ghost predicate Reaches<S>(routes: Routes<S>, topic: bytes, sub: Subscription<S>) {
    exists f :: (f, sub.client) in routes && Matches(f, topic) && routes[(f, sub.client)] == sub
  }

  /** One entry for each client with a matching filter, carrying its highest granted QoS, and no
      one else. */
  ghost predicate IsFanout<S>(routes: Routes<S>, topic: bytes, subs: seq<Subscription<S>>) {
    && (forall i, j :: 0 <= i < j < |subs| ==> subs[i].client != subs[j].client)
    && (forall i :: 0 <= i < |subs| ==> Reaches(routes, topic, subs[i]))
    && (forall f, c :: (f, c) in routes && Matches(f, topic) ==>
          exists i :: 0 <= i < |subs| && subs[i].client == c && routes[(f, c)].qos <= subs[i].qos)
  }

  // ----- Routes and stored sessions

  /** Every route leads to the stored session of its client. */
  ghost predicate Rooted<S>(routes: Routes<S>, stored: map<bytes, S>) {
    forall f, c :: (f, c) in routes ==> c in stored && routes[(f, c)].subscriber == stored[c]
  }

  /** What each client's session has been granted: QoS by filter. */
  type Grants = map<bytes, map<bytes, nat>>

  /** The routes are the grants of the stored sessions, none above QoS 1. */
  ghost predicate Agreed<S>(routes: Routes<S>, grants: Grants) {
    && (forall f, c :: (f, c) in routes <==> c in grants && f in grants[c])
    && (forall f, c :: (f, c) in routes ==>
          routes[(f, c)].client == c && routes[(f, c)].qos == grants[c][f] && routes[(f, c)].qos <= 1)
  }
}
