/** Facts about what a tree stores, apart from how its nodes are linked. */
module Views {
  import opened Bytes
  import opened Levels
  import opened Routing

  ghost predicate Closed<S>(view: View<S>) {
    Root in view && forall p, l {:trigger Child(p, l)} :: Child(p, l) in view ==> p in view
  }

  /** Some subscription is held at or below `p`. */
  ghost predicate Occupied<S>(view: View<S>, p: Path) {
    exists q :: q in view && Above(p, q) && view[q] != map[]
  }

  /** Every path is occupied, except perhaps those on the way to `way`. */
  ghost predicate PrunedExcept<S>(view: View<S>, way: Path) {
    forall p {:trigger Occupied(view, p)} :: p in view && !Above(p, way) ==> Occupied(view, p)
  }

  /** `w` has the entries of `v` and perhaps more paths. */
  ghost predicate Padded<S>(v: View<S>, w: View<S>) {
    && (forall p :: p in v ==> p in w && w[p] == v[p])
    && (forall p :: p in w ==> p in v || w[p] == map[])
  }

  lemma RemovedPadded<S>(v: View<S>, mid: View<S>, w: View<S>, gone: iset<Path>, client: bytes)
    requires Removed(v, mid, gone, client) && Padded(w, mid)
    ensures Removed(v, w, gone, client)
  {
    assert forall p, c :: Has(w, p, c) <==> Has(mid, p, c);
  }

  lemma {:induction false} WalkStaysBelow(p: Path, ls: seq<Level>)
    ensures Above(p, Walk(p, ls))
    decreases |ls|
  {
    if ls != [] {
      WalkStaysBelow(Child(p, ls[0]), ls[1..]);
      AboveTransitive(p, Child(p, ls[0]), Walk(p, ls));
    }
  }

  lemma {:induction false} AboveTransitive(p: Path, q: Path, r: Path)
    requires Above(p, q) && Above(q, r)
    ensures Above(p, r)
  {
    if q != r {
      AboveTransitive(p, q, r.parent);
    }
  }

  /** A path that is missing from a closed view has nothing below it. */
  lemma {:induction false} NothingBelow<S>(view: View<S>, p: Path, q: Path)
    requires Closed(view) && p !in view && Above(p, q)
    ensures q !in view
  {
    if p != q {
      NothingBelow(view, p, q.parent);
      assert q == Child(q.parent, q.level);
    }
  }

  lemma PrunedAside<S>(view: View<S>, p: Path, l: Level)
    requires PrunedExcept(view, p)
    ensures PrunedExcept(view, Child(p, l))
  {
    forall q | q in view && !Above(q, Child(p, l)) ensures Occupied(view, q) {
      assert !Above(q, p);
    }
  }

  lemma PrunedAfterRemoval<S>(v: View<S>, w: View<S>, p: Path)
    requires PrunedExcept(v, p) && p in v && p in w && w == v[p := w[p]]
    ensures PrunedExcept(w, p)
  {
    forall q | q in w && !Above(q, p) ensures Occupied(w, q) {
      assert Occupied(v, q);
      var r :| r in v && Above(q, r) && v[r] != map[];
      assert r in w && w[r] != map[];
    }
  }

  lemma PrunedAfterDrop<S>(v: View<S>, w: View<S>, p: Path, l: Level)
    requires PrunedExcept(v, Child(p, l)) && Child(p, l) in v && v[Child(p, l)] == map[]
    requires w == v - {Child(p, l)}
    ensures PrunedExcept(w, p)
  {
    forall q | q in w && !Above(q, p) ensures Occupied(w, q) {
      assert Occupied(v, q);
      var r :| r in v && Above(q, r) && v[r] != map[];
      assert r in w && w[r] != map[];
    }
  }

  lemma PrunedAfterKeep<S>(view: View<S>, p: Path, l: Level)
    requires PrunedExcept(view, Child(p, l)) && Child(p, l) in view
    requires view[Child(p, l)] != map[] || exists k :: Child(Child(p, l), k) in view
    ensures PrunedExcept(view, p)
  {
    var c := Child(p, l);
    if view[c] == map[] {
      var k :| Child(c, k) in view;
      ChildIsBelow(c, k);
      assert Occupied(view, Child(c, k));
      var r :| r in view && Above(Child(c, k), r) && view[r] != map[];
    }
    assert Occupied(view, c);
    forall q | q in view && !Above(q, p) ensures Occupied(view, q) {
      if Above(q, c) {
        assert q == c;
      }
    }
  }

  lemma {:induction false} AboveIsShorter(p: Path, q: Path)
    requires Above(p, q)
    ensures |Steps(p)| <= |Steps(q)|
  {
    if p != q {
      AboveIsShorter(p, q.parent);
    }
  }

  lemma ChildIsBelow(p: Path, l: Level)
    ensures !Above(Child(p, l), p)
    ensures forall q :: Above(Child(p, l), q) ==> Above(p, q)
  {
    if Above(Child(p, l), p) {
      AboveIsShorter(Child(p, l), p);
    }
    forall q | Above(Child(p, l), q) ensures Above(p, q) {
      AboveTransitive(p, Child(p, l), q);
    }
  }

  lemma PaddedAdded<S>(v: View<S>, mid: View<S>, w: View<S>, p: Path, sub: Subscription<S>)
    requires Padded(v, mid) && p in mid && w == mid[p := mid[p][sub.client := sub]]
    ensures Added(v, w, p, sub)
  {
  }

  lemma PrunedDeeper<S>(v: View<S>, w: View<S>, p: Path, l: Level)
    requires PrunedExcept(v, p)
    requires w == v || (Child(p, l) !in v && w == v[Child(p, l) := map[]])
    ensures PrunedExcept(w, Child(p, l))
  {
    forall q | q in w && !Above(q, Child(p, l)) ensures Occupied(w, q) {
      assert Occupied(v, q);
      var r :| r in v && Above(q, r) && v[r] != map[];
      assert r in w && w[r] == v[r];
    }
  }

  lemma PrunedWhenFilled<S>(v: View<S>, w: View<S>, p: Path)
    requires PrunedExcept(v, p) && p in w && w == v[p := w[p]] && w[p] != map[]
    ensures PrunedExcept(w, Root)
  {
    forall q | q in w && !Above(q, Root) ensures Occupied(w, q) {
      if !Above(q, p) {
        assert Occupied(v, q);
        var r :| r in v && Above(q, r) && v[r] != map[];
        assert r in w && w[r] != map[];
      }
    }
  }

  // ----- Removing a client below a path, child by child

  ghost function Subtree<S>(view: View<S>, p: Path): set<Path> {
    set q | q in view && Above(p, q)
  }

  lemma SubtreeShrinks<S>(v: View<S>, w: View<S>, p: Path, l: Level)
    requires w.Keys <= v.Keys && p in v
    ensures Subtree(w, Child(p, l)) < Subtree(v, p)
  {
    ChildIsBelow(p, l);
    assert p in Subtree(v, p);
  }

  /** The paths at or below `p`, apart from those below its children at `todo`. */
  ghost function Cleared(p: Path, todo: set<Level>): iset<Path> {
    iset q | Above(p, q) && forall l :: l in todo ==> !Above(Child(p, l), q)
  }

  lemma ClearedAll(p: Path)
    ensures Cleared(p, {}) == Below(p)
  {
  }

  /** Below `p` comes `p` itself or one of its children. */
  lemma {:induction false} FirstStep(p: Path, q: Path) returns (l: Level)
    requires Above(p, q) && p != q
    ensures Above(Child(p, l), q)
  {
    if q.parent == p {
      l := q.level;
    } else {
      l := FirstStep(p, q.parent);
    }
  }

  lemma ClearedHere<S>(v: View<S>, w: View<S>, p: Path, kids: set<Level>, client: bytes)
    requires Closed(v) && p in v && w == v[p := v[p] - {client}]
    requires forall l :: Child(p, l) in v ==> l in kids
    ensures Removed(v, w, Cleared(p, kids), client)
  {
    forall q | q in v && q in Cleared(p, kids) ensures q == p {
      if q != p {
        var l := FirstStep(p, q);
        if Child(p, l) !in v {
          NothingBelow(v, Child(p, l), q);
        }
      }
    }
    forall l | l in kids ensures !Above(Child(p, l), p) {
      ChildIsBelow(p, l);
    }
    assert p in Cleared(p, kids);
  }

  lemma ClearedNext<S>(v: View<S>, mid: View<S>, w: View<S>, p: Path, todo: set<Level>, l: Level, client: bytes)
    requires l in todo && Removed(v, mid, Cleared(p, todo), client) && Removed(mid, w, Below(Child(p, l)), client)
    ensures Removed(v, w, Cleared(p, todo - {l}), client)
  {
    forall q ensures q in Cleared(p, todo - {l}) <==> q in Cleared(p, todo) || q in Below(Child(p, l)) {
      ChildIsBelow(p, l);
      if q in Below(Child(p, l)) {
        forall k | k in todo && k != l ensures !Above(Child(p, k), q) {
          ChildrenApart(p, k, l, q);
        }
      }
    }
  }

  /** Two children of a path have nothing in common below them. */
  lemma {:induction false} ChildrenApart(p: Path, k: Level, l: Level, q: Path)
    requires k != l && Above(Child(p, l), q)
    ensures !Above(Child(p, k), q)
  {
    if q == Child(p, l) {
      ChildIsBelow(p, k);
    } else {
      ChildrenApart(p, k, l, q.parent);
      if q == Child(p, k) {
        ChildIsBelow(p, l);
      }
    }
  }
}
