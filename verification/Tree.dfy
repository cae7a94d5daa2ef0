/** The topic tree: nodes linked by level, changed in place, cloned into fresh nodes, and walked to
    find the subscriptions of a topic. */
module Tree {
  import opened Bytes
  import opened Levels
  import opened Filters
  import opened Routing
  import opened Views
  import opened Matching

  class Node<S> {
    var children: map<Level, Node<S>>
    var subs: map<bytes, Subscription<S>>
    ghost const path: Path

    constructor (ghost path: Path)
      ensures children == map[] && subs == map[] && this.path == path
    {
      this.path := path;
      children := map[];
      subs := map[];
    }
  }

  /** The nodes of `repr` hold the view, are linked along its paths, and share nothing. */
  ghost predicate Web<S>(repr: set<Node<S>>, view: View<S>)
    reads repr
  {
    && (forall n :: n in repr ==> n.path in view && n.subs == view[n.path])
    && (forall n, m :: n in repr && m in repr && n.path == m.path ==> n == m)
    && (forall n, l :: n in repr && l in n.children ==> n.children[l] in repr && n.children[l].path == Child(n.path, l))
    && (forall n, l {:trigger Child(n.path, l)} :: n in repr && Child(n.path, l) in view ==> l in n.children)
  }

  class Tree<S> {
    const root: Node<S>
    ghost var repr: set<Node<S>>
    ghost var view: View<S>

    ghost predicate Linked()
      reads this, repr
    {
      root in repr && root.path == Root && Web(repr, view) && Closed(view)
    }

    /** Linked, with no node that leads to no subscription. */
    ghost predicate Valid()
      reads this, repr
    {
      Linked() && PrunedExcept(view, Root) && WellFormed(view)
    }

    ghost function Routes(): Routes<S>
      reads this
    {
      ToRoutes(view)
    }

    constructor ()
      ensures Valid() && Routes() == map[] && fresh(repr)
    {
      var n := new Node<S>(Root);
      root := n;
      repr := {n};
      view := map[Root := map[]];
    }

    /** Every child leads to a subscription, so a tree without routes is a bare root. */
    lemma BareRoot()
      requires Valid() && Routes() == map[]
      ensures root.children == map[] && root.subs == map[]
    {
      forall q, c ensures !Has(view, q, c) {
        if Has(view, q, c) {
          PathOfName(q);
          RouteAt(view, Join(Steps(q)), c);
        }
      }
      assert forall c :: c in root.subs ==> Has(view, Root, c);
      forall l ensures l !in root.children {
        if l in root.children {
          assert root.children[l].path == Child(Root, l) && Child(Root, l) in view;
          assert Occupied(view, Child(Root, l));
          var q :| q in view && Above(Child(Root, l), q) && view[q] != map[];
          var c :| c in view[q];
          assert Has(view, q, c);
        }
      }
    }

    // ----- Single writes to one node

    method AddChild(n: Node<S>, l: Level) returns (child: Node<S>)
      requires Linked() && n in repr && l !in n.children
      modifies this, n`children
      ensures Linked() && fresh(child)
      ensures repr == old(repr) + {child} && child.path == Child(n.path, l)
      ensures view == old(view)[Child(n.path, l) := map[]]
      ensures n.children == old(n.children)[l := child]
      ensures Child(n.path, l) !in old(view)
    {
      hide Web, Closed;
      NoSuchPath(n, l);
      child := new Node<S>(Child(n.path, l));
      n.children := n.children[l := child];
      repr := repr + {child};
      view := view[Child(n.path, l) := map[]];
      Grew(n, child, l);
    }

    lemma NoSuchPath(n: Node<S>, l: Level)
      requires Linked() && n in repr && l !in n.children
      ensures Child(n.path, l) !in view
    {
    }

    twostate lemma Grew(n: Node<S>, new child: Node<S>, new l: Level)
      requires old(Linked()) && n in old(repr) && l !in old(n.children) && child !in old(repr)
      requires repr == old(repr) + {child} && view == old(view)[Child(n.path, l) := map[]]
      requires child.path == Child(n.path, l) && child.children == map[] && child.subs == map[]
      requires n.children == old(n.children)[l := child] && n.subs == old(n.subs)
      requires forall m :: m in old(repr) && m != n ==> unchanged(m)
      ensures Linked()
    {
      assert Child(n.path, l) !in old(view);
    }

    method DropChild(n: Node<S>, l: Level)
      requires Linked() && n in repr && l in n.children
      requires n.children[l].children == map[]
      modifies this, n`children
      ensures Linked() && repr == old(repr) - {old(n.children[l])}
      ensures view == old(view) - {Child(n.path, l)}
      ensures n.children == old(n.children) - {l}
    {
      hide Web, Closed;
      repr := repr - {n.children[l]};
      n.children := n.children - {l};
      view := view - {Child(n.path, l)};
      Shrank(n, l);
    }

    twostate lemma Shrank(n: Node<S>, new l: Level)
      requires old(Linked()) && n in old(repr) && l in old(n.children) && old(n.children[l].children) == map[]
      requires repr == old(repr) - {old(n.children[l])} && view == old(view) - {Child(n.path, l)}
      requires n.children == old(n.children) - {l} && n.subs == old(n.subs)
      requires forall m :: m in old(repr) && m != n ==> unchanged(m)
      ensures Linked()
    {
      assert forall k :: Child(Child(n.path, l), k) !in old(view);
    }

    method SetSubs(n: Node<S>, subs: map<bytes, Subscription<S>>)
      requires Linked() && n in repr
      modifies this`view, n`subs
      ensures Linked() && view == old(view)[n.path := subs]
    {
      n.subs := subs;
      view := view[n.path := subs];
    }

    // ----- Operations

    method Subscribe(filter: bytes, sub: Subscription<S>)
      requires Valid() && Filter(filter)
      modifies this, repr
      ensures Valid() && fresh(repr - old(repr))
      ensures Routes() == old(Routes())[(filter, sub.client) := sub]
    {
      hide Web, Closed, Filter, WellFormed, Split, ToRoutes, Occupied;
      var levels := SplitLevels(filter);
      StaysLinked();
      var cur := Descend(levels);
      ghost var mid := view;
      HeldAt(cur);
      SetSubs(cur, cur.subs[sub.client := sub]);
      assert sub.client in view[cur.path];
      PrunedWhenFilled(mid, view, cur.path);
      PaddedAdded(old(view), mid, view, cur.path, sub);
      AddRoute(old(view), view, filter, sub);
    }

    lemma HeldAt(n: Node<S>)
      requires Linked() && n in repr
      ensures n.path in view && view[n.path] == n.subs
    {
    }

    /** The loop of `Subscribe`: the node at `levels`, made if it is missing. */
    method Descend(levels: seq<Level>) returns (cur: Node<S>)
      requires Linked() && PrunedExcept(view, Root)
      modifies this, repr
      ensures Linked() && fresh(repr - old(repr))
      ensures cur in repr && cur.path == Walk(Root, levels)
      ensures PrunedExcept(view, cur.path) && Padded(old(view), view)
    {
      cur := root;
      assert levels[0..] == levels;
      for i := 0 to |levels|
        invariant Linked() && cur in repr && Walk(cur.path, levels[i..]) == Walk(Root, levels)
        invariant PrunedExcept(view, cur.path) && Padded(old(view), view)
        invariant fresh(repr - old(repr))
      {
        var lvl := levels[i];
        assert levels[i..][1..] == levels[i + 1..];
        ghost var before := view;
        if lvl !in cur.children {
          var child := AddChild(cur, lvl);
        }
        PrunedDeeper(before, view, cur.path, lvl);
        cur := cur.children[lvl];
      }
    }

    method Unsubscribe(filter: bytes, client: bytes)
      requires Valid()
      modifies this, repr
      ensures Valid() && repr <= old(repr)
      ensures Routes() == old(Routes()) - {(filter, client)}
    {
      var levels := SplitLevels(filter);
      UnsubscribeAt(root, levels, client);
      DropRoute(old(view), view, filter, client);
    }

    /** `node.unsubscribe` */
    method UnsubscribeAt(n: Node<S>, levels: seq<Level>, client: bytes)
      requires Linked() && n in repr && PrunedExcept(view, n.path)
      modifies this, repr
      ensures Linked() && n in repr && repr <= old(repr) && PrunedExcept(view, n.path)
      ensures Removed(old(view), view, iset{Walk(n.path, levels)}, client)
      ensures forall m :: m in old(repr) && !Above(n.path, m.path) ==> m in repr && m.children == old(m.children)
      decreases |levels|
    {
      if |levels| == 0 {
        SetSubs(n, n.subs - {client});
        PrunedAfterRemoval(old(view), view, n.path);
        return;
      }
      if levels[0] !in n.children {
        WalkStaysBelow(Child(n.path, levels[0]), levels[1..]);
        NothingBelow(view, Child(n.path, levels[0]), Walk(Child(n.path, levels[0]), levels[1..]));
        return;
      }
      var child := n.children[levels[0]];
      PrunedAside(view, n.path, levels[0]);
      ChildIsBelow(n.path, levels[0]);
      UnsubscribeAt(child, levels[1..], client);
      ghost var mid := view;
      PruneChild(n, levels[0]);
      RemovedPadded(old(view), mid, view, iset{Walk(n.path, levels)}, client);
    }

    /** Unlink the child at `l` if it has neither children nor subscriptions left. */
    method PruneChild(n: Node<S>, l: Level)
      requires Linked() && n in repr && l in n.children && PrunedExcept(view, Child(n.path, l))
      modifies this, n`children
      ensures Linked() && PrunedExcept(view, n.path) && Padded(view, old(view))
      ensures n.children == old(n.children) || n.children == old(n.children) - {l}
      ensures old(repr) - {old(n.children[l])} <= repr <= old(repr)
    {
      var child := n.children[l];
      if child.children == map[] && child.subs == map[] {
        DropChild(n, l);
        PrunedAfterDrop(old(view), view, n.path, l);
      } else {
        if child.subs == map[] {
          var k :| k in child.children;
          assert child.children[k] in repr;
          assert Child(child.path, k) in view;
        }
        PrunedAfterKeep(view, n.path, l);
      }
    }

    method UnsubscribeAll(client: bytes)
      requires Valid()
      modifies this, repr
      ensures Valid() && repr <= old(repr)
      ensures Routes() == Without(old(Routes()), client)
    {
      UnsubscribeAllAt(root, client);
      DropClient(old(view), view, client);
    }

    method UnsubscribeAllAt(n: Node<S>, client: bytes)
      requires Linked() && n in repr && PrunedExcept(view, n.path)
      modifies this, repr
      ensures Linked() && n in repr && repr <= old(repr) && PrunedExcept(view, n.path)
      ensures view.Keys <= old(view.Keys) && Removed(old(view), view, Below(n.path), client)
      ensures forall m :: m in old(repr) && !Above(n.path, m.path) ==> m in repr && m.children == old(m.children)
      decreases Subtree(view, n.path), 0
    {
      SetSubs(n, n.subs - {client});
      PrunedAfterRemoval(old(view), view, n.path);
      var todo := n.children.Keys;
      ClearedHere(old(view), view, n.path, todo, client);
      while todo != {}
        invariant Linked() && n in repr && repr <= old(repr) && PrunedExcept(view, n.path)
        invariant view.Keys <= old(view.Keys) && todo <= n.children.Keys
        invariant Removed(old(view), view, Cleared(n.path, todo), client)
        invariant forall m :: m in old(repr) && !Above(n.path, m.path) ==> m in repr && m.children == old(m.children)
        decreases todo
      {
        var level :| level in todo;
        SubtreeShrinks(old(view), view, n.path, level);
        ghost var before := view;
        ClearChild(n, level, client);
        ClearedNext(old(view), before, view, n.path, todo, level, client);
        todo := todo - {level};
      }
      ClearedAll(n.path);
    }

    /** One round of the loop of `unsubscribeAll`. */
    method ClearChild(n: Node<S>, l: Level, client: bytes)
      requires Linked() && n in repr && l in n.children && PrunedExcept(view, n.path)
      modifies this, repr
      ensures Linked() && n in repr && repr <= old(repr) && PrunedExcept(view, n.path)
      ensures n.children == old(n.children) || n.children == old(n.children) - {l}
      ensures view.Keys <= old(view.Keys) && Removed(old(view), view, Below(Child(n.path, l)), client)
      ensures forall m :: m in old(repr) && !Above(n.path, m.path) ==> m in repr && m.children == old(m.children)
      decreases Subtree(view, Child(n.path, l)), 1
    {
      ChildIsBelow(n.path, l);
      PrunedAside(view, n.path, l);
      UnsubscribeAllAt(n.children[l], client);
      ghost var mid := view;
      PruneChild(n, l);
      RemovedPadded(old(view), mid, view, Below(Child(n.path, l)), client);
    }

    // ----- Clone

    constructor Wrap(root: Node<S>, ghost repr: set<Node<S>>, ghost view: View<S>)
      ensures this.root == root && this.repr == repr && this.view == view
    {
      this.root := root;
      this.repr := repr;
      this.view := view;
    }

    /** A tree with the same routes whose nodes are all new. */
    method Clone() returns (t: Tree<S>)
      requires Valid()
      ensures fresh(t) && fresh(t.repr) && t.Valid() && t.Routes() == Routes()
    {
      var nn, copies := CloneAt(root);
      t := new Tree<S>.Wrap(nn, copies, view);
    }

    method CloneAt(n: Node<S>) returns (nn: Node<S>, ghost copies: set<Node<S>>)
      requires Linked() && n in repr
      ensures fresh(copies) && nn in copies && nn.path == n.path
      ensures Web(copies, view) && forall m :: m in copies ==> Above(n.path, m.path)
      decreases Subtree(view, n.path), 1
    {
      nn := new Node<S>(n.path);
      var kids, below := CloneChildren(n);
      nn.children := kids;
      nn.subs := n.subs;
      copies := below + {nn};
    }

    /** The loop of `clone` over the children. */
    method CloneChildren(n: Node<S>) returns (kids: map<Level, Node<S>>, ghost copies: set<Node<S>>)
      requires Linked() && n in repr
      ensures fresh(copies) && Web(copies, view) && kids.Keys == n.children.Keys
      ensures forall l :: l in kids ==> kids[l] in copies && kids[l].path == Child(n.path, l)
      ensures forall m :: m in copies ==> Above(n.path, m.path) && m.path != n.path
      decreases Subtree(view, n.path), 0
    {
      hide Above, Web, Linked;
      kids := map[];
      copies := {};
      EmptyWeb(view);
      var todo := n.children.Keys;
      while todo != {}
        invariant Linked() && fresh(copies) && Web(copies, view)
        invariant kids.Keys == n.children.Keys - todo && todo <= n.children.Keys
        invariant forall l :: l in kids ==> kids[l] in copies && kids[l].path == Child(n.path, l)
        invariant forall m :: m in copies ==> Above(n.path, m.path) && m.path != n.path
        invariant forall m, l :: m in copies && l in todo ==> !Above(Child(n.path, l), m.path)
        decreases todo
      {
        var k :| k in todo;
        BelowChild(n, k);
        label Before:
        var child, more := CloneAt(n.children[k]);
        StaysLinked@Before();
        WebStays@Before(copies);
        NodesApart(more, n.path, k, todo - {k});
        WebUnion(copies, more, view);
        kids := kids[k := child];
        copies := copies + more;
        todo := todo - {k};
      }
    }

    lemma BelowChild(n: Node<S>, k: Level)
      requires Linked() && n in repr && k in n.children
      ensures n.children[k] in repr && n.children[k].path == Child(n.path, k) && Child(n.path, k) in view
      ensures Subtree(view, Child(n.path, k)) < Subtree(view, n.path)
      ensures forall q :: Above(Child(n.path, k), q) ==> Above(n.path, q) && q != n.path
    {
      SubtreeShrinks(view, view, n.path, k);
      ChildIsBelow(n.path, k);
    }

    twostate lemma WebStays(nodes: set<Node<S>>)
      requires view == old(view) && old(Web(nodes, view)) && forall m :: m in nodes ==> unchanged(m)
      ensures Web(nodes, view)
    {
    }

    twostate lemma StaysLinked()
      requires old(Linked()) && unchanged(this) && forall m :: m in repr ==> unchanged(m)
      ensures Linked()
    {
    }

    // ----- Match

    method Match(topic: bytes) returns (subs: seq<Subscription<S>>)
      requires Valid()
      ensures IsFanout(Routes(), topic, subs)
    {
      var matched := MatchAt(root, Root, topic, 0, map[]);
      FoundUnderClient(view, Targets(view, Root, topic, 0), matched);
      subs := ListFound(matched);
      ListedFanout(view, topic, matched, subs);
    }

    method MatchAt(n: Node?<S>, ghost p: Path, topic: bytes, idx: nat, out: Found<S>) returns (found: Found<S>)
      requires Linked() && WellFormed(view)
      requires if n == null then p !in view else n in repr && n.path == p
      requires idx <= |topic| + 1
      ensures Merged(view, Targets(view, p, topic, idx), out, found)
      decreases |topic| + 1 - idx
    {
      hide Merged, Hits, Here, WellFormed, Split;
      if n == null {
        TargetsNone(view, p, topic, idx);
        MergedNothing(view, out);
        return out;
      }
      if idx > |topic| {
        var own := AddMatches(n, out);
        found := AddRest(n, own);
        HitsEnd(view, p);
        MergedTwice(view, Here(view, p), Here(view, Child(p, REST)), out, own, found);
        return;
      }
      var next := idx;
      while next < |topic| && topic[next] != SLASH
        invariant idx <= next <= |topic| && SLASH !in topic[idx..next]
      {
        assert topic[idx..next + 1] == topic[idx..next] + [topic[next]];
        next := next + 1;
      }
      var level := topic[idx..next];
      RemainingStep(topic, idx, next);
      var literal := MatchAt(Get(n, level), Child(p, level), topic, next + 1, out);
      if idx == 0 && |topic| > 0 && topic[0] == DOLLAR {
        assert topic[0..] == topic;
        return literal;
      }
      var single := MatchAt(Get(n, ONE), Child(p, ONE), topic, next + 1, literal);
      found := AddRest(n, single);
      LevelMerged(view, p, level, Remaining(topic, next + 1), out, literal, single, found);
    }

    function Get(n: Node<S>, l: Level): (child: Node?<S>)
      requires Linked() && n in repr
      reads this, repr
      ensures if child == null then Child(n.path, l) !in view else child in repr && child.path == Child(n.path, l)
    {
      if l in n.children then n.children[l] else null
    }

    /** `addMatch` for every subscription of the `#` child, if there is one. */
    method AddRest(n: Node<S>, out: Found<S>) returns (found: Found<S>)
      requires Linked() && n in repr && WellFormed(view)
      ensures Merged(view, Here(view, Child(n.path, REST)), out, found)
    {
      var hash := Get(n, REST);
      if hash != null {
        found := AddMatches(hash, out);
      } else {
        found := out;
      }
    }

    /** `addMatch` for every subscription of one node. */
    method AddMatches(n: Node<S>, out: Found<S>) returns (found: Found<S>)
      requires Linked() && n in repr && WellFormed(view)
      ensures Merged(view, Here(view, n.path), out, found)
    {
      assert forall c :: c in n.subs ==> Has(view, n.path, c);
      found := AddAll(n.subs, out);
      JoinedMerged(view, n.path, out, found);
    }
  }

  /** Nodes below one child are below no other. */
  lemma NodesApart<S>(nodes: set<Node<S>>, p: Path, k: Level, others: set<Level>)
    requires k !in others && forall m :: m in nodes ==> Above(Child(p, k), m.path)
    ensures forall m, l :: m in nodes && l in others ==> !Above(Child(p, l), m.path)
  {
    hide Above;
    forall m, l | m in nodes && l in others ensures !Above(Child(p, l), m.path) {
      ChildrenApart(p, l, k, m.path);
    }
  }

  lemma EmptyWeb<S>(view: View<S>)
    ensures Web<S>({}, view)
  {
  }

  lemma WebUnion<S>(a: set<Node<S>>, b: set<Node<S>>, view: View<S>)
    requires Web(a, view) && Web(b, view)
    requires forall n, m :: n in a && m in b ==> n.path != m.path
    ensures Web(a + b, view)
  {
  }
}
