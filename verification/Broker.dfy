/** The broker: a topic tree that is replaced, never changed, by every update, and a bounded map of
    retained messages. */
module Broker {
  import opened Bytes
  import opened Filters
  import opened Routing
  import opened Updates
  import opened Packets
  import opened Sums
  import Tree
  import Views

  // ----- Retained history

  datatype RetainedLimits = RetainedLimits(maxMessages: int, maxBytes: int)

  predicate ValidLimits(l: RetainedLimits) {
    l.maxMessages > 0 && l.maxBytes > 0
  }

  datatype Stats = Stats(retainedMessages: int, retainedBytes: int, retainedRejections: nat)

  /** A publish with the retain flag, and whether it was accepted. */
  datatype Attempt = Attempt(pub: Publish, accepted: bool)

  type Retained = map<bytes, Publish>

  /** What is kept of a retained publish. */
  function Kept(pub: Publish): Publish {
    pub.(dup := false, retain := true)
  }

  /** The value of the last accepted publish to `t`; none after an empty payload. */
  ghost function Last(h: seq<Attempt>, t: bytes): Option<Publish> {
    if h == [] then None
    else
      var a := h[|h| - 1];
      if a.accepted && a.pub.topic == t then (if a.pub.payload == [] then None else Some(Kept(a.pub)))
      else Last(h[..|h| - 1], t)
  }

  /** `kept` is `pub` as a retained message: the same but for the flags. */
  predicate IsKept(kept: Publish, pub: Publish) {
    && kept.topic == pub.topic && kept.payload == pub.payload && kept.qos == pub.qos && kept.packetID == pub.packetID
    && kept.retain && !kept.dup
  }

  /** `i` is the last accepted publish to `t`. */
  ghost predicate IsLast(h: seq<Attempt>, t: bytes, i: nat) {
    && i < |h| && h[i].accepted && h[i].pub.topic == t
    && forall j :: i < j < |h| ==> !(h[j].accepted && h[j].pub.topic == t)
  }

  /** Over any history, a topic has an entry exactly when the last accepted publish to it had a payload,
      and the entry is that publish. */
  lemma EntryIsLast(m: Retained, h: seq<Attempt>, t: bytes)
    requires Recorded(m, h)
    ensures t in m <==> exists i: nat :: IsLast(h, t, i) && h[i].pub.payload != []
    ensures forall i: nat :: IsLast(h, t, i) && h[i].pub.payload != [] ==> t in m && IsKept(m[t], h[i].pub)
  {
    LastMeans(h, t);
    assert Last(h, t) == if t in m then Some(m[t]) else None;
  }

  lemma {:induction false} LastMeans(h: seq<Attempt>, t: bytes)
    ensures Last(h, t).Some? <==> exists i: nat :: IsLast(h, t, i) && h[i].pub.payload != []
    ensures forall i: nat :: IsLast(h, t, i) && h[i].pub.payload != [] ==> Last(h, t).Some? && IsKept(Last(h, t).value, h[i].pub)
  {
    if h != [] {
      var n := |h| - 1;
      LastMeans(h[..n], t);
      if h[n].accepted && h[n].pub.topic == t {
        assert IsLast(h, t, n);
      } else {
        LastBefore(h, t);
        hide IsLast, IsKept;
        if i: nat :| IsLast(h, t, i) && h[i].pub.payload != [] {
          assert IsLast(h[..n], t, i) && h[..n][i] == h[i];
        }
        if i: nat :| IsLast(h[..n], t, i) && h[..n][i].pub.payload != [] {
          assert IsLast(h, t, i) && h[..n][i] == h[i];
        }
      }
    }
  }

  lemma LastBefore(h: seq<Attempt>, t: bytes)
    requires h != [] && !(h[|h| - 1].accepted && h[|h| - 1].pub.topic == t)
    ensures forall i: nat :: (IsLast(h, t, i) <==> IsLast(h[..|h| - 1], t, i)) && (IsLast(h, t, i) ==> i < |h| - 1)
    ensures forall i: nat {:trigger h[..|h| - 1][i]} :: i < |h| - 1 ==> h[..|h| - 1][i] == h[i]
  {
  }

  function Charge(p: Publish): int {
    |p.topic| + |p.payload|
  }

  ghost function Charges(m: Retained): map<bytes, int> {
    map t | t in m :: Charge(m[t])
  }

  ghost predicate WithinLimits(m: Retained, l: RetainedLimits) {
    |m| <= l.maxMessages && Total(Charges(m)) <= l.maxBytes
  }

  /** The retained map that a publish asks for. */
  function Requested(m: Retained, pub: Publish): Retained {
    if pub.payload == [] then m - {pub.topic} else m[pub.topic := Kept(pub)]
  }

  /** What an accepted publish does to the retained map: an empty payload removes the entry of its topic,
      any other becomes that entry; every other topic stays. */
  ghost predicate Retains(m: Retained, m': Retained, pub: Publish) {
    && (pub.payload == [] ==> pub.topic !in m')
    && (pub.payload != [] ==> pub.topic in m' && IsKept(m'[pub.topic], pub))
    && (forall t :: t != pub.topic ==> (t in m' <==> t in m) && (t in m ==> m'[t] == m[t]))
  }

  /** The topic has an entry already, or there is room for one more. */
  predicate FitsCount(m: Retained, pub: Publish, l: RetainedLimits) {
    pub.topic in m || |m| + 1 <= l.maxMessages
  }

  /** With the entry of the topic replaced, `bytes` stays within the limit. */
  predicate FitsBytes(m: Retained, pub: Publish, bytes: int, l: RetainedLimits) {
    bytes - (if pub.topic in m then |m[pub.topic].topic| + |m[pub.topic].payload| else 0) + |pub.topic| + |pub.payload| <= l.maxBytes
  }

  lemma RequestedRetains(m: Retained, pub: Publish)
    ensures Retains(m, Requested(m, pub), pub)
  {
  }

  lemma ChargesPut(m: Retained, t: bytes, p: Publish)
    ensures Total(Charges(m[t := p])) == Total(Charges(m)) + Charge(p) - (if t in m then Charge(m[t]) else 0)
    ensures |m[t := p]| == |m| + (if t in m then 0 else 1)
  {
    hide Total, Charge;
    TotalPut(Charges(m), t, Charge(p));
    assert Charges(m[t := p]) == Charges(m)[t := Charge(p)];
    KeysPut(m, t, p);
  }

  lemma KeysPut<V>(m: map<bytes, V>, t: bytes, v: V)
    ensures |m[t := v]| == |m| + (if t in m then 0 else 1)
  {
    assert m[t := v].Keys == m.Keys + {t};
  }

  lemma ChargesDrop(m: Retained, t: bytes)
    ensures Total(Charges(m - {t})) == Total(Charges(m)) - (if t in m then Charge(m[t]) else 0)
    ensures |m - {t}| == |m| - (if t in m then 1 else 0)
  {
    if t in m {
      TotalTake(Charges(m), t);
      assert Charges(m - {t}) == Charges(m) - {t};
      assert (m - {t}).Keys == m.Keys - {t};
    } else {
      assert m - {t} == m;
    }
  }

  ghost predicate Recorded(m: Retained, h: seq<Attempt>) {
    && (forall t :: t in m ==> m[t].topic == t)
    && (forall t :: Last(h, t) == if t in m then Some(m[t]) else None)
  }

  /** The map is the last accepted value of each topic; the statistics are its exact count and size;
      both stay within their limits. */
  ghost predicate Faithful(m: Retained, l: RetainedLimits, stats: Stats, h: seq<Attempt>) {
    && ValidLimits(l) && Recorded(m, h)
    && stats.retainedMessages == |m| && stats.retainedBytes == Total(Charges(m))
    && WithinLimits(m, l)
  }

  function ChargeAt(m: Retained, t: bytes): int {
    if t in m then Charge(m[t]) else 0
  }

  /** The test that `updateRetained` makes before it accepts a nonempty payload. */
  lemma RefusalIsExact(m: Retained, l: RetainedLimits, stats: Stats, h: seq<Attempt>, pub: Publish)
    requires Faithful(m, l, stats, h) && pub.payload != []
    ensures FitsCount(m, pub, l) && FitsBytes(m, pub, stats.retainedBytes, l) <==> WithinLimits(Requested(m, pub), l)
  {
    hide Recorded, Total, Charges;
    ChargesPut(m, pub.topic, Kept(pub));
  }

  lemma LastAccepted(m: Retained, h: seq<Attempt>, pub: Publish)
    requires Recorded(m, h)
    ensures Recorded(Requested(m, pub), h + [Attempt(pub, true)])
  {
    LastNext(h, Attempt(pub, true));
    hide Last;
  }

  lemma AcceptedStaysFaithful(m: Retained, l: RetainedLimits, stats: Stats, h: seq<Attempt>, pub: Publish)
    requires Faithful(m, l, stats, h) && (pub.payload == [] || WithinLimits(Requested(m, pub), l))
    ensures var m' := Requested(m, pub);
            var change := (if pub.payload == [] then 0 else Charge(pub)) - ChargeAt(m, pub.topic);
            Faithful(m', l, stats.(retainedMessages := |m'|, retainedBytes := stats.retainedBytes + change), h + [Attempt(pub, true)])
  {
    LastAccepted(m, h, pub);
    hide Recorded, Total, Charges;
    if pub.payload == [] {
      ChargesDrop(m, pub.topic);
    } else {
      ChargesPut(m, pub.topic, Kept(pub));
    }
  }

  lemma RefusedStaysFaithful(m: Retained, l: RetainedLimits, stats: Stats, h: seq<Attempt>, pub: Publish, n: nat)
    requires Faithful(m, l, stats, h)
    ensures Faithful(m, l, stats.(retainedRejections := n), h + [Attempt(pub, false)])
  {
    LastNext(h, Attempt(pub, false));
  }

  /** Each retained message whose topic the filter matches, once. */
  ghost predicate IsReplay(m: Retained, filter: bytes, found: seq<Publish>) {
    && (forall t :: t in m ==> m[t].topic == t)
    && (forall i, j :: 0 <= i < j < |found| ==> found[i].topic != found[j].topic)
    && (forall i :: 0 <= i < |found| ==> found[i].topic in m && m[found[i].topic] == found[i] && Matches(filter, found[i].topic))
    && (forall t :: t in m && Matches(filter, t) ==> exists i :: 0 <= i < |found| && found[i].topic == t)
  }

  ghost predicate Shows<S>(t: Tree.Tree<S>, routes: Routes<S>)
    reads t, t.repr
  {
    t.Valid() && t.Routes() == routes
  }

  class Broker<S> {
    var topics: Tree.Tree<S>
    var retained: Retained
    const limits: RetainedLimits
    var stats: Stats
    ghost var updates: seq<Update<S>>
    ghost var snapshots: seq<Tree.Tree<S>>
    ghost var attempts: seq<Attempt>

    ghost function Nodes(): set<Tree.Node<S>>
      reads this, snapshots
    {
      set t, n | t in snapshots && n in t.repr :: n
    }

    /** Every tree that was ever current still has the routes it had then: those after its share of
        the updates. The current tree is the last. */
    ghost predicate Routed()
      reads this, snapshots, Nodes()
    {
      && |snapshots| == |updates| + 1 && topics == snapshots[|updates|]
      && forall i :: 0 <= i < |snapshots| ==> Shows(snapshots[i], Fold(updates[..i]))
    }

    ghost predicate Retaining()
      reads this
    {
      Faithful(retained, limits, stats, attempts)
    }

    constructor (limits: RetainedLimits)
      requires ValidLimits(limits)
      ensures Routed() && Retaining() && updates == [] && attempts == [] && this.limits == limits
    {
      var tree := new Tree.Tree<S>();
      this.limits := limits;
      topics := tree;
      retained := map[];
      stats := Stats(0, 0, 0);
      updates := [];
      snapshots := [tree];
      attempts := [];
    }

    /** Make `tree` the current tree (`b.topics.Store`). */
    method StoreTree(tree: Tree.Tree<S>, ghost u: Update<S>)
      requires Routed() && Shows(tree, Apply(Fold(updates), u))
      modifies this`topics, this`updates, this`snapshots
      ensures Routed() && topics == tree
      ensures updates == old(updates) + [u] && snapshots == old(snapshots) + [tree]
    {
      hide Fold, Shows;
      FoldNext(updates, u);
      topics := tree;
      snapshots := snapshots + [tree];
      updates := updates + [u];
      assert updates[..|updates|] == updates;
      assert forall i :: 0 <= i < |updates| ==> updates[..i] == old(updates)[..i];
    }

    method Subscribe(filter: bytes, qos: nat, client: bytes, subscriber: S)
      requires Routed() && Filter(filter)
      modifies this`topics, this`updates, this`snapshots
      ensures Routed()
      ensures updates == old(updates) + [Subscribed(filter, Subscription(client, subscriber, qos))]
      ensures snapshots == old(snapshots) + [topics] && fresh(topics)
    {
      hide Fold, Tree.Web, Views.Closed, Views.PrunedExcept, Routing.WellFormed, Filter, ToRoutes, Without;
      assert updates[..|updates|] == updates;
      var newTree := topics.Clone();
      newTree.Subscribe(filter, Subscription(client, subscriber, qos));
      StoreTree(newTree, Subscribed(filter, Subscription(client, subscriber, qos)));
    }

    method Unsubscribe(filter: bytes, client: bytes)
      requires Routed()
      modifies this`topics, this`updates, this`snapshots
      ensures Routed() && updates == old(updates) + [Unsubscribed(filter, client)]
      ensures snapshots == old(snapshots) + [topics] && fresh(topics)
    {
      hide Fold, Tree.Web, Views.Closed, Views.PrunedExcept, Routing.WellFormed, Filter, ToRoutes, Without;
      assert updates[..|updates|] == updates;
      var newTree := topics.Clone();
      newTree.Unsubscribe(filter, client);
      StoreTree(newTree, Unsubscribed(filter, client));
    }

    method UnsubscribeAll(client: bytes)
      requires Routed()
      modifies this`topics, this`updates, this`snapshots
      ensures Routed() && updates == old(updates) + [Dropped(client)]
      ensures snapshots == old(snapshots) + [topics] && fresh(topics)
    {
      hide Fold, Tree.Web, Views.Closed, Views.PrunedExcept, Routing.WellFormed, Filter, ToRoutes, Without;
      assert updates[..|updates|] == updates;
      var newTree := topics.Clone();
      newTree.UnsubscribeAll(client);
      StoreTree(newTree, Dropped(client));
    }

    /** Accepted exactly when the requested map stays within both limits; a refusal changes the
        refusal counter and nothing else. */
    method UpdateRetained(pub: Publish) returns (ok: bool)
      requires Retaining()
      modifies this`retained, this`stats, this`attempts
      ensures Retaining() && attempts == old(attempts) + [Attempt(pub, ok)]
      ensures ok <==> pub.payload == [] || (FitsCount(old(retained), pub, limits) && FitsBytes(old(retained), pub, old(stats.retainedBytes), limits))
      ensures !ok ==> retained == old(retained)
      ensures ok ==> Retains(old(retained), retained, pub)
      ensures stats.retainedRejections == old(stats.retainedRejections) + if ok then 0 else 1
      ensures !ok ==> stats == old(stats).(retainedRejections := stats.retainedRejections)
    {
      hide Faithful, WithinLimits, Retains;
      var oldBytes := 0;
      if pub.topic in retained {
        oldBytes := |retained[pub.topic].topic| + |retained[pub.topic].payload|;
      }
      var newBytes := 0;
      if |pub.payload| > 0 {
        RefusalIsExact(retained, limits, stats, attempts, pub);
        newBytes := |pub.topic| + |pub.payload|;
        if (pub.topic !in retained && |retained| >= limits.maxMessages)
           || newBytes > limits.maxBytes - (stats.retainedBytes - oldBytes) {
          RefusedStaysFaithful(retained, limits, stats, attempts, pub, stats.retainedRejections + 1);
          stats := stats.(retainedRejections := stats.retainedRejections + 1);
          attempts := attempts + [Attempt(pub, false)];
          return false;
        }
      }
      AcceptedStaysFaithful(retained, limits, stats, attempts, pub);
      RequestedRetains(retained, pub);
      var newMap := retained;
      if |pub.payload| == 0 {
        newMap := newMap - {pub.topic};
      } else {
        newMap := newMap[pub.topic := pub.(dup := false, retain := true)];
      }
      retained := newMap;
      stats := stats.(retainedMessages := |newMap|, retainedBytes := stats.retainedBytes + newBytes - oldBytes);
      attempts := attempts + [Attempt(pub, true)];
      return true;
    }

    /** The subscriptions to deliver to, or none at all if the retained update was refused. */
    method Publish(pub: Publish) returns (subs: Option<seq<Subscription<S>>>)
      requires Routed() && Retaining()
      modifies this`retained, this`stats, this`attempts
      ensures Routed() && Retaining()
      ensures subs.None? <==> && pub.retain && pub.payload != []
                              && !(FitsCount(old(retained), pub, limits) && FitsBytes(old(retained), pub, old(stats.retainedBytes), limits))
      ensures subs.Some? ==> IsFanout(Fold(updates), pub.topic, subs.value)
      ensures subs.None? ==> retained == old(retained) && stats == old(stats).(retainedRejections := old(stats.retainedRejections) + 1)
      ensures attempts == old(attempts) + if pub.retain then [Attempt(pub, subs.Some?)] else []
      ensures pub.retain && subs.Some? ==> Retains(old(retained), retained, pub)
      ensures !pub.retain ==> retained == old(retained) && stats == old(stats)
    {
      hide Retaining, WithinLimits, Fold, IsFanout, Retains, FitsCount, FitsBytes;
      if pub.retain {
        var ok := UpdateRetained(pub);
        if !ok {
          return None;
        }
      }
      assert updates[..|updates|] == updates;
      var matched := topics.Match(pub.topic);
      subs := Some(matched);
    }

    /** Matching against an earlier snapshot, however many updates came after it. */
    method MatchSnapshot(tree: Tree.Tree<S>, topic: bytes, ghost i: nat) returns (subs: seq<Subscription<S>>)
      requires Routed() && i < |snapshots| && tree == snapshots[i]
      ensures IsFanout(Fold(updates[..i]), topic, subs)
    {
      hide Fold, IsFanout;
      assert Shows(tree, Fold(updates[..i]));
      subs := tree.Match(topic);
    }

    /** Each retained message whose topic the filter matches, once. */
    method RetainedMatching(filter: bytes) returns (found: seq<Publish>)
      requires Retaining()
      ensures IsReplay(retained, filter, found)
    {
      hide Last, WithinLimits, Matches, Replayed;
      found := [];
      var todo := retained.Keys;
      NothingReplayed(retained, filter);
      assert retained.Keys - todo == {};
      while todo != {}
        invariant todo <= retained.Keys && Replayed(retained, filter, retained.Keys - todo, found)
        decreases todo
      {
        var t :| t in todo;
        var matches := MatchFilter(filter, t);
        ReplayedNext(retained, filter, retained.Keys - todo, found, t);
        assert retained.Keys - todo + {t} == retained.Keys - (todo - {t});
        if matches {
          found := found + [retained[t]];
        }
        todo := todo - {t};
      }
      assert retained.Keys - todo == retained.Keys;
      AllReplayed(retained, filter, found);
    }
  }

  /** Each message retained for one of `topics` that the filter matches, once. */
  ghost predicate Replayed(m: Retained, filter: bytes, topics: set<bytes>, found: seq<Publish>) {
    && (forall i, j :: 0 <= i < j < |found| ==> found[i].topic != found[j].topic)
    && (forall i :: 0 <= i < |found| ==>
          found[i].topic in topics && found[i].topic in m && m[found[i].topic] == found[i] && Matches(filter, found[i].topic))
    && (forall t :: t in topics && Matches(filter, t) ==> exists i :: 0 <= i < |found| && found[i].topic == t)
  }

  lemma NothingReplayed(m: Retained, filter: bytes)
    ensures Replayed(m, filter, {}, [])
  {
  }

  lemma AllReplayed(m: Retained, filter: bytes, found: seq<Publish>)
    requires Replayed(m, filter, m.Keys, found) && forall t :: t in m ==> m[t].topic == t
    ensures IsReplay(m, filter, found)
  {
    hide Matches;
  }

  lemma ReplayedNext(m: Retained, filter: bytes, topics: set<bytes>, found: seq<Publish>, t: bytes)
    requires Replayed(m, filter, topics, found) && t in m && t !in topics && m[t].topic == t
    ensures Replayed(m, filter, topics + {t}, if Matches(filter, t) then found + [m[t]] else found)
  {
    hide Matches;
    var after := if Matches(filter, t) then found + [m[t]] else found;
    forall u | u in topics + {t} && Matches(filter, u) ensures exists i :: 0 <= i < |after| && after[i].topic == u {
      if u == t {
        assert after[|found|].topic == t;
      } else {
        var i :| 0 <= i < |found| && found[i].topic == u;
        assert after[i].topic == u;
      }
    }
  }

  lemma LastNext(h: seq<Attempt>, a: Attempt)
    ensures forall t :: Last(h + [a], t)
                     == if a.accepted && a.pub.topic == t then (if a.pub.payload == [] then None else Some(Kept(a.pub)))
                        else Last(h, t)
  {
    assert (h + [a])[..|h|] == h;
  }

  /** A message retained for a topic is replayed for a filter exactly when a publish to that topic
      would be routed to a client that has just that filter. */
  lemma ReplayedIffRouted<S>(m: Retained, filter: bytes, found: seq<Publish>, routes: Routes<S>, topic: bytes,
                             subs: seq<Subscription<S>>, c: bytes)
    requires IsReplay(m, filter, found) && topic in m && IsFanout(routes, topic, subs)
    requires forall f :: (f, c) in routes <==> f == filter
    ensures (exists i :: 0 <= i < |found| && found[i] == m[topic]) <==> (exists i :: 0 <= i < |subs| && subs[i].client == c)
  {
    hide Matches;
    if i :| 0 <= i < |found| && found[i] == m[topic] {
      assert (filter, c) in routes && Matches(filter, topic);
    }
    if i :| 0 <= i < |subs| && subs[i].client == c {
      assert Reaches(routes, topic, subs[i]);
      assert Matches(filter, topic);
      var j :| 0 <= j < |found| && found[j].topic == topic;
      assert found[j] == m[topic];
    }
  }
}
