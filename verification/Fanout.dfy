/** The publish path: one publish, the sessions it reaches and what each of them is offered. */
module Fanout {
  import opened Bytes
  import opened Filters
  import opened Routing
  import opened Updates
  import opened Packets
  import opened Encoder
  import opened Template
  import opened Accounts
  import opened Books
  import opened SessionStore
  import Broker
  import Framing
  import Delivery
  import opened Lengths
  import opened Moves
  import Utf8

  /** A publish that can be encoded at either delivery QoS up to its own, as every decoded PUBLISH and
      every will message can. */
  ghost predicate Relayable(pub: Publish) {
    Utf8.TopicName(pub.topic) && 2 + |pub.topic| + (if pub.qos > 0 then 2 else 0) + |pub.payload| <= MAX_REMAINING_LENGTH
  }

  /** What goes out at either delivery QoS can be encoded. */
  lemma RelayableIsEncodable(pub: Publish)
    requires Relayable(pub)
    ensures Encodable(Outbound(pub, 0)) && (pub.qos > 0 ==> Encodable(WithId(Outbound(pub, 1), 1, false)))
  {
    hide Utf8.TopicName;
  }

  /** Whatever the decoder accepted can be relayed. */
  lemma DecodedIsRelayable(s: bytes, limit: nat)
    requires Framing.Decode(s, limit).Some? && Framing.Decode(s, limit).value.0.PublishPacket?
    ensures Relayable(Framing.Decode(s, limit).value.0.publish)
  {
    hide Framing.Decode, Utf8.TopicName;
    DecodedIsEncodable(s, limit, 0);
    DecodedIsEncodable(s, limit, 1);
  }

  lemma WillIsRelayable(w: Will)
    requires WellFormedWill(w)
    ensures Relayable(Publish(w.topic, w.payload, w.retain, false, w.qos, 0))
  {
    hide Utf8.TopicName, WellFormedWill;
    WillIsEncodable(w, 0);
    WillIsEncodable(w, 1);
  }

  /** What a fresh encoding for one QoS 0 subscriber gives. */
  ghost function Payload(pub: Publish): bytes
    requires Relayable(pub)
  {
    RelayableIsEncodable(pub);
    PublishBytes(Outbound(pub, 0))
  }

  /** What a fresh encoding for one QoS 1 subscriber gives. */
  ghost function Queued(pub: Publish): PublishTemplate
    requires Relayable(pub) && pub.qos > 0
  {
    RelayableIsEncodable(pub);
    PublishTemplate(PublishBytes(WithId(Outbound(pub, 1), 1, false)), IdentifierOffset(Outbound(pub, 1)))
  }

  /** Wherever `raw` stands in a stream, a client decodes just it, to the topic, payload and retain flag
      of `pub`, at this QoS, under this identifier and DUP flag. */
  ghost predicate Conveys(raw: bytes, pub: Publish, qos: nat, id: nat, dup: bool) {
    forall rest: bytes ::
      Framing.Decode(raw + rest, MAX_PACKET_SIZE)
      == Some((PublishPacket(Publish(pub.topic, pub.payload, pub.retain, dup, qos, id)), |raw|))
  }

  /** Whatever identifier and DUP flag a send writes into the queued bytes, the client decodes `pub` at
      QoS 1. */
  ghost predicate ConveysQueued(data: bytes, offset: nat, pub: Publish) {
    forall id: nat, dup: bool :: Identifier(id) ==> Conveys(SentBytes(data, offset, id, dup), pub, 1, id, dup)
  }

  lemma PayloadConveys(pub: Publish)
    requires Relayable(pub)
    ensures Conveys(Payload(pub), pub, 0, 0, false)
  {
    hide Framing.Decode, Encodable, Utf8.TopicName;
    RelayableIsEncodable(pub);
    forall rest: bytes
      ensures Framing.Decode(Payload(pub) + rest, MAX_PACKET_SIZE)
           == Some((PublishPacket(Publish(pub.topic, pub.payload, pub.retain, false, 0, 0)), |Payload(pub)|))
    {
      EncodedIsReadBack(Outbound(pub, 0), rest);
    }
  }

  lemma QueuedConveys(pub: Publish)
    requires Relayable(pub) && pub.qos > 0
    ensures ConveysQueued(Queued(pub).raw, Queued(pub).packetIDOffset, pub)
  {
    hide Framing.Decode, Encodable, Utf8.TopicName, Patch, PublishBytes, IdentifierOffset, Admissible;
    RelayableIsEncodable(pub);
    var out := WithId(Outbound(pub, 1), 1, false);
    assert Queued(pub) == PublishTemplate(PublishBytes(out), IdentifierOffset(out)) by {
      SameOffset(Outbound(pub, 1), out);
    }
    TemplateIsAdmissible(out);
    forall id: nat, dup: bool | Identifier(id) ensures Conveys(SentBytes(Queued(pub).raw, Queued(pub).packetIDOffset, id, dup), pub, 1, id, dup) {
      forall rest: bytes
        ensures Framing.Decode(SentBytes(Queued(pub).raw, Queued(pub).packetIDOffset, id, dup) + rest, MAX_PACKET_SIZE)
             == Some((PublishPacket(Publish(pub.topic, pub.payload, pub.retain, dup, 1, id)),
                      |SentBytes(Queued(pub).raw, Queued(pub).packetIDOffset, id, dup)|))
      {
        PatchedIsReadBack(out, id, dup, rest);
        PatchKeepsLength(Queued(pub).raw, Queued(pub).packetIDOffset, id, dup);
      }
    }
  }

  lemma SameOffset(a: Publish, b: Publish)
    requires a.topic == b.topic && |a.payload| == |b.payload|
    ensures IdentifierOffset(a) == IdentifierOffset(b)
  {
  }

  lemma PatchKeepsLength(data: bytes, offset: nat, id: nat, dup: bool)
    requires Admissible(data, offset) && Identifier(id)
    ensures |SentBytes(data, offset, id, dup)| == |data|
  {
  }

  /** The encodings made so far for one publish. */
  class PublishCache {
    var qos0: Option<bytes>
    var qos1: Option<PublishTemplate>

    constructor ()
      ensures qos0.None? && qos1.None?
    {
      qos0 := None;
      qos1 := None;
    }

    /** Whatever the cache holds is what a fresh encoding would give. */
    ghost predicate Fresh(pub: Publish)
      reads this
      requires Relayable(pub)
    {
      (qos0.Some? ==> qos0.value == Payload(pub)) && (qos1.Some? ==> pub.qos > 0 && qos1.value == Queued(pub))
    }

    method Qos0Payload(pub: Publish) returns (raw: Option<bytes>)
      requires Relayable(pub) && Fresh(pub)
      modifies this
      ensures Fresh(pub) && raw == Some(Payload(pub))
    {
      hide Encodable, PublishBytes;
      RelayableIsEncodable(pub);
      if qos0.Some? {
        return qos0;
      }
      raw := EncodePublishPacket(Outbound(pub, 0));
      if raw.Some? {
        qos0 := raw;
      }
    }

    method Qos1Template(pub: Publish) returns (t: Option<PublishTemplate>)
      requires Relayable(pub) && pub.qos > 0 && Fresh(pub)
      modifies this
      ensures Fresh(pub) && t == Some(Queued(pub))
    {
      hide Encodable, PublishBytes, IdentifierOffset;
      RelayableIsEncodable(pub);
      if qos1.Some? {
        return qos1;
      }
      t := NewPublishTemplate(Outbound(pub, 1));
      if t.Some? {
        qos1 := t;
      }
    }
  }

  // ----- What a publish must do

  /** One call of `Admit`. */
  datatype Offer = Offer(client: bytes, data: bytes, offset: nat)

  ghost function Offered(m: Sessions, o: Offer, l: Limits): Sessions {
    if o.client in m && AdmitOutcome(m, o.client, false, o.data, o.offset, l).Taken?
    then m[o.client := WithQueue(m[o.client], Delivery.Admit(m[o.client].queue, o.data, o.offset))] else m
  }

  /** `q` is the highest QoS granted to a filter that matches `topic`. */
  ghost predicate Highest(subscriptions: map<bytes, nat>, topic: bytes, q: nat) {
    && (exists f :: f in subscriptions && Matches(f, topic) && subscriptions[f] == q)
    && (forall f :: f in subscriptions && Matches(f, topic) ==> subscriptions[f] <= q)
  }

  /** The session receives the publish at QoS `q`: the smaller of the QoS it was published with and
      the highest one granted. */
  ghost predicate Effective(subscriptions: map<bytes, nat>, pub: Publish, q: nat) {
    exists g :: Highest(subscriptions, pub.topic, g) && q <= pub.qos && q <= g && (q == pub.qos || q == g)
  }

  /** What the sessions have been granted. */
  function Granting(m: Sessions): Grants {
    map c | c in m :: m[c].subscriptions
  }

  /** Every entry of a fan-out carries the highest QoS of its client's session. */
  lemma EntryIsHighest<S>(routes: Routes<S>, grants: Grants, topic: bytes, subs: seq<Subscription<S>>, i: nat)
    requires Agreed(routes, grants) && IsFanout(routes, topic, subs) && i < |subs|
    ensures subs[i].client in grants && Highest(grants[subs[i].client], topic, subs[i].qos) && subs[i].qos <= 1
  {
    hide Matches;
    var c := subs[i].client;
    assert Reaches(routes, topic, subs[i]);
    var f :| (f, c) in routes && Matches(f, topic) && routes[(f, c)] == subs[i];
    forall g | g in grants[c] && Matches(g, topic) ensures grants[c][g] <= subs[i].qos {
      assert (g, c) in routes;
      var j :| 0 <= j < |subs| && subs[j].client == c && routes[(g, c)].qos <= subs[j].qos;
      assert j == i;
    }
  }

  lemma EffectiveHasEntry<S>(routes: Routes<S>, grants: Grants, pub: Publish, subs: seq<Subscription<S>>, c: bytes, q: nat) returns (i: nat)
    requires Agreed(routes, grants) && IsFanout(routes, pub.topic, subs) && c in grants && Effective(grants[c], pub, q)
    ensures i < |subs| && subs[i].client == c && DeliveryQoS(pub.qos, subs[i].qos) == q
  {
    hide Matches;
    var g :| Highest(grants[c], pub.topic, g) && q <= pub.qos && q <= g && (q == pub.qos || q == g);
    var f :| f in grants[c] && Matches(f, pub.topic) && grants[c][f] == g;
    assert (f, c) in routes;
    i :| 0 <= i < |subs| && subs[i].client == c && routes[(f, c)].qos <= subs[i].qos;
    EntryIsHighest(routes, grants, pub.topic, subs, i);
    HighestIsUnique(grants[c], pub.topic, g, subs[i].qos);
  }

  lemma HighestIsUnique(subscriptions: map<bytes, nat>, topic: bytes, a: nat, b: nat)
    requires Highest(subscriptions, topic, a) && Highest(subscriptions, topic, b)
    ensures a == b
  {
    hide Matches;
  }

  /** A client has an entry exactly when its session has some effective QoS. */
  lemma EntryIffEffective<S>(routes: Routes<S>, grants: Grants, pub: Publish, subs: seq<Subscription<S>>, c: bytes, q: nat)
    requires Agreed(routes, grants) && IsFanout(routes, pub.topic, subs)
    ensures (c in grants && Effective(grants[c], pub, q))
       <==> (exists i :: 0 <= i < |subs| && subs[i].client == c && DeliveryQoS(pub.qos, subs[i].qos) == q)
  {
    hide Highest, IsFanout, Agreed;
    if c in grants && Effective(grants[c], pub, q) {
      var i := EffectiveHasEntry(routes, grants, pub, subs, c, q);
    }
    if i :| 0 <= i < |subs| && subs[i].client == c && DeliveryQoS(pub.qos, subs[i].qos) == q {
      EntryIsHighest(routes, grants, pub.topic, subs, i);
    }
  }

  // ----- The publish path

  /** A registered connection, as far as QoS 0 delivery looks at it; `accepts` is the outcome of a
      write to it. */
  datatype Link = Link(session: State, closing: bool, ready: bool, accepts: bool)

  /** What was done for one subscriber: a write that fails closes the connection. */
  datatype Outcome = Skipped | Enqueued(client: bytes, raw: bytes, closed: bool) | Admitted(offer: Offer)

  ghost function Applied(m: Sessions, r: Outcome, l: Limits): Sessions {
    if r.Admitted? then Offered(m, r.offer, l) else m
  }

  /** The sessions after everything that was done. */
  ghost function AppliedAll(m: Sessions, done: seq<Outcome>, l: Limits): Sessions {
    if done == [] then m else Applied(AppliedAll(m, done[..|done| - 1], l), done[|done| - 1], l)
  }

  predicate Linked(clients: map<bytes, Link>, c: bytes, s: State) {
    c in clients && !clients[c].closing && clients[c].ready && clients[c].session == s
  }

  /** What must be done for one entry of the fan-out whose subscriber is the stored session. */
  ghost function Due(pub: Publish, clients: map<bytes, Link>, sub: Subscription<State>): Outcome
    requires Relayable(pub)
  {
    if DeliveryQoS(pub.qos, sub.qos) == 0 then (if Linked(clients, sub.client, sub.subscriber) then Enqueued(sub.client, Payload(pub), !clients[sub.client].accepts) else Skipped)
    else if pub.qos > 0 then Admitted(Offer(sub.client, Queued(pub).raw, Queued(pub).packetIDOffset))
    else Skipped
  }

  method DeliverToSubscriber(pub: Publish, sub: Subscription<State>, store: Store, clients: map<bytes, Link>, cache: PublishCache)
    returns (r: Outcome)
    requires store.Valid() && Relayable(pub) && cache.Fresh(pub) && sub.qos <= 1
    modifies cache, store`totals, store.live
    ensures store.Valid() && store.Indexed() && cache.Fresh(pub)
    ensures r == if sub.client in store.data && store.data[sub.client] == sub.subscriber then Due(pub, clients, sub) else Skipped
    ensures store.Sessions() == Applied(old(store.Sessions()), r, store.limits)
  {
    hide Store.Valid, Store.Sessions, Encodable, PublishBytes, IdentifierOffset, AdmitOutcome, Delivery.Admit, WithQueue,
         Balanced, Within, Ledger, Delivery.Sound, PendingMessages, PendingBytes, State.Queued, Accepted, Store.Indexed;
    var found := store.Get(sub.client);
    store.Untouched();
    store.AtHome();
    if found.None? || sub.subscriber != found.value {
      return Skipped;
    }
    var state := found.value;
    var qos := DeliveryQoS(pub.qos, sub.qos);
    if qos == 0 {
      if !Linked(clients, sub.client, state) {
        return Skipped;
      }
      var raw := cache.Qos0Payload(pub);
      store.Untouched();
      store.AtHome();
      return Enqueued(sub.client, raw.value, !clients[sub.client].accepts);
    }
    var template := cache.Qos1Template(pub);
    store.Untouched();
    state.Stored();
    var outcome := state.Admit(template.value.raw, template.value.packetIDOffset);
    store.AtHome();
    return Admitted(Offer(sub.client, template.value.raw, template.value.packetIDOffset));
  }

  /** Exactly one `Admit`, of the fresh encoding, for each session with effective QoS 1, and none for
      any other; what is sent of it decodes to the publish. */
  ghost predicate AdmitsOnce(grants: Grants, pub: Publish, done: seq<Outcome>)
    requires Relayable(pub)
  {
    && (forall j, k :: 0 <= j < k < |done| && done[j].Admitted? && done[k].Admitted? ==> done[j].offer.client != done[k].offer.client)
    && (forall k :: 0 <= k < |done| && done[k].Admitted? ==>
          && pub.qos > 0 && done[k].offer.data == Queued(pub).raw && done[k].offer.offset == Queued(pub).packetIDOffset
          && ConveysQueued(done[k].offer.data, done[k].offer.offset, pub))
    && (forall c :: (exists k :: 0 <= k < |done| && done[k].Admitted? && done[k].offer.client == c)
               <==> c in grants && Effective(grants[c], pub, 1))
  }

  /** One write, of the fresh encoding, to the connection of each session with effective QoS 0 that is
      ready and not closing; it decodes to the publish, and the connection is closed exactly when the
      write fails. */
  ghost predicate WritesOnce(grants: Grants, data: map<bytes, State>, clients: map<bytes, Link>, pub: Publish, done: seq<Outcome>)
    requires Relayable(pub)
  {
    && (forall j, k :: 0 <= j < k < |done| && done[j].Enqueued? && done[k].Enqueued? ==> done[j].client != done[k].client)
    && (forall k :: 0 <= k < |done| && done[k].Enqueued? ==>
          && done[k].raw == Payload(pub) && Conveys(done[k].raw, pub, 0, 0, false)
          && done[k].client in clients && done[k].closed == !clients[done[k].client].accepts)
    && (forall c :: (exists k :: 0 <= k < |done| && done[k].Enqueued? && done[k].client == c)
               <==> && c in grants && Effective(grants[c], pub, 0)
                    && c in data && c in clients && !clients[c].closing && clients[c].ready && clients[c].session == data[c])
  }

  lemma DueAdmitsOnce(routes: Routes<State>, grants: Grants, clients: map<bytes, Link>, pub: Publish,
                      subs: seq<Subscription<State>>, done: seq<Outcome>)
    requires Relayable(pub) && Agreed(routes, grants) && IsFanout(routes, pub.topic, subs)
    requires |done| == |subs| && forall k :: 0 <= k < |done| ==> done[k] == Due(pub, clients, subs[k])
    ensures AdmitsOnce(grants, pub, done)
  {
    hide Agreed, Effective, Encodable, PublishBytes, IdentifierOffset, Reaches, Matches, ConveysQueued, Relayable;
    if pub.qos > 0 {
      QueuedConveys(pub);
    }
    forall c ensures (exists k :: 0 <= k < |done| && done[k].Admitted? && done[k].offer.client == c)
                <==> c in grants && Effective(grants[c], pub, 1)
    {
      EntryIffEffective(routes, grants, pub, subs, c, 1);
      if k :| 0 <= k < |done| && done[k].Admitted? && done[k].offer.client == c {
        EntryIsHighest(routes, grants, pub.topic, subs, k);
        assert subs[k].client == c && DeliveryQoS(pub.qos, subs[k].qos) == 1;
      }
      if i :| 0 <= i < |subs| && subs[i].client == c && DeliveryQoS(pub.qos, subs[i].qos) == 1 {
        assert done[i].Admitted? && done[i].offer.client == c;
      }
    }
  }

  lemma DueWritesOnce(routes: Routes<State>, grants: Grants, data: map<bytes, State>, clients: map<bytes, Link>, pub: Publish,
                      subs: seq<Subscription<State>>, done: seq<Outcome>)
    requires Relayable(pub) && Agreed(routes, grants) && Rooted(routes, data) && IsFanout(routes, pub.topic, subs)
    requires |done| == |subs| && forall k :: 0 <= k < |done| ==> done[k] == Due(pub, clients, subs[k])
    ensures WritesOnce(grants, data, clients, pub, done)
  {
    hide Agreed, Effective, Encodable, PublishBytes, IdentifierOffset, Matches, Reaches, Rooted, Conveys, Relayable;
    PayloadConveys(pub);
    forall k | 0 <= k < |subs| ensures subs[k].client in data && data[subs[k].client] == subs[k].subscriber {
      EntryIsRooted(routes, data, pub.topic, subs, k);
    }
    forall c ensures (exists k :: 0 <= k < |done| && done[k].Enqueued? && done[k].client == c)
                <==> c in grants && Effective(grants[c], pub, 0) && c in data && Linked(clients, c, data[c])
    {
      EntryIffEffective(routes, grants, pub, subs, c, 0);
      if k :| 0 <= k < |done| && done[k].Enqueued? && done[k].client == c {
        assert subs[k].client == c && DeliveryQoS(pub.qos, subs[k].qos) == 0;
      }
      if i :| 0 <= i < |subs| && subs[i].client == c && DeliveryQoS(pub.qos, subs[i].qos) == 0 {
        assert Linked(clients, c, data[c]) ==> done[i].Enqueued? && done[i].client == c;
      }
    }
  }

  /** What a publish leaves in the sessions: one more queued message that conveys it, or nothing new if
      a budget is full, where the effective QoS is 1; nothing new anywhere else. */
  ghost predicate QueuedOnce(m: Sessions, m': Sessions, pub: Publish) {
    m'.Keys == m.Keys && forall c :: c in m ==>
      if Effective(m[c].subscriptions, pub, 1) then m'[c] == m[c] || OneMore(m[c], m'[c], pub) else m'[c] == m[c]
  }

  ghost predicate OneMore(s: Session, s': Session, pub: Publish) {
    exists data: bytes, offset: nat ::
      ConveysQueued(data, offset, pub) && s' == s.(queue := Delivery.Admit(s.queue, data, offset))
  }

  ghost predicate OfferedTo(done: seq<Outcome>, c: bytes) {
    exists k :: 0 <= k < |done| && done[k].Admitted? && done[k].offer.client == c
  }

  /** No session is offered twice, so each gains one message or none. */
  lemma {:induction false} AppliedToEach(m: Sessions, done: seq<Outcome>, l: Limits, pub: Publish, c: bytes)
    requires forall j, k :: 0 <= j < k < |done| && done[j].Admitted? && done[k].Admitted? ==> done[j].offer.client != done[k].offer.client
    requires forall k :: 0 <= k < |done| && done[k].Admitted? ==> ConveysQueued(done[k].offer.data, done[k].offer.offset, pub)
    requires c in m
    ensures AppliedAll(m, done, l).Keys == m.Keys
    ensures AppliedAll(m, done, l)[c] == m[c] || (OfferedTo(done, c) && OneMore(m[c], AppliedAll(m, done, l)[c], pub))
  {
    hide ConveysQueued, AdmitOutcome, Delivery.Admit;
    if done != [] {
      var n := |done| - 1;
      var so := done[..n];
      assert forall k :: 0 <= k < n ==> so[k] == done[k];
      AppliedToEach(m, so, l, pub, c);
      if OfferedTo(so, c) {
        var k :| 0 <= k < n && so[k].Admitted? && so[k].offer.client == c;
        assert done[k].Admitted? && done[k].offer.client == c;
      }
      if done[n].Admitted? && done[n].offer.client == c {
        assert !OfferedTo(so, c);
        assert OfferedTo(done, c);
      }
    }
  }

  lemma AppliedQueuesOnce(m: Sessions, done: seq<Outcome>, l: Limits, pub: Publish)
    requires Relayable(pub) && AdmitsOnce(Granting(m), pub, done)
    ensures QueuedOnce(m, AppliedAll(m, done, l), pub)
  {
    hide ConveysQueued, AppliedAll, Effective, Relayable, OneMore;
    forall c | c in m
      ensures AppliedAll(m, done, l).Keys == m.Keys
      ensures AppliedAll(m, done, l)[c] == m[c] || (Effective(m[c].subscriptions, pub, 1) && OneMore(m[c], AppliedAll(m, done, l)[c], pub))
    {
      AppliedToEach(m, done, l, pub, c);
      assert Granting(m)[c] == m[c].subscriptions;
    }
    AppliedKeys(m, done, l);
  }

  lemma {:induction false} AppliedKeys(m: Sessions, done: seq<Outcome>, l: Limits)
    ensures AppliedAll(m, done, l).Keys == m.Keys
  {
    hide AdmitOutcome, Delivery.Admit;
    if done != [] {
      AppliedKeys(m, done[..|done| - 1], l);
    }
  }

  /** Deliver to every entry of a fan-out. */
  method DeliverAll(pub: Publish, subs: seq<Subscription<State>>, store: Store, clients: map<bytes, Link>, ghost routes: Routes<State>)
    returns (done: seq<Outcome>)
    requires store.Valid() && Relayable(pub)
    requires Agreed(routes, Granting(store.Sessions())) && Rooted(routes, store.data) && IsFanout(routes, pub.topic, subs)
    modifies store`totals, store.live
    ensures store.Valid() && store.Sessions() == AppliedAll(old(store.Sessions()), done, store.limits)
    ensures QueuedOnce(old(store.Sessions()), store.Sessions(), pub)
    ensures AdmitsOnce(old(Granting(store.Sessions())), pub, done)
    ensures WritesOnce(old(Granting(store.Sessions())), store.data, clients, pub, done)
  {
    hide Store.Valid, Store.Sessions, Agreed, IsFanout, AdmitsOnce, WritesOnce, Relayable, Due, Rooted, Applied, Highest,
         Store.Indexed, Ledger, Accepted, State.Queued, State.Handle, Payload, Queued, QueuedOnce;
    store.AtHome();
    ghost var before := store.Sessions();
    done := [];
    var cache := new PublishCache();
    store.Untouched();
    forall k | 0 <= k < |subs| ensures subs[k].qos <= 1 && subs[k].client in store.data && store.data[subs[k].client] == subs[k].subscriber {
      EntryIsHighest(routes, Granting(before), pub.topic, subs, k);
      EntryIsRooted(routes, store.data, pub.topic, subs, k);
    }
    for i := 0 to |subs|
      invariant store.Valid() && store.Indexed() && cache.Fresh(pub) && |done| == i
      invariant forall k :: 0 <= k < i ==> done[k] == Due(pub, clients, subs[k])
      invariant store.Sessions() == AppliedAll(before, done, store.limits)
    {
      var r := DeliverToSubscriber(pub, subs[i], store, clients, cache);
      ghost var so := done;
      done := done + [r];
      assert done[..|done| - 1] == so;
    }
    DueAdmitsOnce(routes, Granting(before), clients, pub, subs, done);
    DueWritesOnce(routes, Granting(before), store.data, clients, pub, subs, done);
    AppliedQueuesOnce(before, done, store.limits, pub);
  }

  lemma EntryIsRooted(routes: Routes<State>, data: map<bytes, State>, topic: bytes, subs: seq<Subscription<State>>, k: nat)
    requires Rooted(routes, data) && IsFanout(routes, topic, subs) && k < |subs|
    ensures subs[k].client in data && data[subs[k].client] == subs[k].subscriber
  {
    assert Reaches(routes, topic, subs[k]);
  }

  /** `publishMessage`: with routes that agree with the stored sessions, every session that must have
      the message is offered it exactly once; a refused retained publish reaches nobody. */
  method PublishMessage(pub: Publish, broker: Broker.Broker<State>, store: Store, clients: map<bytes, Link>)
    returns (done: Option<seq<Outcome>>)
    requires broker.Routed() && broker.Retaining() && store.Valid() && Relayable(pub)
    requires Agreed(Fold(broker.updates), Granting(store.Sessions())) && Rooted(Fold(broker.updates), store.data)
    modifies broker`retained, broker`stats, broker`attempts, store`totals, store.live
    ensures store.Valid() && broker.Routed() && broker.Retaining()
    ensures done.None? <==>
      && pub.retain && pub.payload != []
      && !(Broker.FitsCount(old(broker.retained), pub, broker.limits)
           && Broker.FitsBytes(old(broker.retained), pub, old(broker.stats.retainedBytes), broker.limits))
    ensures done.Some? && pub.retain ==> Broker.Retains(old(broker.retained), broker.retained, pub)
    ensures !pub.retain ==> broker.retained == old(broker.retained)
    ensures done.None? ==> store.Sessions() == old(store.Sessions()) && broker.retained == old(broker.retained)
    ensures done.Some? ==>
      && store.Sessions() == AppliedAll(old(store.Sessions()), done.value, store.limits)
      && QueuedOnce(old(store.Sessions()), store.Sessions(), pub)
      && AdmitsOnce(old(Granting(store.Sessions())), pub, done.value)
      && WritesOnce(old(Granting(store.Sessions())), store.data, clients, pub, done.value)
  {
    hide Store.Valid, Store.Sessions, Agreed, IsFanout, AdmitsOnce, WritesOnce, Relayable, Rooted, Fold,
         Broker.FitsCount, Broker.FitsBytes, Broker.Retains, Broker.Shows, Broker.Faithful, QueuedOnce, AppliedAll;
    var subs := broker.Publish(pub);
    store.Untouched();
    if subs.None? {
      return None;
    }
    var all := DeliverAll(pub, subs.value, store, clients, Fold(broker.updates));
    return Some(all);
  }
}
