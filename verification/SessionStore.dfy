/** Sessions and their store, as objects that are changed in place. A session's outbound list is one
    list of entries, each with an identifier and the epoch it was last sent in; it is the three
    queues of `Delivery`
    laid end to end. */
module SessionStore {
  import opened Bytes
  import opened Delivery
  import opened Accounts
  import opened Template
  import opened Moves
  import opened Books
  import opened Lifetimes
  import Trace
  import Levels

  class Entry {
    const data: bytes
    const packetIDOffset: nat
    var packetID: nat
    var lastEpoch: nat
    ghost const number: nat
    ghost const home: State

    constructor (data: bytes, packetIDOffset: nat, ghost number: nat, ghost home: State)
      ensures Carries(Message(number, data, packetIDOffset)) && packetID == 0 && lastEpoch == 0 && this.home == home
    {
      this.data := data;
      this.packetIDOffset := packetIDOffset;
      this.number := number;
      this.home := home;
      packetID := 0;
      lastEpoch := 0;
    }

    ghost predicate Carries(m: Message) {
      data == m.data && packetIDOffset == m.offset && number == m.number
    }
  }

  datatype Delivered = Delivered(data: bytes, packetID: nat)

  class State {
    const store: Store
    const id: bytes
    const owner: bytes
    var deleted: bool
    var subscriptions: map<bytes, nat>
    var entries: seq<Entry>
    var inflight: map<nat, Entry>
    var nextPacketID: nat
    var epoch: nat
    var activeInflight: int
    var paused: bool
    var changed: bool
    var pendingMessages: int
    var pendingBytes: int
    var sessionLimitDrops: nat
    var globalLimitDrops: nat
    var connected: bool
    var offlineSince: Option<int>
    ghost var queue: Queue
    ghost var own: set<Entry>
    ghost var events: seq<Trace.Event>

    /** The entries are those in flight, in order, then those never sent. */
    ghost predicate Listed()
      reads this, own
      requires Owned()
    {
      var fs := Flights(queue);
      && |entries| == |fs| + |queue.unsent|
      && (forall i, j :: 0 <= i < j < |entries| ==> entries[i] != entries[j])
      && (forall i :: 0 <= i < |fs| ==> entries[i].packetID == fs[i].id && entries[i].Carries(fs[i].message))
      && (forall i :: |fs| <= i < |entries| ==>
            entries[i].packetID == 0 && entries[i].lastEpoch == 0 && entries[i].Carries(queue.unsent[i - |fs|]))
    }

    ghost predicate Owned()
      reads this
    {
      && (forall e :: e in own ==> e.home == this && Admissible(e.data, e.packetIDOffset))
      && (forall i :: 0 <= i < |entries| ==> entries[i] in own)
    }

    /** Those last sent in this epoch are a prefix of those in flight. */
    ghost predicate Marked()
      reads this, own
      requires Owned() && |Flights(queue)| <= |entries|
    {
      forall i :: 0 <= i < |Flights(queue)| ==>
        0 < entries[i].lastEpoch <= epoch && (entries[i].lastEpoch == epoch <==> i < |queue.active|)
    }

    /** The identifier table maps exactly the identifiers in flight to their entries. */
    ghost predicate Tabled()
      reads this
      requires |Flights(queue)| <= |entries|
    {
      && inflight.Keys == Ids(Flights(queue))
      && forall i :: 0 <= i < |Flights(queue)| ==>
           Flights(queue)[i].id in inflight && inflight[Flights(queue)[i].id] == entries[i]
    }

    ghost predicate Counted()
      reads this
    {
      && activeInflight == |queue.active| && nextPacketID == queue.lastID && epoch == queue.epoch <= MAX_EPOCH
      && paused == queue.paused
      && pendingMessages == |entries| && pendingBytes == FlightBytes(Flights(queue)) + MessageBytes(queue.unsent)
    }

    /** What happened to the session so far is a good history of its queue. */
    ghost predicate Chronicled(window: nat)
      reads this
    {
      Trace.Good(Trace.History(queue, events), window)
    }

    ghost predicate Queued(window: nat)
      reads this, own
    {
      Sound(queue, window) && Chronicled(window) && Owned() && Listed() && Marked() && Tabled() && Counted()
    }

    /** Nothing about the list changed. */
    twostate predicate SameList()
      reads this, own
    {
      && entries == old(entries) && inflight == old(inflight) && nextPacketID == old(nextPacketID) && epoch == old(epoch)
      && activeInflight == old(activeInflight) && paused == old(paused) && pendingMessages == old(pendingMessages)
      && pendingBytes == old(pendingBytes) && queue == old(queue) && own == old(own) && events == old(events)
      && forall e :: e in own ==> unchanged(e)
    }

    twostate lemma StaysQueued(window: nat)
      requires old(Queued(window)) && SameList()
      ensures Queued(window)
    {
      hide Flights, Sound, MessageBytes, FlightBytes, Ids, Admissible, Trace.Good;
      assert Sound(queue, window) && Chronicled(window);
      assert Owned();
      assert Listed();
      assert Marked();
      assert Tabled();
      assert Counted();
    }

    twostate lemma OwnsItsOwn(window: nat)
      requires old(Queued(window)) && own == old(own)
      ensures forall e :: e in own ==> e.home == this
    {
      hide Flights, Sound, MessageBytes, FlightBytes, Ids, Admissible, Listed, Marked, Tabled, Counted, Trace.Good;
      assert old(Owned());
    }

    ghost function View(): Session
      reads this
    {
      Session(owner, queue, subscriptions, connected, offlineSince)
    }

    constructor (store: Store, id: bytes, owner: bytes, now: int)
      ensures this.store == store && this.id == id && this.owner == owner && !deleted && Blank()
      ensures View() == Session(owner, EMPTY, map[], false, Some(now))
    {
      this.store := store;
      this.id := id;
      this.owner := owner;
      deleted, paused, changed, connected := false, false, false, false;
      subscriptions := map[];
      entries := [];
      inflight := map[];
      nextPacketID, epoch, activeInflight := 0, 0, 0;
      pendingMessages, pendingBytes, sessionLimitDrops, globalLimitDrops := 0, 0, 0, 0;
      offlineSince := Some(now);
      queue := EMPTY;
      own := {};
      events := [];
    }

    ghost predicate Blank()
      reads this
    {
      && entries == [] && inflight == map[] && own == {} && queue == EMPTY && events == [] && !paused
      && nextPacketID == 0 && epoch == 0 && activeInflight == 0 && pendingMessages == 0 && pendingBytes == 0
    }

    lemma BlankIsQueued(window: nat)
      requires Blank() && window <= MAX_UINT16
      ensures Queued(window)
    {
      hide Trace.Good, Sound;
      Trace.StartIsGood(window);
      EmptyIsSound(window);
      assert Flights(EMPTY) == [] && Ids([]) == {};
      assert Owned() && Listed();
      assert Marked() && Tabled();
      assert Counted();
    }

    // ----- The list

    /** The list part of `Admit`. */
    method Append(data: bytes, offset: nat, ghost window: nat)
      requires Queued(window) && Admissible(data, offset)
      modifies this`entries, this`pendingMessages, this`pendingBytes, this`queue, this`own, this`events
      ensures fresh(own - old(own))
      ensures Queued(window) && queue == Delivery.Admit(old(queue), data, offset) && Appends(old(entries), data, offset)
      ensures pendingMessages == old(pendingMessages) + 1 && pendingBytes == old(pendingBytes) + |data|
      ensures events == old(events) + [Trace.Accepted(Message(old(queue).admitted, data, offset))]
    {
      hide Queued, Delivery.Admit, Admissible;
      Sized(window);
      var e := new Entry(data, offset, queue.admitted, this);
      entries := entries + [e];
      own := own + {e};
      pendingMessages := pendingMessages + 1;
      pendingBytes := pendingBytes + |data|;
      events := events + [Trace.Accepted(Message(queue.admitted, data, offset))];
      queue := Delivery.Admit(queue, data, offset);
      AppendedQueued(e, window);
    }

    lemma Sized(window: nat)
      requires Queued(window)
      ensures Owned()
    {
      hide Flights, Sound, MessageBytes, FlightBytes, Ids, Admissible, Trace.Good, Listed, Marked, Tabled, Counted;
    }

    /** A fresh entry was put at the end of the list. */
    twostate predicate Appended(new e: Entry)
      reads this, own, e
    {
      var m := Message(old(queue).admitted, e.data, e.packetIDOffset);
      && e !in old(own) && own == old(own) + {e} && entries == old(entries) + [e] && old(Owned())
      && e.home == this && Admissible(e.data, e.packetIDOffset) && e.Carries(m) && e.packetID == 0 && e.lastEpoch == 0
      && (forall x :: x in old(own) ==> unchanged(x))
      && queue == Delivery.Admit(old(queue), e.data, e.packetIDOffset)
      && inflight == old(inflight) && epoch == old(epoch)
    }

    twostate lemma AppendedQueued(new e: Entry, new window: nat)
      requires old(Queued(window)) && Appended(e)
      requires events == old(events) + [Trace.Accepted(Message(old(queue).admitted, e.data, e.packetIDOffset))]
      requires activeInflight == old(activeInflight) && nextPacketID == old(nextPacketID) && paused == old(paused)
      requires pendingMessages == old(pendingMessages) + 1 && pendingBytes == old(pendingBytes) + |e.data|
      ensures Queued(window)
    {
      hide Sound, MessageBytes, FlightBytes, Ids, Admissible, Trace.Good, Listed, Marked, Tabled;
      AdmitStaysSound(old(queue), e.data, e.packetIDOffset, window);
      AdmitRecorded(old(queue), old(events), e.data, e.packetIDOffset, window);
      MessageBytesSnoc(old(queue).unsent, Message(old(queue).admitted, e.data, e.packetIDOffset));
      AppendedListed(e, window);
      AppendedMarked(e, window);
      assert Sound(queue, window) && Chronicled(window);
      assert old(Counted());
    }

    twostate lemma AppendedListed(new e: Entry, new window: nat)
      requires old(Queued(window)) && Appended(e)
      ensures Owned() && Listed()
    {
      hide Sound, MessageBytes, FlightBytes, Ids, Admissible, Trace.Good, Marked, Tabled, Counted;
      assert Flights(queue) == Flights(old(queue));
    }

    twostate lemma AppendedMarked(new e: Entry, new window: nat)
      requires old(Queued(window)) && Appended(e)
      ensures Owned() && |Flights(queue)| <= |entries| && Marked() && Tabled()
    {
      hide Sound, MessageBytes, FlightBytes, Ids, Admissible, Trace.Good, Counted;
      assert Flights(queue) == Flights(old(queue));
      assert old(Listed()) && old(Marked()) && old(Tabled());
    }

    /** The first entry not yet sent in the current epoch, or the length. */
    method FirstStale() returns (i: nat)
      ensures i <= |entries| && (forall j :: 0 <= j < i ==> entries[j].lastEpoch == epoch)
      ensures i < |entries| ==> entries[i].lastEpoch != epoch
    {
      i := 0;
      while i < |entries| && entries[i].lastEpoch == epoch
        invariant i <= |entries| && forall j :: 0 <= j < i ==> entries[j].lastEpoch == epoch
      {
        i := i + 1;
      }
    }

    /** The search for a free identifier ends within 65535 steps. */
    method NextIdentifier() returns (steps: nat)
      requires nextPacketID <= MAX_UINT16 && |inflight.Keys| < MAX_UINT16
      modifies this`nextPacketID
      ensures NextFree(old(nextPacketID), inflight.Keys, nextPacketID) && nextPacketID <= MAX_UINT16 && steps <= MAX_UINT16
    {
      ghost var last := nextPacketID;
      ghost var target := NextFreeExists(last, inflight.Keys);
      steps := 0;
      while true
        invariant nextPacketID <= MAX_UINT16
        invariant steps == 0 ==> nextPacketID == last
        invariant 0 < steps ==> Identifier(nextPacketID) && nextPacketID in inflight && steps == Distance(last, nextPacketID)
        invariant forall k :: Identifier(k) && Distance(last, k) <= steps ==> k in inflight
        invariant steps < Distance(last, target)
        decreases MAX_UINT16 - steps
      {
        nextPacketID := if nextPacketID == MAX_UINT16 then 0 else nextPacketID + 1;
        if nextPacketID == 0 {
          nextPacketID := nextPacketID + 1;
        }
        steps := steps + 1;
        if nextPacketID !in inflight {
          break;
        }
      }
    }

    /** `d` is a copy of the entry under its identifier, and the entry is marked with the epoch. */
    ghost predicate Sends(e: Entry, d: Delivered, replay: bool)
      reads this, e
    {
      d.packetID == e.packetID && e.lastEpoch == epoch && IsCopy(d.data, e.data, e.packetIDOffset, d.packetID, replay)
    }

    /** The part of `Next` that sends again what was sent in an earlier epoch. */
    method TransmitAgain(i: nat, ghost window: nat) returns (d: Delivered)
      requires Queued(window) && CanSend(queue, window) && queue.replay != [] && i == |queue.active| < |entries|
      modifies this`activeInflight, this`queue, this`events, own
      ensures entries[i].packetID == old(entries[i].packetID) && Sends(entries[i], d, true) && activeInflight == old(activeInflight) + 1
      ensures Queued(window) && queue == Send(old(queue)) && d == Delivered(OnTheWire(old(queue)), d.packetID)
      ensures d.packetID == Upcoming(old(queue)).0.id && events == old(events) + [SendEvent(old(queue))]
    {
      hide Flights, Sound, MessageBytes, FlightBytes, Ids, Admissible, Send, Patch, Trace.Good, IsCopy;
      ReplayShape(queue, window);
      SendRecorded(queue, events, window);
      var message := entries[i];
      d := Transmit(message, true);
      message.lastEpoch := epoch;
      activeInflight := activeInflight + 1;
      events := events + [SendEvent(queue)];
      queue := Send(queue);
    }

    /** The part of `Next` that sends a message for the first time. */
    method TransmitFirst(i: nat, ghost window: nat) returns (d: Delivered)
      requires Queued(window) && CanSend(queue, window) && queue.replay == [] && i == |queue.active| < |entries| && epoch > 0
      modifies this`activeInflight, this`queue, this`nextPacketID, this`inflight, this`events, own
      ensures Sends(entries[i], d, false) && activeInflight == old(activeInflight) + 1
      ensures Queued(window) && queue == Send(old(queue)) && d == Delivered(OnTheWire(old(queue)), d.packetID)
      ensures d.packetID == Upcoming(old(queue)).0.id && events == old(events) + [SendEvent(old(queue))]
    {
      hide Flights, Queued, Ids, Admissible, Send, Patch, NextFree, NextID, Trace.Good, IsCopy;
      FirstUnsent(i, window);
      SendRecorded(queue, events, window);
      var message := entries[i];
      var steps := NextIdentifier();
      NextIDIs(queue, nextPacketID);
      message.packetID := nextPacketID;
      inflight := inflight[message.packetID := message];
      d := Transmit(message, false);
      message.lastEpoch := epoch;
      activeInflight := activeInflight + 1;
      events := events + [SendEvent(queue)];
      queue := Send(queue);
      StampedQueued(i, window);
    }

    lemma FirstUnsent(i: nat, window: nat)
      requires Queued(window) && queue.replay == [] && queue.unsent != [] && i == |queue.active| < window && epoch > 0
      ensures i < |entries| && entries[i] in own && entries[i].Carries(queue.unsent[0]) && Owned()
      ensures Admissible(entries[i].data, entries[i].packetIDOffset)
      ensures forall j :: 0 <= j < |entries| && j != i ==> entries[j] != entries[i]
      ensures Chronicled(window)
      ensures nextPacketID == queue.lastID <= MAX_UINT16 && inflight.Keys == Ids(Flights(queue)) && |inflight.Keys| < MAX_UINT16
    {
      hide Sound, MessageBytes, FlightBytes, Ids, Admissible, Send, NextID, Marked, Trace.Good;
      FirstShape(queue, window);
      assert Owned() && Listed() && Tabled() && Counted();
    }

    /** Entry `i`, the first unsent one, was given the next identifier and the current epoch. */
    twostate predicate Stamped(i: nat)
      reads this, own
    {
      && Owned() && i < |entries| && entries == old(entries) && epoch == old(epoch)
      && old(queue.replay) == [] && old(queue.unsent) != [] && i == |old(queue.active)|
      && entries[i].packetID == NextID(old(queue)) && entries[i].lastEpoch == epoch
      && (forall j :: 0 <= j < |entries| && j != i ==>
            entries[j].packetID == old(entries[j].packetID) && entries[j].lastEpoch == old(entries[j].lastEpoch))
      && inflight == old(inflight)[NextID(old(queue)) := entries[i]]
      && queue == Send(old(queue))
    }

    twostate lemma StampedQueued(new i: nat, new window: nat)
      requires old(Queued(window)) && Stamped(i) && i < window && epoch > 0
      requires activeInflight == old(activeInflight) + 1 && nextPacketID == NextID(old(queue)) && paused == old(paused)
      requires pendingMessages == old(pendingMessages) && pendingBytes == old(pendingBytes) && Chronicled(window)
      ensures Queued(window)
    {
      hide Flights, Sound, MessageBytes, FlightBytes, Ids, Admissible, Send, NextID, Listed, Marked, Tabled, Trace.Good;
      FirstShape(old(queue), window);
      StampedListed(i, window);
      StampedMarked(i, window);
      StampedTabled(i, window);
      assert Sound(queue, window);
      assert old(Listed());
    }

    twostate lemma StampedListed(new i: nat, new window: nat)
      requires old(Queued(window)) && Stamped(i) && i < window && epoch > 0
      ensures Owned() && Listed()
    {
      hide Flights, Sound, MessageBytes, FlightBytes, Ids, Admissible, Send, NextID, Marked, Tabled, Trace.Good;
      FirstShape(old(queue), window);
    }

    twostate lemma StampedMarked(new i: nat, new window: nat)
      requires old(Queued(window)) && Stamped(i) && i < window && epoch > 0
      ensures Owned() && |Flights(queue)| <= |entries| && Marked()
    {
      hide Flights, Sound, MessageBytes, FlightBytes, Ids, Admissible, Send, NextID, Tabled, Trace.Good;
      FirstShape(old(queue), window);
    }

    twostate lemma StampedTabled(new i: nat, new window: nat)
      requires old(Queued(window)) && Stamped(i) && i < window && epoch > 0
      ensures |Flights(queue)| <= |entries| && Tabled()
    {
      hide Flights, Sound, MessageBytes, FlightBytes, Admissible, Send, NextID, Marked, Trace.Good, Ids, Owned;
      FirstShape(old(queue), window);
      assert old(Listed()) && old(Tabled());
      TableGrows(Flights(old(queue)), Flight(NextID(old(queue)), old(queue).unsent[0]), old(inflight), entries);
    }

    /** The entries are those of `before` without `message`, in order. */
    ghost predicate Loses(before: seq<Entry>, message: Entry)
      reads this
    {
      exists k :: 0 <= k < |before| && before[k] == message && entries == before[..k] + before[k + 1..]
    }

    /** The list part of `Ack`: the entry leaves the list and the table. */
    method Remove(packetID: nat, ghost window: nat)
      requires Queued(window) && packetID in inflight
      modifies this`entries, this`inflight, this`activeInflight, this`pendingMessages, this`pendingBytes, this`queue, this`events
      ensures old(InFlight(queue, packetID)) && Queued(window) && queue == Delivery.Ack(old(queue), packetID)
      ensures packetID !in inflight && Loses(old(entries), old(inflight[packetID]))
      ensures pendingMessages == old(pendingMessages) - 1 && pendingBytes == old(pendingBytes) - |old(inflight[packetID].data)|
      ensures activeInflight == old(activeInflight) - Bit(old(inflight[packetID].lastEpoch) == epoch)
      ensures events == old(events) + [Trace.Released(Acked(old(queue), packetID), packetID)]
    {
      hide Flights, Queued, IndexOf, Delivery.Ack, InFlight, Trace.Good, Acked, Owned;
      ghost var k := InTheList(packetID, window);
      AckRecorded(queue, events, packetID, window);
      var message := inflight[packetID];
      inflight := inflight - {packetID};
      if message.lastEpoch == epoch {
        activeInflight := activeInflight - 1;
      }
      var i := Position(message);
      assert i == k;
      entries := entries[..i] + entries[i + 1..];
      pendingMessages := pendingMessages - 1;
      pendingBytes := pendingBytes - |message.data|;
      events := events + [Trace.Released(Acked(queue, packetID), packetID)];
      queue := Delivery.Ack(queue, packetID);
      DroppedQueued(packetID, window);
    }

    lemma InTheList(packetID: nat, window: nat) returns (k: nat)
      requires Queued(window) && packetID in inflight
      ensures InFlight(queue, packetID) && Owned() && k == IndexOf(Flights(queue), packetID)
      ensures k < |Flights(queue)| <= |entries| && entries[k] == inflight[packetID]
      ensures |entries[k].data| == |Flights(queue)[k].message.data| && (entries[k].lastEpoch == epoch <==> k < |queue.active|)
      ensures (forall i :: 0 <= i < |entries| && entries[i] == entries[k] ==> i == k) && Chronicled(window)
    {
      hide Flights, Sound, MessageBytes, FlightBytes, Ids, Admissible, IndexOf, Drop, Delivery.Ack, Trace.Good;
      AckShape(queue, packetID, window);
      k := IndexOf(Flights(queue), packetID);
      assert Listed() && Marked() && Tabled();
    }

    method Position(message: Entry) returns (i: nat)
      requires message in entries
      ensures i < |entries| && entries[i] == message
    {
      i := 0;
      while entries[i] != message
        invariant i < |entries| && message in entries[i..]
        decreases |entries| - i
      {
        i := i + 1;
      }
    }

    /** The entry of identifier `packetID` was taken out of the list and the table. */
    twostate predicate Dropped(packetID: nat)
      reads this, own
    {
      var k := IndexOf(Flights(old(queue)), packetID);
      && old(Owned()) && k < |Flights(old(queue))| <= |old(entries)| && entries == Drop(old(entries), k) && own == old(own)
      && (forall e :: e in own ==> e.packetID == old(e.packetID) && e.lastEpoch == old(e.lastEpoch))
      && epoch == old(epoch) && inflight == old(inflight) - {packetID}
      && queue == Delivery.Ack(old(queue), packetID)
    }

    twostate lemma DroppedQueued(new packetID: nat, new window: nat)
      requires old(Queued(window)) && packetID in old(inflight) && Dropped(packetID)
      requires nextPacketID == old(nextPacketID) && paused == old(paused) && pendingMessages == old(pendingMessages) - 1 && Chronicled(window)
      requires var f := Flights(old(queue))[IndexOf(Flights(old(queue)), packetID)];
               pendingBytes == old(pendingBytes) - |f.message.data|
      requires activeInflight == old(activeInflight) - if IndexOf(Flights(old(queue)), packetID) < |old(queue.active)| then 1 else 0
      ensures Queued(window)
    {
      hide Flights, Sound, MessageBytes, FlightBytes, Ids, Admissible, IndexOf, Drop, Delivery.Ack, Listed, Marked, Trace.Good;
      AckShape(old(queue), packetID, window);
      DropShape(old(entries), IndexOf(Flights(old(queue)), packetID));
      DroppedListed(packetID, window);
      DroppedMarked(packetID, window);
      DroppedTabled(packetID, window);
      assert Sound(queue, window);
    }

    twostate lemma DroppedListed(new packetID: nat, new window: nat)
      requires old(Queued(window)) && packetID in old(inflight) && Dropped(packetID)
      ensures Owned() && Listed()
    {
      hide Flights, Sound, MessageBytes, FlightBytes, Ids, Admissible, IndexOf, Drop, Delivery.Ack, Marked, Counted, Trace.Good;
      AckShape(old(queue), packetID, window);
      DropShape(old(entries), IndexOf(Flights(old(queue)), packetID));
    }

    twostate lemma DroppedMarked(new packetID: nat, new window: nat)
      requires old(Queued(window)) && packetID in old(inflight) && Dropped(packetID)
      ensures Owned() && |Flights(queue)| <= |entries| && Marked()
    {
      hide Flights, Sound, MessageBytes, FlightBytes, Ids, Admissible, IndexOf, Drop, Delivery.Ack, Trace.Good;
      AckShape(old(queue), packetID, window);
      DropShape(old(entries), IndexOf(Flights(old(queue)), packetID));
    }

    twostate lemma DroppedTabled(new packetID: nat, new window: nat)
      requires old(Queued(window)) && packetID in old(inflight) && Dropped(packetID)
      ensures |Flights(queue)| <= |entries| && Tabled()
    {
      hide Flights, Sound, MessageBytes, FlightBytes, Ids, Admissible, IndexOf, Drop, Delivery.Ack, Marked, Counted, Trace.Good;
      AckShape(old(queue), packetID, window);
      DropShape(old(entries), IndexOf(Flights(old(queue)), packetID));
    }

    /** A copy of the entry's bytes with its identifier and DUP flag written into it. */
    method Transmit(message: Entry, replay: bool) returns (d: Delivered)
      requires Admissible(message.data, message.packetIDOffset) && message.packetID <= MAX_UINT16
      ensures d == Delivered(SentBytes(message.data, message.packetIDOffset, message.packetID, replay), message.packetID)
      ensures IsCopy(d.data, message.data, message.packetIDOffset, message.packetID, replay)
    {
      PatchIsCopy(message.data, message.packetIDOffset, message.packetID, replay);
      var data := message.data;
      data := data[0 := WithDup(data[0], replay)];
      data := data[message.packetIDOffset := message.packetID / 256];
      data := data[message.packetIDOffset + 1 := message.packetID % 256];
      d := Delivered(data, message.packetID);
    }

    /** The list part of `BeginDelivery`. The epoch counter has 64 bits. */
    method Advance(ghost window: nat)
      requires Queued(window)
      modifies this`epoch, this`activeInflight, this`queue
      ensures epoch == NextEpoch(old(epoch))
      ensures old(epoch) < MAX_EPOCH ==> Queued(window) && queue == Begin(old(queue))
      ensures forall i :: 0 <= i < |entries| ==>
                (entries[i].lastEpoch != epoch <==> old(epoch) < MAX_EPOCH || i < |Flights(old(queue))|)
    {
      hide Queued, Flights, Begin;
      Marks(window);
      activeInflight := 0;
      epoch := NextEpoch(epoch);
      if epoch > 0 {
        queue := Begin(queue);
        AdvancedQueued(window);
      }
    }

    /** Which epochs the entries were last sent in. */
    lemma Marks(window: nat)
      requires Queued(window)
      ensures |Flights(queue)| <= |entries| && epoch <= MAX_EPOCH
      ensures forall i :: 0 <= i < |entries| ==> if i < |Flights(queue)| then 0 < entries[i].lastEpoch <= epoch else entries[i].lastEpoch == 0
    {
      hide Flights, Sound, MessageBytes, FlightBytes, Ids, Admissible, Trace.Good, Tabled;
      assert Owned() && Listed() && Marked() && Counted();
    }

    twostate lemma AdvancedQueued(new window: nat)
      requires old(Queued(window)) && old(epoch) < MAX_EPOCH && epoch == old(epoch) + 1 && queue == Begin(old(queue)) && activeInflight == 0
      requires entries == old(entries) && inflight == old(inflight) && nextPacketID == old(nextPacketID) && paused == old(paused)
      requires pendingMessages == old(pendingMessages) && pendingBytes == old(pendingBytes) && own == old(own) && events == old(events)
      requires forall e :: e in own ==> unchanged(e)
      ensures Queued(window)
    {
      hide Sound, MessageBytes, FlightBytes, Ids, Admissible, Trace.Good, Numbered;
      BeginStaysSound(old(queue), window);
      BeginRecorded(old(queue), events, window);
      assert Flights(queue) == Flights(old(queue));
      assert old(Owned()) && old(Listed()) && old(Marked()) && old(Tabled()) && old(Counted());
      assert Sound(queue, window) && Chronicled(window) && Owned();
      assert Listed() && Marked();
      assert Tabled() && Counted();
    }

    method SetPaused(pause: bool, ghost window: nat)
      requires Queued(window)
      modifies this`paused, this`queue
      ensures Queued(window) && queue == old(queue).(paused := pause) && paused == pause
    {
      hide Numbered, MessageBytes, FlightBytes, Ids, Admissible, Trace.Good;
      PauseRecorded(queue, events, pause, window);
      paused := pause;
      queue := queue.(paused := pause);
      assert Flights(queue) == old(Flights(queue));
      assert Sound(queue, window) && Chronicled(window) && Owned();
      assert Listed() && Marked();
      assert Tabled() && Counted();
    }

    /** Where the first entry not sent in this epoch stands, and which kind it is. */
    lemma FirstStaleMeans(i: nat, window: nat)
      requires Queued(window) && i <= |entries| && (forall j :: 0 <= j < i ==> entries[j].lastEpoch == epoch)
      requires i < |entries| ==> entries[i].lastEpoch != epoch
      ensures i < |entries| <==> epoch > 0 && (queue.replay != [] || queue.unsent != [])
      ensures i < |entries| ==> i == |queue.active| && (entries[i].packetID != 0 <==> queue.replay != [])
      ensures epoch == queue.epoch && activeInflight == |queue.active| && paused == queue.paused
    {
      hide MessageBytes, FlightBytes, Ids, Admissible, Tabled, Trace.Good;
      assert Listed() && Marked() && Counted() && Sound(queue, window);
      assert |Flights(queue)| == |queue.active| + |queue.replay|;
      assert |queue.active| < |entries| && epoch > 0 ==> entries[|queue.active|].lastEpoch != epoch;
      assert epoch > 0 ==> i >= |queue.active|;
      assert i < |Flights(queue)| ==> Identifier(Flights(queue)[i].id);
    }

    // ----- Operations

    /** Either stored under its identifier, or deleted and empty. */
    ghost predicate Handle()
      reads this, store
    {
      if deleted then entries == [] && inflight == map[] && subscriptions == map[] && pendingMessages == 0 && pendingBytes == 0
      else id in store.data && store.data[id] == this && this in store.live
    }

    /** The counters of the list are the costs of the session. */
    lemma CountersAreCosts(window: nat)
      requires Queued(window)
      ensures PendingMessages(View()) == pendingMessages && PendingBytes(View()) == pendingBytes
    {
      hide Flights, Sound, MessageBytes, FlightBytes, Ids, Admissible, Trace.Good;
      assert Listed() && Counted();
    }

    lemma TableIsInflight(window: nat)
      requires Queued(window)
      ensures |inflight| == Inflight(View())
    {
      hide MessageBytes, FlightBytes, Admissible, Marked, Ids, Trace.Good;
      assert Sound(queue, window) && Owned() && Listed() && Tabled();
      IdsExact(Flights(queue));
      assert |inflight| == |inflight.Keys|;
    }

    /** The entries are those of `before` and, behind them, one that holds `data` and was never sent. */
    ghost predicate Appends(before: seq<Entry>, data: bytes, offset: int)
      reads this, entries
    {
      && |entries| == |before| + 1 && entries[..|before|] == before
      && entries[|before|].data == data && entries[|before|].packetIDOffset == offset
      && entries[|before|].packetID == 0 && entries[|before|].lastEpoch == 0
    }

    /** Reserve capacity for an encoded PUBLISH and queue it. Local saturation takes precedence. A
        budget is saturated exactly when it would be exceeded. */
    method Admit(data: bytes, packetIDOffset: int) returns (r: Outcome)
      requires store.Valid() && Handle()
      modifies this`entries, this`pendingMessages, this`pendingBytes, this`queue, this`own, this`events, this`changed,
               this`sessionLimitDrops, this`globalLimitDrops, store`totals
      ensures store.Valid() && Handle() && fresh(own - old(own))
      ensures r.Malformed? <==>
                |data| < 2 || data[0] / 16 != 3 || (data[0] / 2) % 4 != 1 || packetIDOffset < 2 || packetIDOffset > |data| - 2
      ensures r.Removed? <==> !r.Malformed? && deleted
      ensures r.SessionLimit? <==>
                && !r.Malformed? && !deleted
                && (|| old(pendingMessages) + 1 > store.limits.maxPendingMessagesPerSession
                    || old(pendingBytes) + |data| > store.limits.maxPendingBytesPerSession)
      ensures r.GlobalLimit? <==>
                && !r.Malformed? && !deleted && !r.SessionLimit?
                && (|| old(store.totals).pendingMessages + 1 > store.limits.maxPendingMessagesGlobal
                    || old(store.totals).pendingBytes + |data| > store.limits.maxPendingBytesGlobal)
      ensures if r.Taken? then Appends(old(entries), data, packetIDOffset) else entries == old(entries)
      ensures pendingMessages == old(pendingMessages) + Bit(r.Taken?) && pendingBytes == old(pendingBytes) + if r.Taken? then |data| else 0
      ensures sessionLimitDrops == old(sessionLimitDrops) + Bit(r.SessionLimit?) && globalLimitDrops == old(globalLimitDrops) + Bit(r.GlobalLimit?)
      ensures store.totals == old(store.totals).(pendingMessages := old(store.totals.pendingMessages) + Bit(r.Taken?),
                                                 pendingBytes := old(store.totals.pendingBytes) + (if r.Taken? then |data| else 0),
                                                 sessionLimitDrops := old(store.totals.sessionLimitDrops) + Bit(r.SessionLimit?),
                                                 globalLimitDrops := old(store.totals.globalLimitDrops) + Bit(r.GlobalLimit?))
      ensures r == AdmitOutcome(old(store.Sessions()), id, deleted, data, packetIDOffset, store.limits)
      ensures store.Sessions() == if r.Taken? then old(store.Sessions())[id := WithQueue(old(View()), Delivery.Admit(old(queue), data, packetIDOffset))]
                                  else old(store.Sessions())
      ensures changed == (old(changed) || r.Taken?)
      ensures events == old(events) + if r.Taken? then [Trace.Accepted(Message(old(queue).admitted, data, packetIDOffset))] else []
    {
      hide Queued, Ledger, Sum, PendingMessages, PendingBytes, Delivery.Admit, Store.Valid, Store.Sessions, Store.Indexed, Within, Sound, WithQueue, Trace.Good;
      if !Admissible(data, packetIDOffset) {
        return Malformed;
      }
      if deleted {
        return Removed;
      }
      Stored();
      var l := store.limits;
      if pendingMessages >= l.maxPendingMessagesPerSession || |data| > l.maxPendingBytesPerSession - pendingBytes {
        r := SessionLimit;
        CountDrop(r);
      } else if store.totals.pendingMessages >= l.maxPendingMessagesGlobal || |data| > l.maxPendingBytesGlobal - store.totals.pendingBytes {
        r := GlobalLimit;
        CountDrop(r);
      } else {
        r := Taken;
        Accept(data, packetIDOffset);
      }
    }

    method CountDrop(reason: Outcome)
      requires store.Valid() && Handle() && !deleted
      modifies this`sessionLimitDrops, this`globalLimitDrops, store`totals
      ensures store.Valid() && store.Sessions() == old(store.Sessions())
      ensures sessionLimitDrops == old(sessionLimitDrops) + Bit(reason.SessionLimit?)
      ensures globalLimitDrops == old(globalLimitDrops) + Bit(!reason.SessionLimit?)
      ensures store.totals == old(store.totals).(sessionLimitDrops := old(store.totals.sessionLimitDrops) + Bit(reason.SessionLimit?),
                                                 globalLimitDrops := old(store.totals.globalLimitDrops) + Bit(!reason.SessionLimit?))
    {
      hide Queued, Ledger, Store.Valid, Store.Sessions, Store.Indexed, Balanced, Within;
      Stored();
      if reason.SessionLimit? {
        sessionLimitDrops := sessionLimitDrops + 1;
        store.totals := store.totals.(sessionLimitDrops := store.totals.sessionLimitDrops + 1);
      } else {
        globalLimitDrops := globalLimitDrops + 1;
        store.totals := store.totals.(globalLimitDrops := store.totals.globalLimitDrops + 1);
      }
      StaysQueued(store.Window());
      SameBooks(old(store.Sessions()), old(store.totals), store.totals, store.limits);
      assert old(store.Sessions())[id := View()] == old(store.Sessions());
      store.Settle(this);
    }

    method Accept(data: bytes, offset: nat)
      requires store.Valid() && Handle() && !deleted && Admissible(data, offset)
      requires !OverSession(View(), |data|, store.limits) && !OverGlobal(store.Sessions(), |data|, store.limits)
      modifies this`entries, this`pendingMessages, this`pendingBytes, this`queue, this`own, this`events, this`changed, store`totals
      ensures store.Valid() && fresh(own - old(own)) && changed && Appends(old(entries), data, offset)
      ensures pendingMessages == old(pendingMessages) + 1 && pendingBytes == old(pendingBytes) + |data|
      ensures store.totals == old(store.totals).(pendingMessages := old(store.totals.pendingMessages) + 1,
                                                 pendingBytes := old(store.totals.pendingBytes) + |data|)
      ensures events == old(events) + [Trace.Accepted(Message(old(queue).admitted, data, offset))]
      ensures store.Sessions() == old(store.Sessions())[id := WithQueue(old(View()), Delivery.Admit(old(queue), data, offset))]
    {
      hide Queued, Ledger, Admissible, OverSession, OverGlobal, Delivery.Admit, Store.Valid, Store.Sessions, Store.Indexed, Balanced, Within;
      Stored();
      AdmitBooks(store.Sessions(), store.totals, store.limits, id, data, offset);
      Append(data, offset, store.Window());
      label Listed:
      store.totals := store.totals.(pendingMessages := store.totals.pendingMessages + 1, pendingBytes := store.totals.pendingBytes + |data|);
      changed := true;
      StaysQueued@Listed(store.Window());
      store.Settle(this);
    }

    /** Start a new connection lifetime. Everything queued is eligible again, except that at the wrap
        of the epoch counter what was never sent is not. */
    method BeginDelivery() returns (e: nat)
      requires store.Valid() && Handle()
      modifies this`epoch, this`activeInflight, this`queue, this`changed
      ensures e == epoch && epoch == NextEpoch(old(epoch))
      ensures deleted || old(epoch) < MAX_EPOCH ==> store.Valid() && Handle() && changed
      ensures deleted || old(epoch) < MAX_EPOCH ==>
                store.Sessions() == if deleted then old(store.Sessions()) else old(store.Sessions())[id := WithQueue(old(View()), Begin(old(queue)))]
      ensures forall i :: 0 <= i < |entries| ==>
                (entries[i].lastEpoch != epoch <==> old(epoch) < MAX_EPOCH || i < |Flights(old(queue))|)
    {
      hide Queued, Ledger, Begin, Store.Valid, Store.Sessions, Store.Indexed, Balanced, Within, Flights;
      if deleted {
        epoch := NextEpoch(epoch);
        activeInflight := 0;
        changed := true;
        store.Detached(this);
        return epoch;
      }
      Stored();
      BeginBooks(store.Sessions(), store.totals, store.limits, id);
      Advance(store.Window());
      label Listed:
      changed := true;
      if old(epoch) < MAX_EPOCH {
        StaysQueued@Listed(store.Window());
        store.Settle(this);
      }
      return epoch;
    }

    method PauseDelivery()
      requires store.Valid() && Handle()
      modifies this`paused, this`queue
      ensures store.Valid() && Handle() && paused
      ensures !deleted ==> queue == old(queue).(paused := true)
      ensures store.Sessions() == if deleted then old(store.Sessions()) else old(store.Sessions())[id := WithQueue(old(View()), queue)]
    {
      hide Queued, Ledger, Store.Valid, Store.Sessions, Store.Indexed, Balanced, Within;
      if deleted {
        paused := true;
        store.Detached(this);
        return;
      }
      Stored();
      PauseBooks(store.Sessions(), store.totals, store.limits, id, true);
      SetPaused(true, store.Window());
      store.Settle(this);
    }

    method ResumeDelivery()
      requires store.Valid() && Handle()
      modifies this`paused, this`queue, this`changed
      ensures store.Valid() && Handle() && !paused && changed
      ensures !deleted ==> queue == old(queue).(paused := false)
      ensures store.Sessions() == if deleted then old(store.Sessions()) else old(store.Sessions())[id := WithQueue(old(View()), queue)]
    {
      hide Queued, Ledger, Store.Valid, Store.Sessions, Store.Indexed, Balanced, Within;
      if deleted {
        paused := false;
        changed := true;
        store.Detached(this);
        return;
      }
      Stored();
      PauseBooks(store.Sessions(), store.totals, store.limits, id, false);
      SetPaused(false, store.Window());
      label Listed:
      changed := true;
      StaysQueued@Listed(store.Window());
      store.Settle(this);
    }

    /** The next message for the connection of epoch `e`, if it may have one: a copy of the first entry
        not sent in this epoch, `at`. The sends of the list are the sends of the three queues. */
    method Next(e: nat) returns (d: Option<Delivered>, ghost at: nat)
      requires store.Valid() && Handle()
      modifies this`activeInflight, this`queue, this`nextPacketID, this`inflight, this`events, own, store`totals
      ensures store.Valid() && Handle()
      ensures d.Some? <==>
                && !deleted && !paused && e == epoch && old(activeInflight) < store.limits.maxInflightMessagesPerSession
                && old(exists i :: 0 <= i < |entries| && entries[i].lastEpoch != epoch)
      ensures d.Some? ==>
        && at < |entries| && old(entries[at].lastEpoch) != epoch && (forall j :: 0 <= j < at ==> old(entries[j].lastEpoch) == epoch)
        && Sends(entries[at], d.value, old(entries[at].packetID) != 0)
        && (old(entries[at].packetID) != 0 ==> entries[at].packetID == old(entries[at].packetID))
        && activeInflight == old(activeInflight) + 1
        && store.totals == old(store.totals).(inflight := old(store.totals.inflight) + Bit(old(entries[at].packetID) == 0))
      ensures d.Some? <==> !deleted && e == epoch && CanSend(old(queue), store.Window())
      ensures d.None? ==> store.Sessions() == old(store.Sessions()) && events == old(events)
      ensures d.Some? ==>
        && events == old(events) + [SendEvent(old(queue))]
        && d.value == Delivered(OnTheWire(old(queue)), Upcoming(old(queue)).0.id)
        && store.Sessions() == old(store.Sessions())[id := WithQueue(old(View()), Send(old(queue)))]
    {
      hide Queued, Ledger, Send, Store.Valid, Store.Sessions, Store.Indexed, Balanced, Within, OnTheWire, Upcoming, SendEvent,
           Sound, Accepted, PendingMessages, PendingBytes, Sends;
      if deleted {
        return None, 0;
      }
      Stored();
      var i := FirstStale();
      at := i;
      store.Untouched();
      StaysQueued(store.Window());
      FirstStaleMeans(i, store.Window());
      if paused || e != epoch || activeInflight >= store.limits.maxInflightMessagesPerSession {
        return None, at;
      }
      if i == |entries| {
        return None, at;
      }
      SendBooks(store.Sessions(), store.totals, store.limits, id);
      OwnsItsOwn(store.Window());
      var d' := Dispatch(i);
      d := Some(d');
      store.Settle(this);
    }

    method Dispatch(i: nat) returns (d: Delivered)
      requires Queued(store.Window()) && CanSend(queue, store.Window()) && i == |queue.active| && i < |entries|
      requires (entries[i].packetID != 0 <==> queue.replay != []) && epoch == queue.epoch
      modifies this`activeInflight, this`queue, this`nextPacketID, this`inflight, this`events, own, store`totals
      ensures Queued(store.Window()) && queue == Send(old(queue)) && events == old(events) + [SendEvent(old(queue))]
      ensures d == Delivered(OnTheWire(old(queue)), Upcoming(old(queue)).0.id)
      ensures Sends(entries[i], d, old(entries[i].packetID) != 0) && activeInflight == old(activeInflight) + 1
      ensures old(entries[i].packetID) != 0 ==> entries[i].packetID == old(entries[i].packetID)
      ensures store.totals == old(store.totals).(inflight := old(store.totals.inflight) + if old(queue.replay) != [] then 0 else 1)
    {
      hide Queued, Send, OnTheWire, Upcoming, SendEvent, IsCopy;
      if entries[i].packetID != 0 {
        d := TransmitAgain(i, store.Window());
      } else {
        d := TransmitFirst(i, store.Window());
        label Listed:
        store.totals := store.totals.(inflight := store.totals.inflight + 1);
        StaysQueued@Listed(store.Window());
      }
    }

    /** Release the message that holds an identifier; an identifier not in flight changes nothing. */
    method Ack(packetID: nat)
      requires store.Valid() && Handle()
      modifies this`entries, this`inflight, this`activeInflight, this`pendingMessages, this`pendingBytes, this`queue, this`events, this`changed, store`totals
      ensures store.Valid() && Handle()
      ensures if !deleted && packetID in old(inflight) then packetID !in inflight && Loses(old(entries), old(inflight)[packetID])
              else entries == old(entries) && inflight == old(inflight) && store.totals == old(store.totals)
      ensures !deleted && packetID in old(inflight) ==>
        && pendingMessages == old(pendingMessages) - 1 && pendingBytes == old(pendingBytes) - |old(inflight[packetID].data)|
        && activeInflight == old(activeInflight) - Bit(old(inflight[packetID].lastEpoch) == epoch)
        && store.totals == old(store.totals).(pendingMessages := old(store.totals.pendingMessages) - 1,
                                              pendingBytes := old(store.totals.pendingBytes) - |old(inflight[packetID].data)|,
                                              inflight := old(store.totals.inflight) - 1)
      ensures !deleted ==> (packetID in old(inflight) <==> InFlight(old(queue), packetID))
      ensures events == old(events) + if !deleted && InFlight(old(queue), packetID)
                                      then [Trace.Released(Acked(old(queue), packetID), packetID)] else []
      ensures store.Sessions() == if !deleted && InFlight(old(queue), packetID)
                                  then old(store.Sessions())[id := WithQueue(old(View()), Delivery.Ack(old(queue), packetID))]
                                  else old(store.Sessions())
      ensures changed == (old(changed) || (!deleted && InFlight(old(queue), packetID)))
    {
      hide Queued, Ledger, Delivery.Ack, Store.Valid, Store.Sessions, Store.Indexed, Balanced, Within, InFlight, IndexOf, Flights, Trace.Good;
      if packetID !in inflight || deleted {
        if !deleted {
          Stored();
          NotInTheTable(packetID, store.Window());
        }
        return;
      }
      Stored();
      ghost var k := InTheList(packetID, store.Window());
      AckBooks(store.Sessions(), store.totals, store.limits, id, packetID);
      var size := |inflight[packetID].data|;
      Remove(packetID, store.Window());
      label Listed:
      store.totals := store.totals.(pendingMessages := store.totals.pendingMessages - 1, pendingBytes := store.totals.pendingBytes - size,
                                    inflight := store.totals.inflight - 1);
      changed := true;
      StaysQueued@Listed(store.Window());
      store.Settle(this);
    }

    lemma NotInTheTable(packetID: nat, window: nat)
      requires Queued(window) && packetID !in inflight
      ensures !InFlight(queue, packetID)
    {
      hide Sound, MessageBytes, FlightBytes, Admissible, Marked, Counted, Trace.Good;
      assert Owned() && |Flights(queue)| <= |entries| && Tabled();
    }

    /** Grant a subscription unless its filter is too large or a subscription budget would be exceeded. */
    method SetSubscription(filter: bytes, qos: nat) returns (r: Grant)
      requires store.Valid() && Handle()
      modifies this`subscriptions, store`totals
      ensures store.Valid() && Handle()
      ensures r.Gone? <==> deleted
      ensures r.FilterTooLarge? <==> !deleted && (|filter| > store.limits.maxFilterBytes || |Levels.Split(filter)| > store.limits.maxFilterLevels)
      ensures r.TooMany? <==>
                && !deleted && !r.FilterTooLarge? && filter !in old(subscriptions)
                && (|| |old(subscriptions)| + 1 > store.limits.maxSubscriptionsPerSession
                    || old(store.totals).subscriptions + 1 > store.limits.maxSubscriptionsGlobal)
      ensures subscriptions == if r.Granted? then old(subscriptions)[filter := qos] else old(subscriptions)
      ensures store.totals == old(store.totals).(subscriptions := old(store.totals.subscriptions) + Bit(r.Granted? && filter !in old(subscriptions)),
                                                 filterRejections := old(store.totals.filterRejections) + Bit(r.FilterTooLarge?),
                                                 subscriptionRejections := old(store.totals.subscriptionRejections) + Bit(r.TooMany?))
      ensures r == GrantOutcome(old(store.Sessions()), id, deleted, filter, store.limits)
      ensures store.Sessions() == if r.Granted? then old(store.Sessions())[id := Subscribed(old(View()), filter, qos)] else old(store.Sessions())
    {
      hide Queued, Ledger, Sum, Store.Valid, Store.Sessions, Store.Indexed, Levels.Split, Within, Slashes, Sound, PendingMessages, PendingBytes, Subscribed, Trace.Good;
      if deleted {
        return Gone;
      }
      Stored();
      if |filter| > store.limits.maxFilterBytes || Slashes(filter) >= store.limits.maxFilterLevels {
        Note(store.totals.(filterRejections := store.totals.filterRejections + 1));
        return FilterTooLarge;
      }
      if filter !in subscriptions {
        if |subscriptions| >= store.limits.maxSubscriptionsPerSession || store.totals.subscriptions >= store.limits.maxSubscriptionsGlobal {
          Note(store.totals.(subscriptionRejections := store.totals.subscriptionRejections + 1));
          return TooMany;
        }
      }
      Subscribe(filter, qos);
      return Granted;
    }

    method Subscribe(filter: bytes, qos: nat)
      requires store.Valid() && Handle() && !deleted
      requires filter in subscriptions
            || (|subscriptions| < store.limits.maxSubscriptionsPerSession && store.totals.subscriptions < store.limits.maxSubscriptionsGlobal)
      modifies this`subscriptions, store`totals
      ensures store.Valid() && store.Sessions() == old(store.Sessions())[id := Subscribed(old(View()), filter, qos)]
      ensures subscriptions == old(subscriptions)[filter := qos]
      ensures store.totals == old(store.totals).(subscriptions := old(store.totals.subscriptions) + Bit(filter !in old(subscriptions)))
    {
      hide Queued, Ledger, Sum, Store.Valid, Store.Sessions, Store.Indexed, Balanced, Within;
      Stored();
      SubscribeBooks(store.Sessions(), store.totals, store.limits, id, filter, qos);
      if filter !in subscriptions {
        store.totals := store.totals.(subscriptions := store.totals.subscriptions + 1);
      }
      subscriptions := subscriptions[filter := qos];
      StaysQueued(store.Window());
      store.Settle(this);
    }

    method DeleteSubscription(filter: bytes)
      requires store.Valid() && Handle()
      modifies this`subscriptions, store`totals
      ensures store.Valid() && Handle()
      ensures subscriptions == old(subscriptions) - {filter}
      ensures store.totals == old(store.totals).(subscriptions := old(store.totals.subscriptions) - Bit(filter in old(subscriptions)))
      ensures store.Sessions() == if deleted then old(store.Sessions()) else old(store.Sessions())[id := Unsubscribed(old(View()), filter)]
    {
      hide Queued, Ledger, Sum, Store.Valid, Store.Sessions, Store.Indexed, Balanced, Within;
      if deleted {
        assert filter !in subscriptions;
      } else {
        Stored();
      }
      if filter in subscriptions {
        UnsubscribeBooks(store.Sessions(), store.totals, store.limits, id, filter);
        subscriptions := subscriptions - {filter};
        store.totals := store.totals.(subscriptions := store.totals.subscriptions - 1);
        StaysQueued(store.Window());
        store.Settle(this);
      } else {
        assert subscriptions - {filter} == subscriptions;
        assert !deleted ==> store.Sessions()[id := Unsubscribed(View(), filter)] == store.Sessions();
      }
    }

    method MarkConnected()
      requires store.Valid() && Handle()
      modifies this`connected, this`offlineSince
      ensures store.Valid() && Handle()
      ensures store.Sessions() == if deleted then old(store.Sessions())
                                  else old(store.Sessions())[id := old(View()).(connected := true, offlineSince := None)]
    {
      hide Queued, Ledger, Sum, Store.Valid, Store.Sessions, Store.Indexed, Balanced, Within;
      if !deleted {
        Stored();
        KeepBooks(store.Sessions(), store.totals, store.limits, id, View().(connected := true, offlineSince := None));
        connected := true;
        offlineSince := None;
        StaysQueued(store.Window());
        store.Settle(this);
      }
    }

    method MarkDisconnectedAt(at: int)
      requires store.Valid() && Handle()
      modifies this`connected, this`offlineSince
      ensures store.Valid() && Handle()
      ensures store.Sessions() == if deleted || !old(connected) then old(store.Sessions())
                                  else old(store.Sessions())[id := old(View()).(connected := false, offlineSince := Some(at))]
    {
      hide Queued, Ledger, Sum, Store.Valid, Store.Sessions, Store.Indexed, Balanced, Within;
      if !deleted && connected {
        Stored();
        KeepBooks(store.Sessions(), store.totals, store.limits, id, View().(connected := false, offlineSince := Some(at)));
        connected := false;
        offlineSince := Some(at);
        StaysQueued(store.Window());
        store.Settle(this);
      }
    }

    /** What deletion does to the session itself. */
    method Clear()
      modifies this
      ensures deleted && Handle() && changed
    {
      deleted := true;
      entries := [];
      inflight := map[];
      subscriptions := map[];
      pendingMessages := 0;
      pendingBytes := 0;
      changed := true;
    }

    /** Only a counter of rejections changes. */
    method Note(t: Totals)
      requires store.Valid() && Handle() && !deleted
      requires t.pendingMessages == store.totals.pendingMessages && t.pendingBytes == store.totals.pendingBytes
      requires t.inflight == store.totals.inflight && t.subscriptions == store.totals.subscriptions
      modifies store`totals
      ensures store.Valid() && store.Sessions() == old(store.Sessions()) && store.totals == t
    {
      hide Queued, Ledger, Sum, Store.Valid, Store.Sessions, Store.Indexed, Balanced, Within;
      Stored();
      SameBooks(store.Sessions(), store.totals, t, store.limits);
      store.totals := t;
      StaysQueued(store.Window());
      assert old(store.Sessions())[id := View()] == old(store.Sessions());
      store.Settle(this);
    }

    /** What every run promises holds of all that has happened to a stored session. */
    lemma HistoryIsGood()
      requires store.Valid() && Handle() && !deleted
      ensures Trace.Good(Trace.History(queue, events), store.Window()) && Trace.Promised(Trace.History(queue, events))
    {
      hide Store.Valid, Store.Sessions, Trace.Good, Trace.Promised, Listed, Owned, Marked, Tabled, Counted, Sound, Ledger, Accepted,
           Balanced, Within, PendingMessages, PendingBytes;
      Stored();
      assert Chronicled(store.Window());
      Trace.GoodIsPromised(Trace.History(queue, events), store.Window());
    }

    /** What a stored session may rely on. */
    lemma Stored()
      requires store.Valid() && Handle() && !deleted
      ensures Queued(store.Window()) && store.Holds(this) && store.Indexed() && id in store.Sessions() && store.Sessions()[id] == View()
      ensures PendingMessages(View()) == pendingMessages && PendingBytes(View()) == pendingBytes
      ensures Ledger(store.Sessions(), store.totals, store.limits) && Accepted(store.limits)
      ensures Sound(queue, store.Window())
      ensures Balanced(store.Sessions(), store.totals) && Within(store.Sessions(), store.totals, store.limits)
    {
      hide Queued;
      assert store.Holds(this);
      CountersAreCosts(store.Window());
    }
  }

  class Store {
    var data: map<bytes, State>
    const limits: Limits
    var totals: Totals

    ghost function Window(): nat {
      if limits.maxInflightMessagesPerSession > 0 then limits.maxInflightMessagesPerSession else 0
    }

    ghost var live: set<State>

    ghost function Objects(): set<Entry>
      reads this, live
    {
      set s, e | s in live && e in s.own :: e
    }

    /** The stored sessions as values. */
    ghost function Sessions(): Sessions
      reads this, live
      requires Indexed()
    {
      map id | id in data :: data[id].View()
    }

    ghost predicate Indexed()
      reads this
    {
      && (forall id :: id in data ==> data[id] in live && data[id].id == id)
      && (forall s :: s in live ==> s.id in data && data[s.id] == s)
    }

    ghost predicate Holds(s: State)
      reads s, s.own
    {
      s.store == this && !s.deleted && s.Queued(Window())
    }

    /** Every stored session is in order, and the totals are exactly the sums over them and within
        the limits. */
    ghost predicate Valid()
      reads this, live, Objects()
    {
      Indexed() && (forall s :: s in live ==> Holds(s)) && Ledger(Sessions(), totals, limits)
    }

    /** When only `s` changed, the other sessions are as they were. */
    twostate lemma OthersStay(s: State)
      requires old(Valid()) && data == old(data) && live == old(live) && s in live
      requires forall t :: t in live && t != s ==> unchanged(t) && forall e :: e in t.own && e.home != s ==> unchanged(e)
      ensures Indexed() && Sessions() == old(Sessions())[s.id := s.View()]
      ensures forall t :: t in live && t != s ==> Holds(t)
    {
      hide Ledger, State.Queued;
      forall t | t in live && t != s ensures Holds(t) {
        assert old(Holds(t));
        t.OwnsItsOwn(Window());
        t.StaysQueued(Window());
      }
    }

    /** Nothing stored changed. */
    twostate lemma Untouched()
      requires old(Valid()) && data == old(data) && live == old(live) && totals == old(totals)
      requires forall t :: t in live ==> unchanged(t) && forall e :: e in t.own ==> unchanged(e)
      ensures Valid() && Sessions() == old(Sessions())
    {
      hide Ledger, State.Queued;
      assert Indexed() && Sessions() == old(Sessions());
      forall t | t in live ensures Holds(t) {
        assert old(Holds(t));
        t.StaysQueued(Window());
      }
      assert old(Ledger(Sessions(), totals, limits));
    }

    /** A deleted session no longer matters to the store. */
    twostate lemma Detached(s: State)
      requires old(Valid()) && data == old(data) && live == old(live) && totals == old(totals) && old(s.deleted)
      requires forall t :: t in live && t != s ==> unchanged(t) && forall e :: e in t.own ==> unchanged(e)
      ensures Valid() && Sessions() == old(Sessions())
    {
      hide Ledger, State.Queued;
      assert s in live ==> old(Holds(s));
      Untouched();
    }

    /** Once the changed session and the books are in order, so is the store. */
    twostate lemma Settle(s: State)
      requires old(Valid()) && data == old(data) && live == old(live) && s in live && Holds(s)
      requires forall t :: t in live && t != s ==> unchanged(t) && forall e :: e in t.own && e.home != s ==> unchanged(e)
      requires Ledger(old(Sessions())[s.id := s.View()], totals, limits)
      ensures Valid() && Sessions() == old(Sessions())[s.id := s.View()]
    {
      hide State.Queued, Ledger;
      OthersStay(s);
    }

    // ----- Operations

    constructor (limits: Limits)
      requires Accepted(limits)
      ensures this.limits == limits && totals == NO_TOTALS && Valid() && Sessions() == map[]
    {
      this.limits := limits;
      data := map[];
      totals := NO_TOTALS;
      live := {};
      new;
      EmptyLedger(limits);
      assert Sessions() == map[];
    }

    method Get(id: bytes) returns (s: Option<State>)
      requires Valid()
      ensures s == if id in data then Some(data[id]) else None
      ensures s.Some? <==> id in Sessions()
      ensures s.Some? ==> s.value.Handle() && !s.value.deleted && s.value.store == this && s.value in live && s.value.id == id
    {
      hide State.Queued, Ledger;
      if id in data {
        assert Holds(data[id]);
        return Some(data[id]);
      }
      return None;
    }

    /** The session of a client identifier, for its owner alone; a new one if there is room. */
    method GetOrCreateOwned(id: bytes, owner: bytes, now: int) returns (r: Opened)
      requires Valid()
      modifies this
      ensures Valid() && (r.WrongOwner? <==> id in old(Sessions()) && old(Sessions())[id].owner != owner)
      ensures r.NoRoom? <==> id !in old(Sessions()) && |old(Sessions())| + 1 > limits.maxSessions
      ensures r.Opened? ==> r.existed == (id in old(Sessions()))
      ensures totals == old(totals).(sessionRejections := old(totals.sessionRejections) + Bit(r.NoRoom?))
      ensures Sessions() == if r.Opened? && !r.existed then old(Sessions())[id := Session(owner, EMPTY, map[], false, Some(now))] else old(Sessions())
      ensures r.Opened? ==> r.state.Handle() && !r.state.deleted && r.state.store == this && r.state.id == id
      ensures r.Opened? ==> r.state.owner == owner && (r.existed ==> r.state == old(data)[id])
      ensures r.Opened? && !r.existed ==>
        && fresh(r.state) && r.state.Blank() && r.state.subscriptions == map[] && !r.state.connected && r.state.offlineSince == Some(now)
    {
      hide State.Queued, Ledger, State.Owned;
      assert Sessions().Keys == data.Keys;
      if id in data {
        var state := data[id];
        assert Holds(state);
        return if state.owner != owner then WrongOwner else Opened(state, true);
      }
      if |data| >= limits.maxSessions {
        SameBooks(Sessions(), totals, totals.(sessionRejections := totals.sessionRejections + 1), limits);
        totals := totals.(sessionRejections := totals.sessionRejections + 1);
        Recounted();
        return NoRoom;
      }
      AtHome();
      InsertKeeps(Sessions(), totals, limits, id, Session(owner, EMPTY, map[], false, Some(now)));
      var state := new State(this, id, owner, now);
      data := data[id := state];
      live := live + {state};
      state.BlankIsQueued(Window());
      Inserted(state);
      return Opened(state, false);
    }

    /** Only counters changed. */
    twostate lemma Recounted()
      requires old(Valid()) && data == old(data) && live == old(live)
      requires forall t :: t in live ==> unchanged(t) && forall e :: e in t.own ==> unchanged(e)
      requires Ledger(old(Sessions()), totals, limits)
      ensures Valid() && Sessions() == old(Sessions())
    {
      hide Ledger, State.Queued;
      assert Indexed() && Sessions() == old(Sessions());
      forall t | t in live ensures Holds(t) {
        assert old(Holds(t));
        t.StaysQueued(Window());
      }
    }

    twostate lemma Inserted(new s: State)
      requires old(Valid()) && s !in old(live) && live == old(live) + {s} && s.id !in old(data) && data == old(data)[s.id := s] && Holds(s)
      requires forall t :: t in old(live) ==> unchanged(t) && forall e :: e in t.own ==> unchanged(e)
      requires Ledger(old(Sessions())[s.id := s.View()], totals, limits)
      ensures Valid() && Sessions() == old(Sessions())[s.id := s.View()]
    {
      hide Ledger, State.Queued;
      assert Indexed() && Sessions() == old(Sessions())[s.id := s.View()];
      forall t | t in old(live) ensures Holds(t) {
        assert old(Holds(t));
        t.StaysQueued(Window());
      }
    }

    /** Forget a session and give back exactly what it cost. */
    method Delete(id: bytes)
      requires Valid()
      modifies this, if id in data then {data[id]} else {}
      ensures Valid() && data == old(data) - {id} && Sessions() == old(Sessions()) - {id}
      ensures live == if id in old(data) then old(live) - {old(data[id])} else old(live)
      ensures id in old(data) ==> old(data[id]).deleted && old(data[id]).Handle() && old(data[id]).changed
      ensures id !in old(data) ==> totals == old(totals)
      ensures id in old(data) ==>
        totals == old(totals).(pendingMessages := old(totals.pendingMessages) - old(data[id].pendingMessages),
                               pendingBytes := old(totals.pendingBytes) - old(data[id].pendingBytes),
                               inflight := old(totals.inflight) - |old(data[id].inflight)|,
                               subscriptions := old(totals.subscriptions) - |old(data[id].subscriptions)|)
    {
      hide State.Queued, Ledger, Release, Valid, Sessions, Indexed, Balanced, Within, Sound, PendingMessages, PendingBytes, Inflight, Accepted, Trace.Good;
      AtHome();
      if id !in data {
        assert data - {id} == data && Sessions() - {id} == Sessions();
        return;
      }
      var state := data[id];
      state.Stored();
      state.TableIsInflight(Window());
      RemoveKeeps(Sessions(), totals, limits, id);
      ReleaseIs(totals, state.View());
      totals := totals.(pendingMessages := totals.pendingMessages - state.pendingMessages, pendingBytes := totals.pendingBytes - state.pendingBytes,
                        inflight := totals.inflight - |state.inflight|, subscriptions := totals.subscriptions - |state.subscriptions|);
      state.Clear();
      data := data - {id};
      live := live - {state};
      Withdrawn(state);
    }

    lemma AtHome()
      requires Valid()
      ensures Indexed() && Accepted(limits) && Window() <= MAX_UINT16 && Sessions().Keys == data.Keys
      ensures Ledger(Sessions(), totals, limits)
      ensures forall id :: id in data ==> data[id].store == this && data[id].id == id && !data[id].deleted && data[id] in live && data[id].Handle()
    {
      hide State.Queued;
      assert forall id :: id in data ==> Holds(data[id]);
    }

    twostate lemma Withdrawn(s: State)
      requires old(Valid()) && s in old(live) && live == old(live) - {s} && data == old(data) - {s.id}
      requires forall t :: t in live ==> unchanged(t) && forall e :: e in t.own ==> unchanged(e)
      requires Ledger(old(Sessions()) - {s.id}, totals, limits)
      ensures Valid() && Sessions() == old(Sessions()) - {s.id}
    {
      hide Ledger, State.Queued;
      assert Indexed() && Sessions() == old(Sessions()) - {s.id};
      forall t | t in live ensures Holds(t) {
        assert old(Holds(t));
        t.StaysQueued(Window());
      }
    }

    /** Delete a session that has been offline for the whole time to live. */
    method ExpireSession(id: bytes, now: int) returns (expired: bool)
      requires Valid()
      modifies this, if id in data then {data[id]} else {}
      ensures Valid()
      ensures expired <==>
                && id in old(Sessions()) && limits.offlineTTL > 0 && !old(Sessions())[id].connected
                && old(Sessions())[id].offlineSince.Some? && now >= old(Sessions())[id].offlineSince.value + limits.offlineTTL
      ensures Sessions() == if expired then old(Sessions()) - {id} else old(Sessions())
      ensures data == (if expired then old(data) - {id} else old(data))
      ensures live == (if expired then old(live) - {old(data[id])} else old(live))
      ensures expired ==> old(data[id]).deleted
      ensures totals.expiredSessions == old(totals.expiredSessions) + Bit(expired)
    {
      hide State.Queued, Ledger, Valid, Indexed, State.Handle, Trace.Good, Sessions;
      AtHome();
      if id !in data {
        return false;
      }
      var state := data[id];
      Shown(id);
      if limits.offlineTTL == 0 || state.connected || state.offlineSince.None? || now - state.offlineSince.value < limits.offlineTTL {
        return false;
      }
      Delete(id);
      CountExpired();
      return true;
    }

    lemma Shown(id: bytes)
      requires Valid() && id in data
      ensures Indexed() && Sessions()[id] == data[id].View()
    {
      hide State.Queued, Ledger;
    }

    method CountExpired()
      requires Valid()
      modifies this`totals
      ensures Valid() && Sessions() == old(Sessions()) && totals == old(totals).(expiredSessions := old(totals.expiredSessions) + 1)
    {
      hide State.Queued, Ledger;
      SameBooks(Sessions(), totals, totals.(expiredSessions := totals.expiredSessions + 1), limits);
      totals := totals.(expiredSessions := totals.expiredSessions + 1);
      Recounted();
    }

    /** Delete exactly the sessions whose time to live has passed, and say which. */
    method Expire(now: int) returns (expired: seq<bytes>)
      requires Valid()
      modifies this, live
      ensures Valid()
      ensures forall id :: id in expired <==>
                && id in old(Sessions()) && limits.offlineTTL > 0 && !old(Sessions())[id].connected
                && old(Sessions())[id].offlineSince.Some? && now >= old(Sessions())[id].offlineSince.value + limits.offlineTTL
      ensures forall i, j :: 0 <= i < j < |expired| ==> expired[i] != expired[j]
      ensures totals.expiredSessions == old(totals.expiredSessions) + |expired|
      ensures forall id :: id in Sessions() <==> id in old(Sessions()) && id !in expired
      ensures forall id :: id in Sessions() ==> Sessions()[id] == old(Sessions())[id]
    {
      hide State.Queued, Ledger, Holds, Valid, Sessions, Swept, Expired;
      AtHome();
      ghost var before := Sessions();
      expired := [];
      if limits.offlineTTL == 0 {
        return;
      }
      var left := data.Keys;
      SweepStarts(before, now, limits);
      while left != {}
        invariant Valid() && Indexed() && live <= old(live) && left <= data.Keys
        invariant Swept(before, Sessions(), left, expired, now, limits) && totals.expiredSessions == old(totals.expiredSessions) + |expired|
        decreases left
      {
        var id :| id in left;
        SweepStep(before, Sessions(), left, expired, id, now, limits);
        left := left - {id};
        ExpiredMeans(before[id], now, limits);
        var gone := ExpireSession(id, now);
        AtHome();
        if gone {
          expired := expired + [id];
        }
      }
      SweepEnds(before, Sessions(), expired, now, limits);
      forall id | id in before
        ensures Expired(before[id], now, limits) <==>
                  && limits.offlineTTL > 0 && !before[id].connected
                  && before[id].offlineSince.Some? && now >= before[id].offlineSince.value + limits.offlineTTL
      {
        ExpiredMeans(before[id], now, limits);
      }
    }
  }

  datatype Opened = Opened(state: State, existed: bool) | WrongOwner | NoRoom

  method NewWithLimits(limits: Limits) returns (s: Option<Store>)
    ensures s.Some? <==> Accepted(limits)
    ensures s.Some? ==> s.value.limits == limits && s.value.Valid() && s.value.Sessions() == map[]
  {
    var ok := Validate(limits);
    if !ok {
      return None;
    }
    var store := new Store(limits);
    return Some(store);
  }
}
