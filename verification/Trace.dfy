/** Whole runs of a session's delivery queue and what they promise (sections 4.4 and 4.6 of
    MQTT 3.1.1): order, replay and release of messages. */
module Trace {
  import opened Bytes
  import opened Delivery

  datatype Op =
    | Admitting(data: bytes, offset: nat)
    | Beginning
    | Pausing
    | Resuming
    | Sending(epoch: nat)
    | Acking(id: nat)

  datatype Event =
    | Accepted(message: Message)
    | Sent(message: Message, id: nat, dup: bool, epoch: nat)
    | Released(message: Message, id: nat)

  /** A queue and everything that happened to it. */
  datatype History = History(q: Queue, events: seq<Event>)

  ghost function Step(h: History, op: Op, window: nat): History {
    var q := h.q;
    match op
    case Admitting(data, offset) => History(Admit(q, data, offset), h.events + [Accepted(Message(q.admitted, data, offset))])
    case Beginning => History(Begin(q), h.events)
    case Pausing => History(q.(paused := true), h.events)
    case Resuming => History(q.(paused := false), h.events)
    case Sending(epoch) =>
      if epoch == q.epoch && CanSend(q, window) then
        var (f, again) := Upcoming(q);
        History(Send(q), h.events + [Sent(f.message, f.id, again, q.epoch)])
      else h
    case Acking(id) =>
      if InFlight(q, id) then
        History(Ack(q, id), h.events + [Released(Flights(q)[IndexOf(Flights(q), id)].message, id)])
      else h
  }

  ghost function Run(ops: seq<Op>, window: nat): History {
    if ops == [] then History(EMPTY, []) else Step(Run(ops[..|ops| - 1], window), ops[|ops| - 1], window)
  }

  // ----- Reading a history

  function Admissions(es: seq<Event>): seq<Message> {
    if es == [] then []
    else
      var e := es[|es| - 1];
      Admissions(es[..|es| - 1]) + if e.Accepted? then [e.message] else []
  }

  /** The messages sent with DUP=0. */
  function FirstSends(es: seq<Event>): seq<Message> {
    if es == [] then []
    else
      var e := es[|es| - 1];
      FirstSends(es[..|es| - 1]) + if e.Sent? && !e.dup then [e.message] else []
  }

  /** Some event before `end` first sent `message` under `id`, in an epoch before `epoch`. */
  ghost predicate FirstSentBefore(es: seq<Event>, end: nat, message: Message, id: nat, epoch: nat)
    requires end <= |es|
  {
    exists i :: 0 <= i < end && es[i].Sent? && es[i].message == message && es[i].id == id && !es[i].dup && es[i].epoch < epoch
  }

  ghost predicate ReleasedIn(es: seq<Event>, number: nat) {
    exists i :: 0 <= i < |es| && es[i].Released? && es[i].message.number == number
  }

  ghost predicate Carried(fs: seq<Flight>, number: nat) {
    exists i :: 0 <= i < |fs| && fs[i].message.number == number
  }

  ghost predicate Holds(q: Queue, number: nat) {
    Carried(Flights(q), number)
  }

  // ----- The invariant of histories

  function Started(q: Queue): int {
    q.admitted - |q.unsent|
  }

  /** Messages are numbered as they stand. */
  ghost predicate InOrder(ms: seq<Message>) {
    forall i :: 0 <= i < |ms| ==> ms[i].number == i
  }

  /** First sends and what was never sent together are what was accepted. */
  ghost predicate Counted(h: History) {
    var a := Admissions(h.events);
    && 0 <= Started(h.q) && |a| == h.q.admitted && InOrder(a)
    && FirstSends(h.events) == a[..Started(h.q)] && h.q.unsent == a[Started(h.q)..]
  }

  /** Within an epoch messages go out in order of acceptance, replays before first sends. */
  ghost predicate Ordered(es: seq<Event>) {
    forall i, j :: 0 <= i < j < |es| && es[i].Sent? && es[j].Sent? && es[i].epoch == es[j].epoch ==>
      es[i].message.number < es[j].message.number && (es[j].dup ==> es[i].dup)
  }

  /** Nothing that still waits in this epoch comes before what was already sent in it. */
  ghost predicate Ahead(h: History) {
    forall i :: 0 <= i < |h.events| && h.events[i].Sent? ==>
      && h.events[i].epoch <= h.q.epoch && h.events[i].message.number < Started(h.q)
      && (h.events[i].epoch == h.q.epoch ==>
            && (forall k :: 0 <= k < |h.q.replay| ==> h.events[i].message.number < h.q.replay[k].message.number)
            && (h.events[i].dup || h.q.replay == []))
  }

  /** Every replay repeats an earlier first send under the same identifier. */
  ghost predicate Repeats(es: seq<Event>) {
    forall j :: 0 <= j < |es| && es[j].Sent? && es[j].dup ==>
      FirstSentBefore(es, j, es[j].message, es[j].id, es[j].epoch)
  }

  /** Everything in flight was first sent under its identifier: in an earlier epoch if it waits for
      replay. */
  ghost predicate Backed(h: History) {
    forall k :: 0 <= k < |Flights(h.q)| ==>
      var f := Flights(h.q)[k];
      FirstSentBefore(h.events, |h.events|, f.message, f.id, if k < |h.q.active| then h.q.epoch + 1 else h.q.epoch)
  }

  /** Messages leave only by acknowledgement of the identifier they were sent under, once. */
  ghost predicate Discharged(h: History) {
    && (forall j :: 0 <= j < |h.events| && h.events[j].Released? ==>
          exists i :: 0 <= i < j && h.events[i].Sent? && h.events[i].message == h.events[j].message && h.events[i].id == h.events[j].id)
    && (forall i, j :: 0 <= i < j < |h.events| && h.events[i].Released? && h.events[j].Released? ==>
          h.events[i].message.number != h.events[j].message.number)
    && (forall n: nat :: n < Started(h.q) ==> (Holds(h.q, n) <==> !ReleasedIn(h.events, n)))
  }

  ghost predicate Good(h: History, window: nat) {
    Sound(h.q, window) && Counted(h) && Ordered(h.events) && Ahead(h) && Repeats(h.events) && Backed(h) && Discharged(h)
  }

  // ----- Facts about longer histories

  lemma ReadNext(es: seq<Event>, e: Event)
    ensures Admissions(es + [e]) == Admissions(es) + if e.Accepted? then [e.message] else []
    ensures FirstSends(es + [e]) == FirstSends(es) + if e.Sent? && !e.dup then [e.message] else []
  {
    assert (es + [e])[..|es|] == es;
  }

  lemma FirstSentStays(es: seq<Event>, e: Event, end: nat, message: Message, id: nat, epoch: nat, later: nat)
    requires end <= |es| && FirstSentBefore(es, end, message, id, epoch) && epoch <= later
    ensures FirstSentBefore(es + [e], end, message, id, later) && FirstSentBefore(es + [e], |es| + 1, message, id, later)
  {
    var i :| 0 <= i < end && es[i].Sent? && es[i].message == message && es[i].id == id && !es[i].dup && es[i].epoch < epoch;
    assert (es + [e])[i] == es[i];
  }

  lemma RepeatsNext(es: seq<Event>, e: Event)
    requires Repeats(es) && (e.Sent? && e.dup ==> FirstSentBefore(es, |es|, e.message, e.id, e.epoch))
    ensures Repeats(es + [e])
  {
    var all := es + [e];
    forall j | 0 <= j < |all| && all[j].Sent? && all[j].dup ensures FirstSentBefore(all, j, all[j].message, all[j].id, all[j].epoch) {
      FirstSentStays(es, e, j, all[j].message, all[j].id, all[j].epoch, all[j].epoch);
    }
  }

  lemma ReleasedNext(es: seq<Event>, e: Event, n: nat)
    ensures ReleasedIn(es + [e], n) <==> ReleasedIn(es, n) || (e.Released? && e.message.number == n)
  {
    var all := es + [e];
    if ReleasedIn(es, n) {
      var i :| 0 <= i < |es| && es[i].Released? && es[i].message.number == n;
      assert all[i] == es[i];
    }
    if e.Released? && e.message.number == n {
      assert all[|es|] == e;
    }
  }

  /** A number that was never sent was never released. */
  lemma NotReleasedYet(h: History, n: nat)
    requires Ahead(h) && Discharged(h) && Started(h.q) <= n
    ensures !ReleasedIn(h.events, n)
  {
  }

  // ----- Every operation keeps the invariant

  lemma AdmitKeeps(h: History, data: bytes, offset: nat, window: nat)
    requires Good(h, window)
    ensures Good(Step(h, Admitting(data, offset), window), window)
  {
    hide FirstSentBefore, ReleasedIn, Admissions, FirstSends, Discharged, Backed, Repeats;
    var e := Accepted(Message(h.q.admitted, data, offset));
    var h' := Step(h, Admitting(data, offset), window);
    ReadNext(h.events, e);
    RepeatsNext(h.events, e);
    assert Flights(h'.q) == Flights(h.q) && Started(h'.q) == Started(h.q);
    BackedNext(h, h', e);
    UnreleasedNext(h, h', e);
  }

  /** Flights that stay where they are, or move from replay to active, stay backed. */
  lemma BackedNext(h: History, h': History, e: Event)
    requires Backed(h) && h'.events == h.events + [e] && Flights(h'.q) == Flights(h.q)
    requires |h.q.active| <= |h'.q.active| && h'.q.epoch == h.q.epoch
    ensures Backed(h')
  {
    hide FirstSentBefore;
    forall k | 0 <= k < |Flights(h'.q)|
      ensures var f := Flights(h'.q)[k];
              FirstSentBefore(h'.events, |h'.events|, f.message, f.id, if k < |h'.q.active| then h'.q.epoch + 1 else h'.q.epoch)
    {
      var f := Flights(h.q)[k];
      FirstSentStays(h.events, e, |h.events|, f.message, f.id,
                     if k < |h.q.active| then h.q.epoch + 1 else h.q.epoch,
                     if k < |h'.q.active| then h'.q.epoch + 1 else h'.q.epoch);
    }
  }

  lemma DischargedNext(h: History, h': History, e: Event)
    requires Discharged(h) && h'.events == h.events + [e]
    requires e.Released? ==>
      && (exists i :: 0 <= i < |h.events| && h.events[i].Sent? && h.events[i].message == e.message && h.events[i].id == e.id)
      && !ReleasedIn(h.events, e.message.number)
    requires forall n: nat :: n < Started(h'.q) ==> (Holds(h'.q, n) <==> !ReleasedIn(h'.events, n))
    ensures Discharged(h')
  {
    var es, all := h.events, h'.events;
    forall j | 0 <= j < |all| && all[j].Released?
      ensures exists i :: 0 <= i < j && all[i].Sent? && all[i].message == all[j].message && all[i].id == all[j].id
    {
      var i :| 0 <= i < j && es[i].Sent? && es[i].message == all[j].message && es[i].id == all[j].id;
      assert all[i] == es[i];
    }
    forall i, j | 0 <= i < j < |all| && all[i].Released? && all[j].Released? ensures all[i].message.number != all[j].message.number {
      assert es[i] == all[i];
      if j < |es| {
        assert es[j] == all[j];
      } else {
        assert e == all[j];
        assert all[i].message.number == e.message.number ==> ReleasedIn(es, e.message.number);
      }
    }
  }

  lemma BeginKeeps(h: History, window: nat)
    requires Good(h, window)
    ensures Good(Step(h, Beginning, window), window)
  {
    hide Admissions, FirstSends, Ordered, Repeats, Sound;
    var h' := Step(h, Beginning, window);
    BeginStaysSound(h.q, window);
    assert Flights(h'.q) == Flights(h.q);
    forall k | 0 <= k < |Flights(h'.q)|
      ensures var f := Flights(h'.q)[k]; FirstSentBefore(h'.events, |h'.events|, f.message, f.id, h'.q.epoch)
    {
      var f := Flights(h.q)[k];
      assert FirstSentBefore(h.events, |h.events|, f.message, f.id, if k < |h.q.active| then h.q.epoch + 1 else h.q.epoch);
    }
    assert forall n: nat :: Holds(h'.q, n) == Holds(h.q, n);
  }

  lemma ReplayKeeps(h: History, window: nat)
    requires Good(h, window) && CanSend(h.q, window) && h.q.replay != []
    ensures Good(Step(h, Sending(h.q.epoch), window), window)
  {
    hide FirstSentBefore, ReleasedIn, Admissions, FirstSends, Backed, Repeats, Ordered, Ahead, Discharged, Sound;
    var h' := Step(h, Sending(h.q.epoch), window);
    var f := h.q.replay[0];
    var e := Sent(f.message, f.id, true, h.q.epoch);
    SendStaysSound(h.q, window);
    FlightsAfterReplay(h.q);
    ReadNext(h.events, e);
    BackedNext(h, h', e);
    ReplayIsBacked(h);
    RepeatsNext(h.events, e);
    OrderedNext(h, e);
    ReplayAhead(h, h', e, window);
    UnreleasedNext(h, h', e);
  }

  /** An event that is no release and leaves the flights as they are leaves nothing undischarged. */
  lemma UnreleasedNext(h: History, h': History, e: Event)
    requires Discharged(h) && h'.events == h.events + [e] && !e.Released?
    requires Flights(h'.q) == Flights(h.q) && Started(h'.q) == Started(h.q)
    ensures Discharged(h')
  {
    hide ReleasedIn;
    forall n: nat ensures Holds(h'.q, n) == Holds(h.q, n) && ReleasedIn(h'.events, n) == ReleasedIn(h.events, n) {
      ReleasedNext(h.events, e, n);
    }
    DischargedNext(h, h', e);
  }

  lemma OrderedNext(h: History, e: Event)
    requires Ordered(h.events) && Ahead(h)
    requires e.Sent? ==> e.epoch == h.q.epoch && if e.dup then h.q.replay != [] && e.message.number == h.q.replay[0].message.number else e.message.number == Started(h.q)
    ensures Ordered(h.events + [e])
  {
    var es, all := h.events, h.events + [e];
    forall i, j | 0 <= i < j < |all| && all[i].Sent? && all[j].Sent? && all[i].epoch == all[j].epoch
      ensures all[i].message.number < all[j].message.number && (all[j].dup ==> all[i].dup)
    {
      assert all[i] == es[i];
      if j < |es| {
        assert all[j] == es[j];
      } else {
        assert all[j] == e;
      }
    }
  }

  lemma ReplayAhead(h: History, h': History, e: Event, window: nat)
    requires Sound(h.q, window) && Ahead(h) && h.q.replay != [] && h'.q == Send(h.q) && h'.events == h.events + [e]
    requires e == Sent(h.q.replay[0].message, h.q.replay[0].id, true, h.q.epoch)
    ensures Ahead(h')
  {
    var fs, base := Flights(h.q), |h.q.active|;
    assert fs[base] == h.q.replay[0];
    forall k | 0 <= k < |h'.q.replay| ensures e.message.number < h'.q.replay[k].message.number {
      assert h'.q.replay[k] == fs[base + 1 + k];
    }
    forall i | 0 <= i < |h'.events| && h'.events[i].Sent?
      ensures h'.events[i].message.number < Started(h'.q)
      ensures h'.events[i].epoch == h'.q.epoch ==> forall k :: 0 <= k < |h'.q.replay| ==> h'.events[i].message.number < h'.q.replay[k].message.number
    {
      if i < |h.events| {
        assert h'.events[i] == h.events[i];
        assert forall k :: 0 <= k < |h'.q.replay| ==> h'.q.replay[k] == h.q.replay[k + 1];
      }
    }
  }

  lemma ReplayIsBacked(h: History)
    requires Backed(h) && h.q.replay != []
    ensures var f := h.q.replay[0]; FirstSentBefore(h.events, |h.events|, f.message, f.id, h.q.epoch)
  {
    hide FirstSentBefore;
    assert Flights(h.q)[|h.q.active|] == h.q.replay[0];
  }

  lemma FirstSendKeeps(h: History, window: nat)
    requires Good(h, window) && CanSend(h.q, window) && h.q.replay == []
    ensures Good(Step(h, Sending(h.q.epoch), window), window)
  {
    hide Sound, Counted, Ordered, Ahead, Repeats, Backed, Discharged, FirstSentBefore, NextID, Flights;
    var h' := Step(h, Sending(h.q.epoch), window);
    var f := Upcoming(h.q).0;
    var e := Sent(f.message, f.id, false, h.q.epoch);
    SendStaysSound(h.q, window);
    FirstSendCounted(h, h', e);
    RepeatsNext(h.events, e);
    OrderedNext(h, e);
    FirstSendAhead(h, h', e);
    FirstSendBacked(h, h', e, f);
    FirstSendDischarged(h, h', e, f);
  }

  lemma FirstSendCounted(h: History, h': History, e: Event)
    requires Counted(h) && h.q.unsent != [] && h'.q.admitted == h.q.admitted && h'.q.unsent == h.q.unsent[1..]
    requires e.Sent? && !e.dup && e.message == h.q.unsent[0] && h'.events == h.events + [e]
    ensures Counted(h') && e.message.number == Started(h.q)
  {
    hide Admissions, FirstSends;
    ReadNext(h.events, e);
    var a, n := Admissions(h.events), Started(h.q);
    assert a[n] == e.message && a[..n + 1] == a[..n] + [a[n]];
  }

  lemma FirstSendAhead(h: History, h': History, e: Event)
    requires Ahead(h) && h.q.unsent != [] && h.q.replay == [] && h'.q.replay == [] && h'.q.epoch == h.q.epoch
    requires h'.q.admitted == h.q.admitted && h'.q.unsent == h.q.unsent[1..] && h'.events == h.events + [e]
    requires e.Sent? && !e.dup && e.epoch == h.q.epoch && e.message.number == Started(h.q)
    ensures Ahead(h')
  {
    forall i | 0 <= i < |h'.events| && h'.events[i].Sent?
      ensures h'.events[i].epoch <= h'.q.epoch && h'.events[i].message.number < Started(h'.q)
    {
      if i < |h.events| {
        assert h'.events[i] == h.events[i];
      }
    }
  }

  lemma FirstSendDischarged(h: History, h': History, e: Event, f: Flight)
    requires Ahead(h) && Discharged(h) && h.q.replay == [] && h'.q.replay == [] && h'.q.active == h.q.active + [f]
    requires h'.events == h.events + [e] && e.Sent? && f.message.number == Started(h.q) && Started(h'.q) == Started(h.q) + 1
    ensures Discharged(h')
  {
    hide ReleasedIn, Holds;
    NotReleasedYet(h, f.message.number);
    assert Flights(h'.q) == Flights(h.q) + [f];
    forall n: nat | n < Started(h'.q) ensures Holds(h'.q, n) <==> !ReleasedIn(h'.events, n) {
      ReleasedNext(h.events, e, n);
      HoldsNext(h.q, h'.q, f, n);
    }
    DischargedNext(h, h', e);
  }

  lemma HoldsNext(q: Queue, q': Queue, f: Flight, n: nat)
    requires Flights(q') == Flights(q) + [f]
    ensures Holds(q', n) <==> Holds(q, n) || n == f.message.number
  {
    if Holds(q, n) {
      var i :| 0 <= i < |Flights(q)| && Flights(q)[i].message.number == n;
      assert Flights(q')[i] == Flights(q)[i];
    }
    if n == f.message.number {
      assert Flights(q')[|Flights(q)|] == f;
    }
  }

  lemma FirstSendBacked(h: History, h': History, e: Event, f: Flight)
    requires Backed(h) && h.q.replay == [] && h'.events == h.events + [e] && h'.q.epoch == h.q.epoch
    requires h'.q.replay == [] && h'.q.active == h.q.active + [f] && e == Sent(f.message, f.id, false, h.q.epoch)
    ensures Backed(h')
  {
    forall k | 0 <= k < |Flights(h'.q)|
      ensures var g := Flights(h'.q)[k]; FirstSentBefore(h'.events, |h'.events|, g.message, g.id, h.q.epoch + 1)
    {
      if k < |h.q.active| {
        var g := Flights(h.q)[k];
        assert g == Flights(h'.q)[k];
        FirstSentStays(h.events, e, |h.events|, g.message, g.id, h.q.epoch + 1, h.q.epoch + 1);
      } else {
        assert Flights(h'.q)[k] == f && h'.events[|h.events|] == e;
      }
    }
  }

  lemma AckKeeps(h: History, id: nat, window: nat)
    requires Good(h, window) && InFlight(h.q, id)
    ensures Good(Step(h, Acking(id), window), window)
  {
    hide Sound, Ordered, Ahead, Repeats, Backed, Discharged, Admissions, FirstSends, FirstSentBefore, Drop, IndexOf;
    var h' := Step(h, Acking(id), window);
    var e := Released(Flights(h.q)[IndexOf(Flights(h.q), id)].message, id);
    AckStaysSound(h.q, id, window);
    ReadNext(h.events, e);
    RepeatsNext(h.events, e);
    AckBacked(h, h', e, id);
    OrderedNext(h, e);
    AckAhead(h, h', e, id);
    AckDischarged(h, h', e, id, window);
  }

  lemma AckDischarged(h: History, h': History, e: Event, id: nat, window: nat)
    requires Sound(h.q, window) && Backed(h) && Discharged(h) && InFlight(h.q, id)
    requires h'.q == Ack(h.q, id) && h'.events == h.events + [e]
    requires e == Released(Flights(h.q)[IndexOf(Flights(h.q), id)].message, id)
    ensures Discharged(h')
  {
    var k := IndexOf(Flights(h.q), id);
    var f := Flights(h.q)[k];
    FlightsAfterAck(h.q, id);
    assert FirstSentBefore(h.events, |h.events|, f.message, f.id, if k < |h.q.active| then h.q.epoch + 1 else h.q.epoch);
    hide Backed, Drop;
    assert Started(h'.q) == Started(h.q);
    assert Holds(h.q, f.message.number) && f.message.number < Started(h.q);
    forall n: nat | n < Started(h'.q) ensures Holds(h'.q, n) <==> !ReleasedIn(h'.events, n) {
      hide FirstSentBefore, Holds, ReleasedIn;
      ReleasedNext(h.events, e, n);
      HoldsAfterDrop(h.q, h'.q, k, n, window);
    }
    DischargedNext(h, h', e);
  }

  lemma AckAhead(h: History, h': History, e: Event, id: nat)
    requires Ahead(h) && InFlight(h.q, id) && h'.q == Ack(h.q, id) && h'.events == h.events + [e] && e.Released?
    ensures Ahead(h')
  {
    var k := IndexOf(Flights(h.q), id) - |h.q.active|;
    forall i | 0 <= i < |h'.q.replay| ensures exists j :: 0 <= j < |h.q.replay| && h.q.replay[j] == h'.q.replay[i] {
      assert h.q.replay[if k < 0 || i < k then i else i + 1] == h'.q.replay[i];
    }
    forall i | 0 <= i < |h'.events| && h'.events[i].Sent? && h'.events[i].epoch == h'.q.epoch
      ensures forall m :: 0 <= m < |h'.q.replay| ==> h'.events[i].message.number < h'.q.replay[m].message.number
    {
      assert h'.events[i] == h.events[i];
    }
  }

  lemma HoldsAfterDrop(q: Queue, q': Queue, k: nat, n: nat, window: nat)
    requires Sound(q, window) && k < |Flights(q)| && Flights(q') == Drop(Flights(q), k)
    ensures Holds(q', n) <==> Holds(q, n) && n != Flights(q)[k].message.number
  {
    hide Flights, Drop;
    assert Numbered(Flights(q), q.admitted - |q.unsent|);
    DropShape(Flights(q), k);
    if Holds(q', n) {
      DroppedGoes(Flights(q), Flights(q'), k, n, q.admitted - |q.unsent|);
    }
    if Holds(q, n) && n != Flights(q)[k].message.number {
      DroppedStays(Flights(q), Flights(q'), k, n);
    }
  }

  lemma DroppedStays(fs: seq<Flight>, gs: seq<Flight>, k: nat, n: nat)
    requires k < |fs| && |gs| == |fs| - 1 && Carried(fs, n) && n != fs[k].message.number
    requires (forall i :: 0 <= i < k ==> gs[i] == fs[i]) && (forall i :: k <= i < |gs| ==> gs[i] == fs[i + 1])
    ensures Carried(gs, n)
  {
    var i :| 0 <= i < |fs| && fs[i].message.number == n;
    assert gs[if i < k then i else i - 1] == fs[i];
  }

  lemma DroppedGoes(fs: seq<Flight>, gs: seq<Flight>, k: nat, n: nat, bound: int)
    requires k < |fs| && |gs| == |fs| - 1 && Carried(gs, n) && Numbered(fs, bound)
    requires (forall i :: 0 <= i < k ==> gs[i] == fs[i]) && (forall i :: k <= i < |gs| ==> gs[i] == fs[i + 1])
    ensures Carried(fs, n) && n != fs[k].message.number
  {
    var i :| 0 <= i < |gs| && gs[i].message.number == n;
    var j := if i < k then i else i + 1;
    assert fs[j] == gs[i] && j != k;
  }

  lemma AckBacked(h: History, h': History, e: Event, id: nat)
    requires Backed(h) && InFlight(h.q, id) && h'.q == Ack(h.q, id) && h'.events == h.events + [e]
    ensures Backed(h')
  {
    hide FirstSentBefore;
    FlightsAfterAck(h.q, id);
    var k := IndexOf(Flights(h.q), id);
    forall i | 0 <= i < |Flights(h'.q)|
      ensures var g := Flights(h'.q)[i];
              FirstSentBefore(h'.events, |h'.events|, g.message, g.id, if i < |h'.q.active| then h'.q.epoch + 1 else h'.q.epoch)
    {
      var j := if i < k then i else i + 1;
      var g := Flights(h.q)[j];
      assert g == Flights(h'.q)[i];
      var epoch := if j < |h.q.active| then h.q.epoch + 1 else h.q.epoch;
      FirstSentStays(h.events, e, |h.events|, g.message, g.id, epoch, epoch);
    }
  }

  lemma PauseKeeps(h: History, paused: bool, window: nat)
    requires Good(h, window)
    ensures Good(History(h.q.(paused := paused), h.events), window)
  {
    var q' := h.q.(paused := paused);
    assert Flights(q') == Flights(h.q);
    assert forall n: nat :: Holds(q', n) == Holds(h.q, n);
  }

  lemma StepKeeps(h: History, op: Op, window: nat)
    requires Good(h, window)
    ensures Good(Step(h, op, window), window)
  {
    hide Good;
    match op {
      case Admitting(data, offset) => AdmitKeeps(h, data, offset, window);
      case Beginning => BeginKeeps(h, window);
      case Pausing => PauseKeeps(h, true, window);
      case Resuming => PauseKeeps(h, false, window);
      case Sending(epoch) =>
        if epoch == h.q.epoch && CanSend(h.q, window) {
          if h.q.replay != [] {
            ReplayKeeps(h, window);
          } else {
            FirstSendKeeps(h, window);
          }
        }
      case Acking(id) =>
        if InFlight(h.q, id) {
          AckKeeps(h, id, window);
        }
    }
  }

  lemma StartIsGood(window: nat)
    requires window <= MAX_UINT16
    ensures Good(History(EMPTY, []), window)
  {
  }

  /** Every run keeps the invariant. */
  lemma {:induction false} RunIsGood(ops: seq<Op>, window: nat)
    requires window <= MAX_UINT16
    ensures Good(Run(ops, window), window)
  {
    hide Good, Step;
    if ops == [] {
      StartIsGood(window);
    } else {
      RunIsGood(ops[..|ops| - 1], window);
      StepKeeps(Run(ops[..|ops| - 1], window), ops[|ops| - 1], window);
    }
  }

  // ----- What good histories promise

  /** Across all epochs the DUP=0 sends are a prefix of the accepted messages, in order, once each. */
  lemma FirstSendsArePrefix(h: History, window: nat)
    requires Good(h, window)
    ensures FirstSends(h.events) <= Admissions(h.events) && InOrder(Admissions(h.events))
  {
    hide Sound, Ordered, Ahead, Repeats, Backed, Discharged;
  }

  /** Within one epoch messages go out in order of acceptance, none twice, and all replays come
      before any first send. */
  lemma EpochsReplayThenSend(h: History, window: nat, i: nat, j: nat)
    requires Good(h, window)
    requires i < j < |h.events| && h.events[i].Sent? && h.events[j].Sent? && h.events[i].epoch == h.events[j].epoch
    ensures h.events[i].message.number < h.events[j].message.number && (h.events[j].dup ==> h.events[i].dup)
  {
    hide Sound, Counted, Ahead, Repeats, Backed, Discharged;
  }

  /** Every replay repeats an earlier first send: the same message, under the same identifier, in an
      earlier epoch. */
  lemma ReplaysRepeat(h: History, window: nat, j: nat)
    requires Good(h, window) && j < |h.events| && h.events[j].Sent? && h.events[j].dup
    ensures FirstSentBefore(h.events, j, h.events[j].message, h.events[j].id, h.events[j].epoch)
  {
    hide Sound, Counted, Ahead, Ordered, Backed, Discharged, FirstSentBefore;
  }

  /** Every accepted message waits unsent, or is in flight, or was released, and just one of these. */
  lemma NothingIsLost(h: History, window: nat, n: nat)
    requires Good(h, window) && n < |Admissions(h.events)|
    ensures var sent := |FirstSends(h.events)|;
            if n < sent then Holds(h.q, n) <==> !ReleasedIn(h.events, n)
            else n - sent < |h.q.unsent| && h.q.unsent[n - sent] == Admissions(h.events)[n] && !Holds(h.q, n) && !ReleasedIn(h.events, n)
  {
    hide Ordered, Repeats, Backed, FirstSends, Admissions;
    if n >= |FirstSends(h.events)| {
      NotReleasedYet(h, n);
    }
  }

  /** A message is released once, by acknowledgement of an identifier it was sent under before. */
  lemma LeavesOnlyByAck(h: History, window: nat, j: nat)
    requires Good(h, window) && j < |h.events| && h.events[j].Released?
    ensures exists i :: 0 <= i < j && h.events[i].Sent? && h.events[i].message == h.events[j].message && h.events[i].id == h.events[j].id
    ensures forall i :: 0 <= i < |h.events| && h.events[i].Released? && i != j ==> h.events[i].message.number != h.events[j].message.number
  {
    hide Sound, Ordered, Repeats, Backed, Counted, Ahead;
  }

  /** Whatever is in flight is, byte for byte, the message accepted under its number. */
  lemma FlightsHoldAccepted(h: History, window: nat, k: nat)
    requires Good(h, window) && k < |Flights(h.q)|
    ensures var m := Flights(h.q)[k].message; m.number < |Admissions(h.events)| && Admissions(h.events)[m.number] == m
  {
    hide Sound, Ordered, Repeats, Ahead, Discharged, Admissions, FirstSends;
    var f := Flights(h.q)[k];
    var epoch := if k < |h.q.active| then h.q.epoch + 1 else h.q.epoch;
    assert FirstSentBefore(h.events, |h.events|, f.message, f.id, epoch);
    var i :| 0 <= i < |h.events| && h.events[i].Sent? && h.events[i].message == f.message && !h.events[i].dup;
    FirstSendIsListed(h.events, i);
    var n :| 0 <= n < |FirstSends(h.events)| && FirstSends(h.events)[n] == f.message;
    assert Admissions(h.events)[n] == f.message;
  }

  lemma {:induction false} FirstSendIsListed(es: seq<Event>, i: nat)
    requires i < |es| && es[i].Sent? && !es[i].dup
    ensures es[i].message in FirstSends(es)
  {
    if i < |es| - 1 {
      assert es[..|es| - 1][i] == es[i];
      FirstSendIsListed(es[..|es| - 1], i);
    }
  }

  /** All of this at once. */
  ghost predicate Promised(h: History) {
    && FirstSends(h.events) <= Admissions(h.events) && InOrder(Admissions(h.events))
    && h.q.unsent == Admissions(h.events)[|FirstSends(h.events)|..]
    && Ordered(h.events) && Repeats(h.events) && Discharged(h)
    && (forall k :: 0 <= k < |Flights(h.q)| ==>
          var m := Flights(h.q)[k].message; m.number < |Admissions(h.events)| && Admissions(h.events)[m.number] == m)
  }

  lemma GoodIsPromised(h: History, window: nat)
    requires Good(h, window)
    ensures Promised(h)
  {
    hide Ordered, Repeats, Discharged, Backed, Ahead, Sound, FirstSends, Admissions, Flights;
    forall k | 0 <= k < |Flights(h.q)|
      ensures var m := Flights(h.q)[k].message; m.number < |Admissions(h.events)| && Admissions(h.events)[m.number] == m
    {
      FlightsHoldAccepted(h, window, k);
    }
  }

  // ----- Runs from the start

  /** The messages that a run asked to be queued, numbered in order. */
  function Asked(ops: seq<Op>): seq<Message> {
    if ops == [] then []
    else
      var so, op := Asked(ops[..|ops| - 1]), ops[|ops| - 1];
      so + if op.Admitting? then [Message(|so|, op.data, op.offset)] else []
  }

  /** The accepted messages of a run are those it asked for, with their bytes. */
  lemma {:induction false} AcceptedAsAsked(ops: seq<Op>, window: nat)
    requires window <= MAX_UINT16
    ensures Admissions(Run(ops, window).events) == Asked(ops)
  {
    if ops != [] {
      var n := |ops| - 1;
      var h := Run(ops[..n], window);
      AcceptedAsAsked(ops[..n], window);
      AcceptNext(h, ops[n], window);
      RunIsGood(ops[..n], window);
      hide Sound, Ordered, Repeats, Backed, Ahead, Discharged, Step;
      assert h.q.admitted == |Asked(ops[..n])|;
    }
  }

  lemma AcceptNext(h: History, op: Op, window: nat)
    ensures Admissions(Step(h, op, window).events)
         == Admissions(h.events) + if op.Admitting? then [Message(h.q.admitted, op.data, op.offset)] else []
  {
    var h' := Step(h, op, window);
    if |h'.events| > |h.events| {
      assert h'.events == h.events + [h'.events[|h.events|]];
      ReadNext(h.events, h'.events[|h.events|]);
    }
  }

  function Begun(ops: seq<Op>): nat {
    if ops == [] then 0 else Begun(ops[..|ops| - 1]) + if ops[|ops| - 1].Beginning? then 1 else 0
  }

  /** The epoch counts the connection lifetimes, so a 64-bit counter is exact for fewer than 2^64. */
  lemma {:induction false} EpochsAreLifetimes(ops: seq<Op>, window: nat)
    ensures Run(ops, window).q.epoch == Begun(ops)
  {
    if ops != [] {
      EpochsAreLifetimes(ops[..|ops| - 1], window);
    }
  }
}
