/** What sending and acknowledging do to the flights of a queue, position by position, and the bytes
    that a send puts on the wire. */
module Moves {
  import opened Bytes
  import opened Delivery
  import opened Accounts
  import opened Template
  import Trace

  /** The bytes sent for a queued message under an identifier. */
  function SentBytes(data: bytes, offset: nat, id: nat, dup: bool): bytes {
    if Admissible(data, offset) && id <= MAX_UINT16 then Patch(data, offset, id, dup) else []
  }

  /** The bytes that the next send puts on the wire. */
  ghost function OnTheWire(q: Queue): bytes
    requires q.replay != [] || q.unsent != []
  {
    var (f, again) := Upcoming(q);
    SentBytes(f.message.data, f.message.offset, f.id, again)
  }

  /** The event that the next send leaves in the history. */
  ghost function SendEvent(q: Queue): Trace.Event
    requires q.replay != [] || q.unsent != []
  {
    var (f, again) := Upcoming(q);
    Trace.Sent(f.message, f.id, again, q.epoch)
  }

  lemma ReplayShape(q: Queue, window: nat)
    requires Sound(q, window) && q.replay != []
    ensures Sound(Send(q), window) && Flights(Send(q)) == Flights(q)
    ensures |Flights(q)| > |q.active| && Flights(q)[|q.active|] == q.replay[0]
    ensures Send(q) == q.(active := Send(q).active, replay := Send(q).replay) && |Send(q).active| == |q.active| + 1
    ensures Identifier(q.replay[0].id)
  {
    FlightsAfterReplay(q);
    assert Identifier(Flights(q)[|q.active|].id);
  }

  lemma FirstShape(q: Queue, window: nat)
    requires Sound(q, window) && q.replay == [] && q.unsent != [] && |q.active| < window && q.epoch > 0
    ensures var f := Flight(NextID(q), q.unsent[0]);
            && Sound(Send(q), window) && Flights(q) == q.active && Flights(Send(q)) == Flights(q) + [f]
            && Send(q) == q.(active := Send(q).active, unsent := q.unsent[1..], lastID := f.id) && Send(q).active == q.active + [f]
            && Ids(Flights(Send(q))) == Ids(Flights(q)) + {f.id} && Identifier(f.id) && f.id !in Ids(Flights(q))
            && FlightBytes(Flights(Send(q))) + MessageBytes(Send(q).unsent) == FlightBytes(Flights(q)) + MessageBytes(q.unsent)
            && |Ids(Flights(q))| < MAX_UINT16 && q.lastID <= MAX_UINT16
  {
    var f := Flight(NextID(q), q.unsent[0]);
    NextIDIsFree(q, window);
    SendStaysSound(q, window);
    IdsSize(Flights(q));
    assert Flights(q) == q.active && Flights(Send(q)) == Flights(q) + [f];
    IdsSnoc(Flights(q), f);
    FlightBytesConcat(Flights(q), [f]);
    assert FlightBytes([f]) == |f.message.data| + FlightBytes([f][1..]);
  }

  lemma IdsSnoc(fs: seq<Flight>, f: Flight)
    ensures Ids(fs + [f]) == Ids(fs) + {f.id}
  {
    var gs := fs + [f];
    forall x | x in Ids(fs) + {f.id} ensures x in Ids(gs) {
      if x in Ids(fs) {
        var i :| 0 <= i < |fs| && fs[i].id == x;
        assert gs[i].id == x;
      } else {
        assert gs[|fs|].id == x;
      }
    }
    forall x | x in Ids(gs) ensures x in Ids(fs) + {f.id} {
      var i :| 0 <= i < |gs| && gs[i].id == x;
      assert i < |fs| ==> fs[i].id == x;
    }
  }

  /** What an acknowledgement does to the flights, position by position. */
  lemma AckShape(q: Queue, id: nat, window: nat)
    requires Sound(q, window) && id in Ids(Flights(q))
    ensures InFlight(q, id)
    ensures var fs, k, q' := Flights(q), IndexOf(Flights(q), id), Delivery.Ack(q, id);
            && k < |fs| && fs[k].id == id && Sound(q', window) && |Flights(q')| == |fs| - 1
            && (forall i :: 0 <= i < k ==> Flights(q')[i] == fs[i] && fs[i].id != id)
            && (forall i :: k <= i < |fs| - 1 ==> Flights(q')[i] == fs[i + 1] && fs[i + 1].id != id)
            && |q'.active| == |q.active| - (if k < |q.active| then 1 else 0)
            && q' == q.(active := q'.active, replay := q'.replay)
            && Ids(Flights(q')) == Ids(fs) - {id}
            && FlightBytes(Flights(q')) == FlightBytes(fs) - |fs[k].message.data|
  {
    hide FlightBytes, Delivery.Ack, Drop;
    var fs := Flights(q);
    var j :| 0 <= j < |fs| && fs[j].id == id;
    var k := IndexOf(fs, id);
    AckStaysSound(q, id, window);
    FlightsAfterAck(q, id);
    AckParts(q, id);
    FlightBytesDrop(fs, k);
    DropShape(fs, k);
    IdsDrop(fs, k, q.admitted - |q.unsent|);
  }

  lemma AckParts(q: Queue, id: nat)
    requires InFlight(q, id)
    ensures var k, q' := IndexOf(Flights(q), id), Delivery.Ack(q, id);
            && |q'.active| == |q.active| - (if k < |q.active| then 1 else 0)
            && q' == q.(active := q'.active, replay := q'.replay)
  {
    hide IndexOf;
  }

  /** Distinct identifiers are as many as the flights that hold them. */
  lemma {:induction false} IdsExact(fs: seq<Flight>)
    requires forall i, j :: 0 <= i < j < |fs| ==> fs[i].id != fs[j].id
    ensures |Ids(fs)| == |fs|
  {
    if fs != [] {
      var n := |fs| - 1;
      IdsExact(fs[..n]);
      assert fs[..n] + [fs[n]] == fs;
      IdsSnoc(fs[..n], fs[n]);
    }
  }

  /** A table of flights takes one more flight under an unused identifier. */
  lemma TableGrows<E>(fs: seq<Flight>, f: Flight, table: map<nat, E>, entries: seq<E>)
    requires |fs| < |entries| && table.Keys == Ids(fs) && f.id !in Ids(fs)
    requires forall i :: 0 <= i < |fs| ==> fs[i].id in table && table[fs[i].id] == entries[i]
    ensures var gs, table' := fs + [f], table[f.id := entries[|fs|]];
            && table'.Keys == Ids(gs)
            && forall i :: 0 <= i < |gs| ==> gs[i].id in table' && table'[gs[i].id] == entries[i]
  {
    IdsSnoc(fs, f);
    forall i | 0 <= i < |fs| ensures fs[i].id != f.id {
      assert fs[i].id in Ids(fs);
    }
  }

  // ----- Histories

  lemma AdmitRecorded(q: Queue, es: seq<Trace.Event>, data: bytes, offset: nat, window: nat)
    requires Trace.Good(Trace.History(q, es), window)
    ensures Trace.Good(Trace.History(Admit(q, data, offset), es + [Trace.Accepted(Message(q.admitted, data, offset))]), window)
  {
    hide Trace.Good;
    Trace.StepKeeps(Trace.History(q, es), Trace.Admitting(data, offset), window);
  }

  lemma SendRecorded(q: Queue, es: seq<Trace.Event>, window: nat)
    requires Trace.Good(Trace.History(q, es), window) && CanSend(q, window)
    ensures Trace.Good(Trace.History(Send(q), es + [SendEvent(q)]), window)
  {
    hide Trace.Good, Send, Upcoming;
    Trace.StepKeeps(Trace.History(q, es), Trace.Sending(q.epoch), window);
  }

  lemma AckRecorded(q: Queue, es: seq<Trace.Event>, id: nat, window: nat)
    requires Trace.Good(Trace.History(q, es), window) && InFlight(q, id)
    ensures Trace.Good(Trace.History(Ack(q, id), es + [Trace.Released(Acked(q, id), id)]), window)
  {
    hide Trace.Good, Ack, IndexOf, Flights;
    Trace.StepKeeps(Trace.History(q, es), Trace.Acking(id), window);
  }

  lemma BeginRecorded(q: Queue, es: seq<Trace.Event>, window: nat)
    requires Trace.Good(Trace.History(q, es), window)
    ensures Trace.Good(Trace.History(Begin(q), es), window)
  {
    hide Trace.Good, Begin;
    Trace.StepKeeps(Trace.History(q, es), Trace.Beginning, window);
  }

  lemma PauseRecorded(q: Queue, es: seq<Trace.Event>, pause: bool, window: nat)
    requires Trace.Good(Trace.History(q, es), window)
    ensures Trace.Good(Trace.History(q.(paused := pause), es), window)
  {
    hide Trace.Good;
    Trace.StepKeeps(Trace.History(q, es), if pause then Trace.Pausing else Trace.Resuming, window);
  }
}
