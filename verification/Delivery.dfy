/** The reference model of a session's QoS 1 queue: three queues instead of one list with flags.
    `active` was sent in the current epoch, `replay` was sent in an earlier one and waits to be sent
    again, `unsent` was never sent. */
module Delivery {
  import opened Bytes

  /** A queued PUBLISH; messages are numbered in the order they were accepted. */
  datatype Message = Message(number: nat, data: bytes, offset: nat)

  /** A message that holds a packet identifier. */
  datatype Flight = Flight(id: nat, message: Message)

  datatype Queue = Queue(active: seq<Flight>, replay: seq<Flight>, unsent: seq<Message>,
                         admitted: nat, lastID: nat, epoch: nat, paused: bool)

  const EMPTY := Queue([], [], [], 0, 0, 0, false)

  function Flights(q: Queue): seq<Flight> {
    q.active + q.replay
  }

  function Ids(fs: seq<Flight>): set<nat> {
    set i | 0 <= i < |fs| :: fs[i].id
  }

  // ----- Packet identifiers

  /** How many steps lead from `from` to `to`, at least one, when the step after 65535 leads to 1. */
  function Distance(from: nat, to: nat): nat
    requires from <= MAX_UINT16 && Identifier(to)
  {
    if from < to then to - from else MAX_UINT16 - from + to
  }

  /** `id` is the first identifier after `last` that is not in use. */
  ghost predicate NextFree(last: nat, used: set<nat>, id: nat)
    requires last <= MAX_UINT16
  {
    && Identifier(id) && id !in used
    && forall k :: Identifier(k) && Distance(last, k) < Distance(last, id) ==> k in used
  }

  lemma NextFreeUnique(last: nat, used: set<nat>, a: nat, b: nat)
    requires last <= MAX_UINT16 && NextFree(last, used, a) && NextFree(last, used, b)
    ensures a == b
  {
  }

  /** Fewer used identifiers than there are identifiers leave one free. */
  lemma SomeFree(used: set<nat>) returns (id: nat)
    requires |used| < MAX_UINT16
    ensures Identifier(id) && id !in used
  {
    var all := UpTo(MAX_UINT16);
    UpToMembers(MAX_UINT16);
    if all <= used {
      SubsetSize(all, used);
      assert false;
    }
    id :| id in all && id !in used;
  }

  /** The identifiers 1 to `n`. */
  function UpTo(n: nat): set<nat> {
    if n == 0 then {} else UpTo(n - 1) + {n}
  }

  lemma {:induction false} UpToMembers(n: nat)
    ensures |UpTo(n)| == n && forall k :: k in UpTo(n) <==> 1 <= k <= n
  {
    if n > 0 {
      UpToMembers(n - 1);
    }
  }

  lemma {:induction false} SubsetSize(a: set<nat>, b: set<nat>)
    requires a <= b
    ensures |a| <= |b|
  {
    if a != {} {
      var x :| x in a;
      SubsetSize(a - {x}, b - {x});
    }
  }

  lemma {:induction false} IdsSize(fs: seq<Flight>)
    ensures |Ids(fs)| <= |fs|
  {
    if fs != [] {
      var n := |fs| - 1;
      IdsSize(fs[..n]);
      assert Ids(fs) == Ids(fs[..n]) + {fs[n].id} by {
        forall x | x in Ids(fs) ensures x in Ids(fs[..n]) + {fs[n].id} {
          var i :| 0 <= i < |fs| && fs[i].id == x;
          assert i < n ==> fs[..n][i].id == x;
        }
        forall x | x in Ids(fs[..n]) ensures x in Ids(fs) {
          var i :| 0 <= i < n && fs[..n][i].id == x;
          assert fs[i].id == x;
        }
      }
    }
  }

  /** Every queue with fewer flights than identifiers has a next free one. */
  lemma NextFreeExists(last: nat, used: set<nat>) returns (id: nat)
    requires last <= MAX_UINT16 && |used| < MAX_UINT16
    ensures NextFree(last, used, id)
  {
    id := SomeFree(used);
    while exists k :: Identifier(k) && k !in used && Distance(last, k) < Distance(last, id)
      invariant Identifier(id) && id !in used
      decreases Distance(last, id)
    {
      var k :| Identifier(k) && k !in used && Distance(last, k) < Distance(last, id);
      id := k;
    }
  }

  // ----- Operations

  function Admit(q: Queue, data: bytes, offset: nat): Queue {
    q.(unsent := q.unsent + [Message(q.admitted, data, offset)], admitted := q.admitted + 1)
  }

  /** A new epoch: whatever is in flight must be sent again. */
  function Begin(q: Queue): Queue {
    q.(active := [], replay := q.active + q.replay, epoch := q.epoch + 1)
  }

  /** Something waits in a started epoch and the window has room. */
  predicate HasNext(q: Queue, window: nat) {
    q.epoch > 0 && |q.active| < window && (q.replay != [] || q.unsent != [])
  }

  predicate CanSend(q: Queue, window: nat) {
    !q.paused && HasNext(q, window)
  }

  ghost function NextID(q: Queue): nat {
    if q.lastID <= MAX_UINT16 && exists id: nat :: NextFree(q.lastID, Ids(Flights(q)), id)
    then var id: nat :| NextFree(q.lastID, Ids(Flights(q)), id); id
    else 0
  }

  /** The flight that is sent next, and whether it was sent before: what waits for replay goes
      first, in order; then the oldest unsent message under the next free identifier. */
  ghost function Upcoming(q: Queue): (Flight, bool)
    requires q.replay != [] || q.unsent != []
  {
    if q.replay != [] then (q.replay[0], true) else (Flight(NextID(q), q.unsent[0]), false)
  }

  ghost function Send(q: Queue): Queue
    requires q.replay != [] || q.unsent != []
  {
    var (f, again) := Upcoming(q);
    if again then q.(active := q.active + [f], replay := q.replay[1..])
    else q.(active := q.active + [f], unsent := q.unsent[1..], lastID := f.id)
  }

  /** The position of identifier `id`, or the length if it is not in flight. */
  function IndexOf(fs: seq<Flight>, id: nat): (k: nat)
    ensures k <= |fs| && (k < |fs| ==> fs[k].id == id) && forall i :: 0 <= i < k ==> fs[i].id != id
  {
    if fs == [] || fs[0].id == id then 0 else 1 + IndexOf(fs[1..], id)
  }

  function Drop<T>(s: seq<T>, k: nat): seq<T>
    requires k < |s|
  {
    s[..k] + s[k + 1..]
  }

  predicate InFlight(q: Queue, id: nat) {
    IndexOf(Flights(q), id) < |Flights(q)|
  }

  function Ack(q: Queue, id: nat): Queue
    requires InFlight(q, id)
  {
    var k := IndexOf(Flights(q), id);
    if k < |q.active| then q.(active := Drop(q.active, k)) else q.(replay := Drop(q.replay, k - |q.active|))
  }

  /** The message an identifier stands for. */
  function Acked(q: Queue, id: nat): Message
    requires InFlight(q, id)
  {
    Flights(q)[IndexOf(Flights(q), id)].message
  }

  // ----- What every operation keeps

  ghost predicate Sound(q: Queue, window: nat) {
    && q.lastID <= MAX_UINT16 && |Flights(q)| <= window <= MAX_UINT16 && (q.epoch == 0 ==> Flights(q) == [])
    && Numbered(Flights(q), q.admitted - |q.unsent|)
    && |q.unsent| <= q.admitted
    && forall i :: 0 <= i < |q.unsent| ==> q.unsent[i].number == q.admitted - |q.unsent| + i
  }

  /** Flights carry distinct identifiers and increasing numbers below `bound`. */
  ghost predicate Numbered(fs: seq<Flight>, bound: int) {
    && (forall i :: 0 <= i < |fs| ==> Identifier(fs[i].id) && fs[i].message.number < bound)
    && (forall i, j :: 0 <= i < j < |fs| ==> fs[i].id != fs[j].id && fs[i].message.number < fs[j].message.number)
  }

  /** With the window kept, there is always an identifier for the next message. */
  lemma NextIDIsFree(q: Queue, window: nat)
    requires Sound(q, window) && q.replay == [] && |q.active| < window
    ensures NextFree(q.lastID, Ids(Flights(q)), NextID(q))
  {
    IdsSize(Flights(q));
    var id := NextFreeExists(q.lastID, Ids(Flights(q)));
  }

  lemma NextIDIs(q: Queue, id: nat)
    requires q.lastID <= MAX_UINT16 && NextFree(q.lastID, Ids(Flights(q)), id)
    ensures NextID(q) == id
  {
    NextFreeUnique(q.lastID, Ids(Flights(q)), NextID(q), id);
  }

  lemma FlightsAfterReplay(q: Queue)
    requires q.replay != []
    ensures Flights(Send(q)) == Flights(q)
  {
    assert q.active + [q.replay[0]] + q.replay[1..] == q.active + q.replay;
  }

  lemma FlightsAfterAck(q: Queue, id: nat)
    requires InFlight(q, id)
    ensures Flights(Ack(q, id)) == Drop(Flights(q), IndexOf(Flights(q), id))
  {
    hide IndexOf, Drop;
    DropConcat(q.active, q.replay, IndexOf(Flights(q), id));
  }

  lemma DropConcat<T>(a: seq<T>, b: seq<T>, k: nat)
    requires k < |a + b|
    ensures Drop(a + b, k) == if k < |a| then Drop(a, k) + b else a + Drop(b, k - |a|)
  {
    if k < |a| {
      assert (a + b)[..k] == a[..k] && (a + b)[k + 1..] == a[k + 1..] + b;
    } else {
      assert (a + b)[..k] == a + b[..k - |a|] && (a + b)[k + 1..] == b[k - |a| + 1..];
    }
  }

  lemma EmptyIsSound(window: nat)
    requires window <= MAX_UINT16
    ensures Sound(EMPTY, window)
  {
    assert Flights(EMPTY) == [] && Ids([]) == {};
  }

  lemma SendStaysSound(q: Queue, window: nat)
    requires Sound(q, window) && HasNext(q, window)
    ensures Sound(Send(q), window)
  {
    hide Numbered, NextID, NextFree, Identifier;
    if q.replay != [] {
      FlightsAfterReplay(q);
    } else {
      NextIDIsFree(q, window);
      var f := Flight(NextID(q), q.unsent[0]);
      assert Flights(Send(q)) == Flights(q) + [f];
      NumberedSnoc(Flights(q), f, q.lastID, q.admitted - |q.unsent|);
    }
  }

  lemma NumberedSnoc(fs: seq<Flight>, f: Flight, last: nat, bound: int)
    requires Numbered(fs, bound) && last <= MAX_UINT16 && NextFree(last, Ids(fs), f.id) && f.message.number == bound
    ensures Numbered(fs + [f], bound + 1) && f.id <= MAX_UINT16
  {
    hide Distance;
    forall i | 0 <= i < |fs| ensures fs[i].id != f.id {
      assert fs[i].id in Ids(fs);
    }
  }

  lemma AckStaysSound(q: Queue, id: nat, window: nat)
    requires Sound(q, window) && InFlight(q, id)
    ensures Sound(Ack(q, id), window)
  {
    hide Numbered, Drop, IndexOf;
    FlightsAfterAck(q, id);
    DropShape(Flights(q), IndexOf(Flights(q), id));
    NumberedDrop(Flights(q), IndexOf(Flights(q), id), q.admitted - |q.unsent|);
  }

  lemma NumberedDrop(fs: seq<Flight>, k: nat, bound: int)
    requires Numbered(fs, bound) && k < |fs|
    ensures Numbered(Drop(fs, k), bound)
  {
    hide Drop;
    DropShape(fs, k);
  }

  lemma DropShape<T>(s: seq<T>, k: nat)
    requires k < |s|
    ensures var t := Drop(s, k);
            && |t| == |s| - 1 && (forall i :: 0 <= i < k ==> t[i] == s[i]) && (forall i :: k <= i < |t| ==> t[i] == s[i + 1])
  {
  }

  lemma IdsDrop(fs: seq<Flight>, k: nat, bound: int)
    requires Numbered(fs, bound) && k < |fs|
    ensures Ids(Drop(fs, k)) == Ids(fs) - {fs[k].id}
    ensures forall i :: 0 <= i < |fs| && i != k ==> fs[i].id != fs[k].id
  {
    hide Drop;
    DropShape(fs, k);
    var gs := Drop(fs, k);
    forall x | x in Ids(fs) - {fs[k].id} ensures x in Ids(gs) {
      var i :| 0 <= i < |fs| && fs[i].id == x;
      assert gs[if i < k then i else i - 1].id == x;
    }
    forall x | x in Ids(gs) ensures x in Ids(fs) - {fs[k].id} {
      var i :| 0 <= i < |gs| && gs[i].id == x;
      assert fs[if i < k then i else i + 1].id == x;
    }
  }


  lemma AdmitStaysSound(q: Queue, data: bytes, offset: nat, window: nat)
    requires Sound(q, window)
    ensures Sound(Admit(q, data, offset), window) && Flights(Admit(q, data, offset)) == Flights(q)
  {
  }

  lemma BeginStaysSound(q: Queue, window: nat)
    requires Sound(q, window)
    ensures Sound(Begin(q), window) && Flights(Begin(q)) == Flights(q)
  {
    assert Flights(Begin(q)) == Flights(q);
  }
}
