/** What a session store holds, as values, and what its totals and limits mean for it. */
module Accounts {
  import opened Bytes
  import opened Delivery
  import opened Sums

  datatype Limits = Limits(
    maxSessions: int, maxSubscriptionsPerSession: int, maxSubscriptionsGlobal: int,
    maxFilterBytes: int, maxFilterLevels: int, offlineTTL: int, cleanupInterval: int,
    maxPendingMessagesPerSession: int, maxPendingBytesPerSession: int,
    maxPendingMessagesGlobal: int, maxPendingBytesGlobal: int, maxInflightMessagesPerSession: int)

  /** Limits that make sense together: every budget and the window are positive, no session's budget
      exceeds the global one, a filter fits a length-prefixed string, and the window fits both a
      session's queue and the packet identifiers. */
  predicate Accepted(l: Limits) {
    && Positive({l.maxSessions, l.maxSubscriptionsPerSession, l.maxSubscriptionsGlobal, l.maxFilterBytes, l.maxFilterLevels,
                 l.cleanupInterval, l.maxPendingMessagesPerSession, l.maxPendingBytesPerSession,
                 l.maxPendingMessagesGlobal, l.maxPendingBytesGlobal, l.maxInflightMessagesPerSession})
    && l.offlineTTL >= 0
    && l.maxSubscriptionsPerSession <= l.maxSubscriptionsGlobal
    && l.maxPendingMessagesPerSession <= l.maxPendingMessagesGlobal
    && l.maxPendingBytesPerSession <= l.maxPendingBytesGlobal
    && l.maxFilterBytes <= MAX_UINT16
    && l.maxInflightMessagesPerSession <= l.maxPendingMessagesPerSession
    && l.maxInflightMessagesPerSession <= MAX_UINT16
  }

  predicate Positive(ns: set<int>) {
    forall n :: n in ns ==> n > 0
  }

  /** `Limits.Validate` */
  method Validate(l: Limits) returns (ok: bool)
    ensures ok <==> Accepted(l)
  {
    if l.maxSessions <= 0 || l.maxSubscriptionsPerSession <= 0 || l.maxSubscriptionsGlobal <= 0 || l.maxFilterBytes <= 0 || l.maxFilterLevels <= 0 {
      return false;
    }
    if l.maxSubscriptionsPerSession > l.maxSubscriptionsGlobal || l.maxFilterBytes > 65535 || l.offlineTTL < 0 || l.cleanupInterval <= 0 {
      return false;
    }
    if l.maxPendingMessagesPerSession <= 0 || l.maxPendingBytesPerSession <= 0 || l.maxPendingMessagesGlobal <= 0
       || l.maxPendingBytesGlobal <= 0 || l.maxInflightMessagesPerSession <= 0 {
      return false;
    }
    if l.maxPendingMessagesPerSession > l.maxPendingMessagesGlobal || l.maxPendingBytesPerSession > l.maxPendingBytesGlobal {
      return false;
    }
    if l.maxInflightMessagesPerSession > 65535 || l.maxInflightMessagesPerSession > l.maxPendingMessagesPerSession {
      return false;
    }
    return true;
  }

  datatype Session = Session(owner: bytes, queue: Queue, subscriptions: map<bytes, nat>,
                             connected: bool, offlineSince: Option<int>)

  type Sessions = map<bytes, Session>

  // ----- What one session costs

  function FlightBytes(fs: seq<Flight>): nat {
    if fs == [] then 0 else |fs[0].message.data| + FlightBytes(fs[1..])
  }

  function MessageBytes(ms: seq<Message>): nat {
    if ms == [] then 0 else |ms[0].data| + MessageBytes(ms[1..])
  }

  function PendingMessages(s: Session): int {
    |Flights(s.queue)| + |s.queue.unsent|
  }

  function PendingBytes(s: Session): int {
    FlightBytes(Flights(s.queue)) + MessageBytes(s.queue.unsent)
  }

  function Inflight(s: Session): int {
    |Flights(s.queue)|
  }

  function Subscriptions(s: Session): int {
    |s.subscriptions|
  }

  // ----- What all sessions cost together

  ghost function Sum(m: Sessions, cost: Session -> int): int {
    Total(Costs(m, cost))
  }

  ghost function Costs(m: Sessions, cost: Session -> int): map<bytes, int> {
    map id | id in m :: cost(m[id])
  }

  lemma SumPut(m: Sessions, cost: Session -> int, id: bytes, s: Session)
    ensures Sum(m[id := s], cost) == Sum(m, cost) + cost(s) - (if id in m then cost(m[id]) else 0)
  {
    hide Total;
    TotalPut(Costs(m, cost), id, cost(s));
    assert Costs(m[id := s], cost) == Costs(m, cost)[id := cost(s)];
  }

  lemma SumDrop(m: Sessions, cost: Session -> int, id: bytes)
    requires id in m
    ensures Sum(m - {id}, cost) == Sum(m, cost) - cost(m[id])
  {
    TotalTake(Costs(m, cost), id);
    assert Costs(m - {id}, cost) == Costs(m, cost) - {id};
  }

  /** The running totals; rejections and drops only ever count up. */
  datatype Totals = Totals(pendingMessages: int, pendingBytes: int, inflight: int, subscriptions: int,
                           sessionLimitDrops: nat, globalLimitDrops: nat, sessionRejections: nat,
                           subscriptionRejections: nat, filterRejections: nat, expiredSessions: nat)

  const NO_TOTALS := Totals(0, 0, 0, 0, 0, 0, 0, 0, 0, 0)

  /** The totals are the exact sums over the stored sessions. */
  ghost predicate Balanced(m: Sessions, t: Totals) {
    && t.pendingMessages == Sum(m, PendingMessages) && t.pendingBytes == Sum(m, PendingBytes)
    && t.inflight == Sum(m, Inflight) && t.subscriptions == Sum(m, Subscriptions)
  }

  ghost predicate SessionWithin(s: Session, l: Limits) {
    && Accepted(l) && Sound(s.queue, l.maxInflightMessagesPerSession)
    && PendingMessages(s) <= l.maxPendingMessagesPerSession && PendingBytes(s) <= l.maxPendingBytesPerSession
    && Subscriptions(s) <= l.maxSubscriptionsPerSession
  }

  ghost predicate Within(m: Sessions, t: Totals, l: Limits) {
    && |m| <= l.maxSessions && (forall id :: id in m ==> SessionWithin(m[id], l))
    && t.pendingMessages <= l.maxPendingMessagesGlobal && t.pendingBytes <= l.maxPendingBytesGlobal
    && t.subscriptions <= l.maxSubscriptionsGlobal
  }

  ghost predicate Ledger(m: Sessions, t: Totals, l: Limits) {
    Accepted(l) && Balanced(m, t) && Within(m, t, l)
  }

  /** All totals stay nonnegative. */
  lemma LedgerIsNonNegative(m: Sessions, t: Totals, l: Limits)
    requires Ledger(m, t, l)
    ensures 0 <= t.pendingMessages && 0 <= t.pendingBytes && 0 <= t.inflight && 0 <= t.subscriptions
  {
    hide Total, FlightBytes, MessageBytes;
    TotalNonNegative(Costs(m, PendingMessages));
    TotalNonNegative(Costs(m, PendingBytes));
    TotalNonNegative(Costs(m, Inflight));
    TotalNonNegative(Costs(m, Subscriptions));
  }

  // ----- Changing one session

  /** What replacing one session's value does to the totals. */
  function Adjust(t: Totals, before: Session, after: Session): Totals {
    t.(pendingMessages := t.pendingMessages + PendingMessages(after) - PendingMessages(before),
       pendingBytes := t.pendingBytes + PendingBytes(after) - PendingBytes(before),
       inflight := t.inflight + Inflight(after) - Inflight(before),
       subscriptions := t.subscriptions + Subscriptions(after) - Subscriptions(before))
  }

  lemma ReplaceBalances(m: Sessions, t: Totals, id: bytes, s: Session)
    requires id in m && Balanced(m, t)
    ensures Balanced(m[id := s], Adjust(t, m[id], s))
  {
    hide Sum, PendingMessages, PendingBytes, Inflight, Subscriptions;
    SumPut(m, PendingMessages, id, s);
    SumPut(m, PendingBytes, id, s);
    SumPut(m, Inflight, id, s);
    SumPut(m, Subscriptions, id, s);
  }

  /** A change that stays within the limits keeps the ledger. */
  lemma ReplaceKeeps(m: Sessions, t: Totals, l: Limits, id: bytes, s: Session)
    requires id in m && Ledger(m, t, l) && SessionWithin(s, l)
    requires var t' := Adjust(t, m[id], s);
             t'.pendingMessages <= l.maxPendingMessagesGlobal && t'.pendingBytes <= l.maxPendingBytesGlobal
             && t'.subscriptions <= l.maxSubscriptionsGlobal
    ensures Ledger(m[id := s], Adjust(t, m[id], s), l)
  {
    hide Balanced, SessionWithin, Adjust, Accepted;
    ReplaceBalances(m, t, id, s);
    assert m[id := s].Keys == m.Keys;
  }

  lemma InsertKeeps(m: Sessions, t: Totals, l: Limits, id: bytes, s: Session)
    requires id !in m && Ledger(m, t, l) && |m| < l.maxSessions
    requires s.queue == EMPTY && s.subscriptions == map[]
    ensures Ledger(m[id := s], t, l)
  {
    hide Sum, PendingMessages, PendingBytes, Inflight, Subscriptions, SessionWithin, Accepted;
    NewCostsNothing(s, l);
    SumPut(m, PendingMessages, id, s);
    SumPut(m, PendingBytes, id, s);
    SumPut(m, Inflight, id, s);
    SumPut(m, Subscriptions, id, s);
    assert m[id := s].Keys == m.Keys + {id};
  }

  lemma NewCostsNothing(s: Session, l: Limits)
    requires Accepted(l) && s.queue == EMPTY && s.subscriptions == map[]
    ensures PendingMessages(s) == 0 && PendingBytes(s) == 0 && Inflight(s) == 0 && Subscriptions(s) == 0 && SessionWithin(s, l)
  {
  }

  /** Taking a session out takes exactly its costs off the totals. */
  function Release(t: Totals, s: Session): Totals {
    t.(pendingMessages := t.pendingMessages - PendingMessages(s), pendingBytes := t.pendingBytes - PendingBytes(s),
       inflight := t.inflight - Inflight(s), subscriptions := t.subscriptions - Subscriptions(s))
  }

  lemma RemoveKeeps(m: Sessions, t: Totals, l: Limits, id: bytes)
    requires id in m && Ledger(m, t, l)
    ensures Ledger(m - {id}, Release(t, m[id]), l)
  {
    hide Sum, SessionWithin, FlightBytes, MessageBytes;
    SumDrop(m, PendingMessages, id);
    SumDrop(m, PendingBytes, id);
    SumDrop(m, Inflight, id);
    SumDrop(m, Subscriptions, id);
    assert (m - {id}).Keys == m.Keys - {id};
  }

  // ----- Costs of the queue operations

  lemma {:induction false} FlightBytesConcat(a: seq<Flight>, b: seq<Flight>)
    ensures FlightBytes(a + b) == FlightBytes(a) + FlightBytes(b)
  {
    if a == [] {
      assert a + b == b;
    } else {
      assert (a + b)[1..] == a[1..] + b;
      FlightBytesConcat(a[1..], b);
    }
  }

  lemma {:induction false} MessageBytesSnoc(a: seq<Message>, m: Message)
    ensures MessageBytes(a + [m]) == MessageBytes(a) + |m.data|
  {
    if a == [] {
      assert a + [m] == [m];
    } else {
      assert (a + [m])[1..] == a[1..] + [m];
      MessageBytesSnoc(a[1..], m);
    }
  }

  lemma FlightBytesDrop(fs: seq<Flight>, k: nat)
    requires k < |fs|
    ensures FlightBytes(Drop(fs, k)) == FlightBytes(fs) - |fs[k].message.data|
  {
    FlightBytesConcat(fs[..k], fs[k + 1..]);
    FlightBytesConcat(fs[..k], fs[k..]);
    assert fs == fs[..k] + fs[k..];
    assert fs[k..][1..] == fs[k + 1..];
  }

  lemma AdmitCosts(s: Session, data: bytes, offset: nat)
    ensures var s' := s.(queue := Admit(s.queue, data, offset));
            && PendingMessages(s') == PendingMessages(s) + 1 && PendingBytes(s') == PendingBytes(s) + |data|
            && Inflight(s') == Inflight(s)
  {
    MessageBytesSnoc(s.queue.unsent, Message(s.queue.admitted, data, offset));
  }

  lemma SendCosts(s: Session)
    requires s.queue.replay != [] || s.queue.unsent != []
    ensures var s' := s.(queue := Send(s.queue));
            && PendingMessages(s') == PendingMessages(s) && PendingBytes(s') == PendingBytes(s)
            && Inflight(s') == Inflight(s) + if s.queue.replay != [] then 0 else 1
  {
    var q := s.queue;
    if q.replay != [] {
      FlightsAfterReplay(q);
    } else {
      var f := Upcoming(q).0;
      assert Flights(Send(q)) == Flights(q) + [f];
      FlightBytesConcat(Flights(q), [f]);
      assert FlightBytes([f]) == |q.unsent[0].data| + FlightBytes([f][1..]);
    }
  }

  lemma AckCosts(s: Session, id: nat)
    requires InFlight(s.queue, id)
    ensures var s' := s.(queue := Ack(s.queue, id));
            var f := Flights(s.queue)[IndexOf(Flights(s.queue), id)];
            && PendingMessages(s') == PendingMessages(s) - 1 && PendingBytes(s') == PendingBytes(s) - |f.message.data|
            && Inflight(s') == Inflight(s) - 1
  {
    FlightsAfterAck(s.queue, id);
    FlightBytesDrop(Flights(s.queue), IndexOf(Flights(s.queue), id));
  }

  lemma BeginCosts(s: Session)
    ensures var s' := s.(queue := Begin(s.queue));
            PendingMessages(s') == PendingMessages(s) && PendingBytes(s') == PendingBytes(s) && Inflight(s') == Inflight(s)
  {
    assert Flights(Begin(s.queue)) == Flights(s.queue);
  }
}
