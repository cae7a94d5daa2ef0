/** What each operation of a session store answers and does to the books, on values. */
module Books {
  import opened Bytes
  import opened Delivery
  import opened Accounts
  import opened Template
  import opened Lifetimes
  import Levels

  datatype Outcome = Malformed | Removed | SessionLimit | GlobalLimit | Taken

  function WithQueue(s: Session, q: Queue): Session {
    s.(queue := q)
  }

  /** What `Admit` answers, from the stored sessions alone. */
  ghost function AdmitOutcome(m: Sessions, id: bytes, deleted: bool, data: bytes, offset: int, l: Limits): Outcome {
    if !Admissible(data, offset) then Malformed
    else if deleted || id !in m then Removed
    else if OverSession(m[id], |data|, l) then SessionLimit
    else if OverGlobal(m, |data|, l) then GlobalLimit
    else Taken
  }

  ghost predicate OverSession(s: Session, size: nat, l: Limits) {
    PendingMessages(s) + 1 > l.maxPendingMessagesPerSession || PendingBytes(s) + size > l.maxPendingBytesPerSession
  }

  ghost predicate OverGlobal(m: Sessions, size: nat, l: Limits) {
    Sum(m, PendingMessages) + 1 > l.maxPendingMessagesGlobal || Sum(m, PendingBytes) + size > l.maxPendingBytesGlobal
  }

  lemma SameBooks(m: Sessions, t: Totals, t': Totals, l: Limits)
    requires Ledger(m, t, l)
    requires t'.pendingMessages == t.pendingMessages && t'.pendingBytes == t.pendingBytes
    requires t'.inflight == t.inflight && t'.subscriptions == t.subscriptions
    ensures Ledger(m, t', l)
  {
    hide Sum, SessionWithin, Accepted;
  }

  lemma AdmitBooks(m: Sessions, t: Totals, l: Limits, id: bytes, data: bytes, offset: nat)
    requires Ledger(m, t, l) && id in m && !OverSession(m[id], |data|, l) && !OverGlobal(m, |data|, l)
    ensures Ledger(m[id := WithQueue(m[id], Delivery.Admit(m[id].queue, data, offset))],
                   t.(pendingMessages := t.pendingMessages + 1, pendingBytes := t.pendingBytes + |data|), l)
  {
    hide Sum, PendingMessages, PendingBytes, Inflight, Sound, Delivery.Admit;
    var s' := WithQueue(m[id], Delivery.Admit(m[id].queue, data, offset));
    AdmitCosts(m[id], data, offset);
    AdmitStaysSound(m[id].queue, data, offset, l.maxInflightMessagesPerSession);
    assert SessionWithin(m[id], l);
    ReplaceKeeps(m, t, l, id, s');
  }

  /** A change that costs the same keeps the books as they are. */
  lemma KeepBooks(m: Sessions, t: Totals, l: Limits, id: bytes, s: Session)
    requires Ledger(m, t, l) && id in m && s.subscriptions == m[id].subscriptions && Sound(s.queue, l.maxInflightMessagesPerSession)
    requires PendingMessages(s) == PendingMessages(m[id]) && PendingBytes(s) == PendingBytes(m[id]) && Inflight(s) == Inflight(m[id])
    ensures Ledger(m[id := s], t, l)
  {
    hide Sum, PendingMessages, PendingBytes, Inflight, Sound;
    assert SessionWithin(m[id], l);
    assert Adjust(t, m[id], s) == t;
    ReplaceKeeps(m, t, l, id, s);
  }

  lemma PauseBooks(m: Sessions, t: Totals, l: Limits, id: bytes, paused: bool)
    requires Ledger(m, t, l) && id in m
    ensures Ledger(m[id := WithQueue(m[id], m[id].queue.(paused := paused))], t, l)
  {
    hide Sum, FlightBytes, MessageBytes, Numbered;
    var s := WithQueue(m[id], m[id].queue.(paused := paused));
    assert SessionWithin(m[id], l);
    assert Flights(s.queue) == Flights(m[id].queue);
    KeepBooks(m, t, l, id, s);
  }

  lemma BeginBooks(m: Sessions, t: Totals, l: Limits, id: bytes)
    requires Ledger(m, t, l) && id in m
    ensures Ledger(m[id := WithQueue(m[id], Begin(m[id].queue))], t, l)
  {
    hide Sum, PendingMessages, PendingBytes, Inflight, Sound, Begin;
    assert SessionWithin(m[id], l);
    BeginStaysSound(m[id].queue, l.maxInflightMessagesPerSession);
    BeginCosts(m[id]);
    KeepBooks(m, t, l, id, WithQueue(m[id], Begin(m[id].queue)));
  }

  /** Only a first send puts one more message in flight. */
  lemma SendBooks(m: Sessions, t: Totals, l: Limits, id: bytes)
    requires Ledger(m, t, l) && id in m && HasNext(m[id].queue, l.maxInflightMessagesPerSession)
    ensures Ledger(m[id := WithQueue(m[id], Send(m[id].queue))], t.(inflight := t.inflight + if m[id].queue.replay != [] then 0 else 1), l)
  {
    hide Sum, PendingMessages, PendingBytes, Inflight, Sound, Send;
    var s := WithQueue(m[id], Send(m[id].queue));
    assert SessionWithin(m[id], l);
    SendStaysSound(m[id].queue, l.maxInflightMessagesPerSession);
    SendCosts(m[id]);
    ReplaceKeeps(m, t, l, id, s);
  }

  lemma AckBooks(m: Sessions, t: Totals, l: Limits, id: bytes, packetID: nat)
    requires Ledger(m, t, l) && id in m && InFlight(m[id].queue, packetID)
    ensures Ledger(m[id := WithQueue(m[id], Delivery.Ack(m[id].queue, packetID))],
                   t.(pendingMessages := t.pendingMessages - 1, pendingBytes := t.pendingBytes - |Acked(m[id].queue, packetID).data|,
                      inflight := t.inflight - 1), l)
  {
    hide Sum, PendingMessages, PendingBytes, Inflight, Sound, Delivery.Ack, IndexOf;
    var s := WithQueue(m[id], Delivery.Ack(m[id].queue, packetID));
    assert SessionWithin(m[id], l);
    AckStaysSound(m[id].queue, packetID, l.maxInflightMessagesPerSession);
    AckCosts(m[id], packetID);
    ReplaceKeeps(m, t, l, id, s);
  }

  // ----- Subscriptions

  datatype Grant = Gone | FilterTooLarge | TooMany | Granted

  /** What `SetSubscription` answers, from the stored sessions alone. */
  ghost function GrantOutcome(m: Sessions, id: bytes, deleted: bool, filter: bytes, l: Limits): Grant {
    if deleted || id !in m then Gone
    else if |filter| > l.maxFilterBytes || |Levels.Split(filter)| > l.maxFilterLevels then FilterTooLarge
    else if filter !in m[id].subscriptions
         && (|m[id].subscriptions| + 1 > l.maxSubscriptionsPerSession || Sum(m, Subscriptions) + 1 > l.maxSubscriptionsGlobal) then TooMany
    else Granted
  }

  function Subscribed(s: Session, filter: bytes, qos: nat): Session {
    s.(subscriptions := s.subscriptions[filter := qos])
  }

  function Unsubscribed(s: Session, filter: bytes): Session {
    s.(subscriptions := s.subscriptions - {filter})
  }

  lemma OneMoreKey(subs: map<bytes, nat>, filter: bytes, qos: nat)
    ensures |subs[filter := qos]| == |subs| + if filter in subs then 0 else 1
  {
    assert subs[filter := qos].Keys == subs.Keys + {filter};
  }

  lemma SameQueueCosts(s: Session, s': Session)
    requires s'.queue == s.queue
    ensures PendingMessages(s') == PendingMessages(s) && PendingBytes(s') == PendingBytes(s) && Inflight(s') == Inflight(s)
  {
  }

  lemma SubscribeBooks(m: Sessions, t: Totals, l: Limits, id: bytes, filter: bytes, qos: nat)
    requires Ledger(m, t, l) && id in m
    requires filter in m[id].subscriptions
          || (|m[id].subscriptions| < l.maxSubscriptionsPerSession && t.subscriptions < l.maxSubscriptionsGlobal)
    ensures Ledger(m[id := Subscribed(m[id], filter, qos)],
                   t.(subscriptions := t.subscriptions + if filter in m[id].subscriptions then 0 else 1), l)
  {
    hide Sum, PendingMessages, PendingBytes, Inflight, Sound;
    var subs := m[id].subscriptions;
    assert SessionWithin(m[id], l);
    OneMoreKey(subs, filter, qos);
    SameQueueCosts(m[id], Subscribed(m[id], filter, qos));
    ReplaceKeeps(m, t, l, id, Subscribed(m[id], filter, qos));
  }

  lemma UnsubscribeBooks(m: Sessions, t: Totals, l: Limits, id: bytes, filter: bytes)
    requires Ledger(m, t, l) && id in m && filter in m[id].subscriptions
    ensures Ledger(m[id := Unsubscribed(m[id], filter)], t.(subscriptions := t.subscriptions - 1), l)
  {
    hide Sum, FlightBytes, MessageBytes, Sound;
    var subs := m[id].subscriptions;
    assert SessionWithin(m[id], l);
    assert (subs - {filter}).Keys == subs.Keys - {filter};
    ReplaceKeeps(m, t, l, id, Unsubscribed(m[id], filter));
  }

  /** One slash fewer than there are levels. */
  function Slashes(s: bytes): (n: nat)
    ensures n + 1 == |Levels.Split(s)|
  {
    if s == [] then 0 else Slashes(s[1..]) + if s[0] == SLASH then 1 else 0
  }

  // ----- Expiry

  predicate Expired(s: Session, now: int, l: Limits) {
    Overdue(s.connected, s.offlineSince, now, l.offlineTTL)
  }

  lemma ExpiredMeans(s: Session, now: int, l: Limits)
    requires l.offlineTTL >= 0
    ensures Expired(s, now, l) <==>
              l.offlineTTL > 0 && !s.connected && s.offlineSince.Some? && now >= s.offlineSince.value + l.offlineTTL
  {
  }

  /** How far a sweep over the sessions `m` has come: `rest` remain, `left` have not been looked at. */
  ghost predicate Swept(m: Sessions, rest: Sessions, left: set<bytes>, expired: seq<bytes>, now: int, l: Limits) {
    && left <= m.Keys
    && (forall id :: id in rest <==> id in m && (id in left || !Expired(m[id], now, l)))
    && (forall id :: id in rest ==> rest[id] == m[id])
    && (forall id :: id in expired <==> id in m && id !in left && Expired(m[id], now, l))
    && (forall i, j :: 0 <= i < j < |expired| ==> expired[i] != expired[j])
  }

  lemma SweepStarts(m: Sessions, now: int, l: Limits)
    ensures Swept(m, m, m.Keys, [], now, l)
  {
  }

  lemma SweepStep(m: Sessions, rest: Sessions, left: set<bytes>, expired: seq<bytes>, id: bytes, now: int, l: Limits)
    requires Swept(m, rest, left, expired, now, l) && id in left
    ensures id in rest && rest[id] == m[id]
    ensures if Expired(m[id], now, l) then Swept(m, rest - {id}, left - {id}, expired + [id], now, l)
            else Swept(m, rest, left - {id}, expired, now, l)
  {
    hide Expired;
  }

  lemma SweepEnds(m: Sessions, rest: Sessions, expired: seq<bytes>, now: int, l: Limits)
    requires Swept(m, rest, {}, expired, now, l)
    ensures forall id :: id in rest <==> id in m && !Expired(m[id], now, l)
    ensures forall id :: id in rest ==> rest[id] == m[id]
    ensures forall id :: id in expired <==> id in m && Expired(m[id], now, l)
    ensures forall i, j :: 0 <= i < j < |expired| ==> expired[i] != expired[j]
  {
    hide Expired;
  }

  // ----- The books of stores without, or with one fewer, session

  lemma EmptyLedger(l: Limits)
    requires Accepted(l)
    ensures Ledger(map[], NO_TOTALS, l)
  {
    assert Costs(map[], PendingMessages) == map[] && Costs(map[], PendingBytes) == map[];
    assert Costs(map[], Inflight) == map[] && Costs(map[], Subscriptions) == map[];
  }

  lemma ReleaseIs(t: Totals, s: Session)
    ensures Release(t, s) == t.(pendingMessages := t.pendingMessages - PendingMessages(s), pendingBytes := t.pendingBytes - PendingBytes(s),
                                inflight := t.inflight - Inflight(s), subscriptions := t.subscriptions - |s.subscriptions|)
  {
  }
}
