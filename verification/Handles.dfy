/** The life of one session object over every interleaving: who may delete it, what changes it, and
    what a client finds again when it reconnects. */
module Handles {
  import opened Bytes
  import opened Routing
  import opened Lifetimes
  import opened Ownership

  /** Offline for at least the whole time to live; without a time to live, never. */
  predicate TimedOut(s: Handle, now: int, ttl: nat) {
    ttl > 0 && !s.connected && s.offlineSince.Some? && now - s.offlineSince.value >= ttl
  }

  predicate Stands(w: World, c: nat, pc: Pc) {
    c in w.conns && w.conns[c].pc == pc
  }

  /** Connection `c` closes its session, `h`: its consumer has ended and the lock is free. */
  predicate Closes(w: World, c: nat, h: nat) {
    Stands(w, c, Joining(h)) && w.conns[c].consumer.None? && w.lock == FREE
  }

  /** The step ends the life of a session: it timed out, in the sweep or when its client reconnects; or
      a client that asked for a clean session starts or closes. */
  predicate Ends(w: World, a: Action, h: nat)
    requires h < |w.handles|
  {
    var s := w.handles[h];
    match a
    case Expire(now, ttl) => w.lock == FREE && TimedOut(s, now, ttl)
    case ExpireSession(c, now, ttl) => Stands(w, c, Checked) && w.conns[c].id == s.id && TimedOut(s, now, ttl)
    case CleanSession(c) => Stands(w, c, Cleaned) && w.conns[c].id == s.id && w.conns[c].clean
    case Close(c, _) => Closes(w, c, h) && w.conns[c].clean
    case _ => false
  }

  /** What a step makes of a session object. */
  function Life(w: World, a: Action, h: nat): Handle
    requires h < |w.handles|
  {
    var s := w.handles[h];
    if s.deleted then s
    else if Ends(w, a, h) then s.(deleted := true, subscriptions := map[])
    else
      match a
      case MarkConnected(c) => if Stands(w, c, Marking(h)) then s.(connected := true, offlineSince := None) else s
      case BeginDelivery(c) =>
        if Stands(w, c, Starting(h)) then s.(epoch := if s.epoch < MAX_EPOCH then s.epoch + 1 else 0) else s
      case SetSubscription(c, f, q) =>
        if Stands(w, c, Serving(h)) then s.(subscriptions := s.subscriptions[f := if q == 0 then 0 else 1]) else s
      case DeleteSubscription(c) =>
        if c in w.conns && w.conns[c].pc.Unsubscribing? && w.conns[c].pc.h == h
        then s.(subscriptions := s.subscriptions - {w.conns[c].pc.filter}) else s
      case Close(c, at) => if Closes(w, c, h) then s.(connected := false, offlineSince := Some(at)) else s
      case _ => s
  }

  /** The step files a new, empty session for the owner of a connection. */
  predicate Files(w: World, a: Action) {
    a.Open? && Stands(w, a.c, Opening) && w.conns[a.c].id !in w.stored
  }

  ghost predicate Lives(w: World, a: Action, v: World) {
    && |v.handles| == |w.handles| + (if Files(w, a) then 1 else 0)
    && (forall h :: 0 <= h < |w.handles| ==> v.handles[h] == Life(w, a, h))
    && (Files(w, a) ==> v.handles[|w.handles|] == Handle(w.conns[a.c].id, w.conns[a.c].owner, map[], false, Some(a.now), 0, false))
  }

  // ----- What is kept besides

  /** A connection that cleans asked for it; one past that finds nothing stored; and whoever gets a
      session is its owner. */
  ghost predicate ConnTidy(w: World, c: nat)
    requires c in w.conns
  {
    var k := w.conns[c];
    && (k.pc.Cleaning? || k.pc.Cleaned? ==> k.clean)
    && (Acquiring(k.pc) && k.id in w.stored ==> Get(w, w.stored[k.id]).owner == k.owner)
    && (Registered(k.pc) && k.id in w.stored ==> Get(w, w.stored[k.id]).owner == k.owner)
    && (k.clean && k.pc.Opening? ==> k.id !in w.stored)
    && (k.clean && (k.pc.Marking? || k.pc.Reading?) ==> Get(w, k.pc.h).subscriptions == map[])
    && (k.pc.Releasing? && k.id in w.stored ==> !Get(w, w.stored[k.id]).connected)
  }

  /** A stored session is marked connected only while a connection holds it, and knows since when it
      is offline otherwise. */
  ghost predicate StoredTidy(w: World, id: bytes) {
    id in w.stored ==>
      var s := Get(w, w.stored[id]);
      && (s.connected ==> id in w.clients || Seized(w, id))
      && (!s.connected ==> s.offlineSince.Some?)
  }

  /** A connection that is being registered has marked the session of `id` connected. */
  predicate Seized(w: World, id: bytes) {
    w.lock.Held? && w.lock.c in w.conns && w.conns[w.lock.c].id == id && (w.conns[w.lock.c].pc.Reading? || w.conns[w.lock.c].pc.Restoring?)
  }

  ghost predicate Tidy(w: World) {
    (forall c :: c in w.conns ==> ConnTidy(w, c)) && forall id :: StoredTidy(w, id)
  }

  // ----- Every step follows the life of each object

  predicate OfConn(a: Action) {
    !a.Expire? && !a.Connect? && !a.SweepOne? && !a.SweepEnd? && !a.ReadLock? && !a.Snapshot? && !a.ReadUnlock?
  }

  /** What a live object has to do with the store, and a connection with its object. */
  lemma Facts(w: World, c: nat)
    requires Inv(w) && c in w.conns
    ensures ConnOk(w, c) && FileOk(w, w.conns[c].id)
  {
    hide ConnOk, FileOk;
    assert Sane(w, w.conns[c].id);
  }

  lemma LiveIsStored(w: World, h: nat)
    requires Inv(w) && h < |w.handles| && !w.handles[h].deleted
    ensures w.handles[h].id in w.stored && w.stored[w.handles[h].id] == h
  {
    hide ConnsOk, ListOk, RoutesOk, Shielded;
    assert Sane(w, w.handles[h].id);
  }

  lemma DeletedIsNotStored(w: World, h: nat)
    requires Inv(w) && h < |w.handles| && w.handles[h].deleted
    ensures w.handles[h].id in w.stored ==> w.stored[w.handles[h].id] != h
  {
    hide ConnsOk, ListOk, RoutesOk, Shielded;
    assert Sane(w, w.handles[h].id);
  }

  lemma TidyFacts(w: World, c: nat)
    requires Tidy(w) && c in w.conns
    ensures ConnTidy(w, c)
  {
  }

  lemma ExpireLives(w: World, now: int, ttl: nat, h: nat)
    requires Inv(w) && Tidy(w) && h < |w.handles|
    ensures Get(Step(w, Expire(now, ttl)), h) == Life(w, Expire(now, ttl), h)
  {
    hide Inv, Tidy, ConnTidy;
    assert Get(Step(w, Expire(now, ttl)), h) == (if w.lock == FREE then Get(DeleteAll(w, Late(w, now, ttl)), h) else w.handles[h]) by {
      hide DeleteAll, Late;
    }
    if w.handles[h].deleted {
      DeletedIsNotStored(w, h);
    } else {
      LiveIsStored(w, h);
    }
  }

  lemma ExpireSessionLives(w: World, c: nat, now: int, ttl: nat, h: nat)
    requires Inv(w) && Tidy(w) && h < |w.handles|
    ensures Get(Step(w, ExpireSession(c, now, ttl)), h) == Life(w, ExpireSession(c, now, ttl), h)
  {
    hide Inv, Tidy, Ownership.Update;
    if c in w.conns {
      Facts(w, c);
      TidyFacts(w, c);
    }
    if !w.handles[h].deleted {
      LiveIsStored(w, h);
    }
  }

  lemma CleanSessionLives(w: World, c: nat, h: nat)
    requires Inv(w) && Tidy(w) && h < |w.handles|
    ensures Get(Step(w, CleanSession(c)), h) == Life(w, CleanSession(c), h)
  {
    hide Inv, Tidy, Ownership.Update;
    if c in w.conns {
      Facts(w, c);
      TidyFacts(w, c);
    }
    if !w.handles[h].deleted {
      LiveIsStored(w, h);
    }
  }

  lemma OpenLives(w: World, c: nat, now: int, h: nat)
    requires Inv(w) && Tidy(w) && h < |w.handles|
    ensures Get(Step(w, Open(c, now)), h) == Life(w, Open(c, now), h)
  {
    hide Inv, Tidy, Ownership.Update;
    if c in w.conns {
      Facts(w, c);
      TidyFacts(w, c);
    }
    if !w.handles[h].deleted {
      LiveIsStored(w, h);
    }
  }

  lemma MarkConnectedLives(w: World, c: nat, h: nat)
    requires Inv(w) && Tidy(w) && h < |w.handles|
    ensures Get(Step(w, MarkConnected(c)), h) == Life(w, MarkConnected(c), h)
  {
    hide Inv, Tidy, Ownership.Update;
    if c in w.conns {
      Facts(w, c);
      TidyFacts(w, c);
    }
    if !w.handles[h].deleted {
      LiveIsStored(w, h);
    }
  }

  lemma BeginDeliveryLives(w: World, c: nat, h: nat)
    requires Inv(w) && Tidy(w) && h < |w.handles|
    ensures Get(Step(w, BeginDelivery(c)), h) == Life(w, BeginDelivery(c), h)
  {
    hide Inv, Tidy, Ownership.Update;
    if c in w.conns {
      Facts(w, c);
      TidyFacts(w, c);
    }
    if !w.handles[h].deleted {
      LiveIsStored(w, h);
    }
  }

  lemma SetSubscriptionLives(w: World, c: nat, f: bytes, q: nat, h: nat)
    requires Inv(w) && Tidy(w) && h < |w.handles|
    ensures Get(Step(w, SetSubscription(c, f, q)), h) == Life(w, SetSubscription(c, f, q), h)
  {
    hide Inv, Tidy, Ownership.Update;
    if c in w.conns {
      Facts(w, c);
      TidyFacts(w, c);
    }
    if !w.handles[h].deleted {
      LiveIsStored(w, h);
    }
  }

  lemma DeleteSubscriptionLives(w: World, c: nat, h: nat)
    requires Inv(w) && Tidy(w) && h < |w.handles|
    ensures Get(Step(w, DeleteSubscription(c)), h) == Life(w, DeleteSubscription(c), h)
  {
    hide Inv, Tidy, Ownership.Update;
    if c in w.conns {
      Facts(w, c);
      TidyFacts(w, c);
    }
    if !w.handles[h].deleted {
      LiveIsStored(w, h);
    }
  }

  lemma CloseLives(w: World, c: nat, at: int, h: nat)
    requires Inv(w) && Tidy(w) && h < |w.handles|
    ensures Get(Step(w, Close(c, at)), h) == Life(w, Close(c, at), h)
  {
    hide Inv, Tidy, Ownership.Update;
    if c in w.conns {
      Facts(w, c);
      TidyFacts(w, c);
    }
    if !w.handles[h].deleted {
      LiveIsStored(w, h);
    }
  }

  predicate Touches(a: Action) {
    || a.Expire? || a.ExpireSession? || a.CleanSession? || a.Open? || a.MarkConnected? || a.BeginDelivery?
    || a.SetSubscription? || a.DeleteSubscription? || a.Close?
  }

  lemma OthersLeave(w: World, a: Action)
    requires !Touches(a)
    ensures Step(w, a).handles == w.handles && Step(w, a).stored == w.stored
  {
    hide DeleteAll, Advance;
    if OfConn(a) && a.c in w.conns {
      if Working(w.conns[a.c].pc) {
        WorkingLeaves(w, a);
      } else {
        OpeningLeaves(w, a);
      }
    }
  }

  lemma WorkingLeaves(w: World, a: Action)
    requires OfConn(a) && !Touches(a) && a.c in w.conns && Working(w.conns[a.c].pc)
    ensures Advance(w, a.c, w.conns[a.c], a).handles == w.handles && Advance(w, a.c, w.conns[a.c], a).stored == w.stored
  {
    hide Delete, Put;
  }

  lemma OpeningLeaves(w: World, a: Action)
    requires OfConn(a) && !Touches(a) && a.c in w.conns && !Working(w.conns[a.c].pc)
    ensures Advance(w, a.c, w.conns[a.c], a).handles == w.handles && Advance(w, a.c, w.conns[a.c], a).stored == w.stored
  {
    hide Delete, Put;
  }

  lemma OpenFiles(w: World, c: nat, now: int)
    ensures var v := Step(w, Open(c, now));
            && |v.handles| == |w.handles| + (if Files(w, Open(c, now)) then 1 else 0)
            && (Files(w, Open(c, now)) ==> v.handles[|w.handles|] == Handle(w.conns[c].id, w.conns[c].owner, map[], false, Some(now), 0, false))
  {
  }

  lemma PutKeepsCount(w: World)
    ensures forall h, s :: |Put(w, h, s).handles| == |w.handles|
    ensures forall id :: |Delete(w, id).handles| == |w.handles|
  {
  }

  lemma DeletersKeepCount(w: World, a: Action)
    requires a.Expire? || a.ExpireSession? || a.CleanSession? || a.Close?
    ensures |Step(w, a).handles| == |w.handles|
  {
    hide Expired, Late, Offline, Get, Put, Delete;
    PutKeepsCount(w);
  }

  lemma TouchersKeepCount(w: World, a: Action)
    requires a.MarkConnected? || a.BeginDelivery? || a.SetSubscription? || a.DeleteSubscription?
    ensures |Step(w, a).handles| == |w.handles|
  {
    hide NextEpoch, Get, Delete;
  }

  lemma OneLives(w: World, a: Action, h: nat)
    requires Inv(w) && Tidy(w) && h < |w.handles|
    ensures Get(Step(w, a), h) == Life(w, a, h)
  {
    hide Inv, Tidy, Step, Life;
    match a {
      case Expire(now, ttl) => ExpireLives(w, now, ttl, h);
      case ExpireSession(c, now, ttl) => ExpireSessionLives(w, c, now, ttl, h);
      case CleanSession(c) => CleanSessionLives(w, c, h);
      case Open(c, now) => OpenLives(w, c, now, h);
      case MarkConnected(c) => MarkConnectedLives(w, c, h);
      case BeginDelivery(c) => BeginDeliveryLives(w, c, h);
      case SetSubscription(c, f, q) => SetSubscriptionLives(w, c, f, q, h);
      case DeleteSubscription(c) => DeleteSubscriptionLives(w, c, h);
      case Close(c, at) => CloseLives(w, c, at, h);
      case _ =>
        OthersLeave(w, a);
        OthersLive(w, a, h);
    }
  }

  lemma OthersLive(w: World, a: Action, h: nat)
    requires !Touches(a) && h < |w.handles|
    ensures Life(w, a, h) == w.handles[h]
  {
  }

  lemma StepLives(w: World, a: Action)
    requires Inv(w) && Tidy(w)
    ensures Lives(w, a, Step(w, a))
  {
    hide Inv, Tidy, Step, Life;
    if a.Open? {
      OpenFiles(w, a.c, a.now);
    } else if a.Expire? || a.ExpireSession? || a.CleanSession? || a.Close? {
      DeletersKeepCount(w, a);
    } else if Touches(a) {
      TouchersKeepCount(w, a);
    } else {
      OthersLeave(w, a);
    }
    forall h | 0 <= h < |w.handles| ensures Step(w, a).handles[h] == Life(w, a, h) {
      OneLives(w, a, h);
    }
  }

  // ----- Every step keeps things tidy

  /** What the store holds for `id` after a step: what it held, as its life goes on, or a new session. */
  ghost predicate StoredAfter(w: World, a: Action, v: World, id: bytes) {
    && (id in v.stored ==> v.stored[id] < |v.handles| && !v.handles[v.stored[id]].deleted)
    && (id in w.stored ==> w.stored[id] < |w.handles| && w.handles[w.stored[id]].id == id)
    && (id in v.stored && !(Files(w, a) && w.conns[a.c].id == id) ==>
          id in w.stored && v.stored[id] == w.stored[id] && Get(v, v.stored[id]) == Life(w, a, w.stored[id]))
    && (Files(w, a) && w.conns[a.c].id == id ==>
          id in v.stored && v.stored[id] == |w.handles| && Get(v, |w.handles|) == Handle(id, w.conns[a.c].owner, map[], false, Some(a.now), 0, false))
    && (id in w.stored && !Life(w, a, w.stored[id]).deleted ==> id in v.stored && v.stored[id] == w.stored[id])
  }

  lemma StoredStep(w: World, a: Action, id: bytes)
    requires Inv(w) && Tidy(w)
    ensures StoredAfter(w, a, Step(w, a), id)
  {
    hide Inv, Tidy, Step, Ends, TimedOut;
    StepKeeps(w, a);
    StepLives(w, a);
    FiledAt(w, id);
    FiledAt(Step(w, a), id);
  }

  lemma FiledAt(w: World, id: bytes)
    requires Inv(w)
    ensures FileOk(w, id)
  {
    hide FileOk, ConnsOk, ListOk, RoutesOk;
    assert Sane(w, id);
  }

  /** The connection takes part in its identifier's affairs. */
  predicate Busy(k: Conn) {
    Acquiring(k.pc) || Registered(k.pc)
  }

  /** A step of one connection leaves the session of another busy connection alone. */
  lemma Bystander(w: World, a: Action, c: nat)
    requires Inv(w) && Tidy(w) && c in w.conns && Busy(w.conns[c]) && OfConn(a) && a.c != c
    ensures !(Files(w, a) && w.conns[a.c].id == w.conns[c].id)
    ensures w.conns[c].id in w.stored ==>
              w.stored[w.conns[c].id] < |w.handles| && Life(w, a, w.stored[w.conns[c].id]) == w.handles[w.stored[w.conns[c].id]]
  {
    hide Inv, Tidy, RoutesOk, Files, TimedOut;
    FiledAt(w, w.conns[c].id);
    if a.c in w.conns {
      Facts(w, a.c);
      if w.conns[a.c].id == w.conns[c].id {
        OthersIdle(w, c, a.c);
      }
    }
    FilesMeans(w, a);
  }

  lemma FilesMeans(w: World, a: Action)
    ensures Files(w, a) ==> OfConn(a) && a.c in w.conns && w.conns[a.c].pc == Opening && w.conns[a.c].id !in w.stored
  {
  }

  /** A sweep marks nobody connected and changes no owner; what it keeps, it keeps as it is. */
  lemma SweepIsPlain(w: World, a: Action, h: nat)
    requires !OfConn(a) && h < |w.handles|
    ensures Life(w, a, h) == w.handles[h] || Life(w, a, h).deleted
  {
  }

  /** What a connection finds stored for its identifier after a step of somebody else. */
  lemma FoundAgain(w: World, a: Action, c: nat)
    requires Inv(w) && Tidy(w) && c in w.conns && Busy(w.conns[c]) && (OfConn(a) ==> a.c != c)
    ensures var v, id := Step(w, a), w.conns[c].id;
            id in v.stored ==> id in w.stored && v.stored[id] == w.stored[id] && Get(v, v.stored[id]) == Get(w, w.stored[id])
  {
    hide Inv, Tidy, Step, Life, Files, Busy;
    var id := w.conns[c].id;
    StoredStep(w, a, id);
    FilesMeans(w, a);
    if OfConn(a) {
      Bystander(w, a, c);
    } else if id in w.stored {
      SweepIsPlain(w, a, w.stored[id]);
    }
  }

  /** Only the acting connection moves. */
  lemma OthersStand(w: World, a: Action, c: nat)
    requires c in Step(w, a).conns && (a.Connect? || OfConn(a) ==> a.c != c)
    ensures c in w.conns && Step(w, a).conns[c] == w.conns[c]
  {
    hide Advance;
    if OfConn(a) && a.c in w.conns {
      AdvanceMoves(w, a);
    }
  }

  /** A connection moves only itself, and keeps its name, owner and wish for a clean session. */
  ghost predicate SelfOnly(m: map<nat, Conn>, m': map<nat, Conn>, c: nat) {
    m' == m || (c in m && c in m' && m' == m[c := m'[c]] && m'[c].id == m[c].id && m'[c].owner == m[c].owner && m'[c].clean == m[c].clean)
  }

  lemma AdvanceMoves(w: World, a: Action)
    requires OfConn(a) && a.c in w.conns
    ensures SelfOnly(w.conns, Advance(w, a.c, w.conns[a.c], a).conns, a.c)
  {
    hide Advance, SelfOnly;
    if a.ExpireSession? || a.CleanSession? || a.Close? {
      DeletersMove(w, a);
    } else if Touches(a) {
      TouchersMove(w, a);
    } else if Working(w.conns[a.c].pc) {
      WorkingMoves(w, a);
    } else {
      OpeningMoves(w, a);
    }
  }

  lemma PutMovesNobody(w: World)
    ensures forall h, s :: Put(w, h, s).conns == w.conns && Put(w, h, s).clients == w.clients
    ensures forall id :: Delete(w, id).conns == w.conns && Delete(w, id).clients == w.clients
  {
  }

  lemma DeletersMove(w: World, a: Action)
    requires (a.ExpireSession? || a.CleanSession? || a.Close?) && a.c in w.conns
    ensures SelfOnly(w.conns, Advance(w, a.c, w.conns[a.c], a).conns, a.c)
  {
    hide Expired, Offline, Get, Put, Delete;
    PutMovesNobody(w);
  }

  lemma TouchersMove(w: World, a: Action)
    requires (a.Open? || a.MarkConnected? || a.BeginDelivery? || a.SetSubscription? || a.DeleteSubscription?) && a.c in w.conns
    ensures SelfOnly(w.conns, Advance(w, a.c, w.conns[a.c], a).conns, a.c)
  {
    hide NextEpoch, Delete, Get, Put;
    PutMovesNobody(w);
  }

  lemma WorkingMoves(w: World, a: Action)
    requires OfConn(a) && !Touches(a) && a.c in w.conns && Working(w.conns[a.c].pc)
    ensures SelfOnly(w.conns, Advance(w, a.c, w.conns[a.c], a).conns, a.c)
  {
    hide Delete, Put, Get;
  }

  lemma OpeningMoves(w: World, a: Action)
    requires OfConn(a) && !Touches(a) && a.c in w.conns && !Working(w.conns[a.c].pc)
    ensures SelfOnly(w.conns, Advance(w, a.c, w.conns[a.c], a).conns, a.c)
  {
    hide Delete, Put, Get;
  }

  ghost predicate TidyAt(w: World, c: nat) {
    c in w.conns ==> ConnTidy(w, c)
  }

  lemma BystanderTidy(w: World, a: Action, c: nat)
    requires Inv(w) && Tidy(w) && c in Step(w, a).conns && (a.Connect? || OfConn(a) ==> a.c != c)
    ensures TidyAt(Step(w, a), c)
  {
    hide Inv, Tidy, Step;
    OthersStand(w, a, c);
    TidyFacts(w, c);
    if Busy(w.conns[c]) {
      FoundAgain(w, a, c);
      StepKeeps(w, a);
      Facts(w, c);
      Facts(Step(w, a), c);
    }
  }

  /** What is known of the acting connection before and after. */
  lemma ActorFacts(w: World, a: Action)
    requires Inv(w) && Tidy(w) && OfConn(a) && a.c in w.conns
    ensures var v, c := Step(w, a), a.c;
            && c in v.conns && v.conns[c].id == w.conns[c].id && v.conns[c].owner == w.conns[c].owner && v.conns[c].clean == w.conns[c].clean
            && ConnTidy(w, c) && ConnOk(w, c) && ConnOk(v, c)
            && FileOk(w, w.conns[c].id) && StoredAfter(w, a, v, w.conns[c].id)
  {
    hide Inv, Tidy, Advance, ConnTidy, ConnOk, FileOk, StoredAfter;
    AdvanceMoves(w, a);
    StepKeeps(w, a);
    TidyFacts(w, a.c);
    Facts(w, a.c);
    Facts(Step(w, a), a.c);
    StoredStep(w, a, w.conns[a.c].id);
  }

  lemma EnteringTidy(w: World, a: Action)
    requires Inv(w) && Tidy(w) && (a.GiveUp? || a.Acquire? || a.Refuse? || a.StopConsumer?) && a.c in w.conns
    ensures TidyAt(Step(w, a), a.c)
  {
    hide Inv, Tidy, TimedOut;
    ActorFacts(w, a);
  }

  lemma PurgingTidy(w: World, a: Action)
    requires Inv(w) && Tidy(w) && (a.ExpireSession? || a.Purge? || a.CleanRoutes?) && a.c in w.conns
    ensures TidyAt(Step(w, a), a.c)
  {
    hide Inv, Tidy, TimedOut;
    ActorFacts(w, a);
  }

  lemma OpeningTidy(w: World, a: Action)
    requires Inv(w) && Tidy(w) && (a.CleanSession? || a.Open?) && a.c in w.conns
    ensures TidyAt(Step(w, a), a.c)
  {
    hide Inv, Tidy, TimedOut;
    ActorFacts(w, a);
  }

  lemma EnteredTidy(w: World, a: Action)
    requires Inv(w) && Tidy(w) && (a.MarkConnected? || a.ReadSubscriptions? || a.Restore? || a.Register?) && a.c in w.conns
    ensures TidyAt(Step(w, a), a.c)
  {
    hide Inv, Tidy, TimedOut;
    ActorFacts(w, a);
  }

  lemma ServingTidy(w: World, a: Action)
    requires Inv(w) && Tidy(w) && (a.Ready? || a.BeginDelivery? || a.Leave? || a.BeginClosing?) && a.c in w.conns
    ensures TidyAt(Step(w, a), a.c)
  {
    hide Inv, Tidy, TimedOut;
    ActorFacts(w, a);
  }

  lemma SubscribingTidy(w: World, a: Action)
    requires Inv(w) && Tidy(w) && (a.SetSubscription? || a.Route? || a.Unroute? || a.DeleteSubscription?) && a.c in w.conns
    ensures TidyAt(Step(w, a), a.c)
  {
    hide Inv, Tidy, TimedOut;
    ActorFacts(w, a);
  }

  lemma ClosingTidy(w: World, a: Action)
    requires Inv(w) && Tidy(w) && (a.Close? || a.DropRoutes? || a.Release?) && a.c in w.conns
    ensures TidyAt(Step(w, a), a.c)
  {
    hide Inv, Tidy, TimedOut;
    ActorFacts(w, a);
  }

  lemma ConnectTidy(w: World, a: Action)
    requires Inv(w) && Tidy(w) && a.Connect?
    ensures TidyAt(Step(w, a), a.c)
  {
    hide Inv, Tidy;
    if a.c in w.conns {
      TidyFacts(w, a.c);
    }
  }

  lemma ConnsTidy(w: World, a: Action, c: nat)
    requires Inv(w) && Tidy(w)
    ensures TidyAt(Step(w, a), c)
  {
    hide Inv, Tidy, ConnTidy, Step;
    if c in Step(w, a).conns {
      if a.Connect? && a.c == c {
        ConnectTidy(w, a);
      } else if OfConn(a) && a.c == c {
        ActorTidy(w, a);
      } else {
        BystanderTidy(w, a, c);
      }
    }
  }

  lemma ActorTidy(w: World, a: Action)
    requires Inv(w) && Tidy(w) && OfConn(a)
    ensures TidyAt(Step(w, a), a.c)
  {
    hide Inv, Tidy, ConnTidy, Advance;
    if a.c in w.conns {
      if a.GiveUp? || a.Acquire? || a.Refuse? || a.StopConsumer? {
        EnteringTidy(w, a);
      } else if a.ExpireSession? || a.Purge? || a.CleanRoutes? {
        PurgingTidy(w, a);
      } else if a.CleanSession? || a.Open? {
        OpeningTidy(w, a);
      } else if a.MarkConnected? || a.ReadSubscriptions? || a.Restore? || a.Register? {
        EnteredTidy(w, a);
      } else if a.Ready? || a.BeginDelivery? || a.Leave? || a.BeginClosing? {
        ServingTidy(w, a);
      } else if a.SetSubscription? || a.Route? || a.Unroute? || a.DeleteSubscription? {
        SubscribingTidy(w, a);
      } else {
        ClosingTidy(w, a);
      }
    }
  }

  // ----- Connected sessions are held

  /** A registered identifier stays registered until its connection releases it. */
  lemma DeletersKeepClients(w: World, a: Action)
    requires a.Expire? || a.ExpireSession? || a.CleanSession? || a.Close?
    ensures Step(w, a).clients == w.clients
  {
    hide Expired, Late, Offline, Put, Delete, Get;
    PutMovesNobody(w);
  }

  lemma TouchersKeepClients(w: World, a: Action)
    requires a.Open? || a.MarkConnected? || a.BeginDelivery? || a.SetSubscription? || a.DeleteSubscription?
    ensures Step(w, a).clients == w.clients
  {
    hide NextEpoch, Offline, Put, Delete, Get;
    PutMovesNobody(w);
  }

  lemma OthersKeepClient(w: World, a: Action, id: bytes)
    requires id in w.clients && !Touches(a) && !(a.Release? && a.c in w.conns && w.conns[a.c].pc.Releasing? && w.conns[a.c].id == id)
    ensures id in Step(w, a).clients
  {
    hide Put, Delete, Get, Late, DeleteAll, Expired, NextEpoch, Offline;
  }

  lemma ClientsStep(w: World, a: Action, id: bytes)
    requires id in w.clients && !(a.Release? && a.c in w.conns && w.conns[a.c].pc.Releasing? && w.conns[a.c].id == id)
    ensures id in Step(w, a).clients
  {
    hide Step;
    if a.Expire? || a.ExpireSession? || a.CleanSession? || a.Close? {
      DeletersKeepClients(w, a);
    } else if Touches(a) {
      TouchersKeepClients(w, a);
    } else {
      OthersKeepClient(w, a, id);
    }
  }

  /** A connection that holds the session goes on to restore it and is registered. */
  lemma ReaderStep(w: World, a: Action)
    requires OfConn(a) && a.c in w.conns && w.conns[a.c].pc.Reading?
    ensures var v := Step(w, a);
            a.c in v.conns && v.conns[a.c].id == w.conns[a.c].id && (v.conns[a.c].pc.Reading? || v.conns[a.c].pc.Restoring?)
  {
    hide Delete, Put, Get;
  }

  lemma RestorerStep(w: World, a: Action)
    requires OfConn(a) && a.c in w.conns && w.conns[a.c].pc.Restoring?
    ensures var v := Step(w, a);
            a.c in v.conns && v.conns[a.c].id == w.conns[a.c].id && (v.conns[a.c].pc.Restoring? || v.conns[a.c].pc.Greeting?)
  {
    hide Delete, Put, Get;
  }

  lemma SeizerStep(w: World, a: Action)
    requires OfConn(a) && a.c in w.conns && (w.conns[a.c].pc.Reading? || w.conns[a.c].pc.Restoring?)
    ensures var v := Step(w, a);
            a.c in v.conns && v.conns[a.c].id == w.conns[a.c].id
            && (v.conns[a.c].pc.Reading? || v.conns[a.c].pc.Restoring? || v.conns[a.c].pc.Greeting?)
  {
    hide Step;
    if w.conns[a.c].pc.Reading? {
      ReaderStep(w, a);
    } else {
      RestorerStep(w, a);
    }
  }

  lemma SeizedStep(w: World, a: Action, id: bytes)
    requires Inv(w) && Seized(w, id)
    ensures id in Step(w, a).clients || Seized(Step(w, a), id)
  {
    hide Inv, Advance;
    var v, c := Step(w, a), w.lock.c;
    StepKeeps(w, a);
    if OfConn(a) && a.c == c {
      SeizerStep(w, a);
    } else {
      StandsStill(w, a, c);
    }
    Facts(v, c);
  }

  lemma StandsStill(w: World, a: Action, c: nat)
    requires c in w.conns && (OfConn(a) ==> a.c != c)
    ensures c in Step(w, a).conns && Step(w, a).conns[c] == w.conns[c]
  {
    hide Advance;
    if OfConn(a) && a.c in w.conns {
      AdvanceMoves(w, a);
    }
  }

  lemma MarkedIsSeized(w: World, c: nat, h: nat)
    requires Inv(w) && Stands(w, c, Marking(h))
    ensures Seized(Step(w, MarkConnected(c)), w.conns[c].id) && h < |w.handles| && w.handles[h].id == w.conns[c].id
  {
    hide Inv;
    Facts(w, c);
    StepKeeps(w, MarkConnected(c));
    Facts(Step(w, MarkConnected(c)), c);
  }

  lemma StoredStaysTidy(w: World, a: Action, id: bytes)
    requires Inv(w) && Tidy(w)
    ensures StoredTidy(Step(w, a), id)
  {
    hide Inv, Tidy, Step, Seized, TimedOut, Stands;
    var v := Step(w, a);
    StoredStep(w, a, id);
    StoredFacts(w, id);
    if id in v.stored && id in w.stored && Get(v, v.stored[id]).connected {
      var h := w.stored[id];
      if Get(w, h).connected {
        if Seized(w, id) {
          SeizedStep(w, a, id);
        } else if a.Release? && a.c in w.conns && w.conns[a.c].pc.Releasing? && w.conns[a.c].id == id {
          TidyFacts(w, a.c);
          assert false;
        } else {
          ClientsStep(w, a, id);
        }
      } else if a.MarkConnected? && Stands(w, a.c, Marking(h)) {
        MarkedIsSeized(w, a.c, h);
      }
    }
  }

  lemma StoredFacts(w: World, id: bytes)
    requires Tidy(w)
    ensures StoredTidy(w, id)
  {
  }

  lemma StepStaysTidy(w: World, a: Action)
    requires Inv(w) && Tidy(w)
    ensures Tidy(Step(w, a))
  {
    hide Inv, Step, ConnTidy, StoredTidy;
    forall c | c in Step(w, a).conns ensures ConnTidy(Step(w, a), c) {
      ConnsTidy(w, a, c);
    }
    forall id ensures StoredTidy(Step(w, a), id) {
      StoredStaysTidy(w, a, id);
    }
  }

  lemma {:induction false} RunIsTidy(actions: seq<Action>)
    ensures Inv(Run(actions)) && Tidy(Run(actions))
  {
    hide Inv, Step;
    RunIsSane(actions);
    if actions != [] {
      RunIsTidy(actions[..|actions| - 1]);
      StepStaysTidy(Run(actions[..|actions| - 1]), actions[|actions| - 1]);
    }
  }

  // ----- What every interleaving promises

  /** Over every run, each step makes of each session object what its life says, and of a new one an
      empty session of the connection's owner. */
  lemma SessionLife(actions: seq<Action>, a: Action)
    ensures Lives(Run(actions), a, Step(Run(actions), a))
  {
    hide Inv, Tidy, Step, Lives;
    RunIsTidy(actions);
    StepLives(Run(actions), a);
  }

  /** A session is deleted only when it has been offline for the whole time to live, or by a connection
      of its client that asked for a clean session. */
  lemma DeletedOnlyBy(actions: seq<Action>, a: Action, h: nat)
    requires var w := Run(actions); h < |w.handles| && !w.handles[h].deleted && Get(Step(w, a), h).deleted
    ensures var w := Run(actions);
            var s := w.handles[h];
            || ((a.Expire? || a.ExpireSession?) && !s.connected && s.offlineSince.Some? && a.now - s.offlineSince.value >= a.ttl > 0)
            || ((a.CleanSession? || a.Close?) && a.c in w.conns && w.conns[a.c].id == s.id && w.conns[a.c].clean)
  {
    hide Inv, Tidy, Step;
    var w := Run(actions);
    RunIsTidy(actions);
    StepLives(w, a);
    if a.Close? && a.c in w.conns {
      Facts(w, a.c);
    }
  }

  /** A session that is offline for the whole time to live is deleted by the next sweep, and no sweep
      deletes another. */
  lemma SweepIsExact(actions: seq<Action>, now: int, ttl: nat, h: nat)
    requires var w := Run(actions); w.lock == FREE && h < |w.handles| && !w.handles[h].deleted
    ensures var s := Run(actions).handles[h];
            Get(Step(Run(actions), Expire(now, ttl)), h).deleted
            <==> ttl > 0 && !s.connected && s.offlineSince.Some? && now >= s.offlineSince.value + ttl
  {
    hide Inv, Tidy, Step;
    RunIsTidy(actions);
    StepLives(Run(actions), Expire(now, ttl));
  }

  /** A connection only ever holds a session of its own owner. */
  lemma OwnersOnly(actions: seq<Action>, c: nat)
    requires var w := Run(actions); c in w.conns && Owning(w.conns[c])
    ensures var w := Run(actions); Get(w, w.conns[c].pc.h).owner == w.conns[c].owner && Get(w, w.conns[c].pc.h).id == w.conns[c].id
  {
    hide Inv, Tidy;
    RunIsTidy(actions);
    TidyFacts(Run(actions), c);
    Facts(Run(actions), c);
  }

  /** A client that asked for a clean session starts without subscriptions. */
  lemma CleanStartIsEmpty(actions: seq<Action>, c: nat)
    requires var w := Run(actions); c in w.conns && w.conns[c].clean && (w.conns[c].pc.Marking? || w.conns[c].pc.Reading?)
    ensures var w := Run(actions); Get(w, w.conns[c].pc.h).subscriptions == map[] && !Get(w, w.conns[c].pc.h).deleted
  {
    hide Inv, Tidy;
    RunIsTidy(actions);
    TidyFacts(Run(actions), c);
    Facts(Run(actions), c);
  }

  /** A stored session that nobody holds is offline and knows since when, so that it can time out. */
  lemma AbandonedIsOffline(actions: seq<Action>, id: bytes)
    requires var w := Run(actions); id in w.stored && id !in w.clients && !w.lock.Held?
    ensures var s := Get(Run(actions), Run(actions).stored[id]); !s.connected && s.offlineSince.Some?
  {
    hide Inv, Tidy;
    RunIsTidy(actions);
    StoredFacts(Run(actions), id);
  }

  // ----- Reconnecting

  /** Connection `c`, while it is being registered, still finds session `h` with these subscriptions. */
  ghost predicate Finds(w: World, c: nat, h: nat, s: Handle) {
    && c in w.conns && !w.conns[c].clean && !w.conns[c].pc.Waiting?
    && (Acquiring(w.conns[c].pc) ==>
          && w.conns[c].id in w.stored && w.stored[w.conns[c].id] == h && Get(w, h).subscriptions == s.subscriptions
          && (w.conns[c].pc.Checked? ==> Get(w, h) == s))
  }

  /** The session of a connection that is being registered is safe from everybody else. */
  lemma HolderIsSafe(w: World, a: Action, c: nat)
    requires Inv(w) && Tidy(w) && c in w.conns && Acquiring(w.conns[c].pc) && (OfConn(a) ==> a.c != c) && w.conns[c].id in w.stored
    ensures var v, id := Step(w, a), w.conns[c].id;
            id in v.stored && v.stored[id] == w.stored[id] && Get(v, v.stored[id]) == Get(w, w.stored[id])
  {
    hide Inv, Tidy, Step, Files, TimedOut;
    Facts(w, c);
    StoredStep(w, a, w.conns[c].id);
    FoundAgain(w, a, c);
    if OfConn(a) {
      Bystander(w, a, c);
    }
  }

  /** Nobody comes back to an earlier stage. */
  lemma OnlyForward(w: World, a: Action, c: nat)
    requires c in w.conns && !w.conns[c].pc.Waiting?
    ensures c in Step(w, a).conns && !Step(w, a).conns[c].pc.Waiting? && Step(w, a).conns[c].clean == w.conns[c].clean
    ensures Step(w, a).conns[c].id == w.conns[c].id
    ensures !Acquiring(w.conns[c].pc) ==> !Acquiring(Step(w, a).conns[c].pc)
    ensures Step(w, a).conns[c].pc.Checked? ==> w.conns[c].pc.Checked?
  {
    hide Advance;
    if OfConn(a) && a.c == c {
      AdvanceMoves(w, a);
      if a.ExpireSession? || a.CleanSession? || a.Close? {
        DeletersForward(w, a);
      } else if a.Open? || a.MarkConnected? {
        OpenersForward(w, a);
      } else if Touches(a) {
        TouchersForward(w, a);
      } else if Acquiring(w.conns[c].pc) {
        AcquirersForward(w, a);
      } else {
        OwnersForward(w, a);
      }
    } else {
      StandsStill(w, a, c);
    }
  }

  /** The next stage of connection `a.c`. */
  ghost predicate Forward(w: World, a: Action, v: World)
    requires OfConn(a) && a.c in w.conns
  {
    && a.c in v.conns && !v.conns[a.c].pc.Waiting? && (v.conns[a.c].pc.Checked? ==> w.conns[a.c].pc.Checked?)
    && (!Acquiring(w.conns[a.c].pc) ==> !Acquiring(v.conns[a.c].pc))
  }

  lemma DeletersForward(w: World, a: Action)
    requires (a.ExpireSession? || a.CleanSession? || a.Close?) && a.c in w.conns && !w.conns[a.c].pc.Waiting?
    ensures Forward(w, a, Advance(w, a.c, w.conns[a.c], a))
  {
    hide Expired, Put, Delete, Get, Offline;
    PutMovesNobody(w);
  }

  lemma TouchersForward(w: World, a: Action)
    requires (a.BeginDelivery? || a.SetSubscription? || a.DeleteSubscription?) && a.c in w.conns && !w.conns[a.c].pc.Waiting?
    ensures Forward(w, a, Advance(w, a.c, w.conns[a.c], a))
  {
    hide NextEpoch, Put, Get;
    PutMovesNobody(w);
  }

  lemma OpenersForward(w: World, a: Action)
    requires (a.Open? || a.MarkConnected?) && a.c in w.conns && !w.conns[a.c].pc.Waiting?
    ensures Forward(w, a, Advance(w, a.c, w.conns[a.c], a))
  {
    hide Put, Get;
    PutMovesNobody(w);
  }

  lemma AcquirersForward(w: World, a: Action)
    requires OfConn(a) && !Touches(a) && a.c in w.conns && Acquiring(w.conns[a.c].pc)
    ensures Forward(w, a, Advance(w, a.c, w.conns[a.c], a))
  {
    hide Put, Delete, Get;
  }

  lemma OwnersForward(w: World, a: Action)
    requires OfConn(a) && !Touches(a) && a.c in w.conns && !Acquiring(w.conns[a.c].pc) && !w.conns[a.c].pc.Waiting?
    ensures Forward(w, a, Advance(w, a.c, w.conns[a.c], a))
  {
    hide Put, Delete, Get;
  }

  /** The step does not find the session `s` timed out for connection `c`. */
  predicate InTime(a: Action, c: nat, s: Handle) {
    a.ExpireSession? && a.c == c ==> a.ttl == 0 || (s.offlineSince.Some? ==> a.now < s.offlineSince.value + a.ttl)
  }

  lemma FindsStep(w: World, a: Action, c: nat, h: nat, s: Handle)
    requires Inv(w) && Tidy(w) && Finds(w, c, h, s) && InTime(a, c, s)
    ensures Finds(Step(w, a), c, h, s)
  {
    hide Inv, Tidy, Step;
    OnlyForward(w, a, c);
    if Acquiring(w.conns[c].pc) {
      if OfConn(a) && a.c == c {
        hide Finds;
        OwnStepFinds(w, a, c, h, s);
      } else {
        HolderIsSafe(w, a, c);
      }
    }
  }

  lemma OwnStepFinds(w: World, a: Action, c: nat, h: nat, s: Handle)
    requires Inv(w) && Tidy(w) && Finds(w, c, h, s) && InTime(a, c, s) && OfConn(a) && a.c == c && Acquiring(w.conns[c].pc)
    ensures Finds(Step(w, a), c, h, s)
  {
    hide Inv, Tidy, Step;
    OnlyForward(w, a, c);
    Facts(w, c);
    TidyFacts(w, c);
    StoredStep(w, a, w.conns[c].id);
  }

  /** The run `before`, then `c` takes the lock, then `after`. */
  function Reconnection(before: seq<Action>, c: nat, after: seq<Action>): seq<Action> {
    before + [Acquire(c)] + after
  }

  /** Connection `c` wants its session kept, it is stored and its own, and nobody stands in the way. */
  predicate Returns(w: World, c: nat) {
    && Stands(w, c, Waiting) && !w.conns[c].clean && w.lock == FREE && w.conns[c].id !in w.clients
    && w.conns[c].id in w.stored && Left(w, c).owner == w.conns[c].owner
  }

  /** The session a returning client has left. */
  function Left(w: World, c: nat): Handle
    requires c in w.conns && w.conns[c].id in w.stored
  {
    Get(w, w.stored[w.conns[c].id])
  }

  lemma ReturnTakesLock(w: World, c: nat)
    requires Inv(w) && Returns(w, c)
    ensures Stands(Step(w, Acquire(c)), c, Checked) && Finds(Step(w, Acquire(c)), c, w.stored[w.conns[c].id], Left(w, c))
  {
    hide Inv;
  }

  /** Over every interleaving: as long as it is not found timed out, a client that returns finds the very
      session that was stored. */
  lemma {:induction false} ReturnFinds(before: seq<Action>, c: nat, after: seq<Action>)
    requires Returns(Run(before), c) && forall i :: 0 <= i < |after| ==> InTime(after[i], c, Left(Run(before), c))
    ensures var w := Run(before); Finds(Run(Reconnection(before, c, after)), c, w.stored[w.conns[c].id], Left(w, c))
  {
    hide Inv, Tidy, Step, Finds, Left;
    var w := Run(before);
    if after == [] {
      assert Reconnection(before, c, after)[..|before|] == before;
      RunIsTidy(before);
      ReturnTakesLock(w, c);
    } else {
      var n := |after| - 1;
      var so := Reconnection(before, c, after[..n]);
      assert Reconnection(before, c, after)[..|before| + 1 + n] == so;
      ReturnFinds(before, c, after[..n]);
      RunIsTidy(so);
      FindsStep(Run(so), after[n], c, w.stored[w.conns[c].id], Left(w, c));
    }
  }

  /** Nothing of it is deleted or cleaned on the way; whatever is marked, read or restored is that session,
      with the subscriptions it had. */
  lemma ReconnectKeepsSession(before: seq<Action>, c: nat, after: seq<Action>)
    requires Returns(Run(before), c) && forall i :: 0 <= i < |after| ==> InTime(after[i], c, Left(Run(before), c))
    ensures var w, v := Run(before), Run(Reconnection(before, c, after));
            var h := w.stored[w.conns[c].id];
            && c in v.conns && !v.conns[c].pc.Waiting? && !v.conns[c].pc.Purging? && !v.conns[c].pc.Cleaning? && !v.conns[c].pc.Cleaned?
            && (Acquiring(v.conns[c].pc) ==> !Get(v, h).deleted && Get(v, h).subscriptions == Left(w, c).subscriptions)
            && (v.conns[c].pc.Marking? || v.conns[c].pc.Reading? || v.conns[c].pc.Restoring? ==> v.conns[c].pc.h == h)
            && (v.conns[c].pc.Restoring? ==> Includes(Left(w, c).subscriptions, v.conns[c].pc.todo))
  {
    hide Inv, Tidy, Step, Run, Returns, Left;
    var v := Run(Reconnection(before, c, after));
    ReturnFinds(before, c, after);
    RunIsTidy(Reconnection(before, c, after));
    Facts(v, c);
    TidyFacts(v, c);
  }

  lemma CheckPasses(w: World, c: nat, h: nat, s: Handle, now: int, ttl: nat)
    requires Stands(w, c, Checked) && Finds(w, c, h, s) && InTime(ExpireSession(c, now, ttl), c, s)
    ensures Stands(Step(w, ExpireSession(c, now, ttl)), c, Opening)
  {
    hide Delete;
  }

  lemma OpensStored(w: World, c: nat, now: int)
    requires Inv(w) && Tidy(w) && Stands(w, c, Opening) && w.conns[c].id in w.stored
    ensures Stands(Step(w, Open(c, now)), c, Marking(w.stored[w.conns[c].id]))
  {
    hide Inv, Tidy;
    TidyFacts(w, c);
  }

  lemma MarksAndReads(w: World, c: nat, h: nat)
    ensures Stands(w, c, Marking(h)) ==> Stands(Step(w, MarkConnected(c)), c, Reading(h))
    ensures Stands(w, c, Reading(h)) ==> Stands(Step(w, ReadSubscriptions(c)), c, Restoring(h, Get(w, h).subscriptions))
  {
    hide Put;
    PutMovesNobody(w);
  }

  /** The steps of openSession and restoreSubscriptions up to reading what to restore. */
  function Opens(c: nat, now: int, ttl: nat): seq<Action> {
    [ExpireSession(c, now, ttl), Open(c, now), MarkConnected(c), ReadSubscriptions(c)]
  }

  /** After the first `n` of them. */
  ghost function Opened(before: seq<Action>, c: nat, now: int, ttl: nat, n: nat): World
    requires n <= 4
  {
    Run(Reconnection(before, c, Opens(c, now, ttl)[..n]))
  }

  lemma OpenedNext(before: seq<Action>, c: nat, now: int, ttl: nat, n: nat)
    requires n < 4 && Returns(Run(before), c) && InTime(ExpireSession(c, now, ttl), c, Left(Run(before), c))
    ensures Opened(before, c, now, ttl, n + 1) == Step(Opened(before, c, now, ttl, n), Opens(c, now, ttl)[n])
    ensures Inv(Opened(before, c, now, ttl, n)) && Tidy(Opened(before, c, now, ttl, n))
    ensures var w := Run(before); Finds(Opened(before, c, now, ttl, n), c, w.stored[w.conns[c].id], Left(w, c))
  {
    hide Inv, Tidy, Step, Finds, Returns, Left;
    var so := Opens(c, now, ttl)[..n];
    assert Reconnection(before, c, Opens(c, now, ttl)[..n + 1])[..|before| + 1 + n] == Reconnection(before, c, so);
    ReturnFinds(before, c, so);
    RunIsTidy(Reconnection(before, c, so));
  }

  lemma OpenedEnds(before: seq<Action>, c: nat, now: int, ttl: nat)
    ensures Opened(before, c, now, ttl, 0) == Step(Run(before), Acquire(c))
    ensures Opened(before, c, now, ttl, 4) == Run(before + [Acquire(c)] + Opens(c, now, ttl))
  {
    hide Step;
    assert Reconnection(before, c, Opens(c, now, ttl)[..0])[..|before|] == before;
    assert Opens(c, now, ttl)[..4] == Opens(c, now, ttl);
  }

  lemma OpensInTime(before: seq<Action>, c: nat, now: int, ttl: nat)
    requires Returns(Run(before), c) && InTime(ExpireSession(c, now, ttl), c, Left(Run(before), c))
    ensures Stands(Opened(before, c, now, ttl, 1), c, Opening)
  {
    hide Inv, Tidy, Step, Run, Left, Opened, Finds, InTime;
    var w := Run(before);
    RunIsTidy(before);
    OpenedNext(before, c, now, ttl, 0);
    OpenedEnds(before, c, now, ttl);
    ReturnTakesLock(w, c);
    CheckPasses(Opened(before, c, now, ttl, 0), c, w.stored[w.conns[c].id], Left(w, c), now, ttl);
  }

  /** And its own steps lead it to restoring all of them. */
  lemma ReconnectReaches(before: seq<Action>, c: nat, now: int, ttl: nat)
    requires Returns(Run(before), c)
    requires ttl > 0 && Left(Run(before), c).offlineSince.Some? ==> now < Left(Run(before), c).offlineSince.value + ttl
    ensures var w, v := Run(before), Run(before + [Acquire(c)] + Opens(c, now, ttl));
            Stands(v, c, Restoring(w.stored[w.conns[c].id], Left(w, c).subscriptions))
  {
    hide Inv, Tidy, Step, Run, Left, Opened;
    OpensInTime(before, c, now, ttl);
    OpenedNext(before, c, now, ttl, 1);
    OpenedNext(before, c, now, ttl, 2);
    OpenedNext(before, c, now, ttl, 3);
    OpenedEnds(before, c, now, ttl);
    OpensStored(Opened(before, c, now, ttl, 1), c, now);
    var h := Run(before).stored[Run(before).conns[c].id];
    MarksAndReads(Opened(before, c, now, ttl, 2), c, h);
    MarksAndReads(Opened(before, c, now, ttl, 3), c, h);
  }
}
