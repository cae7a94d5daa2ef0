/** Connections, sessions and routes as one step system. Every section under the store's or the
    tree's mutex is one step. `clientsMu` is a reader-writer lock that is held across steps: by a
    connection that is being registered or closed, by the expiry sweep, or by publishers. */
module Ownership {
  import opened Bytes
  import opened Routing
  import opened Updates
  import opened Lifetimes

  /** A session object. A deleted one is no longer stored, but connections may still refer to it. */
  datatype Handle = Handle(id: bytes, owner: bytes, subscriptions: map<bytes, nat>, connected: bool,
                           offlineSince: Option<int>, epoch: nat, deleted: bool)

  /** Where a connection's handler stands. */
  datatype Pc =
    | Waiting
    // acquireConnection, holding clientsMu
    | Checked
    | Purging
    | Cleaning
    | Cleaned
    | Opening
    | Marking(h: nat)
    | Reading(h: nat)
    | Restoring(h: nat, todo: map<bytes, nat>)
    // registered
    | Greeting(h: nat)
    | Starting(h: nat)
    | Serving(h: nat)
    | Subscribing(h: nat, filter: bytes, qos: nat)
    | Unsubscribing(h: nat, filter: bytes)
    | Leaving(h: nat)
    | Joining(h: nat)
    // closeSession, holding clientsMu
    | Dropping(h: nat)
    | Releasing(h: nat)
    | Done

  /** A connection; `consumer` is the epoch of its running delivery consumer. */
  datatype Conn = Conn(id: bytes, owner: bytes, clean: bool, pc: Pc, consumer: Option<nat>)

  /** A publisher: the sessions it found stored when it took the lock, and its snapshot of the tree. */
  datatype Publisher = Publisher(stored: map<bytes, nat>, snapshot: Option<Routes<nat>>)

  datatype Lock = Shared(readers: map<nat, Publisher>) | Held(c: nat) | Sweeping(todo: set<bytes>)

  datatype World = World(conns: map<nat, Conn>, clients: map<bytes, nat>, stored: map<bytes, nat>,
                         handles: seq<Handle>, routes: Routes<nat>, lock: Lock)

  const START := World(map[], map[], map[], [], map[], Shared(map[]))

  // ----- Steps

  datatype Action =
    | Connect(c: nat, id: bytes, owner: bytes, clean: bool)
    | GiveUp(c: nat)
    | Acquire(c: nat)
    | ExpireSession(c: nat, now: int, ttl: nat)
    | Purge(c: nat)
    | CleanRoutes(c: nat)
    | CleanSession(c: nat)
    | Open(c: nat, now: int)
    | Refuse(c: nat)
    | MarkConnected(c: nat)
    | ReadSubscriptions(c: nat)
    | Restore(c: nat, filter: bytes)
    | Register(c: nat)
    | Ready(c: nat)
    | BeginDelivery(c: nat)
    | SetSubscription(c: nat, filter: bytes, qos: nat)
    | Route(c: nat)
    | Unroute(c: nat, filter: bytes)
    | DeleteSubscription(c: nat)
    | StopConsumer(c: nat)
    | Leave(c: nat)
    | BeginClosing(c: nat)
    | Close(c: nat, at: int)
    | DropRoutes(c: nat)
    | Release(c: nat)
    | Expire(now: int, ttl: nat)
    | SweepOne(id: bytes)
    | SweepEnd
    | ReadLock(r: nat)
    | Snapshot(r: nat)
    | ReadUnlock(r: nat)

  const NO_HANDLE := Handle([], [], map[], false, None, 0, true)

  function Get(w: World, h: nat): Handle {
    if h < |w.handles| then w.handles[h] else NO_HANDLE
  }

  function Put(w: World, h: nat, s: Handle): World {
    if h < |w.handles| then w.(handles := w.handles[h := s]) else w
  }

  /** `deleteLocked` */
  function Delete(w: World, id: bytes): World {
    if id in w.stored then
      var h := w.stored[id];
      Put(w, h, Get(w, h).(deleted := true, subscriptions := map[])).(stored := w.stored - {id})
    else w
  }

  /** The broker's update of the tree. */
  ghost function Update(w: World, u: Update<nat>): World {
    w.(routes := Apply(w.routes, u))
  }

  function Go(w: World, c: nat, pc: Pc): World {
    if c in w.conns then w.(conns := w.conns[c := w.conns[c].(pc := pc)]) else w
  }

  const FREE := Shared(map[])

  predicate Expired(s: Handle, now: int, ttl: nat) {
    Overdue(s.connected, s.offlineSince, now, ttl)
  }

  function Late(w: World, now: int, ttl: nat): set<bytes> {
    set id | id in w.stored && Expired(Get(w, w.stored[id]), now, ttl)
  }

  /** `Expire`: delete the sessions of `ids` at once. */
  function DeleteAll(w: World, ids: set<bytes>): World {
    w.(handles := seq(|w.handles|, h requires 0 <= h < |w.handles| =>
                    var s := w.handles[h];
                    if s.id in ids && s.id in w.stored && w.stored[s.id] == h then s.(deleted := true, subscriptions := map[]) else s),
       stored := w.stored - ids)
  }

  /** QoS 2 is granted as QoS 1. */
  function Granted(qos: nat): nat {
    if qos > 1 then 1 else qos
  }

  /** `MarkDisconnectedAt` */
  function Offline(s: Handle, at: int): Handle {
    if s.deleted || !s.connected then s else s.(connected := false, offlineSince := Some(at))
  }

  /** Where opening a session goes on once expiry has been dealt with. */
  function Onward(clean: bool): Pc {
    if clean then Cleaning else Opening
  }

  /** One step; an action that is not possible changes nothing. */
  ghost function Step(w: World, a: Action): World {
    match a
    case Connect(c, id, owner, clean) =>
      if c in w.conns then w else w.(conns := w.conns[c := Conn(id, owner, clean, Waiting, None)])
    case Expire(now, ttl) =>
      if w.lock == FREE then DeleteAll(w, Late(w, now, ttl)).(lock := Sweeping(Late(w, now, ttl))) else w
    case SweepOne(id) =>
      if w.lock.Sweeping? && id in w.lock.todo then Update(w, Dropped(id)).(lock := Sweeping(w.lock.todo - {id})) else w
    case SweepEnd =>
      if w.lock == Sweeping({}) then w.(lock := FREE) else w
    case ReadLock(r) =>
      if w.lock.Shared? && r !in w.lock.readers then w.(lock := Shared(w.lock.readers[r := Publisher(w.stored, None)])) else w
    case Snapshot(r) =>
      if w.lock.Shared? && r in w.lock.readers
      then w.(lock := Shared(w.lock.readers[r := w.lock.readers[r].(snapshot := Some(w.routes))])) else w
    case ReadUnlock(r) =>
      if w.lock.Shared? && r in w.lock.readers then w.(lock := Shared(w.lock.readers - {r})) else w
    case _ =>
      if a.c in w.conns then Advance(w, a.c, w.conns[a.c], a) else w
  }

  /** One step of connection `c`. */
  ghost function Advance(w: World, c: nat, k: Conn, a: Action): World
    requires c in w.conns
  {
    var pc := k.pc;
    match a
    // acquireConnection
    case GiveUp(_) =>
      if pc.Waiting? then Go(w, c, Done) else w
    case Acquire(_) =>
      if pc.Waiting? && w.lock == FREE && k.id !in w.clients && (k.id in w.stored ==> Get(w, w.stored[k.id]).owner == k.owner)
      then Go(w, c, Checked).(lock := Held(c)) else w
    // openSession
    case ExpireSession(_, now, ttl) =>
      if pc.Checked? then
        if k.id in w.stored && Expired(Get(w, w.stored[k.id]), now, ttl) then Go(Delete(w, k.id), c, Purging) else Go(w, c, Onward(k.clean))
      else w
    case Purge(_) =>
      if pc.Purging? then Go(Update(w, Dropped(k.id)), c, Onward(k.clean)) else w
    case CleanRoutes(_) =>
      if pc.Cleaning? then Go(Update(w, Dropped(k.id)), c, Cleaned) else w
    case CleanSession(_) =>
      if pc.Cleaned? then Go(Delete(w, k.id), c, Opening) else w
    case Open(_, now) =>
      if !pc.Opening? then w
      else if k.id !in w.stored then
        Go(w.(handles := w.handles + [Handle(k.id, k.owner, map[], false, Some(now), 0, false)], stored := w.stored[k.id := |w.handles|]),
           c, Marking(|w.handles|))
      else if Get(w, w.stored[k.id]).owner == k.owner then Go(w, c, Marking(w.stored[k.id]))
      else w
    case Refuse(_) =>
      if pc.Opening? && (k.id in w.stored ==> Get(w, w.stored[k.id]).owner != k.owner) then Go(w, c, Done).(lock := FREE) else w
    case MarkConnected(_) =>
      if pc.Marking? then
        var s := Get(w, pc.h);
        Go(Put(w, pc.h, if s.deleted then s else s.(connected := true, offlineSince := None)), c, Reading(pc.h))
      else w
    case ReadSubscriptions(_) =>
      if pc.Reading? then Go(w, c, Restoring(pc.h, Get(w, pc.h).subscriptions)) else w
    case Restore(_, f) =>
      if pc.Restoring? && f in pc.todo
      then Go(Update(w, Subscribed(f, Subscription(k.id, pc.h, pc.todo[f]))), c, Restoring(pc.h, pc.todo - {f})) else w
    case Register(_) =>
      if pc.Restoring? && pc.todo == map[] then Go(w, c, Greeting(pc.h)).(clients := w.clients[k.id := c], lock := FREE) else w
    // handleConn and serve
    case Ready(_) =>
      if pc.Greeting? && w.lock == FREE then Go(w, c, Starting(pc.h)) else w
    case BeginDelivery(_) =>
      if pc.Starting? then
        var s := Get(w, pc.h);
        var e := NextEpoch(s.epoch);
        Put(w, pc.h, s.(epoch := e)).(conns := w.conns[c := k.(pc := Serving(pc.h), consumer := Some(e))])
      else w
    case SetSubscription(_, f, q) =>
      if pc.Serving? && !Get(w, pc.h).deleted then
        var s, qos := Get(w, pc.h), Granted(q);
        Go(Put(w, pc.h, s.(subscriptions := s.subscriptions[f := qos])), c, Subscribing(pc.h, f, qos))
      else w
    case Route(_) =>
      if pc.Subscribing? then Go(Update(w, Subscribed(pc.filter, Subscription(k.id, pc.h, pc.qos))), c, Serving(pc.h)) else w
    case Unroute(_, f) =>
      if pc.Serving? then Go(Update(w, Unsubscribed(f, k.id)), c, Unsubscribing(pc.h, f)) else w
    case DeleteSubscription(_) =>
      if pc.Unsubscribing? then
        var s := Get(w, pc.h);
        Go(Put(w, pc.h, s.(subscriptions := s.subscriptions - {pc.filter})), c, Serving(pc.h))
      else w
    case StopConsumer(_) =>
      w.(conns := w.conns[c := k.(consumer := None)])
    case Leave(_) =>
      if pc.Greeting? || pc.Serving? then Go(w, c, Leaving(pc.h)) else w
    case BeginClosing(_) =>
      if pc.Leaving? && w.lock == FREE then Go(w, c, Joining(pc.h)) else w
    // closeSession
    case Close(_, at) =>
      if pc.Joining? && k.consumer.None? && w.lock == FREE then
        if k.id !in w.clients || w.clients[k.id] != c then Go(w, c, Done)
        else if k.clean then Go(Delete(w, k.id), c, Dropping(pc.h)).(lock := Held(c))
        else
          Go(Put(w, pc.h, Offline(Get(w, pc.h), at)), c, Releasing(pc.h)).(lock := Held(c))
      else w
    case DropRoutes(_) =>
      if pc.Dropping? then Go(Update(w, Dropped(k.id)), c, Releasing(pc.h)) else w
    case Release(_) =>
      if pc.Releasing? then Go(w, c, Done).(clients := w.clients - {k.id}, lock := FREE) else w
    case _ => w
  }

  ghost function Run(actions: seq<Action>): World {
    if actions == [] then START else Step(Run(actions[..|actions| - 1]), actions[|actions| - 1])
  }

  // ----- What every step keeps

  /** Before registration, holding the lock. */
  predicate Acquiring(pc: Pc) {
    pc.Checked? || pc.Purging? || pc.Cleaning? || pc.Cleaned? || pc.Opening? || pc.Marking? || pc.Reading? || pc.Restoring?
  }

  predicate Locking(pc: Pc) {
    Acquiring(pc) || pc.Dropping? || pc.Releasing?
  }

  predicate Registered(pc: Pc) {
    Working(pc) || pc.Dropping? || pc.Releasing?
  }

  predicate Working(pc: Pc) {
    pc.Greeting? || pc.Starting? || pc.Serving? || pc.Subscribing? || pc.Unsubscribing? || pc.Leaving? || pc.Joining?
  }

  /** The connection's session has been marked connected by it. */
  predicate Connected(pc: Pc) {
    pc.Reading? || pc.Restoring? || Working(pc)
  }

  /** The connection owns the session it refers to. */
  predicate Owning(k: Conn) {
    k.pc.Marking? || Connected(k.pc) || (k.pc.Releasing? && !k.clean)
  }

  predicate Emptied(k: Conn) {
    k.pc.Purging? || k.pc.Dropping? || (k.pc.Releasing? && k.clean)
  }

  /** A connection is in step with the lock, the registry, the store and its session. */
  ghost predicate ConnOk(w: World, c: nat)
    requires c in w.conns
  {
    var k := w.conns[c];
    && (Locking(k.pc) <==> w.lock == Held(c))
    && (Registered(k.pc) ==> k.id in w.clients && w.clients[k.id] == c)
    && (Acquiring(k.pc) ==> k.id !in w.clients)
    && (Owning(k) ==> k.id in w.stored && w.stored[k.id] == k.pc.h)
    && (Emptied(k) ==> k.id !in w.stored) && (k.pc.Dropping? ==> k.clean)
    && (Connected(k.pc) ==> Get(w, k.pc.h).connected)
    && (k.pc.Restoring? ==> Includes(Get(w, k.pc.h).subscriptions, k.pc.todo))
    && (k.pc.Subscribing? ==> k.pc.filter in Get(w, k.pc.h).subscriptions && Get(w, k.pc.h).subscriptions[k.pc.filter] == k.pc.qos)
    && (k.consumer.Some? ==> Delivering(k.pc) && Get(w, k.pc.h).epoch == k.consumer.value)
  }

  predicate Delivering(pc: Pc) {
    pc.Serving? || pc.Subscribing? || pc.Unsubscribing? || pc.Leaving? || pc.Joining?
  }

  ghost predicate Includes(m: map<bytes, nat>, part: map<bytes, nat>) {
    forall f :: f in part ==> f in m && m[f] == part[f]
  }

  ghost predicate ConnsOk(w: World, id: bytes) {
    forall c :: c in w.conns && w.conns[c].id == id ==> ConnOk(w, c)
  }

  /** The registry names a registered connection of that identifier. */
  ghost predicate ListOk(w: World, id: bytes) {
    id in w.clients ==> w.clients[id] in w.conns && w.conns[w.clients[id]].id == id && Registered(w.conns[w.clients[id]].pc)
  }

  /** Nothing above QoS 1 is granted. */
  ghost predicate Modest(subscriptions: map<bytes, nat>) {
    forall f :: f in subscriptions ==> subscriptions[f] <= 1
  }

  /** The store names the one object of that identifier that is not deleted. */
  ghost predicate FileOk(w: World, id: bytes) {
    && (id in w.stored ==> w.stored[id] < |w.handles| && w.handles[w.stored[id]].id == id && !w.handles[w.stored[id]].deleted
                           && Modest(w.handles[w.stored[id]].subscriptions))
    && (forall h :: 0 <= h < |w.handles| && w.handles[h].id == id && !w.handles[h].deleted ==> id in w.stored && w.stored[id] == h)
  }

  /** The route of `filter` for `id` is what the stored session of `id` says, if any. */
  ghost predicate Agrees(w: World, filter: bytes, id: bytes) {
    if id in w.stored && filter in Get(w, w.stored[id]).subscriptions
    then (filter, id) in w.routes && w.routes[(filter, id)] == Subscription(id, w.stored[id], Get(w, w.stored[id]).subscriptions[filter])
    else (filter, id) !in w.routes
  }

  /** The pc of the connection registered for `id`. */
  function At(w: World, id: bytes): Pc {
    if id in w.clients && w.clients[id] in w.conns then w.conns[w.clients[id]].pc else Done
  }

  /** A clean start of `id` has removed its routes and not yet its session. */
  predicate Cleared(w: World, id: bytes) {
    w.lock.Held? && w.lock.c in w.conns && w.conns[w.lock.c].id == id && w.conns[w.lock.c].pc.Cleaned?
  }

  /** A locked section for `id` has removed its session and not yet its routes. */
  predicate Midway(w: World, id: bytes) {
    match w.lock
    case Held(c) => c in w.conns && w.conns[c].id == id && (w.conns[c].pc.Purging? || w.conns[c].pc.Dropping?)
    case Sweeping(todo) => id in todo
    case Shared(_) => false
  }

  /** A SUBSCRIBE or UNSUBSCRIBE of `filter` for `id` is half done. */
  predicate HalfDone(w: World, filter: bytes, id: bytes) {
    var pc := At(w, id);
    (pc.Subscribing? || pc.Unsubscribing?) && pc.filter == filter
  }

  ghost predicate RouteOk(w: World, filter: bytes, id: bytes) {
    if Midway(w, id) then id !in w.stored
    else if Cleared(w, id) then (filter, id) !in w.routes
    else if HalfDone(w, filter, id) then
      (filter, id) in w.routes ==> At(w, id).Subscribing? && w.routes[(filter, id)].client == id && w.routes[(filter, id)].subscriber == At(w, id).h
    else Agrees(w, filter, id)
  }

  ghost predicate RoutesOk(w: World, id: bytes) {
    forall f :: RouteOk(w, f, id)
  }

  /** What is kept about each client identifier. */
  ghost predicate Sane(w: World, id: bytes) {
    ConnsOk(w, id) && ListOk(w, id) && FileOk(w, id) && RoutesOk(w, id)
  }

  /** Publishers see the sessions they started with, and their snapshots route to those sessions. */
  ghost predicate Shielded(w: World) {
    && (w.lock.Held? ==> w.lock.c in w.conns)
    && (w.lock.Shared? ==> forall r :: r in w.lock.readers ==> ReaderOk(w.lock.readers[r], w.stored))
  }

  ghost predicate ReaderOk(p: Publisher, stored: map<bytes, nat>) {
    p.stored == stored && (p.snapshot.Some? ==> Rooted(p.snapshot.value, stored))
  }

  ghost predicate Inv(w: World) {
    Shielded(w) && forall id :: Sane(w, id)
  }

  // ----- Steps concern one client identifier

  ghost predicate SameKey<K, V>(a: map<K, V>, b: map<K, V>, k: K) {
    (k in a <==> k in b) && (k in a ==> a[k] == b[k])
  }

  /** The lock is free, or held for `id`. */
  predicate Mine(w: World, id: bytes) {
    w.lock == FREE || (w.lock.Held? && w.lock.c in w.conns && w.conns[w.lock.c].id == id)
  }

  ghost predicate SweptOne(a: Lock, b: Lock, id: bytes) {
    a.Sweeping? && b.Sweeping? && b.todo == a.todo - {id}
  }

  /** Between `w` and `v` only matters of `id` change. */
  ghost predicate Local(w: World, v: World, id: bytes) {
    && (forall c :: c in w.conns && w.conns[c].id != id ==> c in v.conns && v.conns[c] == w.conns[c])
    && (forall c :: c in v.conns && v.conns[c].id != id ==> c in w.conns && v.conns[c] == w.conns[c])
    && (forall i :: i != id ==> SameKey(w.clients, v.clients, i) && SameKey(w.stored, v.stored, i))
    && |w.handles| <= |v.handles|
    && (forall h :: 0 <= h < |w.handles| && w.handles[h].id != id ==> v.handles[h] == w.handles[h])
    && (forall h :: 0 <= h < |v.handles| && v.handles[h].id != id ==> h < |w.handles| && v.handles[h] == w.handles[h])
    && (forall f, i :: i != id ==> SameAt(w.routes, v.routes, f, i))
    && (v.lock == w.lock || (Mine(w, id) && Mine(v, id)) || SweptOne(w.lock, v.lock, id))
  }

  lemma Elsewhere(w: World, v: World, id: bytes, i: bytes)
    requires Local(w, v, id) && i != id && Sane(w, i)
    ensures Sane(v, i)
  {
    ElsewhereFiled(w, v, id, i);
    ElsewhereListed(w, v, id, i);
    ElsewhereRouted(w, v, id, i);
  }

  lemma ElsewhereFiled(w: World, v: World, id: bytes, i: bytes)
    requires Local(w, v, id) && i != id && FileOk(w, i)
    ensures FileOk(v, i) && (i in w.stored ==> Get(v, w.stored[i]) == Get(w, w.stored[i]))
  {
    assert SameKey(w.stored, v.stored, i);
  }

  lemma ElsewhereListed(w: World, v: World, id: bytes, i: bytes)
    requires Local(w, v, id) && i != id && FileOk(w, i) && ConnsOk(w, i) && ListOk(w, i)
    ensures ConnsOk(v, i) && ListOk(v, i) && At(v, i) == At(w, i)
  {
    assert SameKey(w.stored, v.stored, i) && SameKey(w.clients, v.clients, i);
    forall c | c in v.conns && v.conns[c].id == i ensures ConnOk(v, c) {
      assert ConnOk(w, c);
      ElsewhereFiled(w, v, id, i);
    }
  }

  lemma ElsewhereRouted(w: World, v: World, id: bytes, i: bytes)
    requires Local(w, v, id) && i != id && Sane(w, i)
    ensures RoutesOk(v, i)
  {
    ElsewhereFiled(w, v, id, i);
    ElsewhereListed(w, v, id, i);
    assert SameKey(w.stored, v.stored, i) && SameKey(w.clients, v.clients, i);
    forall f ensures RouteOk(v, f, i) {
      assert RouteOk(w, f, i) && SameAt(w.routes, v.routes, f, i);
    }
  }

  lemma OnlyHere(w: World, v: World, id: bytes)
    requires Inv(w) && Local(w, v, id) && Sane(v, id) && Shielded(v)
    ensures Inv(v)
  {
    hide Sane, Local;
    forall i ensures Sane(v, i) {
      assert Sane(w, i);
      if i != id {
        Elsewhere(w, v, id, i);
      }
    }
  }

  predicate Idle(k: Conn) {
    (k.pc.Waiting? || k.pc.Done?) && k.consumer.None?
  }

  /** `c` may act for its identifier: nobody else is registered or being registered for it. */
  predicate Acting(w: World, c: nat)
    requires c in w.conns
  {
    var k := w.conns[c];
    Acquiring(k.pc) || Registered(k.pc) || (k.pc.Waiting? && w.lock == FREE && k.id !in w.clients)
  }

  /** Connections that share an identifier with one that acts are idle. */
  lemma OthersIdle(w: World, c: nat, d: nat)
    requires Inv(w) && c in w.conns && d in w.conns && c != d && w.conns[c].id == w.conns[d].id && Acting(w, c)
    ensures Idle(w.conns[d])
  {
    assert Sane(w, w.conns[c].id);
    assert ConnOk(w, c) && ConnOk(w, d);
  }

  /** It is enough to look at the connection that acts. */
  lemma ActorOk(w: World, v: World, c: nat)
    requires Inv(w) && c in w.conns && Acting(w, c)
    requires Moves(w, v, c) && ConnOk(v, c)
    requires v.lock == Held(c) || v.lock.Shared? || v.lock == w.lock
    ensures ConnsOk(v, w.conns[c].id)
  {
    forall d | d in v.conns && v.conns[d].id == w.conns[c].id ensures ConnOk(v, d) {
      if d != c {
        OthersIdle(w, c, d);
        assert Sane(w, w.conns[c].id);
        assert ConnOk(w, d);
      }
    }
  }

  /** A step of a connection that acts keeps everything if it leaves its own identifier in order. */
  lemma ActorKeeps(w: World, v: World, c: nat)
    requires Inv(w) && c in w.conns && Acting(w, c)
    requires Moves(w, v, c) && ConnOk(v, c)
    requires v.lock == Held(c) || v.lock.Shared? || v.lock == w.lock
    requires Local(w, v, w.conns[c].id) && ListOk(v, w.conns[c].id) && FileOk(v, w.conns[c].id) && RoutesOk(v, w.conns[c].id)
    requires Shielded(v)
    ensures Inv(v)
  {
    hide Local, ListOk, FileOk, RoutesOk, Shielded, ConnOk, Acting;
    ActorOk(w, v, c);
    OnlyHere(w, v, w.conns[c].id);
  }

  predicate Concerns(u: Update<nat>, id: bytes) {
    match u
    case Subscribed(_, sub) => sub.client == id
    case Unsubscribed(_, c) => c == id
    case Dropped(c) => c == id
  }

  /** Among the connections only `c` changes. */
  predicate Moves(w: World, v: World, c: nat) {
    c in w.conns && c in v.conns && v.conns == w.conns[c := v.conns[c]] && v.conns[c].id == w.conns[c].id
  }

  predicate LockIsMine(w: World, v: World, id: bytes) {
    v.lock == w.lock || (Mine(w, id) && Mine(v, id))
  }

  /** What a connection does to the registry, the routes or the object of its identifier is local. */
  lemma MoveIsLocal(w: World, v: World, c: nat)
    requires Moves(w, v, c) && LockIsMine(w, v, w.conns[c].id)
    requires v == w.(conns := v.conns, clients := v.clients, lock := v.lock)
    requires v.clients == w.clients || v.clients == w.clients[w.conns[c].id := c] || v.clients == w.clients - {w.conns[c].id}
    ensures Local(w, v, w.conns[c].id)
  {
  }

  lemma UpdateIsLocal(w: World, v: World, u: Update<nat>, c: nat)
    requires Moves(w, v, c) && Concerns(u, w.conns[c].id) && v == w.(conns := v.conns, routes := Apply(w.routes, u))
    ensures Local(w, v, w.conns[c].id)
  {
  }

  lemma PutIsLocal(w: World, v: World, c: nat, h: nat)
    requires Moves(w, v, c) && LockIsMine(w, v, w.conns[c].id) && v == w.(conns := v.conns, handles := v.handles, lock := v.lock)
    requires h < |w.handles| && w.handles[h].id == w.conns[c].id
    requires |v.handles| == |w.handles| && v.handles == w.handles[h := v.handles[h]] && v.handles[h].id == w.conns[c].id
    ensures Local(w, v, w.conns[c].id)
  {
  }

  lemma AppendIsLocal(w: World, v: World, c: nat)
    requires Moves(w, v, c) && |v.handles| == |w.handles| + 1 && v.handles[..|w.handles|] == w.handles
    requires v.handles[|w.handles|].id == w.conns[c].id
    requires v == w.(conns := v.conns, handles := v.handles, stored := w.stored[w.conns[c].id := |w.handles|])
    ensures Local(w, v, w.conns[c].id)
  {
    assert forall h :: 0 <= h < |w.handles| ==> v.handles[h] == v.handles[..|w.handles|][h];
  }

  lemma DeleteIsLocal(w: World, v: World, c: nat)
    requires Moves(w, v, c) && LockIsMine(w, v, w.conns[c].id) && FileOk(w, w.conns[c].id)
    requires v == Delete(w, w.conns[c].id).(conns := v.conns, lock := v.lock)
    ensures Local(w, v, w.conns[c].id)
  {
    hide Delete;
    DeleteIs(w, w.conns[c].id);
  }

  /** Deletion removes the stored object of `id`, and touches no other. */
  lemma DeleteIs(w: World, id: bytes)
    requires FileOk(w, id)
    ensures var v := Delete(w, id);
            && v == w.(handles := v.handles, stored := w.stored - {id}) && FileOk(v, id) && |v.handles| == |w.handles|
            && (forall h :: 0 <= h < |w.handles| ==> v.handles[h].id == w.handles[h].id && (w.handles[h].id != id ==> v.handles[h] == w.handles[h]))
            && (id !in w.stored ==> v == w)
  {
    assert id !in w.stored ==> w.stored - {id} == w.stored;
  }

  /** Nothing is half done for `id`. */
  predicate Whole(w: World, id: bytes) {
    !At(w, id).Subscribing? && !At(w, id).Unsubscribing?
  }

  /** Routes stay in order when neither they nor the grants of the stored session change. */
  lemma RoutesStay(w: World, v: World, id: bytes)
    requires RoutesOk(w, id) && Whole(w, id) && Whole(v, id)
    requires v.routes == w.routes && v.stored == w.stored
    requires id in w.stored ==> Get(v, w.stored[id]).subscriptions == Get(w, w.stored[id]).subscriptions
    requires Midway(v, id) == Midway(w, id) && Cleared(v, id) == Cleared(w, id)
    ensures RoutesOk(v, id)
  {
    hide At, Midway, Cleared, Get;
    forall f ensures RouteOk(v, f, id) {
      assert RouteOk(w, f, id);
    }
  }

  /** Nobody is between two updates of a whole session. */
  predicate Calm(w: World, id: bytes) {
    !Midway(w, id) && !Cleared(w, id)
  }

  ghost predicate SameElse(w: World, v: World, id: bytes, f: bytes)
    requires id in w.stored
  {
    && v.stored == w.stored
    && (forall g :: g != f ==> SameAt(w.routes, v.routes, g, id))
    && (forall g :: g != f ==> SameKey(Get(w, w.stored[id]).subscriptions, Get(v, w.stored[id]).subscriptions, g))
    && (forall g :: g != f ==> !HalfDone(w, g, id) && !HalfDone(v, g, id))
  }

  /** A step for one filter leaves the other routes in order. */
  lemma RoutesChange(w: World, v: World, id: bytes, f: bytes)
    requires id in w.stored && RoutesOk(w, id) && Calm(w, id) && Calm(v, id) && SameElse(w, v, id, f) && RouteOk(v, f, id)
    ensures RoutesOk(v, id)
  {
    hide HalfDone, Get, Midway, Cleared;
    forall g ensures RouteOk(v, g, id) {
      if g != f {
        assert RouteOk(w, g, id) && SameAt(w.routes, v.routes, g, id);
        assert SameKey(Get(w, w.stored[id]).subscriptions, Get(v, w.stored[id]).subscriptions, g);
      }
    }
  }

  /** Without a stored session and without routes, nothing is out of order. */
  lemma RoutesGone(v: World, id: bytes)
    requires (id !in v.stored || Cleared(v, id)) && forall f :: (f, id) !in v.routes
    ensures RoutesOk(v, id)
  {
    hide At;
  }

  /** A new session starts without routes. */
  lemma RoutesOpen(w: World, v: World, id: bytes)
    requires RoutesOk(w, id) && Calm(w, id) && Calm(v, id) && Whole(w, id) && Whole(v, id) && id !in w.stored
    requires v.routes == w.routes && id in v.stored && Get(v, v.stored[id]).subscriptions == map[]
    ensures RoutesOk(v, id)
  {
    hide At, Midway, Cleared, Get;
    forall f ensures RouteOk(v, f, id) {
      assert RouteOk(w, f, id);
    }
  }

  /** Taking a session away leaves its routes to be removed. */
  lemma RoutesPending(v: World, id: bytes)
    requires id !in v.stored && Midway(v, id)
    ensures RoutesOk(v, id)
  {
  }

  /** What holds for the connection that acts, before it does. */
  lemma Before(w: World, v: World, c: nat)
    requires Inv(w) && c in w.conns
    ensures var id := w.conns[c].id;
            && Shielded(w) && ConnOk(w, c) && ListOk(w, id) && FileOk(w, id)
            && RoutesOk(w, id) && (Owning(w.conns[c]) ==> Calm(w, id))
            && forall f {:trigger RouteOk(v, f, id)} {:trigger RouteOk(w, f, id)} :: RouteOk(w, f, id)
  {
    hide ConnOk, ListOk, FileOk, RouteOk, Calm;
    assert Sane(w, w.conns[c].id);
    if Owning(w.conns[c]) {
      OwnerIsCalm(w, c);
    }
  }

  lemma OwnerIsCalm(w: World, c: nat)
    requires Inv(w) && c in w.conns && Owning(w.conns[c])
    ensures Calm(w, w.conns[c].id)
  {
    var id := w.conns[c].id;
    assert Sane(w, id);
    assert ConnOk(w, c) && RouteOk(w, [], id);
    if Cleared(w, id) {
      OthersIdle(w, c, w.lock.c);
      assert false;
    }
  }

  lemma AcquireKeeps(w: World, c: nat)
    requires Inv(w)
    ensures Inv(Step(w, Acquire(c)))
  {
    hide Inv, Local, RouteOk, RoutesOk;
    var v := Step(w, Acquire(c));
    if v != w {
      Before(w, v, c);
      MoveIsLocal(w, v, c);
      RoutesStay(w, v, w.conns[c].id);
      ActorKeeps(w, v, c);
    }
  }

  lemma ExpireSessionLate(w: World, c: nat, now: int, ttl: nat)
    requires Inv(w) && c in w.conns && w.conns[c].id in Late(w, now, ttl)
    ensures Inv(Step(w, ExpireSession(c, now, ttl)))
  {
    hide Inv, Delete, Local, RoutesOk;
    var v := Step(w, ExpireSession(c, now, ttl));
    if v != w {
      Before(w, v, c);
      DeleteIs(w, w.conns[c].id);
      DeleteIsLocal(w, v, c);
      RoutesPending(v, w.conns[c].id);
      ActorKeeps(w, v, c);
    }
  }

  lemma ExpireSessionEarly(w: World, c: nat, now: int, ttl: nat)
    requires Inv(w) && c in w.conns && w.conns[c].id !in Late(w, now, ttl)
    ensures Inv(Step(w, ExpireSession(c, now, ttl)))
  {
    hide Inv, Delete, Local, RouteOk, RoutesOk;
    var v := Step(w, ExpireSession(c, now, ttl));
    if v != w {
      Before(w, v, c);
      MoveIsLocal(w, v, c);
      RoutesStay(w, v, w.conns[c].id);
      ActorKeeps(w, v, c);
    }
  }

  lemma ExpireSessionKeeps(w: World, c: nat, now: int, ttl: nat)
    requires Inv(w)
    ensures Inv(Step(w, ExpireSession(c, now, ttl)))
  {
    hide Inv;
    if c in w.conns {
      if w.conns[c].id in Late(w, now, ttl) {
        ExpireSessionLate(w, c, now, ttl);
      } else {
        ExpireSessionEarly(w, c, now, ttl);
      }
    }
  }

  lemma PurgeKeeps(w: World, c: nat)
    requires Inv(w)
    ensures Inv(Step(w, Purge(c)))
  {
    hide Inv, Local, RoutesOk;
    var v := Step(w, Purge(c));
    if v != w {
      Before(w, v, c);
      UpdateIsLocal(w, v, Dropped(w.conns[c].id), c);
      RoutesGone(v, w.conns[c].id);
      ActorKeeps(w, v, c);
    }
  }

  lemma CleanRoutesKeeps(w: World, c: nat)
    requires Inv(w)
    ensures Inv(Step(w, CleanRoutes(c)))
  {
    hide Inv, Local, RoutesOk;
    var v := Step(w, CleanRoutes(c));
    if v != w {
      Before(w, v, c);
      UpdateIsLocal(w, v, Dropped(w.conns[c].id), c);
      RoutesGone(v, w.conns[c].id);
      ActorKeeps(w, v, c);
    }
  }

  lemma CleanSessionKeeps(w: World, c: nat)
    requires Inv(w)
    ensures Inv(Step(w, CleanSession(c)))
  {
    hide Inv, Delete, Local;
    var v := Step(w, CleanSession(c));
    if v != w {
      Before(w, v, c);
      DeleteIs(w, w.conns[c].id);
      DeleteIsLocal(w, v, c);
      ActorKeeps(w, v, c);
    }
  }

  lemma OpenKnown(w: World, c: nat, now: int)
    requires Inv(w) && c in w.conns && w.conns[c].id in w.stored
    ensures Inv(Step(w, Open(c, now)))
  {
    hide Inv, Local, RouteOk, RoutesOk;
    var v := Step(w, Open(c, now));
    if v != w {
      Before(w, v, c);
      MoveIsLocal(w, v, c);
      RoutesStay(w, v, w.conns[c].id);
      ActorKeeps(w, v, c);
    }
  }

  lemma OpenNew(w: World, c: nat, now: int)
    requires Inv(w) && c in w.conns && w.conns[c].id !in w.stored
    ensures Inv(Step(w, Open(c, now)))
  {
    hide Inv, Go;
    if w.conns[c].pc.Opening? && w.conns[c].id !in w.stored {
      OpenedKeeps(w, c, now, Step(w, Open(c, now)));
    }
  }

  lemma OpenedKeeps(w: World, c: nat, now: int, v: World)
    requires Inv(w) && c in w.conns && w.conns[c].pc.Opening? && w.conns[c].id !in w.stored
    requires v == Go(w.(handles := w.handles + [Handle(w.conns[c].id, w.conns[c].owner, map[], false, Some(now), 0, false)], stored := w.stored[w.conns[c].id := |w.handles|]),
                  c, Marking(|w.handles|))
    ensures Inv(v)
  {
    hide Inv, Local, RoutesOk;
    Before(w, v, c);
    AppendIsLocal(w, v, c);
    RoutesOpen(w, v, w.conns[c].id);
    ActorKeeps(w, v, c);
  }

  lemma OpenKeeps(w: World, c: nat, now: int)
    requires Inv(w)
    ensures Inv(Step(w, Open(c, now)))
  {
    hide Inv;
    if c in w.conns {
      if w.conns[c].id in w.stored {
        OpenKnown(w, c, now);
      } else {
        OpenNew(w, c, now);
      }
    }
  }

  lemma RefuseKeeps(w: World, c: nat)
    requires Inv(w)
    ensures Inv(Step(w, Refuse(c)))
  {
    hide Inv, Local, RouteOk, RoutesOk;
    var v := Step(w, Refuse(c));
    if v != w {
      Before(w, v, c);
      MoveIsLocal(w, v, c);
      RoutesStay(w, v, w.conns[c].id);
      ActorKeeps(w, v, c);
    }
  }

  lemma MarkConnectedKeeps(w: World, c: nat)
    requires Inv(w)
    ensures Inv(Step(w, MarkConnected(c)))
  {
    hide Inv, Local, RouteOk, RoutesOk;
    var v := Step(w, MarkConnected(c));
    if v != w {
      Before(w, v, c);
      PutIsLocal(w, v, c, w.conns[c].pc.h);
      RoutesStay(w, v, w.conns[c].id);
      ActorKeeps(w, v, c);
    }
  }

  lemma ReadSubscriptionsKeeps(w: World, c: nat)
    requires Inv(w)
    ensures Inv(Step(w, ReadSubscriptions(c)))
  {
    hide Inv, Local, RouteOk, RoutesOk;
    var v := Step(w, ReadSubscriptions(c));
    if v != w {
      Before(w, v, c);
      MoveIsLocal(w, v, c);
      RoutesStay(w, v, w.conns[c].id);
      ActorKeeps(w, v, c);
    }
  }

  lemma RestoreKeeps(w: World, c: nat, filter: bytes)
    requires Inv(w)
    ensures Inv(Step(w, Restore(c, filter)))
  {
    hide Inv, Go, Update, Put;
    if c in w.conns && w.conns[c].pc.Restoring? && filter in w.conns[c].pc.todo {
      RestoredKeeps(w, c, filter, Step(w, Restore(c, filter)));
    }
  }

  lemma RestoredKeeps(w: World, c: nat, filter: bytes, v: World)
    requires Inv(w) && c in w.conns && w.conns[c].pc.Restoring? && filter in w.conns[c].pc.todo
    requires v == Go(Update(w, Subscribed(filter, Subscription(w.conns[c].id, w.conns[c].pc.h, w.conns[c].pc.todo[filter]))), c, Restoring(w.conns[c].pc.h, w.conns[c].pc.todo - {filter}))
    ensures Inv(v)
  {
    hide Inv, Local, RoutesOk;
    Before(w, v, c);
    UpdateIsLocal(w, v, Subscribed(filter, Subscription(w.conns[c].id, w.conns[c].pc.h, w.conns[c].pc.todo[filter])), c);
    RoutesChange(w, v, w.conns[c].id, filter);
    ActorKeeps(w, v, c);
  }

  lemma RegisterKeeps(w: World, c: nat)
    requires Inv(w)
    ensures Inv(Step(w, Register(c)))
  {
    hide Inv, Local, RouteOk, RoutesOk;
    var v := Step(w, Register(c));
    if v != w {
      Before(w, v, c);
      MoveIsLocal(w, v, c);
      RoutesStay(w, v, w.conns[c].id);
      ActorKeeps(w, v, c);
    }
  }

  lemma ReadyKeeps(w: World, c: nat)
    requires Inv(w)
    ensures Inv(Step(w, Ready(c)))
  {
    hide Inv, Local, RouteOk, RoutesOk;
    var v := Step(w, Ready(c));
    if v != w {
      Before(w, v, c);
      MoveIsLocal(w, v, c);
      RoutesStay(w, v, w.conns[c].id);
      ActorKeeps(w, v, c);
    }
  }

  lemma BeginDeliveryKeeps(w: World, c: nat)
    requires Inv(w)
    ensures Inv(Step(w, BeginDelivery(c)))
  {
    hide Inv, Put, NextEpoch;
    if c in w.conns && w.conns[c].pc.Starting? {
      BegunKeeps(w, c, Step(w, BeginDelivery(c)));
    }
  }

  lemma BegunKeeps(w: World, c: nat, v: World)
    requires Inv(w) && c in w.conns && w.conns[c].pc.Starting?
    requires v == Put(w, w.conns[c].pc.h, Get(w, w.conns[c].pc.h).(epoch := NextEpoch(Get(w, w.conns[c].pc.h).epoch)))
               .(conns := w.conns[c := w.conns[c].(pc := Serving(w.conns[c].pc.h), consumer := Some(NextEpoch(Get(w, w.conns[c].pc.h).epoch)))])
    ensures Inv(v)
  {
    hide Inv, Local, RouteOk, RoutesOk;
    Before(w, v, c);
    PutIsLocal(w, v, c, w.conns[c].pc.h);
    RoutesStay(w, v, w.conns[c].id);
    ActorKeeps(w, v, c);
  }

  lemma SetSubscriptionKeeps(w: World, c: nat, filter: bytes, qos: nat)
    requires Inv(w)
    ensures Inv(Step(w, SetSubscription(c, filter, qos)))
  {
    hide Inv, Go, Put;
    if c in w.conns && w.conns[c].pc.Serving? && !Get(w, w.conns[c].pc.h).deleted {
      GrantKeeps(w, c, filter, Granted(qos), Step(w, SetSubscription(c, filter, qos)));
    }
  }

  lemma GrantKeeps(w: World, c: nat, filter: bytes, qos: nat, v: World)
    requires Inv(w) && c in w.conns && w.conns[c].pc.Serving? && qos <= 1
    requires var h := w.conns[c].pc.h;
             var s := Get(w, h);
             v == Go(Put(w, h, s.(subscriptions := s.subscriptions[filter := qos])), c, Subscribing(h, filter, qos))
    ensures Inv(v)
  {
    hide Inv, Local, RoutesOk;
    Before(w, v, c);
    PutIsLocal(w, v, c, w.conns[c].pc.h);
    RoutesChange(w, v, w.conns[c].id, filter);
    ActorKeeps(w, v, c);
  }

  lemma RouteKeeps(w: World, c: nat)
    requires Inv(w)
    ensures Inv(Step(w, Route(c)))
  {
    hide Inv, Go, Update, Put;
    if c in w.conns && w.conns[c].pc.Subscribing? {
      Routed(w, c, Step(w, Route(c)));
    }
  }

  lemma Routed(w: World, c: nat, v: World)
    requires Inv(w) && c in w.conns && w.conns[c].pc.Subscribing?
    requires v == Go(Update(w, Subscribed(w.conns[c].pc.filter, Subscription(w.conns[c].id, w.conns[c].pc.h, w.conns[c].pc.qos))), c, Serving(w.conns[c].pc.h))
    ensures Inv(v)
  {
    hide Inv, Local, RoutesOk;
    Before(w, v, c);
    UpdateIsLocal(w, v, Subscribed(w.conns[c].pc.filter, Subscription(w.conns[c].id, w.conns[c].pc.h, w.conns[c].pc.qos)), c);
    RoutesChange(w, v, w.conns[c].id, w.conns[c].pc.filter);
    ActorKeeps(w, v, c);
  }

  lemma UnrouteKeeps(w: World, c: nat, filter: bytes)
    requires Inv(w)
    ensures Inv(Step(w, Unroute(c, filter)))
  {
    hide Inv, Go, Update, Put;
    if c in w.conns && w.conns[c].pc.Serving? {
      Unrouted(w, c, filter, Step(w, Unroute(c, filter)));
    }
  }

  lemma Unrouted(w: World, c: nat, filter: bytes, v: World)
    requires Inv(w) && c in w.conns && w.conns[c].pc.Serving?
    requires v == Go(Update(w, Unsubscribed(filter, w.conns[c].id)), c, Unsubscribing(w.conns[c].pc.h, filter))
    ensures Inv(v)
  {
    hide Inv, Local, RoutesOk;
    Before(w, v, c);
    UpdateIsLocal(w, v, Unsubscribed(filter, w.conns[c].id), c);
    RoutesChange(w, v, w.conns[c].id, filter);
    ActorKeeps(w, v, c);
  }

  lemma DeleteSubscriptionKeeps(w: World, c: nat)
    requires Inv(w)
    ensures Inv(Step(w, DeleteSubscription(c)))
  {
    hide Inv, Go, Update, Put;
    if c in w.conns && w.conns[c].pc.Unsubscribing? {
      Forgotten(w, c, Step(w, DeleteSubscription(c)));
    }
  }

  lemma Forgotten(w: World, c: nat, v: World)
    requires Inv(w) && c in w.conns && w.conns[c].pc.Unsubscribing?
    requires v == Go(Put(w, w.conns[c].pc.h, Get(w, w.conns[c].pc.h).(subscriptions := Get(w, w.conns[c].pc.h).subscriptions - {w.conns[c].pc.filter})), c, Serving(w.conns[c].pc.h))
    ensures Inv(v)
  {
    hide Inv, Local, RoutesOk;
    Before(w, v, c);
    PutIsLocal(w, v, c, w.conns[c].pc.h);
    RoutesChange(w, v, w.conns[c].id, w.conns[c].pc.filter);
    ActorKeeps(w, v, c);
  }

  lemma StopConsumerKeeps(w: World, c: nat)
    requires Inv(w)
    ensures Inv(Step(w, StopConsumer(c)))
  {
    hide Inv, Local;
    var v := Step(w, StopConsumer(c));
    if v != w {
      Before(w, v, c);
      MoveIsLocal(w, v, c);
      ActorKeeps(w, v, c);
    }
  }

  lemma LeaveKeeps(w: World, c: nat)
    requires Inv(w)
    ensures Inv(Step(w, Leave(c)))
  {
    hide Inv, Go, Update, Put;
    if c in w.conns && (w.conns[c].pc.Greeting? || w.conns[c].pc.Serving?) {
      LeavingKeeps(w, c, Step(w, Leave(c)));
    }
  }

  lemma LeavingKeeps(w: World, c: nat, v: World)
    requires Inv(w) && c in w.conns && (w.conns[c].pc.Greeting? || w.conns[c].pc.Serving?)
    requires v == Go(w, c, Leaving(w.conns[c].pc.h))
    ensures Inv(v)
  {
    hide Inv, Local, RouteOk, RoutesOk;
    Before(w, v, c);
    MoveIsLocal(w, v, c);
    RoutesStay(w, v, w.conns[c].id);
    ActorKeeps(w, v, c);
  }

  lemma BeginClosingKeeps(w: World, c: nat)
    requires Inv(w)
    ensures Inv(Step(w, BeginClosing(c)))
  {
    hide Inv, Go, Update, Put;
    if c in w.conns && w.conns[c].pc.Leaving? && w.lock == FREE {
      ClosingKeeps(w, c, Step(w, BeginClosing(c)));
    }
  }

  lemma ClosingKeeps(w: World, c: nat, v: World)
    requires Inv(w) && c in w.conns && w.conns[c].pc.Leaving? && w.lock == FREE
    requires v == Go(w, c, Joining(w.conns[c].pc.h))
    ensures Inv(v)
  {
    hide Inv, Local, RouteOk, RoutesOk;
    Before(w, v, c);
    MoveIsLocal(w, v, c);
    RoutesStay(w, v, w.conns[c].id);
    ActorKeeps(w, v, c);
  }

  lemma CloseClean(w: World, c: nat, at: int)
    requires Inv(w) && c in w.conns && w.conns[c].clean
    ensures Inv(Step(w, Close(c, at)))
  {
    hide Inv, Go, Delete, Put;
    Before(w, w, c);
    if w.conns[c].pc.Joining? && w.conns[c].consumer.None? && w.lock == FREE && w.conns[c].clean && w.conns[c].id in w.clients && w.clients[w.conns[c].id] == c {
      ClosedClean(w, c, at, Step(w, Close(c, at)));
    }
  }

  lemma ClosedClean(w: World, c: nat, at: int, v: World)
    requires Inv(w) && c in w.conns && w.conns[c].pc.Joining? && w.conns[c].consumer.None? && w.lock == FREE && w.conns[c].clean && w.conns[c].id in w.clients && w.clients[w.conns[c].id] == c
    requires v == Go(Delete(w, w.conns[c].id), c, Dropping(w.conns[c].pc.h)).(lock := Held(c))
    ensures Inv(v)
  {
    hide Inv, Delete, Local, RoutesOk;
    Before(w, v, c);
    DeleteIs(w, w.conns[c].id);
    DeleteIsLocal(w, v, c);
    RoutesPending(v, w.conns[c].id);
    ActorKeeps(w, v, c);
  }

  lemma CloseKept(w: World, c: nat, at: int)
    requires Inv(w) && c in w.conns && !w.conns[c].clean
    ensures Inv(Step(w, Close(c, at)))
  {
    hide Inv, Go, Delete, Put;
    Before(w, w, c);
    if w.conns[c].pc.Joining? && w.conns[c].consumer.None? && w.lock == FREE && !w.conns[c].clean && w.conns[c].id in w.clients && w.clients[w.conns[c].id] == c {
      ClosedKept(w, c, at, Step(w, Close(c, at)));
    }
  }

  lemma ClosedKept(w: World, c: nat, at: int, v: World)
    requires Inv(w) && c in w.conns && w.conns[c].pc.Joining? && w.conns[c].consumer.None? && w.lock == FREE && !w.conns[c].clean && w.conns[c].id in w.clients && w.clients[w.conns[c].id] == c
    requires v == Go(Put(w, w.conns[c].pc.h, Offline(Get(w, w.conns[c].pc.h), at)), c, Releasing(w.conns[c].pc.h)).(lock := Held(c))
    ensures Inv(v)
  {
    hide Inv, Delete, Local, RouteOk, RoutesOk;
    Before(w, v, c);
    PutIsLocal(w, v, c, w.conns[c].pc.h);
    RoutesStay(w, v, w.conns[c].id);
    ActorKeeps(w, v, c);
  }

  lemma CloseKeeps(w: World, c: nat, at: int)
    requires Inv(w)
    ensures Inv(Step(w, Close(c, at)))
  {
    hide Inv;
    if c in w.conns {
      if w.conns[c].clean {
        CloseClean(w, c, at);
      } else {
        CloseKept(w, c, at);
      }
    }
  }

  lemma DropRoutesKeeps(w: World, c: nat)
    requires Inv(w)
    ensures Inv(Step(w, DropRoutes(c)))
  {
    hide Inv, Go, Update, Put;
    if c in w.conns && w.conns[c].pc.Dropping? {
      DroppedKeeps(w, c, Step(w, DropRoutes(c)));
    }
  }

  lemma DroppedKeeps(w: World, c: nat, v: World)
    requires Inv(w) && c in w.conns && w.conns[c].pc.Dropping?
    requires v == Go(Update(w, Dropped(w.conns[c].id)), c, Releasing(w.conns[c].pc.h))
    ensures Inv(v)
  {
    hide Inv, Local, RoutesOk;
    Before(w, v, c);
    UpdateIsLocal(w, v, Dropped(w.conns[c].id), c);
    RoutesGone(v, w.conns[c].id);
    ActorKeeps(w, v, c);
  }

  lemma ReleaseKeeps(w: World, c: nat)
    requires Inv(w)
    ensures Inv(Step(w, Release(c)))
  {
    hide Inv, Go, Update, Put;
    if c in w.conns && w.conns[c].pc.Releasing? {
      ReleasedKeeps(w, c, Step(w, Release(c)));
    }
  }

  lemma ReleasedKeeps(w: World, c: nat, v: World)
    requires Inv(w) && c in w.conns && w.conns[c].pc.Releasing?
    requires v == Go(w, c, Done).(clients := w.clients - {w.conns[c].id}, lock := FREE)
    ensures Inv(v)
  {
    hide Inv, Local, RouteOk, RoutesOk;
    Before(w, v, c);
    MoveIsLocal(w, v, c);
    RoutesStay(w, v, w.conns[c].id);
    ActorKeeps(w, v, c);
  }

  // ----- Steps without an acting connection

  /** An idle connection that comes or goes changes nothing for the others. */
  lemma IdleKeeps(w: World, v: World, c: nat, k: Conn)
    requires Inv(w) && Idle(k) && v == w.(conns := w.conns[c := k])
    requires c in w.conns ==> Idle(w.conns[c]) && w.conns[c].id == k.id
    ensures Inv(v)
  {
    hide Sane;
    assert Sane(w, k.id);
    IdleHere(w, v, c, k);
    assert Local(w, v, k.id);
    OnlyHere(w, v, k.id);
  }

  lemma IdleHere(w: World, v: World, c: nat, k: Conn)
    requires Shielded(w) && Sane(w, k.id) && Idle(k) && v == w.(conns := w.conns[c := k])
    requires c in w.conns ==> Idle(w.conns[c]) && w.conns[c].id == k.id
    ensures Sane(v, k.id)
  {
    hide RouteOk;
    IdleConns(w, v, c, k);
    forall f ensures RouteOk(v, f, k.id) {
      assert RouteOk(w, f, k.id);
      IdleRoutes(w, v, c, k, f);
    }
  }

  lemma IdleConns(w: World, v: World, c: nat, k: Conn)
    requires Shielded(w) && ConnsOk(w, k.id) && Idle(k) && v == w.(conns := w.conns[c := k])
    requires c in w.conns ==> Idle(w.conns[c]) && w.conns[c].id == k.id
    ensures ConnsOk(v, k.id)
  {
    assert c in w.conns ==> ConnOk(w, c);
    forall d | d in v.conns && v.conns[d].id == k.id ensures ConnOk(v, d) {
      assert d != c ==> ConnOk(w, d);
    }
  }

  lemma IdleRoutes(w: World, v: World, c: nat, k: Conn, f: bytes)
    requires Shielded(w) && ListOk(w, k.id) && RouteOk(w, f, k.id) && Idle(k) && v == w.(conns := w.conns[c := k])
    requires c in w.conns ==> Idle(w.conns[c]) && w.conns[c].id == k.id
    ensures RouteOk(v, f, k.id) && ListOk(v, k.id)
  {
  }

  lemma ConnectKeeps(w: World, c: nat, id: bytes, owner: bytes, clean: bool)
    requires Inv(w)
    ensures Inv(Step(w, Connect(c, id, owner, clean)))
  {
    hide Inv;
    if c !in w.conns {
      IdleKeeps(w, Step(w, Connect(c, id, owner, clean)), c, Conn(id, owner, clean, Waiting, None));
    }
  }

  lemma GiveUpKeeps(w: World, c: nat)
    requires Inv(w)
    ensures Inv(Step(w, GiveUp(c)))
  {
    hide Inv;
    if c in w.conns && w.conns[c].pc.Waiting? {
      Before(w, w, c);
      IdleKeeps(w, Step(w, GiveUp(c)), c, w.conns[c].(pc := Done));
    }
  }

  /** Nobody owns a session that is overdue while the lock is free. */
  lemma LateIsUnowned(w: World, now: int, ttl: nat, c: nat)
    requires Inv(w) && w.lock == FREE && c in w.conns && w.conns[c].id in Late(w, now, ttl)
    ensures !Owning(w.conns[c]) && !Locking(w.conns[c].pc) && w.conns[c].consumer.None?
  {
    assert Sane(w, w.conns[c].id);
    assert ConnOk(w, c);
  }

  lemma ExpireKeeps(w: World, now: int, ttl: nat)
    requires Inv(w)
    ensures Inv(Step(w, Expire(now, ttl)))
  {
    var v := Step(w, Expire(now, ttl));
    if w.lock == FREE {
      forall id ensures Sane(v, id) {
        if id in Late(w, now, ttl) {
          ExpiredId(w, v, now, ttl, id);
        } else {
          SparedId(w, v, now, ttl, id);
        }
      }
    }
  }

  lemma ExpiredId(w: World, v: World, now: int, ttl: nat, id: bytes)
    requires Inv(w) && w.lock == FREE && v == Step(w, Expire(now, ttl)) && id in Late(w, now, ttl)
    ensures Sane(v, id)
  {
    assert Sane(w, id);
    forall c | c in v.conns && v.conns[c].id == id ensures ConnOk(v, c) {
      assert ConnOk(w, c);
      LateIsUnowned(w, now, ttl, c);
    }
  }

  /** What a sweep that spares `id` leaves as it was. */
  ghost predicate Spares(w: World, v: World, id: bytes) {
    && v.conns == w.conns && v.clients == w.clients && v.routes == w.routes && w.lock == FREE && v.lock.Sweeping? && id !in v.lock.todo
    && SameKey(w.stored, v.stored, id) && |v.handles| == |w.handles|
    && forall h :: 0 <= h < |w.handles| ==> v.handles[h].id == w.handles[h].id && (w.handles[h].id == id ==> v.handles[h] == w.handles[h])
  }

  lemma ExpireSpares(w: World, now: int, ttl: nat, id: bytes)
    requires w.lock == FREE && id !in Late(w, now, ttl)
    ensures Spares(w, Step(w, Expire(now, ttl)), id)
  {
    hide Late;
  }

  lemma SparedId(w: World, v: World, now: int, ttl: nat, id: bytes)
    requires Inv(w) && w.lock == FREE && v == Step(w, Expire(now, ttl)) && id !in Late(w, now, ttl)
    ensures Sane(v, id)
  {
    hide Step, Late, ConnsOk, RoutesOk;
    ExpireSpares(w, now, ttl, id);
    assert Sane(w, id);
    SparedConns(w, v, id);
    SparedRoutes(w, v, id);
  }

  lemma SparedConns(w: World, v: World, id: bytes)
    requires Spares(w, v, id) && ConnsOk(w, id) && FileOk(w, id)
    ensures ConnsOk(v, id) && FileOk(v, id)
  {
    forall c | c in v.conns && v.conns[c].id == id ensures ConnOk(v, c) {
      assert ConnOk(w, c);
    }
  }

  lemma SparedRoutes(w: World, v: World, id: bytes)
    requires Spares(w, v, id) && RoutesOk(w, id) && FileOk(w, id)
    ensures RoutesOk(v, id)
  {
    forall f ensures RouteOk(v, f, id) {
      assert RouteOk(w, f, id);
    }
  }

  lemma SweepOneKeeps(w: World, id: bytes)
    requires Inv(w)
    ensures Inv(Step(w, SweepOne(id)))
  {
    hide Sane;
    if w.lock.Sweeping? && id in w.lock.todo {
      assert Sane(w, id);
      SweptHere(w, id);
      OnlyHere(w, Step(w, SweepOne(id)), id);
    }
  }

  lemma SweptHere(w: World, id: bytes)
    requires w.lock.Sweeping? && id in w.lock.todo && Sane(w, id)
    ensures Sane(Step(w, SweepOne(id)), id)
  {
    hide RouteOk, RoutesOk;
    var v := Step(w, SweepOne(id));
    SweptAway(w, id);
    RoutesGone(v, id);
    assert forall d :: d in w.conns && w.conns[d].id == id ==> ConnOk(w, d);
  }

  lemma SweptAway(w: World, id: bytes)
    requires w.lock.Sweeping? && id in w.lock.todo && RoutesOk(w, id)
    ensures id !in w.stored
  {
    assert RouteOk(w, [], id);
  }

  /** Readers come and go without touching anything else. */
  lemma SharedKeeps(w: World, v: World)
    requires Inv(w) && (w.lock.Shared? || w.lock == Sweeping({})) && v.lock.Shared? && v == w.(lock := v.lock) && Shielded(v)
    ensures Inv(v)
  {
    forall id ensures Sane(v, id) {
      assert Sane(w, id);
      assert forall d :: d in w.conns && w.conns[d].id == id ==> ConnOk(w, d);
      forall f ensures RouteOk(v, f, id) {
        assert RouteOk(w, f, id);
      }
    }
  }

  /** While the lock is not held for writing, every route leads to a stored session. */
  lemma RoutesAreRooted(w: World)
    requires Inv(w) && w.lock.Shared?
    ensures Rooted(w.routes, w.stored)
  {
    forall f, id | (f, id) in w.routes ensures id in w.stored && w.routes[(f, id)].subscriber == w.stored[id] {
      assert Sane(w, id);
      assert RouteOk(w, f, id);
      if HalfDone(w, f, id) {
        assert ConnOk(w, w.clients[id]);
      }
    }
  }

  lemma ReadersKeep(w: World, a: Action)
    requires Inv(w) && (a.SweepEnd? || a.ReadLock? || a.Snapshot? || a.ReadUnlock?)
    ensures Inv(Step(w, a))
  {
    hide Sane;
    var v := Step(w, a);
    if v != w {
      if a.Snapshot? {
        RoutesAreRooted(w);
      }
      SharedKeeps(w, v);
    }
  }

  lemma StepKeeps(w: World, a: Action)
    requires Inv(w)
    ensures Inv(Step(w, a))
  {
    hide Inv, Step;
    match a {
      case Connect(c, id, owner, clean) => ConnectKeeps(w, c, id, owner, clean);
      case GiveUp(c) => GiveUpKeeps(w, c);
      case Acquire(c) => AcquireKeeps(w, c);
      case ExpireSession(c, now, ttl) => ExpireSessionKeeps(w, c, now, ttl);
      case Purge(c) => PurgeKeeps(w, c);
      case CleanRoutes(c) => CleanRoutesKeeps(w, c);
      case CleanSession(c) => CleanSessionKeeps(w, c);
      case Open(c, now) => OpenKeeps(w, c, now);
      case Refuse(c) => RefuseKeeps(w, c);
      case MarkConnected(c) => MarkConnectedKeeps(w, c);
      case ReadSubscriptions(c) => ReadSubscriptionsKeeps(w, c);
      case Restore(c, f) => RestoreKeeps(w, c, f);
      case Register(c) => RegisterKeeps(w, c);
      case Ready(c) => ReadyKeeps(w, c);
      case BeginDelivery(c) => BeginDeliveryKeeps(w, c);
      case SetSubscription(c, f, q) => SetSubscriptionKeeps(w, c, f, q);
      case Route(c) => RouteKeeps(w, c);
      case Unroute(c, f) => UnrouteKeeps(w, c, f);
      case DeleteSubscription(c) => DeleteSubscriptionKeeps(w, c);
      case StopConsumer(c) => StopConsumerKeeps(w, c);
      case Leave(c) => LeaveKeeps(w, c);
      case BeginClosing(c) => BeginClosingKeeps(w, c);
      case Close(c, at) => CloseKeeps(w, c, at);
      case DropRoutes(c) => DropRoutesKeeps(w, c);
      case Release(c) => ReleaseKeeps(w, c);
      case Expire(now, ttl) => ExpireKeeps(w, now, ttl);
      case SweepOne(id) => SweepOneKeeps(w, id);
      case _ => ReadersKeep(w, a);
    }
  }

  /** Every reachable state is in order. */
  lemma {:induction false} RunIsSane(actions: seq<Action>)
    ensures Inv(Run(actions))
  {
    hide Step;
    if actions != [] {
      RunIsSane(actions[..|actions| - 1]);
      StepKeeps(Run(actions[..|actions| - 1]), actions[|actions| - 1]);
    }
  }

  // ----- What every interleaving promises

  /** At most one connection is registered for a client identifier. */
  lemma OneOwnerPerClient(actions: seq<Action>, c: nat, d: nat)
    requires var w := Run(actions);
             c in w.conns && d in w.conns && w.conns[c].id == w.conns[d].id && Registered(w.conns[c].pc) && Registered(w.conns[d].pc)
    ensures c == d
  {
    var w := Run(actions);
    RunIsSane(actions);
    assert Sane(w, w.conns[c].id);
    assert ConnOk(w, c) && ConnOk(w, d);
  }

  /** At most one delivery consumer runs for a session, under the session's current epoch. */
  lemma OneConsumerPerSession(actions: seq<Action>, c: nat, d: nat)
    requires var w := Run(actions);
             c in w.conns && d in w.conns && w.conns[c].consumer.Some? && w.conns[d].consumer.Some?
    ensures var w := Run(actions);
            && Delivering(w.conns[c].pc) && w.conns[c].consumer.value == Get(w, w.conns[c].pc.h).epoch && !Get(w, w.conns[c].pc.h).deleted
            && (Delivering(w.conns[d].pc) && w.conns[c].pc.h == w.conns[d].pc.h ==> c == d)
  {
    var w := Run(actions);
    RunIsSane(actions);
    assert Sane(w, w.conns[c].id) && Sane(w, w.conns[d].id);
    assert ConnOk(w, c) && ConnOk(w, d);
  }

  /** The only steps that delete a session: the expiry sweep, and steps of a connection with its
      identifier. */
  lemma Deleters(w: World, a: Action, h: nat)
    requires !Get(w, h).deleted && Get(Step(w, a), h).deleted
    ensures (a.Expire? && w.lock == FREE && Get(w, h).id in Late(w, a.now, a.ttl))
         || ((a.ExpireSession? || a.CleanSession? || a.Close?) && Deletes(w, a, h))
  {
    hide Advance, Late;
    if !a.Expire? && !a.Connect? && !a.SweepOne? && !a.SweepEnd? && !a.ReadLock? && !a.Snapshot? && !a.ReadUnlock? && a.c in w.conns {
      ConnDeletes(w, a, h);
    }
  }

  lemma ConnDeletes(w: World, a: Action, h: nat)
    requires !a.Expire? && !a.Connect? && !a.SweepOne? && !a.SweepEnd? && !a.ReadLock? && !a.Snapshot? && !a.ReadUnlock?
    requires a.c in w.conns && !Get(w, h).deleted && Get(Advance(w, a.c, w.conns[a.c], a), h).deleted
    ensures (a.ExpireSession? || a.CleanSession? || a.Close?) && Deletes(w, a, h)
  {
    hide Advance;
    if Working(w.conns[a.c].pc) {
      WorkingDeletes(w, a, h);
    } else {
      OpeningDeletes(w, a, h);
    }
  }

  lemma WorkingDeletes(w: World, a: Action, h: nat)
    requires !a.Expire? && !a.Connect? && !a.SweepOne? && !a.SweepEnd? && !a.ReadLock? && !a.Snapshot? && !a.ReadUnlock?
    requires a.c in w.conns && Working(w.conns[a.c].pc)
    requires !Get(w, h).deleted && Get(Advance(w, a.c, w.conns[a.c], a), h).deleted
    ensures a.Close? && Deletes(w, a, h)
  {
    hide Advance, Go, Put, Update, Delete;
    if a.Close? {
      CloseDeletes(w, a, h);
    } else {
      WorkingSpares(w, a, h);
      assert false;
    }
  }

  lemma CloseDeletes(w: World, a: Action, h: nat)
    requires a.Close? && a.c in w.conns && Working(w.conns[a.c].pc)
    requires !Get(w, h).deleted && Get(Advance(w, a.c, w.conns[a.c], a), h).deleted
    ensures Deletes(w, a, h)
  {
  }

  lemma WorkingSpares(w: World, a: Action, h: nat)
    requires !a.Expire? && !a.Connect? && !a.SweepOne? && !a.SweepEnd? && !a.ReadLock? && !a.Snapshot? && !a.ReadUnlock? && !a.Close?
    requires a.c in w.conns && Working(w.conns[a.c].pc)
    ensures Get(Advance(w, a.c, w.conns[a.c], a), h).deleted == Get(w, h).deleted
  {
    hide Apply, Expired, NextEpoch, Delete;
  }

  lemma OpeningDeletes(w: World, a: Action, h: nat)
    requires !a.Expire? && !a.Connect? && !a.SweepOne? && !a.SweepEnd? && !a.ReadLock? && !a.Snapshot? && !a.ReadUnlock?
    requires a.c in w.conns && !Working(w.conns[a.c].pc)
    requires !Get(w, h).deleted && Get(Advance(w, a.c, w.conns[a.c], a), h).deleted
    ensures (a.ExpireSession? || a.CleanSession?) && Deletes(w, a, h)
  {
    hide Apply, Expired, NextEpoch;
  }

  /** Connection `a.c` is about to delete the session stored for it, which is `h`. */
  predicate Deletes(w: World, a: Action, h: nat)
    requires a.ExpireSession? || a.CleanSession? || a.Close?
  {
    && a.c in w.conns && w.conns[a.c].id in w.stored && w.stored[w.conns[a.c].id] == h
    && (w.conns[a.c].pc.Checked? || w.conns[a.c].pc.Cleaned? || (a.Close? && w.conns[a.c].pc.Joining? && w.conns[a.c].clean))
  }

  /** No step deletes a session that a connection owns, except that connection's own close of a
      clean session. */
  lemma OwnedSessionsSurvive(actions: seq<Action>, a: Action, c: nat)
    requires var w := Run(actions);
             c in w.conns && Owning(w.conns[c]) && Get(Step(w, a), w.conns[c].pc.h).deleted
    ensures a.Close? && a.c == c && Run(actions).conns[c].clean
  {
    hide Step;
    var w := Run(actions);
    var id := w.conns[c].id;
    RunIsSane(actions);
    assert Sane(w, id);
    assert ConnOk(w, c);
    Deleters(w, a, w.conns[c].pc.h);
    if a.Expire? {
      LateIsUnowned(w, a.now, a.ttl, c);
      assert false;
    } else {
      assert Sane(w, w.conns[a.c].id);
      assert ConnOk(w, a.c);
    }
  }

  /** Nothing for `id` is between two of its updates. */
  predicate Settled(w: World, id: bytes) {
    !Midway(w, id) && !Cleared(w, id)
    && forall c :: c in w.conns && w.conns[c].id == id ==> !w.conns[c].pc.Subscribing? && !w.conns[c].pc.Unsubscribing?
  }

  /** The routes of a settled client are exactly the subscriptions of its stored session, with that
      session as the subscriber; without a stored session there are none. */
  lemma RoutesAreSubscriptions(actions: seq<Action>, id: bytes)
    requires Settled(Run(actions), id)
    ensures var w := Run(actions);
            && (forall f :: (f, id) in w.routes <==> id in w.stored && f in Get(w, w.stored[id]).subscriptions)
            && (forall f :: (f, id) in w.routes ==>
                  w.routes[(f, id)] == Subscription(id, w.stored[id], Get(w, w.stored[id]).subscriptions[f]))
  {
    var w := Run(actions);
    RunIsSane(actions);
    assert Sane(w, id);
    forall f
      ensures (f, id) in w.routes <==> id in w.stored && f in Get(w, w.stored[id]).subscriptions
      ensures (f, id) in w.routes ==> w.routes[(f, id)] == Subscription(id, w.stored[id], Get(w, w.stored[id]).subscriptions[f])
    {
      assert RouteOk(w, f, id);
      assert !HalfDone(w, f, id);
    }
  }

  /** What the stored sessions have been granted. */
  function Granting(w: World): Grants {
    map id | id in w.stored :: Get(w, w.stored[id]).subscriptions
  }

  /** When every client is settled, the routes are all the stored grants, each at most QoS 1, and
      lead to the stored sessions: what a publish relies on. */
  lemma SettledRoutesAgree(actions: seq<Action>)
    requires forall id :: Settled(Run(actions), id)
    ensures var w := Run(actions); Agreed(w.routes, Granting(w)) && Rooted(w.routes, w.stored)
  {
    hide Settled;
    var w := Run(actions);
    RunIsSane(actions);
    forall f, id
      ensures (f, id) in w.routes <==> id in w.stored && f in Get(w, w.stored[id]).subscriptions
      ensures (f, id) in w.routes ==>
                && w.routes[(f, id)] == Subscription(id, w.stored[id], Get(w, w.stored[id]).subscriptions[f])
                && w.routes[(f, id)].qos <= 1
    {
      RoutesAreSubscriptions(actions, id);
      assert Sane(w, id);
    }
  }

  /** While a publisher holds the read lock, the sessions it found stay stored, and each entry of its
      snapshot finds its client's session to be its own subscriber. */
  lemma SnapshotsStayDeliverable(actions: seq<Action>, r: nat, f: bytes, id: bytes)
    requires var w := Run(actions); w.lock.Shared? && r in w.lock.readers
    ensures var w := Run(actions);
            && w.lock.readers[r].stored == w.stored
            && (w.lock.readers[r].snapshot.Some? && (f, id) in w.lock.readers[r].snapshot.value ==>
                  id in w.stored && w.lock.readers[r].snapshot.value[(f, id)].subscriber == w.stored[id])
  {
    RunIsSane(actions);
    assert ReaderOk(Run(actions).lock.readers[r], Run(actions).stored);
  }
}
