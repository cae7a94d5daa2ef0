/** Nothing gets stuck: whoever holds the registry lock gives it back by its own steps, a registered
    connection can always leave, and the next one of the same client then gets in. */
module Progress {
  import opened Bytes
  import opened Routing
  import opened Ownership
  import opened Handles

  /** Where a world gets to by more steps. */
  ghost function After(w: World, steps: seq<Action>): World
    decreases |steps|
  {
    if steps == [] then w else After(Step(w, steps[0]), steps[1..])
  }

  /** All the steps are those of connection `c`. */
  predicate By(steps: seq<Action>, c: nat) {
    forall i :: 0 <= i < |steps| ==> OfConn(steps[i]) && steps[i].c == c
  }

  lemma {:induction false} AfterBoth(w: World, a: seq<Action>, b: seq<Action>)
    ensures After(w, a + b) == After(After(w, a), b)
    decreases |a|
  {
    hide Step;
    if a == [] {
      assert a + b == b;
    } else {
      assert (a + b)[1..] == a[1..] + b;
      AfterBoth(Step(w, a[0]), a[1..], b);
    }
  }

  lemma {:induction false} RunOn(before: seq<Action>, steps: seq<Action>)
    ensures Run(before + steps) == After(Run(before), steps)
    decreases |steps|
  {
    hide Step;
    if steps == [] {
      assert before + steps == before;
    } else {
      var one := before + [steps[0]];
      assert one[..|before|] == before && one + steps[1..] == before + steps;
      RunOn(one, steps[1..]);
    }
  }

  // ----- Whoever holds the lock

  function Stage(pc: Pc): nat {
    match pc
    case Checked => 9 case Purging => 8 case Cleaning => 7 case Cleaned => 6 case Opening => 5
    case Marking(_) => 4 case Reading(_) => 3 case Restoring(_, _) => 2 case Dropping(_) => 2
    case Releasing(_) => 1 case _ => 0
  }

  function Todo(pc: Pc): nat {
    if pc.Restoring? then |pc.todo| else 0
  }

  /** What a connection that holds the lock does next. */
  ghost function Due(pc: Pc, c: nat, now: int, ttl: nat): Action {
    match pc
    case Checked => ExpireSession(c, now, ttl)
    case Purging => Purge(c)
    case Cleaning => CleanRoutes(c)
    case Cleaned => CleanSession(c)
    case Opening => Open(c, now)
    case Marking(_) => MarkConnected(c)
    case Reading(_) => ReadSubscriptions(c)
    case Restoring(_, todo) => if todo == map[] then Register(c) else var f :| f in todo; Restore(c, f)
    case Dropping(_) => DropRoutes(c)
    case _ => Release(c)
  }

  /** The next stage is closer to the end, with the same registrations. */
  ghost predicate Nearer(w: World, v: World, c: nat) {
    && c in w.conns && c in v.conns && v.clients == w.clients
    && (Acquiring(w.conns[c].pc) <==> Acquiring(v.conns[c].pc)) && Locking(v.conns[c].pc)
    && (Stage(v.conns[c].pc) < Stage(w.conns[c].pc)
        || (Stage(v.conns[c].pc) == Stage(w.conns[c].pc) && Todo(v.conns[c].pc) < Todo(w.conns[c].pc)))
  }

  /** Registered, or gone, and the lock is free; the stored session is still the owner's. */
  ghost predicate Finished(w: World, v: World, c: nat) {
    && c in w.conns && c in v.conns && v.lock == FREE
    && (if Acquiring(w.conns[c].pc) then v.conns[c].pc.Greeting? && v.clients == w.clients[w.conns[c].id := c]
        else v.conns[c].pc.Done? && v.clients == w.clients - {w.conns[c].id})
    && (w.conns[c].id in v.stored ==> Get(v, v.stored[w.conns[c].id]).owner == w.conns[c].owner)
  }

  lemma CheckedGoesOn(w: World, c: nat, now: int, ttl: nat)
    requires Stands(w, c, Checked)
    ensures Nearer(w, Step(w, ExpireSession(c, now, ttl)), c)
  {
    hide Delete, Expired, Get;
    PutMovesNobody(w);
  }

  lemma CleaningGoesOn(w: World, c: nat)
    requires c in w.conns
    ensures w.conns[c].pc.Purging? ==> Nearer(w, Step(w, Purge(c)), c)
    ensures w.conns[c].pc.Cleaning? ==> Nearer(w, Step(w, CleanRoutes(c)), c)
    ensures w.conns[c].pc.Cleaned? ==> Nearer(w, Step(w, CleanSession(c)), c)
  {
    hide Delete;
    PutMovesNobody(w);
  }

  lemma OpeningGoesOn(w: World, c: nat, now: int)
    requires Tidy(w) && Stands(w, c, Opening)
    ensures Nearer(w, Step(w, Open(c, now)), c)
  {
    hide Tidy;
    TidyFacts(w, c);
  }

  lemma MarkingGoesOn(w: World, c: nat)
    requires c in w.conns
    ensures w.conns[c].pc.Marking? ==> Nearer(w, Step(w, MarkConnected(c)), c)
  {
    hide Put, Get;
    PutMovesNobody(w);
  }

  lemma ReadingGoesOn(w: World, c: nat)
    requires c in w.conns
    ensures w.conns[c].pc.Reading? ==> Nearer(w, Step(w, ReadSubscriptions(c)), c)
    ensures w.conns[c].pc.Dropping? ==> Nearer(w, Step(w, DropRoutes(c)), c)
  {
    hide Put, Get;
  }

  lemma RestoringGoesOn(w: World, c: nat, f: bytes)
    requires c in w.conns && w.conns[c].pc.Restoring? && f in w.conns[c].pc.todo
    ensures Nearer(w, Step(w, Restore(c, f)), c)
  {
    var todo := w.conns[c].pc.todo;
    assert (todo - {f}).Keys == todo.Keys - {f};
  }

  lemma RegistersOrLeaves(w: World, c: nat)
    requires Tidy(w) && c in w.conns
    ensures w.conns[c].pc.Restoring? && w.conns[c].pc.todo == map[] ==> Finished(w, Step(w, Register(c)), c)
    ensures w.conns[c].pc.Releasing? ==> Finished(w, Step(w, Release(c)), c)
  {
    hide Tidy;
    TidyFacts(w, c);
  }

  lemma DueIsProgress(w: World, c: nat, now: int, ttl: nat)
    requires Tidy(w) && c in w.conns && Locking(w.conns[c].pc)
    ensures var a := Due(w.conns[c].pc, c, now, ttl);
            OfConn(a) && a.c == c && (Nearer(w, Step(w, a), c) || Finished(w, Step(w, a), c))
  {
    hide Tidy, Step, Nearer, Finished;
    var a, pc := Due(w.conns[c].pc, c, now, ttl), w.conns[c].pc;
    CleaningGoesOn(w, c);
    MarkingGoesOn(w, c);
    ReadingGoesOn(w, c);
    RegistersOrLeaves(w, c);
    if pc.Checked? {
      CheckedGoesOn(w, c, now, ttl);
    } else if pc.Opening? {
      OpeningGoesOn(w, c, now);
    } else if a.Restore? {
      RestoringGoesOn(w, c, a.filter);
    }
  }

  /** Its other fields never change. */
  lemma SameConnection(w: World, a: Action)
    requires OfConn(a) && a.c in w.conns
    ensures SelfOnly(w.conns, Step(w, a).conns, a.c)
  {
    hide Advance, SelfOnly;
    AdvanceMoves(w, a);
  }

  lemma HolderLocks(w: World, c: nat)
    requires Inv(w)
    ensures w.lock == Held(c) <==> c in w.conns && Locking(w.conns[c].pc)
  {
    hide Sane;
    if c in w.conns {
      assert Sane(w, w.conns[c].id);
      Facts(w, c);
    }
  }

  /** A connection that holds the lock gives it back by its own steps: registered if it came to open a
      session, gone if it came to close one. */
  lemma {:induction false} LockIsReleased(w: World, c: nat, now: int, ttl: nat) returns (steps: seq<Action>)
    requires Inv(w) && Tidy(w) && w.lock == Held(c)
    ensures By(steps, c) && Inv(After(w, steps)) && Tidy(After(w, steps))
    ensures Finished(w, After(w, steps), c) && SelfOnly(w.conns, After(w, steps).conns, c)
    decreases if c in w.conns then Stage(w.conns[c].pc) else 0, if c in w.conns then Todo(w.conns[c].pc) else 0
  {
    hide Inv, Tidy, Step, Due, SelfOnly;
    HolderLocks(w, c);
    var a := Due(w.conns[c].pc, c, now, ttl);
    var v := Step(w, a);
    DueIsProgress(w, c, now, ttl);
    SameConnection(w, a);
    StepKeeps(w, a);
    StepStaysTidy(w, a);
    if Finished(w, v, c) {
      steps := [a];
      assert After(v, []) == v;
    } else {
      HolderLocks(v, c);
      var more := LockIsReleased(v, c, now, ttl);
      steps := [a] + more;
      assert steps[1..] == more;
      SameThroughout(w.conns, v.conns, After(w, steps).conns, c);
    }
  }

  lemma SameThroughout(a: map<nat, Conn>, b: map<nat, Conn>, d: map<nat, Conn>, c: nat)
    requires SelfOnly(a, b, c) && SelfOnly(b, d, c)
    ensures SelfOnly(a, d, c) && (c in a ==> c in b && b[c].id == a[c].id && b[c].owner == a[c].owner)
  {
    if a != b && b != d {
      assert d == a[c := d[c]];
    }
  }

  // ----- Whoever is registered

  function WorkStage(k: Conn): nat {
    match k.pc
    case Starting(_) => 7 case Subscribing(_, _, _) => 7 case Unsubscribing(_, _) => 7
    case Serving(_) => 6 case Greeting(_) => 6 case Leaving(_) => 5 case Joining(_) => if k.consumer.Some? then 4 else 3
    case _ => 0
  }

  /** What brings a registered connection closer to its end. */
  function Parting(k: Conn, c: nat, at: int): Action {
    match k.pc
    case Starting(_) => BeginDelivery(c)
    case Subscribing(_, _, _) => Route(c)
    case Unsubscribing(_, _) => DeleteSubscription(c)
    case Serving(_) => Leave(c)
    case Greeting(_) => Leave(c)
    case Leaving(_) => BeginClosing(c)
    case _ => if k.consumer.Some? then StopConsumer(c) else Close(c, at)
  }

  /** Closer to closing, with the same registrations and the lock still free; or closing. */
  ghost predicate Parts(w: World, v: World, c: nat) {
    && c in w.conns && c in v.conns && v.clients == w.clients
    && (|| (v.lock == FREE && Working(v.conns[c].pc) && WorkStage(v.conns[c]) < WorkStage(w.conns[c]))
        || (v.lock == Held(c) && !Acquiring(v.conns[c].pc)))
  }

  lemma ServingParts(w: World, c: nat)
    requires c in w.conns && w.lock == FREE
    ensures w.conns[c].pc.Starting? ==> Parts(w, Step(w, BeginDelivery(c)), c)
    ensures w.conns[c].pc.Subscribing? ==> Parts(w, Step(w, Route(c)), c)
    ensures w.conns[c].pc.Unsubscribing? ==> Parts(w, Step(w, DeleteSubscription(c)), c)
  {
    hide Put, Get;
    PutMovesNobody(w);
    PutKeepsLock(w);
  }

  lemma PutKeepsLock(w: World)
    ensures forall h, s :: Put(w, h, s).lock == w.lock
  {
  }

  lemma LeavingParts(w: World, c: nat)
    requires c in w.conns && w.lock == FREE
    ensures w.conns[c].pc.Serving? || w.conns[c].pc.Greeting? ==> Parts(w, Step(w, Leave(c)), c)
  {
  }

  lemma JoiningParts(w: World, c: nat)
    requires c in w.conns && w.lock == FREE
    ensures w.conns[c].pc.Leaving? ==> Parts(w, Step(w, BeginClosing(c)), c)
    ensures w.conns[c].pc.Joining? && w.conns[c].consumer.Some? ==> Parts(w, Step(w, StopConsumer(c)), c)
  {
  }

  lemma ClosingParts(w: World, c: nat, at: int)
    requires Inv(w) && c in w.conns && w.lock == FREE && w.conns[c].pc.Joining? && w.conns[c].consumer.None?
    ensures Parts(w, Step(w, Close(c, at)), c)
  {
    hide Inv, Put, Delete, Get, Offline;
    Facts(w, c);
    PutMovesNobody(w);
  }

  lemma PartingIsProgress(w: World, c: nat, at: int)
    requires Inv(w) && c in w.conns && w.lock == FREE && Working(w.conns[c].pc)
    ensures var a := Parting(w.conns[c], c, at); OfConn(a) && a.c == c && Parts(w, Step(w, a), c)
  {
    hide Inv, Step, Parts;
    ServingParts(w, c);
    LeavingParts(w, c);
    JoiningParts(w, c);
    if w.conns[c].pc.Joining? && w.conns[c].consumer.None? {
      ClosingParts(w, c, at);
    }
  }

  /** With the lock free, the steps of a registered connection alone lead it to its end; its client is then
      no longer registered. */
  lemma {:induction false} RegisteredCanLeave(w: World, c: nat, at: int) returns (steps: seq<Action>)
    requires Inv(w) && Tidy(w) && w.lock == FREE && c in w.conns && Working(w.conns[c].pc)
    ensures By(steps, c) && Inv(After(w, steps)) && Tidy(After(w, steps))
    ensures Finished(w, After(w, steps), c) && SelfOnly(w.conns, After(w, steps).conns, c)
    decreases WorkStage(w.conns[c])
  {
    hide Inv, Tidy, Step, Parting, SelfOnly;
    var a := Parting(w.conns[c], c, at);
    var v := Step(w, a);
    PartingIsProgress(w, c, at);
    SameConnection(w, a);
    StepKeeps(w, a);
    StepStaysTidy(w, a);
    var more := [];
    if v.lock == FREE {
      more := RegisteredCanLeave(v, c, at);
    } else {
      more := LockIsReleased(v, c, at, 0);
    }
    steps := [a] + more;
    assert steps[1..] == more;
    SameThroughout(w.conns, v.conns, After(w, steps).conns, c);
  }

  // ----- One connection after the other

  /** Over every run: a client that connects again while it is still registered takes over, by nothing but
      the steps of the connection that leaves and of the one that comes. */
  lemma Takeover(before: seq<Action>, c: nat, d: nat, now: int, ttl: nat) returns (leave: seq<Action>, enter: seq<Action>)
    requires var w := Run(before);
             && w.lock == FREE && c in w.conns && Working(w.conns[c].pc)
             && Stands(w, d, Waiting) && w.conns[d].id == w.conns[c].id && w.conns[d].owner == w.conns[c].owner
    ensures By(leave, c) && By(enter, d)
    ensures var w, v := Run(before), Run(before + leave + enter);
            && v.lock == FREE && Stands(v, c, Done) && d in v.conns && v.conns[d].pc.Greeting?
            && v.clients == w.clients[w.conns[c].id := d]
  {
    hide Inv, Tidy, Step, Run, After;
    var w := Run(before);
    RunIsTidy(before);
    leave := RegisteredCanLeave(w, c, now);
    var u := After(w, leave);
    assert u.conns[d] == w.conns[d];
    enter := ComesIn(u, d, now, ttl);
    RunOn(before, leave);
    RunOn(before + leave, enter);
    RegisteredIn(w, c);
    assert (w.clients - {w.conns[c].id})[w.conns[c].id := d] == w.clients[w.conns[c].id := d];
  }

  lemma RegisteredIn(w: World, c: nat)
    requires Inv(w) && c in w.conns && Working(w.conns[c].pc)
    ensures w.conns[c].id in w.clients && w.clients[w.conns[c].id] == c
  {
    hide Inv;
    Facts(w, c);
  }

  lemma TakesLock(w: World, d: nat)
    requires w.lock == FREE && Stands(w, d, Waiting) && w.conns[d].id !in w.clients
    requires w.conns[d].id in w.stored ==> Get(w, w.stored[w.conns[d].id]).owner == w.conns[d].owner
    ensures var v := Step(w, Acquire(d));
            v.lock == Held(d) && Stands(v, d, Checked) && v.clients == w.clients && SelfOnly(w.conns, v.conns, d)
  {
  }

  /** A waiting connection gets in, if its client is not registered and its session not somebody else's. */
  lemma ComesIn(w: World, d: nat, now: int, ttl: nat) returns (steps: seq<Action>)
    requires Inv(w) && Tidy(w) && w.lock == FREE && Stands(w, d, Waiting) && w.conns[d].id !in w.clients
    requires w.conns[d].id in w.stored ==> Get(w, w.stored[w.conns[d].id]).owner == w.conns[d].owner
    ensures By(steps, d) && SelfOnly(w.conns, After(w, steps).conns, d)
    ensures var v := After(w, steps);
            v.lock == FREE && d in v.conns && v.conns[d].pc.Greeting? && v.clients == w.clients[w.conns[d].id := d]
  {
    hide Inv, Tidy, Step, SelfOnly;
    var v := Step(w, Acquire(d));
    TakesLock(w, d);
    StepKeeps(w, Acquire(d));
    StepStaysTidy(w, Acquire(d));
    var more := LockIsReleased(v, d, now, ttl);
    steps := [Acquire(d)] + more;
    assert steps[1..] == more;
    SameThroughout(w.conns, v.conns, After(w, steps).conns, d);
  }
}
