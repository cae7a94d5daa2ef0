/** A session's delivery loop and its one-slot notification channel, over the connections that come
    and go. Only one loop receives from the channel at a time: `Ownership.OneConsumerPerSession`. */
module Consumer {
  import opened Bytes
  import opened Delivery

  /** Where the loop stands: about to ask for the next delivery, writing one, blocked, or at its end. */
  datatype Pc = Asking | Writing | Waiting | Stopped

  datatype Loop = Loop(q: Queue, deleted: bool, token: bool, epoch: nat, pc: Pc)

  datatype Op =
    | Admitting(data: bytes, offset: nat)
    | Beginning
    | Pausing
    | Resuming
    | Acking(id: nat)
    | Deleting
    | NextElsewhere(epoch: nat)
    | Ask
    | Written
    | Wake
    | Stop
    | Start

  /** `Next` would return a delivery to this loop. */
  predicate Deliverable(s: Loop, window: nat) {
    !s.deleted && s.epoch == s.q.epoch && CanSend(s.q, window)
  }

  /** `notifyLocked`: a full channel stays full. */
  function Notified(s: Loop): Loop {
    s.(token := true)
  }

  ghost function Step(s: Loop, op: Op, window: nat): Loop {
    match op
    case Admitting(data, offset) => if s.deleted then s else Notified(s.(q := Admit(s.q, data, offset)))
    case Beginning => Notified(s.(q := Begin(s.q)))
    case Pausing => s.(q := s.q.(paused := true))
    case Resuming => Notified(s.(q := s.q.(paused := false)))
    case Acking(id) => if !s.deleted && InFlight(s.q, id) then Notified(s.(q := Ack(s.q, id))) else s
    case Deleting => Notified(s.(deleted := true))
    case NextElsewhere(epoch) =>
      if !s.deleted && epoch == s.q.epoch && CanSend(s.q, window) then s.(q := Send(s.q)) else s
    case Ask =>
      if !s.pc.Asking? then s
      else if Deliverable(s, window) then s.(q := Send(s.q), pc := Writing)
      else s.(pc := Waiting)
    case Written => if s.pc.Writing? then s.(pc := Asking) else s
    case Wake => if s.pc.Waiting? && s.token then s.(pc := Asking, token := false) else s
    case Stop => s.(pc := Stopped)
    case Start => if s.pc.Stopped? then Notified(s.(q := Begin(s.q), epoch := s.q.epoch + 1, pc := Asking)) else s
  }

  ghost function Run(start: Loop, ops: seq<Op>, window: nat): Loop {
    if ops == [] then start else Step(Run(start, ops[..|ops| - 1], window), ops[|ops| - 1], window)
  }

  /** No lost wakeup: whatever happens to the session, and however often its connection is replaced,
      whenever the loop is blocked and a delivery could be made, its channel holds a token. */
  lemma {:induction false} NoLostWakeup(start: Loop, ops: seq<Op>, window: nat)
    requires !start.pc.Waiting?
    ensures var s := Run(start, ops, window);
            && s.pc.Waiting? && !s.deleted && s.epoch == s.q.epoch && s.q.epoch > 0 && !s.q.paused
            && |s.q.active| < window && (s.q.replay != [] || s.q.unsent != [])
            ==> s.token
  {
    if ops != [] {
      NoLostWakeup(start, ops[..|ops| - 1], window);
    }
  }

  // ----- The loop on its own

  /** What the loop does next when nothing else happens. */
  function Turn(s: Loop): Op {
    match s.pc
    case Asking => Ask
    case Writing => Written
    case Waiting => Wake
    case Stopped => Stop
  }

  ghost function Turns(s: Loop, n: nat, window: nat): Loop
    decreases n
  {
    if n == 0 then s else Turns(Step(s, Turn(s), window), n - 1, window)
  }

  function Backlog(q: Queue): nat {
    |q.replay| + |q.unsent|
  }

  function Rank(pc: Pc): nat {
    match pc case Writing => 2 case Asking => 1 case _ => 0
  }

  /** The messages of a queue in the order they were accepted, whether sent or not. */
  function Messages(q: Queue): seq<Message> {
    Carried(q.active) + Carried(q.replay) + q.unsent
  }

  function Carried(fs: seq<Flight>): seq<Message> {
    seq(|fs|, i requires 0 <= i < |fs| => fs[i].message)
  }

  lemma SendKeepsMessages(q: Queue)
    requires q.replay != [] || q.unsent != []
    ensures Messages(Send(q)) == Messages(q)
  {
    hide NextID;
    var (f, again) := Upcoming(q);
    assert Carried(q.active + [f]) == Carried(q.active) + [f.message];
    if again {
      assert Carried(q.replay) == [f.message] + Carried(q.replay[1..]);
    } else {
      assert q.unsent == [f.message] + q.unsent[1..];
    }
  }

  /** Left alone, the loop reaches a state in which it is blocked and nothing can be sent: the window
      is full, the queue is paused, or everything was sent in its epoch. No message is lost or reordered
      on the way. */
  lemma {:induction false} LeftAloneItDrains(s: Loop, window: nat) returns (n: nat)
    requires !s.pc.Stopped? && (s.pc.Waiting? && Deliverable(s, window) ==> s.token)
    ensures var t := Turns(s, n, window);
            && t.pc.Waiting?
            && (t.deleted || t.epoch != t.q.epoch || t.q.epoch == 0 || t.q.paused || |t.q.active| >= window || (t.q.replay == [] && t.q.unsent == []))
            && t.q.epoch == s.q.epoch && t.q.paused == s.q.paused && t.deleted == s.deleted && t.epoch == s.epoch
            && Messages(t.q) == Messages(s.q)
    decreases Backlog(s.q), s.token, Rank(s.pc)
  {
    if s.pc.Waiting? && !s.token {
      n := 0;
    } else {
      var t := Step(s, Turn(s), window);
      if s.pc.Asking? && Deliverable(s, window) {
        SendKeepsMessages(s.q);
      }
      var m := LeftAloneItDrains(t, window);
      n := m + 1;
    }
  }
}
