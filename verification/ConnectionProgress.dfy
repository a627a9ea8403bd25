/** What the event loop makes of an event, and that no thread of the protocol is ever stuck. */
module ConnectionProgress {
  import OP = ObjectPool
  import TP = ThreadPool
  import opened Sockets
  import opened Connection
  import opened ConnectionSafety

  lemma FlaggedEvents(s: State)
    requires RefsOk(s) && s.batch != [] && s.batch[0].Ready?
    ensures s.batch[0].hup || s.batch[0].err || s.batch[0].input
  {
  }

  lemma TakenIsHeld(s: State, x: Slot, hup: bool, err: bool, input: bool)
    requires s.batch != [] && s.batch[0] == Ready(x, hup, err, input) && (hup || err || input)
    ensures var q := DoTakeReady(s);
      EventLoop in q.hands && q.hands[EventLoop].slot == x && q.hands[EventLoop].phase == Picked(hup || err)
  {
  }

  /** Whatever flags an event carries, its socket is detached, and then removed exactly when the peer
      hung up or there is an error, and queued exactly when there is input and neither. */
  lemma EventDecides(s: State, x: Slot, hup: bool, err: bool, input: bool)
    requires Inv(s) && s.loop == Batch && s.batch != [] && s.batch[0] == Ready(x, hup, err, input)
    ensures Enabled(s, TakeReady) && Enabled(DoTakeReady(s), Detach)
    ensures var q := DoDetach(DoTakeReady(s));
      && EventLoop in q.hands && q.hands[EventLoop].slot == x
      && (Enabled(q, CloseFd(EventLoop)) <==> hup || err)
      && (Enabled(q, Push) <==> input && !hup && !err)
      && !Enabled(q, Attach(EventLoop))
  {
    hide LinkOf, WorldOk, RefsOk, Sides, PoolOk, Del, DoTakeReady;
    FlaggedEvents(s);
    TakenIsHeld(s, x, hup, err, input);
  }

  // Nobody is stuck.

  /** The steps of the event loop's thread. */
  predicate ByLoop(step: Step) {
    match step
    case Attach(t) => t == EventLoop
    case CloseFd(t) => t == EventLoop
    case ClearFd(t) => t == EventLoop
    case Free(t) => t == EventLoop
    case Acquire(_) => false
    case SpuriousWake(_) => false
    case Serve(_) => false
    case Throw(_) => false
    case Return(_) => false
    case EnvOpen(_) => false
    case EnvClose(_) => false
    case _ => true
  }

  /** The steps of a worker's thread. */
  predicate ByWorker(step: Step, w: nat) {
    match step
    case Attach(t) => t == Worker(w)
    case CloseFd(t) => t == Worker(w)
    case ClearFd(t) => t == Worker(w)
    case Free(t) => t == Worker(w)
    case Acquire(v) => v == w
    case Serve(v) => v == w
    case Throw(v) => v == w
    case Return(v) => v == w
    case _ => false
  }

  /** Some slot is not live. */
  lemma {:induction false} FreshSlot(live: set<Slot>) returns (n: nat)
    ensures forall b, i :: b >= n ==> OP.Slot(b, i) !in live
    decreases |live|
  {
    if live == {} {
      n := 0;
    } else {
      var x :| x in live;
      n := FreshSlot(live - {x});
      if n <= x.block {
        n := x.block + 1;
      }
      forall b, i | b >= n
        ensures OP.Slot(b, i) !in live
      {
        assert OP.Slot(b, i) !in live - {x};
      }
    }
  }

  /** The event loop can always go on: it waits, takes the next event, accepts, gives up on a full pool,
      works on its socket, or notifies. */
  lemma LoopCanMove(s: State) returns (step: Step)
    requires Inv(s)
    ensures ByLoop(step) && Enabled(s, step)
  {
    hide LinkOf, WorldOk, RefsOk, TP.Inv, PendingOk, WorkersOk;
    match s.loop {
      case Polling => step := Wait([]);
      case Batch =>
        if s.batch == [] {
          step := EndBatch;
        } else if s.batch[0].Listener? {
          step := AcceptFail;
        } else {
          step := TakeReady;
        }
      case Accepted(_, _) =>
        if |s.k.socks.Keys| == s.cap {
          step := AllocateFull;
        } else {
          var n := FreshSlot(s.k.socks.Keys);
          step := Allocate(OP.Slot(n, 0));
        }
      case Working => step := LoopHolderCanMove(s);
      case Pushed =>
        if w :| 0 <= w < |s.pool.workers| && s.pool.workers[w].Asleep? {
          step := Step.NotifyOne(w);
        } else {
          step := Step.NotifyNobody;
        }
    }
  }

  lemma LoopHolderCanMove(s: State) returns (step: Step)
    requires LoopOk(s.loop, s.batch, s.hands) && s.loop == Working
    ensures ByLoop(step) && Enabled(s, step)
  {
    match s.hands[EventLoop].phase {
      case New(_, _) => step := Prepare;
      case Prepared => step := Attach(EventLoop);
      case Picked(_) => step := Detach;
      case Detached(drop) => step := if drop then CloseFd(EventLoop) else Push;
      case Shut => step := ClearFd(EventLoop);
      case Wiped => step := Free(EventLoop);
    }
  }

  /** A worker that is not asleep can always go on; the workers never exit while the server runs. */
  lemma WorkerCanMove(s: State, w: nat) returns (step: Step)
    requires Inv(s) && w < |s.pool.workers| && !s.pool.workers[w].Asleep?
    ensures ByWorker(step, w) && Enabled(s, step)
  {
    hide LinkOf, WorldOk, RefsOk, PendingOk;
    if s.pool.workers[w].Awake? {
      step := Acquire(w);
    } else if Worker(w) !in s.hands {
      NoExits(s.pool);
      step := Return(w);
    } else {
      assert s.hands[Worker(w)].phase in {Serving, Shut, Wiped};
      match s.hands[Worker(w)].phase {
        case Serving => step := Attach(Worker(w));
        case Shut => step := ClearFd(Worker(w));
        case Wiped => step := Free(Worker(w));
      }
    }
  }

  lemma NoExits(p: TP.Pool<Slot>)
    requires TP.Inv(p) && !p.stop
    ensures forall i :: 0 <= i < |p.workers| ==> !p.workers[i].Exited?
  {
  }
}
