/** Runs from the start in which a socket or a connection is lost: each way to lose one is reachable. */
module ConnectionWitnesses {
  import OP = ObjectPool
  import TP = ThreadPool
  import opened Sockets
  import opened Connection
  import opened ConnectionSafety
  import opened ConnectionFates

  const X := OP.Slot(0, 0)

  ghost predicate Leads(s0: State, steps: seq<Step>, s: State) {
    ValidRun(s0, steps) && Run(s0, steps) == s
  }

  lemma {:induction false} RunMore(s0: State, steps: seq<Step>, step: Step)
    requires ValidRun(s0, steps) && Enabled(Run(s0, steps), step)
    ensures ValidRun(s0, steps + [step]) && Run(s0, steps + [step]) == Exec(Run(s0, steps), step)
    decreases |steps|
  {
    hide Exec, Enabled;
    var all := steps + [step];
    if steps == [] {
      assert all[1..] == [];
    } else {
      assert all[1..] == steps[1..] + [step];
      RunMore(Exec(s0, steps[0]), steps[1..], step);
    }
  }

  ghost predicate Goes(s: State, step: Step, s': State) {
    Enabled(s, step) && Exec(s, step) == s'
  }

  lemma Extend(s0: State, steps: seq<Step>, s: State, step: Step, s': State)
    requires Leads(s0, steps, s) && Goes(s, step, s')
    ensures Leads(s0, steps + [step], s')
  {
    hide Exec, Enabled;
    RunMore(s0, steps, step);
  }

  function Idle(workers: seq<TP.Worker<Slot>>): TP.Pool<Slot> {
    TP.Pool([], false, workers, 0, false, [], [], [])
  }

  const ONE: seq<TP.Worker<Slot>> := [TP.Awake]

  /** The descriptors of the rest of the program: the standard streams, the listening socket and the
      epoll instance; and the same after standard input has been closed. */
  const BASE: map<int, Holder> := map[0 := Foreign, 1 := Foreign, 2 := Foreign, 3 := Foreign, 4 := Foreign]
  const NO_INPUT: map<int, Holder> := map[1 := Foreign, 2 := Foreign, 3 := Foreign, 4 := Foreign]

  /** Room for one connection and no worker, room for one and a worker, and standard input closed. */
  const CROWDED := Setup(1, BASE, [], 5)
  const STAFFED := Setup(1, BASE, ONE, 5)
  const ZERO := Setup(1, NO_INPUT, [], 0)

  /** How many connections at most, the descriptors open at first, the workers, and the descriptor the
      first accept will give. */
  datatype Setup = Setup(cap: nat, base: map<int, Holder>, workers: seq<TP.Worker<Slot>>, fd: int)

  ghost predicate Usable(e: Setup) {
    e.cap > 0 && e.fd >= 0 && e.fd !in e.base
  }

  function Opened(e: Setup): map<int, Holder> {
    e.base[e.fd := Connection(0)]
  }

  /** No connection yet. */
  function Start(e: Setup): State {
    State(e.cap, World(map[], e.base, map[], 0, [], {}), Polling, [], Idle(e.workers), map[], map[])
  }

  /** One accepted connection on a descriptor, armed. */
  function OneArmed(e: Setup): State {
    State(e.cap, World(map[X := Sock(e.fd, 0)], Opened(e), map[e.fd := Interest(X, true)], 1, [], {}),
          Polling, [], Idle(e.workers), map[], map[X := Armed])
  }

  lemma NoSteps(s0: State)
    ensures Leads(s0, [], s0)
  {
  }

  lemma GoesListening(e: Setup)
    ensures Goes(Start(e), Wait([OnListener]), Start(e).(loop := Batch, batch := [Listener]))
  {
    var s, fires := Start(e), [OnListener];
    assert Events(s.k.epoll, fires) == [Listener];
    assert Disarm(s.k, FiredFds(fires)) == s.k;
    assert MoveAll(s.place, FiredSlots([Listener]), Fired) == s.place;
    assert DoWait(s, fires) == s.(loop := Batch, batch := [Listener]);
  }

  function OneAccepted(e: Setup): State {
    Start(e).(loop := Accepted(e.fd, 0), k := World(map[], Opened(e), map[], 1, [], {}))
  }

  lemma GoesAccepting(e: Setup)
    requires Usable(e)
    ensures Goes(Start(e).(loop := Batch, batch := [Listener]), AcceptOk(e.fd), OneAccepted(e))
  {
  }

  lemma ReachAccepted(e: Setup, s0: State, before: seq<Step>) returns (steps: seq<Step>)
    requires Usable(e) && Leads(s0, before, Start(e))
    ensures Leads(s0, steps, OneAccepted(e))
  {
    hide Leads, Goes;
    GoesListening(e);
    Extend(s0, before, Start(e), Wait([OnListener]), Start(e).(loop := Batch, batch := [Listener]));
    steps := before + [Wait([OnListener])];
    GoesAccepting(e);
    Extend(s0, steps, Start(e).(loop := Batch, batch := [Listener]), AcceptOk(e.fd), OneAccepted(e));
    steps := steps + [AcceptOk(e.fd)];
  }

  function OneMade(e: Setup, sock: Sock, phase: Phase): State {
    Start(e).(loop := Working, k := World(map[X := sock], Opened(e), map[], 1, [], {}),
                         hands := map[EventLoop := Hand(X, phase)], place := map[X := Held(EventLoop)])
  }

  lemma GoesMade(e: Setup)
    requires Usable(e)
    ensures Goes(OneAccepted(e), Allocate(X), OneMade(e, Sock(0, -1), New(e.fd, 0)))
    ensures Goes(OneMade(e, Sock(0, -1), New(e.fd, 0)), Prepare, OneMade(e, Sock(e.fd, 0), Prepared))
  {
  }

  lemma GoesArmed(e: Setup)
    requires Usable(e)
    ensures Goes(OneMade(e, Sock(e.fd, 0), Prepared), Attach(EventLoop), OneArmed(e).(loop := Batch))
    ensures Goes(OneArmed(e).(loop := Batch), EndBatch, OneArmed(e))
  {
    AttachOne(e, OneMade(e, Sock(e.fd, 0), Prepared), OneArmed(e).(loop := Batch));
  }

  lemma ReachArmed(e: Setup, s0: State, before: seq<Step>) returns (steps: seq<Step>)
    requires Usable(e) && Leads(s0, before, Start(e))
    ensures Leads(s0, steps, OneArmed(e))
  {
    hide Leads, Goes;
    steps := ReachAccepted(e, s0, before);
    GoesMade(e);
    Extend(s0, steps, OneAccepted(e), Allocate(X), OneMade(e, Sock(0, -1), New(e.fd, 0)));
    steps := steps + [Allocate(X)];
    Extend(s0, steps, OneMade(e, Sock(0, -1), New(e.fd, 0)), Prepare, OneMade(e, Sock(e.fd, 0), Prepared));
    steps := steps + [Prepare];
    GoesArmed(e);
    Extend(s0, steps, OneMade(e, Sock(e.fd, 0), Prepared), Attach(EventLoop), OneArmed(e).(loop := Batch));
    steps := steps + [Attach(EventLoop)];
    Extend(s0, steps, OneArmed(e).(loop := Batch), EndBatch, OneArmed(e));
    steps := steps + [EndBatch];
  }

  lemma AttachOne(e: Setup, s: State, q: State)
    requires s.k == World(map[X := Sock(e.fd, 0)], Opened(e), map[], 1, [], {})
    requires s.hands == map[EventLoop := Hand(X, Prepared)] && s.place == map[X := Held(EventLoop)]
    requires q == s.(loop := Batch, hands := map[], place := map[X := Armed],
                     k := s.k.(epoll := map[e.fd := Interest(X, true)]))
    ensures DoAttach(s, EventLoop) == q
  {
    assert s.hands - {EventLoop} == map[];
  }

  /** Its event has been delivered, in a batch that may start with one of the listening socket. */
  function OneFired(e: Setup, batch: seq<Event>): State {
    var s := OneArmed(e);
    s.(loop := Batch, batch := batch, k := s.k.(epoll := map[e.fd := Interest(X, false)]), place := map[X := Fired])
  }

  function Front(listener: bool): seq<Event> {
    if listener then [Listener] else []
  }

  function OneFire(e: Setup, listener: bool, hup: bool, err: bool, input: bool): seq<Fire> {
    (if listener then [OnListener] else []) + [On(e.fd, hup, err, input)]
  }

  lemma OneFireDelivers(e: Setup, listener: bool, hup: bool, err: bool, input: bool)
    requires hup || err || input
    ensures var s, fires := OneArmed(e), OneFire(e, listener, hup, err, input);
      var batch := Front(listener) + [Ready(X, hup, err, input)];
      && Deliverable(s.k.epoll, fires) && Events(s.k.epoll, fires) == batch
      && e.fd in FiredFds(fires) && X in FiredSlots(batch)
  {
    var fires, batch := OneFire(e, listener, hup, err, input), Front(listener) + [Ready(X, hup, err, input)];
    var n := |fires| - 1;
    assert fires[n] == On(e.fd, hup, err, input) && batch[n] == Ready(X, hup, err, input);
  }

  lemma GoesFired(e: Setup, listener: bool, hup: bool, err: bool, input: bool)
    requires hup || err || input
    ensures Goes(OneArmed(e), Wait(OneFire(e, listener, hup, err, input)),
                 OneFired(e, Front(listener) + [Ready(X, hup, err, input)]))
  {
    hide Events, FiredFds, FiredSlots, OneFire, Deliverable;
    OneFireDelivers(e, listener, hup, err, input);
    var s, fires := OneArmed(e), OneFire(e, listener, hup, err, input);
    var q := OneFired(e, Front(listener) + [Ready(X, hup, err, input)]);
    assert Disarm(s.k, FiredFds(fires)) == q.k;
    assert MoveAll(s.place, FiredSlots(q.batch), Fired) == q.place;
    assert DoWait(s, fires) == q;
  }

  lemma ReachFired(e: Setup, s0: State, before: seq<Step>, listener: bool, hup: bool, err: bool, input: bool)
    returns (steps: seq<Step>)
    requires (hup || err || input) && Usable(e) && Leads(s0, before, Start(e))
    ensures Leads(s0, steps, OneFired(e, Front(listener) + [Ready(X, hup, err, input)]))
  {
    hide Leads, Goes;
    steps := ReachArmed(e, s0, before);
    GoesFired(e, listener, hup, err, input);
    var step := Wait(OneFire(e, listener, hup, err, input));
    Extend(s0, steps, OneArmed(e), step, OneFired(e, Front(listener) + [Ready(X, hup, err, input)]));
    steps := steps + [step];
  }

  const INPUT := Ready(X, false, false, true)

  /** A second connection is accepted while the first socket's event waits; or has been dropped. */
  function TwoAccepted(): State {
    var s := OneFired(CROWDED, [INPUT]);
    s.(loop := Accepted(6, 1), k := s.k.(open := Opened(CROWDED)[6 := Connection(1)], nextConn := 2))
  }

  function Dropped(): State {
    TwoAccepted().(loop := Polling, batch := [], place := map[X := Abandoned])
  }

  lemma GoesAccepted()
    ensures Goes(OneFired(CROWDED, Front(true) + [INPUT]), AcceptOk(6), TwoAccepted())
  {
    var s := OneFired(CROWDED, Front(true) + [INPUT]);
    assert s.batch[0] == Listener && s.batch[1..] == [INPUT];
  }

  lemma GoesDropped()
    ensures Goes(TwoAccepted(), AllocateFull, Dropped())
  {
    var s := TwoAccepted();
    assert s.batch[0] == INPUT && X in FiredSlots(s.batch);
    assert MoveAll(s.place, FiredSlots(s.batch), Abandoned) == map[X := Abandoned];
    assert s.k.socks.Keys == {X};
  }

  /** With the pool full, the break drops the event of the other socket and the connection just
      accepted: the one is abandoned, the other leaked. */
  lemma FullPoolLoses() returns (s0: State, steps: seq<Step>)
    ensures Init(s0) && ValidRun(s0, steps)
    ensures var s := Run(s0, steps); X in s.place && s.place[X] == Abandoned && Leaked(s, 1)
  {
    hide ValidRun, Run, Goes;
    s0 := Start(CROWDED);
    NoSteps(s0);
    steps := ReachFired(CROWDED, s0, [], true, false, false, true);
    GoesAccepted();
    Extend(s0, steps, OneFired(CROWDED, Front(true) + [INPUT]), AcceptOk(6), TwoAccepted());
    steps := steps + [AcceptOk(6)];
    GoesDropped();
    Extend(s0, steps, TwoAccepted(), AllocateFull, Dropped());
    steps := steps + [AllocateFull];
    assert Dropped().k.open[6] == Connection(1);
  }

  /** The event loop holds the socket, off epoll. */
  function OneHeld(e: Setup, phase: Phase): State {
    var s := OneArmed(e);
    s.(loop := Working, k := s.k.(epoll := map[]), hands := map[EventLoop := Hand(X, phase)],
       place := map[X := Held(EventLoop)])
  }

  function OnePicked(e: Setup, drop: bool): State {
    var s := OneHeld(e, Picked(drop));
    s.(k := s.k.(epoll := map[e.fd := Interest(X, false)]))
  }

  lemma GoesPicked(e: Setup, hup: bool, err: bool, input: bool)
    requires hup || err || input
    ensures Goes(OneFired(e, Front(false) + [Ready(X, hup, err, input)]), TakeReady, OnePicked(e, hup || err))
  {
    var s := OneFired(e, Front(false) + [Ready(X, hup, err, input)]);
    assert s.batch[0] == Ready(X, hup, err, input) && s.batch[1..] == [];
  }

  lemma GoesDetached(e: Setup, drop: bool)
    ensures Goes(OnePicked(e, drop), Detach, OneHeld(e, Detached(drop)))
  {
    assert OnePicked(e, drop).k.epoll - {e.fd} == map[];
  }

  /** A hang-up or an input event has been taken and its socket detached. */
  lemma ReachDetached(e: Setup, s0: State, before: seq<Step>, drop: bool) returns (steps: seq<Step>)
    requires Usable(e) && Leads(s0, before, Start(e))
    ensures Leads(s0, steps, OneHeld(e, Detached(drop)))
  {
    hide Leads, Goes;
    steps := ReachFired(e, s0, before, false, drop, false, !drop);
    GoesPicked(e, drop, false, !drop);
    Extend(s0, steps, OneFired(e, Front(false) + [Ready(X, drop, false, !drop)]), TakeReady,
           OnePicked(e, drop));
    steps := steps + [TakeReady];
    GoesDetached(e, drop);
    Extend(s0, steps, OnePicked(e, drop), Detach, OneHeld(e, Detached(drop)));
    steps := steps + [Detach];
  }

  function OneQueued(control: Control, unnotified: nat): State {
    var s := OneHeld(STAFFED, Serving);
    s.(loop := control, hands := map[], place := map[X := Queued],
       pool := TP.Pool([X], false, ONE, unnotified, false, [X], [], []))
  }

  function OneServed(place: Place, hands: map<Thread, Hand>): State {
    var s := OneHeld(STAFFED, Serving);
    s.(loop := Batch, hands := hands, place := map[X := place],
       pool := TP.Pool([], false, [TP.Running(X)], 0, false, [X], [X], []))
  }

  lemma GoesNotified()
    ensures Goes(OneQueued(Pushed, 1), NotifyNobody, OneQueued(Batch, 0))
  {
  }

  lemma GoesQueued()
    ensures Goes(OneHeld(STAFFED, Detached(false)), Push, OneQueued(Pushed, 1))
  {
    assert OneHeld(STAFFED, Detached(false)).hands - {EventLoop} == map[];
  }

  lemma GoesServed()
    ensures Goes(OneQueued(Batch, 0), Acquire(0), OneServed(Held(Worker(0)), map[Worker(0) := Hand(X, Serving)]))
  {
    assert [X][1..] == [] && ONE[0 := TP.Running(X)] == [TP.Running(X)];
  }

  lemma GoesThrown()
    ensures Goes(OneServed(Held(Worker(0)), map[Worker(0) := Hand(X, Serving)]), Throw(0), OneServed(Abandoned, map[]))
  {
    var hands := map[Worker(0) := Hand(X, Serving)];
    assert hands - {Worker(0)} == map[];
  }

  /** A task that throws abandons its socket. */
  lemma ThrowingTaskLoses() returns (s0: State, steps: seq<Step>)
    ensures Init(s0) && ValidRun(s0, steps)
    ensures var s := Run(s0, steps); X in s.place && s.place[X] == Abandoned
  {
    hide ValidRun, Run, Goes;
    s0 := Start(STAFFED);
    var hands := map[Worker(0) := Hand(X, Serving)];
    NoSteps(s0);
    steps := ReachDetached(STAFFED, s0, [], false);
    GoesQueued();
    GoesNotified();
    Extend(s0, steps, OneHeld(STAFFED, Detached(false)), Push, OneQueued(Pushed, 1));
    steps := steps + [Push];
    Extend(s0, steps, OneQueued(Pushed, 1), NotifyNobody, OneQueued(Batch, 0));
    steps := steps + [NotifyNobody];
    GoesServed();
    Extend(s0, steps, OneQueued(Batch, 0), Acquire(0), OneServed(Held(Worker(0)), hands));
    steps := steps + [Acquire(0)];
    GoesThrown();
    Extend(s0, steps, OneServed(Held(Worker(0)), hands), Throw(0), OneServed(Abandoned, map[]));
    steps := steps + [Throw(0)];
  }

  // A failed accept.

  function OneRefused(fd: int, phase: Phase): State {
    var s := Start(CROWDED);
    s.(loop := Working, k := s.k.(socks := map[X := Sock(fd, -1)]), hands := map[EventLoop := Hand(X, phase)],
       place := map[X := Held(EventLoop)])
  }

  function OneMisused(): State {
    var s := OneRefused(-1, Prepared);
    s.(loop := Batch, hands := map[], place := map[X := Abandoned], k := s.k.(faults := {AddBadDescriptor}))
  }

  lemma GoesRefused()
    ensures Goes(Start(CROWDED).(loop := Batch, batch := [Listener]), AcceptFail,
                 Start(CROWDED).(loop := Accepted(-1, -1)))
    ensures Goes(Start(CROWDED).(loop := Accepted(-1, -1)), Allocate(X), OneRefused(0, New(-1, -1)))
    ensures Goes(OneRefused(0, New(-1, -1)), Prepare, OneRefused(-1, Prepared))
  {
  }

  lemma GoesMisused()
    ensures Goes(OneRefused(-1, Prepared), Attach(EventLoop), OneMisused())
  {
    assert OneRefused(-1, Prepared).hands - {EventLoop} == map[];
  }

  /** A failed accept is stored and attached all the same: descriptor -1 is added to epoll, and the
      socket is abandoned. */
  lemma FailedAcceptMisuses() returns (s0: State, steps: seq<Step>)
    ensures Init(s0) && ValidRun(s0, steps) && AttachesRefused(s0, steps)
    ensures var s := Run(s0, steps);
      s.k.faults == {AddBadDescriptor} && X in s.place && s.place[X] == Abandoned
  {
    hide ValidRun, Run, AttachesRefused, Goes;
    s0 := Start(CROWDED);
    NoSteps(s0);
    GoesListening(CROWDED);
    Extend(s0, [], s0, Wait([OnListener]), s0.(loop := Batch, batch := [Listener]));
    steps := [] + [Wait([OnListener])];
    GoesRefused();
    Extend(s0, steps, s0.(loop := Batch, batch := [Listener]), AcceptFail, s0.(loop := Accepted(-1, -1)));
    steps := steps + [AcceptFail];
    Extend(s0, steps, s0.(loop := Accepted(-1, -1)), Allocate(X), OneRefused(0, New(-1, -1)));
    steps := steps + [Allocate(X)];
    Extend(s0, steps, OneRefused(0, New(-1, -1)), Prepare, OneRefused(-1, Prepared));
    steps := steps + [Prepare];
    GoesMisused();
    Extend(s0, steps, OneRefused(-1, Prepared), Attach(EventLoop), OneMisused());
    steps := steps + [Attach(EventLoop)];
    NoMisuseFromStart(s0, steps);
  }

  // Descriptor 0.

  function OneFreed(): State {
    var s := OneArmed(ZERO);
    s.(loop := Batch, place := map[], k := s.k.(socks := map[], epoll := map[]))
  }

  lemma GoesNotClosed()
    ensures Goes(OneHeld(ZERO, Detached(true)), CloseFd(EventLoop), OneHeld(ZERO, Shut))
  {
  }

  lemma GoesNotCleared()
    ensures Goes(OneHeld(ZERO, Shut), ClearFd(EventLoop), OneHeld(ZERO, Wiped))
  {
  }

  lemma GoesFreed()
    ensures Goes(OneHeld(ZERO, Wiped), Free(EventLoop), OneFreed())
  {
    var s := OneHeld(ZERO, Wiped);
    assert s.hands - {EventLoop} == map[] && s.k.socks - {X} == map[] && s.place - {X} == map[];
  }

  lemma GoesWithoutInput()
    ensures Goes(Start(ZERO.(base := BASE)), EnvClose(0), Start(ZERO))
  {
    assert BASE - {0} == NO_INPUT;
  }

  /** When standard input has been closed, accept may give descriptor 0; that connection is not closed
      when its socket is removed. */
  lemma DescriptorZeroLeaks() returns (s0: State, steps: seq<Step>)
    ensures Init(s0) && ValidRun(s0, steps)
    ensures var s := Run(s0, steps); s.place == map[] && s.k.closes == [] && Leaked(s, 0)
  {
    hide ValidRun, Run, Goes;
    s0 := Start(ZERO.(base := BASE));
    NoSteps(s0);
    GoesWithoutInput();
    Extend(s0, [], s0, EnvClose(0), Start(ZERO));
    steps := ReachDetached(ZERO, s0, [] + [EnvClose(0)], true);
    GoesNotClosed();
    GoesNotCleared();
    Extend(s0, steps, OneHeld(ZERO, Detached(true)), CloseFd(EventLoop), OneHeld(ZERO, Shut));
    steps := steps + [CloseFd(EventLoop)];
    Extend(s0, steps, OneHeld(ZERO, Shut), ClearFd(EventLoop), OneHeld(ZERO, Wiped));
    steps := steps + [ClearFd(EventLoop)];
    GoesFreed();
    Extend(s0, steps, OneHeld(ZERO, Wiped), Free(EventLoop), OneFreed());
    steps := steps + [Free(EventLoop)];
    assert OneFreed().k.open[0] == Connection(0);
  }
}
