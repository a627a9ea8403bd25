/** The life of a connection: src/socket/socket_handler.cpp and src/web/http_task.cpp over the
    sockets, the worker pool and the object pool.

    One event-loop thread and any number of workers interleave.  A step is one kernel call, one
    critical section or one write to shared memory.  `place` is history: steps write it and
    never read it. */
module Connection {
  import OP = ObjectPool
  import TP = ThreadPool
  import opened Sockets

  datatype Thread = EventLoop | Worker(w: nat)

  /** Where a thread that holds a socket is in its code. */
  datatype Phase =
    | New(fd: int, conn: int)    // allocated, m_sockfd not yet written
    | Prepared                   // fields written, attach is next
    | Picked(drop: bool)         // event taken from the batch, detach is next; drop: hang-up or error
    | Detached(drop: bool)       // removed from epoll; remove or Enqueue is next
    | Serving                    // a worker inside HttpTask
    | Shut                       // ::close returned, m_sockfd not yet zeroed
    | Wiped                      // m_sockfd zeroed, ObjectPool::Delete is next

  datatype Hand = Hand(slot: Slot, phase: Phase)

  datatype Place = Armed | Fired | Queued | Held(thread: Thread) | Abandoned

  /** The event loop's own position. */
  datatype Control =
    | Polling                        // about to call epoll_wait
    | Batch                          // at the head of the for loop over the events left
    | Accepted(fd: int, conn: int)   // accept returned (-1 on failure), Allocate is next
    | Working                        // it holds a socket
    | Pushed                         // Enqueue has pushed, notify_one is next

  datatype Event = Listener | Ready(slot: Slot, hup: bool, err: bool, input: bool)
  datatype Fire = OnListener | On(fd: int, hup: bool, err: bool, input: bool)

  datatype State = State(
    cap: nat,                        // SetMaxSize(max_connections)
    k: World,
    loop: Control,
    batch: seq<Event>,               // m_events[i..num]
    pool: TP.Pool<Slot>,
    hands: map<Thread, Hand>,
    place: map<Slot, Place>)

  datatype Step =
    | Wait(fires: seq<Fire>) | EndBatch
    | AcceptOk(fd: int) | AcceptFail | AllocateFull | Allocate(slot: Slot) | Prepare
    | TakeReady | Detach | Push | NotifyOne(w: nat) | NotifyNobody
    | Attach(t: Thread) | CloseFd(t: Thread) | ClearFd(t: Thread) | Free(t: Thread)
    | Acquire(w: nat) | SpuriousWake(w: nat) | Serve(w: nat) | Throw(w: nat) | Return(w: nat)
    | EnvOpen(fd: int) | EnvClose(fd: int)

  ghost predicate Init(s: State) {
    && s.k == World(map[], s.k.open, map[], 0, [], {})
    && (forall fd :: fd in s.k.open ==> fd >= 0 && s.k.open[fd] == Foreign)
    && s.hands == map[] && s.place == map[]
    && s.loop == Polling && s.batch == [] && TP.Init(s.pool)
  }

  // Batches.

  ghost function FiredSlots(batch: seq<Event>): set<Slot> {
    set i | 0 <= i < |batch| && batch[i].Ready? :: batch[i].slot
  }

  ghost function FiredFds(fires: seq<Fire>): set<int> {
    set i | 0 <= i < |fires| && fires[i].On? :: fires[i].fd
  }

  ghost function EventOf(epoll: map<int, Interest>, f: Fire): Event
    requires f.On? ==> f.fd in epoll
  {
    match f
    case OnListener => Listener
    case On(fd, hup, err, input) => Ready(epoll[fd].slot, hup, err, input)
  }

  /** What epoll_wait may report: armed interests, each descriptor at most once, with at least one of
      the three flags asked for. */
  ghost predicate Deliverable(epoll: map<int, Interest>, fires: seq<Fire>) {
    && (forall i :: 0 <= i < |fires| && fires[i].On? ==> fires[i].hup || fires[i].err || fires[i].input)
    && (forall i :: 0 <= i < |fires| && fires[i].On? ==> fires[i].fd in epoll && epoll[fires[i].fd].armed)
    && (forall i, j :: 0 <= i < j < |fires| && fires[i].On? && fires[j].On? ==> fires[i].fd != fires[j].fd)
  }

  ghost function Events(epoll: map<int, Interest>, fires: seq<Fire>): (r: seq<Event>)
    requires Deliverable(epoll, fires)
    ensures |r| == |fires| && forall i :: 0 <= i < |r| ==> r[i] == EventOf(epoll, fires[i])
  {
    seq(|fires|, i requires 0 <= i < |fires| => EventOf(epoll, fires[i]))
  }

  ghost function MoveAll(place: map<Slot, Place>, xs: set<Slot>, p: Place): map<Slot, Place> {
    map x | x in place :: if x in xs then p else place[x]
  }

  // Steps.

  ghost predicate Holding(s: State, t: Thread, phase: Phase) {
    t in s.hands && s.hands[t].phase == phase
  }

  ghost predicate Enabled(s: State, step: Step) {
    match step
    case Wait(fires) => s.loop == Polling && Deliverable(s.k.epoll, fires)
    case EndBatch => s.loop == Batch && s.batch == []
    case AcceptOk(fd) => s.loop == Batch && s.batch != [] && s.batch[0] == Listener && fd >= 0 && fd !in s.k.open
    case AcceptFail => s.loop == Batch && s.batch != [] && s.batch[0] == Listener
    case AllocateFull => s.loop.Accepted? && |s.k.socks.Keys| == s.cap
    case Allocate(x) => s.loop.Accepted? && OP.MayGrant(s.k.socks.Keys, s.cap, x)
    case Prepare => EventLoop in s.hands && s.hands[EventLoop].phase.New?
    case TakeReady => s.loop == Batch && s.batch != [] && s.batch[0].Ready?
    case Detach => EventLoop in s.hands && s.hands[EventLoop].phase.Picked?
    case Push => Holding(s, EventLoop, Detached(false))
    case NotifyOne(w) => s.loop == Pushed && TP.Enabled(s.pool, TP.Step<Slot>.NotifyOne(w))
    case NotifyNobody => s.loop == Pushed && TP.Enabled(s.pool, TP.Step<Slot>.NotifyNobody)
    case Attach(t) => Holding(s, t, Prepared) || Holding(s, t, Serving)
    case CloseFd(t) => Holding(s, t, Detached(true)) || Holding(s, t, Serving)
    case ClearFd(t) => Holding(s, t, Shut)
    case Free(t) => Holding(s, t, Wiped)
    case Acquire(w) => TP.Enabled(s.pool, TP.Step<Slot>.Acquire(w))
    case SpuriousWake(w) => TP.Enabled(s.pool, TP.Step<Slot>.SpuriousWake(w))
    case Serve(w) => Holding(s, Worker(w), Serving)
    case Throw(w) => Holding(s, Worker(w), Serving)
    case Return(w) => TP.Enabled(s.pool, TP.Step<Slot>.Finish(w)) && Worker(w) !in s.hands
    case EnvOpen(fd) => fd >= 0 && fd !in s.k.open
    case EnvClose(fd) => fd in s.k.open && s.k.open[fd] == Foreign
  }

  ghost function DoWait(s: State, fires: seq<Fire>): State
    requires Deliverable(s.k.epoll, fires)
  {
    var batch := Events(s.k.epoll, fires);
    s.(loop := Batch, batch := batch, k := Disarm(s.k, FiredFds(fires)),
       place := MoveAll(s.place, FiredSlots(batch), Fired))
  }

  ghost function DoAccept(s: State, fd: int): State
    requires s.batch != []
  {
    s.(loop := Accepted(fd, s.k.nextConn), batch := s.batch[1..], k := Accept(s.k, fd))
  }

  /** `break`: the rest of the one-shot batch is dropped, and so is the accepted descriptor. */
  ghost function DoAllocateFull(s: State): State {
    s.(loop := Polling, batch := [], place := MoveAll(s.place, FiredSlots(s.batch), Abandoned))
  }

  ghost function DoAllocate(s: State, x: Slot): State
    requires s.loop.Accepted?
  {
    s.(loop := Working, k := Construct(s.k, x), place := s.place[x := Held(EventLoop)],
       hands := s.hands[EventLoop := Hand(x, New(s.loop.fd, s.loop.conn))])
  }

  ghost function DoPrepare(s: State): State
    requires EventLoop in s.hands && s.hands[EventLoop].phase.New?
  {
    var Hand(x, phase) := s.hands[EventLoop];
    s.(k := Assign(Touch(s.k, x), x, phase.fd, phase.conn), hands := s.hands[EventLoop := Hand(x, Prepared)])
  }

  ghost function DoTakeReady(s: State): State
    requires s.batch != [] && s.batch[0].Ready?
  {
    var Ready(x, hup, err, input) := s.batch[0];
    if hup || err || input then
      s.(loop := Working, batch := s.batch[1..], place := s.place[x := Held(EventLoop)],
         hands := s.hands[EventLoop := Hand(x, Picked(hup || err))])
    else
      s.(batch := s.batch[1..], place := s.place[x := Abandoned])
  }

  ghost function DoDetach(s: State): State
    requires EventLoop in s.hands && s.hands[EventLoop].phase.Picked?
  {
    var Hand(x, phase) := s.hands[EventLoop];
    s.(k := Del(Touch(s.k, x), x), hands := s.hands[EventLoop := Hand(x, Detached(phase.drop))])
  }

  ghost function DoPush(s: State): State
    requires EventLoop in s.hands
  {
    var x := s.hands[EventLoop].slot;
    s.(loop := Pushed, hands := s.hands - {EventLoop}, place := s.place[x := Queued],
       pool := TP.Exec(s.pool, TP.Enqueue(x)))
  }

  /** SocketHandler::attach, called by either side; the caller never uses the socket again. */
  ghost function DoAttach(s: State, t: Thread): State
    requires t in s.hands
  {
    var x := s.hands[t].slot;
    s.(k := Add(Touch(s.k, x), x), hands := s.hands - {t}, loop := if t == EventLoop then Batch else s.loop,
       place := s.place[x := if FdOf(s.k, x) in s.k.open then Armed else Abandoned])
  }

  // SocketHandler::remove, called by either side: ::close, m_sockfd = 0, ObjectPool::Delete.

  ghost function DoClose(s: State, t: Thread): State
    requires t in s.hands
  {
    var x := s.hands[t].slot;
    s.(k := Close(Touch(s.k, x), x), hands := s.hands[t := Hand(x, Shut)])
  }

  ghost function DoClear(s: State, t: Thread): State
    requires t in s.hands
  {
    var x := s.hands[t].slot;
    s.(k := Clear(Touch(s.k, x), x), hands := s.hands[t := Hand(x, Wiped)])
  }

  ghost function DoFree(s: State, t: Thread): State
    requires t in s.hands
  {
    var x := s.hands[t].slot;
    s.(k := Destroy(s.k, x), hands := s.hands - {t}, loop := if t == EventLoop then Batch else s.loop,
       place := s.place - {x})
  }

  ghost function DoAcquire(s: State, w: nat): State
    requires TP.Enabled(s.pool, TP.Step<Slot>.Acquire(w))
  {
    var p := TP.Exec(s.pool, TP.Step<Slot>.Acquire(w));
    if s.pool.tasks == [] then s.(pool := p)
    else
      var x := s.pool.tasks[0];
      s.(pool := p, hands := s.hands[Worker(w) := Hand(x, Serving)], place := s.place[x := Held(Worker(w))])
  }

  /** The packaged task keeps the exception and the worker goes on without the socket. */
  ghost function DoThrow(s: State, w: nat): State
    requires Worker(w) in s.hands
  {
    s.(hands := s.hands - {Worker(w)}, place := s.place[s.hands[Worker(w)].slot := Abandoned])
  }

  ghost function Exec(s: State, step: Step): State
    requires Enabled(s, step)
  {
    match step
    case Wait(fires) => DoWait(s, fires)
    case EndBatch => s.(loop := Polling)
    case AcceptOk(fd) => DoAccept(s, fd)
    case AcceptFail => s.(loop := Accepted(-1, -1), batch := s.batch[1..])
    case AllocateFull => DoAllocateFull(s)
    case Allocate(x) => DoAllocate(s, x)
    case Prepare => DoPrepare(s)
    case TakeReady => DoTakeReady(s)
    case Detach => DoDetach(s)
    case Push => DoPush(s)
    case NotifyOne(w) => s.(loop := Batch, pool := TP.Exec(s.pool, TP.Step<Slot>.NotifyOne(w)))
    case NotifyNobody => s.(loop := Batch, pool := TP.Exec(s.pool, TP.Step<Slot>.NotifyNobody))
    case Attach(t) => DoAttach(s, t)
    case CloseFd(t) => DoClose(s, t)
    case ClearFd(t) => DoClear(s, t)
    case Free(t) => DoFree(s, t)
    case Acquire(w) => DoAcquire(s, w)
    case SpuriousWake(w) => s.(pool := TP.Exec(s.pool, TP.Step<Slot>.SpuriousWake(w)))
    case Serve(w) => s.(k := Use(Touch(s.k, s.hands[Worker(w)].slot), s.hands[Worker(w)].slot))
    case Throw(w) => DoThrow(s, w)
    case Return(w) => s.(pool := TP.Exec(s.pool, TP.Step<Slot>.Finish(w)))
    case EnvOpen(fd) => s.(k := OpenElsewhere(s.k, fd))
    case EnvClose(fd) => s.(k := CloseElsewhere(s.k, fd))
  }

  // The invariant, one predicate per kind of reference, each over the fields it is about.

  ghost predicate PhaseFits(phase: Phase, link: Link) {
    match phase
    case New(_, _) => link == Blank
    case Prepared => link.Loose? || link == Refused
    case Picked(_) => link == Registered(false)
    case Detached(_) => link.Loose?
    case Serving => link.Loose?
    case Shut => link in {Gone, Loose(true)}
    case Wiped => link in {Cleared, Loose(true)}
  }

  ghost predicate PlaceFits(place: Place, hands: map<Thread, Hand>, x: Slot, link: Link) {
    match place
    case Armed => link == Registered(true)
    case Fired => link == Registered(false)
    case Queued => link.Loose?
    case Held(t) => t in hands && hands[t].slot == x && PhaseFits(hands[t].phase, link)
    case Abandoned => link.Loose? || link == Registered(false) || link == Refused
  }

  ghost predicate Placed(k: World, place: map<Slot, Place>, hands: map<Thread, Hand>) {
    && (forall x :: x in k.socks <==> x in place)
    && (forall x :: x in k.socks && x in place ==> PlaceFits(place[x], hands, x, LinkOf(k, x)))
  }

  ghost predicate HandsKnown(place: map<Slot, Place>, hands: map<Thread, Hand>) {
    forall t :: t in hands ==> hands[t].slot in place && place[hands[t].slot] == Held(t)
  }

  ghost predicate QueueKnown(place: map<Slot, Place>, tasks: seq<Slot>) {
    && (forall i :: 0 <= i < |tasks| ==> tasks[i] in place && place[tasks[i]] == Queued)
    && (forall x :: x in place && place[x] == Queued ==> x in tasks)
    && OP.NoDuplicates(tasks)
  }

  ghost predicate BatchKnown(place: map<Slot, Place>, batch: seq<Event>) {
    && (forall i :: 0 <= i < |batch| && batch[i].Ready? ==> batch[i].slot in place && place[batch[i].slot] == Fired)
    && (forall x :: x in place && place[x] == Fired ==> x in FiredSlots(batch))
    && (forall i :: 0 <= i < |batch| && batch[i].Ready? ==> batch[i].hup || batch[i].err || batch[i].input)
    && (forall i, j :: 0 <= i < j < |batch| && batch[i].Ready? && batch[j].Ready? ==> batch[i].slot != batch[j].slot)
  }

  /** The descriptor the event loop has accepted and not yet stored in a socket. */
  ghost predicate PendingOk(k: World, loop: Control, hands: map<Thread, Hand>) {
    && (loop.Accepted? ==> Pending(k.socks, k.open, loop.fd, loop.conn))
    && (EventLoop in hands && hands[EventLoop].phase.New? ==>
          Pending(k.socks, k.open, hands[EventLoop].phase.fd, hands[EventLoop].phase.conn))
  }

  ghost predicate LoopOk(loop: Control, batch: seq<Event>, hands: map<Thread, Hand>) {
    && (loop == Working <==> EventLoop in hands)
    && (loop == Polling ==> batch == [])
    && (EventLoop in hands ==> hands[EventLoop].phase != Serving)
  }

  ghost predicate WorkersOk(workers: seq<TP.Worker<Slot>>, hands: map<Thread, Hand>) {
    forall w: nat :: Worker(w) in hands ==>
      && w < |workers| && workers[w] == TP.Running(hands[Worker(w)].slot)
      && hands[Worker(w)].phase in {Serving, Shut, Wiped}
  }

  /** The worker pool is in order, and it is not stopped while the server runs. */
  ghost predicate PoolOk(loop: Control, pool: TP.Pool<Slot>) {
    && TP.Inv(pool) && !pool.stop
    && pool.unnotified == if loop == Pushed then 1 else 0
  }

  ghost predicate Refs(k: World, place: map<Slot, Place>, hands: map<Thread, Hand>,
                       tasks: seq<Slot>, batch: seq<Event>) {
    && Placed(k, place, hands) && HandsKnown(place, hands) && QueueKnown(place, tasks) && BatchKnown(place, batch)
  }

  ghost predicate RefsOk(s: State) {
    Refs(s.k, s.place, s.hands, s.pool.tasks, s.batch)
  }

  ghost predicate Sides(s: State) {
    && |s.k.socks.Keys| <= s.cap && s.k.faults <= {AddBadDescriptor}
    && PendingOk(s.k, s.loop, s.hands)
    && LoopOk(s.loop, s.batch, s.hands)
    && WorkersOk(s.pool.workers, s.hands)
  }

  ghost predicate Inv(s: State) {
    WorldOk(s.k) && RefsOk(s) && Sides(s) && PoolOk(s.loop, s.pool)
  }

  lemma InitInv(s: State)
    requires Init(s)
    ensures Inv(s)
  {
    TP.InitInv(s.pool);
  }

  // A step moves one socket x; everything said about the others stays.

  ghost predicate Moved(place: map<Slot, Place>, place': map<Slot, Place>, x: Slot) {
    && (forall y :: y in place && y != x ==> y in place' && place'[y] == place[y])
    && (forall y :: y in place' && y != x ==> y in place)
  }

  ghost predicate HandsMoved(hands: map<Thread, Hand>, hands': map<Thread, Hand>, x: Slot) {
    && (forall t :: t in hands && hands[t].slot != x ==> t in hands' && hands'[t] == hands[t])
    && (forall t :: t in hands' && hands'[t].slot != x ==> t in hands && hands'[t] == hands[t])
  }

  lemma PlacedAfterMove(k: World, k': World, place: map<Slot, Place>, place': map<Slot, Place>,
                        hands: map<Thread, Hand>, hands': map<Thread, Hand>, x: Slot)
    requires Placed(k, place, hands) && OthersKept(k, k', x) && Moved(place, place', x) && HandsMoved(hands, hands', x)
    requires x in k'.socks <==> x in place'
    requires x in k'.socks && x in place' ==> PlaceFits(place'[x], hands', x, LinkOf(k', x))
    ensures Placed(k', place', hands')
  {
    forall y | y in k'.socks && y in place' ensures PlaceFits(place'[y], hands', y, LinkOf(k', y)) {
      if y != x {
        assert PlaceFits(place[y], hands, y, LinkOf(k, y));
      }
    }
  }

  lemma HandsAfterMove(place: map<Slot, Place>, place': map<Slot, Place>,
                       hands: map<Thread, Hand>, hands': map<Thread, Hand>, x: Slot)
    requires HandsKnown(place, hands) && Moved(place, place', x) && HandsMoved(hands, hands', x)
    requires forall t :: t in hands' && hands'[t].slot == x ==> x in place' && place'[x] == Held(t)
    ensures HandsKnown(place', hands')
  {
  }

  lemma QueueAfterMove(place: map<Slot, Place>, place': map<Slot, Place>, tasks: seq<Slot>, x: Slot)
    requires QueueKnown(place, tasks) && Moved(place, place', x)
    requires (x in place ==> place[x] != Queued) && (x in place' ==> place'[x] != Queued)
    ensures QueueKnown(place', tasks)
  {
  }

  lemma BatchAfterMove(place: map<Slot, Place>, place': map<Slot, Place>, batch: seq<Event>, x: Slot)
    requires BatchKnown(place, batch) && Moved(place, place', x)
    requires (x in place ==> place[x] != Fired) && (x in place' ==> place'[x] != Fired)
    ensures BatchKnown(place', batch)
  {
  }

  /** What a thread that holds a socket can rely on. */
  lemma HolderOwns(s: State, t: Thread)
    requires RefsOk(s) && t in s.hands
    ensures var Hand(x, phase) := s.hands[t];
      && x in s.k.socks && x in s.place && s.place[x] == Held(t) && PhaseFits(phase, LinkOf(s.k, x))
      && (forall u :: u in s.hands && s.hands[u].slot == x ==> u == t)
  {
    var x := s.hands[t].slot;
    assert PlaceFits(s.place[x], s.hands, x, LinkOf(s.k, x));
  }

  /** The holder acts on its socket and keeps it. */
  lemma HolderKeeps(s: State, t: Thread, k': World, phase: Phase)
    requires RefsOk(s) && t in s.hands && OthersKept(s.k, k', s.hands[t].slot)
    requires s.hands[t].slot in k'.socks && PhaseFits(phase, LinkOf(k', s.hands[t].slot))
    ensures Refs(k', s.place, s.hands[t := Hand(s.hands[t].slot, phase)], s.pool.tasks, s.batch)
  {
    var x := s.hands[t].slot;
    var hands' := s.hands[t := Hand(x, phase)];
    HolderOwns(s, t);
    PlacedAfterMove(s.k, k', s.place, s.place, s.hands, hands', x);
    HandsAfterMove(s.place, s.place, s.hands, hands', x);
  }

  /** The holder lets go of its socket, for good if it is no longer live. */
  lemma HolderDrops(s: State, t: Thread, k': World, place': map<Slot, Place>)
    requires RefsOk(s) && t in s.hands
    requires OthersKept(s.k, k', s.hands[t].slot) && Moved(s.place, place', s.hands[t].slot)
    requires var x := s.hands[t].slot;
      && (x in k'.socks <==> x in place')
      && (x in place' ==> !place'[x].Held? && PlaceFits(place'[x], map[], x, LinkOf(k', x)))
    ensures Placed(k', place', s.hands - {t}) && HandsKnown(place', s.hands - {t})
  {
    var x := s.hands[t].slot;
    HolderOwns(s, t);
    PlacedAfterMove(s.k, k', s.place, place', s.hands, s.hands - {t}, x);
    HandsAfterMove(s.place, place', s.hands, s.hands - {t}, x);
  }

  lemma HolderRetires(s: State, t: Thread, k': World, place': map<Slot, Place>)
    requires RefsOk(s) && t in s.hands
    requires OthersKept(s.k, k', s.hands[t].slot) && Moved(s.place, place', s.hands[t].slot)
    requires var x := s.hands[t].slot;
      && (x in k'.socks <==> x in place')
      && (x in place' ==> place'[x] in {Armed, Abandoned} && PlaceFits(place'[x], map[], x, LinkOf(k', x)))
    ensures Refs(k', place', s.hands - {t}, s.pool.tasks, s.batch)
  {
    var x := s.hands[t].slot;
    HolderOwns(s, t);
    HolderDrops(s, t, k', place');
    QueueAfterMove(s.place, place', s.pool.tasks, x);
    BatchAfterMove(s.place, place', s.batch, x);
  }

  // The steps of a thread that holds a socket.

  lemma AttachRefs(s: State, t: Thread)
    requires WorldOk(s.k) && RefsOk(s) && t in s.hands
    requires s.hands[t].slot in s.k.socks && LinkOf(s.k, s.hands[t].slot).Loose?
    ensures var q := DoAttach(s, t); WorldOk(q.k) && RefsOk(q)
  {
    hide LinkOf, Add, WorldOk, Placed, HandsKnown, QueueKnown, BatchKnown, OthersKept;
    var q := DoAttach(s, t);
    AddWorks(s.k, s.hands[t].slot);
    HolderRetires(s, t, q.k, q.place);
  }

  lemma AttachFailedRefs(s: State, t: Thread)
    requires WorldOk(s.k) && RefsOk(s) && t in s.hands
    requires s.hands[t].slot in s.k.socks && LinkOf(s.k, s.hands[t].slot) == Refused
    ensures var q := DoAttach(s, t); WorldOk(q.k) && RefsOk(q)
  {
    var x := s.hands[t].slot;
    hide LinkOf, Add, WorldOk, Placed, HandsKnown, QueueKnown, BatchKnown, OthersKept;
    var q := DoAttach(s, t);
    AddRefused(s.k, x);
    HolderRetires(s, t, q.k, q.place);
  }

  lemma AttachSides(s: State, t: Thread)
    requires Sides(s) && t in s.hands && s.hands[t].slot in s.k.socks
    requires Add(s.k, s.hands[t].slot).faults <= {AddBadDescriptor}
    ensures Sides(DoAttach(s, t))
  {
  }

  lemma CloseRefs(s: State, t: Thread)
    requires WorldOk(s.k) && RefsOk(s) && (Holding(s, t, Detached(true)) || Holding(s, t, Serving))
    ensures var q := DoClose(s, t); WorldOk(q.k) && RefsOk(q)
  {
    HolderOwns(s, t);
    CloseWorks(s.k, s.hands[t].slot);
    HolderKeeps(s, t, DoClose(s, t).k, Shut);
  }

  lemma CloseSides(s: State, t: Thread)
    requires WorldOk(s.k) && Sides(s) && t in s.hands && !s.hands[t].phase.New?
    requires s.hands[t].slot in s.k.socks && LinkOf(s.k, s.hands[t].slot).Loose?
    ensures Sides(DoClose(s, t))
  {
    hide LinkOf, WorldOk, Close, Pending;
    var x := s.hands[t].slot;
    CloseWorks(s.k, x);
    if s.loop.Accepted? { PendingAfterClose(s.k, x, s.loop.fd, s.loop.conn); }
    if EventLoop in s.hands && s.hands[EventLoop].phase.New? {
      PendingAfterClose(s.k, x, s.hands[EventLoop].phase.fd, s.hands[EventLoop].phase.conn);
    }
  }

  lemma ClearRefs(s: State, t: Thread)
    requires WorldOk(s.k) && RefsOk(s) && Holding(s, t, Shut)
    ensures var q := DoClear(s, t); WorldOk(q.k) && RefsOk(q)
  {
    HolderOwns(s, t);
    ClearWorks(s.k, s.hands[t].slot);
    HolderKeeps(s, t, DoClear(s, t).k, Wiped);
  }

  lemma ClearSides(s: State, t: Thread)
    requires WorldOk(s.k) && Sides(s) && t in s.hands && !s.hands[t].phase.New?
    requires s.hands[t].slot in s.k.socks && LinkOf(s.k, s.hands[t].slot) in {Gone, Loose(true)}
    ensures Sides(DoClear(s, t))
  {
    hide LinkOf, WorldOk, Clear, Pending;
    var x := s.hands[t].slot;
    ClearWorks(s.k, x);
    if s.loop.Accepted? { PendingAfterClear(s.k, x, s.loop.fd, s.loop.conn); }
    if EventLoop in s.hands && s.hands[EventLoop].phase.New? {
      PendingAfterClear(s.k, x, s.hands[EventLoop].phase.fd, s.hands[EventLoop].phase.conn);
    }
  }

  lemma FreeRefs(s: State, t: Thread)
    requires WorldOk(s.k) && RefsOk(s) && Holding(s, t, Wiped)
    ensures var q := DoFree(s, t); WorldOk(q.k) && RefsOk(q)
  {
    var q := DoFree(s, t);
    HolderOwns(s, t);
    DestroyWorks(s.k, s.hands[t].slot);
    HolderRetires(s, t, q.k, q.place);
  }

  lemma FreeSides(s: State, t: Thread)
    requires WorldOk(s.k) && Sides(s) && t in s.hands
    requires s.hands[t].slot in s.k.socks && LinkOf(s.k, s.hands[t].slot) in {Cleared, Loose(true)}
    ensures Sides(DoFree(s, t))
  {
    var x := s.hands[t].slot;
    DestroyWorks(s.k, x);
    assert DoFree(s, t).k.socks.Keys == s.k.socks.Keys - {x};
  }

  lemma PrepareRefs(s: State)
    requires WorldOk(s.k) && RefsOk(s) && PendingOk(s.k, s.loop, s.hands)
    requires EventLoop in s.hands && s.hands[EventLoop].phase.New?
    ensures var q := DoPrepare(s); WorldOk(q.k) && RefsOk(q)
  {
    var Hand(x, phase) := s.hands[EventLoop];
    HolderOwns(s, EventLoop);
    AssignWorks(s.k, x, phase.fd, phase.conn);
    HolderKeeps(s, EventLoop, DoPrepare(s).k, Prepared);
  }

  lemma PrepareSides(s: State)
    requires WorldOk(s.k) && Sides(s) && EventLoop in s.hands && s.hands[EventLoop].phase.New?
    requires s.hands[EventLoop].slot in s.k.socks && LinkOf(s.k, s.hands[EventLoop].slot) == Blank
    ensures Sides(DoPrepare(s))
  {
    var Hand(x, phase) := s.hands[EventLoop];
    AssignWorks(s.k, x, phase.fd, phase.conn);
  }

  lemma DetachRefs(s: State)
    requires WorldOk(s.k) && RefsOk(s) && EventLoop in s.hands && s.hands[EventLoop].phase.Picked?
    ensures var q := DoDetach(s); WorldOk(q.k) && RefsOk(q)
  {
    HolderOwns(s, EventLoop);
    DelWorks(s.k, s.hands[EventLoop].slot);
    HolderKeeps(s, EventLoop, DoDetach(s).k, Detached(s.hands[EventLoop].phase.drop));
  }

  lemma DetachSides(s: State)
    requires WorldOk(s.k) && Sides(s) && EventLoop in s.hands && s.hands[EventLoop].phase.Picked?
    requires s.hands[EventLoop].slot in s.k.socks && LinkOf(s.k, s.hands[EventLoop].slot).Registered?
    ensures Sides(DoDetach(s))
  {
    DelWorks(s.k, s.hands[EventLoop].slot);
  }

  lemma ThrowRefs(s: State, w: nat)
    requires WorldOk(s.k) && RefsOk(s) && Holding(s, Worker(w), Serving)
    ensures RefsOk(DoThrow(s, w))
  {
    HolderOwns(s, Worker(w));
    HolderRetires(s, Worker(w), s.k, DoThrow(s, w).place);
  }

  lemma PushRefs(s: State)
    requires WorldOk(s.k) && RefsOk(s) && !s.pool.stop && Holding(s, EventLoop, Detached(false))
    ensures RefsOk(DoPush(s))
  {
    var x := s.hands[EventLoop].slot;
    var q := DoPush(s);
    HolderOwns(s, EventLoop);
    HolderDrops(s, EventLoop, s.k, q.place);
    BatchAfterMove(s.place, q.place, s.batch, x);
    QueueGrows(s.place, s.pool.tasks, x);
  }

  lemma QueueGrows(place: map<Slot, Place>, tasks: seq<Slot>, x: Slot)
    requires QueueKnown(place, tasks) && x in place && place[x] != Queued
    ensures QueueKnown(place[x := Queued], tasks + [x])
  {
    assert x !in tasks;
  }

  lemma AcquireRefs(s: State, w: nat)
    requires WorldOk(s.k) && RefsOk(s) && WorkersOk(s.pool.workers, s.hands)
    requires TP.Enabled(s.pool, TP.Step<Slot>.Acquire(w)) && s.pool.tasks != []
    ensures RefsOk(DoAcquire(s, w))
  {
    var x := s.pool.tasks[0];
    var q := DoAcquire(s, w);
    assert Worker(w) !in s.hands;
    assert s.place[x] == Queued && PlaceFits(s.place[x], s.hands, x, LinkOf(s.k, x));
    FreshHand(s.place, s.hands, Worker(w), x, Serving);
    PlacedAfterMove(s.k, s.k, s.place, q.place, s.hands, q.hands, x);
    BatchAfterMove(s.place, q.place, s.batch, x);
    QueueShrinks(s.place, s.pool.tasks, Held(Worker(w)));
  }

  lemma QueueShrinks(place: map<Slot, Place>, tasks: seq<Slot>, p: Place)
    requires QueueKnown(place, tasks) && tasks != [] && p != Queued
    ensures QueueKnown(place[tasks[0] := p], tasks[1..])
  {
    var x, rest := tasks[0], tasks[1..];
    assert forall i :: 0 <= i < |rest| ==> rest[i] == tasks[i + 1];
    assert forall y :: y in tasks && y != x ==> y in rest;
  }

  // The steps of the event loop that concern its batch and its pool.

  lemma AllocateRefs(s: State, x: Slot)
    requires WorldOk(s.k) && RefsOk(s) && s.loop.Accepted? && EventLoop !in s.hands && x !in s.k.socks
    ensures var q := DoAllocate(s, x); WorldOk(q.k) && RefsOk(q)
  {
    hide LinkOf, WorldOk, Construct;
    var q := DoAllocate(s, x);
    ConstructWorks(s.k, x);
    assert x !in s.place;
    FreshHand(s.place, s.hands, EventLoop, x, q.hands[EventLoop].phase);
    PlacedAfterMove(s.k, q.k, s.place, q.place, s.hands, q.hands, x);
    QueueAfterMove(s.place, q.place, s.pool.tasks, x);
    BatchAfterMove(s.place, q.place, s.batch, x);
  }

  /** An idle thread takes hold of x. */
  lemma FreshHand(place: map<Slot, Place>, hands: map<Thread, Hand>, t: Thread, x: Slot, phase: Phase)
    requires HandsKnown(place, hands) && t !in hands && (x in place ==> !place[x].Held?)
    ensures HandsMoved(hands, hands[t := Hand(x, phase)], x)
    ensures HandsKnown(place[x := Held(t)], hands[t := Hand(x, phase)])
  {
  }

  lemma TakeReadyRefs(s: State)
    requires WorldOk(s.k) && RefsOk(s) && EventLoop !in s.hands && s.batch != [] && s.batch[0].Ready?
    ensures RefsOk(DoTakeReady(s))
  {
    hide LinkOf, WorldOk;
    var x := s.batch[0].slot;
    var q := DoTakeReady(s);
    assert s.place[x] == Fired && PlaceFits(s.place[x], s.hands, x, LinkOf(s.k, x));
    if q.place[x] == Held(EventLoop) {
      FreshHand(s.place, s.hands, EventLoop, x, q.hands[EventLoop].phase);
    }
    PlacedAfterMove(s.k, s.k, s.place, q.place, s.hands, q.hands, x);
    QueueAfterMove(s.place, q.place, s.pool.tasks, x);
    BatchShrinks(s.place, s.batch, q.place[x]);
  }

  lemma BatchShrinks(place: map<Slot, Place>, batch: seq<Event>, p: Place)
    requires BatchKnown(place, batch) && batch != [] && p != Fired
    ensures batch[0].Ready? ==> BatchKnown(place[batch[0].slot := p], batch[1..])
    ensures batch[0].Listener? ==> BatchKnown(place, batch[1..])
  {
    var rest := batch[1..];
    assert forall i :: 0 <= i < |rest| ==> rest[i] == batch[i + 1];
    forall y | y in FiredSlots(batch) && (batch[0].Ready? ==> y != batch[0].slot) ensures y in FiredSlots(rest) {
      var i :| 0 <= i < |batch| && batch[i].Ready? && batch[i].slot == y;
      assert rest[i - 1] == batch[i];
    }
  }

  lemma AllocateFullRefs(s: State)
    requires WorldOk(s.k) && RefsOk(s)
    ensures RefsOk(DoAllocateFull(s))
  {
    var q := DoAllocateFull(s);
    forall x | x in s.k.socks && x in q.place ensures PlaceFits(q.place[x], q.hands, x, LinkOf(q.k, x)) {
      assert PlaceFits(s.place[x], s.hands, x, LinkOf(s.k, x));
    }
  }

  lemma FiredWasArmed(s: State, fires: seq<Fire>, i: nat)
    requires WorldOk(s.k) && RefsOk(s) && Deliverable(s.k.epoll, fires) && i < |fires| && fires[i].On?
    ensures var x := s.k.epoll[fires[i].fd].slot;
      && x in s.k.socks && s.k.socks[x].fd == fires[i].fd && LinkOf(s.k, x) == Registered(true)
      && x in s.place && s.place[x] == Armed
  {
    var x := s.k.epoll[fires[i].fd].slot;
    assert PlaceFits(s.place[x], s.hands, x, LinkOf(s.k, x));
  }

  lemma FiredExactly(s: State, fires: seq<Fire>, x: Slot)
    requires WorldOk(s.k) && RefsOk(s) && Deliverable(s.k.epoll, fires) && x in s.k.socks
    ensures x in FiredSlots(Events(s.k.epoll, fires)) <==>
            LinkOf(s.k, x).Registered? && s.k.socks[x].fd in FiredFds(fires)
    ensures x in FiredSlots(Events(s.k.epoll, fires)) ==> x in s.place && s.place[x] == Armed
  {
    var batch := Events(s.k.epoll, fires);
    if x in FiredSlots(batch) {
      var i :| 0 <= i < |batch| && batch[i].Ready? && batch[i].slot == x;
      FiredWasArmed(s, fires, i);
    }
    if LinkOf(s.k, x).Registered? && s.k.socks[x].fd in FiredFds(fires) {
      var i :| 0 <= i < |fires| && fires[i].On? && fires[i].fd == s.k.socks[x].fd;
      assert batch[i].Ready? && batch[i].slot == x;
    }
  }

  lemma WaitPlaced(s: State, fires: seq<Fire>)
    requires WorldOk(s.k) && RefsOk(s) && Deliverable(s.k.epoll, fires)
    ensures var q := DoWait(s, fires); Placed(q.k, q.place, q.hands)
  {
    var q := DoWait(s, fires);
    DisarmWorks(s.k, FiredFds(fires));
    forall x | x in s.k.socks && x in q.place ensures PlaceFits(q.place[x], q.hands, x, LinkOf(q.k, x)) {
      FiredExactly(s, fires, x);
      assert PlaceFits(s.place[x], s.hands, x, LinkOf(s.k, x));
    }
  }

  lemma WaitBatch(s: State, fires: seq<Fire>)
    requires WorldOk(s.k) && RefsOk(s) && s.batch == [] && Deliverable(s.k.epoll, fires)
    ensures var q := DoWait(s, fires); BatchKnown(q.place, q.batch)
  {
    var q := DoWait(s, fires);
    forall i | 0 <= i < |fires| && fires[i].On?
      ensures q.batch[i].Ready? && q.batch[i].slot in q.place && q.place[q.batch[i].slot] == Fired
      ensures q.batch[i].slot in s.k.socks && s.k.socks[q.batch[i].slot].fd == fires[i].fd
    {
      FiredWasArmed(s, fires, i);
    }
    assert forall x :: x in s.place ==> s.place[x] != Fired;
  }

  lemma WaitRefs(s: State, fires: seq<Fire>)
    requires WorldOk(s.k) && RefsOk(s) && s.batch == [] && Deliverable(s.k.epoll, fires)
    ensures var q := DoWait(s, fires); WorldOk(q.k) && RefsOk(q)
  {
    var q := DoWait(s, fires);
    DisarmWorks(s.k, FiredFds(fires));
    WaitPlaced(s, fires);
    WaitBatch(s, fires);
    forall x | x in FiredSlots(q.batch) ensures x in s.place && s.place[x] == Armed {
      var i :| 0 <= i < |q.batch| && q.batch[i].Ready? && q.batch[i].slot == x;
      FiredWasArmed(s, fires, i);
    }
    OthersAfterSweep(s, FiredSlots(q.batch), Fired);
  }

  lemma OthersAfterSweep(s: State, xs: set<Slot>, p: Place)
    requires RefsOk(s) && p in {Fired, Abandoned}
    requires forall x :: x in xs && x in s.place ==> s.place[x] in {Armed, Fired}
    ensures var place' := MoveAll(s.place, xs, p); HandsKnown(place', s.hands) && QueueKnown(place', s.pool.tasks)
  {
  }

  // Whole steps.

  /** An abandoned socket is left alone: it stays live, and its descriptor stays as it is. */
  ghost predicate Steady(s: State, q: State) {
    forall x :: x in s.place && s.place[x] == Abandoned && x in s.k.socks ==>
      x in q.k.socks && x in q.place && q.place[x] == Abandoned && LinkOf(q.k, x) == LinkOf(s.k, x)
  }

  lemma AttachStep(s: State, t: Thread)
    requires Inv(s) && t in s.hands && s.hands[t].slot in s.k.socks
    requires LinkOf(s.k, s.hands[t].slot).Loose? || LinkOf(s.k, s.hands[t].slot) == Refused
    ensures var q := DoAttach(s, t); Inv(q) && Steady(s, q)
  {
    HolderOwns(s, t);
    AttachSteady(s, t);
    if LinkOf(s.k, s.hands[t].slot).Loose? { AttachRefs(s, t); } else { AttachFailedRefs(s, t); }
    AttachSides(s, t);
  }

  lemma AttachSteady(s: State, t: Thread)
    requires WorldOk(s.k) && t in s.hands && s.hands[t].slot in s.place && s.place[s.hands[t].slot] == Held(t)
    requires s.hands[t].slot in s.k.socks
    requires LinkOf(s.k, s.hands[t].slot).Loose? || LinkOf(s.k, s.hands[t].slot) == Refused
    ensures Steady(s, DoAttach(s, t))
    ensures Add(s.k, s.hands[t].slot).faults <= s.k.faults + {AddBadDescriptor}
  {
    var x := s.hands[t].slot;
    if LinkOf(s.k, x).Loose? { AddWorks(s.k, x); } else { AddRefused(s.k, x); }
  }

  lemma CloseStep(s: State, t: Thread)
    requires Inv(s) && (Holding(s, t, Detached(true)) || Holding(s, t, Serving))
    ensures var q := DoClose(s, t); Inv(q) && Steady(s, q) && q.k.faults == s.k.faults
  {
    HolderOwns(s, t);
    CloseRefs(s, t);
    CloseSides(s, t);
    CloseWorks(s.k, s.hands[t].slot);
  }

  lemma ClearStep(s: State, t: Thread)
    requires Inv(s) && Holding(s, t, Shut)
    ensures var q := DoClear(s, t); Inv(q) && Steady(s, q) && q.k.faults == s.k.faults
  {
    HolderOwns(s, t);
    ClearRefs(s, t);
    ClearSides(s, t);
    ClearWorks(s.k, s.hands[t].slot);
  }

  lemma FreeStep(s: State, t: Thread)
    requires Inv(s) && Holding(s, t, Wiped)
    ensures var q := DoFree(s, t); Inv(q) && Steady(s, q) && q.k.faults == s.k.faults
  {
    HolderOwns(s, t);
    FreeRefs(s, t);
    FreeSides(s, t);
    DestroyWorks(s.k, s.hands[t].slot);
  }

  lemma PrepareStep(s: State)
    requires Inv(s) && EventLoop in s.hands && s.hands[EventLoop].phase.New?
    ensures var q := DoPrepare(s); Inv(q) && Steady(s, q) && q.k.faults == s.k.faults
  {
    var Hand(x, phase) := s.hands[EventLoop];
    HolderOwns(s, EventLoop);
    PrepareRefs(s);
    PrepareSides(s);
    AssignWorks(s.k, x, phase.fd, phase.conn);
  }

  lemma DetachStep(s: State)
    requires Inv(s) && EventLoop in s.hands && s.hands[EventLoop].phase.Picked?
    ensures var q := DoDetach(s); Inv(q) && Steady(s, q) && q.k.faults == s.k.faults
  {
    HolderOwns(s, EventLoop);
    DetachRefs(s);
    DetachSides(s);
    DelWorks(s.k, s.hands[EventLoop].slot);
  }

  lemma ThrowStep(s: State, w: nat)
    requires Inv(s) && Holding(s, Worker(w), Serving)
    ensures var q := DoThrow(s, w); Inv(q) && Steady(s, q)
  {
    hide LinkOf, WorldOk, Refs, Sides, TP.Inv;
    HolderOwns(s, Worker(w));
    ThrowRefs(s, w);
    ThrowSides(s, w);
  }

  lemma ThrowSides(s: State, w: nat)
    requires Sides(s) && Worker(w) in s.hands
    ensures Sides(DoThrow(s, w))
  {
  }

  lemma PushStep(s: State)
    requires Inv(s) && Holding(s, EventLoop, Detached(false))
    ensures var q := DoPush(s); Inv(q) && Steady(s, q)
  {
    hide LinkOf, WorldOk, Refs, TP.Inv;
    HolderOwns(s, EventLoop);
    PushRefs(s);
    TP.StepKeepsInv(s.pool, TP.Enqueue(s.hands[EventLoop].slot));
  }

  lemma AcquireStep(s: State, w: nat)
    requires Inv(s) && TP.Enabled(s.pool, TP.Step<Slot>.Acquire(w))
    ensures var q := DoAcquire(s, w); Inv(q) && Steady(s, q)
  {
    AcquireSides(s, w);
    if s.pool.tasks != [] {
      AcquireRefs(s, w);
      TP.StepKeepsInv(s.pool, TP.Step<Slot>.Acquire(w));
    } else {
      TP.StepKeepsInv(s.pool, TP.Step<Slot>.Acquire(w));
    }
  }

  lemma AcquireSides(s: State, w: nat)
    requires RefsOk(s) && Sides(s) && !s.pool.stop && TP.Enabled(s.pool, TP.Step<Slot>.Acquire(w))
    ensures var q := DoAcquire(s, w); Sides(q) && Steady(s, q) && !q.pool.stop
  {
    if s.pool.tasks != [] {
      assert s.place[s.pool.tasks[0]] == Queued;
    }
  }

  lemma AllocateStep(s: State, x: Slot)
    requires Inv(s) && s.loop.Accepted? && OP.MayGrant(s.k.socks.Keys, s.cap, x)
    ensures var q := DoAllocate(s, x); Inv(q) && Steady(s, q)
  {
    hide LinkOf, WorldOk, PendingOk, WorkersOk, TP.Inv, BatchKnown, QueueKnown, HandsKnown;
    AllocateRefs(s, x);
    AllocateSides(s, x);
    ConstructWorks(s.k, x);
  }

  lemma AllocateSides(s: State, x: Slot)
    requires Sides(s) && s.loop.Accepted? && x !in s.k.socks && |s.k.socks.Keys| != s.cap
    ensures Sides(DoAllocate(s, x))
  {
    PendingAfterConstruct(s.k, x, s.loop.fd, s.loop.conn);
  }

  lemma AllocateFullStep(s: State)
    requires Inv(s) && s.loop.Accepted?
    ensures var q := DoAllocateFull(s); Inv(q) && Steady(s, q)
  {
    AllocateFullRefs(s);
  }

  lemma TakeReadyStep(s: State)
    requires Inv(s) && s.loop == Batch && s.batch != [] && s.batch[0].Ready?
    ensures var q := DoTakeReady(s); Inv(q) && Steady(s, q)
  {
    TakeReadyRefs(s);
    TakeReadySides(s);
  }

  lemma TakeReadySides(s: State)
    requires BatchKnown(s.place, s.batch) && Sides(s) && s.loop == Batch && s.batch != [] && s.batch[0].Ready?
    ensures var q := DoTakeReady(s); Sides(q) && Steady(s, q)
  {
    assert s.place[s.batch[0].slot] == Fired;
  }

  lemma WaitStep(s: State, fires: seq<Fire>)
    requires Inv(s) && s.loop == Polling && Deliverable(s.k.epoll, fires)
    ensures var q := DoWait(s, fires); Inv(q) && Steady(s, q)
  {
    WaitRefs(s, fires);
    DisarmWorks(s.k, FiredFds(fires));
    var q := DoWait(s, fires);
    forall x | x in s.place && s.place[x] == Abandoned && x in s.k.socks
      ensures x in q.place && q.place[x] == Abandoned && LinkOf(q.k, x) == LinkOf(s.k, x)
    {
      FiredExactly(s, fires, x);
      assert PlaceFits(s.place[x], s.hands, x, LinkOf(s.k, x));
    }
  }

  lemma AcceptStep(s: State, fd: int)
    requires Inv(s) && s.loop == Batch && s.batch != [] && s.batch[0] == Listener && fd >= 0 && fd !in s.k.open
    ensures var q := DoAccept(s, fd); Inv(q) && Steady(s, q)
  {
    AcceptWorks(s.k, fd);
    BatchShrinks(s.place, s.batch, Abandoned);
  }
}
