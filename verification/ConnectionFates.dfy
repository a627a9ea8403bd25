/** What becomes of an accepted connection, and runs that lose one. */
module ConnectionFates {
  import OP = ObjectPool
  import TP = ThreadPool
  import opened Sockets
  import opened Connection
  import opened ConnectionSafety

  // The fate of a connection.

  ghost predicate Closed(s: State, id: int) {
    id in s.k.closes
  }

  ghost predicate OpenConn(open: map<int, Holder>, id: int) {
    exists fd :: fd in open && open[fd] == Connection(id)
  }

  ghost predicate HasSocket(socks: map<Slot, Sock>, id: int) {
    exists x :: x in socks && socks[x].conn == id
  }

  /** Accepted, and on its way into a socket object. */
  ghost predicate InLoop(loop: Control, hands: map<Thread, Hand>, id: int) {
    || (loop.Accepted? && loop.conn == id)
    || (EventLoop in hands && hands[EventLoop].phase.New? && hands[EventLoop].phase.conn == id)
  }

  ghost predicate Carried(s: State, id: int) {
    HasSocket(s.k.socks, id) || InLoop(s.loop, s.hands, id)
  }

  /** Open, and nothing in the program refers to it. */
  ghost predicate Leaked(s: State, id: int) {
    OpenConn(s.k.open, id) && !Carried(s, id)
  }

  /** Every connection accepted so far is open or closed. */
  ghost predicate Recorded(k: World) {
    forall id :: 0 <= id < k.nextConn ==> id in k.closes || OpenConn(k.open, id)
  }

  /** The step that leaks a connection: the break for a full pool, or freeing a socket on descriptor 0. */
  ghost predicate Leaks(s: State, step: Step, id: int) {
    match step
    case AllocateFull => s.loop.Accepted? && s.loop.conn == id && id >= 0
    case Free(t) =>
      t in s.hands && s.hands[t].slot in s.k.socks && s.k.socks[s.hands[t].slot].conn == id
      && LinkOf(s.k, s.hands[t].slot) == Loose(true)
    case _ => false
  }

  /** What a step has to show: nothing is forgotten, and the leaked connections are the old ones and
      the one the step leaks. */
  ghost predicate Accounts(s: State, step: Step, q: State) {
    && (Recorded(s.k) ==> Recorded(q.k))
    && (forall id :: id >= 0 ==> (Leaked(q, id) <==> Leaked(s, id) || Leaks(s, step, id)))
  }

  /** Nothing that bears on a connection's fate has changed. */
  ghost predicate Quiet(s: State, q: State) {
    && q.k.closes == s.k.closes && q.k.nextConn == s.k.nextConn
    && (forall id :: OpenConn(q.k.open, id) <==> OpenConn(s.k.open, id))
    && (forall id :: HasSocket(q.k.socks, id) <==> HasSocket(s.k.socks, id))
    && (forall id :: id >= 0 ==> (InLoop(q.loop, q.hands, id) <==> InLoop(s.loop, s.hands, id)))
  }

  lemma QuietAccounts(s: State, step: Step, q: State)
    requires Quiet(s, q) && !step.AllocateFull? && !step.Free?
    ensures Accounts(s, step, q)
  {
    hide OpenConn, HasSocket, InLoop;
  }

  lemma AcceptAccounts(s: State, fd: int)
    requires Inv(s) && Enabled(s, AcceptOk(fd))
    ensures Accounts(s, AcceptOk(fd), DoAccept(s, fd))
  {
    hide LinkOf, Refs, PoolOk, HasSocket;
    var q, next := DoAccept(s, fd), s.k.nextConn;
    forall id
      ensures OpenConn(q.k.open, id) <==> OpenConn(s.k.open, id) || id == next
    {
      AcceptOpens(s.k.open, fd, next, id);
    }
    assert !OpenConn(s.k.open, next);
    assert InLoop(q.loop, q.hands, next);
  }

  lemma AcceptOpens(open: map<int, Holder>, fd: int, next: int, id: int)
    requires fd !in open
    ensures OpenConn(open[fd := Connection(next)], id) <==> OpenConn(open, id) || id == next
  {
    var open' := open[fd := Connection(next)];
    if id == next {
      assert open'[fd] == Connection(id);
    }
    if OpenConn(open, id) {
      var f :| f in open && open[f] == Connection(id);
      assert f in open' && open'[f] == Connection(id);
    }
  }

  lemma FullAccounts(s: State)
    requires Inv(s) && Enabled(s, AllocateFull)
    ensures Accounts(s, AllocateFull, DoAllocateFull(s))
  {
    hide LinkOf, Refs, PoolOk, WorldOk, MoveAll;
    var q := DoAllocateFull(s);
    if s.loop.conn >= 0 {
      assert s.k.open[s.loop.fd] == Connection(s.loop.conn);
      assert OpenConn(s.k.open, s.loop.conn);
    }
  }

  lemma AllocateQuiet(s: State, x: Slot)
    requires Inv(s) && Enabled(s, Allocate(x))
    ensures Accounts(s, Allocate(x), DoAllocate(s, x))
  {
    hide LinkOf, Refs, PoolOk, WorldOk, OpenConn;
    var q := DoAllocate(s, x);
    forall id | id >= 0
      ensures HasSocket(q.k.socks, id) <==> HasSocket(s.k.socks, id)
    {
      if HasSocket(s.k.socks, id) {
        var y :| y in s.k.socks && s.k.socks[y].conn == id;
        assert y in q.k.socks && q.k.socks[y].conn == id;
      }
    }
  }

  lemma PrepareAccounts(s: State)
    requires Inv(s) && EventLoop in s.hands && s.hands[EventLoop].phase.New?
    ensures Accounts(s, Prepare, DoPrepare(s))
  {
    hide Refs, PoolOk, WorldOk, OpenConn;
    var q := DoPrepare(s);
    var Hand(x, phase) := s.hands[EventLoop];
    HolderOwns(s, EventLoop);
    forall id | id >= 0
      ensures HasSocket(q.k.socks, id) <==> HasSocket(s.k.socks, id) || id == phase.conn
    {
      Reassigned(s.k.socks, x, Sock(phase.fd, phase.conn), id);
    }
  }

  /** An object without a connection is given one. */
  lemma Reassigned(socks: map<Slot, Sock>, x: Slot, sock: Sock, id: int)
    requires x in socks && socks[x].conn < 0 <= id
    ensures HasSocket(socks[x := sock], id) <==> HasSocket(socks, id) || id == sock.conn
  {
    var socks' := socks[x := sock];
    if HasSocket(socks, id) {
      var y :| y in socks && socks[y].conn == id;
      assert y in socks' && socks'[y].conn == id;
    }
    if id == sock.conn {
      assert socks'[x].conn == id;
    }
  }

  lemma CloseAccounts(s: State, t: Thread)
    requires Inv(s) && (Holding(s, t, Detached(true)) || Holding(s, t, Serving))
    ensures Accounts(s, CloseFd(t), DoClose(s, t))
  {
    hide OpenConn, HasSocket, InLoop, WorldOk, RefsOk, PoolOk, LinkOf, Close;
    var q, x := DoClose(s, t), s.hands[t].slot;
    CloseChanges(s, t);
    ClosedRecorded(s.k.closes, s.k.socks[x].conn);
    LoopUnchanged(s, q, t);
  }

  lemma CloseChanges(s: State, t: Thread)
    requires Inv(s) && (Holding(s, t, Detached(true)) || Holding(s, t, Serving))
    ensures var k, k', x := s.k, DoClose(s, t).k, s.hands[t].slot;
      && x in k.socks && k'.socks == k.socks && k'.nextConn == k.nextConn && HasSocket(k.socks, k.socks[x].conn)
      && k'.closes == (if k.socks[x].fd == 0 then k.closes else k.closes + [k.socks[x].conn])
      && (forall id :: OpenConn(k'.open, id) <==> OpenConn(k.open, id) && (k.socks[x].fd == 0 || id != k.socks[x].conn))
  {
    hide Refs, PoolOk, Sides;
    HolderOwns(s, t);
    var x := s.hands[t].slot;
    var Sock(fd, conn) := s.k.socks[x];
    CloseWorks(s.k, x);
    if fd != 0 {
      forall id
        ensures OpenConn(s.k.open - {fd}, id) <==> OpenConn(s.k.open, id) && id != conn
      {
        ClosedIsGone(s.k.open, fd, id);
      }
    }
  }

  lemma ClosedRecorded(closes: seq<int>, conn: int)
    ensures forall id :: id in closes + [conn] <==> id in closes || id == conn
  {
  }

  lemma LoopUnchanged(s: State, q: State, t: Thread)
    requires t in s.hands && !s.hands[t].phase.New? && q.loop == s.loop
    requires exists phase: Phase :: !phase.New? && q.hands == s.hands[t := Hand(s.hands[t].slot, phase)]
    ensures forall id :: InLoop(q.loop, q.hands, id) <==> InLoop(s.loop, s.hands, id)
  {
  }

  lemma ClosedIsGone(open: map<int, Holder>, fd: int, id: int)
    requires fd in open && open[fd].Connection?
    requires forall f, g :: f in open && g in open && f != g && open[f].Connection? ==> open[f] != open[g]
    ensures OpenConn(open - {fd}, id) <==> OpenConn(open, id) && id != open[fd].id
  {
    var open' := open - {fd};
    if OpenConn(open, id) && id != open[fd].id {
      var f :| f in open && open[f] == Connection(id);
      assert f in open' && open'[f] == Connection(id);
    }
  }

  lemma ClearQuiet(s: State, t: Thread)
    requires Inv(s) && Holding(s, t, Shut)
    ensures Accounts(s, ClearFd(t), DoClear(s, t))
  {
    hide Refs, PoolOk, InLoop, WorldOk, OpenConn;
    HolderOwns(s, t);
    var q, x := DoClear(s, t), s.hands[t].slot;
    forall id
      ensures HasSocket(q.k.socks, id) <==> HasSocket(s.k.socks, id)
    {
      SameConns(s.k.socks, q.k.socks, id);
      SameConns(q.k.socks, s.k.socks, id);
    }
    LoopUnchanged(s, q, t);
  }

  lemma SameConns(socks: map<Slot, Sock>, socks': map<Slot, Sock>, id: int)
    requires forall y :: y in socks ==> y in socks' && socks'[y].conn == socks[y].conn
    ensures HasSocket(socks, id) ==> HasSocket(socks', id)
  {
    if HasSocket(socks, id) {
      var y :| y in socks && socks[y].conn == id;
      assert y in socks' && socks'[y].conn == id;
    }
  }

  lemma FreeAccounts(s: State, t: Thread)
    requires Inv(s) && Holding(s, t, Wiped)
    ensures Accounts(s, Free(t), DoFree(s, t))
  {
    hide OpenConn, HasSocket, InLoop, WorldOk, RefsOk, PoolOk, LinkOf, DoFree;
    FreeChanges(s, t);
    FreeFate(s, t);
    var x := s.hands[t].slot;
    NotInLoop(s, x);
  }

  lemma FreeFate(s: State, t: Thread)
    requires Inv(s) && Holding(s, t, Wiped)
    ensures var x := s.hands[t].slot;
      && x in s.k.socks && s.k.socks[x].conn >= 0
      && (OpenConn(s.k.open, s.k.socks[x].conn) <==> LinkOf(s.k, x) == Loose(true))
  {
    hide Refs, PoolOk, Sides;
    HolderOwns(s, t);
    var x := s.hands[t].slot;
    if LinkOf(s.k, x) == Loose(true) {
      assert s.k.open[s.k.socks[x].fd] == Connection(s.k.socks[x].conn);
    }
  }

  lemma FreeChanges(s: State, t: Thread)
    requires Inv(s) && Holding(s, t, Wiped)
    ensures var q, x := DoFree(s, t), s.hands[t].slot;
      && x in s.k.socks && q.k == s.k.(socks := q.k.socks)
      && (forall id :: id >= 0 ==> (HasSocket(q.k.socks, id) <==> HasSocket(s.k.socks, id) && id != s.k.socks[x].conn))
      && (forall id :: InLoop(q.loop, q.hands, id) <==> InLoop(s.loop, s.hands, id))
      && HasSocket(s.k.socks, s.k.socks[x].conn)
  {
    hide Refs, PoolOk, LinkOf;
    HolderOwns(s, t);
    var x := s.hands[t].slot;
    DestroyWorks(s.k, x);
    forall id | id >= 0
      ensures HasSocket(s.k.socks - {x}, id) <==> HasSocket(s.k.socks, id) && id != s.k.socks[x].conn
    {
      FreedIsGone(s.k.socks, x, id);
    }
  }

  lemma NotInLoop(s: State, x: Slot)
    requires PendingOk(s.k, s.loop, s.hands) && x in s.k.socks && s.k.socks[x].conn >= 0
    ensures !InLoop(s.loop, s.hands, s.k.socks[x].conn)
  {
  }

  lemma FreedIsGone(socks: map<Slot, Sock>, x: Slot, id: int)
    requires x in socks && id >= 0
    requires forall y, z :: y in socks && z in socks && y != z && socks[y].conn >= 0 ==> socks[y].conn != socks[z].conn
    ensures HasSocket(socks - {x}, id) <==> HasSocket(socks, id) && id != socks[x].conn
  {
    var socks' := socks - {x};
    if HasSocket(socks, id) && id != socks[x].conn {
      var y :| y in socks && socks[y].conn == id;
      assert y in socks' && socks'[y].conn == id;
    }
  }

  lemma ElsewhereQuiet(open: map<int, Holder>, open': map<int, Holder>, id: int)
    requires forall fd :: fd in open && open[fd].Connection? ==> fd in open' && open'[fd] == open[fd]
    ensures OpenConn(open, id) ==> OpenConn(open', id)
  {
    if OpenConn(open, id) {
      var f :| f in open && open[f] == Connection(id);
      assert f in open' && open'[f] == Connection(id);
    }
  }

  lemma EnvAccounts(s: State, step: Step)
    requires Enabled(s, step) && (step.EnvOpen? || step.EnvClose?)
    ensures Accounts(s, step, Exec(s, step))
  {
    hide OpenConn, HasSocket, InLoop;
    var q := Exec(s, step);
    forall id
      ensures OpenConn(q.k.open, id) <==> OpenConn(s.k.open, id)
    {
      ElsewhereQuiet(s.k.open, q.k.open, id);
      ElsewhereQuiet(q.k.open, s.k.open, id);
    }
    QuietAccounts(s, step, q);
  }

  /** The steps that neither open, close, store nor free anything. */
  ghost predicate Plain(step: Step) {
    !(step.AcceptOk? || step.AllocateFull? || step.Allocate? || step.Prepare? || step.CloseFd?
      || step.ClearFd? || step.Free? || step.EnvOpen? || step.EnvClose?)
  }

  ghost predicate SameRecords(k: World, k': World) {
    k'.open == k.open && k'.socks == k.socks && k'.closes == k.closes && k'.nextConn == k.nextConn
  }

  lemma UseRecords(k: World, x: Slot)
    ensures SameRecords(k, Add(k, x)) && SameRecords(k, Del(k, x)) && SameRecords(k, Use(k, x))
    ensures SameRecords(k, Touch(k, x))
  {
  }

  lemma PlainWorld(s: State, step: Step)
    requires Enabled(s, step) && Plain(step)
    ensures SameRecords(s.k, Exec(s, step).k)
  {
    if step.Attach? || step.Detach? || step.Serve? {
      hide Add, Del, Use, Touch;
      var x := s.hands[if step.Serve? then Worker(step.w) else if step.Detach? then EventLoop else step.t].slot;
      UseRecords(s.k, x);
      UseRecords(Touch(s.k, x), x);
    } else {
      hide MoveAll, Events, TP.Exec, TP.Enabled, Add, Del, Use, Touch;
    }
  }

  lemma PlainLoop(s: State, step: Step)
    requires Enabled(s, step) && Plain(step) && LoopOk(s.loop, s.batch, s.hands)
    ensures var q := Exec(s, step);
      forall id :: id >= 0 ==> (InLoop(q.loop, q.hands, id) <==> InLoop(s.loop, s.hands, id))
  {
    hide MoveAll, Events, TP.Exec, TP.Enabled, Add, Del, Use, Disarm, Touch;
  }

  lemma OtherAccounts(s: State, step: Step)
    requires Inv(s) && Enabled(s, step) && Plain(step)
    ensures Accounts(s, step, Exec(s, step))
  {
    hide Exec, Enabled, WorldOk, RefsOk, PoolOk, LoopOk, PendingOk, OpenConn, HasSocket, InLoop;
    PlainWorld(s, step);
    PlainLoop(s, step);
    QuietAccounts(s, step, Exec(s, step));
  }

  lemma StepAccounts(s: State, step: Step)
    requires Inv(s) && Enabled(s, step)
    ensures Accounts(s, step, Exec(s, step))
  {
    hide Accounts, Inv;
    match step {
      case AcceptOk(fd) => AcceptAccounts(s, fd);
      case AllocateFull => FullAccounts(s);
      case Allocate(x) => AllocateQuiet(s, x);
      case Prepare => PrepareAccounts(s);
      case CloseFd(t) => CloseAccounts(s, t);
      case ClearFd(t) => ClearQuiet(s, t);
      case Free(t) => FreeAccounts(s, t);
      case EnvOpen(_) => EnvAccounts(s, step);
      case EnvClose(_) => EnvAccounts(s, step);
      case _ => OtherAccounts(s, step);
    }
  }

  /** Some step of the run leaks the connection. */
  ghost predicate LeakedIn(s: State, steps: seq<Step>, id: int)
    requires ValidRun(s, steps)
    decreases |steps|
  {
    steps != [] && (Leaks(s, steps[0], id) || LeakedIn(Exec(s, steps[0]), steps[1..], id))
  }

  lemma {:induction false} RunAccounts(s: State, steps: seq<Step>, id: int)
    requires Inv(s) && Recorded(s.k) && ValidRun(s, steps) && id >= 0
    ensures Recorded(Run(s, steps).k)
    ensures Leaked(Run(s, steps), id) <==> Leaked(s, id) || LeakedIn(s, steps, id)
    decreases |steps|
  {
    if steps != [] {
      hide Inv, Exec, Enabled, Leaks, Leaked, Recorded;
      StepAccounts(s, steps[0]);
      StepKeepsInv(s, steps[0]);
      RunAccounts(Exec(s, steps[0]), steps[1..], id);
    }
  }

  /** Every accepted connection is either closed, once, or open; an open one is owned by exactly one live
      socket, or is on its way from accept into a socket, or was leaked by a full pool or by removing
      a socket on descriptor 0. */
  lemma FateOfConnection(s0: State, steps: seq<Step>, id: int)
    requires Init(s0) && ValidRun(s0, steps) && 0 <= id < Run(s0, steps).k.nextConn
    ensures var s := Run(s0, steps);
      && OP.NoDuplicates(s.k.closes) && (Closed(s, id) <==> !OpenConn(s.k.open, id))
      && (Leaked(s, id) <==> LeakedIn(s0, steps, id))
      && (HasSocket(s.k.socks, id) ==> !InLoop(s.loop, s.hands, id))
      && (forall x, y :: x in s.k.socks && y in s.k.socks && s.k.socks[x].conn == id == s.k.socks[y].conn ==> x == y)
  {
    InitInv(s0);
    RunKeepsInv(s0, steps);
    RunAccounts(s0, steps, id);
    assert !OpenConn(s0.k.open, id);
    var s := Run(s0, steps);
    if HasSocket(s.k.socks, id) {
      var x :| x in s.k.socks && s.k.socks[x].conn == id;
      NotInLoop(s, x);
    }
  }
}
