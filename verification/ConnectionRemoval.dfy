/** SocketHandler::remove among the other threads: its three steps free the socket and close its
    connection, whatever happens between them. */
module ConnectionRemoval {
  import OP = ObjectPool
  import TP = ThreadPool
  import opened Sockets
  import opened Connection
  import opened ConnectionSafety

  /** A thread is inside remove. */
  ghost predicate Removing(s: State, t: Thread) {
    Holding(s, t, Shut) || Holding(s, t, Wiped)
  }

  /** The hand of the thread, its socket and how that relates to the kernel are as they were. */
  ghost predicate Untouched(s: State, q: State, t: Thread)
    requires t in s.hands && s.hands[t].slot in s.k.socks
  {
    var x := s.hands[t].slot;
    && t in q.hands && q.hands[t] == s.hands[t]
    && x in q.k.socks && q.k.socks[x] == s.k.socks[x] && LinkOf(q.k, x) == LinkOf(s.k, x)
  }

  lemma RemovedIsLive(s: State, t: Thread)
    requires RefsOk(s) && Removing(s, t)
    ensures s.hands[t].slot in s.k.socks && !LinkOf(s.k, s.hands[t].slot).Registered?
  {
    hide LinkOf, RefsOk;
    HolderOwns(s, t);
  }

  ghost predicate OnSocket(step: Step) {
    step.Attach? || step.CloseFd? || step.ClearFd? || step.Free? || step.Prepare? || step.Detach?
  }

  /** The thread that acts on the socket it holds. */
  function Actor(step: Step): Thread
    requires OnSocket(step)
  {
    if step.Prepare? || step.Detach? then EventLoop else step.t
  }

  /** Another holder acts on its own socket. */
  lemma OtherHolder(s: State, q: State, t: Thread, u: Thread)
    requires RefsOk(s) && t in s.hands && u in s.hands && u != t && s.hands[t].slot in s.k.socks
    requires OthersKept(s.k, q.k, s.hands[u].slot)
    requires q.hands == s.hands - {u} || (u in q.hands && q.hands == s.hands[u := q.hands[u]])
    ensures Untouched(s, q, t)
  {
    hide LinkOf, RefsOk;
    HolderOwns(s, t);
    HolderOwns(s, u);
  }

  lemma AnotherActs(s: State, step: Step, t: Thread)
    requires Enabled(s, step) && OnSocket(step) && Removing(s, t) && step != ClearFd(t) && step != Free(t)
    ensures Actor(step) in s.hands && Actor(step) != t
  {
  }

  lemma HolderUntouches(s: State, step: Step, t: Thread)
    requires Inv(s) && Enabled(s, step) && OnSocket(step) && Removing(s, t) && s.hands[t].slot in s.k.socks
    requires step != ClearFd(t) && step != Free(t)
    ensures Untouched(s, Exec(s, step), t)
  {
    hide Exec, Enabled, WorldOk, RefsOk, Sides, PoolOk, LinkOf, OthersKept, Untouched;
    AnotherActs(s, step, t);
    HolderKeepsOthers(s, step);
    HandsOfHolder(s, step);
    OtherHolder(s, Exec(s, step), t, Actor(step));
  }

  lemma HandsOfHolder(s: State, step: Step)
    requires Enabled(s, step) && OnSocket(step)
    ensures var hands', u := Exec(s, step).hands, Actor(step);
      hands' == s.hands - {u} || (u in hands' && hands' == s.hands[u := hands'[u]])
  {
    hide Add, Close, Clear, Destroy, Del, Assign;
  }

  lemma HolderKeepsOthers(s: State, step: Step)
    requires Inv(s) && Enabled(s, step) && OnSocket(step)
    ensures Actor(step) in s.hands && OthersKept(s.k, Exec(s, step).k, s.hands[Actor(step)].slot)
  {
    hide LinkOf, WorldOk, RefsOk, PoolOk, OthersKept, Add, Close, Clear, Destroy, Del, Assign;
    HolderOwns(s, Actor(step));
    var x := s.hands[Actor(step)].slot;
    match step {
      case Attach(_) => if LinkOf(s.k, x) == Refused { AddRefused(s.k, x); } else { AddWorks(s.k, x); }
      case CloseFd(_) => CloseWorks(s.k, x);
      case ClearFd(_) => ClearWorks(s.k, x);
      case Free(_) => DestroyWorks(s.k, x);
      case Prepare => AssignWorks(s.k, x, s.hands[EventLoop].phase.fd, s.hands[EventLoop].phase.conn);
      case Detach => DelWorks(s.k, x);
    }
  }

  /** Steps that change the kernel's records without a hand on a socket object. */
  lemma KernelUntouches(s: State, step: Step, t: Thread)
    requires Inv(s) && Enabled(s, step) && Removing(s, t) && s.hands[t].slot in s.k.socks
    requires step.Wait? || step.AcceptOk? || step.Allocate? || step.EnvOpen? || step.EnvClose?
    ensures Untouched(s, Exec(s, step), t)
  {
    hide LinkOf, WorldOk, RefsOk, PoolOk, Events, MoveAll;
    RemovedIsLive(s, t);
    match step {
      case Wait(fires) => DisarmWorks(s.k, FiredFds(fires));
      case AcceptOk(fd) => AcceptWorks(s.k, fd);
      case Allocate(x) => ConstructWorks(s.k, x);
      case EnvOpen(fd) => OpenElsewhereWorks(s.k, fd);
      case EnvClose(fd) => CloseElsewhereWorks(s.k, fd);
    }
  }

  lemma OtherUntouches(s: State, step: Step, t: Thread)
    requires Inv(s) && Enabled(s, step) && Removing(s, t) && s.hands[t].slot in s.k.socks
    requires !OnSocket(step)
    requires !(step.Wait? || step.AcceptOk? || step.Allocate? || step.EnvOpen? || step.EnvClose?)
    ensures Untouched(s, Exec(s, step), t)
  {
    hide LinkOf, WorldOk, RefsOk, MoveAll, PendingOk, TP.Inv;
    if step.Serve? {
      ServeStep(s, step.w);
    }
  }

  /** No step of the system but the thread's own next one touches a socket that is being removed. */
  lemma StepUntouches(s: State, step: Step, t: Thread)
    requires Inv(s) && Enabled(s, step) && Removing(s, t) && step != ClearFd(t) && step != Free(t)
    ensures s.hands[t].slot in s.k.socks && Untouched(s, Exec(s, step), t)
  {
    hide Exec, Enabled, LinkOf, Untouched, WorldOk, RefsOk, Sides, PoolOk;
    RemovedIsLive(s, t);
    if OnSocket(step) {
      HolderUntouches(s, step, t);
    } else if step.Wait? || step.AcceptOk? || step.Allocate? || step.EnvOpen? || step.EnvClose? {
      KernelUntouches(s, step, t);
    } else {
      OtherUntouches(s, step, t);
    }
  }

  /** Whatever other threads do for however long, the removal finds its socket as it left it. */
  lemma {:induction false} RunUntouches(s: State, steps: seq<Step>, t: Thread)
    requires Inv(s) && ValidRun(s, steps) && Removing(s, t) && ClearFd(t) !in steps && Free(t) !in steps
    ensures s.hands[t].slot in s.k.socks && Inv(Run(s, steps)) && Untouched(s, Run(s, steps), t)
    decreases |steps|
  {
    RemovedIsLive(s, t);
    if steps != [] {
      hide Exec, Enabled, LinkOf, Inv;
      assert steps[0] in steps && forall st :: st in steps[1..] ==> st in steps;
      StepUntouches(s, steps[0], t);
      StepKeepsInv(s, steps[0]);
      RunUntouches(Exec(s, steps[0]), steps[1..], t);
    }
  }

  lemma ClosesFirst(s: State, t: Thread)
    requires Inv(s) && (Holding(s, t, Detached(true)) || Holding(s, t, Serving))
    ensures var x, q := s.hands[t].slot, DoClose(s, t);
      && x in s.k.socks && Inv(q) && Holding(q, t, Shut) && q.hands[t].slot == x && x in q.k.socks
      && q.k.socks[x] == s.k.socks[x] && LinkOf(q.k, x) == (if s.k.socks[x].fd == 0 then Loose(true) else Gone)
  {
    hide LinkOf, WorldOk, RefsOk, Sides, PoolOk, Close;
    HolderOwns(s, t);
    CloseWorks(s.k, s.hands[t].slot);
    CloseStep(s, t);
  }

  lemma ClearsNext(s: State, t: Thread)
    requires Inv(s) && Holding(s, t, Shut)
    ensures var x, q := s.hands[t].slot, DoClear(s, t);
      && x in s.k.socks && Inv(q) && Holding(q, t, Wiped) && q.hands[t].slot == x && x in q.k.socks
      && q.k.socks[x].conn == s.k.socks[x].conn
      && LinkOf(q.k, x) == if LinkOf(s.k, x) == Gone then Cleared else Loose(true)
  {
    hide LinkOf, WorldOk, RefsOk, Sides, PoolOk;
    HolderOwns(s, t);
    ClearWorks(s.k, s.hands[t].slot);
    ClearStep(s, t);
  }

  lemma FreesLast(s: State, t: Thread)
    requires Inv(s) && Holding(s, t, Wiped)
    ensures var x, q := s.hands[t].slot, DoFree(s, t);
      && x in s.k.socks && Inv(q) && t !in q.hands && x !in q.k.socks && x !in q.place
      && s.k.socks[x].conn >= 0 && (s.k.socks[x].conn in q.k.closes <==> LinkOf(s.k, x) == Cleared)
  {
    hide RefsOk, Sides, PoolOk;
    HolderOwns(s, t);
    DestroyWorks(s.k, s.hands[t].slot);
    FreeStep(s, t);
  }

  /** The object is free, and its connection has been closed, once, unless it was on descriptor 0. */
  ghost predicate Freed(s: State, t: Thread, q: State) {
    && t in s.hands
    && var x := s.hands[t].slot;
    && x in s.k.socks && t !in q.hands && x !in q.k.socks && x !in q.place
    && OP.NoDuplicates(q.k.closes) && (s.k.socks[x].conn in q.k.closes <==> s.k.socks[x].fd != 0)
  }

  /** remove closes, clears and frees, with any steps of other threads in between: then the object is
      free, and its connection has been closed, once, exactly when it was not on descriptor 0. */
  lemma RemovalCompletes(s: State, t: Thread, before: seq<Step>, between: seq<Step>)
    requires Inv(s) && (Holding(s, t, Detached(true)) || Holding(s, t, Serving))
    requires ValidRun(DoClose(s, t), before) && ClearFd(t) !in before && Free(t) !in before
    requires var s2 := Run(DoClose(s, t), before);
      Holding(s2, t, Shut) ==> ValidRun(DoClear(s2, t), between) && ClearFd(t) !in between && Free(t) !in between
    ensures Holding(Run(DoClose(s, t), before), t, Shut)
    ensures var s2 := Run(DoClose(s, t), before);
      var s4 := Run(DoClear(s2, t), between);
      && Holding(s4, t, Wiped) && Freed(s, t, DoFree(s4, t))
  {
    hide Exec, Enabled, LinkOf, DoClose, DoClear, DoFree, WorldOk, RefsOk, Sides, PoolOk;
    ClosesFirst(s, t);
    var s1 := DoClose(s, t);
    RunUntouches(s1, before, t);
    var s2 := Run(s1, before);
    ClearsNext(s2, t);
    var s3 := DoClear(s2, t);
    RunUntouches(s3, between, t);
    var s4 := Run(s3, between);
    FreesLast(s4, t);
    ClosedOnce(DoFree(s4, t));
  }

  lemma ClosedOnce(s: State)
    requires Inv(s)
    ensures OP.NoDuplicates(s.k.closes)
  {
  }
}
