/** What the connection protocol guarantees over every run and every interleaving. */
module ConnectionSafety {
  import OP = ObjectPool
  import TP = ThreadPool
  import opened Sockets
  import opened Connection

  // Every step keeps the invariant.

  lemma NotifyStep(s: State, w: nat)
    requires Inv(s) && Enabled(s, Step.NotifyOne(w))
    ensures var q := Exec(s, Step.NotifyOne(w)); Inv(q) && Steady(s, q)
  {
    hide LinkOf, WorldOk, Refs, TP.Inv;
    TP.StepKeepsInv(s.pool, TP.Step<Slot>.NotifyOne(w));
    assert Worker(w) !in s.hands;
  }

  lemma NotifyNobodyStep(s: State)
    requires Inv(s) && Enabled(s, Step.NotifyNobody)
    ensures var q := Exec(s, Step.NotifyNobody); Inv(q) && Steady(s, q)
  {
    hide LinkOf, WorldOk, Refs, TP.Inv;
    TP.StepKeepsInv(s.pool, TP.Step<Slot>.NotifyNobody);
  }

  lemma WakeStep(s: State, w: nat)
    requires Inv(s) && Enabled(s, Step.SpuriousWake(w))
    ensures var q := Exec(s, Step.SpuriousWake(w)); Inv(q) && Steady(s, q)
  {
    hide LinkOf, WorldOk, Refs, PendingOk, TP.Inv;
    TP.StepKeepsInv(s.pool, TP.Step<Slot>.SpuriousWake(w));
    assert Worker(w) !in s.hands;
  }

  lemma ReturnStep(s: State, w: nat)
    requires Inv(s) && Enabled(s, Return(w))
    ensures var q := Exec(s, Return(w)); Inv(q) && Steady(s, q)
  {
    hide LinkOf, WorldOk, Refs, PendingOk, TP.Inv;
    TP.StepKeepsInv(s.pool, TP.Step<Slot>.Finish(w));
  }

  lemma ServeStep(s: State, w: nat)
    requires RefsOk(s) && Holding(s, Worker(w), Serving)
    ensures var x := s.hands[Worker(w)].slot; Use(Touch(s.k, x), x) == s.k
  {
    HolderOwns(s, Worker(w));
  }

  lemma AcceptFailStep(s: State)
    requires Inv(s) && Enabled(s, AcceptFail)
    ensures var q := Exec(s, AcceptFail); Inv(q) && Steady(s, q)
  {
    BatchShrinks(s.place, s.batch, Abandoned);
  }

  /** Descriptors of the rest of the program come and go without touching a connection. */
  lemma ElsewhereStep(s: State, k': World)
    requires RefsOk(s) && Sides(s) && k' == s.k.(open := k'.open)
    requires forall f :: f in s.k.open && s.k.open[f].Connection? ==> f in k'.open && k'.open[f] == s.k.open[f]
    requires forall y :: y in s.k.socks ==> LinkOf(k', y) == LinkOf(s.k, y)
    ensures var q := s.(k := k'); RefsOk(q) && Sides(q) && Steady(s, q)
  {
    forall x | x in k'.socks && x in s.place ensures PlaceFits(s.place[x], s.hands, x, LinkOf(k', x)) {
      assert PlaceFits(s.place[x], s.hands, x, LinkOf(s.k, x));
    }
  }

  lemma EnvOpenStep(s: State, fd: int)
    requires Inv(s) && fd >= 0 && fd !in s.k.open
    ensures var q := s.(k := OpenElsewhere(s.k, fd)); Inv(q) && Steady(s, q)
  {
    OpenElsewhereWorks(s.k, fd);
    ElsewhereStep(s, OpenElsewhere(s.k, fd));
  }

  lemma EnvCloseStep(s: State, fd: int)
    requires Inv(s) && fd in s.k.open && s.k.open[fd] == Foreign
    ensures var q := s.(k := CloseElsewhere(s.k, fd)); Inv(q) && Steady(s, q)
  {
    CloseElsewhereWorks(s.k, fd);
    ElsewhereStep(s, CloseElsewhere(s.k, fd));
  }

  /** A thread may attach or remove only what it holds, and then the link is in order. */
  lemma HolderStep(s: State, step: Step)
    requires Inv(s) && Enabled(s, step)
    requires step.Attach? || step.CloseFd? || step.ClearFd? || step.Free?
    ensures Inv(Exec(s, step)) && Steady(s, Exec(s, step))
  {
    hide LinkOf, WorldOk, Refs, Sides, PoolOk, Steady;
    match step {
      case Attach(t) => HolderOwns(s, t); AttachStep(s, t);
      case CloseFd(t) => CloseStep(s, t);
      case ClearFd(t) => ClearStep(s, t);
      case Free(t) => FreeStep(s, t);
    }
  }

  lemma EndBatchStep(s: State)
    requires Inv(s) && Enabled(s, EndBatch)
    ensures var q := Exec(s, EndBatch); Inv(q) && Steady(s, q)
  {
    hide LinkOf, WorldOk, Refs, TP.Inv;
  }

  /** The event loop's own steps. */
  lemma LoopStep(s: State, step: Step)
    requires Inv(s) && Enabled(s, step)
    requires step.Wait? || step.EndBatch? || step.AcceptOk? || step.AcceptFail? || step.AllocateFull?
          || step.Allocate? || step.Prepare? || step.TakeReady? || step.Detach? || step.Push?
    ensures Inv(Exec(s, step)) && Steady(s, Exec(s, step))
  {
    hide LinkOf, WorldOk, Refs, Sides, PoolOk, Steady;
    match step {
      case Wait(fires) => WaitStep(s, fires);
      case EndBatch => EndBatchStep(s);
      case AcceptOk(fd) => AcceptStep(s, fd);
      case AcceptFail => AcceptFailStep(s);
      case AllocateFull => AllocateFullStep(s);
      case Allocate(x) => AllocateStep(s, x);
      case Prepare => PrepareStep(s);
      case TakeReady => TakeReadyStep(s);
      case Detach => DetachStep(s);
      case Push => PushStep(s);
    }
  }

  /** The steps that move the worker pool alone, and the acts of the workers on it. */
  lemma PoolStep(s: State, step: Step)
    requires Inv(s) && Enabled(s, step)
    requires step.NotifyOne? || step.NotifyNobody? || step.Acquire? || step.SpuriousWake? || step.Throw? || step.Return?
    ensures Inv(Exec(s, step)) && Steady(s, Exec(s, step))
  {
    hide LinkOf, WorldOk, Refs, Sides, PoolOk, Steady;
    match step {
      case NotifyOne(w) => NotifyStep(s, w);
      case NotifyNobody => NotifyNobodyStep(s);
      case Acquire(w) => AcquireStep(s, w);
      case SpuriousWake(w) => WakeStep(s, w);
      case Throw(w) => ThrowStep(s, w);
      case Return(w) => ReturnStep(s, w);
    }
  }

  lemma StepKeepsInv(s: State, step: Step)
    requires Inv(s) && Enabled(s, step)
    ensures Inv(Exec(s, step)) && Steady(s, Exec(s, step))
  {
    if step.Attach? || step.CloseFd? || step.ClearFd? || step.Free? {
      HolderStep(s, step);
    } else if step.NotifyOne? || step.NotifyNobody? || step.Acquire? || step.SpuriousWake? || step.Throw?
           || step.Return? {
      PoolStep(s, step);
    } else if step.Serve? {
      ServeStep(s, step.w);
    } else if step.EnvOpen? {
      EnvOpenStep(s, step.fd);
    } else if step.EnvClose? {
      EnvCloseStep(s, step.fd);
    } else {
      LoopStep(s, step);
    }
  }

  // Runs.

  ghost predicate ValidRun(s: State, steps: seq<Step>)
    decreases |steps|
  {
    steps == [] || (Enabled(s, steps[0]) && ValidRun(Exec(s, steps[0]), steps[1..]))
  }

  ghost function Run(s: State, steps: seq<Step>): State
    requires ValidRun(s, steps)
    decreases |steps|
  {
    if steps == [] then s else Run(Exec(s, steps[0]), steps[1..])
  }

  lemma {:induction false} RunKeepsInv(s: State, steps: seq<Step>)
    requires Inv(s) && ValidRun(s, steps)
    ensures Inv(Run(s, steps)) && Steady(s, Run(s, steps))
    decreases |steps|
  {
    if steps != [] {
      StepKeepsInv(s, steps[0]);
      RunKeepsInv(Exec(s, steps[0]), steps[1..]);
    }
  }

  // Exclusive ownership.

  /** A way to reach a socket object: an armed interest, an event of the current batch, an entry
      of the task queue, or a thread that is working on it. */
  datatype Reference = ByInterest(fd: int) | ByEvent(i: int) | ByQueue(i: int) | ByThread(t: Thread)

  ghost function References(s: State, x: Slot): set<Reference> {
    (set fd | fd in s.k.epoll && s.k.epoll[fd] == Interest(x, true) :: ByInterest(fd))
    + (set i | 0 <= i < |s.batch| && s.batch[i].Ready? && s.batch[i].slot == x :: ByEvent(i))
    + (set i | 0 <= i < |s.pool.tasks| && s.pool.tasks[i] == x :: ByQueue(i))
    + (set t | t in s.hands && s.hands[t].slot == x :: ByThread(t))
  }

  /** In every reachable state a live socket is reachable in exactly one way, or is abandoned and
      reachable in none; an object that is not live is not reachable at all. */
  lemma ExactlyOnePlace(s0: State, steps: seq<Step>, x: Slot)
    requires Init(s0) && ValidRun(s0, steps)
    ensures var s := Run(s0, steps);
      && (x in s.k.socks <==> x in s.place)
      && |References(s, x)| == if x in s.place && s.place[x] != Abandoned then 1 else 0
  {
    InitInv(s0);
    RunKeepsInv(s0, steps);
    var s := Run(s0, steps);
    var r := ReferencesOf(s, x);
    assert References(s, x) == r;
  }

  lemma ReferencesOf(s: State, x: Slot) returns (r: set<Reference>)
    requires Inv(s)
    ensures References(s, x) == r
    ensures |r| == if x in s.place && s.place[x] != Abandoned then 1 else 0
  {
    OnlyReference(s, x);
    if x !in s.place || s.place[x] == Abandoned {
      r := {};
      assert forall ref :: ref in References(s, x) ==> false;
    } else {
      var ref := TheReference(s, x);
      r := {ref};
      assert forall other :: other in References(s, x) ==> other == ref;
      assert References(s, x) == {ref};
    }
  }

  /** The kind of place fixes the kind of reference. */
  ghost predicate Matches(s: State, ref: Reference, x: Slot) {
    x in s.place && x in s.k.socks &&
    match s.place[x]
    case Armed => ref == ByInterest(s.k.socks[x].fd)
    case Fired => ref.ByEvent? && 0 <= ref.i < |s.batch| && s.batch[ref.i].Ready? && s.batch[ref.i].slot == x
    case Queued => ref.ByQueue? && 0 <= ref.i < |s.pool.tasks| && s.pool.tasks[ref.i] == x
    case Held(t) => ref == ByThread(t)
    case Abandoned => false
  }

  lemma OnlyInterest(s: State, x: Slot, fd: int)
    requires WorldOk(s.k) && RefsOk(s) && fd in s.k.epoll && s.k.epoll[fd] == Interest(x, true)
    ensures Matches(s, ByInterest(fd), x)
  {
    assert LinkOf(s.k, x) == Registered(true);
    assert PlaceFits(s.place[x], s.hands, x, LinkOf(s.k, x));
  }

  lemma OnlyOther(s: State, x: Slot, ref: Reference)
    requires RefsOk(s) && ref in References(s, x) && !ref.ByInterest?
    ensures Matches(s, ref, x)
  {
    hide LinkOf, PlaceFits;
  }

  lemma OnlyReference(s: State, x: Slot)
    requires WorldOk(s.k) && RefsOk(s)
    ensures forall ref :: ref in References(s, x) ==> Matches(s, ref, x)
  {
    forall ref | ref in References(s, x)
      ensures Matches(s, ref, x)
    {
      hide WorldOk, RefsOk, Matches;
      if ref.ByInterest? {
        OnlyInterest(s, x, ref.fd);
      } else {
        OnlyOther(s, x, ref);
      }
    }
  }

  lemma TheReference(s: State, x: Slot) returns (ref: Reference)
    requires WorldOk(s.k) && RefsOk(s) && x in s.place && s.place[x] != Abandoned
    ensures ref in References(s, x)
    ensures forall other :: Matches(s, other, x) ==> other == ref
  {
    assert PlaceFits(s.place[x], s.hands, x, LinkOf(s.k, x));
    match s.place[x] {
      case Armed => ref := ByInterest(s.k.socks[x].fd);
      case Fired =>
        var i :| 0 <= i < |s.batch| && s.batch[i].Ready? && s.batch[i].slot == x;
        ref := ByEvent(i);
      case Queued =>
        var i :| 0 <= i < |s.pool.tasks| && s.pool.tasks[i] == x;
        ref := ByQueue(i);
      case Held(t) => ref := ByThread(t);
    }
  }

  lemma HeldAlone(s: State, t: Thread)
    requires WorldOk(s.k) && RefsOk(s) && t in s.hands
    ensures References(s, s.hands[t].slot) == {ByThread(t)}
  {
    var x := s.hands[t].slot;
    HolderOwns(s, t);
    OnlyReference(s, x);
    assert ByThread(t) in References(s, x);
  }

  /** No two threads ever work on one socket, and nothing else can reach it meanwhile. */
  lemma NoSharedSocket(s0: State, steps: seq<Step>, t: Thread, u: Thread)
    requires Init(s0) && ValidRun(s0, steps)
    requires var s := Run(s0, steps); t in s.hands && u in s.hands && s.hands[t].slot == s.hands[u].slot
    ensures t == u
    ensures var s := Run(s0, steps); References(s, s.hands[t].slot) == {ByThread(t)}
  {
    InitInv(s0);
    RunKeepsInv(s0, steps);
    HeldAlone(Run(s0, steps), t);
    HeldAlone(Run(s0, steps), u);
    assert ByThread(u) in {ByThread(t)};
  }

  lemma ThreadReference(s: State, x: Slot, u: Thread)
    ensures ByThread(u) in References(s, x) <==> u in s.hands && s.hands[u].slot == x
  {
  }

  lemma NobodyHolds(s: State, t: Thread, u: Thread)
    requires RefsOk(s) && t in s.hands
    ensures !(u in DoAttach(s, t).hands && DoAttach(s, t).hands[u].slot == s.hands[t].slot)
  {
    hide LinkOf, RefsOk, Add;
    HolderOwns(s, t);
  }

  /** A thread that has attached a socket has no way left to reach it, and no other thread has one. */
  lemma AttachLetsGo(s0: State, steps: seq<Step>, t: Thread)
    requires Init(s0) && ValidRun(s0, steps) && Enabled(Run(s0, steps), Attach(t))
    ensures var s := Run(s0, steps); var q := Exec(s, Attach(t));
      t !in q.hands && forall u :: ByThread(u) !in References(q, s.hands[t].slot)
  {
    hide References, Init, ValidRun, Run, RefsOk, WorldOk, Sides, PoolOk, Add, LinkOf;
    InitInv(s0);
    RunKeepsInv(s0, steps);
    var s := Run(s0, steps);
    forall u
      ensures ByThread(u) !in References(DoAttach(s, t), s.hands[t].slot)
    {
      ThreadReference(DoAttach(s, t), s.hands[t].slot, u);
      NobodyHolds(s, t, u);
    }
  }

  // No misuse.

  ghost predicate NoRefusals(socks: map<Slot, Sock>) {
    forall x :: x in socks ==> socks[x].fd != -1
  }

  ghost predicate NothingRefused(loop: Control, hands: map<Thread, Hand>) {
    && (loop.Accepted? ==> loop.fd != -1)
    && (EventLoop in hands && hands[EventLoop].phase.New? ==> hands[EventLoop].phase.fd != -1)
  }

  ghost predicate NoFailedAccept(s: State) {
    NoRefusals(s.k.socks) && NothingRefused(s.loop, s.hands)
  }

  lemma StepWithoutFailure(s: State, step: Step)
    requires NoFailedAccept(s) && Enabled(s, step) && step != AcceptFail
    ensures NoFailedAccept(Exec(s, step))
  {
    if step.Prepare? {
      PrepareWithoutFailure(s);
    } else if step.ClearFd? || step.Free? {
      RemoveWithoutFailure(s, step);
    } else if step.CloseFd? || step.Attach? || step.Detach? || step.Serve? {
      SocksKept(s, step);
    } else {
      OtherWithoutFailure(s, step);
    }
  }

  lemma PrepareWithoutFailure(s: State)
    requires NoFailedAccept(s) && Enabled(s, Prepare)
    ensures NoFailedAccept(DoPrepare(s))
  {
  }

  lemma RemoveWithoutFailure(s: State, step: Step)
    requires NoFailedAccept(s) && Enabled(s, step) && (step.ClearFd? || step.Free?)
    ensures NoFailedAccept(Exec(s, step))
  {
    var x := s.hands[step.t].slot;
    if step.ClearFd? {
      assert NoRefusals(Clear(Touch(s.k, x), x).socks);
    } else {
      assert NoRefusals(Destroy(s.k, x).socks);
    }
  }

  lemma SocksKept(s: State, step: Step)
    requires NoFailedAccept(s) && Enabled(s, step) && (step.CloseFd? || step.Attach? || step.Detach? || step.Serve?)
    ensures NoFailedAccept(Exec(s, step))
  {
    hide Add, Close, Del, Use;
    var x := s.hands[if step.Serve? then Worker(step.w) else if step.Detach? then EventLoop else step.t].slot;
    SameObjects(Touch(s.k, x), x);
  }

  lemma SameObjects(k: World, x: Slot)
    ensures Add(k, x).socks == k.socks && Close(k, x).socks == k.socks && Del(k, x).socks == k.socks
    ensures Use(k, x).socks == k.socks
  {
  }

  lemma OtherWithoutFailure(s: State, step: Step)
    requires NoFailedAccept(s) && Enabled(s, step) && step != AcceptFail
    requires !(step.Prepare? || step.ClearFd? || step.Free? || step.CloseFd? || step.Attach? || step.Detach?
            || step.Serve?)
    ensures NoFailedAccept(Exec(s, step))
  {
  }

  /** A thread attaches a socket whose accept had failed. */
  ghost predicate AttachesNow(s: State, step: Step) {
    && step.Attach? && step.t in s.hands && s.hands[step.t].slot in s.k.socks
    && LinkOf(s.k, s.hands[step.t].slot) == Refused
  }

  /** That is the one fault a step can commit. */
  lemma StepFaults(s: State, step: Step)
    requires WorldOk(s.k) && RefsOk(s) && Enabled(s, step)
    ensures Exec(s, step).k.faults == s.k.faults + if AttachesNow(s, step) then {AddBadDescriptor} else {}
  {
    if step.Attach? {
      AttachFaults(s, step.t);
    } else if step.CloseFd? || step.ClearFd? || step.Free? || step.Prepare? || step.Detach? {
      HolderStepFaults(s, step);
    } else if step.Serve? {
      ServeStep(s, step.w);
    } else {
      OtherFaults(s, step);
    }
  }

  lemma OtherFaults(s: State, step: Step)
    requires Enabled(s, step)
    requires !(step.Attach? || step.CloseFd? || step.ClearFd? || step.Free? || step.Prepare? || step.Detach?
            || step.Serve?)
    ensures Exec(s, step).k.faults == s.k.faults
  {
    hide MoveAll, Events, TP.Exec, TP.Enabled;
  }

  lemma AttachFaults(s: State, t: Thread)
    requires WorldOk(s.k) && RefsOk(s) && Enabled(s, Attach(t))
    ensures DoAttach(s, t).k.faults == s.k.faults + if AttachesNow(s, Attach(t)) then {AddBadDescriptor} else {}
  {
    hide LinkOf, WorldOk, RefsOk, Add;
    HolderOwns(s, t);
    var x := s.hands[t].slot;
    if LinkOf(s.k, x) == Refused {
      AddRefused(s.k, x);
    } else {
      AddWorks(s.k, x);
    }
  }

  lemma HolderStepFaults(s: State, step: Step)
    requires WorldOk(s.k) && RefsOk(s) && Enabled(s, step)
    requires step.CloseFd? || step.ClearFd? || step.Free? || step.Prepare? || step.Detach?
    ensures Exec(s, step).k.faults == s.k.faults
  {
    hide LinkOf, WorldOk, RefsOk;
    match step {
      case CloseFd(t) => HolderFaults(s, t);
      case ClearFd(t) => HolderFaults(s, t);
      case Free(t) => HolderFaults(s, t);
      case Prepare => HolderFaults(s, EventLoop);
      case Detach => HolderFaults(s, EventLoop);
    }
  }

  /** What the holder of a socket does to it is never a misuse. */
  lemma HolderFaults(s: State, t: Thread)
    requires WorldOk(s.k) && RefsOk(s) && t in s.hands
    ensures var Hand(x, phase) := s.hands[t];
      && x in s.k.socks
      && (phase in {Serving, Detached(true)} ==> Close(s.k, x).faults == s.k.faults)
      && (phase == Shut ==> Clear(s.k, x).faults == s.k.faults)
      && (phase == Wiped ==> Destroy(s.k, x).faults == s.k.faults)
      && (phase.Picked? ==> Del(s.k, x).faults == s.k.faults)
  {
    hide LinkOf, WorldOk, RefsOk, Close, Destroy, Del;
    var Hand(x, phase) := s.hands[t];
    HolderOwns(s, t);
    if LinkOf(s.k, x).Loose? { CloseWorks(s.k, x); }
    if phase.Picked? { DelWorks(s.k, x); }
    if phase == Wiped { DestroyWorks(s.k, x); }
  }

  lemma AttachIsClean(s: State, step: Step)
    requires NoFailedAccept(s)
    ensures !AttachesNow(s, step)
  {
  }

  lemma CleanStep(s: State, step: Step)
    requires WorldOk(s.k) && RefsOk(s) && NoFailedAccept(s) && s.k.faults == {}
    requires Enabled(s, step) && step != AcceptFail
    ensures NoFailedAccept(Exec(s, step)) && Exec(s, step).k.faults == {}
  {
    hide Exec, WorldOk, RefsOk, NoFailedAccept;
    StepWithoutFailure(s, step);
    StepFaults(s, step);
    AttachIsClean(s, step);
  }

  /** In a run whose accepts succeed, no descriptor is added to epoll twice or removed when absent,
      no connection is closed twice, while registered or on behalf of another socket, no socket is
      used or freed when it is not live. */
  lemma {:induction false} NoMisuse(s: State, steps: seq<Step>)
    requires Inv(s) && NoFailedAccept(s) && s.k.faults == {} && ValidRun(s, steps)
    requires AcceptFail !in steps
    ensures Run(s, steps).k.faults == {}
    decreases |steps|
  {
    if steps != [] {
      hide Exec, Enabled;
      assert steps[0] in steps && forall st :: st in steps[1..] ==> st in steps;
      StepKeepsInv(s, steps[0]);
      CleanStep(s, steps[0]);
      NoMisuse(Exec(s, steps[0]), steps[1..]);
    }
  }

  /** Somewhere in the run a socket whose accept had failed is attached. */
  ghost predicate AttachesRefused(s: State, steps: seq<Step>)
    requires ValidRun(s, steps)
    decreases |steps|
  {
    steps != [] && (AttachesNow(s, steps[0]) || AttachesRefused(Exec(s, steps[0]), steps[1..]))
  }

  lemma FaultsOfStep(s: State, step: Step)
    requires Inv(s) && Enabled(s, step)
    ensures Exec(s, step).k.faults == s.k.faults + if AttachesNow(s, step) then {AddBadDescriptor} else {}
  {
    hide Exec, AttachesNow, WorldOk, RefsOk;
    StepFaults(s, step);
  }

  lemma {:induction false} FaultsExactly(s: State, steps: seq<Step>)
    requires Inv(s) && ValidRun(s, steps)
    ensures Run(s, steps).k.faults == s.k.faults + if AttachesRefused(s, steps) then {AddBadDescriptor} else {}
    decreases |steps|
  {
    if steps != [] {
      hide Exec, Enabled, AttachesNow, Inv;
      FaultsOfStep(s, steps[0]);
      StepKeepsInv(s, steps[0]);
      FaultsExactly(Exec(s, steps[0]), steps[1..]);
    }
  }

  /** A run misuses a descriptor exactly when it attaches a socket whose accept had failed, and then
      the one misuse is to add descriptor -1; a run whose accepts all succeed misuses none. */
  lemma NoMisuseFromStart(s0: State, steps: seq<Step>)
    requires Init(s0) && ValidRun(s0, steps)
    ensures Run(s0, steps).k.faults == {} <==> !AttachesRefused(s0, steps)
    ensures Run(s0, steps).k.faults <= {AddBadDescriptor}
    ensures AcceptFail !in steps ==> !AttachesRefused(s0, steps)
  {
    InitInv(s0);
    FaultsExactly(s0, steps);
    if AcceptFail !in steps { NoMisuse(s0, steps); }
  }

  // Descriptors.

  /** Live sockets that hold an open connection hold different descriptors, no connection is closed
      twice, a closed one is never open again, and every interest is in a live socket's descriptor. */
  lemma DescriptorsInOrder(s0: State, steps: seq<Step>)
    requires Init(s0) && ValidRun(s0, steps)
    ensures var k := Run(s0, steps).k;
      && (forall x, y :: x in k.socks && y in k.socks && x != y && Owns(k.socks, k.open, x) && Owns(k.socks, k.open, y)
            ==> k.socks[x].fd != k.socks[y].fd)
      && OP.NoDuplicates(k.closes)
      && (forall fd :: fd in k.open && k.open[fd].Connection? ==> k.open[fd].id !in k.closes)
      && (forall fd :: fd in k.epoll ==> k.epoll[fd].slot in k.socks && k.socks[k.epoll[fd].slot].fd == fd)
  {
    InitInv(s0);
    RunKeepsInv(s0, steps);
  }

  /** A socket that is waiting, queued or being served holds its own open connection. */
  lemma WorkingSocketsAreConnected(s0: State, steps: seq<Step>, x: Slot)
    requires Init(s0) && ValidRun(s0, steps)
    requires var s := Run(s0, steps); x in s.place && InUse(s, s.place[x])
    ensures var k := Run(s0, steps).k; x in k.socks && Owns(k.socks, k.open, x)
  {
    InitInv(s0);
    RunKeepsInv(s0, steps);
    LinkFollowsPlace(Run(s0, steps), x);
  }

  ghost predicate InUse(s: State, p: Place) {
    p in {Armed, Fired, Queued} || (p.Held? && Holding(s, p.thread, Serving))
  }

  lemma LinkFollowsPlace(s: State, x: Slot)
    requires Placed(s.k, s.place, s.hands) && x in s.place && InUse(s, s.place[x])
    ensures x in s.k.socks && Owns(s.k.socks, s.k.open, x)
  {
    assert PlaceFits(s.place[x], s.hands, x, LinkOf(s.k, x));
  }

  // Leaks and limits.

  /** An abandoned socket is never taken up again: whatever follows, its object stays live and its
      descriptor stays open, so it uses up one connection for good. */
  lemma AbandonedForever(s0: State, before: seq<Step>, after: seq<Step>, x: Slot)
    requires Init(s0) && ValidRun(s0, before) && ValidRun(Run(s0, before), after)
    requires var s := Run(s0, before); x in s.place && s.place[x] == Abandoned
    ensures var s := Run(s0, before); var q := Run(s, after);
      && x in s.k.socks && x in q.k.socks && x in q.place && q.place[x] == Abandoned
      && LinkOf(q.k, x) == LinkOf(s.k, x)
      && References(q, x) == {}
  {
    InitInv(s0);
    RunKeepsInv(s0, before);
    RunKeepsInv(Run(s0, before), after);
    var q := Run(Run(s0, before), after);
    OnlyReference(q, x);
    assert forall ref :: ref in References(q, x) ==> false;
  }

  /** The three ways to lose a socket: the pool is full while events of the batch are left, a task ends
      by an exception, or a failed accept is attached. */
  ghost predicate Abandons(s: State, step: Step, x: Slot) {
    && x in s.place && x in s.k.socks
    && match step
       case AllocateFull => s.place[x] == Fired
       case Throw(w) => s.place[x] == Held(Worker(w))
       case Attach(t) => s.place[x] == Held(t) && LinkOf(s.k, x) == Refused
       case _ => false
  }

  /** A step abandons a socket exactly in these ways. */
  lemma WhatAbandons(s: State, step: Step, x: Slot)
    requires WorldOk(s.k) && RefsOk(s) && Enabled(s, step) && (x in s.place ==> s.place[x] != Abandoned)
    ensures x in Exec(s, step).place && Exec(s, step).place[x] == Abandoned <==> Abandons(s, step, x)
  {
    if step.Attach? {
      AttachAbandons(s, step.t, x);
    } else if step.Throw? {
      ThrowAbandons(s, step.w, x);
    } else if step.AllocateFull? {
      FullAbandons(s, x);
    } else if step.TakeReady? {
      EventKeeps(s, x);
    } else {
      NothingElseAbandons(s, step, x);
    }
  }

  lemma AttachAbandons(s: State, t: Thread, x: Slot)
    requires WorldOk(s.k) && RefsOk(s) && Enabled(s, Attach(t)) && (x in s.place ==> s.place[x] != Abandoned)
    ensures x in DoAttach(s, t).place && DoAttach(s, t).place[x] == Abandoned <==> Abandons(s, Attach(t), x)
  {
    hide LinkOf, WorldOk, RefsOk, Add;
    HolderOwns(s, t);
    var y := s.hands[t].slot;
    if LinkOf(s.k, y) == Refused {
      AddRefused(s.k, y);
    } else {
      AddWorks(s.k, y);
    }
    if x in s.place && s.place[x] == Held(t) {
      HeldBy(s, t, x);
    }
  }

  lemma HeldBy(s: State, t: Thread, x: Slot)
    requires RefsOk(s) && x in s.place && s.place[x] == Held(t)
    ensures t in s.hands && s.hands[t].slot == x
  {
    assert PlaceFits(s.place[x], s.hands, x, LinkOf(s.k, x));
  }

  lemma ThrowAbandons(s: State, w: nat, x: Slot)
    requires RefsOk(s) && Enabled(s, Throw(w)) && (x in s.place ==> s.place[x] != Abandoned)
    ensures x in DoThrow(s, w).place && DoThrow(s, w).place[x] == Abandoned <==> Abandons(s, Throw(w), x)
  {
    hide LinkOf, RefsOk;
    HolderOwns(s, Worker(w));
    if x in s.place && s.place[x] == Held(Worker(w)) {
      HeldBy(s, Worker(w), x);
    }
  }

  lemma FullAbandons(s: State, x: Slot)
    requires RefsOk(s) && (x in s.place ==> s.place[x] != Abandoned)
    ensures x in DoAllocateFull(s).place && DoAllocateFull(s).place[x] == Abandoned <==> Abandons(s, AllocateFull, x)
  {
    if x in FiredSlots(s.batch) {
      SweptWasFired(s.place, s.batch, x);
    }
  }

  lemma EventKeeps(s: State, x: Slot)
    requires RefsOk(s) && Enabled(s, TakeReady) && (x in s.place ==> s.place[x] != Abandoned)
    ensures !(x in DoTakeReady(s).place && DoTakeReady(s).place[x] == Abandoned)
  {
    assert s.place[s.batch[0].slot] == Fired;
  }

  lemma NothingElseAbandons(s: State, step: Step, x: Slot)
    requires Enabled(s, step) && (x in s.place ==> s.place[x] != Abandoned)
    requires !step.Attach? && !step.Throw? && !step.AllocateFull? && !step.TakeReady?
    ensures !(x in Exec(s, step).place && Exec(s, step).place[x] == Abandoned)
  {
    hide Disarm, Events, TP.Exec, TP.Enabled, Close, Clear, Destroy;
  }

  lemma SweptWasFired(place: map<Slot, Place>, batch: seq<Event>, x: Slot)
    requires BatchKnown(place, batch) && x in FiredSlots(batch)
    ensures x in place && place[x] == Fired
  {
  }

  lemma ConnectionLimit(s0: State, steps: seq<Step>)
    requires Init(s0) && ValidRun(s0, steps)
    ensures |Run(s0, steps).k.socks| <= Run(s0, steps).cap
  {
    InitInv(s0);
    RunKeepsInv(s0, steps);
    var k := Run(s0, steps).k;
    assert |k.socks| == |k.socks.Keys|;
  }

  // The pool under the protocol.

  /** Fired sockets are served in the order in which they were queued, and none waits while every
      worker sleeps and no notification is due. */
  lemma QueuedSocketsAreServed(s0: State, steps: seq<Step>)
    requires Init(s0) && ValidRun(s0, steps)
    ensures var s := Run(s0, steps); var p := s.pool;
      && p.accepted == p.started + p.tasks
      && (TP.SomeAsleep(p.workers) ==> |p.tasks| <= (if s.loop == Pushed then 1 else 0) + TP.AwakeCount(p.workers))
  {
    InitInv(s0);
    RunKeepsInv(s0, steps);
  }
}
