/** The worker pool of src/thread/thread_pool.cpp and src/include/thread/thread_pool.h.

    Every section that runs under `queue_mutex_` is one atomic step; `notify_one` and
    `notify_all` run outside the lock and are steps of their own, so any other thread may
    run between a push and its notification.  Waking without a notification is always
    allowed. */
module ThreadPool {

  /** What a worker thread is doing.  `Awake` covers every point at which it is about to take
      the lock: freshly spawned, woken from the condition, or done with a task. */
  datatype Worker<T> = Awake | Asleep | Running(task: T) | Exited

  datatype Pool<T> = Pool(
    tasks: seq<T>,              // tasks_
    stop: bool,                 // stop_
    workers: seq<Worker<T>>,    // workers_
    unnotified: nat,            // pushes whose notify_one has not run yet
    notifyAllDue: bool,         // the destructor has set stop_ but not yet called notify_all
    accepted: seq<T>,           // history: tasks pushed, in order
    started: seq<T>,            // history: tasks taken by a worker, in order
    finished: seq<T>)           // history: tasks that returned or threw, in order

  datatype Step<T> =
    | Enqueue(task: T)          // the locked part of Enqueue; a stopped pool throws
    | NotifyOne(w: nat)         // notify_one reaches a sleeping worker
    | NotifyNobody              // notify_one while nobody sleeps
    | SpuriousWake(w: nat)
    | Acquire(w: nat)           // lock, test the predicate, then sleep, exit or take a task
    | Finish(w: nat)            // the packaged task is over, normally or by exception
    | Stop                      // the destructor sets stop_ under the lock
    | NotifyAll

  ghost predicate Init<T>(p: Pool<T>) {
    && p.tasks == [] && !p.stop && p.unnotified == 0 && !p.notifyAllDue
    && p.accepted == [] && p.started == [] && p.finished == []
    && forall i :: 0 <= i < |p.workers| ==> p.workers[i].Awake?
  }

  ghost predicate SomeAsleep<T>(ws: seq<Worker<T>>) {
    exists i :: 0 <= i < |ws| && ws[i].Asleep?
  }

  ghost predicate Enabled<T>(p: Pool<T>, step: Step<T>) {
    match step
    case Enqueue(_) => true
    case NotifyOne(w) => p.unnotified > 0 && w < |p.workers| && p.workers[w].Asleep?
    case NotifyNobody => p.unnotified > 0 && !SomeAsleep(p.workers)
    case SpuriousWake(w) => w < |p.workers| && p.workers[w].Asleep?
    case Acquire(w) => w < |p.workers| && p.workers[w].Awake?
    case Finish(w) => w < |p.workers| && p.workers[w].Running?
    case Stop => !p.stop
    case NotifyAll => p.notifyAllDue
  }

  function WakeAll<T>(ws: seq<Worker<T>>): (r: seq<Worker<T>>)
    ensures |r| == |ws|
    ensures forall i :: 0 <= i < |r| ==> r[i] == if ws[i].Asleep? then Awake else ws[i]
  {
    seq(|ws|, i requires 0 <= i < |ws| => if ws[i].Asleep? then Awake else ws[i])
  }

  ghost function Exec<T>(p: Pool<T>, step: Step<T>): Pool<T>
    requires Enabled(p, step)
  {
    match step
    case Enqueue(t) =>
      if p.stop then p
      else p.(tasks := p.tasks + [t], unnotified := p.unnotified + 1, accepted := p.accepted + [t])
    case NotifyOne(w) => p.(workers := p.workers[w := Awake], unnotified := p.unnotified - 1)
    case NotifyNobody => p.(unnotified := p.unnotified - 1)
    case SpuriousWake(w) => p.(workers := p.workers[w := Awake])
    case Acquire(w) =>
      if !p.stop && p.tasks == [] then p.(workers := p.workers[w := Asleep])
      else if p.tasks == [] then p.(workers := p.workers[w := Exited])
      else p.(workers := p.workers[w := Running(p.tasks[0])],
              tasks := p.tasks[1..],
              started := p.started + [p.tasks[0]])
    case Finish(w) =>
      p.(workers := p.workers[w := Awake], finished := p.finished + [p.workers[w].task])
    case Stop => p.(stop := true, notifyAllDue := true)
    case NotifyAll => p.(workers := WakeAll(p.workers), notifyAllDue := false)
  }

  ghost predicate ValidRun<T>(p: Pool<T>, steps: seq<Step<T>>)
    decreases |steps|
  {
    steps == [] || (Enabled(p, steps[0]) && ValidRun(Exec(p, steps[0]), steps[1..]))
  }

  ghost function Run<T>(p: Pool<T>, steps: seq<Step<T>>): Pool<T>
    requires ValidRun(p, steps)
    decreases |steps|
  {
    if steps == [] then p else Run(Exec(p, steps[0]), steps[1..])
  }

  // Sums over the workers.

  ghost function AwakeCount<T>(ws: seq<Worker<T>>): nat {
    if ws == [] then 0 else (if ws[0].Awake? then 1 else 0) + AwakeCount(ws[1..])
  }

  ghost function TaskOf<T>(w: Worker<T>): multiset<T> {
    if w.Running? then multiset{w.task} else multiset{}
  }

  ghost function InFlight<T>(ws: seq<Worker<T>>): multiset<T> {
    if ws == [] then multiset{} else TaskOf(ws[0]) + InFlight(ws[1..])
  }

  /** How many steps a worker can still make once the pool is stopped and the queue is empty. */
  ghost function StepsLeft<T>(w: Worker<T>): nat {
    match w
    case Awake => 1
    case Asleep => 2
    case Running(_) => 2
    case Exited => 0
  }

  ghost function TotalLeft<T>(ws: seq<Worker<T>>): nat {
    if ws == [] then 0 else StepsLeft(ws[0]) + TotalLeft(ws[1..])
  }

  lemma {:induction false} SumsAfterUpdate<T>(ws: seq<Worker<T>>, i: nat, w: Worker<T>)
    requires i < |ws|
    ensures AwakeCount(ws[i := w]) == AwakeCount(ws) - (if ws[i].Awake? then 1 else 0) + (if w.Awake? then 1 else 0)
    ensures TotalLeft(ws[i := w]) == TotalLeft(ws) - StepsLeft(ws[i]) + StepsLeft(w)
  {
    if i == 0 {
      assert ws[i := w][1..] == ws[1..];
    } else {
      assert ws[i := w][1..] == ws[1..][i - 1 := w];
      SumsAfterUpdate(ws[1..], i - 1, w);
    }
  }

  lemma {:induction false} InFlightAfterUpdate<T>(ws: seq<Worker<T>>, i: nat, w: Worker<T>)
    requires i < |ws|
    ensures InFlight(ws[i := w]) + TaskOf(ws[i]) == InFlight(ws) + TaskOf(w)
  {
    var us := ws[i := w];
    var old', new' := TaskOf(ws[i]), TaskOf(w);
    if i == 0 {
      assert us[1..] == ws[1..];
      var rest := InFlight(ws[1..]);
      assert InFlight(us) == new' + rest && InFlight(ws) == old' + rest;
    } else {
      assert us[1..] == ws[1..][i - 1 := w];
      InFlightAfterUpdate(ws[1..], i - 1, w);
      BagsRegroup(TaskOf(ws[0]), InFlight(us[1..]), old', InFlight(ws[1..]), new');
    }
  }

  lemma BagsRegroup<T>(first: multiset<T>, b: multiset<T>, x: multiset<T>, c: multiset<T>, y: multiset<T>)
    requires b + x == c + y
    ensures (first + b) + x == (first + c) + y
  {
    assert (first + b) + x == first + (b + x);
    assert (first + c) + y == first + (c + y);
  }

  lemma IdleUpdate<T>(ws: seq<Worker<T>>, i: nat, w: Worker<T>)
    requires i < |ws| && !ws[i].Running? && !w.Running?
    ensures InFlight(ws[i := w]) == InFlight(ws)
  {
    InFlightAfterUpdate(ws, i, w);
    assert InFlight(ws[i := w]) + multiset{} == InFlight(ws[i := w]);
    assert InFlight(ws) + multiset{} == InFlight(ws);
  }

  lemma {:induction false} SumsAfterWakeAll<T>(ws: seq<Worker<T>>)
    ensures AwakeCount(WakeAll(ws)) >= AwakeCount(ws)
    ensures TotalLeft(WakeAll(ws)) <= TotalLeft(ws)
    ensures InFlight(WakeAll(ws)) == InFlight(ws)
  {
    if ws != [] {
      assert WakeAll(ws)[1..] == WakeAll(ws[1..]);
      SumsAfterWakeAll(ws[1..]);
    }
  }

  lemma {:induction false} IdlePoolSums<T>(ws: seq<Worker<T>>)
    ensures (forall i :: 0 <= i < |ws| ==> !ws[i].Awake?) ==> AwakeCount(ws) == 0
    ensures (forall i :: 0 <= i < |ws| ==> !ws[i].Running?) ==> InFlight(ws) == multiset{}
  {
    if ws != [] {
      IdlePoolSums(ws[1..]);
      assert forall i :: 0 <= i < |ws[1..]| ==> ws[1..][i] == ws[i + 1];
    }
  }

  // The invariant.

  /** No lost wake-up: while somebody sleeps, every queued task is covered by a notification
      still to come or by a worker on its way to the lock. */
  ghost predicate WorkConserving<T>(p: Pool<T>) {
    SomeAsleep(p.workers) ==> |p.tasks| <= p.unnotified + AwakeCount(p.workers)
  }

  /** The part of the invariant about the queue and its history. */
  ghost predicate Accounted<T>(p: Pool<T>) {
    && p.accepted == p.started + p.tasks
    && multiset(p.started) == multiset(p.finished) + InFlight(p.workers)
  }

  lemma HeadMoves<T>(front: seq<T>, back: seq<T>)
    requires back != []
    ensures front + back == (front + [back[0]]) + back[1..]
    ensures multiset(front + [back[0]]) == multiset(front) + multiset{back[0]}
  {
  }

  lemma TakeKeepsAccounted<T>(p: Pool<T>, w: nat)
    requires Accounted(p) && Enabled(p, Acquire(w)) && p.tasks != []
    ensures Accounted(Exec(p, Acquire(w)))
  {
    var t, q := p.tasks[0], Exec(p, Acquire(w));
    HeadMoves(p.started, p.tasks);
    InFlightAfterUpdate(p.workers, w, Running(t));
    assert TaskOf(p.workers[w]) == multiset{} && TaskOf(Running(t)) == multiset{t};
    BagsJoin(multiset(p.finished), InFlight(p.workers), multiset{t}, InFlight(q.workers));
  }

  lemma BagsJoin<T>(f: multiset<T>, before: multiset<T>, t: multiset<T>, after: multiset<T>)
    requires after + multiset{} == before + t
    ensures (f + before) + t == f + after
  {
    assert after == after + multiset{};
    assert (f + before) + t == f + (before + t);
  }

  lemma FinishKeepsAccounted<T>(p: Pool<T>, w: nat)
    requires Accounted(p) && Enabled(p, Finish(w))
    ensures Accounted(Exec(p, Finish(w)))
  {
    var t, q := p.workers[w].task, Exec(p, Finish(w));
    InFlightAfterUpdate(p.workers, w, Awake);
    assert multiset(q.finished) == multiset(p.finished) + multiset{t};
    BagsMove(multiset(p.finished), InFlight(p.workers), multiset{t}, InFlight(q.workers));
  }

  lemma BagsMove<T>(f: multiset<T>, before: multiset<T>, t: multiset<T>, after: multiset<T>)
    requires after + t == before + multiset{}
    ensures f + before == (f + t) + after
  {
    assert before == before + multiset{};
    assert (f + t) + after == f + (after + t);
  }

  lemma StepKeepsAccounted<T>(p: Pool<T>, step: Step<T>)
    requires Accounted(p) && Enabled(p, step)
    ensures Accounted(Exec(p, step))
  {
    var q := Exec(p, step);
    match step {
      case Enqueue(t) =>
      case NotifyOne(w) => IdleUpdate(p.workers, w, Awake);
      case NotifyNobody =>
      case SpuriousWake(w) => IdleUpdate(p.workers, w, Awake);
      case Acquire(w) =>
        if p.tasks == [] {
          IdleUpdate(p.workers, w, q.workers[w]);
        } else {
          TakeKeepsAccounted(p, w);
        }
      case Finish(w) => FinishKeepsAccounted(p, w);
      case Stop =>
      case NotifyAll => SumsAfterWakeAll(p.workers);
    }
  }

  /** The part of the invariant about who sleeps and who has exited. */
  ghost predicate Alert<T>(p: Pool<T>) {
    && WorkConserving(p)
    && (p.stop && SomeAsleep(p.workers) ==> p.notifyAllDue)
    && ((exists i :: 0 <= i < |p.workers| && p.workers[i].Exited?) ==> p.stop && p.tasks == [])
  }

  lemma AcquireKeepsAlert<T>(p: Pool<T>, w: nat)
    requires Alert(p) && Enabled(p, Acquire(w))
    ensures Alert(Exec(p, Acquire(w)))
  {
    var q := Exec(p, Acquire(w));
    SumsAfterUpdate(p.workers, w, q.workers[w]);
    assert forall i :: 0 <= i < |q.workers| && i != w ==> q.workers[i] == p.workers[i];
    if p.tasks != [] && SomeAsleep(q.workers) {
      var i :| 0 <= i < |q.workers| && q.workers[i].Asleep?;
      assert p.workers[i].Asleep?;
    }
  }

  /** A worker wakes up, by a notification or not, or has finished its task. */
  lemma WakeKeepsAlert<T>(p: Pool<T>, step: Step<T>, w: nat)
    requires Alert(p) && Enabled(p, step) && step in {NotifyOne(w), SpuriousWake(w), Finish(w)}
    ensures Alert(Exec(p, step))
  {
    var q := Exec(p, step);
    SumsAfterUpdate(p.workers, w, Awake);
    assert forall i :: 0 <= i < |q.workers| && i != w ==> q.workers[i] == p.workers[i];
  }

  lemma StepKeepsAlert<T>(p: Pool<T>, step: Step<T>)
    requires Alert(p) && Enabled(p, step)
    ensures Alert(Exec(p, step))
  {
    var q := Exec(p, step);
    match step {
      case Enqueue(t) =>
      case NotifyOne(w) => WakeKeepsAlert(p, step, w);
      case NotifyNobody =>
      case SpuriousWake(w) => WakeKeepsAlert(p, step, w);
      case Acquire(w) => AcquireKeepsAlert(p, w);
      case Finish(w) => WakeKeepsAlert(p, step, w);
      case Stop =>
      case NotifyAll => SumsAfterWakeAll(p.workers);
    }
  }

  /** What a worker that takes the lock does: it sleeps exactly when there is nothing to do, exits
      exactly when there is nothing left to do after stop, and otherwise runs the oldest task. */
  lemma AcquireOutcome<T>(p: Pool<T>, w: nat)
    requires Enabled(p, Acquire(w))
    ensures var after := Exec(p, Acquire(w)).workers[w];
      && (after.Asleep? <==> p.tasks == [] && !p.stop)
      && (after.Exited? <==> p.tasks == [] && p.stop)
      && (after.Running? <==> p.tasks != []) && (after.Running? ==> after.task == p.tasks[0])
  {
  }

  ghost predicate Inv<T>(p: Pool<T>) {
    Accounted(p) && Alert(p)
  }

  lemma InitInv<T>(p: Pool<T>)
    requires Init(p)
    ensures Inv(p)
  {
    IdlePoolSums(p.workers);
  }

  lemma StepKeepsInv<T>(p: Pool<T>, step: Step<T>)
    requires Inv(p) && Enabled(p, step)
    ensures Inv(Exec(p, step))
  {
    StepKeepsAccounted(p, step);
    StepKeepsAlert(p, step);
  }

  lemma {:induction false} RunKeepsInv<T>(p: Pool<T>, steps: seq<Step<T>>)
    requires Inv(p) && ValidRun(p, steps)
    ensures Inv(Run(p, steps))
    decreases |steps|
  {
    if steps != [] {
      StepKeepsInv(p, steps[0]);
      RunKeepsInv(Exec(p, steps[0]), steps[1..]);
    }
  }

  // What the invariant says of every run.

  /** Work conservation in every reachable state, with the destructor's case beside it. */
  lemma NoLostWakeUp<T>(p: Pool<T>, steps: seq<Step<T>>)
    requires Init(p) && ValidRun(p, steps)
    ensures var q := Run(p, steps);
      SomeAsleep(q.workers) ==>
        && |q.tasks| <= q.unnotified + AwakeCount(q.workers)
        && (q.stop ==> q.notifyAllDue)
  {
    InitInv(p);
    RunKeepsInv(p, steps);
  }

  /** A pool that has come to rest (no notification due, nobody awake or running) and still has
      a worker holds no task. */
  lemma RestingPoolIsEmpty<T>(p: Pool<T>, steps: seq<Step<T>>)
    requires Init(p) && ValidRun(p, steps) && p.workers != []
    requires var q := Run(p, steps);
      q.unnotified == 0 && forall i :: 0 <= i < |q.workers| ==> q.workers[i].Asleep? || q.workers[i].Exited?
    ensures Run(p, steps).tasks == []
  {
    InitInv(p);
    RunKeepsInv(p, steps);
    SameWorkers(p, steps);
    var q := Run(p, steps);
    IdlePoolSums(q.workers);
    assert q.workers[0].Asleep? || q.workers[0].Exited?;
  }

  lemma {:induction false} SameWorkers<T>(p: Pool<T>, steps: seq<Step<T>>)
    requires ValidRun(p, steps)
    ensures |Run(p, steps).workers| == |p.workers|
    decreases |steps|
  {
    if steps != [] {
      SameWorkers(Exec(p, steps[0]), steps[1..]);
    }
  }

  /** Tasks start in the order in which they were accepted, each at most once, and every started
      task has either finished or is the task of exactly one running worker. */
  lemma FirstInFirstOut<T>(p: Pool<T>, steps: seq<Step<T>>)
    requires Init(p) && ValidRun(p, steps)
    ensures var q := Run(p, steps);
      && q.started <= q.accepted
      && q.tasks == q.accepted[|q.started|..]
      && multiset(q.started) == multiset(q.finished) + InFlight(q.workers)
  {
    InitInv(p);
    RunKeepsInv(p, steps);
  }

  // Shutdown.

  ghost predicate AllExited<T>(p: Pool<T>) {
    forall i :: 0 <= i < |p.workers| ==> p.workers[i].Exited?
  }

  ghost function Measure<T>(p: Pool<T>): nat {
    2 * |p.tasks| + TotalLeft(p.workers) + p.unnotified + (if p.notifyAllDue then 1 else 0)
  }

  /** Once every worker has exited, nothing accepted is left unrun. */
  lemma NothingLostAtShutdown<T>(p: Pool<T>, steps: seq<Step<T>>)
    requires Init(p) && ValidRun(p, steps) && p.workers != []
    requires AllExited(Run(p, steps))
    ensures var q := Run(p, steps);
      q.stop && q.tasks == [] && q.started == q.accepted && multiset(q.finished) == multiset(q.accepted)
  {
    InitInv(p);
    RunKeepsInv(p, steps);
    SameWorkers(p, steps);
    var q := Run(p, steps);
    assert q.workers[0].Exited?;
    IdlePoolSums(q.workers);
  }

  /** The workers are needed: a pool built with no threads never starts anything. */
  lemma {:induction false} PoolWithoutWorkersStartsNothing<T>(p: Pool<T>, steps: seq<Step<T>>)
    requires ValidRun(p, steps) && p.workers == []
    ensures var q := Run(p, steps); q.workers == [] && q.started == p.started && q.finished == p.finished
    decreases |steps|
  {
    if steps != [] {
      PoolWithoutWorkersStartsNothing(Exec(p, steps[0]), steps[1..]);
    }
  }

  /** When all workers have exited, every accepted task has finished exactly when the pool had a worker
      or nothing was accepted; otherwise everything accepted is still queued. */
  lemma FinishedAtShutdownIff<T>(p: Pool<T>, steps: seq<Step<T>>)
    requires Init(p) && ValidRun(p, steps) && AllExited(Run(p, steps))
    ensures var q := Run(p, steps);
      && (multiset(q.finished) == multiset(q.accepted) <==> p.workers != [] || q.accepted == [])
      && (p.workers == [] ==> q.tasks == q.accepted)
  {
    if p.workers == [] {
      PoolWithoutWorkersStartsNothing(p, steps);
      FirstInFirstOut(p, steps);
      var q := Run(p, steps);
      if q.accepted != [] {
        assert q.accepted[0] in multiset(q.accepted);
      }
    } else {
      NothingLostAtShutdown(p, steps);
    }
  }

  /** Such a pool can accept a task and be joined. */
  lemma PoolWithoutWorkersLosesTasks<T>(t: T)
    ensures var p: Pool<T> := Pool([], false, [], 0, false, [], [], []);
      var steps := [Enqueue(t), Stop, NotifyAll];
      Init(p) && ValidRun(p, steps) && AllExited(Run(p, steps)) && Run(p, steps).tasks == [t]
  {
    var p0: Pool<T> := Pool([], false, [], 0, false, [], [], []);
    var p1 := Exec(p0, Enqueue(t));
    var p2 := Exec(p1, Stop);
    var p3 := Exec(p2, NotifyAll);
    var last: seq<Step<T>> := [NotifyAll];
    var later: seq<Step<T>> := [Stop, NotifyAll];
    assert [Enqueue(t), Stop, NotifyAll][1..] == later && later[1..] == last;
    assert ValidRun(p2, last) && Run(p2, last) == p3;
    assert ValidRun(p1, later) && Run(p1, later) == p3;
  }

  lemma StepAfterStopShrinks<T>(p: Pool<T>, step: Step<T>)
    requires p.stop && Enabled(p, step)
    ensures if step.Enqueue? then Exec(p, step) == p else Measure(Exec(p, step)) < Measure(p)
    ensures Exec(p, step).stop
  {
    match step {
      case Enqueue(t) =>
      case NotifyOne(w) => SumsAfterUpdate(p.workers, w, Awake);
      case NotifyNobody =>
      case SpuriousWake(w) => SumsAfterUpdate(p.workers, w, Awake);
      case Acquire(w) =>
        if p.tasks == [] {
          SumsAfterUpdate(p.workers, w, Exited);
        } else {
          SumsAfterUpdate(p.workers, w, Running(p.tasks[0]));
        }
      case Finish(w) => SumsAfterUpdate(p.workers, w, Awake);
      case Stop =>
      case NotifyAll => SumsAfterWakeAll(p.workers);
    }
  }

  lemma StoppedPoolCanMove<T>(p: Pool<T>) returns (step: Step<T>)
    requires Inv(p) && p.stop && !AllExited(p)
    ensures !step.Enqueue? && Enabled(p, step)
  {
    var i :| 0 <= i < |p.workers| && !p.workers[i].Exited?;
    match p.workers[i] {
      case Awake => step := Acquire(i);
      case Asleep => step := NotifyAll;
      case Running(_) => step := Finish(i);
    }
  }

  ghost predicate NoEnqueue<T>(steps: seq<Step<T>>) {
    forall i :: 0 <= i < |steps| ==> !steps[i].Enqueue?
  }

  /** After stop every run is short: it has at most `Measure` steps besides refused enqueues. */
  lemma {:induction false} ShutdownIsBounded<T>(p: Pool<T>, steps: seq<Step<T>>)
    requires p.stop && ValidRun(p, steps) && NoEnqueue(steps)
    ensures |steps| + Measure(Run(p, steps)) <= Measure(p)
    decreases |steps|
  {
    if steps != [] {
      StepAfterStopShrinks(p, steps[0]);
      assert forall i :: 0 <= i < |steps[1..]| ==> steps[1..][i] == steps[i + 1];
      ShutdownIsBounded(Exec(p, steps[0]), steps[1..]);
    }
  }

  /** A run after stop that cannot be continued has reached the joined state with every accepted
      task run to its end; together with `ShutdownIsBounded` this is termination of the destructor. */
  lemma ShutdownCompletes<T>(p: Pool<T>, steps: seq<Step<T>>)
    requires Init(p) && ValidRun(p, steps) && p.workers != [] && Run(p, steps).stop
    requires forall step :: Enabled(Run(p, steps), step) ==> step.Enqueue?
    ensures var q := Run(p, steps); AllExited(q) && q.tasks == [] && multiset(q.finished) == multiset(q.accepted)
  {
    InitInv(p);
    RunKeepsInv(p, steps);
    if !AllExited(Run(p, steps)) {
      var step := StoppedPoolCanMove(Run(p, steps));
      assert false;
    }
    NothingLostAtShutdown(p, steps);
  }
}
