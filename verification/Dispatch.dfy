/** Middleware dispatch: Server::Handle, Bind and ProcessBind of src/web/server.cpp and
    src/include/web/server.h.

    A handler is an arbitrary finite program.  Every handler starts at most once in a request, so the
    program it follows there, whatever it depends on, can be taken as given. */
module Dispatch {
  import opened Bytes

  datatype Kind = Http | Json | Standard | Foreign

  datatype Program =
    | Done
    | Effect(tag: nat, rest: Program)
    | CallNext(rest: Program)
    | Throw(kind: Kind)
    | Try(body: Program, catches: set<Kind>, handler: Program, rest: Program)

  datatype Event = Did(tag: nat) | Called | Started(index: nat)

  /** How many handlers have started, what happened in order, and the exception that escaped. */
  datatype Outcome = Outcome(started: nat, trace: seq<Event>, thrown: Option<Kind>)

  function Before(front: seq<Event>, o: Outcome): Outcome {
    o.(trace := front + o.trace)
  }

  /** Run a program when k of the handlers have started. */
  function Exec(hs: seq<Program>, p: Program, k: nat): (o: Outcome)
    requires k <= |hs|
    ensures k <= o.started <= |hs|
    decreases |hs| - k, p
  {
    match p
    case Done => Outcome(k, [], None)
    case Effect(tag, rest) => Before([Did(tag)], Exec(hs, rest, k))
    case Throw(kind) => Outcome(k, [], Some(kind))
    case CallNext(rest) =>
      if k == |hs| then Before([Called], Exec(hs, rest, k))
      else
        var o := Exec(hs, hs[k], k + 1);
        var front := [Called, Started(k)] + o.trace;
        if o.thrown.Some? then Outcome(o.started, front, o.thrown) else Before(front, Exec(hs, rest, o.started))
    case Try(body, catches, handler, rest) =>
      var o := Exec(hs, body, k);
      if o.thrown.None? then Before(o.trace, Exec(hs, rest, o.started))
      else if o.thrown.value !in catches then o
      else
        var c := Exec(hs, handler, o.started);
        if c.thrown.Some? then Before(o.trace, c) else Before(o.trace + c.trace, Exec(hs, rest, c.started))
  }

  /** Handle's own first call of next. */
  const ENTRY := CallNext(Done)

  // Starts.

  function Starts(t: seq<Event>): seq<nat> {
    if t == [] then []
    else if t[0].Started? then [t[0].index] + Starts(t[1..])
    else Starts(t[1..])
  }

  function Calls(t: seq<Event>): nat {
    if t == [] then 0 else (if t[0].Called? then 1 else 0) + Calls(t[1..])
  }

  function Interval(lo: nat, hi: nat): seq<nat>
    requires lo <= hi
  {
    seq(hi - lo, i requires 0 <= i < hi - lo => lo + i)
  }

  lemma {:induction false} StartsAppend(t: seq<Event>, u: seq<Event>)
    ensures Starts(t + u) == Starts(t) + Starts(u)
  {
    if t == [] {
      assert t + u == u;
    } else {
      StartsAppend(t[1..], u);
      assert (t + u)[1..] == t[1..] + u && (t + u)[0] == t[0];
    }
  }

  lemma {:induction false} CallsAppend(t: seq<Event>, u: seq<Event>)
    ensures Calls(t + u) == Calls(t) + Calls(u)
  {
    if t == [] {
      assert t + u == u;
    } else {
      assert (t + u)[1..] == t[1..] + u;
      CallsAppend(t[1..], u);
    }
  }

  /** The handlers lo up to hi started in order, each once, and calls were made for all of them; more
      calls were made only when none was left. */
  ghost predicate Orderly(t: seq<Event>, lo: nat, hi: nat, n: nat) {
    lo <= hi <= n && Starts(t) == Interval(lo, hi) && hi - lo <= Calls(t) && (hi < n ==> hi - lo == Calls(t))
  }

  lemma OrderlyAppend(t: seq<Event>, u: seq<Event>, lo: nat, mid: nat, hi: nat, n: nat)
    requires Orderly(t, lo, mid, n) && Orderly(u, mid, hi, n)
    ensures Orderly(t + u, lo, hi, n)
  {
    StartsAppend(t, u);
    CallsAppend(t, u);
    assert Interval(lo, mid) + Interval(mid, hi) == Interval(lo, hi);
  }

  lemma OrderlyFirst(k: nat, n: nat)
    requires k <= n
    ensures Orderly([], k, k, n)
    ensures forall tag :: Orderly([Did(tag)], k, k, n)
    ensures k == n ==> Orderly([Called], k, k, n)
    ensures k < n ==> Orderly([Called, Started(k)], k, k + 1, n)
  {
    assert forall tag :: [Did(tag)][1..] == [];
    assert [Called][1..] == [];
    assert [Called, Started(k)][1..] == [Started(k)] && [Started(k)][1..] == [];
    assert Interval(k, k) == [] && Interval(k, k + 1) == [k];
  }

  lemma {:induction false} ExecIsOrderly(hs: seq<Program>, p: Program, k: nat)
    requires k <= |hs|
    ensures var o := Exec(hs, p, k); Orderly(o.trace, k, o.started, |hs|)
    decreases |hs| - k, p
  {
    hide Orderly;
    var n := |hs|;
    OrderlyFirst(k, n);
    match p
    case Done =>
    case Throw(_) =>
    case Effect(tag, rest) =>
      ExecIsOrderly(hs, rest, k);
      OrderlyAppend([Did(tag)], Exec(hs, rest, k).trace, k, k, Exec(hs, rest, k).started, n);
    case CallNext(rest) =>
      if k == n {
        ExecIsOrderly(hs, rest, k);
        OrderlyAppend([Called], Exec(hs, rest, k).trace, k, k, Exec(hs, rest, k).started, n);
      } else {
        var o := Exec(hs, hs[k], k + 1);
        ExecIsOrderly(hs, hs[k], k + 1);
        OrderlyAppend([Called, Started(k)], o.trace, k, k + 1, o.started, n);
        ExecIsOrderly(hs, rest, o.started);
        var r := Exec(hs, rest, o.started);
        OrderlyAppend([Called, Started(k)] + o.trace, r.trace, k, o.started, r.started, n);
      }
    case Try(body, catches, handler, rest) =>
      var o := Exec(hs, body, k);
      ExecIsOrderly(hs, body, k);
      if o.thrown.None? {
        ExecIsOrderly(hs, rest, o.started);
        OrderlyAppend(o.trace, Exec(hs, rest, o.started).trace, k, o.started, Exec(hs, rest, o.started).started, n);
      } else {
        var c := Exec(hs, handler, o.started);
        ExecIsOrderly(hs, handler, o.started);
        OrderlyAppend(o.trace, c.trace, k, o.started, c.started, n);
        ExecIsOrderly(hs, rest, c.started);
        var r := Exec(hs, rest, c.started);
        OrderlyAppend(o.trace + c.trace, r.trace, k, c.started, r.started, n);
      }
  }

  /** In a request the handlers that start are a prefix of the list, in order and once each; their
      number is the number of calls of next, Handle's own included, up to the length of the list. */
  lemma StartsArePrefix(hs: seq<Program>)
    ensures var o := Exec(hs, ENTRY, 0);
      Starts(o.trace) == Interval(0, o.started)
      && o.started == if Calls(o.trace) < |hs| then Calls(o.trace) else |hs|
  {
    ExecIsOrderly(hs, ENTRY, 0);
  }

  // A gate: handlers behind it start only after it let the request pass.

  /** How many calls of next a program holds. */
  function NextCount(p: Program): nat {
    match p
    case Done => 0
    case Throw(_) => 0
    case Effect(_, rest) => NextCount(rest)
    case CallNext(rest) => 1 + NextCount(rest)
    case Try(body, _, handler, rest) => NextCount(body) + NextCount(handler) + NextCount(rest)
  }

  lemma {:induction false} NoCallNoStart(hs: seq<Program>, p: Program, k: nat)
    requires k <= |hs| && NextCount(p) == 0
    ensures Exec(hs, p, k).started == k
    decreases p
  {
    match p
    case Done =>
    case Throw(_) =>
    case Effect(_, rest) => NoCallNoStart(hs, rest, k);
    case Try(body, _, handler, rest) =>
      NoCallNoStart(hs, body, k);
      NoCallNoStart(hs, handler, k);
      NoCallNoStart(hs, rest, k);
  }

  /** The handlers before the gate call next at most once each. */
  ghost predicate SingleUpTo(hs: seq<Program>, gate: nat) {
    forall i :: 0 <= i < |hs| && i < gate ==> NextCount(hs[i]) <= 1
  }

  /** A gate that does not call next stops everything behind it. */
  lemma {:induction false} ClosedGate(hs: seq<Program>, p: Program, k: nat, gate: nat)
    requires k <= gate < |hs| && SingleUpTo(hs, gate) && NextCount(hs[gate]) == 0 && NextCount(p) <= 1
    ensures Exec(hs, p, k).started <= gate + 1
    decreases |hs| - k, p
  {
    match p
    case Done =>
    case Throw(_) =>
    case Effect(_, rest) => ClosedGate(hs, rest, k, gate);
    case CallNext(rest) =>
      if k < gate {
        ClosedGate(hs, hs[k], k + 1, gate);
      } else {
        NoCallNoStart(hs, hs[k], k + 1);
      }
      NoCallNoStart(hs, rest, Exec(hs, hs[k], k + 1).started);
    case Try(body, _, handler, rest) =>
      ClosedGateTry(hs, p, k, gate);
  }

  lemma ClosedGateTry(hs: seq<Program>, p: Program, k: nat, gate: nat)
    requires k <= gate < |hs| && SingleUpTo(hs, gate) && NextCount(hs[gate]) == 0 && p.Try? && NextCount(p) <= 1
    ensures Exec(hs, p, k).started <= gate + 1
    decreases |hs| - k, p, 0
  {
    var o := Exec(hs, p.body, k);
    if NextCount(p.body) == 1 {
      ClosedGate(hs, p.body, k, gate);
      NoCallNoStart(hs, p.handler, o.started);
      NoCallNoStart(hs, p.rest, o.started);
    } else {
      NoCallNoStart(hs, p.body, k);
      if NextCount(p.handler) == 1 {
        ClosedGate(hs, p.handler, k, gate);
        NoCallNoStart(hs, p.rest, Exec(hs, p.handler, k).started);
      } else {
        NoCallNoStart(hs, p.handler, k);
      }
      ClosedGate(hs, p.rest, k, gate);
    }
  }

  /** Whenever the gate starts, its mark is the next thing that happens. */
  ghost predicate MarkFollows(t: seq<Event>, gate: nat, mark: nat) {
    forall i :: 0 <= i < |t| && t[i] == Started(gate) ==> i + 1 < |t| && t[i + 1] == Did(mark)
  }

  lemma MarkAppend(t: seq<Event>, u: seq<Event>, gate: nat, mark: nat)
    requires MarkFollows(t, gate, mark) && MarkFollows(u, gate, mark)
    ensures MarkFollows(t + u, gate, mark)
  {
    var s := t + u;
    forall i | 0 <= i < |s| && s[i] == Started(gate)
      ensures i + 1 < |s| && s[i + 1] == Did(mark)
    {
      if i >= |t| {
        assert u[i - |t|] == Started(gate);
      }
    }
  }

  lemma {:induction false} GateMarks(hs: seq<Program>, p: Program, k: nat, gate: nat)
    requires k <= |hs| && gate < |hs| && hs[gate].Effect?
    ensures MarkFollows(Exec(hs, p, k).trace, gate, hs[gate].tag)
    decreases |hs| - k, p
  {
    hide MarkFollows;
    var mark := hs[gate].tag;
    MarkFirst(gate, mark);
    match p
    case Done =>
    case Throw(_) =>
    case Effect(tag, rest) =>
      GateMarks(hs, rest, k, gate);
      MarkAppend([Did(tag)], Exec(hs, rest, k).trace, gate, mark);
    case CallNext(rest) =>
      if k == |hs| {
        GateMarks(hs, rest, k, gate);
        MarkAppend([Called], Exec(hs, rest, k).trace, gate, mark);
      } else {
        var o := Exec(hs, hs[k], k + 1);
        GateMarks(hs, hs[k], k + 1, gate);
        MarkStart(hs, k, gate);
        GateMarks(hs, rest, o.started, gate);
        MarkAppend([Called, Started(k)] + o.trace, Exec(hs, rest, o.started).trace, gate, mark);
      }
    case Try(body, catches, handler, rest) =>
      var o := Exec(hs, body, k);
      GateMarks(hs, body, k, gate);
      if o.thrown.None? {
        GateMarks(hs, rest, o.started, gate);
        MarkAppend(o.trace, Exec(hs, rest, o.started).trace, gate, mark);
      } else {
        var c := Exec(hs, handler, o.started);
        GateMarks(hs, handler, o.started, gate);
        MarkAppend(o.trace, c.trace, gate, mark);
        GateMarks(hs, rest, c.started, gate);
        MarkAppend(o.trace + c.trace, Exec(hs, rest, c.started).trace, gate, mark);
      }
  }

  lemma MarkFirst(gate: nat, mark: nat)
    ensures MarkFollows([], gate, mark) && MarkFollows([Called], gate, mark)
    ensures forall tag :: MarkFollows([Did(tag)], gate, mark)
  {
  }

  lemma MarkStart(hs: seq<Program>, k: nat, gate: nat)
    requires k < |hs| && gate < |hs| && hs[gate].Effect?
    requires MarkFollows(Exec(hs, hs[k], k + 1).trace, gate, hs[gate].tag)
    ensures MarkFollows([Called, Started(k)] + Exec(hs, hs[k], k + 1).trace, gate, hs[gate].tag)
  {
    var o := Exec(hs, hs[k], k + 1);
    var t := [Called, Started(k)] + o.trace;
    forall i | 0 <= i < |t| && t[i] == Started(gate)
      ensures i + 1 < |t| && t[i + 1] == Did(hs[gate].tag)
    {
      if i >= 2 {
        assert o.trace[i - 2] == Started(gate);
      }
    }
  }

  lemma {:induction false} EarlierStart(t: seq<Event>, lo: nat, hi: nat, i: nat, j: nat, n: nat)
    requires lo <= hi && Starts(t) == Interval(lo, hi) && n < |t| && t[n] == Started(j) && lo <= i < j
    ensures exists m :: 0 <= m < n && t[m] == Started(i)
    decreases |t|
  {
    assert t[0].Started? ==> Starts(t)[0] == t[0].index && Interval(lo, hi)[0] == lo;
    if n > 0 {
      var rest := t[1..];
      if !t[0].Started? {
        EarlierStart(rest, lo, hi, i, j, n - 1);
        var m :| 0 <= m < n - 1 && rest[m] == Started(i);
        assert t[m + 1] == Started(i);
      } else if i > lo {
        assert Starts(rest) == Starts(t)[1..] == Interval(lo + 1, hi);
        EarlierStart(rest, lo + 1, hi, i, j, n - 1);
        var m :| 0 <= m < n - 1 && rest[m] == Started(i);
        assert t[m + 1] == Started(i);
      }
    }
  }

  /** Behind a gate that either never calls next or first leaves its mark, nothing starts before the
      mark. */
  lemma NothingBeforeMark(hs: seq<Program>, gate: nat, j: nat, n: nat)
    requires gate < |hs| && SingleUpTo(hs, gate) && (hs[gate].Effect? || NextCount(hs[gate]) == 0)
    requires var t := Exec(hs, ENTRY, 0).trace; n < |t| && t[n] == Started(j) && gate < j
    ensures hs[gate].Effect? && exists m :: 0 <= m < n && Exec(hs, ENTRY, 0).trace[m] == Did(hs[gate].tag)
  {
    hide Exec;
    var o := Exec(hs, ENTRY, 0);
    var t := o.trace;
    StartsArePrefix(hs);
    StartedIsListed(t, n);
    if NextCount(hs[gate]) == 0 {
      ClosedGate(hs, ENTRY, 0, gate);
    }
    EarlierStart(t, 0, o.started, gate, j, n);
    var i :| 0 <= i < n && t[i] == Started(gate);
    GateMarks(hs, ENTRY, 0, gate);
    assert t[i + 1] == Did(hs[gate].tag);
  }

  lemma {:induction false} StartedIsListed(t: seq<Event>, n: nat)
    requires n < |t| && t[n].Started?
    ensures t[n].index in Starts(t)
  {
    if n > 0 {
      assert t[1..][n - 1] == t[n];
      StartedIsListed(t[1..], n - 1);
    }
  }

  // The server.

  /** The shared indices of one call of Handle, and what happened in it. */
  class Dispatcher {
    const process: seq<Program>
    const funcs: seq<Program>
    var processIndex: int
    var funcIndex: int
    var log: seq<Event>

    constructor (process: seq<Program>, funcs: seq<Program>)
      ensures this.process == process && this.funcs == funcs && Valid() && Count() == 0 && log == []
    {
      this.process, this.funcs := process, funcs;
      processIndex, funcIndex, log := -1, -1, [];
    }

    ghost predicate Valid()
      reads this
    {
      -1 <= processIndex < |process| && -1 <= funcIndex < |funcs|
      && (funcIndex >= 0 ==> processIndex + 1 == |process|)
    }

    /** How many handlers have started: global handlers come first. */
    function Count(): (k: nat)
      reads this
      requires Valid()
      ensures k <= |process + funcs|
    {
      processIndex + 1 + funcIndex + 1
    }

    /** next_func: starts the next handler, which may call it again. */
    method Next() returns (thrown: Option<Kind>)
      requires Valid()
      modifies this
      ensures Valid()
      ensures var o := Exec(process + funcs, ENTRY, old(Count()));
        Count() == o.started && log == old(log) + o.trace && thrown == o.thrown
      decreases |process| + |funcs| - Count(), 0
    {
      hide Exec;
      ghost var hs := process + funcs;
      var k := Count();
      EntryUnfold(hs, k);
      log := log + [Called];
      if processIndex + 1 < |process| {
        processIndex := processIndex + 1;
        log := log + [Started(k)];
        thrown := Run(process[processIndex]);
      } else if funcIndex + 1 < |funcs| {
        funcIndex := funcIndex + 1;
        log := log + [Started(k)];
        thrown := Run(funcs[funcIndex]);
      } else {
        thrown := None;
      }
    }

    /** A handler at work. */
    method Run(p: Program) returns (thrown: Option<Kind>)
      requires Valid()
      modifies this
      ensures Valid()
      ensures var o := Exec(process + funcs, p, old(Count()));
        Count() == o.started && log == old(log) + o.trace && thrown == o.thrown
      decreases |process| + |funcs| - Count(), 1, p
    {
      hide Exec;
      ghost var hs, k := process + funcs, Count();
      PlainUnfold(hs, p, k);
      match p
      case Done =>
        thrown := None;
      case Throw(kind) =>
        thrown := Some(kind);
      case Effect(tag, rest) =>
        log := log + [Did(tag)];
        thrown := Run(rest);
      case CallNext(rest) =>
        CallUnfold(hs, rest, k);
        thrown := Next();
        if thrown.None? {
          thrown := Run(rest);
        }
      case Try(body, catches, handler, rest) =>
        thrown := RunTry(p);
        TryUnfold(hs, body, catches, handler, rest, k);
        if thrown.None? {
          thrown := Run(rest);
        }
    }

    method RunTry(p: Program) returns (thrown: Option<Kind>)
      requires Valid() && p.Try?
      modifies this
      ensures Valid()
      ensures var o := ExecTry(process + funcs, p.body, p.catches, p.handler, old(Count()));
        Count() == o.started && log == old(log) + o.trace && thrown == o.thrown
      decreases |process| + |funcs| - Count(), 1, p, 0
    {
      hide Exec;
      thrown := Run(p.body);
      if thrown.Some? && thrown.value in p.catches {
        thrown := Run(p.handler);
      }
    }
  }

  /** A protected block up to the end of its catch clause. */
  function ExecTry(hs: seq<Program>, body: Program, catches: set<Kind>, handler: Program, k: nat): (o: Outcome)
    requires k <= |hs|
    ensures k <= o.started <= |hs|
  {
    var o := Exec(hs, body, k);
    if o.thrown.Some? && o.thrown.value in catches then Before(o.trace, Exec(hs, handler, o.started)) else o
  }

  lemma TryUnfold(hs: seq<Program>, body: Program, catches: set<Kind>, handler: Program, rest: Program, k: nat)
    requires k <= |hs|
    ensures var o := ExecTry(hs, body, catches, handler, k);
      Exec(hs, Try(body, catches, handler, rest), k)
        == if o.thrown.Some? then o else Before(o.trace, Exec(hs, rest, o.started))
  {
  }

  lemma PlainUnfold(hs: seq<Program>, p: Program, k: nat)
    requires k <= |hs|
    ensures p.Done? ==> Exec(hs, p, k) == Outcome(k, [], None)
    ensures p.Throw? ==> Exec(hs, p, k) == Outcome(k, [], Some(p.kind))
    ensures p.Effect? ==> Exec(hs, p, k) == Before([Did(p.tag)], Exec(hs, p.rest, k))
  {
  }

  lemma EntryUnfold(hs: seq<Program>, k: nat)
    requires k <= |hs|
    ensures Exec(hs, ENTRY, k) ==
      if k == |hs| then Outcome(k, [Called], None) else Before([Called] + [Started(k)], Exec(hs, hs[k], k + 1))
  {
    if k < |hs| {
      var o := Exec(hs, hs[k], k + 1);
      assert Exec(hs, Done, o.started).trace == [];
      assert [Called, Started(k)] == [Called] + [Started(k)];
    }
  }

  lemma CallUnfold(hs: seq<Program>, rest: Program, k: nat)
    requires k <= |hs|
    ensures var e := Exec(hs, ENTRY, k);
      Exec(hs, CallNext(rest), k) == if e.thrown.Some? then e else Before(e.trace, Exec(hs, rest, e.started))
  {
    EntryUnfold(hs, k);
    assert [Called, Started(k)] == [Called] + [Started(k)];
  }

  /** What a request for a path makes happen: nothing when the path is not bound. */
  function Handled(process: seq<Program>, handlers: map<Bytes, seq<Program>>, path: Bytes): seq<Event> {
    if path in handlers then Exec(process + handlers[path], ENTRY, 0).trace else []
  }

  /** The exception that leaves Handle: that of a bound path's handlers, or, where none is bound, what
      the look-up of a static file throws, if it does. */
  function Escaped(process: seq<Program>, handlers: map<Bytes, seq<Program>>, path: Bytes, files: Option<Kind>)
    : Option<Kind>
  {
    if path in handlers then Exec(process + handlers[path], ENTRY, 0).thrown else files
  }

  /** Without a static path no file is looked up. */
  function Lookup(staticPath: Bytes, raised: Option<Kind>): Option<Kind> {
    if staticPath == [] then None else raised
  }

  class Server {
    var handlers: map<Bytes, seq<Program>>
    var processHandles: seq<Program>
    var staticPath: Bytes

    constructor ()
      ensures handlers == map[] && processHandles == [] && staticPath == []
    {
      handlers, processHandles, staticPath := map[], [], [];
    }

    method StaticPath(path: Bytes)
      modifies this`staticPath
      ensures staticPath == path
    {
      staticPath := path;
    }

    function At(path: Bytes): seq<Program>
      reads this
    {
      if path in handlers then handlers[path] else []
    }

    method Bind(path: Bytes, handler: Program)
      modifies this`handlers
      ensures At(path) == old(At(path)) + [handler]
      ensures handlers.Keys == old(handlers.Keys) + {path}
      ensures forall other :: other != path ==> At(other) == old(At(other))
    {
      handlers := handlers[path := At(path) + [handler]];
    }

    /** An empty list binds nothing. */
    method BindAll(path: Bytes, list: seq<Program>)
      modifies this`handlers
      ensures At(path) == old(At(path)) + list
      ensures handlers.Keys == old(handlers.Keys) + if list == [] then {} else {path}
      ensures forall other :: other != path ==> At(other) == old(At(other))
    {
      for i := 0 to |list|
        invariant At(path) == old(At(path)) + list[..i]
        invariant handlers.Keys == old(handlers.Keys) + if i == 0 then {} else {path}
        invariant forall other :: other != path ==> At(other) == old(At(other))
      {
        Bind(path, list[i]);
      }
    }

    method ProcessBind(handler: Program)
      modifies this`processHandles
      ensures processHandles == old(processHandles) + [handler]
    {
      processHandles := processHandles + [handler];
    }

    /** Gives what happened and the exception that left, if any; raised is what looking up a static
        file throws in this request. */
    method Handle(path: Bytes, raised: Option<Kind>) returns (log: seq<Event>, thrown: Option<Kind>)
      ensures log == Handled(processHandles, handlers, path)
      ensures thrown == Escaped(processHandles, handlers, path, Lookup(staticPath, raised))
    {
      hide Exec;
      log, thrown := [], None;
      if path in handlers {
        var d := new Dispatcher(processHandles, handlers[path]);
        thrown := d.Next();
        log := d.log;
      } else if staticPath != [] {
        thrown := raised;
      }
    }
  }
}
