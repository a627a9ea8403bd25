/** The block allocator of src/include/util/object_pool.h.

    Every public operation holds `mutex_` from its first statement to its last, so each is one
    atomic step.  The source takes the same lock again when Allocate grows the pool; here, as
    intended, growth is part of Allocate's step. */
module ObjectPool {
  import opened Bytes

  /** The value `-1` takes in the unsigned field `max_size_`: no limit. */
  const NO_LIMIT: nat := 0xFFFF_FFFF_FFFF_FFFF
  const SIZE_RANGE: nat := 0x1_0000_0000_0000_0000

  /** The address of one object: its block and its position in the block. */
  datatype Slot = Slot(block: nat, index: nat)

  datatype Model = Model(
    memory: seq<nat>,     // all_memory_: the size of every block ever grown
    idle: seq<Slot>,      // idle_objs_
    blockSize: nat,       // block_size_
    maxSize: nat,         // max_size_
    nowSize: nat,         // now_size_, a size_t
    live: set<Slot>)      // history: objects handed out and not yet returned

  datatype Op = SetBlockSize(size: nat) | SetMaxSize(size: nat) | Allocate | Delete(slot: Slot)

  ghost predicate Full(m: Model) {
    m.maxSize != NO_LIMIT && m.nowSize == m.maxSize
  }

  /** What the source asks of its caller: sizes fit a size_t, only a live object is deleted, and
      a pool that has to grow has a block size (taking the back of an empty vector is undefined). */
  ghost predicate Enabled(m: Model, op: Op) {
    match op
    case SetBlockSize(_) => true
    case SetMaxSize(n) => n < SIZE_RANGE
    case Allocate => Full(m) || m.idle != [] || m.blockSize > 0
    case Delete(x) => x in m.live
  }

  function NewSlots(block: nat, size: nat): (r: seq<Slot>)
    ensures |r| == size && forall i :: 0 <= i < size ==> r[i] == Slot(block, i)
  {
    seq(size, i requires 0 <= i < size => Slot(block, i))
  }

  ghost function Grow(m: Model): Model {
    m.(memory := m.memory + [m.blockSize], idle := m.idle + NewSlots(|m.memory|, m.blockSize))
  }

  ghost function Stocked(m: Model): Model {
    if m.idle == [] then Grow(m) else m
  }

  ghost function Exec(m: Model, op: Op): Model
    requires Enabled(m, op)
  {
    match op
    case SetBlockSize(n) => m.(blockSize := n)
    case SetMaxSize(n) => m.(maxSize := n)
    case Allocate =>
      if Full(m) then m
      else
        var g := Stocked(m);
        g.(idle := g.idle[..|g.idle| - 1],
           nowSize := (g.nowSize + 1) % SIZE_RANGE,
           live := g.live + {g.idle[|g.idle| - 1]})
    case Delete(x) =>
      m.(idle := m.idle + [x], nowSize := (m.nowSize + SIZE_RANGE - 1) % SIZE_RANGE, live := m.live - {x})
  }

  /** The object Allocate returns, if any. */
  ghost function Granted(m: Model): Option<Slot>
    requires Enabled(m, Allocate)
  {
    if Full(m) then None else var g := Stocked(m); Some(g.idle[|g.idle| - 1])
  }

  /** The set allocator that users of the pool see: it refuses exactly when `max` objects are
      live, and otherwise hands out an object that is not live. */
  predicate MayGrant(live: set<Slot>, max: nat, slot: Slot) {
    |live| != max && slot !in live
  }

  // The invariant.

  ghost function AllSlots(memory: seq<nat>): set<Slot> {
    set b: nat, i: nat | b < |memory| && i < memory[b] :: Slot(b, i)
  }

  ghost predicate NoDuplicates<T(!new)>(s: seq<T>) {
    forall i, j :: 0 <= i < j < |s| ==> s[i] != s[j]
  }

  ghost predicate Inv(m: Model) {
    && NoDuplicates(m.idle)
    && (forall x :: x in m.idle ==> x !in m.live)
    && (forall x :: x in AllSlots(m.memory) <==> x in m.idle || x in m.live)
    && m.nowSize == |m.live| % SIZE_RANGE
    && m.maxSize < SIZE_RANGE
  }

  lemma GrowKeepsInv(m: Model)
    requires Inv(m)
    ensures Inv(Grow(m))
  {
    var g := Grow(m);
    var b := |m.memory|;
    assert forall x :: x in m.idle || x in m.live ==> x in AllSlots(m.memory);
    assert forall x :: x in AllSlots(m.memory) ==> x.block < b;
    forall x ensures x in AllSlots(g.memory) <==> x in AllSlots(m.memory) || x in NewSlots(b, m.blockSize) {
      if x in AllSlots(g.memory) && x.block == b {
        assert NewSlots(b, m.blockSize)[x.index] == x;
      }
    }
    assert forall i :: 0 <= i < |m.idle| ==> g.idle[i] == m.idle[i] && m.idle[i] in m.idle;
    assert forall i :: |m.idle| <= i < |g.idle| ==> g.idle[i] == Slot(b, i - |m.idle|);
  }

  lemma StepKeepsInv(m: Model, op: Op)
    requires Inv(m) && Enabled(m, op)
    ensures Inv(Exec(m, op))
  {
    match op {
      case SetBlockSize(_) =>
      case SetMaxSize(_) =>
      case Allocate => AllocateKeepsInv(m);
      case Delete(x) => DeleteKeepsInv(m, x);
    }
  }

  lemma AllocateKeepsInv(m: Model)
    requires Inv(m) && Enabled(m, Allocate)
    ensures Inv(Exec(m, Allocate))
    ensures Granted(m).Some? ==> Granted(m).value !in m.live && Exec(m, Allocate).live == m.live + {Granted(m).value}
  {
    if !Full(m) {
      StockedInv(m);
      TakeKeepsInv(Stocked(m));
    }
  }

  lemma StockedInv(m: Model)
    requires Inv(m)
    ensures Inv(Stocked(m)) && Stocked(m).live == m.live
  {
    if m.idle == [] { GrowKeepsInv(m); }
  }

  lemma TakeKeepsInv(g: Model)
    requires Inv(g) && g.idle != []
    ensures g.idle[|g.idle| - 1] !in g.live
    ensures Inv(g.(idle := g.idle[..|g.idle| - 1],
                   nowSize := (g.nowSize + 1) % SIZE_RANGE,
                   live := g.live + {g.idle[|g.idle| - 1]}))
  {
    var n := |g.idle| - 1;
    var x, rest := g.idle[n], g.idle[..n];
    assert x in g.idle;
    forall y ensures y in g.idle <==> y in rest || y == x {
      if y in g.idle {
        var i :| 0 <= i < |g.idle| && g.idle[i] == y;
        assert i < n ==> rest[i] == y;
      }
    }
    assert x !in rest;
    assert |g.live + {x}| == |g.live| + 1;
  }

  lemma DeleteKeepsInv(m: Model, x: Slot)
    requires Inv(m) && x in m.live
    ensures Inv(Exec(m, Delete(x)))
  {
    var q := Exec(m, Delete(x));
    assert x in AllSlots(m.memory) && x !in m.idle;
    assert |q.live| == |m.live| - 1;
    assert forall y :: y in q.idle <==> y in m.idle || y == x;
  }

  // Runs.

  ghost predicate ValidRun(m: Model, ops: seq<Op>)
    decreases |ops|
  {
    ops == [] || (Enabled(m, ops[0]) && ValidRun(Exec(m, ops[0]), ops[1..]))
  }

  ghost function Run(m: Model, ops: seq<Op>): Model
    requires ValidRun(m, ops)
    decreases |ops|
  {
    if ops == [] then m else Run(Exec(m, ops[0]), ops[1..])
  }

  ghost function Initial(blockSize: nat): Model {
    Grow(Model([], [], blockSize, NO_LIMIT, 0, {}))
  }

  /** Over every run, whatever block sizes were set between growths: no idle object is listed
      twice or is live, and idle and live objects together are all objects of all blocks. */
  lemma {:induction false} EverySlotIdleOrLive(blockSize: nat, ops: seq<Op>)
    requires ValidRun(Initial(blockSize), ops)
    ensures var m := Run(Initial(blockSize), ops);
      && NoDuplicates(m.idle)
      && (set x | x in m.idle) !! m.live
      && (set x | x in m.idle) + m.live == AllSlots(m.memory)
      && m.nowSize == |m.live| % SIZE_RANGE
  {
    var z := Model([], [], blockSize, NO_LIMIT, 0, {});
    assert AllSlots(z.memory) == {};
    GrowKeepsInv(z);
    RunKeepsInv(Initial(blockSize), ops);
  }

  lemma {:induction false} RunKeepsInv(m: Model, ops: seq<Op>)
    requires Inv(m) && ValidRun(m, ops)
    ensures Inv(Run(m, ops))
    decreases |ops|
  {
    if ops != [] {
      StepKeepsInv(m, ops[0]);
      RunKeepsInv(Exec(m, ops[0]), ops[1..]);
    }
  }

  /** The set allocator is refined: a grant is a slot nobody has, and a pool whose count is within
      its limit refuses exactly when the limit is reached. */
  lemma GrantsFreshSlot(m: Model)
    requires Inv(m) && Enabled(m, Allocate) && Within(m)
    ensures Granted(m).None? <==> m.maxSize != NO_LIMIT && |m.live| == m.maxSize
    ensures Granted(m).Some? ==>
      && Granted(m).value !in m.live
      && Exec(m, Allocate).live == m.live + {Granted(m).value}
      && (m.maxSize != NO_LIMIT ==> MayGrant(m.live, m.maxSize, Granted(m).value))
  {
    AllocateKeepsInv(m);
  }

  /** A growth adds as many objects as the block size last set says. */
  lemma GrowthAfterSetBlockSize(m: Model, size: nat)
    requires Inv(m)
    ensures var q := Grow(Exec(m, SetBlockSize(size)));
      |q.idle| == |m.idle| + size && q.memory == m.memory + [size] && q.live == m.live
  {
  }

  /** A new pool has no limit, and what was deleted last is granted first. */
  lemma LastDeletedFirstGranted(m: Model, x: Slot)
    requires Inv(m) && x in m.live && |m.live| < SIZE_RANGE && (m.maxSize == NO_LIMIT || |m.live| <= m.maxSize)
    ensures Granted(Exec(m, Delete(x))) == Some(x)
  {
    DeleteKeepsInv(m, x);
    assert |m.live - {x}| == |m.live| - 1;
  }

  lemma NewPoolGrants(blockSize: nat)
    requires blockSize > 0
    ensures Granted(Initial(blockSize)) == Some(Slot(0, blockSize - 1))
  {
  }

  // The size limit.

  ghost predicate Within(m: Model) {
    m.maxSize == NO_LIMIT || |m.live| <= m.maxSize
  }

  /** The limit is respected now and after every operation of the run. */
  ghost predicate AlwaysWithin(m: Model, ops: seq<Op>)
    requires ValidRun(m, ops)
    decreases |ops|
  {
    Within(m) && (ops == [] || AlwaysWithin(Exec(m, ops[0]), ops[1..]))
  }

  /** No operation of the run sets a limit below the number of objects then live. */
  ghost predicate SaneLimits(m: Model, ops: seq<Op>)
    requires ValidRun(m, ops)
    decreases |ops|
  {
    ops == [] ||
    (&& (ops[0].SetMaxSize? ==> ops[0].size == NO_LIMIT || |m.live| <= ops[0].size)
     && SaneLimits(Exec(m, ops[0]), ops[1..]))
  }

  /** The limit test is an equality, so it works exactly when the limit is never set below the
      number of live objects. */
  lemma {:induction false} LimitHoldsIffSane(m: Model, ops: seq<Op>)
    requires Inv(m) && Within(m) && ValidRun(m, ops)
    ensures AlwaysWithin(m, ops) <==> SaneLimits(m, ops)
    decreases |ops|
  {
    if ops != [] {
      var q := Exec(m, ops[0]);
      StepKeepsInv(m, ops[0]);
      if Within(q) {
        LimitHoldsIffSane(q, ops[1..]);
      }
      if !ops[0].SetMaxSize? {
        StepStaysWithin(m, ops[0]);
      }
    }
  }

  lemma StepStaysWithin(m: Model, op: Op)
    requires Inv(m) && Within(m) && Enabled(m, op) && !op.SetMaxSize?
    ensures Within(Exec(m, op))
  {
    if op.Allocate? && !Full(m) && m.maxSize != NO_LIMIT {
      GrantsFreshSlot(m);
    }
    if op.Delete? {
      assert |m.live - {op.slot}| == |m.live| - 1;
    }
  }

  /** Above its limit the pool never refuses: an equality test cannot be met from above. */
  lemma NeverRefusesAboveLimit(m: Model)
    requires Inv(m) && Enabled(m, Allocate) && m.maxSize < |m.live| < SIZE_RANGE
    ensures Granted(m).Some? && |Exec(m, Allocate).live| == |m.live| + 1 > m.maxSize
  {
    AllocateKeepsInv(m);
    var x := Granted(m).value;
    assert |m.live + {x}| == |m.live| + 1;
  }

  /** The pool object itself. */
  class Pool {
    var memory: seq<nat>
    var idle: seq<Slot>
    var blockSize: nat
    var maxSize: nat
    var nowSize: nat
    ghost var live: set<Slot>

    ghost function View(): Model
      reads this
    {
      Model(memory, idle, blockSize, maxSize, nowSize, live)
    }

    constructor (size: nat)
      ensures View() == Initial(size) && Inv(View())
    {
      memory, idle, blockSize, maxSize, nowSize, live := [], [], size, NO_LIMIT, 0, {};
      new;
      ghost var z := View();
      assert AllSlots(z.memory) == {};
      GrowKeepsInv(z);
      AllocNewBlock();
    }

    method AllocNewBlock()
      modifies this
      ensures View() == Grow(old(View()))
    {
      var block := |memory|;
      memory := memory + [blockSize];
      ghost var before := idle;
      var i := 0;
      while i < blockSize
        invariant 0 <= i <= blockSize == old(blockSize)
        invariant idle == before + NewSlots(block, i)
        invariant memory == old(memory) + [blockSize] && maxSize == old(maxSize)
        invariant nowSize == old(nowSize) && live == old(live)
      {
        idle := idle + [Slot(block, i)];
        i := i + 1;
        assert NewSlots(block, i) == NewSlots(block, i - 1) + [Slot(block, i - 1)];
      }
    }

    method SetBlockSize(size: nat)
      requires Inv(View())
      modifies this
      ensures View() == Exec(old(View()), Op.SetBlockSize(size)) && Inv(View())
    {
      blockSize := size;
    }

    method SetMaxSize(size: nat)
      requires Inv(View()) && size < SIZE_RANGE
      modifies this
      ensures View() == Exec(old(View()), Op.SetMaxSize(size)) && Inv(View())
    {
      maxSize := size;
    }

    method Allocate() returns (r: Option<Slot>)
      requires Inv(View()) && Enabled(View(), Op.Allocate)
      modifies this
      ensures View() == Exec(old(View()), Op.Allocate) && Inv(View())
      ensures r == Granted(old(View()))
      ensures r.Some? ==> r.value !in old(live) && live == old(live) + {r.value}
    {
      AllocateKeepsInv(View());
      if maxSize != NO_LIMIT && nowSize == maxSize {
        return None;
      }
      if idle == [] {
        AllocNewBlock();
      }
      assert View() == Stocked(old(View()));
      var x := idle[|idle| - 1];
      idle := idle[..|idle| - 1];
      nowSize := (nowSize + 1) % SIZE_RANGE;
      live := live + {x};
      r := Some(x);
    }

    method Delete(slot: Slot)
      requires Inv(View()) && slot in live
      modifies this
      ensures View() == Exec(old(View()), Op.Delete(slot)) && Inv(View())
      ensures slot !in live && slot in idle
    {
      StepKeepsInv(View(), Op.Delete(slot));
      nowSize := (nowSize + SIZE_RANGE - 1) % SIZE_RANGE;
      idle := idle + [slot];
      live := live - {slot};
    }
  }
}
