/** The 64 rounds of src/util/md5.cpp and the functions of src/include/util/md5.h against
    section 3.4 of RFC 1321.  `unsigned int` is bv32. */
module Md5Rounds {
  type word = bv32

  // The round functions (src/include/util/md5.h).

  function F(b: word, c: word, d: word): word { (b & c) | (!b & d) }
  function G(b: word, c: word, d: word): word { (b & d) | (c & !d) }
  function H(b: word, c: word, d: word): word { b ^ c ^ d }
  function I(b: word, c: word, d: word): word { c ^ (b | !d) }

  function Shift(a: word, n: word): word
    requires 0 < n < 32
  {
    (a << n) | (a >> (32 - n))
  }

  // Addition is modulo 2^32.

  function Add(x: word, y: word): word { x + y }
  function Sub(x: word, y: word): word { x - y }

  /** T, the sine table, in rows of eight. */
  const SINES0: seq<word> := [0xd76aa478, 0xe8c7b756, 0x242070db, 0xc1bdceee,
                              0xf57c0faf, 0x4787c62a, 0xa8304613, 0xfd469501]
  const SINES1: seq<word> := [0x698098d8, 0x8b44f7af, 0xffff5bb1, 0x895cd7be,
                              0x6b901122, 0xfd987193, 0xa679438e, 0x49b40821]
  const SINES2: seq<word> := [0xf61e2562, 0xc040b340, 0x265e5a51, 0xe9b6c7aa,
                              0xd62f105d, 0x02441453, 0xd8a1e681, 0xe7d3fbc8]
  const SINES3: seq<word> := [0x21e1cde6, 0xc33707d6, 0xf4d50d87, 0x455a14ed,
                              0xa9e3e905, 0xfcefa3f8, 0x676f02d9, 0x8d2a4c8a]
  const SINES4: seq<word> := [0xfffa3942, 0x8771f681, 0x6d9d6122, 0xfde5380c,
                              0xa4beea44, 0x4bdecfa9, 0xf6bb4b60, 0xbebfbc70]
  const SINES5: seq<word> := [0x289b7ec6, 0xeaa127fa, 0xd4ef3085, 0x04881d05,
                              0xd9d4d039, 0xe6db99e5, 0x1fa27cf8, 0xc4ac5665]
  const SINES6: seq<word> := [0xf4292244, 0x432aff97, 0xab9423a7, 0xfc93a039,
                              0x655b59c3, 0x8f0ccc92, 0xffeff47d, 0x85845dd1]
  const SINES7: seq<word> := [0x6fa87e4f, 0xfe2ce6e0, 0xa3014314, 0x4e0811a1,
                              0xf7537e82, 0xbd3af235, 0x2ad7d2bb, 0xeb86d391]

  function Sine(i: nat): word
    requires i < 64
  {
    if i < 8 then SINES0[i] else if i < 16 then SINES1[i - 8] else if i < 24 then SINES2[i - 16]
    else if i < 32 then SINES3[i - 24] else if i < 40 then SINES4[i - 32] else if i < 48 then SINES5[i - 40]
    else if i < 56 then SINES6[i - 48] else SINES7[i - 56]
  }

  /** s, the rotation amounts: four per round, used in turn. */
  function Amount(i: nat): (n: word)
    requires i < 64
    ensures 0 < n < 32
  {
    if i < 16 then (if i % 4 == 0 then 7 else if i % 4 == 1 then 12 else if i % 4 == 2 then 17 else 22)
    else if i < 32 then (if i % 4 == 0 then 5 else if i % 4 == 1 then 9 else if i % 4 == 2 then 14 else 20)
    else if i < 48 then (if i % 4 == 0 then 4 else if i % 4 == 1 then 11 else if i % 4 == 2 then 16 else 23)
    else (if i % 4 == 0 then 6 else if i % 4 == 1 then 10 else if i % 4 == 2 then 15 else 21)
  }

  function Mix(i: nat, b: word, c: word, d: word): word {
    if i < 16 then F(b, c, d) else if i < 32 then G(b, c, d) else if i < 48 then H(b, c, d) else I(b, c, d)
  }

  /** The message word a step uses, as the source computes it. */
  function WordIndex(i: nat): (k: nat)
    ensures k < 16
  {
    if i < 16 then i else if i < 32 then (1 + 5 * i) % 16 else if i < 48 then (5 + 3 * i) % 16 else 7 * i % 16
  }

  datatype Regs = Regs(a: word, b: word, c: word, d: word)

  type Block = x: seq<word> | |x| == 16 witness seq(16, i => 0)

  // Section 3.4 of RFC 1321.

  /** Circular rotation to the left by s bit positions, for the amounts that occur. */
  function Circular(x: word, s: word): word {
    if s == 4 then x.RotateLeft(4) else if s == 5 then x.RotateLeft(5) else if s == 6 then x.RotateLeft(6)
    else if s == 7 then x.RotateLeft(7) else if s == 9 then x.RotateLeft(9) else if s == 10 then x.RotateLeft(10)
    else if s == 11 then x.RotateLeft(11) else if s == 12 then x.RotateLeft(12) else if s == 14 then x.RotateLeft(14)
    else if s == 15 then x.RotateLeft(15) else if s == 16 then x.RotateLeft(16) else if s == 17 then x.RotateLeft(17)
    else if s == 20 then x.RotateLeft(20) else if s == 21 then x.RotateLeft(21) else if s == 22 then x.RotateLeft(22)
    else if s == 23 then x.RotateLeft(23) else x
  }

  /** The message words are taken from a start, with a stride, in each round of sixteen. */
  function RfcIndex(i: nat): (k: nat)
    ensures k < 16
  {
    var j := i % 16;
    if i < 16 then j else if i < 32 then (1 + 5 * j) % 16 else if i < 48 then (5 + 3 * j) % 16 else 7 * j % 16
  }

  /** The operation [abcd k s i]: a = b + ((a + f(b,c,d) + X[k] + T[i]) <<< s). */
  function Operation(a: word, b: word, c: word, d: word, x: Block, i: nat): word
    requires i < 64
  {
    Add(b, Circular(Add(Add(Add(a, Mix(i, b, c, d)), x[RfcIndex(i)]), Sine(i)), Amount(i)))
  }

  /** The four orders of the registers: ABCD, DABC, CDAB, BCDA. */
  type Role = m: nat | m < 4

  function NextRole(m: Role): Role {
    if m == 3 then 0 else m + 1
  }

  /** The registers in the order of a role. */
  function Ordered(r: Regs, m: Role): Regs {
    if m == 0 then r
    else if m == 1 then Regs(r.d, r.a, r.b, r.c)
    else if m == 2 then Regs(r.c, r.d, r.a, r.b)
    else Regs(r.b, r.c, r.d, r.a)
  }

  /** Assign to the register that comes first in the order. */
  function AssignFirst(r: Regs, m: Role, w: word): Regs {
    if m == 0 then r.(a := w) else if m == 1 then r.(d := w) else if m == 2 then r.(c := w) else r.(b := w)
  }

  /** One of the 64 operations, with the registers in the order given. */
  function Perform(r: Regs, x: Block, i: nat, m: Role): Regs
    requires i < 64
  {
    var v := Ordered(r, m);
    AssignFirst(r, m, Operation(v.a, v.b, v.c, v.d, x, i))
  }

  /** The orders are used in turn. */
  function RfcStep(r: Regs, x: Block, i: nat): Regs
    requires i < 64
  {
    Perform(r, x, i, i % 4)
  }

  function RfcSteps(r: Regs, x: Block, n: nat): Regs
    requires n <= 64
  {
    if n == 0 then r else RfcStep(RfcSteps(r, x, n - 1), x, n - 1)
  }

  function Plus(r: Regs, q: Regs): Regs {
    Regs(Add(r.a, q.a), Add(r.b, q.b), Add(r.c, q.c), Add(r.d, q.d))
  }

  function RfcBlock(r: Regs, x: Block): Regs {
    Plus(r, RfcSteps(r, x, 64))
  }

  // The rounds as the source runs them.

  /** One turn of the loop in IterateFunc: the names rotate instead of the roles. */
  function Turn(v: Regs, x: Block, i: nat): Regs
    requires i < 64
  {
    var sum := Add(Add(Add(v.a, Mix(i, v.b, v.c, v.d)), x[WordIndex(i)]), Sine(i));
    Regs(v.d, Add(v.b, Shift(sum, Amount(i))), v.b, v.c)
  }

  function Turns(v: Regs, x: Block, n: nat): Regs
    requires n <= 64
  {
    if n == 0 then v else Turn(Turns(v, x, n - 1), x, n - 1)
  }

  lemma ShiftIsCircular(a: word, i: nat)
    requires i < 64
    ensures Shift(a, Amount(i)) == Circular(a, Amount(i))
  {
    assert Shift(a, 7) == Circular(a, 7) && Shift(a, 12) == Circular(a, 12);
    assert Shift(a, 17) == Circular(a, 17) && Shift(a, 22) == Circular(a, 22);
    assert Shift(a, 5) == Circular(a, 5) && Shift(a, 9) == Circular(a, 9);
    assert Shift(a, 14) == Circular(a, 14) && Shift(a, 20) == Circular(a, 20);
    assert Shift(a, 4) == Circular(a, 4) && Shift(a, 11) == Circular(a, 11);
    assert Shift(a, 16) == Circular(a, 16) && Shift(a, 23) == Circular(a, 23);
    assert Shift(a, 6) == Circular(a, 6) && Shift(a, 10) == Circular(a, 10);
    assert Shift(a, 15) == Circular(a, 15) && Shift(a, 21) == Circular(a, 21);
  }

  lemma DropMultiple(x: nat, m: nat)
    ensures (x + 16 * m) % 16 == x % 16
  {
  }

  lemma SameIndex(i: nat)
    requires i < 64
    ensures WordIndex(i) == RfcIndex(i)
  {
    var j := i % 16;
    if 16 <= i < 32 {
      assert i == j + 16;
      DropMultiple(1 + 5 * j, 5);
    } else if 32 <= i < 48 {
      assert i == j + 32;
      DropMultiple(5 + 3 * j, 6);
    } else if 48 <= i {
      assert i == j + 48;
      DropMultiple(7 * j, 21);
    }
  }

  lemma TurnIsOperation(v: Regs, x: Block, i: nat)
    requires i < 64
    ensures Turn(v, x, i) == Regs(v.d, Operation(v.a, v.b, v.c, v.d, x, i), v.b, v.c)
  {
    hide Add, Mix, Sine, Amount, WordIndex, RfcIndex, Shift, Circular;
    SameIndex(i);
    ShiftIsCircular(Add(Add(Add(v.a, Mix(i, v.b, v.c, v.d)), x[WordIndex(i)]), Sine(i)), i);
  }

  lemma NamesRotate(r: Regs, m: Role, w: word)
    ensures var v := Ordered(r, m); Regs(v.d, w, v.b, v.c) == Ordered(AssignFirst(r, m, w), NextRole(m))
  {
    var Regs(a, b, c, d) := r;
    if m == 0 {
      assert Ordered(Regs(w, b, c, d), 1) == Regs(d, w, b, c);
    } else if m == 1 {
      assert Ordered(Regs(a, b, c, w), 2) == Regs(c, w, a, b);
    } else if m == 2 {
      assert Ordered(Regs(a, b, w, d), 3) == Regs(b, w, d, a);
    } else {
      assert Ordered(Regs(a, w, c, d), 0) == Regs(a, w, c, d);
    }
  }

  lemma TurnIsPerform(r: Regs, x: Block, i: nat, m: Role)
    requires i < 64
    ensures Turn(Ordered(r, m), x, i) == Ordered(Perform(r, x, i, m), NextRole(m))
  {
    hide Operation, Turn, Ordered, AssignFirst, NextRole;
    var v := Ordered(r, m);
    TurnIsOperation(v, x, i);
    NamesRotate(r, m, Operation(v.a, v.b, v.c, v.d, x, i));
  }

  lemma RolesAdvance(i: nat)
    ensures NextRole(i % 4) == (i + 1) % 4
  {
  }

  /** Renaming the registers every turn, as the source does, gives the operations of section 3.4;
      after 64 turns the names are back in place. */
  lemma {:induction false} TurnsAreSteps(r: Regs, x: Block, n: nat)
    requires n <= 64
    ensures Turns(r, x, n) == Ordered(RfcSteps(r, x, n), n % 4)
  {
    if n > 0 {
      hide Turn, Perform, Ordered;
      TurnsAreSteps(r, x, n - 1);
      TurnIsPerform(RfcSteps(r, x, n - 1), x, n - 1, (n - 1) % 4);
      RolesAdvance(n - 1);
    }
  }

  // The 64 turns can be run backwards.

  function Unrotate(x: word, s: word): word {
    if s == 4 then x.RotateRight(4) else if s == 5 then x.RotateRight(5) else if s == 6 then x.RotateRight(6)
    else if s == 7 then x.RotateRight(7) else if s == 9 then x.RotateRight(9) else if s == 10 then x.RotateRight(10)
    else if s == 11 then x.RotateRight(11) else if s == 12 then x.RotateRight(12) else if s == 14 then x.RotateRight(14)
    else if s == 15 then x.RotateRight(15) else if s == 16 then x.RotateRight(16) else if s == 17 then x.RotateRight(17)
    else if s == 20 then x.RotateRight(20) else if s == 21 then x.RotateRight(21) else if s == 22 then x.RotateRight(22)
    else if s == 23 then x.RotateRight(23) else x
  }

  lemma RotationsCancel(a: word, n: word)
    requires n == 7 || n == 12 || n == 17 || n == 22 || n == 5 || n == 9 || n == 14 || n == 20
          || n == 4 || n == 11 || n == 16 || n == 23 || n == 6 || n == 10 || n == 15 || n == 21
    ensures Unrotate(Circular(a, n), n) == a && Circular(Unrotate(a, n), n) == a
  {
  }

  lemma UnrotateUndoes(a: word, i: nat)
    requires i < 64
    ensures Unrotate(Shift(a, Amount(i)), Amount(i)) == a && Shift(Unrotate(a, Amount(i)), Amount(i)) == a
  {
    hide Shift, Circular, Unrotate;
    ShiftIsCircular(a, i);
    ShiftIsCircular(Unrotate(a, Amount(i)), i);
    RotationsCancel(a, Amount(i));
  }

  function Unturn(v: Regs, x: Block, i: nat): Regs
    requires i < 64
  {
    var sum := Unrotate(Sub(v.b, v.c), Amount(i));
    Regs(Sub(Sub(Sub(sum, Sine(i)), x[WordIndex(i)]), Mix(i, v.c, v.d, v.a)), v.c, v.d, v.a)
  }

  function Unturns(v: Regs, x: Block, n: nat): Regs
    requires n <= 64
    decreases n
  {
    if n == 0 then v else Unturns(Unturn(v, x, n - 1), x, n - 1)
  }

  lemma AddSubCancel(x: word, y: word)
    ensures Sub(Add(x, y), y) == x && Sub(Add(x, y), x) == y && Add(Sub(x, y), y) == x && Add(y, Sub(x, y)) == x
  {
  }

  lemma UnturnUndoes(v: Regs, x: Block, i: nat)
    requires i < 64
    ensures Unturn(Turn(v, x, i), x, i) == v
  {
    hide Add, Sub, Mix, Sine, Amount, WordIndex, Shift, Unrotate;
    var m, k, t := Mix(i, v.b, v.c, v.d), x[WordIndex(i)], Sine(i);
    var sum := Add(Add(Add(v.a, m), k), t);
    AddSubCancel(v.b, Shift(sum, Amount(i)));
    UnrotateUndoes(sum, i);
    AddSubCancel(Add(Add(v.a, m), k), t);
    AddSubCancel(Add(v.a, m), k);
    AddSubCancel(v.a, m);
  }

  lemma TurnUndoes(v: Regs, x: Block, i: nat)
    requires i < 64
    ensures Turn(Unturn(v, x, i), x, i) == v
  {
    hide Add, Sub, Mix, Sine, Amount, WordIndex, Shift, Unrotate;
    var m, k, t := Mix(i, v.c, v.d, v.a), x[WordIndex(i)], Sine(i);
    var sum := Unrotate(Sub(v.b, v.c), Amount(i));
    AddSubCancel(Sub(Sub(sum, t), k), m);
    AddSubCancel(Sub(sum, t), k);
    AddSubCancel(sum, t);
    UnrotateUndoes(Sub(v.b, v.c), i);
    AddSubCancel(v.b, v.c);
  }

  /** For every block the 64 turns are a bijection on the registers: running them backwards undoes
      them, and running them forwards undoes that. */
  lemma {:induction false} RoundsAreBijective(v: Regs, x: Block, n: nat)
    requires n <= 64
    ensures Unturns(Turns(v, x, n), x, n) == v
    ensures Turns(Unturns(v, x, n), x, n) == v
    decreases n
  {
    if n > 0 {
      RoundsAreBijective(v, x, n - 1);
      UnturnUndoes(Turns(v, x, n - 1), x, n - 1);
      RoundsAreBijective(Unturn(v, x, n - 1), x, n - 1);
      TurnUndoes(v, x, n - 1);
    }
  }
}
