/** src/util/md5.cpp against sections 3.1 to 3.5 of RFC 1321.

    Message bytes are unsigned.  The source widens a `char` to int before it shifts, so where
    `char` is signed this describes messages of bytes below 128. */
module Md5 {
  import opened Bytes
  import opened Md5Rounds

  // Bytes and words.

  function Widen(x: byte): word {
    Bits(x) as bv32
  }

  /** A word from its four bytes, low-order byte first. */
  function WordOf(a: byte, b: byte, c: byte, d: byte): word {
    Join(Widen(a), Widen(b), Widen(c), Widen(d))
  }

  function Join(a: word, b: word, c: word, d: word): word {
    a | (b << 8) | (c << 16) | (d << 24)
  }

  /** The low-order 32 bits of a number. */
  function LowWord(n: nat): word {
    WordOf(Digit256(n, 0), Digit256(n, 1), Digit256(n, 2), Digit256(n, 3))
  }

  /** The bytes of a number, counted from the low-order end. */
  function Digit256(x: nat, k: nat): byte {
    if k == 0 then x % 256 else Digit256(x / 256, k - 1)
  }

  lemma ExtendInjective(a: bv8, b: bv8)
    requires a as bv32 == b as bv32
    ensures a == b
  {
  }

  lemma WidenInjective(x: byte, y: byte)
    requires Widen(x) == Widen(y)
    ensures x == y
  {
    var a, b := Bits(x), Bits(y);
    hide Bits, Number;
    ExtendInjective(a, b);
    NumberOfBits(x);
    NumberOfBits(y);
  }

  lemma BytesOfWord(a: word, b: word, c: word, d: word)
    requires a <= 0xff && b <= 0xff && c <= 0xff && d <= 0xff
    ensures var w := Join(a, b, c, d);
      w & 0xff == a && (w >> 8) & 0xff == b && (w >> 16) & 0xff == c && (w >> 24) & 0xff == d
  {
  }

  lemma WordInjective(a: byte, b: byte, c: byte, d: byte, a': byte, b': byte, c': byte, d': byte)
    requires WordOf(a, b, c, d) == WordOf(a', b', c', d')
    ensures a == a' && b == b' && c == c' && d == d'
  {
    BytesOfWord(Widen(a), Widen(b), Widen(c), Widen(d));
    BytesOfWord(Widen(a'), Widen(b'), Widen(c'), Widen(d'));
    WidenInjective(a, a');
    WidenInjective(b, b');
    WidenInjective(c, c');
    WidenInjective(d, d');
  }

  // Padding: sections 3.1 and 3.2 of RFC 1321 on bytes.

  function Zeros(n: nat): (r: Bytes)
    ensures |r| == n
    ensures forall k :: 0 <= k < n ==> r[k] == 0
  {
    seq(n, _ => 0)
  }

  /** A number in n bytes, low-order byte first; what does not fit is dropped. */
  function LittleEndian(x: nat, n: nat): (r: Bytes)
    ensures |r| == n
  {
    if n == 0 then [] else [x % 256] + LittleEndian(x / 256, n - 1)
  }

  /** How many 64-byte blocks the padded message has. */
  function Blocks(n: nat): nat {
    (n + 8) / 64 + 1
  }

  /** Message, a one bit, zero bits up to 448 modulo 512, and the length in bits as 64 bits. */
  function Padded(m: Bytes): (p: Bytes)
    ensures |p| == 64 * Blocks(|m|)
  {
    m + [0x80] + Zeros(64 * Blocks(|m|) - 9 - |m|) + LittleEndian(8 * |m|, 8)
  }

  /** A byte of a text continued with zeros. */
  function At(s: Bytes, k: nat): byte {
    if k < |s| then s[k] else 0
  }

  function WordAt(s: Bytes, j: nat): word {
    WordOf(At(s, 4 * j), At(s, 4 * j + 1), At(s, 4 * j + 2), At(s, 4 * j + 3))
  }

  /** A byte moved to its place in a word. */
  function Placed(x: word, r: nat): word
    requires r < 4
  {
    if r == 0 then x else if r == 1 then x << 8 else if r == 2 then x << 16 else x << 24
  }

  function Or(x: word, y: word): word { x | y }

  lemma PlaceFirst(x: word, z: word)
    requires z == 0
    ensures Or(Join(z, z, z, z), Placed(x, 0)) == Join(x, z, z, z)
  {
  }

  lemma PlaceSecond(a: word, x: word, z: word)
    requires z == 0
    ensures Or(Join(a, z, z, z), Placed(x, 1)) == Join(a, x, z, z)
  {
  }

  lemma PlaceThird(a: word, b: word, x: word, z: word)
    requires z == 0
    ensures Or(Join(a, b, z, z), Placed(x, 2)) == Join(a, b, x, z)
  {
  }

  lemma PlaceFourth(a: word, b: word, c: word, x: word, z: word)
    requires z == 0
    ensures Or(Join(a, b, c, z), Placed(x, 3)) == Join(a, b, c, x)
  {
  }

  lemma WidenZero()
    ensures Widen(0) == 0
  {
  }

  lemma PlaceByte(a: byte, b: byte, c: byte, x: byte, r: nat)
    requires r < 4 && (r < 1 ==> a == 0) && (r < 2 ==> b == 0) && (r < 3 ==> c == 0)
    ensures Or(WordOf(a, b, c, 0), Placed(Widen(x), r))
         == WordOf(if r == 0 then x else a, if r == 1 then x else b, if r == 2 then x else c, if r == 3 then x else 0)
  {
    hide Widen, Join, Or, Placed;
    WidenZero();
    if r == 0 {
      PlaceFirst(Widen(x), Widen(0));
    } else if r == 1 {
      PlaceSecond(Widen(a), Widen(x), Widen(0));
    } else if r == 2 {
      PlaceThird(Widen(a), Widen(b), Widen(x), Widen(0));
    } else {
      PlaceFourth(Widen(a), Widen(b), Widen(c), Widen(x), Widen(0));
    }
  }

  lemma ExtendAt(s: Bytes, x: byte, k: nat)
    ensures At(s + [x], k) == if k == |s| then x else At(s, k)
  {
  }

  lemma SameWord(s: Bytes, t: Bytes, j: nat)
    requires forall k :: 4 * j <= k < 4 * j + 4 ==> At(s, k) == At(t, k)
    ensures WordAt(s, j) == WordAt(t, j)
  {
    hide WordOf, At;
  }

  /** Or-ing the next byte into its word extends the text by that byte. */
  lemma OrExtends(s: Bytes, x: byte, q: nat, r: nat, j: nat)
    requires |s| == 4 * q + r && r < 4
    ensures WordAt(s + [x], j) == if j == q then Or(WordAt(s, j), Placed(Widen(x), r)) else WordAt(s, j)
  {
    hide WordOf, Placed, Widen, Or;
    var t := s + [x];
    if j == q {
      ExtendAt(s, x, 4 * q);
      ExtendAt(s, x, 4 * q + 1);
      ExtendAt(s, x, 4 * q + 2);
      ExtendAt(s, x, 4 * q + 3);
      PlaceByte(At(s, 4 * q), At(s, 4 * q + 1), At(s, 4 * q + 2), x, r);
    } else {
      forall k | 4 * j <= k < 4 * j + 4
        ensures At(s, k) == At(t, k)
      {
        ExtendAt(s, x, k);
      }
      SameWord(s, t, j);
    }
  }

  lemma OrNext(s: Bytes, i: nat, q: nat, r: nat)
    requires i < |s| && i == 4 * q + r && r < 4
    ensures forall j: nat ::
      WordAt(s[..i + 1], j) == if j == q then Or(WordAt(s[..i], j), Placed(Widen(s[i]), r)) else WordAt(s[..i], j)
  {
    hide WordAt, Or, Placed, Widen;
    assert s[..i + 1] == s[..i] + [s[i]];
    forall j: nat
      ensures WordAt(s[..i + 1], j)
           == if j == q then Or(WordAt(s[..i], j), Placed(Widen(s[i]), r)) else WordAt(s[..i], j)
    {
      OrExtends(s[..i], s[i], q, r, j);
    }
  }

  lemma EmptyWords()
    ensures forall j: nat :: WordAt([], j) == 0
  {
    assert WordOf(0, 0, 0, 0) == 0;
  }

  /** The words the source builds: message and marker or-ed in, the length in the last word but one. */
  function CodeWords(m: Bytes): (r: seq<word>)
    ensures |r| == 16 * Blocks(|m|)
  {
    var n := 16 * Blocks(|m|);
    seq(n, j requires 0 <= j < n => if j == n - 2 then LowWord(8 * |m|) else WordAt(m + [0x80], j))
  }

  /** The words of the padded message, low-order byte first. */
  function RfcWords(m: Bytes): (r: seq<word>)
    ensures |r| == 16 * Blocks(|m|)
  {
    seq(16 * Blocks(|m|), j requires 0 <= j < 16 * Blocks(|m|) => WordAt(Padded(m), j))
  }

  /** The marker lies before the two words of the length. */
  lemma MarkerBeforeLength(n: nat)
    ensures n < 64 * Blocks(n) - 8 <= n + 64
  {
  }

  lemma PaddedAt(m: Bytes, k: nat)
    requires k < 64 * Blocks(|m|)
    ensures k < 64 * Blocks(|m|) - 8 ==> At(Padded(m), k) == At(m + [0x80], k)
    ensures k >= 64 * Blocks(|m|) - 8 ==>
      At(Padded(m), k) == LittleEndian(8 * |m|, 8)[k - (64 * Blocks(|m|) - 8)] && At(m + [0x80], k) == 0
  {
    hide Blocks;
    MarkerBeforeLength(|m|);
  }

  lemma {:induction false} LittleEndianAt(x: nat, n: nat, k: nat)
    requires k < n
    ensures LittleEndian(x, n)[k] == Digit256(x, k)
  {
    if k > 0 {
      LittleEndianAt(x / 256, n - 1, k - 1);
    }
  }

  function Power256(k: nat): (p: nat)
    ensures p > 0
  {
    if k == 0 then 1 else 256 * Power256(k - 1)
  }

  lemma {:induction false} PowersOf256(k: nat)
    ensures Power256(k + 1) == 256 * Power256(k)
    ensures Power256(4) == 0x1_0000_0000
  {
    assert Power256(1) == 256 && Power256(2) == 256 * 256;
  }

  /** Numbers with the same n low-order bytes differ by a multiple of 256^n. */
  lemma {:induction false} SameDigits(x: nat, y: nat, n: nat) returns (q: int)
    requires forall k :: 0 <= k < n ==> Digit256(x, k) == Digit256(y, k)
    ensures x - y == q * Power256(n)
  {
    if n == 0 {
      q := x - y;
    } else {
      assert Digit256(x, 0) == Digit256(y, 0);
      forall k | 0 <= k < n - 1
        ensures Digit256(x / 256, k) == Digit256(y / 256, k)
      {
        assert Digit256(x, k + 1) == Digit256(y, k + 1);
      }
      q := SameDigits(x / 256, y / 256, n - 1);
      assert x - y == 256 * (x / 256 - y / 256) == q * Power256(n);
    }
  }

  lemma {:induction false} ZeroDigits(k: nat)
    ensures Digit256(0, k) == 0
  {
    if k > 0 {
      ZeroDigits(k - 1);
    }
  }

  lemma DropFourDigits(x: nat, k: nat)
    requires k >= 4
    ensures Digit256(x, k) == Digit256(x / 0x1_0000_0000, k - 4)
  {
    assert Digit256(x, k) == Digit256(x / 256, k - 1) == Digit256(x / 256 / 256, k - 2);
    assert Digit256(x / 256 / 256, k - 2) == Digit256(x / 256 / 256 / 256, k - 3);
    assert x / 256 / 256 / 256 / 256 == x / 0x1_0000_0000;
  }

  /** A number fits in 32 bits exactly when its next four bytes, the most it has, are zero. */
  lemma FitsIffHighZero(x: nat)
    requires x < 0x1_0000_0000_0000_0000
    ensures x < 0x1_0000_0000
       <==> Digit256(x, 4) == 0 && Digit256(x, 5) == 0 && Digit256(x, 6) == 0 && Digit256(x, 7) == 0
  {
    hide Digit256;
    var y := x / 0x1_0000_0000;
    DropFourDigits(x, 4);
    DropFourDigits(x, 5);
    DropFourDigits(x, 6);
    DropFourDigits(x, 7);
    ZeroDigits(0);
    ZeroDigits(1);
    ZeroDigits(2);
    ZeroDigits(3);
    if Digit256(y, 0) == 0 && Digit256(y, 1) == 0 && Digit256(y, 2) == 0 && Digit256(y, 3) == 0 {
      var q := SameDigits(y, 0, 4);
      PowersOf256(4);
      assert y == q * 0x1_0000_0000 && y < 0x1_0000_0000;
      assert q == 0;
    }
  }

  lemma LengthByte(m: Bytes, j: nat, k: nat)
    requires j == 16 * Blocks(|m|) - 2 && k < 8
    ensures At(Padded(m), 4 * j + k) == Digit256(8 * |m|, k) && At(m + [0x80], 4 * j + k) == 0
  {
    hide Digit256, Blocks, Padded, At, LittleEndian;
    PaddedAt(m, 4 * j + k);
    LittleEndianAt(8 * |m|, 8, k);
  }

  lemma LowLengthWord(m: Bytes)
    ensures RfcWords(m)[16 * Blocks(|m|) - 2] == LowWord(8 * |m|)
  {
    hide WordOf, Digit256, Blocks, Padded, At;
    MarkerBeforeLength(|m|);
    var j := 16 * Blocks(|m|) - 2;
    LengthByte(m, j, 0);
    LengthByte(m, j, 1);
    LengthByte(m, j, 2);
    LengthByte(m, j, 3);
  }

  lemma HighLengthWord(m: Bytes)
    ensures var n, x := 16 * Blocks(|m|), 8 * |m|;
      RfcWords(m)[n - 1] == WordOf(Digit256(x, 4), Digit256(x, 5), Digit256(x, 6), Digit256(x, 7))
      && CodeWords(m)[n - 1] == WordOf(0, 0, 0, 0)
  {
    hide WordOf, Digit256, Blocks, Padded, At;
    MarkerBeforeLength(|m|);
    var j := 16 * Blocks(|m|) - 2;
    LengthByte(m, j, 4);
    LengthByte(m, j, 5);
    LengthByte(m, j, 6);
    LengthByte(m, j, 7);
  }

  lemma DataWords(m: Bytes, j: nat)
    requires j < 16 * Blocks(|m|) - 2
    ensures CodeWords(m)[j] == RfcWords(m)[j]
  {
    hide WordOf, At, Padded, Blocks;
    forall k | 4 * j <= k < 4 * j + 4
      ensures At(Padded(m), k) == At(m + [0x80], k)
    {
      PaddedAt(m, k);
    }
    SameWord(Padded(m), m + [0x80], j);
  }

  /** The or-built words are the padded message of section 3.1 and 3.2 exactly while the length in
      bits fits in 32 bits: the source leaves the high word of the length at zero. */
  lemma WordsAgreeIff(m: Bytes)
    requires |m| < 0x1_0000_0000
    ensures CodeWords(m) == RfcWords(m) <==> |m| < 0x2000_0000
  {
    hide WordOf, WordAt, LowWord, CodeWords, RfcWords, Blocks, Digit256;
    var n, x := 16 * Blocks(|m|), 8 * |m|;
    MarkerBeforeLength(|m|);
    LowLengthWord(m);
    HighLengthWord(m);
    LastCodeWord(m);
    FitsIffHighZero(x);
    if CodeWords(m) == RfcWords(m) {
      WordInjective(0, 0, 0, 0, Digit256(x, 4), Digit256(x, 5), Digit256(x, 6), Digit256(x, 7));
    }
    if |m| < 0x2000_0000 {
      forall j | 0 <= j < n
        ensures CodeWords(m)[j] == RfcWords(m)[j]
      {
        if j < n - 2 {
          DataWords(m, j);
        }
      }
    }
  }

  lemma LastCodeWord(m: Bytes)
    ensures CodeWords(m)[16 * Blocks(|m|) - 2] == LowWord(8 * |m|)
  {
    hide Blocks, LowWord, WordAt;
    MarkerBeforeLength(|m|);
  }

  lemma SameLength(m: Bytes, m': Bytes)
    requires Blocks(|m|) == Blocks(|m'|)
    requires forall k :: 0 <= k < 4 ==> Digit256(8 * |m|, k) == Digit256(8 * |m'|, k)
    ensures |m| == |m'|
  {
    hide Digit256, Blocks;
    var q := SameDigits(8 * |m|, 8 * |m'|, 4);
    PowersOf256(4);
    MarkerBeforeLength(|m|);
    MarkerBeforeLength(|m'|);
    assert -512 <= q * 0x1_0000_0000 <= 512;
  }

  /** Distinct messages have distinct words. */
  lemma PaddingInjective(m: Bytes, m': Bytes)
    requires CodeWords(m) == CodeWords(m')
    ensures m == m'
  {
    hide WordOf;
    var x, x' := 8 * |m|, 8 * |m'|;
    LastCodeWord(m);
    LastCodeWord(m');
    WordInjective(Digit256(x, 0), Digit256(x, 1), Digit256(x, 2), Digit256(x, 3),
                  Digit256(x', 0), Digit256(x', 1), Digit256(x', 2), Digit256(x', 3));
    SameLength(m, m');
    forall k | 0 <= k < |m|
      ensures m[k] == m'[k]
    {
      SameByte(m, m', k);
    }
  }

  lemma SameByte(m: Bytes, m': Bytes, k: nat)
    requires k < |m| == |m'| && CodeWords(m) == CodeWords(m')
    ensures m[k] == m'[k]
  {
    hide WordOf, Blocks;
    var j, s, s' := k / 4, m + [0x80], m' + [0x80];
    MarkerBeforeLength(|m|);
    assert CodeWords(m)[j] == WordAt(s, j) && CodeWords(m')[j] == WordAt(s', j);
    WordInjective(At(s, 4 * j), At(s, 4 * j + 1), At(s, 4 * j + 2), At(s, 4 * j + 3),
                  At(s', 4 * j), At(s', 4 * j + 1), At(s', 4 * j + 2), At(s', 4 * j + 3));
  }

  // Processing the blocks: section 3.4.

  const INITIAL := Regs(0x67452301, 0xefcdab89, 0x98badcfe, 0x10325476)

  function BlockOf(ws: seq<word>, i: nat): Block
    requires 16 * i + 16 <= |ws|
  {
    ws[16 * i .. 16 * i + 16]
  }

  /** The registers after the first n blocks. */
  function After(ws: seq<word>, n: nat): Regs
    requires 16 * n <= |ws|
  {
    if n == 0 then INITIAL else RfcBlock(After(ws, n - 1), BlockOf(ws, n - 1))
  }

  lemma Start(ws: seq<word>)
    ensures After(ws, 0) == INITIAL
  {
  }

  lemma NextBlock(ws: seq<word>, i: nat, x: Block)
    requires 16 * i + 16 <= |ws| && forall k :: 0 <= k < 16 ==> x[k] == ws[16 * i + k]
    ensures RfcBlock(After(ws, i), x) == After(ws, i + 1)
  {
    hide RfcBlock;
    assert x == BlockOf(ws, i);
  }

  /** The turns of the source, added to the registers they started from, process a block. */
  lemma TurnsMakeBlock(r: Regs, x: Block)
    ensures Plus(r, Turns(r, x, 64)) == RfcBlock(r, x)
  {
    hide Plus, Turns, RfcSteps;
    TurnsAreSteps(r, x, 64);
  }

  // Printing the digest: section 3.5, as upper-case hexadecimal text.

  predicate IsHexDigit(c: byte) {
    48 <= c <= 57 || 65 <= c <= 70
  }

  function Hex(x: byte): Bytes {
    [HexDigit(x / 16), HexDigit(x % 16)]
  }

  /** Byte k of a word, counted from the low-order end. */
  function ByteAt(w: word, k: nat): byte
    requires k < 4
  {
    var v := (if k == 0 then w else if k == 1 then w >> 8 else if k == 2 then w >> 16 else w >> 24) & 0xff;
    Number(v as bv8)
  }

  function Digits(w: word): (r: Bytes)
    ensures |r| == 8
  {
    Hex(ByteAt(w, 0)) + Hex(ByteAt(w, 1)) + Hex(ByteAt(w, 2)) + Hex(ByteAt(w, 3))
  }

  function Print(r: Regs): (s: Bytes)
    ensures |s| == 32
  {
    Digits(r.a) + Digits(r.b) + Digits(r.c) + Digits(r.d)
  }

  lemma NarrowWiden(v: word)
    requires v <= 0xff
    ensures Widen(Number(v as bv8)) == v
  {
    BitsOfNumber(v as bv8);
  }

  lemma JoinParts(w: word)
    ensures Join(w & 0xff, (w >> 8) & 0xff, (w >> 16) & 0xff, (w >> 24) & 0xff) == w
  {
  }

  /** The four bytes of a word, low-order byte first, make the word. */
  lemma BytesMakeWord(w: word)
    ensures WordOf(ByteAt(w, 0), ByteAt(w, 1), ByteAt(w, 2), ByteAt(w, 3)) == w
  {
    hide Widen, Join;
    NarrowWiden(w & 0xff);
    NarrowWiden((w >> 8) & 0xff);
    NarrowWiden((w >> 16) & 0xff);
    NarrowWiden((w >> 24) & 0xff);
    JoinParts(w);
  }

  lemma HexInjective(x: byte, y: byte)
    requires Hex(x) == Hex(y)
    ensures x == y
  {
    assert Hex(x)[0] == Hex(y)[0] && Hex(x)[1] == Hex(y)[1];
  }

  /** The printed word determines the word. */
  lemma DigitsInjective(v: word, w: word)
    requires Digits(v) == Digits(w)
    ensures v == w
  {
    hide ByteAt, Hex, WordOf;
    HexPieces(ByteAt(v, 0), ByteAt(v, 1), ByteAt(v, 2), ByteAt(v, 3),
              ByteAt(w, 0), ByteAt(w, 1), ByteAt(w, 2), ByteAt(w, 3));
    BytesMakeWord(v);
    BytesMakeWord(w);
  }

  lemma HexPieces(a: byte, b: byte, c: byte, d: byte, a': byte, b': byte, c': byte, d': byte)
    requires Hex(a) + Hex(b) + Hex(c) + Hex(d) == Hex(a') + Hex(b') + Hex(c') + Hex(d')
    ensures a == a' && b == b' && c == c' && d == d'
  {
    hide HexDigit;
    var l, r := Hex(a) + Hex(b) + Hex(c) + Hex(d), Hex(a') + Hex(b') + Hex(c') + Hex(d');
    assert l[0..2] == Hex(a) && l[2..4] == Hex(b) && l[4..6] == Hex(c) && l[6..8] == Hex(d);
    assert r[0..2] == Hex(a') && r[2..4] == Hex(b') && r[4..6] == Hex(c') && r[6..8] == Hex(d');
    HexInjective(a, a');
    HexInjective(b, b');
    HexInjective(c, c');
    HexInjective(d, d');
  }

  lemma HexDigits(x: byte)
    ensures IsHexDigit(Hex(x)[0]) && IsHexDigit(Hex(x)[1])
  {
  }

  lemma DigitsAreHex(w: word)
    ensures forall i :: 0 <= i < 8 ==> IsHexDigit(Digits(w)[i])
  {
    hide ByteAt, IsHexDigit, HexDigit;
    HexDigits(ByteAt(w, 0));
    HexDigits(ByteAt(w, 1));
    HexDigits(ByteAt(w, 2));
    HexDigits(ByteAt(w, 3));
  }

  lemma PrintsHex(r: Regs)
    ensures forall i :: 0 <= i < 32 ==> IsHexDigit(Print(r)[i])
  {
    hide IsHexDigit, Digits;
    DigitsAreHex(r.a);
    DigitsAreHex(r.b);
    DigitsAreHex(r.c);
    DigitsAreHex(r.d);
  }

  /** The digest of the standard, over the padded message. */
  function RfcDigest(m: Bytes): Bytes {
    Print(After(RfcWords(m), Blocks(|m|)))
  }

  /** What the source computes, over the words it builds. */
  function Digest(m: Bytes): (d: Bytes)
    ensures |d| == 32
  {
    Print(After(CodeWords(m), Blocks(|m|)))
  }

  /** MD5 of src/include/util/md5.h. */
  class MD5 {
    var tempA: word
    var tempB: word
    var tempC: word
    var tempD: word
    var strLength: nat

    constructor ()
      ensures tempA == 0 && tempB == 0 && tempC == 0 && tempD == 0 && strLength == 0
    {
      tempA, tempB, tempC, tempD, strLength := 0, 0, 0, 0, 0;
    }

    function Registers(): Regs
      reads this
    {
      Regs(tempA, tempB, tempC, tempD)
    }

    /** The 32-bit loop counter reaches the end of a message only below 2^32 bytes. */
    method Encode(src: Bytes) returns (text: Bytes)
      requires |src| < 0x1_0000_0000
      modifies this
      ensures text == Digest(src)
      ensures |src| < 0x2000_0000 ==> text == RfcDigest(src)
      ensures |text| == 32 && forall i :: 0 <= i < 32 ==> IsHexDigit(text[i])
    {
      hide Blocks, CodeWords, RfcWords, Digits, RfcBlock, IsHexDigit, After;
      tempA, tempB, tempC, tempD := 0x67452301, 0xefcdab89, 0x98badcfe, 0x10325476;
      Start(CodeWords(src));
      strLength := 0;
      var rec := Padding(src);
      ghost var words, n := CodeWords(src), Blocks(|src|);
      var i := 0;
      while i < strLength / 16
        invariant i <= n
        invariant fresh(rec) && rec[..] == words && strLength == 16 * n == |words|
        invariant Registers() == After(words, i)
      {
        var num := new word[16];
        var j := 0;
        while j < 16
          modifies num
          invariant j <= 16
          invariant forall k :: 0 <= k < j ==> num[k] == words[16 * i + k]
        {
          num[j] := rec[i * 16 + j];
          j := j + 1;
        }
        NextBlock(words, i, num[..]);
        IterateFunc(num);
        i := i + 1;
      }
      WordsAgreeIff(src);
      var a := Format(tempA);
      var b := Format(tempB);
      var c := Format(tempC);
      var d := Format(tempD);
      text := a + b + c + d;
      PrintsHex(Registers());
    }

    method IterateFunc(x: array<word>)
      requires x.Length == 16
      modifies this
      ensures Registers() == RfcBlock(old(Registers()), x[..])
      ensures strLength == old(strLength)
    {
      hide F, G, H, I, Add, Sine, Amount, Shift, RfcBlock;
      ghost var start, block: Block := Registers(), x[..];
      var a, b, c, d := tempA, tempB, tempC, tempD;
      var i := 0;
      while i < 64
        invariant i <= 64
        invariant Regs(a, b, c, d) == Turns(start, block, i)
      {
        var g, k;
        if i < 16 {
          g, k := F(b, c, d), i;
        } else if i < 32 {
          g, k := G(b, c, d), (1 + 5 * i) % 16;
        } else if i < 48 {
          g, k := H(b, c, d), (5 + 3 * i) % 16;
        } else {
          g, k := I(b, c, d), 7 * i % 16;
        }
        var rec := d;
        d := c;
        c := b;
        b := Add(b, Shift(Add(Add(Add(a, g), x[k]), Sine(i)), Amount(i)));
        a := rec;
        i := i + 1;
      }
      TurnsMakeBlock(start, block);
      tempA := Add(tempA, a);
      tempB := Add(tempB, b);
      tempC := Add(tempC, c);
      tempD := Add(tempD, d);
    }

    method Padding(src: Bytes) returns (rec: array<word>)
      requires |src| < 0x1_0000_0000
      modifies this`strLength
      ensures fresh(rec) && rec[..] == CodeWords(src)
      ensures strLength == 16 * Blocks(|src|)
    {
      hide Blocks, WordAt, Placed, Widen, Or, LowWord;
      var num := Blocks(|src|);
      MarkerBeforeLength(|src|);
      rec := new word[num * 16](_ => 0);
      strLength := num * 16;
      EmptyWords();
      assert src[..0] == [];
      for i := 0 to |src|
        invariant strLength == num * 16
        invariant forall j :: 0 <= j < rec.Length ==> rec[j] == WordAt(src[..i], j)
      {
        OrNext(src, i, i / 4, i % 4);
        rec[i / 4] := Or(rec[i / 4], Placed(Widen(src[i]), i % 4));
      }
      OrNext(src + [0x80], |src|, |src| / 4, |src| % 4);
      assert src[..|src|] == (src + [0x80])[..|src|] && (src + [0x80])[..|src| + 1] == src + [0x80];
      rec[|src| / 4] := Or(rec[|src| / 4], Placed(Widen(0x80), |src| % 4));
      rec[rec.Length - 2] := LowWord(8 * |src|);
      assert forall j :: 0 <= j < rec.Length ==> rec[j] == CodeWords(src)[j];
    }

    static method Format(num: word) returns (res: Bytes)
      ensures res == Digits(num)
    {
      hide ByteAt, HexDigit;
      res := [];
      for i := 0 to 4
        invariant res == Digits(num)[..2 * i]
      {
        var tmp := new byte[2](_ => 0);
        var b := ByteAt(num, i);
        for j := 2 downto 0
          invariant j == 2 ==> b == ByteAt(num, i)
          invariant j == 1 ==> b == ByteAt(num, i) / 16 && tmp[1] == HexDigit(ByteAt(num, i) % 16)
          invariant j == 0 ==> tmp[..] == Hex(ByteAt(num, i))
        {
          tmp[j] := HexDigit(b % 16);
          b := b / 16;
        }
        res := res + tmp[..];
      }
    }
  }
}
