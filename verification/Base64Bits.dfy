/** src/util/base64.cpp bit by bit: the shifts and masks of the source, and its table indices where
    `char` is signed. */
module Base64Bits {
  import opened Bytes
  import opened Base64

  // Shifts and masks of eight bits as arithmetic.

  lemma ShiftRight(a: bv8)
    ensures (a >> 2) as int == (a as int) / 4
    ensures (a >> 4) as int == (a as int) / 16
    ensures (a >> 6) as int == (a as int) / 64
  {
  }

  lemma MaskThree(a: bv8)
    ensures (a & 0x3) as int == (a as int) % 4
  {
  }

  lemma MaskMore(a: bv8)
    ensures (a & 0xf) as int == (a as int) % 16 && (a & 0x3f) as int == (a as int) % 64
  {
  }

  lemma ShiftLeftTwo(a: bv8)
    requires a < 64
    ensures (a << 2) as int == (a as int) * 4
  {
  }

  lemma ShiftLeftFour(a: bv8)
    ensures (a << 4) as int == (a as int) % 16 * 16
  {
  }

  lemma ShiftLeftSix(a: bv8)
    ensures (a << 6) as int == (a as int) % 4 * 64
  {
  }

  /** Parts that do not overlap: their bitwise or is their sum. */
  lemma OrIsSum(a: bv8, b: bv8)
    requires (a & 0x3 == 0 && b < 4) || (a & 0xf == 0 && b < 16) || (a & 0x3f == 0 && b < 64)
    ensures (a | b) as int == a as int + b as int
  {
  }

  // The encoder's table indices.

  function Shifted0(a: bv8): int { (a >> 2) as int }
  function Shifted1(a: bv8, b: bv8): int { (((a & 0x3) << 4) | (b >> 4)) as int }
  function Shifted2(b: bv8, c: bv8): int { (((b & 0xf) << 2) | (c >> 6)) as int }
  function Shifted3(c: bv8): int { (c & 0x3f) as int }

  lemma FieldsApart(a: bv8, b: bv8)
    ensures ((a & 0x3) << 4) & 0xf == 0 && b >> 4 < 16 && a & 0x3 < 4
    ensures ((a & 0xf) << 2) & 0x3 == 0 && b >> 6 < 4 && a & 0xf < 64
  {
  }

  lemma ShiftedFirst(a: bv8, b: bv8)
    ensures Shifted1(a, b) == (a as int) % 4 * 16 + (b as int) / 16
  {
    FieldsApart(a, b);
    OrIsSum((a & 0x3) << 4, b >> 4);
    ShiftLeftFour(a & 0x3);
    MaskThree(a);
    ShiftRight(b);
  }

  lemma ShiftedSecond(b: bv8, c: bv8)
    ensures Shifted2(b, c) == (b as int) % 16 * 4 + (c as int) / 64
  {
    FieldsApart(b, c);
    OrIsSum((b & 0xf) << 2, c >> 6);
    ShiftLeftTwo(b & 0xf);
    MaskMore(b);
    ShiftRight(c);
  }

  /** The shifts and masks of the encoder are the indices. */
  lemma EncoderShifts(a: byte, b: byte, c: byte)
    ensures Shifted0(Bits(a)) == Index0(a) && Shifted1(Bits(a), Bits(b)) == Index1(a, b)
    ensures Shifted2(Bits(b), Bits(c)) == Index2(b, c) && Shifted3(Bits(c)) == Index3(c)
  {
    hide Bits, Shifted1, Shifted2;
    NumberOfBits(a);
    NumberOfBits(b);
    NumberOfBits(c);
    ShiftRight(Bits(a));
    ShiftedFirst(Bits(a), Bits(b));
    ShiftedSecond(Bits(b), Bits(c));
    MaskMore(Bits(c));
  }

  // The decoder's bytes, cut to eight bits by the cast.

  function Joined0(p: bv8, q: bv8): int { ((p << 2) | (q >> 4)) as int }
  function Joined1(q: bv8, r: bv8): int { ((q << 4) | (r >> 2)) as int }
  function Joined2(r: bv8, u: bv8): int { ((r << 6) | u) as int }

  lemma BytesApart(p: bv8, q: bv8)
    requires q < 64
    ensures (p << 2) & 0x3 == 0 && q >> 4 < 4 && (p << 4) & 0xf == 0 && q >> 2 < 16 && (p << 6) & 0x3f == 0
  {
  }

  lemma JoinedBits(p: bv8, q: bv8, r: bv8, u: bv8)
    requires p < 64 && q < 64 && r < 64 && u < 64
    ensures Joined0(p, q) == (p as int) * 4 + (q as int) / 16
    ensures Joined1(q, r) == (q as int) % 16 * 16 + (r as int) / 4
    ensures Joined2(r, u) == (r as int) % 4 * 64 + u as int
  {
    BytesApart(p, q);
    BytesApart(q, r);
    BytesApart(r, u);
    OrIsSum(p << 2, q >> 4);
    OrIsSum(q << 4, r >> 2);
    OrIsSum(r << 6, u);
    ShiftLeftTwo(p);
    ShiftLeftFour(q);
    ShiftLeftSix(r);
    ShiftRight(q);
    ShiftRight(r);
  }

  lemma SixBits(x: byte)
    requires x < 64
    ensures Bits(x) < 64
  {
    NumberOfBits(x);
  }

  /** The shifts of the decoder are the bytes. */
  lemma DecoderShifts(p: byte, q: byte, r: byte, u: byte)
    requires p < 64 && q < 64 && r < 64 && u < 64
    ensures Joined0(Bits(p), Bits(q)) == Byte0(p, q) && Joined1(Bits(q), Bits(r)) == Byte1(q, r)
    ensures Joined2(Bits(r), Bits(u)) == Byte2(r, u)
  {
    hide Bits, Joined0, Joined1, Joined2;
    SixBits(p);
    SixBits(q);
    SixBits(r);
    SixBits(u);
    NumberOfBits(p);
    NumberOfBits(q);
    NumberOfBits(r);
    NumberOfBits(u);
    JoinedBits(Bits(p), Bits(q), Bits(r), Bits(u));
  }

  // Signed characters.

  /** A byte as a signed `char`. */
  function Signed(b: byte): int {
    if b < 128 then b else b - 256
  }

  /** `hi | (c >> shift)` with a signed c: the sign bits of a negative operand cover `hi`. */
  function SignedIndex(hi: nat, c: byte, divisor: nat): int
    requires divisor > 0
  {
    if Signed(c) < 0 then Signed(c) / divisor else hi + Signed(c) / divisor
  }

  /** Every table index of one group of at most three bytes. */
  ghost predicate IndicesInRange(s: Bytes)
    requires 1 <= |s| <= 3
  {
    && 0 <= SignedIndex(0, s[0], 4) < 64
    && (|s| > 1 ==> 0 <= SignedIndex(s[0] % 4 * 16, s[1], 16) < 64)
    && (|s| > 2 ==> 0 <= SignedIndex(s[1] % 16 * 4, s[2], 64) < 64)
  }

  /** Under signed `char` the indices stay inside the table exactly for seven-bit input, and then
      they are the indices of the unsigned reading. */
  lemma SignedIndexInRange(s: Bytes)
    requires 1 <= |s| <= 3
    ensures IndicesInRange(s) <==> SevenBit(s)
    ensures SevenBit(s) ==>
      && SignedIndex(0, s[0], 4) == Index0(s[0])
      && (|s| > 1 ==> SignedIndex(s[0] % 4 * 16, s[1], 16) == Index1(s[0], s[1]))
      && (|s| > 2 ==> SignedIndex(s[1] % 16 * 4, s[2], 64) == Index2(s[1], s[2]))
  {
    if IndicesInRange(s) {
      forall i | 0 <= i < |s| ensures s[i] < 128 {
        assert i == 0 || i == 1 || i == 2;
      }
    }
  }

  /** The decoder indexes its table with the text's own bytes: where `char` is signed the index is in
      range exactly for bytes below 128, and then is the unsigned one. */
  lemma DecoderIndexInRange(t: Bytes)
    ensures (forall i :: 0 <= i < |t| ==> 0 <= Signed(t[i]) < 256) <==> SevenBit(t)
    ensures SevenBit(t) ==> forall i :: 0 <= i < |t| ==> Signed(t[i]) == t[i]
  {
    if i :| 0 <= i < |t| && t[i] >= 128 {
      assert Signed(t[i]) < 0;
    }
  }

  /** Texts the encoder writes are such texts. */
  lemma {:induction false} CanonicalIsSevenBit(t: Bytes)
    requires Canonical(t)
    ensures SevenBit(t)
  {
    if |t| > 4 {
      CanonicalIsSevenBit(t[4..]);
      assert t == t[..4] + t[4..];
    }
  }
}
