/** Bytes and texts shared by the codecs.  A `char` of the source is one byte here. */
module Bytes {
  type byte = x: int | 0 <= x < 256

  type Bytes = seq<byte>

  datatype Option<+T> = None | Some(value: T)

  /** The ASCII bytes of a literal. */
  function Ascii(s: string): (r: Bytes)
    ensures |r| == |s|
    ensures forall i :: 0 <= i < |s| && s[i] as int < 256 ==> r[i] == s[i] as int
  {
    seq(|s|, i requires 0 <= i < |s| => if s[i] as int < 256 then s[i] as int else 0)
  }

  /** Every byte is below 128, where signed and unsigned `char` agree. */
  ghost predicate SevenBit(s: Bytes) {
    forall i :: 0 <= i < |s| ==> s[i] < 128
  }

  /** The position of the first byte of a kind, or the length when there is none. */
  function First(s: Bytes, ch: byte): (n: nat)
    ensures n <= |s|
    ensures forall k :: 0 <= k < n ==> s[k] != ch
    ensures n < |s| ==> s[n] == ch
  {
    if s == [] || s[0] == ch then 0 else 1 + First(s[1..], ch)
  }

  lemma FirstIs(s: Bytes, ch: byte, n: nat)
    requires n <= |s| && (n < |s| ==> s[n] == ch) && forall k :: 0 <= k < n ==> s[k] != ch
    ensures First(s, ch) == n
  {
  }

  /** A digit of kNumMap and str16, the upper-case hexadecimal digits. */
  function HexDigit(n: nat): (c: byte)
    requires n < 16
  {
    if n < 10 then 48 + n else 55 + n
  }

  /** Text in front of a result, if there is one. */
  function Prepend(front: Bytes, rest: Option<Bytes>): Option<Bytes> {
    match rest case None => None case Some(bs) => Some(front + bs)
  }

  // The two ways to see a byte: as a number and as eight bits.

  function Bits(x: byte): bv8 {
    x as bv8
  }

  function Number(b: bv8): byte {
    b as int
  }

  lemma NumberOfBits(x: byte)
    ensures Number(Bits(x)) == x
  {
    if x < 64 {
      assert x < 32 || 32 <= x;
    } else if x < 128 {
      assert x < 96 || 96 <= x;
    } else if x < 192 {
      assert x < 160 || 160 <= x;
    } else {
      assert x < 224 || 224 <= x;
    }
  }

  lemma BitsOfNumber(b: bv8)
    ensures Bits(Number(b)) == b
  {
  }
}
