/** Numbers in decimal text: how a stream prints a size and how strtol reads one. */
module Decimal {
  import opened Bytes

  predicate IsDigit(c: byte) {
    48 <= c <= 57
  }

  /** The decimal text of a number. */
  function Printed(n: nat): (r: Bytes)
    ensures r != [] && forall i :: 0 <= i < |r| ==> IsDigit(r[i])
  {
    if n < 10 then [48 + n] else Printed(n / 10) + [48 + n % 10]
  }

  /** The value of the digits a text starts with, continuing from a value. */
  function DigitsFrom(s: Bytes, value: nat): nat
    decreases |s|
  {
    if s == [] || !IsDigit(s[0]) then value else DigitsFrom(s[1..], 10 * value + (s[0] - 48))
  }

  /** isspace in the "C" locale. */
  predicate IsSpace(c: byte) {
    c == 32 || 9 <= c <= 13
  }

  /** strtol in base 10: spaces, a sign, digits; the result is kept within 64 bits. */
  function Strtol(s: Bytes): (n: int)
    ensures -0x8000_0000_0000_0000 <= n < 0x8000_0000_0000_0000
    decreases |s|
  {
    if s != [] && IsSpace(s[0]) then Strtol(s[1..])
    else if s != [] && s[0] == 45 then
      var v: int := DigitsFrom(s[1..], 0);
      if v > 0x8000_0000_0000_0000 then -0x8000_0000_0000_0000 else -v
    else
      var v := DigitsFrom(if s != [] && s[0] == 43 then s[1..] else s, 0);
      if v >= 0x8000_0000_0000_0000 then 0x7fff_ffff_ffff_ffff else v
  }

  /** A long assigned to a size_t. */
  function ToSize(n: int): (r: nat)
    requires -0x8000_0000_0000_0000 <= n < 0x8000_0000_0000_0000
    ensures r < 0x1_0000_0000_0000_0000
  {
    if n < 0 then n + 0x1_0000_0000_0000_0000 else n
  }

  lemma {:induction false} DigitsAppend(s: Bytes, c: byte, value: nat)
    requires (forall i :: 0 <= i < |s| ==> IsDigit(s[i])) && IsDigit(c)
    ensures DigitsFrom(s + [c], value) == 10 * DigitsFrom(s, value) + (c - 48)
    decreases |s|
  {
    if s == [] {
      assert (s + [c])[1..] == [];
    } else {
      assert (s + [c])[1..] == s[1..] + [c];
      DigitsAppend(s[1..], c, 10 * value + (s[0] - 48));
    }
  }

  lemma {:induction false} DigitsOfPrinted(n: nat)
    ensures DigitsFrom(Printed(n), 0) == n
  {
    if n < 10 {
      assert Printed(n)[1..] == [];
    } else {
      DigitsOfPrinted(n / 10);
      DigitsAppend(Printed(n / 10), 48 + n % 10, 0);
    }
  }

  /** A printed size is read back exactly when it fits in a signed 64-bit number. */
  lemma ReadPrinted(n: nat)
    ensures ToSize(Strtol(Printed(n))) == n <==> n < 0x8000_0000_0000_0000
  {
    hide DigitsFrom;
    DigitsOfPrinted(n);
    assert IsDigit(Printed(n)[0]);
  }

  predicate AllDigits(s: Bytes) {
    forall i :: 0 <= i < |s| ==> IsDigit(s[i])
  }

  /** The digits end where something else follows. */
  lemma {:induction false} DigitsStop(s: Bytes, rest: Bytes, value: nat)
    requires AllDigits(s) && (rest == [] || !IsDigit(rest[0]))
    ensures DigitsFrom(s + rest, value) == DigitsFrom(s, value)
    decreases |s|
  {
    if s == [] {
      assert s + rest == rest;
    } else {
      assert (s + rest)[1..] == s[1..] + rest;
      DigitsStop(s[1..], rest, 10 * value + (s[0] - 48));
    }
  }

  lemma {:induction false} SpacesSkipped(spaces: Bytes, s: Bytes)
    requires forall i :: 0 <= i < |spaces| ==> IsSpace(spaces[i])
    ensures Strtol(spaces + s) == Strtol(s)
    decreases |spaces|
  {
    if spaces == [] {
      assert spaces + s == s;
    } else {
      assert (spaces + s)[1..] == spaces[1..] + s;
      SpacesSkipped(spaces[1..], s);
    }
  }

  /** A number kept within 64 bits. */
  function Clamped(n: int): int {
    if n > 0x7fff_ffff_ffff_ffff then 0x7fff_ffff_ffff_ffff
    else if n < -0x8000_0000_0000_0000 then -0x8000_0000_0000_0000
    else n
  }

  /** Spaces before a number and whatever follows its digits do not matter, a sign does, and what is too
      large is kept within 64 bits. */
  lemma StrtolReads(spaces: Bytes, n: nat, rest: Bytes)
    requires (forall i :: 0 <= i < |spaces| ==> IsSpace(spaces[i])) && (rest == [] || !IsDigit(rest[0]))
    ensures Strtol(spaces + (Printed(n) + rest)) == Clamped(n)
    ensures Strtol(spaces + ([43] + (Printed(n) + rest))) == Clamped(n)
    ensures Strtol(spaces + ([45] + (Printed(n) + rest))) == Clamped(-(n as int))
  {
    hide DigitsFrom, Printed;
    var s := Printed(n) + rest;
    SpacesSkipped(spaces, s);
    SpacesSkipped(spaces, [43] + s);
    SpacesSkipped(spaces, [45] + s);
    DigitsOfPrinted(n);
    DigitsStop(Printed(n), rest, 0);
    assert IsDigit(s[0]);
    assert ([43] + s)[1..] == s && ([45] + s)[1..] == s;
  }

  /** A text that does not start with a number reads as 0, and so does the empty text of a missing header. */
  lemma StrtolOfOther(s: Bytes)
    requires s == [] || (!IsDigit(s[0]) && !IsSpace(s[0]) && s[0] != 43 && s[0] != 45)
    ensures Strtol(s) == 0
  {
  }

  /** No number but 0 is printed with a zero in front. */
  lemma {:induction false} NoLeadingZero(n: nat)
    ensures Printed(n)[0] == 48 <==> n == 0
  {
    if n >= 10 {
      NoLeadingZero(n / 10);
    }
  }
}
