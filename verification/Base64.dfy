/** src/util/base64.cpp against section 4 of RFC 4648.

    Bytes are unsigned.  Where `char` is signed the source indexes its encoding table with a
    negative number exactly when the input holds a byte of 128 or more (Base64Bits). */
module Base64 {
  import opened Bytes

  const PAD: byte := 61

  /** Base64EncodeMap. */
  function Symbol(i: nat): (c: byte)
    requires i < 64
    ensures IsSymbol(c)
  {
    if i < 26 then 65 + i else if i < 52 then 97 + (i - 26) else if i < 62 then 48 + (i - 52)
    else if i == 62 then 43 else 47
  }

  predicate IsSymbol(c: byte) {
    65 <= c <= 90 || 97 <= c <= 122 || 48 <= c <= 57 || c == 43 || c == 47
  }

  /** Base64DecodeMap: 255 marks a byte outside the alphabet, and the padding character maps to 0. */
  function Value(c: byte): (v: byte)
    ensures v < 64 || v == 255
    ensures IsSymbol(c) ==> v < 64 && Symbol(v) == c
  {
    if 65 <= c <= 90 then c - 65 else if 97 <= c <= 122 then c - 97 + 26 else if 48 <= c <= 57 then c - 48 + 52
    else if c == 43 then 62 else if c == 47 then 63 else if c == PAD then 0 else 255
  }

  // The encoder and its specification.

  // The table indices of the encoder.  The source writes them with shifts and masks; Base64Bits shows
  // that those are these numbers.

  function Index0(a: byte): (v: nat)
    ensures v < 64
  {
    a / 4
  }

  function Index1(a: byte, b: byte): (v: nat)
    ensures v < 64
  {
    a % 4 * 16 + b / 16
  }

  function Index2(b: byte, c: byte): (v: nat)
    ensures v < 64
  {
    b % 16 * 4 + c / 64
  }

  function Index3(c: byte): (v: nat)
    ensures v < 64
  {
    c % 64
  }

  function Symbols(a: byte, b: byte, c: byte): (r: Bytes)
    ensures |r| == 4
  {
    [Symbol(Index0(a)), Symbol(Index1(a, b)), Symbol(Index2(b, c)), Symbol(Index3(c))]
  }

  /** Groups of three bytes give four symbols; a last group of one or two is padded. */
  function Encoded(s: Bytes): Bytes {
    if s == [] then []
    else if |s| == 1 then Symbols(s[0], 0, 0)[..2] + [PAD, PAD]
    else if |s| == 2 then Symbols(s[0], s[1], 0)[..3] + [PAD]
    else Symbols(s[0], s[1], s[2]) + Encoded(s[3..])
  }

  // Section 4 of RFC 4648.

  /** Three bytes as one 24-bit quantum. */
  function Quantum(a: byte, b: byte, c: byte): (n: nat)
    ensures n < 0x100_0000
  {
    a * 65536 + b * 256 + c
  }

  /** The four six-bit groups of a quantum, most significant first. */
  function Group(n: nat, k: nat): (v: nat)
    requires n < 0x100_0000 && k < 4
    ensures v < 64
  {
    if k == 0 then n / 262144 else if k == 1 then n / 4096 % 64 else if k == 2 then n / 64 % 64 else n % 64
  }

  /** The indices are the groups of the quantum. */
  lemma IndicesAreGroups(a: byte, b: byte, c: byte)
    ensures var n := Quantum(a, b, c);
      Index0(a) == Group(n, 0) && Index1(a, b) == Group(n, 1) && Index2(b, c) == Group(n, 2) && Index3(c) == Group(n, 3)
  {
    var n := Quantum(a, b, c);
    assert n == ((Index0(a) * 64 + Index1(a, b)) * 64 + Index2(b, c)) * 64 + Index3(c);
    Digits(Index0(a), Index1(a, b), Index2(b, c), Index3(c));
  }

  lemma Digits(p: nat, q: nat, r: nat, u: nat)
    requires p < 64 && q < 64 && r < 64 && u < 64
    ensures var n := ((p * 64 + q) * 64 + r) * 64 + u;
      n < 0x100_0000 && Group(n, 0) == p && Group(n, 1) == q && Group(n, 2) == r && Group(n, 3) == u
  {
    var n := ((p * 64 + q) * 64 + r) * 64 + u;
    assert n / 64 == (p * 64 + q) * 64 + r;
    assert n / 4096 == p * 64 + q;
    assert n / 262144 == p;
  }

  /** The encoding of the standard: quanta of 24 bits, the last one filled up with zero bits, and as
      many symbols of it as hold input bits. */
  function RfcEncoded(s: Bytes): Bytes
    decreases |s|
  {
    if s == [] then []
    else
      var n := Quantum(s[0], if |s| > 1 then s[1] else 0, if |s| > 2 then s[2] else 0);
      [Symbol(Group(n, 0)), Symbol(Group(n, 1)), if |s| > 1 then Symbol(Group(n, 2)) else PAD,
       if |s| > 2 then Symbol(Group(n, 3)) else PAD]
      + RfcEncoded(if |s| > 3 then s[3..] else [])
  }

  /** The source encodes as the standard does. */
  lemma {:induction false} EncodedIsRfc(s: Bytes)
    ensures Encoded(s) == RfcEncoded(s)
    decreases |s|
  {
    if s != [] {
      hide Symbol, Group, Quantum, Index0, Index1, Index2, Index3;
      IndicesAreGroups(s[0], if |s| > 1 then s[1] else 0, if |s| > 2 then s[2] else 0);
      if |s| > 2 {
        EncodedIsRfc(s[3..]);
        assert |s| == 3 ==> s[3..] == [];
      }
    }
  }

  method Encode(input: Bytes) returns (output: Bytes)
    ensures output == Encoded(input)
  {
    hide Index0, Index1, Index2, Index3, Symbol;
    output := [];
    var i := 0;
    while i < |input|
      invariant 0 <= i <= |input|
      invariant output + Encoded(input[i..]) == Encoded(input)
      decreases |input| - i
    {
      ghost var rest := input[i..];
      var count := |input| - i;
      var text := [Symbol(Index0(input[i]))];
      if count > 1 {
        text := text + [Symbol(Index1(input[i], input[i + 1]))];
        if count > 2 {
          text := text + [Symbol(Index2(input[i + 1], input[i + 2]))];
          text := text + [Symbol(Index3(input[i + 2]))];
          assert Encoded(rest) == text + Encoded(input[i + 3..]) by { assert rest[3..] == input[i + 3..]; }
        } else {
          text := text + [Symbol(Index2(input[i + 1], 0))];
          text := text + [PAD];
          assert text == Encoded(rest);
          return output + text;
        }
      } else {
        text := text + [Symbol(Index1(input[i], 0))];
        text := text + [PAD];
        text := text + [PAD];
        assert text == Encoded(rest);
        return output + text;
      }
      output := output + text;
      i := i + 3;
    }
  }

  // The decoder.

  datatype Taken = Reject | Last(bytes: Bytes) | More(bytes: Bytes)

  // The three bytes of four six-bit values, likewise.

  function Byte0(p: byte, q: byte): (r: byte)
    requires p < 64 && q < 64
  {
    p * 4 + q / 16
  }

  function Byte1(q: byte, r: byte): (y: byte)
    requires q < 64 && r < 64
  {
    q % 16 * 16 + r / 4
  }

  function Byte2(r: byte, u: byte): (z: byte)
    requires r < 64 && u < 64
  {
    r % 4 * 64 + u
  }

  /** One round of the decoding loop: stop with nothing, stop after these bytes, or go on. */
  function TakeGroup(a: byte, b: byte, c: byte, d: byte): Taken {
    if Value(a) == 255 || Value(b) == 255 then Reject
    else
      var x := Byte0(Value(a), Value(b));
      if c == PAD then Last([x])
      else if Value(c) == 255 then Reject
      else
        var y := Byte1(Value(b), Value(c));
        if d == PAD then Last([x, y])
        else if Value(d) == 255 then Reject
        else More([x, y, Byte2(Value(c), Value(d))])
  }

  /** The loop over whole groups of four. */
  function DecodeGroups(t: Bytes): Option<Bytes> {
    if |t| < 4 then Some([]) else GoOn(TakeGroup(t[0], t[1], t[2], t[3]), DecodeGroups(t[4..]))
  }

  function GoOn(taken: Taken, rest: Option<Bytes>): Option<Bytes> {
    match taken
    case Reject => None
    case Last(bs) => Some(bs)
    case More(bs) => Prepend(bs, rest)
  }

  lemma GoOnBehind(output: Bytes, taken: Taken, rest: Option<Bytes>)
    ensures Prepend(output, GoOn(taken, rest)) ==
      match taken
      case Reject => None
      case Last(bs) => Some(output + bs)
      case More(bs) => Prepend(output + bs, rest)
  {
    if taken.More? && rest.Some? {
      assert output + (taken.bytes + rest.value) == (output + taken.bytes) + rest.value;
    }
  }

  /** A length made of whole groups of four. */
  predicate Whole(n: nat) {
    n == 0 || (n >= 4 && Whole(n - 4))
  }

  lemma {:induction false} WholeIsMultipleOfFour(n: nat)
    ensures Whole(n) <==> n % 4 == 0
  {
    if n >= 4 {
      WholeIsMultipleOfFour(n - 4);
    }
  }

  /** What Decode returns; a rejected text gives the empty string. */
  function Decoded(t: Bytes): Bytes {
    if !Whole(|t|) then [] else match DecodeGroups(t) case None => [] case Some(bs) => bs
  }

  method Decode(input: Bytes) returns (output: Bytes)
    ensures output == Decoded(input)
  {
    WholeIsMultipleOfFour(|input|);
    if |input| % 4 != 0 { return []; }
    output := DecodeLoop(input);
  }

  method DecodeLoop(input: Bytes) returns (output: Bytes)
    requires Whole(|input|)
    ensures output == Decoded(input)
  {
    hide TakeGroup, DecodeGroups;
    output := [];
    var i := 0;
    assert input[0..] == input;
    PrependNothing(DecodeGroups(input));
    while i < |input|
      invariant 0 <= i <= |input| && Whole(|input| - i)
      invariant Prepend(output, DecodeGroups(input[i..])) == DecodeGroups(input)
    {
      DecodeNext(input, i);
      GoOnBehind(output, TakeGroup(input[i], input[i + 1], input[i + 2], input[i + 3]), DecodeGroups(input[i + 4..]));
      var taken := DecodeGroup(input[i], input[i + 1], input[i + 2], input[i + 3]);
      if taken.Reject? { return []; }
      output := output + taken.bytes;
      if taken.Last? { return; }
      i := i + 4;
    }
    NoGroupsLeft(input[i..], output);
  }

  lemma DecodeNext(t: Bytes, i: nat)
    requires i + 4 <= |t|
    ensures DecodeGroups(t[i..]) == GoOn(TakeGroup(t[i], t[i + 1], t[i + 2], t[i + 3]), DecodeGroups(t[i + 4..]))
  {
    hide TakeGroup;
    assert t[i..][4..] == t[i + 4..];
  }

  lemma NoGroupsLeft(rest: Bytes, output: Bytes)
    requires rest == []
    ensures Prepend(output, DecodeGroups(rest)) == Some(output)
  {
    assert output + [] == output;
  }

  /** The body of the loop: which bytes one group adds, and whether decoding goes on. */
  method DecodeGroup(a: byte, b: byte, c: byte, d: byte) returns (taken: Taken)
    ensures taken == TakeGroup(a, b, c, d)
  {
    hide Value, Byte0, Byte1, Byte2;
    var ch0, ch1, ch2, ch3 := Value(a), Value(b), Value(c), Value(d);
    if ch0 == 255 || ch1 == 255 { return Reject; }
    var bytes := [Byte0(ch0, ch1)];
    if c == PAD { return Last(bytes); }
    if ch2 == 255 { return Reject; }
    bytes := bytes + [Byte1(ch1, ch2)];
    if d == PAD { return Last(bytes); }
    if ch3 == 255 { return Reject; }
    bytes := bytes + [Byte2(ch2, ch3)];
    return More(bytes);
  }

  lemma PrependNothing(r: Option<Bytes>)
    ensures Prepend([], r) == r
  {
    if r.Some? { assert [] + r.value == r.value; }
  }

  // Round trips.

  lemma SymbolsInvert(i: nat)
    requires i < 64
    ensures Value(Symbol(i)) == i && Symbol(i) != PAD
  {
  }

  lemma TakeSymbols(p: byte, q: byte, r: byte, u: byte)
    requires p < 64 && q < 64 && r < 64 && u < 64
    ensures TakeGroup(Symbol(p), Symbol(q), Symbol(r), Symbol(u)) == More([Byte0(p, q), Byte1(q, r), Byte2(r, u)])
    ensures TakeGroup(Symbol(p), Symbol(q), Symbol(r), PAD) == Last([Byte0(p, q), Byte1(q, r)])
    ensures TakeGroup(Symbol(p), Symbol(q), PAD, PAD) == Last([Byte0(p, q)])
  {
    SymbolsInvert(p);
    SymbolsInvert(q);
    SymbolsInvert(r);
    SymbolsInvert(u);
  }

  lemma SplitThenJoin(a: byte, b: byte, c: byte)
    ensures Byte0(Index0(a), Index1(a, b)) == a
    ensures Byte1(Index1(a, b), Index2(b, c)) == b
    ensures Byte2(Index2(b, c), Index3(c)) == c
  {
    assert Index1(a, b) / 16 == a % 4 && Index1(a, b) % 16 == b / 16;
    assert Index2(b, c) / 4 == b % 16 && Index2(b, c) % 4 == c / 64;
  }

  lemma JoinThenSplit(p: byte, q: byte, r: byte, u: byte)
    requires p < 64 && q < 64 && r < 64 && u < 64
    ensures var a, b, c := Byte0(p, q), Byte1(q, r), Byte2(r, u);
      Index0(a) == p && Index1(a, b) == q && Index2(b, c) == r && Index3(c) == u
  {
    var x, y, z, w := q / 16, q % 16, r / 4, r % 4;
    assert q == x * 16 + y && r == z * 4 + w;
    assert (p * 4 + x) / 4 == p && (p * 4 + x) % 4 == x;
    assert (y * 16 + z) / 16 == y && (y * 16 + z) % 16 == z;
    assert (w * 64 + u) / 64 == w && (w * 64 + u) % 64 == u;
  }

  /** Decoding undoes encoding, for every byte string. */
  lemma {:induction false} DecodeUndoesEncode(s: Bytes)
    ensures DecodeGroups(Encoded(s)) == Some(s)
    decreases |s|
  {
    hide Symbol, Index0, Index1, Index2, Index3, Byte0, Byte1, Byte2, TakeGroup;
    if s != [] {
      var b := if |s| > 1 then s[1] else 0;
      var c := if |s| > 2 then s[2] else 0;
      SplitThenJoin(s[0], b, c);
      TakeSymbols(Index0(s[0]), Index1(s[0], b), Index2(b, c), Index3(c));
      if |s| == 1 {
        assert s == [s[0]];
      } else if |s| == 2 {
        assert s == [s[0], s[1]];
      } else {
        DecodeUndoesEncode(s[3..]);
        assert Encoded(s)[4..] == Encoded(s[3..]);
        assert s == [s[0], s[1], s[2]] + s[3..];
      }
    }
  }

  lemma DecodedUndoesEncoded(s: Bytes)
    ensures Decoded(Encoded(s)) == s
  {
    DecodeUndoesEncode(s);
    EncodedIsWhole(s);
  }

  lemma {:induction false} EncodedIsWhole(s: Bytes)
    ensures Whole(|Encoded(s)|)
    decreases |s|
  {
    if |s| > 2 {
      EncodedIsWhole(s[3..]);
    }
  }

  lemma {:induction false} EncodedLength(s: Bytes)
    ensures |Encoded(s)| == 4 * ((|s| + 2) / 3)
    decreases |s|
  {
    hide Symbols;
    if |s| > 2 {
      EncodedLength(s[3..]);
      AddThree(|s|);
    }
  }

  lemma AddThree(n: nat)
    requires n > 2
    ensures (n + 2) / 3 == 1 + (n - 3 + 2) / 3
  {
  }

  /** Canonical texts: alphabet symbols, padding only in the last group, spare bits zero. */
  predicate Canonical(t: Bytes) {
    if t == [] then true
    else if |t| < 4 then false
    else if |t| == 4 then
      && IsSymbol(t[0]) && IsSymbol(t[1])
      && (|| (IsSymbol(t[2]) && IsSymbol(t[3]))
          || (IsSymbol(t[2]) && Value(t[2]) % 4 == 0 && t[3] == PAD)
          || (Value(t[1]) % 16 == 0 && t[2] == PAD && t[3] == PAD))
    else
      IsSymbol(t[0]) && IsSymbol(t[1]) && IsSymbol(t[2]) && IsSymbol(t[3]) && Canonical(t[4..])
  }

  lemma ZeroSpareBits(a: byte, b: byte)
    ensures Index1(a, 0) % 16 == 0 && Index2(b, 0) % 4 == 0
  {
  }

  lemma SpareBitsAreZero(a: byte, b: byte)
    ensures Value(Symbols(a, 0, 0)[1]) % 16 == 0 && Value(Symbols(a, b, 0)[2]) % 4 == 0
  {
    SymbolsInvert(Index1(a, 0));
    SymbolsInvert(Index2(b, 0));
    ZeroSpareBits(a, b);
  }

  lemma {:induction false} EncodedIsCanonical(s: Bytes)
    ensures Canonical(Encoded(s))
    decreases |s|
  {
    if s != [] {
      var b := if |s| > 1 then s[1] else 0;
      SpareBitsAreZero(s[0], b);
      if |s| > 2 {
        EncodedIsCanonical(s[3..]);
        EncodedLength(s[3..]);
        assert Encoded(s)[4..] == Encoded(s[3..]);
      }
    }
  }

  // A last group whose spare bits are zero loses nothing.

  lemma ZeroBytes(q: byte, r: byte)
    requires q < 64 && r < 64
    ensures q % 16 == 0 ==> Byte1(q, 0) == 0
    ensures r % 4 == 0 ==> Byte2(r, 0) == 0
  {
  }

  lemma EncodeLastGroup(t: Bytes)
    requires |t| == 4 && Canonical(t)
    ensures DecodeGroups(t).Some? && Encoded(DecodeGroups(t).value) == t
  {
    hide Symbol, Index0, Index1, Index2, Index3, Byte0, Byte1, Byte2, TakeGroup;
    var p, q := Value(t[0]), Value(t[1]);
    assert t == [Symbol(p), Symbol(q), t[2], t[3]];
    if t[2] == PAD {
      TakeSymbols(p, q, 0, 0);
      JoinThenSplit(p, q, 0, 0);
      ZeroBytes(q, 0);
    } else if t[3] == PAD {
      TakeSymbols(p, q, Value(t[2]), 0);
      JoinThenSplit(p, q, Value(t[2]), 0);
      ZeroBytes(0, Value(t[2]));
    } else {
      TakeSymbols(p, q, Value(t[2]), Value(t[3]));
      JoinThenSplit(p, q, Value(t[2]), Value(t[3]));
      var bs := TakeGroup(t[0], t[1], t[2], t[3]).bytes;
      assert t[4..] == [] && DecodeGroups(t[4..]) == Some([]);
      PrependToNothing(bs);
      assert bs[3..] == [] && Encoded([]) == [];
    }
  }

  lemma PrependToNothing(bs: Bytes)
    ensures Prepend(bs, Some([])) == Some(bs)
  {
    assert bs + [] == bs;
  }

  lemma {:induction false} EncodeUndoesDecode(t: Bytes)
    requires Canonical(t)
    ensures DecodeGroups(t).Some? && Encoded(DecodeGroups(t).value) == t
    decreases |t|
  {
    hide Symbol, IsSymbol, Byte0, Byte1, Byte2, Index0, Index1, Index2, Index3, TakeGroup;
    if |t| == 4 {
      EncodeLastGroup(t);
    } else if t != [] {
      EncodeUndoesDecode(t[4..]);
      TakeSymbols(Value(t[0]), Value(t[1]), Value(t[2]), Value(t[3]));
      JoinThenSplit(Value(t[0]), Value(t[1]), Value(t[2]), Value(t[3]));
      var bs, rest := TakeGroup(t[0], t[1], t[2], t[3]).bytes, DecodeGroups(t[4..]).value;
      assert (bs + rest)[3..] == rest && t == t[..4] + t[4..];
      assert Encoded(bs + rest) == Symbols(bs[0], bs[1], bs[2]) + Encoded(rest);
    }
  }

  /** Encoding gives a text back after decoding exactly when the text is canonical. */
  lemma RoundTripIffCanonical(t: Bytes)
    ensures Encoded(Decoded(t)) == t <==> Canonical(t)
  {
    if Canonical(t) {
      EncodeUndoesDecode(t);
      EncodedIsWhole(DecodeGroups(t).value);
    }
    EncodedIsCanonical(Decoded(t));
  }

  // Texts the decoder does not take whole.

  /** A text whose length is not a multiple of four decodes to nothing. */
  lemma OddLengthIsNothing(t: Bytes)
    ensures |t| % 4 != 0 ==> Decoded(t) == []
  {
    WholeIsMultipleOfFour(|t|);
  }

  /** Full groups of symbols are decoded one by one. */
  predicate Plain(t: Bytes) {
    Whole(|t|) && forall k :: 0 <= k < |t| ==> IsSymbol(t[k])
  }

  lemma PlainGroup(t: Bytes)
    requires |t| >= 4 && Plain(t)
    ensures TakeGroup(t[0], t[1], t[2], t[3]).More? && Plain(t[4..])
  {
    hide Symbol, Byte0, Byte1, Byte2;
    assert IsSymbol(t[0]) && IsSymbol(t[1]) && IsSymbol(t[2]) && IsSymbol(t[3]);
  }

  /** After full groups the decoder goes on with what follows them. */
  lemma {:induction false} AfterPlain(front: Bytes, rest: Bytes)
    requires Plain(front)
    ensures DecodeGroups(front).Some?
    ensures DecodeGroups(front + rest) == Prepend(DecodeGroups(front).value, DecodeGroups(rest))
    decreases |front|
  {
    hide TakeGroup, Plain;
    if |front| < 4 {
      PlainIsWhole(front);
      assert front + rest == rest;
      PrependNothing(DecodeGroups(rest));
    } else {
      PlainGroup(front);
      AfterPlain(front[4..], rest);
      var taken := TakeGroup(front[0], front[1], front[2], front[3]);
      assert (front + rest)[4..] == front[4..] + rest;
      if DecodeGroups(rest).Some? {
        var a, b, c := taken.bytes, DecodeGroups(front[4..]).value, DecodeGroups(rest).value;
        assert a + (b + c) == (a + b) + c;
      }
    }
  }

  lemma PlainIsWhole(t: Bytes)
    requires Plain(t) && |t| < 4
    ensures t == []
  {
  }

  lemma WholeSum(m: nat, n: nat)
    requires Whole(m)
    ensures Whole(m + n) <==> Whole(n)
  {
    WholeIsMultipleOfFour(m);
    WholeIsMultipleOfFour(n);
    WholeIsMultipleOfFour(m + n);
  }

  /** A group with a foreign byte where the decoder looks rejects the whole text: in the first two places, in
      the third, or in the fourth when the third is not the padding. */
  lemma ForeignByteRejects(front: Bytes, g: Bytes, rest: Bytes)
    requires Plain(front) && |g| == 4
    requires Value(g[0]) == 255 || Value(g[1]) == 255 || (g[2] != PAD && (Value(g[2]) == 255
          || (g[3] != PAD && Value(g[3]) == 255)))
    ensures Decoded(front + g + rest) == []
  {
    hide Value, Plain, Byte0, Byte1, Byte2;
    AfterPlain(front, g + rest);
    assert front + g + rest == front + (g + rest);
    assert DecodeGroups(g + rest) == None;
  }

  /** What follows a padded group is not looked at, beyond its length. */
  lemma PaddingEnds(front: Bytes, g: Bytes, rest: Bytes)
    requires Plain(front) && |g| == 4 && IsSymbol(g[0]) && IsSymbol(g[1])
    requires g[2] == PAD || (IsSymbol(g[2]) && g[3] == PAD)
    ensures Whole(|rest|) ==> Decoded(front + g + rest) == Decoded(front + g)
  {
    hide Plain, TakeGroup, IsSymbol, DecodeGroups, Whole, Decoded, Prepend;
    if Whole(|rest|) {
      var t, u := front + g + rest, front + g;
      assert t == front + (g + rest) && |t| == |front| + (4 + |rest|);
      AfterPlain(front, g + rest);
      AfterPlain(front, g);
      PaddedIsLast(g[0], g[1], g[2], g[3]);
      LastGroupEnds(g, rest);
      LastGroupEnds(g, []);
      assert g + [] == g;
      PlainLength(front);
      LengthsWhole(|front|, |rest|);
      SameDecoded(t, u);
    }
  }

  lemma SameDecoded(t: Bytes, u: Bytes)
    requires Whole(|t|) && Whole(|u|) && DecodeGroups(t) == DecodeGroups(u)
    ensures Decoded(t) == Decoded(u)
  {
  }

  lemma LengthsWhole(m: nat, n: nat)
    requires Whole(m)
    ensures Whole(m + (4 + n)) <==> Whole(n)
    ensures Whole(m + 4)
  {
    WholeSum(m, 4 + n);
    WholeSum(m, 4);
  }

  lemma PaddedIsLast(a: byte, b: byte, c: byte, d: byte)
    requires IsSymbol(a) && IsSymbol(b) && (c == PAD || (IsSymbol(c) && d == PAD))
    ensures TakeGroup(a, b, c, d).Last?
  {
    hide Byte0, Byte1, Byte2, Symbol;
  }

  lemma LastGroupEnds(g: Bytes, rest: Bytes)
    requires |g| == 4 && TakeGroup(g[0], g[1], g[2], g[3]).Last?
    ensures DecodeGroups(g + rest) == Some(TakeGroup(g[0], g[1], g[2], g[3]).bytes)
  {
    hide TakeGroup;
  }

  lemma PlainLength(t: Bytes)
    requires Plain(t)
    ensures Whole(|t|)
  {
  }
}
