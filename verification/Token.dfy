/** src/util/token.cpp: a user and an end time, sealed with a digest, masked with a cyclic key and
    written in Base64.

    Turning the end time into text and back depends on the time zone, so the text stands for the
    time here; whether it is still ahead of the clock is a parameter. */
module Token {
  import opened Bytes
  import Base64
  import Md5

  const BAR: byte := 124

  // The cyclic mask.

  function Xor(x: byte, y: byte): byte {
    Number(BitXor(Bits(x), Bits(y)))
  }

  function BitXor(a: bv8, b: bv8): bv8 {
    a ^ b
  }

  /** Byte i is masked with key byte i modulo the key's length. */
  function Masked(s: Bytes, key: Bytes): (r: Bytes)
    requires |key| > 0
    ensures |r| == |s|
  {
    seq(|s|, i requires 0 <= i < |s| => Xor(s[i], key[i % |key|]))
  }

  lemma XorTwice(x: bv8, y: bv8)
    ensures BitXor(BitXor(x, y), y) == x
  {
  }

  lemma XorUndoes(x: byte, y: byte)
    ensures Xor(Xor(x, y), y) == x
  {
    hide Bits, Number, BitXor;
    BitsOfNumber(BitXor(Bits(x), Bits(y)));
    XorTwice(Bits(x), Bits(y));
    NumberOfBits(x);
  }

  /** Masking twice with one key gives the text back. */
  lemma MaskTwice(s: Bytes, key: Bytes)
    requires |key| > 0
    ensures Masked(Masked(s, key), key) == s
  {
    hide Xor;
    forall i | 0 <= i < |s|
      ensures Masked(Masked(s, key), key)[i] == s[i]
    {
      XorUndoes(s[i], key[i % |key|]);
    }
  }

  lemma MaskMoves(s: Bytes, t: Bytes, key: Bytes)
    requires |key| > 0
    ensures Masked(s, key) == t <==> s == Masked(t, key)
  {
    MaskTwice(s, key);
    MaskTwice(t, key);
  }

  lemma XorBits(x: bv8, y: bv8, z: bv8)
    ensures BitXor(0, y) == y && BitXor(x, 0) == x
    ensures BitXor(BitXor(x, y), z) == BitXor(x, BitXor(y, z)) && BitXor(x, y) == BitXor(y, x)
  {
  }

  lemma ZeroBits()
    ensures Bits(0) == 0
  {
  }

  /** Exclusive or of bytes: zero leaves the other alone, and grouping and order do not matter. */
  lemma XorLaws(x: byte, y: byte, z: byte)
    ensures Xor(0, y) == y && Xor(x, 0) == x && Xor(x, y) == Xor(y, x)
    ensures Xor(Xor(x, y), z) == Xor(x, Xor(y, z))
  {
    hide Bits, Number, BitXor;
    ZeroBits();
    NumberOfBits(x);
    NumberOfBits(y);
    BitsOfNumber(BitXor(Bits(x), Bits(y)));
    BitsOfNumber(BitXor(Bits(y), Bits(z)));
    XorBits(Bits(x), Bits(y), Bits(z));
  }

  /** One byte of the mask: it is unchanged only by a zero, and it tells the key byte. */
  lemma XorCancels(x: byte, y: byte, z: byte)
    ensures Xor(x, y) == Xor(x, z) <==> y == z
    ensures Xor(x, y) == x <==> y == 0
  {
    hide Xor;
    XorLaws(x, y, 0);
    XorLaws(x, z, 0);
    XorUndoes(y, x);
    XorUndoes(z, x);
    XorUndoes(0, x);
    XorLaws(0, x, 0);
  }

  /** Masking zeros writes the key, over and over. */
  lemma MaskOfZeros(n: nat, key: Bytes)
    requires |key| > 0
    ensures var r := Masked(seq(n, _ => 0), key);
      |r| == n && forall i :: 0 <= i < n ==> r[i] == key[i % |key|]
  {
    hide Xor;
    forall i | 0 <= i < n
      ensures Masked(seq(n, _ => 0), key)[i] == key[i % |key|]
    {
      XorLaws(0, key[i % |key|], 0);
    }
  }

  /** The key matters: on a text at least as long as the keys, two keys of one length give the same mask
      only when they are the same. */
  lemma MaskTellsKeys(s: Bytes, key: Bytes, other: Bytes)
    requires 0 < |key| == |other| <= |s|
    ensures Masked(s, key) == Masked(s, other) <==> key == other
  {
    hide Xor;
    if Masked(s, key) == Masked(s, other) {
      forall i | 0 <= i < |key|
        ensures key[i] == other[i]
      {
        assert Masked(s, key)[i] == Masked(s, other)[i];
        Remainder(i, 0, |key|, i);
        XorCancels(s[i], key[i], other[i]);
      }
    }
  }

  /** A mask leaves a text as it is exactly when the key bytes it uses are zero. */
  lemma MaskIsPlainIff(s: Bytes, key: Bytes)
    requires |key| > 0
    ensures Masked(s, key) == s <==> forall i :: 0 <= i < |s| ==> key[i % |key|] == 0
  {
    hide Xor;
    forall i | 0 <= i < |s|
      ensures Masked(s, key)[i] == s[i] <==> key[i % |key|] == 0
    {
      XorCancels(s[i], key[i % |key|], 0);
    }
  }

  method Mask(s: Bytes, key: Bytes) returns (r: Bytes)
    requires |key| > 0
    ensures r == Masked(s, key)
  {
    hide Xor;
    r := [];
    var i := 0;
    for n := 0 to |s|
      invariant i == n % |key|
      invariant |r| == n && forall k :: 0 <= k < n ==> r[k] == Masked(s, key)[k]
    {
      r := r + [Xor(s[n], key[i])];
      NextIndex(n, |key|);
      i := (i + 1) % |key|;
    }
  }

  lemma NextIndex(n: nat, m: nat)
    requires m > 0
    ensures (n % m + 1) % m == (n + 1) % m
  {
    var q, r := n / m, n % m;
    assert n == q * m + r;
    if r + 1 == m {
      assert n + 1 == (q + 1) * m + 0;
      Remainder(n + 1, q + 1, m, 0);
      Remainder(m, 1, m, 0);
    } else {
      Remainder(n + 1, q, m, r + 1);
      Remainder(r + 1, 0, m, r + 1);
    }
  }

  lemma Remainder(x: nat, q: nat, m: nat, r: nat)
    requires m > 0 && r < m && x == q * m + r
    ensures x % m == r
  {
    var d: int := x / m - q;
    assert x == (x / m) * m + x % m;
    assert d * m == r - x % m;
    assert d >= 1 ==> d * m >= m;
    assert d <= -1 ==> d * m <= -1 * m;
  }

  // Token texts.

  function Payload(user: Bytes, time: Bytes): Bytes {
    user + [BAR] + time
  }

  /** The separator is a vertical bar. */
  lemma PayloadHasBar(user: Bytes, time: Bytes)
    ensures Payload(user, time) == user + Ascii("|") + time
  {
    assert Ascii("|") == [124];
  }

  function Sealed(payload: Bytes): Bytes {
    Md5.Digest(payload) + payload
  }

  function TokenText(user: Bytes, time: Bytes, key: Bytes): Bytes
    requires |key| > 0
  {
    Base64.Encoded(Masked(Sealed(Payload(user, time)), key))
  }

  ghost predicate NoBar(s: Bytes) {
    forall k :: 0 <= k < |s| ==> s[k] != BAR
  }

  datatype Claims = Claims(user: Bytes, time: Bytes)

  /** What the unmasked text says, when its digest fits and it has a bar. */
  function Unsealed(s: Bytes): Option<Claims> {
    if |s| <= 32 || s[..32] != Md5.Digest(s[32..]) then None
    else
      var p := s[32..];
      var n := First(p, BAR);
      if n == |p| then None else Some(Claims(p[..n], p[n + 1..]))
  }

  function Opened(text: Bytes, key: Bytes): Option<Claims>
    requires |key| > 0
  {
    Unsealed(Masked(Base64.Decoded(text), key))
  }

  /** Unsealing accepts exactly the sealed payloads, split at the first bar. */
  lemma UnsealedIff(s: Bytes, c: Claims)
    ensures Unsealed(s) == Some(c) <==> NoBar(c.user) && s == Sealed(Payload(c.user, c.time))
  {
    hide Md5.Digest;
    var p := Payload(c.user, c.time);
    if NoBar(c.user) && s == Sealed(p) {
      assert s[..32] == Md5.Digest(p) && s[32..] == p;
      assert p[..|c.user|] == c.user && p[|c.user| + 1..] == c.time;
      FirstIs(p, BAR, |c.user|);
    }
    if Unsealed(s) == Some(c) {
      assert s[32..] == p;
      assert s == s[..32] + s[32..];
    }
  }

  /** A text is accepted with these claims exactly when it decodes to the masked, sealed payload and
      the user has no bar. */
  lemma AcceptedIff(text: Bytes, key: Bytes, c: Claims)
    requires |key| > 0
    ensures Opened(text, key) == Some(c) <==>
      NoBar(c.user) && Base64.Decoded(text) == Masked(Sealed(Payload(c.user, c.time)), key)
  {
    hide Base64.Decoded, Sealed, Unsealed, Masked;
    UnsealedIff(Masked(Base64.Decoded(text), key), c);
    MaskMoves(Base64.Decoded(text), Sealed(Payload(c.user, c.time)), key);
  }

  /** Opening a token with the key it was made with gives user and time back, exactly for the users
      without a bar. */
  lemma TokenRoundTrip(user: Bytes, time: Bytes, key: Bytes)
    requires |key| > 0
    ensures Opened(TokenText(user, time, key), key) == Some(Claims(user, time)) <==> NoBar(user)
  {
    hide Base64.Decoded, Base64.Encoded, Sealed, Opened, Masked;
    Base64.DecodedUndoesEncoded(Masked(Sealed(Payload(user, time)), key));
    AcceptedIff(TokenText(user, time, key), key, Claims(user, time));
  }

  lemma PayloadSplit(user: Bytes, time: Bytes, n: nat)
    requires n < |user| && user[n] == BAR
    ensures Payload(user[..n], Payload(user[n + 1..], time)) == Payload(user, time)
  {
    assert user == user[..n] + [BAR] + user[n + 1..];
  }

  /** With a bar in the user the token is still accepted, for the part before the first bar. */
  lemma BarShortensUser(user: Bytes, time: Bytes, key: Bytes)
    requires |key| > 0 && !NoBar(user)
    ensures First(user, BAR) < |user|
    ensures Opened(TokenText(user, time, key), key)
         == Some(Claims(user[..First(user, BAR)], Payload(user[First(user, BAR) + 1..], time)))
  {
    hide Base64.Decoded, Base64.Encoded, Sealed, Opened, Masked, Payload;
    var n := First(user, BAR);
    PayloadSplit(user, time, n);
    Base64.DecodedUndoesEncoded(Masked(Sealed(Payload(user, time)), key));
    AcceptedIff(TokenText(user, time, key), key, Claims(user[..n], Payload(user[n + 1..], time)));
  }

  /** Making the token of accepted claims again gives the same text exactly for canonical texts. */
  lemma ReissueIffCanonical(text: Bytes, key: Bytes)
    requires |key| > 0 && Opened(text, key).Some?
    ensures var c := Opened(text, key).value; TokenText(c.user, c.time, key) == text <==> Base64.Canonical(text)
  {
    hide Base64.Decoded, Base64.Encoded, Base64.Canonical, Sealed, Opened, Masked;
    AcceptedIff(text, key, Opened(text, key).value);
    Base64.RoundTripIffCanonical(text);
  }

  // Bytes below 128 stay below 128, so signed and unsigned `char` agree all the way.

  lemma SevenBitXor(x: byte, y: byte)
    requires x < 128 && y < 128
    ensures Xor(x, y) < 128
  {
    hide Bits, Number, BitXor;
    LowHalf(x);
    LowHalf(y);
    XorLowHalf(Bits(x), Bits(y));
    BelowLowHalf(BitXor(Bits(x), Bits(y)));
  }

  lemma LowHalf(x: byte)
    requires x < 128
    ensures Bits(x) < 0x80
  {
    NumberOfBits(x);
  }

  lemma BelowLowHalf(a: bv8)
    requires a < 0x80
    ensures Number(a) < 128
  {
  }

  lemma XorLowHalf(a: bv8, b: bv8)
    requires a < 0x80 && b < 0x80
    ensures BitXor(a, b) < 0x80
  {
  }

  lemma SevenBitStays(user: Bytes, time: Bytes, key: Bytes)
    requires |key| > 0 && SevenBit(user) && SevenBit(time) && SevenBit(key)
    ensures SevenBit(Payload(user, time)) && SevenBit(Sealed(Payload(user, time)))
    ensures SevenBit(Masked(Sealed(Payload(user, time)), key))
  {
    hide Xor, Md5.Digest;
    var s := Sealed(Payload(user, time));
    DigestIsSevenBit(Payload(user, time));
    forall i | 0 <= i < |s|
      ensures Masked(s, key)[i] < 128
    {
      SevenBitXor(s[i], key[i % |key|]);
    }
  }

  lemma DigestIsSevenBit(p: Bytes)
    ensures SevenBit(Md5.Digest(p))
  {
    hide Md5.Print, Md5.CodeWords, Md5.After, Md5.Blocks;
    Md5.PrintsHex(Md5.After(Md5.CodeWords(p), Md5.Blocks(|p|)));
  }

  /** Token of src/include/util/token.h. */
  class Token {
    var isUseful: bool
    var isInTime: bool
    var userId: Bytes
    var endTime: Bytes

    /** Parse a text.  The source divides by the key's length. */
    constructor Parse(token: Bytes, key: Bytes, due: Bytes -> bool)
      requires |key| > 0 && |token| < 0x1_0000_0000
      ensures isUseful == Opened(token, key).Some?
      ensures isUseful ==> Opened(token, key) == Some(Claims(userId, endTime)) && isInTime == due(endTime)
      ensures !isUseful ==> !isInTime && userId == [] && endTime == []
    {
      hide Md5.Digest, Md5.RfcDigest, Md5.IsHexDigit, Base64.Decoded, Masked, Unsealed;
      isUseful, isInTime, userId, endTime := false, false, [], [];
      new;
      var pass := Base64.Decode(token);
      DecodedIsShorter(token);
      var str := Mask(pass, key);
      if |str| > 32 {
        var md5 := new Md5.MD5();
        var digest := md5.Encode(str[32..]);
        if str[..32] == digest {
          var i := 32;
          while i < |str| && str[i] != BAR
            invariant 32 <= i <= |str| && forall k :: 32 <= k < i ==> str[k] != BAR
          {
            i := i + 1;
          }
          BarFound(str, i);
          if i < |str| {
            userId := str[32..i];
            endTime := str[i + 1..];
            isInTime := due(endTime);
            isUseful := true;
          }
        } else {
          NotSealed(str);
        }
      } else {
        NotSealed(str);
      }
    }

    /** A token for a user until an end time. */
    constructor Issue(user: Bytes, time: Bytes, due: bool)
      ensures isUseful && userId == user && endTime == time && isInTime == due
    {
      userId, endTime, isInTime, isUseful := user, time, due, true;
    }

    method ToString() returns (text: Bytes)
      requires |userId| + |endTime| < 0xffff_ffff
      ensures text == if isUseful then Sealed(Payload(userId, endTime)) else []
    {
      hide Md5.Digest;
      if !isUseful {
        return [];
      }
      var payload := userId + ([BAR] + endTime);
      assert payload == Payload(userId, endTime);
      var md5 := new Md5.MD5();
      var digest := md5.Encode(payload);
      text := digest + payload;
    }

    method Encode(key: Bytes) returns (text: Bytes)
      requires |key| > 0 && |userId| + |endTime| < 0xffff_ffff
      ensures text == if isUseful then TokenText(userId, endTime, key) else []
    {
      hide Sealed, Base64.Encoded;
      var val := ToString();
      var pass := Mask(val, key);
      text := Base64.Encode(pass);
      EmptyText();
    }
  }

  lemma EmptyText()
    ensures Base64.Encoded([]) == []
  {
  }

  lemma NotSealed(s: Bytes)
    requires |s| <= 32 || s[..32] != Md5.Digest(s[32..])
    ensures Unsealed(s) == None
  {
  }

  lemma BarFound(s: Bytes, i: nat)
    requires 32 <= i <= |s| && (forall k :: 32 <= k < i ==> s[k] != BAR) && (i < |s| ==> s[i] == BAR)
    requires |s| > 32 && s[..32] == Md5.Digest(s[32..])
    ensures Unsealed(s) == if i < |s| then Some(Claims(s[32..i], s[i + 1..])) else None
  {
    hide Md5.Digest;
    var p := s[32..];
    FirstIs(p, BAR, i - 32);
    assert p[..i - 32] == s[32..i];
    assert i < |s| ==> p[i - 32 + 1..] == s[i + 1..];
  }

  lemma TakenIsShort(a: byte, b: byte, c: byte, d: byte)
    ensures var taken := Base64.TakeGroup(a, b, c, d); !taken.Reject? ==> |taken.bytes| <= 3
  {
    hide Base64.Value, Base64.Byte0, Base64.Byte1, Base64.Byte2;
  }

  lemma {:induction false} DecodedGroupsAreShorter(t: Bytes)
    ensures Base64.DecodeGroups(t).Some? ==> |Base64.DecodeGroups(t).value| <= |t|
  {
    hide Base64.TakeGroup;
    if |t| >= 4 {
      TakenIsShort(t[0], t[1], t[2], t[3]);
      DecodedGroupsAreShorter(t[4..]);
    }
  }

  lemma DecodedIsShorter(t: Bytes)
    ensures |Base64.Decoded(t)| <= |t|
  {
    DecodedGroupsAreShorter(t);
  }
}
