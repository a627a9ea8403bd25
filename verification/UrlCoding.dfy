/** Percent coding and splitting: src/web/request_maker.cpp and src/include/web/request_maker.h. */
module UrlCoding {
  import opened Bytes

  const PERCENT: byte := 37

  // The tables kNumMap and kAsciiMap.

  /** The index of a byte in kNumMap; 16, one past the end, when it is not there. */
  function HexIndex(c: byte): (n: nat)
    ensures n <= 16 && (n < 16 ==> HexDigit(n) == c)
  {
    if 48 <= c <= 57 then c - 48 else if 65 <= c <= 70 then c - 55 else 16
  }

  /** The reserved bytes: "%<>[\]^_`{|} */
  predicate Reserved(c: byte) {
    c == 34 || c == 37 || c == 60 || c == 62 || 91 <= c <= 96 || 123 <= c <= 125
  }

  predicate Escaped(c: byte) {
    c >= 128 || Reserved(c)
  }

  /** UrlCodeGetHEX: the sum is cut to eight bits. */
  function HexPair(l: byte, r: byte): byte {
    (HexIndex(l) * 16 + HexIndex(r)) % 256
  }

  function Escape(c: byte): (r: Bytes) {
    if Escaped(c) then [PERCENT, HexDigit(c / 16), HexDigit(c % 16)] else [c]
  }

  function UrlEncoded(s: Bytes): Bytes {
    if s == [] then [] else Escape(s[0]) + UrlEncoded(s[1..])
  }

  /** None stands for the exception on an unfinished escape. */
  function UrlDecoded(s: Bytes): (r: Option<Bytes>)
    ensures r.Some? ==> |r.value| <= |s|
  {
    if s == [] then Some([])
    else if s[0] != PERCENT then Front(s[0], UrlDecoded(s[1..]))
    else if |s| < 3 then None
    else Front(HexPair(s[1], s[2]), UrlDecoded(s[3..]))
  }

  function Front(c: byte, rest: Option<Bytes>): Option<Bytes> {
    match rest case None => None case Some(r) => Some([c] + r)
  }

  lemma EncodeNext(url: Bytes, i: nat, ret: Bytes)
    requires i < |url|
    ensures ret + UrlEncoded(url[i..]) == ret + Escape(url[i]) + UrlEncoded(url[i + 1..])
  {
    hide Escape;
    assert url[i..][1..] == url[i + 1..];
  }

  method UrlEncode(url: Bytes) returns (ret: Bytes)
    ensures ret == UrlEncoded(url)
  {
    hide Escaped, HexDigit, UrlEncoded;
    ret := [];
    assert url[0..] == url;
    for i := 0 to |url|
      invariant UrlEncoded(url) == ret + UrlEncoded(url[i..])
    {
      EncodeNext(url, i, ret);
      var it := url[i];
      ghost var before := ret;
      if Escaped(it) {
        ret := ret + [PERCENT];
        ret := ret + [HexDigit(it / 16)];
        ret := ret + [HexDigit(it % 16)];
      } else {
        ret := ret + [it];
      }
      assert ret == before + Escape(it);
    }
    EncodeNothing(ret, url[|url|..]);
  }

  lemma EncodeNothing(ret: Bytes, rest: Bytes)
    requires rest == []
    ensures ret + UrlEncoded(rest) == ret
  {
  }

  lemma AfterFront(done: Bytes, c: byte, rest: Option<Bytes>)
    ensures Prepend(done, Front(c, rest)) == Prepend(done + [c], rest)
  {
    if rest.Some? {
      assert done + ([c] + rest.value) == (done + [c]) + rest.value;
    }
  }

  lemma AfterNothing(r: Option<Bytes>, done: Bytes)
    ensures Prepend([], r) == r && Prepend(done, Some([])) == Some(done)
  {
    if r.Some? {
      assert [] + r.value == r.value;
    }
    assert done + [] == done;
  }

  method UrlDecode(url: Bytes) returns (r: Option<Bytes>)
    ensures r == UrlDecoded(url)
  {
    hide HexPair;
    var ret, it := [], 0;
    assert url[0..] == url;
    AfterNothing(UrlDecoded(url), []);
    while it != |url|
      invariant it <= |url|
      invariant UrlDecoded(url) == Prepend(ret, UrlDecoded(url[it..]))
    {
      var rest := url[it..];
      assert it + 3 <= |url| ==> rest[3..] == url[it + 3..];
      assert rest[1..] == url[it + 1..];
      if url[it] == PERCENT {
        if it + 1 == |url| {
          return None;
        }
        it := it + 1;
        if it + 1 == |url| {
          return None;
        }
        AfterFront(ret, HexPair(url[it], url[it + 1]), UrlDecoded(url[it + 2..]));
        ret := ret + [HexPair(url[it], url[it + 1])];
        it := it + 1;
      } else {
        AfterFront(ret, url[it], UrlDecoded(url[it + 1..]));
        ret := ret + [url[it]];
      }
      it := it + 1;
    }
    AfterNothing(None, ret);
    return Some(ret);
  }

  lemma EscapeInverts(c: byte)
    ensures HexPair(HexDigit(c / 16), HexDigit(c % 16)) == c
  {
  }

  lemma DecodeEscape(c: byte, rest: Bytes)
    ensures UrlDecoded(Escape(c) + rest) == Front(c, UrlDecoded(rest))
  {
    hide HexPair, HexDigit;
    EscapeInverts(c);
    var t := Escape(c) + rest;
    if Escaped(c) {
      assert t[3..] == rest;
    } else {
      assert t[1..] == rest;
    }
  }

  /** Decoding undoes encoding for every byte string. */
  lemma {:induction false} DecodeUndoesEncode(s: Bytes)
    ensures UrlDecoded(UrlEncoded(s)) == Some(s)
  {
    if s != [] {
      hide Escape, UrlDecoded;
      DecodeUndoesEncode(s[1..]);
      DecodeEscape(s[0], UrlEncoded(s[1..]));
      assert s == [s[0]] + s[1..];
    } else {
      DecodeNothing();
    }
  }

  lemma DecodeNothing()
    ensures UrlDecoded([]) == Some([])
  {
  }

  /** Position k is one where the decoder looks for a percent sign: the bytes before it are single
      bytes and whole escapes. */
  predicate Scanned(s: Bytes, k: nat) {
    k == 0
    || (s != [] && if s[0] == PERCENT then 3 <= k && 3 <= |s| && Scanned(s[3..], k - 3) else Scanned(s[1..], k - 1))
  }

  /** The decoder looks at a percent sign with fewer than two bytes after it. */
  ghost predicate Unfinished(s: Bytes) {
    exists k :: 0 <= k < |s| && Scanned(s, k) && s[k] == PERCENT && |s| < k + 3
  }

  /** The decoder fails exactly when a percent sign it looks at has fewer than two bytes after it. */
  lemma {:induction false} DecodeFailsIff(s: Bytes)
    ensures UrlDecoded(s) == None <==> Unfinished(s)
  {
    hide HexPair;
    if s == [] {
    } else if s[0] == PERCENT && |s| < 3 {
      assert Scanned(s, 0);
    } else {
      var d := if s[0] == PERCENT then 3 else 1;
      var t := s[d..];
      DecodeFailsIff(t);
      if k :| 0 <= k < |t| && Scanned(t, k) && t[k] == PERCENT && |t| < k + 3 {
        assert Scanned(s, k + d) && s[k + d] == PERCENT;
      }
      if k :| 0 <= k < |s| && Scanned(s, k) && s[k] == PERCENT && |s| < k + 3 {
        assert k >= d && Scanned(t, k - d) && t[k - d] == PERCENT;
      }
    }
  }

  /** The texts the encoder writes: escapes in upper case, of exactly the bytes that need one. */
  predicate Canonical(t: Bytes) {
    t == []
    || (if t[0] == PERCENT
        then |t| >= 3 && HexIndex(t[1]) < 16 && HexIndex(t[2]) < 16 && Escaped(HexPair(t[1], t[2])) && Canonical(t[3..])
        else !Escaped(t[0]) && Canonical(t[1..]))
  }

  lemma {:induction false} EncodedIsCanonical(s: Bytes)
    ensures Canonical(UrlEncoded(s))
  {
    if s != [] {
      var t := UrlEncoded(s);
      EncodedIsCanonical(s[1..]);
      EscapeInverts(s[0]);
      if Escaped(s[0]) {
        assert t[3..] == UrlEncoded(s[1..]);
      } else {
        assert t[1..] == UrlEncoded(s[1..]);
      }
    }
  }

  lemma EscapeReturns(l: byte, r: byte)
    requires HexIndex(l) < 16 && HexIndex(r) < 16
    ensures HexDigit(HexPair(l, r) / 16) == l && HexDigit(HexPair(l, r) % 16) == r
  {
    hide HexIndex, HexDigit;
    var x, y := HexIndex(l), HexIndex(r);
    assert HexPair(l, r) == 16 * x + y;
    assert (16 * x + y) / 16 == x && (16 * x + y) % 16 == y;
  }

  lemma {:induction false} EncodeUndoesDecode(t: Bytes)
    requires Canonical(t)
    ensures UrlDecoded(t).Some? && UrlEncoded(UrlDecoded(t).value) == t
  {
    if t != [] {
      hide HexPair, HexDigit, HexIndex, Escaped;
      var d := if t[0] == PERCENT then 3 else 1;
      EncodeUndoesDecode(t[d..]);
      var s := UrlDecoded(t).value;
      assert s[1..] == UrlDecoded(t[d..]).value;
      assert t == t[..d] + t[d..];
      if d == 3 {
        EscapeReturns(t[1], t[2]);
      }
    }
  }

  /** Encoding undoes decoding exactly on the canonical texts. */
  lemma RoundTripIffCanonical(t: Bytes)
    requires UrlDecoded(t).Some?
    ensures UrlEncoded(UrlDecoded(t).value) == t <==> Canonical(t)
  {
    EncodedIsCanonical(UrlDecoded(t).value);
    if Canonical(t) {
      EncodeUndoesDecode(t);
    }
  }

  /** The value of a hexadecimal digit of either case (section 2.1 of RFC 3986), 16 for other bytes. */
  function RfcHex(c: byte): (n: nat)
    ensures n <= 16
  {
    if 48 <= c <= 57 then c - 48 else if 65 <= c <= 70 then c - 55 else if 97 <= c <= 102 then c - 87 else 16
  }

  /** On escapes of the standard the decoder gives their byte exactly when neither digit is in lower case. */
  lemma EscapeAgreesIff(l: byte, r: byte)
    requires RfcHex(l) < 16 && RfcHex(r) < 16
    ensures HexPair(l, r) == 16 * RfcHex(l) + RfcHex(r) <==> !(97 <= l <= 102) && !(97 <= r <= 102)
  {
    if 97 <= l <= 102 || 97 <= r <= 102 {
      var x, y := HexIndex(l), HexIndex(r);
      assert x == 16 ==> (x * 16 + y) % 256 == y;
    }
  }

  /** Decoding as the standard has it: a percent sign is followed by two digits of either case. */
  function RfcDecoded(s: Bytes): Option<Bytes> {
    if s == [] then Some([])
    else if s[0] != PERCENT then Front(s[0], RfcDecoded(s[1..]))
    else if |s| < 3 || RfcHex(s[1]) == 16 || RfcHex(s[2]) == 16 then None
    else Front(16 * RfcHex(s[1]) + RfcHex(s[2]), RfcDecoded(s[3..]))
  }

  /** Every escape the decoder scans has two digits of kNumMap, so none in lower case. */
  predicate UpperEscapes(s: Bytes) {
    if s == [] then true
    else if s[0] != PERCENT then UpperEscapes(s[1..])
    else |s| < 3 || (HexIndex(s[1]) < 16 && HexIndex(s[2]) < 16 && UpperEscapes(s[3..]))
  }

  lemma FrontInjective(c: byte, d: byte, r: Option<Bytes>, t: Option<Bytes>)
    ensures Front(c, r) == Front(d, t) <==> r == t && (r == None || c == d)
  {
    if r.Some? && t.Some? && [c] + r.value == [d] + t.value {
      assert ([c] + r.value)[0] == ([d] + t.value)[0];
      assert ([c] + r.value)[1..] == ([d] + t.value)[1..];
      assert r.value == ([c] + r.value)[1..] && t.value == ([d] + t.value)[1..];
    }
  }

  /** One escape: the digits are of kNumMap exactly when the standard knows them and the decoder agrees. */
  lemma PairAgreesIff(l: byte, r: byte)
    ensures HexIndex(l) < 16 && HexIndex(r) < 16
      <==> RfcHex(l) < 16 && RfcHex(r) < 16 && HexPair(l, r) == 16 * RfcHex(l) + RfcHex(r)
  {
    if RfcHex(l) < 16 && RfcHex(r) < 16 {
      EscapeAgreesIff(l, r);
    }
  }

  lemma {:induction false} AgreesWhenFinished(s: Bytes)
    ensures UrlDecoded(s) == None ==> RfcDecoded(s) == None
    ensures UrlDecoded(s).Some? ==> (UrlDecoded(s) == RfcDecoded(s) <==> UpperEscapes(s))
  {
    hide HexPair, RfcHex, HexIndex;
    if s != [] && s[0] != PERCENT {
      AgreesWhenFinished(s[1..]);
      FrontInjective(s[0], s[0], UrlDecoded(s[1..]), RfcDecoded(s[1..]));
    } else if |s| >= 3 {
      var l, r := s[1], s[2];
      AgreesWhenFinished(s[3..]);
      PairAgreesIff(l, r);
      RfcHexBound(l);
      RfcHexBound(r);
      if RfcHex(l) < 16 && RfcHex(r) < 16 {
        FrontInjective(HexPair(l, r), 16 * RfcHex(l) + RfcHex(r), UrlDecoded(s[3..]), RfcDecoded(s[3..]));
      }
    }
  }

  lemma RfcHexBound(c: byte)
    ensures RfcHex(c) <= 16
  {
  }

  /** On every text the decoder agrees with the standard, in what it gives and in what it refuses, exactly
      when an escape is unfinished or all escapes are of two digits without lower case. */
  lemma DecodeAgreesIff(s: Bytes)
    ensures UrlDecoded(s) == RfcDecoded(s) <==> Unfinished(s) || UpperEscapes(s)
  {
    hide UrlDecoded, RfcDecoded, UpperEscapes, Scanned;
    DecodeFailsIff(s);
    AgreesWhenFinished(s);
  }

  // Split.

  function Pieces(s: Bytes, ch: byte): seq<Bytes> {
    if s == [] then []
    else
      var n := First(s, ch);
      if n == |s| then [s] else [s[..n]] + Pieces(s[n + 1..], ch)
  }

  method Split(str: Bytes, ch: byte) returns (res: seq<Bytes>)
    ensures res == Pieces(str, ch)
  {
    hide Pieces, PiecesFrom;
    res := [];
    var bg, ed := 0, 0;
    FromEnds(str, ch);
    while ed < |str|
      invariant bg == ed <= |str| + 1
      invariant Pieces(str, ch) == res + PiecesFrom(str, ch, ed)
      decreases |str| + 1 - ed
    {
      while ed < |str| && str[ed] != ch
        invariant bg <= ed <= |str|
        invariant forall k :: bg <= k < ed ==> str[k] != ch
      {
        ed := ed + 1;
      }
      NextPiece(str, ch, bg, ed);
      Regroup(res, str[bg..ed], PiecesFrom(str, ch, ed + 1));
      res := res + [str[bg..ed]];
      ed := ed + 1;
      bg := ed;
    }
    assert res + [] == res;
  }

  function PiecesFrom(s: Bytes, ch: byte, ed: nat): seq<Bytes> {
    if ed <= |s| then Pieces(s[ed..], ch) else []
  }

  lemma FromEnds(s: Bytes, ch: byte)
    ensures [] + PiecesFrom(s, ch, 0) == Pieces(s, ch)
    ensures PiecesFrom(s, ch, |s|) == [] && PiecesFrom(s, ch, |s| + 1) == []
  {
    assert s[0..] == s;
  }

  lemma Regroup(res: seq<Bytes>, p: Bytes, rest: seq<Bytes>)
    ensures res + ([p] + rest) == (res + [p]) + rest
  {
  }

  lemma NextPiece(s: Bytes, ch: byte, bg: nat, ed: nat)
    requires bg < |s| && bg <= ed <= |s| && (forall k :: bg <= k < ed ==> s[k] != ch) && (ed < |s| ==> s[ed] == ch)
    ensures PiecesFrom(s, ch, bg) == [s[bg..ed]] + PiecesFrom(s, ch, ed + 1)
  {
    var t := s[bg..];
    FirstIs(t, ch, ed - bg);
    assert t[..ed - bg] == s[bg..ed];
    assert ed == |s| ==> t == s[bg..ed] && [t] + [] == [t];
    assert ed < |s| ==> t[ed - bg + 1..] == s[ed + 1..];
  }

  /** A separator ends a piece; a text without one is a piece. */
  lemma PiecesOfParts(front: Bytes, ch: byte, rest: Bytes)
    requires ch !in front
    ensures Pieces(front + [ch] + rest, ch) == [front] + Pieces(rest, ch)
    ensures front != [] ==> Pieces(front, ch) == [front]
  {
    hide Pieces;
    var s := front + [ch] + rest;
    FirstIs(s, ch, |front|);
    FirstIs(front, ch, |front|);
    PiecesUnfold(s, ch);
    assert s[..|front|] == front && s[|front| + 1..] == rest;
    if front != [] {
      PiecesUnfold(front, ch);
    }
  }

  function Joined(ps: seq<Bytes>, ch: byte): Bytes {
    if ps == [] then [] else if |ps| == 1 then ps[0] else ps[0] + [ch] + Joined(ps[1..], ch)
  }

  /** A text without one separator at its very end. */
  function Trimmed(s: Bytes, ch: byte): Bytes {
    if s != [] && s[|s| - 1] == ch then s[..|s| - 1] else s
  }

  lemma TrimBehind(f: Bytes, ch: byte, t: Bytes)
    ensures Trimmed(f + [ch] + t, ch) == if t == [] then f else f + [ch] + Trimmed(t, ch)
  {
    var s := f + [ch] + t;
    if t == [] {
      assert s[..|s| - 1] == f;
    } else {
      assert s[|s| - 1] == t[|t| - 1];
      assert s[..|s| - 1] == f + [ch] + t[..|t| - 1];
    }
  }

  lemma JoinFront(p: Bytes, ps: seq<Bytes>, ch: byte)
    ensures Joined([p] + ps, ch) == if ps == [] then p else p + [ch] + Joined(ps, ch)
  {
    assert ([p] + ps)[1..] == ps;
  }

  lemma NoPiecesIff(s: Bytes, ch: byte)
    ensures Pieces(s, ch) == [] <==> s == []
  {
  }

  /** Joining the pieces gives the text back, less one separator at its very end. */
  lemma {:induction false} JoinPieces(s: Bytes, ch: byte)
    ensures Joined(Pieces(s, ch), ch) == Trimmed(s, ch)
  {
    hide Joined, Trimmed, First, Pieces;
    NoPiecesIff(s, ch);
    if s == [] {
      JoinNothing(ch);
    } else {
      PiecesUnfold(s, ch);
      var n := First(s, ch);
      if n < |s| {
        var t := s[n + 1..];
        JoinPieces(t, ch);
        JoinFront(s[..n], Pieces(t, ch), ch);
        NoPiecesIff(t, ch);
        TrimBehind(s[..n], ch, t);
        assert s == s[..n] + [ch] + t;
      } else {
        NothingToTrim(s, ch);
        JoinFront(s, [], ch);
        assert [s] + [] == [s];
      }
    }
  }

  lemma PiecesUnfold(s: Bytes, ch: byte)
    requires s != []
    ensures var n := First(s, ch);
      Pieces(s, ch) == if n == |s| then [s] else [s[..n]] + Pieces(s[n + 1..], ch)
  {
    hide First;
  }

  lemma JoinNothing(ch: byte)
    ensures Joined([], ch) == Trimmed([], ch) == []
  {
  }

  lemma NothingToTrim(s: Bytes, ch: byte)
    requires forall k :: 0 <= k < |s| ==> s[k] != ch
    ensures Trimmed(s, ch) == s
  {
  }

  /** No piece has a separator in it. */
  lemma {:induction false} PiecesAreClean(s: Bytes, ch: byte)
    ensures forall p :: p in Pieces(s, ch) ==> ch !in p
  {
    if s != [] && First(s, ch) < |s| {
      PiecesAreClean(s[First(s, ch) + 1..], ch);
    }
  }

  /** How often a byte occurs. */
  function Count(s: Bytes, ch: byte): nat {
    if s == [] then 0 else (if s[0] == ch then 1 else 0) + Count(s[1..], ch)
  }

  lemma {:induction false} CountAfterFirst(s: Bytes, ch: byte)
    ensures var n := First(s, ch); Count(s, ch) == if n < |s| then 1 + Count(s[n + 1..], ch) else 0
  {
    if s != [] && s[0] != ch {
      CountAfterFirst(s[1..], ch);
      assert First(s, ch) < |s| ==> s[1..][First(s, ch)..] == s[First(s, ch) + 1..];
    }
  }

  /** There are as many pieces as separators, and one more for what follows the last. */
  lemma {:induction false} PieceCount(s: Bytes, ch: byte)
    ensures |Pieces(s, ch)| == Count(s, ch) + if s != [] && s[|s| - 1] != ch then 1 else 0
  {
    if s != [] {
      hide Count;
      var n := First(s, ch);
      CountAfterFirst(s, ch);
      if n < |s| {
        PieceCount(s[n + 1..], ch);
        CountNothing(ch);
        assert n + 1 < |s| ==> s[n + 1..][|s| - n - 2] == s[|s| - 1];
      }
    }
  }

  lemma CountNothing(ch: byte)
    ensures Count([], ch) == 0
  {
  }
}
