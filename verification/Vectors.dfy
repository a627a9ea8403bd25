/** The alphabets, separators and names of the codecs as literal text, and examples worked out on bytes. */
module Vectors {
  import opened Bytes
  import Base64
  import UrlCoding
  import Decimal
  import opened RequestHead
  import RequestRoundTrip
  import RequestBody

  // Base64: the alphabet of section 4 of RFC 4648.

  function Letter(i: nat): char
    requires i < 64
  {
    if i < 16 then "ABCDEFGHIJKLMNOP"[i]
    else if i < 32 then "QRSTUVWXYZabcdef"[i - 16]
    else if i < 48 then "ghijklmnopqrstuv"[i - 32]
    else "wxyz0123456789+/"[i - 48]
  }

  lemma FirstLetters(i: nat)
    requires i < 32
    ensures Base64.Symbol(i) == Letter(i) as int
  {
    var a, b := "ABCDEFGHIJKLMNOP", "QRSTUVWXYZabcdef";
    assert forall k :: 0 <= k < 16 ==> a[k] as int == 65 + k;
    assert forall k :: 0 <= k < 10 ==> b[k] as int == 81 + k;
    assert forall k :: 10 <= k < 16 ==> b[k] as int == 87 + k;
  }

  lemma LastLetters(i: nat)
    requires 32 <= i < 64
    ensures Base64.Symbol(i) == Letter(i) as int
  {
    var c, d := "ghijklmnopqrstuv", "wxyz0123456789+/";
    assert forall k :: 0 <= k < 16 ==> c[k] as int == 103 + k;
    assert forall k :: 0 <= k < 4 ==> d[k] as int == 119 + k;
    assert forall k :: 4 <= k < 14 ==> d[k] as int == 44 + k;
    assert d[14] == '+' && d[15] == '/';
  }

  /** The symbols are the letters of the standard, and the decoder gives each its place. */
  lemma AlphabetIsStandard(i: nat)
    requires i < 64
    ensures Base64.Symbol(i) == Letter(i) as int && Base64.Value(Letter(i) as int) == i
  {
    if i < 32 {
      FirstLetters(i);
    } else {
      LastLetters(i);
    }
    Base64.SymbolsInvert(i);
  }

  /** Other bytes have no value but the padding, which counts as 0. */
  lemma ValueOfOthers(c: byte)
    ensures Base64.Value(c) == 255 <==> c != '=' as int && forall k :: 0 <= k < 64 ==> c != Base64.Symbol(k)
    ensures Base64.Value('=' as int) == 0
  {
    if Base64.IsSymbol(c) {
      assert Base64.Symbol(Base64.Value(c)) == c;
    }
  }

  // Percent coding.

  /** The bytes that are escaped: those of the table, and those of 128 and above. */
  lemma ReservedIsTable(c: byte)
    ensures UrlCoding.Escaped(c) <==> c >= 128 || c in Ascii("\"%<>[\\]^_`{|}")
  {
    assert Ascii("\"%<>[\\]^_`{|}") == [34, 37, 60, 62, 91, 92, 93, 94, 95, 96, 123, 124, 125];
  }

  /** The digits, and their indices. */
  lemma DigitsAreTable(n: nat)
    requires n < 16
    ensures HexDigit(n) == "0123456789ABCDEF"[n] as int && UrlCoding.HexIndex(HexDigit(n)) == n
  {
    var t := "0123456789ABCDEF";
    assert forall k :: 0 <= k < 10 ==> t[k] as int == 48 + k;
    assert forall k :: 10 <= k < 16 ==> t[k] as int == 55 + k;
  }

  lemma PercentVectors()
    ensures UrlCoding.UrlEncoded(Ascii("a_b")) == Ascii("a%5Fb")
    ensures UrlCoding.UrlDecoded(Ascii("a%20b")) == Some(Ascii("a b"))
  {
    EncodedUnderscore();
    DecodedBlank();
  }

  lemma EncodedUnderscore()
    ensures UrlCoding.UrlEncoded(Ascii("a_b")) == Ascii("a%5Fb")
  {
    assert Ascii("a_b") == [97, 95, 98] && Ascii("a%5Fb") == [97, 37, 53, 70, 98];
    assert UrlCoding.UrlEncoded([98]) == [98];
    assert UrlCoding.UrlEncoded([95, 98]) == [37, 53, 70, 98];
  }

  lemma DecodedBlank()
    ensures UrlCoding.UrlDecoded(Ascii("a%20b")) == Some(Ascii("a b"))
  {
    var all, t: Bytes := Ascii("a%20b"), [37, 50, 48, 98];
    var b: Bytes := [98];
    RequestRoundTrip.PlainDecodes(b);
    assert t[3..] == b && UrlCoding.HexPair(t[1], t[2]) == 32;
    assert [32] + b == [32, 98];
    assert UrlCoding.UrlDecoded(t) == UrlCoding.Front(32, UrlCoding.UrlDecoded(t[3..])) == Some([32, 98]);
    assert all == [97] + t && all[1..] == t;
    assert UrlCoding.UrlDecoded(all) == UrlCoding.Front(97, UrlCoding.UrlDecoded(all[1..]));
    assert Ascii("a b") == [97, 32, 98] == [97] + [32, 98];
  }

  // Heads.

  /** A request with one header, byte for byte. */
  lemma RenderedBytes()
    ensures RequestRoundTrip.Render(Ascii("G"), Ascii("/"), Ascii("H"), [Field(Ascii("k"), Ascii("v"))])
         == Ascii("G / H\r\n") + Ascii("k: v\r\n") + Ascii("\r\n")
  {
    var f := Field(Ascii("k"), Ascii("v"));
    assert Ascii("G") == [71] && Ascii("/") == [47] && Ascii("H") == [72] && Ascii("k") == [107] && Ascii("v") == [118];
    assert Ascii("G / H\r\n") == [71, 32, 47, 32, 72, 13, 10];
    assert Ascii("k: v\r\n") == [107, 58, 32, 118, 13, 10] && Ascii("\r\n") == [13, 10];
    assert [f][1..] == [];
    assert RequestRoundTrip.RenderFields([f]) == [107, 58, 32, 118] + [13, 10] + [13, 10];
  }

  /** The blanks are space, carriage return, line feed and tab; lines end with the two in the middle. */
  lemma BlanksAreThese(c: byte)
    ensures IsBlank(c) <==> c in Ascii(" \r\n\t")
    ensures IsBreak(c) <==> c in Ascii("\r\n")
  {
    assert Ascii(" \r\n\t") == [32, 13, 10, 9] && Ascii("\r\n") == [13, 10];
  }

  /** What a request declares in these words: a body of five bytes, and JSON. */
  lemma DeclaredInWords(headers: map<Bytes, Bytes>)
    requires Ascii("Content-Length") in headers && headers[Ascii("Content-Length")] == Ascii("5")
    requires Ascii("Content-Type") in headers && headers[Ascii("Content-Type")] == Ascii("application/json")
    ensures RequestBody.Declared(headers) == 5
    ensures RequestBody.StartsWith(HeaderOf(headers, CONTENT_TYPE), RequestBody.JSON)
    ensures !RequestBody.StartsWith(HeaderOf(headers, CONTENT_TYPE), RequestBody.MULTIPART)
  {
    var five := Ascii("5");
    assert five == [53] && five[1..] == [];
    assert Decimal.DigitsFrom([], 5) == 5;
    assert Ascii("application/json")[0] == 'a' as int && Ascii("multipart")[0] == 'm' as int;
    var t := Ascii("application/json");
    assert t[..|t|] == t;
  }

  /** Without these headers nothing is declared. */
  lemma NothingDeclared(headers: map<Bytes, Bytes>)
    requires Ascii("Content-Length") !in headers && Ascii("Content-Type") !in headers
    ensures RequestBody.Declared(headers) == 0
    ensures !RequestBody.StartsWith(HeaderOf(headers, CONTENT_TYPE), RequestBody.JSON)
    ensures !RequestBody.StartsWith(HeaderOf(headers, CONTENT_TYPE), RequestBody.MULTIPART)
  {
    Decimal.StrtolOfOther([]);
  }

  /** A target with a path and one parameter, and what becomes of the parameters when there is a second
      question mark. */
  lemma TargetVectors()
    ensures TargetOf(Ascii("/a?k=v")) == Ok(Target(Ascii("/a"), map[Ascii("k") := Ascii("=v")]))
    ensures TargetOf(Ascii("/a?b?c")) == Ok(Target(Ascii("/a"), map[]))
    ensures TargetOf(Ascii("/a")) == Ok(Target(Ascii("/a"), map[]))
  {
    SplitTargets();
    var p := Ascii("/a");
    assert p == [47, 97];
    RequestRoundTrip.PlainDecodes(p);
    OneParameter();
  }

  lemma SplitTargets()
    ensures UrlCoding.Pieces(Ascii("/a?k=v"), QUESTION) == [Ascii("/a"), Ascii("k=v")]
    ensures UrlCoding.Pieces(Ascii("/a?b?c"), QUESTION) == [Ascii("/a"), Ascii("b"), Ascii("c")]
    ensures UrlCoding.Pieces(Ascii("/a"), QUESTION) == [Ascii("/a")]
    ensures UrlCoding.Pieces(Ascii("k=v"), AMPERSAND) == [Ascii("k=v")]
  {
    hide UrlCoding.Pieces;
    var a, k, b, c := Ascii("/a"), Ascii("k=v"), Ascii("b"), Ascii("c");
    assert a == [47, 97] && k == [107, 61, 118] && b == [98] && c == [99];
    assert Ascii("/a?k=v") == a + [QUESTION] + k;
    assert Ascii("/a?b?c") == a + [QUESTION] + (b + [QUESTION] + c);
    UrlCoding.PiecesOfParts(a, QUESTION, k);
    UrlCoding.PiecesOfParts(k, QUESTION, []);
    UrlCoding.PiecesOfParts(k, AMPERSAND, []);
    UrlCoding.PiecesOfParts(a, QUESTION, b + [QUESTION] + c);
    UrlCoding.PiecesOfParts(b, QUESTION, c);
    UrlCoding.PiecesOfParts(c, QUESTION, []);
  }

  lemma OneParameter()
    ensures Params([Ascii("k=v")], map[]) == Ok(map[Ascii("k") := Ascii("=v")])
  {
    var key, val := Ascii("k"), Ascii("v");
    assert key == [107] && val == [118] && key + [EQUALS] + val == Ascii("k=v") && [EQUALS] + val == Ascii("=v");
    RequestRoundTrip.ValueKeepsEquals(key, val);
    assert [Ascii("k=v")][1..] == [];
    assert Params([], Emplace(map[], Field(key, [EQUALS] + val))) == Ok(Emplace(map[], Field(key, [EQUALS] + val)));
  }
}
