/** The request head: GetNextWord, GetNextLine and ParseHttpHeader of src/include/web/request_maker.h
    and src/web/request_maker.cpp.

    The source scans without an end, so reading past the bytes received is an outcome of its own. */
module RequestHead {
  import opened Bytes
  import UrlCoding

  /** How a parse can fail: an unfinished escape, a word that starts on a blank (its length would be
      negative), or a scan beyond the bytes received. */
  datatype Failure = InvalidUrl | LengthError | Overrun

  datatype Result<+T> = Ok(value: T) | Err(error: Failure)

  const CR: byte := 13
  const LF: byte := 10
  const SPACE: byte := 32
  const COLON: byte := 58

  predicate IsBlank(c: byte) {
    c == 32 || c == 13 || c == 10 || c == 9
  }

  predicate IsBreak(c: byte) {
    c == 13 || c == 10
  }

  // Where a run of blanks, a word, or a line that starts at a position ends.

  function BlankEnd(s: Bytes, at: nat): (n: nat)
    requires at <= |s|
    ensures at <= n <= |s|
    ensures forall k :: at <= k < n ==> IsBlank(s[k])
    ensures n < |s| ==> !IsBlank(s[n])
    decreases |s| - at
  {
    if at < |s| && IsBlank(s[at]) then BlankEnd(s, at + 1) else at
  }

  function WordEnd(s: Bytes, at: nat): (n: nat)
    requires at <= |s|
    ensures at <= n <= |s|
    ensures forall k :: at <= k < n ==> !IsBlank(s[k])
    ensures n < |s| ==> IsBlank(s[n])
    decreases |s| - at
  {
    if at < |s| && !IsBlank(s[at]) then WordEnd(s, at + 1) else at
  }

  function LineEnd(s: Bytes, at: nat): (n: nat)
    requires at <= |s|
    ensures at <= n <= |s|
    ensures forall k :: at <= k < n ==> !IsBreak(s[k])
    ensures n < |s| ==> IsBreak(s[n])
    decreases |s| - at
  {
    if at < |s| && !IsBreak(s[at]) then LineEnd(s, at + 1) else at
  }

  /** A word or a line, and where the scan goes on. */
  datatype Taken = Taken(text: Bytes, next: nat)

  function NextWord(s: Bytes, at: nat): (r: Result<Taken>)
    ensures r.Ok? ==> at < |s| && r.value.text != [] && at < r.value.next < |s| && !IsBlank(s[r.value.next])
  {
    if at >= |s| then Err(Overrun)
    else if IsBlank(s[at]) then Err(if BlankEnd(s, at) == |s| then Overrun else LengthError)
    else
      var e := WordEnd(s, at);
      var n := BlankEnd(s, e);
      if n == |s| then Err(Overrun) else Ok(Taken(s[at..e], n))
  }

  function NextLine(s: Bytes, at: nat): (r: Result<Taken>)
    ensures r.Ok? ==> at < |s| && at + |r.value.text| < r.value.next <= |s| + 1
  {
    if at >= |s| then Err(Overrun)
    else
      var e := LineEnd(s, at);
      if e == |s| then Err(Overrun) else Ok(Taken(s[at..e], if s[e] == CR then e + 2 else e + 1))
  }

  method GetNextWord(buf: Bytes, at: nat) returns (r: Result<Taken>)
    ensures r == NextWord(buf, at)
  {
    if at >= |buf| {
      return Err(Overrun);
    }
    var start, ptr := at, at;
    while start < |buf| && IsBlank(buf[start])
      invariant at <= start <= |buf|
      invariant forall k :: at <= k < start ==> IsBlank(buf[k])
    {
      start := start + 1;
    }
    if start == |buf| {
      return Err(Overrun);
    }
    while ptr < |buf| && !IsBlank(buf[ptr])
      invariant at <= ptr <= |buf|
      invariant forall k :: at <= k < ptr ==> !IsBlank(buf[k])
    {
      ptr := ptr + 1;
    }
    if ptr < start {
      return Err(LengthError);
    }
    if ptr == |buf| {
      return Err(Overrun);
    }
    var str := buf[start..ptr];
    ghost var e := ptr;
    while ptr < |buf| && IsBlank(buf[ptr])
      invariant e <= ptr <= |buf|
      invariant forall k :: e <= k < ptr ==> IsBlank(buf[k])
    {
      ptr := ptr + 1;
    }
    if ptr == |buf| {
      return Err(Overrun);
    }
    return Ok(Taken(str, ptr));
  }

  method GetNextLine(buf: Bytes, at: nat) returns (r: Result<Taken>)
    ensures r == NextLine(buf, at)
  {
    if at >= |buf| {
      return Err(Overrun);
    }
    var ptr := at;
    while ptr < |buf| && buf[ptr] != CR && buf[ptr] != LF
      invariant at <= ptr <= |buf|
      invariant forall k :: at <= k < ptr ==> !IsBreak(buf[k])
    {
      ptr := ptr + 1;
    }
    if ptr == |buf| {
      return Err(Overrun);
    }
    var str := buf[at..ptr];
    if buf[ptr] == CR {
      ptr := ptr + 1;
    }
    return Ok(Taken(str, ptr + 1));
  }

  // Header lines.

  datatype Field = Field(key: Bytes, value: Bytes)

  /** A header line is scanned as a C string of its own, ended by a line feed and a zero. */
  function FieldOf(line: Bytes): Result<Field> {
    var text := line + [LF, 0];
    match NextWord(text, 0)
    case Err(e) => Err(e)
    case Ok(key) =>
      match NextLine(text, key.next)
      case Err(e) => Err(e)
      case Ok(val) => Ok(Field(key.text[..|key.text| - 1], val.text))
  }

  /** emplace: the first value of a key stays. */
  function Emplace(m: map<Bytes, Bytes>, f: Field): map<Bytes, Bytes> {
    if f.key in m then m else m[f.key := f.value]
  }

  const CONTENT_LENGTH := Ascii("Content-Length")
  const CONTENT_TYPE := Ascii("Content-Type")

  /** Request::header: a header that is not there is empty. */
  function HeaderOf(headers: map<Bytes, Bytes>, name: Bytes): Bytes {
    if name in headers then headers[name] else []
  }

  datatype Headers = Headers(fields: map<Bytes, Bytes>, next: nat)

  /** The header lines from a position up to an empty line. */
  function HeadersFrom(s: Bytes, at: nat, m: map<Bytes, Bytes>): (r: Result<Headers>)
    ensures r.Ok? ==> at < r.value.next <= |s| + 1
    decreases |s| + 1 - at
  {
    match NextLine(s, at)
    case Err(e) => Err(e)
    case Ok(line) =>
      if line.text == [] then Ok(Headers(m, line.next))
      else match FieldOf(line.text)
        case Err(e) => Err(e)
        case Ok(f) => HeadersFrom(s, line.next, Emplace(m, f))
  }

  // The request target.

  const QUESTION: byte := 63
  const AMPERSAND: byte := 38
  const EQUALS: byte := 61

  /** One query parameter.  The value is cut with the length of the decoded key, so it starts at the
      equals sign when the key has no escapes. */
  function ParamOf(p: Bytes): Result<Field> {
    var n := First(p, EQUALS);
    if n == |p| then Err(Overrun)
    else match UrlCoding.UrlDecoded(p[..n])
      case None => Err(InvalidUrl)
      case Some(key) =>
        match UrlCoding.UrlDecoded(p[|key|..])
        case None => Err(InvalidUrl)
        case Some(val) => Ok(Field(key, val))
  }

  function Params(ps: seq<Bytes>, m: map<Bytes, Bytes>): Result<map<Bytes, Bytes>> {
    if ps == [] then Ok(m)
    else match ParamOf(ps[0])
      case Err(e) => Err(e)
      case Ok(f) => Params(ps[1..], Emplace(m, f))
  }

  datatype Target = Target(path: Bytes, params: map<Bytes, Bytes>)

  function TargetOf(text: Bytes): Result<Target>
    requires text != []
  {
    var pieces := UrlCoding.Pieces(text, QUESTION);
    match UrlCoding.UrlDecoded(pieces[0])
    case None => Err(InvalidUrl)
    case Some(path) =>
      if |pieces| != 2 then Ok(Target(path, map[]))
      else match Params(UrlCoding.Pieces(pieces[1], AMPERSAND), map[])
        case Err(e) => Err(e)
        case Ok(params) => Ok(Target(path, params))
  }

  /** The path is the percent-decoded part of the target before the first question mark. */
  lemma PathIsDecodedFront(text: Bytes)
    requires text != []
    ensures var front := text[..First(text, QUESTION)];
      (TargetOf(text).Ok? ==> UrlCoding.UrlDecoded(front) == Some(TargetOf(text).value.path))
      && (UrlCoding.UrlDecoded(front) == None ==> TargetOf(text) == Err(InvalidUrl))
  {
    hide UrlCoding.UrlDecoded, Params;
    assert text[..|text|] == text;
  }

  // The whole head.

  datatype Head = Head(method_: Bytes, path: Bytes, version: Bytes, headers: map<Bytes, Bytes>,
                       params: map<Bytes, Bytes>, size: nat)

  function ParseHead(s: Bytes): Result<Head> {
    match NextWord(s, 0)
    case Err(e) => Err(e)
    case Ok(w1) =>
      match NextWord(s, w1.next)
      case Err(e) => Err(e)
      case Ok(w2) =>
        match NextWord(s, w2.next)
        case Err(e) => Err(e)
        case Ok(w3) =>
          match HeadersFrom(s, w3.next, map[])
          case Err(e) => Err(e)
          case Ok(hs) =>
            match TargetOf(w2.text)
            case Err(e) => Err(e)
            case Ok(t) => Ok(Head(w1.text, t.path, w3.text, hs.fields, t.params, hs.next))
  }

  /** Request of src/include/web/request.h, as far as the parser fills it. */
  class Request {
    var method_: Bytes
    var path: Bytes
    var version: Bytes
    var headers: map<Bytes, Bytes>
    var params: map<Bytes, Bytes>
    var body: Bytes
    var bodySize: nat
    var isJson: bool

    constructor ()
      ensures method_ == [] && path == [] && version == [] && headers == map[] && params == map[]
      ensures body == [] && bodySize == 0 && !isJson
    {
      method_, path, version, headers, params := [], [], [], map[], map[];
      body, bodySize, isJson := [], 0, false;
    }

    ghost predicate Shows(h: Head)
      reads this
    {
      method_ == h.method_ && path == h.path && version == h.version && headers == h.headers && params == h.params
    }
  }

  /** Fills a new request from the bytes received; gives the offset of the first body byte. */
  method ParseHttpHeader(buf: Bytes, req: Request) returns (r: Result<nat>)
    requires req.headers == map[] && req.params == map[]
    modifies req`method_, req`path, req`version, req`headers, req`params
    ensures match ParseHead(buf)
      case Err(e) => r == Err(e)
      case Ok(h) => r == Ok(h.size) && req.Shows(h)
  {
    var w := GetNextWord(buf, 0);
    if w.Err? { return Err(w.error); }
    req.method_ := w.value.text;
    w := GetNextWord(buf, w.value.next);
    if w.Err? { return Err(w.error); }
    req.path := w.value.text;
    w := GetNextWord(buf, w.value.next);
    if w.Err? { return Err(w.error); }
    req.version := w.value.text;
    var n := ParseHeaderLines(buf, w.value.next, req);
    if n.Err? { return Err(n.error); }
    var t := ParseTarget(req.path, req);
    if t.Err? { return Err(t.error); }
    return n;
  }

  method ParseHeaderLines(buf: Bytes, at: nat, req: Request) returns (r: Result<nat>)
    modifies req`headers
    ensures match HeadersFrom(buf, at, old(req.headers))
      case Err(e) => r == Err(e)
      case Ok(hs) => r == Ok(hs.next) && req.headers == hs.fields
  {
    hide NextWord, NextLine, FieldOf;
    ghost var all := HeadersFrom(buf, at, req.headers);
    var line := GetNextLine(buf, at);
    if line.Err? { return Err(line.error); }
    ghost var from := at;
    while line.value.text != []
      invariant line.Ok? && line == NextLine(buf, from)
      invariant all == HeadersFrom(buf, from, req.headers)
      decreases |buf| + 1 - from
    {
      var f := ParseField(line.value.text);
      if f.Err? { return Err(f.error); }
      req.headers := Emplace(req.headers, f.value);
      NextIsLater(buf, from);
      from := line.value.next;
      line := GetNextLine(buf, line.value.next);
      if line.Err? { return Err(line.error); }
    }
    return Ok(line.value.next);
  }

  lemma NextIsLater(s: Bytes, at: nat)
    requires NextLine(s, at).Ok?
    ensures at < NextLine(s, at).value.next <= |s| + 1
  {
  }

  method ParseField(line: Bytes) returns (r: Result<Field>)
    ensures r == FieldOf(line)
  {
    var headers := line + [LF];
    var text := headers + [0];
    assert text == line + [LF, 0];
    var key := GetNextWord(text, 0);
    if key.Err? { return Err(key.error); }
    var val := GetNextLine(text, key.value.next);
    if val.Err? { return Err(val.error); }
    return Ok(Field(key.value.text[..|key.value.text| - 1], val.value.text));
  }

  method ParseTarget(text: Bytes, req: Request) returns (r: Result<()>)
    requires text != [] && req.params == map[]
    modifies req`path, req`params
    ensures match TargetOf(text)
      case Err(e) => r == Err(e)
      case Ok(t) => r == Ok(()) && req.path == t.path && req.params == t.params
  {
    hide UrlCoding.UrlDecoded, ParamOf;
    var pieces := UrlCoding.Split(text, QUESTION);
    var path := UrlCoding.UrlDecode(pieces[0]);
    if path.None? { return Err(InvalidUrl); }
    req.path := path.value;
    if |pieces| == 2 {
      pieces := UrlCoding.Split(pieces[1], AMPERSAND);
      for i := 0 to |pieces|
        invariant req.path == path.value
        invariant Params(pieces, map[]) == Params(pieces[i..], req.params)
      {
        assert pieces[i..][1..] == pieces[i + 1..];
        var f := ParseParam(pieces[i]);
        if f.Err? { return Err(f.error); }
        req.params := Emplace(req.params, f.value);
      }
    }
    return Ok(());
  }

  method ParseParam(p: Bytes) returns (r: Result<Field>)
    ensures r == ParamOf(p)
  {
    hide UrlCoding.UrlDecoded;
    var index := 0;
    while index < |p| && p[index] != EQUALS
      invariant index <= |p| && forall k :: 0 <= k < index ==> p[k] != EQUALS
    {
      index := index + 1;
    }
    if index == |p| { return Err(Overrun); }
    var key := UrlCoding.UrlDecode(p[..index]);
    if key.None? { return Err(InvalidUrl); }
    var val := UrlCoding.UrlDecode(p[|key.value|..]);
    if val.None? { return Err(InvalidUrl); }
    return Ok(Field(key.value, val.value));
  }
}
