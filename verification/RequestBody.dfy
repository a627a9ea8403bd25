/** Receiving a request: RequestMaker::Parse of src/web/request_maker.cpp. */
module RequestBody {
  import opened Bytes
  import opened RequestHead
  import RequestRoundTrip
  import Decimal

  const MULTIPART := Ascii("multipart")
  const JSON := Ascii("application/json")

  /** The text starts with the prefix. */
  predicate StartsWith(text: Bytes, prefix: Bytes) {
    |prefix| <= |text| && text[..|prefix|] == prefix
  }

  /** The declared body size; 0 without the header. */
  function Declared(headers: map<Bytes, Bytes>): nat {
    Decimal.ToSize(Decimal.Strtol(HeaderOf(headers, CONTENT_LENGTH)))
  }

  datatype Outcome = Accepted(body: Bytes) | Refused | Failed(error: Failure)

  /** An outcome and the number of receives issued. */
  datatype Run = Run(outcome: Outcome, used: nat)

  /** Receive i of a script: a piece, or nothing for an error or the end of the connection. */
  function Piece(script: seq<Bytes>, i: nat): Bytes {
    if i < |script| then script[i] else []
  }

  /** The loop that completes the body. */
  function Gather(script: seq<Bytes>, i: nat, body: Bytes, size: nat): Run
    decreases |script| - i
  {
    if |body| >= size then Run(Accepted(body), i)
    else if Piece(script, i) == [] then Run(Refused, i + 1)
    else Gather(script, i + 1, body + script[i], size)
  }

  /** The whole parse.  The multipart branch stores nothing; a head that ends past the bytes received
      gives the body a negative length. */
  function Receive(script: seq<Bytes>): Run {
    var first := Piece(script, 0);
    if first == [] then Run(Refused, 1)
    else match ParseHead(first)
      case Err(e) => Run(Failed(e), 1)
      case Ok(h) =>
        if StartsWith(HeaderOf(h.headers, CONTENT_TYPE), MULTIPART) then Run(Accepted([]), 1)
        else if h.size > |first| then Run(Failed(LengthError), 1)
        else Gather(script, 1, first[h.size..], Declared(h.headers))
  }

  /** A socket that plays a script of receives. */
  class Socket {
    const script: seq<Bytes>
    var taken: nat

    constructor (script: seq<Bytes>)
      ensures this.script == script && taken == 0
    {
      this.script := script;
      taken := 0;
    }

    method Recv() returns (piece: Bytes)
      modifies this
      ensures taken == old(taken) + 1 && piece == Piece(script, old(taken))
    {
      piece := if taken < |script| then script[taken] else [];
      taken := taken + 1;
    }
  }

  method TestPrefix(text: Bytes, prefix: Bytes) returns (r: bool)
    ensures r == StartsWith(text, prefix)
  {
    for i := 0 to |prefix|
      invariant i <= |text| && forall k :: 0 <= k < i ==> text[k] == prefix[k]
    {
      // Past the end of the text the source compares with the terminating zero; the prefixes have none.
      if i == |text| || prefix[i] != text[i] {
        return false;
      }
    }
    return true;
  }

  /** Fills a new request from a socket nothing was received from yet. */
  method Parse(socket: Socket, req: Request) returns (outcome: Outcome)
    requires socket.taken == 0
    requires req.headers == map[] && req.params == map[] && req.body == [] && !req.isJson
    modifies socket, req
    ensures Run(outcome, socket.taken) == Receive(socket.script)
    ensures outcome.Accepted? ==>
      ParseHead(Piece(socket.script, 0)).Ok? && req.Shows(ParseHead(Piece(socket.script, 0)).value)
    ensures outcome.Accepted? ==>
      req.body == outcome.body && req.bodySize == Declared(req.headers)
      && req.isJson == StartsWith(HeaderOf(req.headers, CONTENT_TYPE), JSON)
  {
    hide ParseHead, StartsWith, Declared;
    var buf := socket.Recv();
    if buf == [] {
      return Refused;
    }
    var head := ParseHttpHeader(buf, req);
    if head.Err? {
      return Failed(head.error);
    }
    var size := head.value;
    req.bodySize := SizeOf(req.headers);
    var multipart := TestPrefix(HeaderOf(req.headers, CONTENT_TYPE), MULTIPART);
    if !multipart {
      if size > |buf| {
        return Failed(LengthError);
      }
      outcome := ReadBody(socket, req, buf[size..]);
      if outcome.Refused? {
        return;
      }
    } else {
      outcome := Accepted([]);
    }
    var json := TestPrefix(HeaderOf(req.headers, CONTENT_TYPE), JSON);
    if json {
      req.isJson := true;
    }
  }

  method SizeOf(headers: map<Bytes, Bytes>) returns (n: nat)
    ensures n == Declared(headers)
  {
    n := Decimal.ToSize(Decimal.Strtol(HeaderOf(headers, CONTENT_LENGTH)));
  }

  method ReadBody(socket: Socket, req: Request, start: Bytes) returns (outcome: Outcome)
    modifies socket, req`body
    ensures Run(outcome, socket.taken) == Gather(socket.script, old(socket.taken), start, req.bodySize)
    ensures !outcome.Failed? && (outcome.Accepted? ==> req.body == outcome.body)
  {
    req.body := start;
    var realRead := |start|;
    while realRead < req.bodySize
      invariant realRead == |req.body|
      invariant Gather(socket.script, old(socket.taken), start, req.bodySize)
             == Gather(socket.script, socket.taken, req.body, req.bodySize)
      decreases |socket.script| - socket.taken
    {
      var piece := socket.Recv();
      if piece == [] {
        return Refused;
      }
      req.body := req.body + piece;
      realRead := realRead + |piece|;
    }
    return Accepted(req.body);
  }

  // Chunking.

  function Concat(pieces: seq<Bytes>): Bytes {
    if pieces == [] then [] else pieces[0] + Concat(pieces[1..])
  }

  ghost predicate AllPositive(pieces: seq<Bytes>) {
    forall i :: 0 <= i < |pieces| ==> pieces[i] != []
  }

  /** Pieces that complete the body exactly are all received, and nothing after them. */
  lemma {:induction false} GatherExact(script: seq<Bytes>, i: nat, n: nat, body: Bytes, size: nat)
    requires i <= n <= |script| && AllPositive(script[i..n]) && |body| + |Concat(script[i..n])| == size
    ensures Gather(script, i, body, size) == Run(Accepted(body + Concat(script[i..n])), n)
    decreases n - i
  {
    if i == n {
      assert body + [] == body;
    } else {
      var rest := script[i..n];
      assert rest[0] == script[i] && rest[1..] == script[i + 1..n];
      GatherExact(script, i + 1, n, body + script[i], size);
      assert (body + script[i]) + Concat(script[i + 1..n]) == body + Concat(rest);
    }
  }

  /** Pieces that fall short are all received, and then the loss of the connection refuses. */
  lemma {:induction false} GatherShort(script: seq<Bytes>, i: nat, body: Bytes, size: nat)
    requires i <= |script| && AllPositive(script[i..]) && |body| + |Concat(script[i..])| < size
    ensures Gather(script, i, body, size) == Run(Refused, |script| + 1)
    decreases |script| - i
  {
    if i < |script| {
      var rest := script[i..];
      assert rest[0] == script[i] && rest[1..] == script[i + 1..];
      GatherShort(script, i + 1, body + script[i], size);
    }
  }

  /** The stream starts with a head and is not multipart. */
  ghost predicate PlainStream(stream: Bytes, h: Head) {
    ParseHead(stream) == Ok(h) && h.size <= |stream|
    && !StartsWith(HeaderOf(h.headers, CONTENT_TYPE), MULTIPART)
  }

  lemma FirstPieceHasHead(stream: Bytes, h: Head, first: Bytes)
    requires ParseHead(stream) == Ok(h) && h.size <= |first| <= |stream| && first == stream[..|first|]
    ensures ParseHead(first) == Ok(h)
  {
    hide ParseHead;
    RequestRoundTrip.HeadIsLocal(stream, first);
  }

  /** However a stream of head and declared body is cut into positive receives, as long as the first
      one holds the head, the request is the same; and what is sent later is not received. */
  lemma ChunkingIndependent(stream: Bytes, h: Head, chunks: seq<Bytes>, later: seq<Bytes>)
    requires PlainStream(stream, h) && |stream| == h.size + Declared(h.headers)
    requires chunks != [] && AllPositive(chunks) && Concat(chunks) == stream && h.size <= |chunks[0]|
    ensures Receive(chunks + later) == Run(Accepted(stream[h.size..]), |chunks|)
    ensures ParseHead(chunks[0]) == Ok(h)
  {
    hide ParseHead, Declared, StartsWith, Gather;
    var first, script := chunks[0], chunks + later;
    var rest := Concat(chunks[1..]);
    assert stream == first + rest;
    FirstPieceHasHead(stream, h, first);
    assert script[1..|chunks|] == chunks[1..];
    GatherExact(script, 1, |chunks|, first[h.size..], Declared(h.headers));
    assert first[h.size..] + rest == stream[h.size..];
  }

  /** A stream that ends before the declared length is refused, after one receive too many. */
  lemma ShortStreamRefused(stream: Bytes, h: Head, chunks: seq<Bytes>)
    requires PlainStream(stream, h) && |stream| < h.size + Declared(h.headers)
    requires chunks != [] && AllPositive(chunks) && Concat(chunks) == stream && h.size <= |chunks[0]|
    ensures Receive(chunks) == Run(Refused, |chunks| + 1)
  {
    hide ParseHead, Declared, StartsWith, Gather;
    var first := chunks[0];
    assert stream == first + Concat(chunks[1..]);
    FirstPieceHasHead(stream, h, first);
    GatherShort(chunks, 1, first[h.size..], Declared(h.headers));
  }

  /** No receive is issued once the declared length has arrived: before the last receive the pieces
      were short of it, and all that was received after the head is the body. */
  lemma {:induction false} GatherStopsInTime(script: seq<Bytes>, i: nat, body: Bytes, size: nat)
    requires i <= |script|
    ensures var run := Gather(script, i, body, size);
      i <= run.used && (run.outcome.Accepted? ==>
        run.used <= |script| && run.outcome.body == body + Concat(script[i..run.used]) && |run.outcome.body| >= size
        && (run.used > i ==> |body| + |Concat(script[i..run.used - 1])| < size))
    decreases |script| - i
  {
    if |body| >= size {
      assert body + [] == body;
    } else if i < |script| && script[i] != [] {
      GatherStopsInTime(script, i + 1, body + script[i], size);
      var run := Gather(script, i + 1, body + script[i], size);
      if run.outcome.Accepted? {
        ConcatFront(script, i, run.used);
        assert body + script[i] + Concat(script[i + 1..run.used]) == body + Concat(script[i..run.used]);
        if run.used > i + 1 {
          ConcatFront(script, i, run.used - 1);
        } else {
          assert script[i..i] == [];
        }
      }
    }
  }

  lemma ConcatFront(script: seq<Bytes>, i: nat, n: nat)
    requires i < n <= |script|
    ensures Concat(script[i..n]) == script[i] + Concat(script[i + 1..n])
  {
    assert script[i..n][1..] == script[i + 1..n];
  }

  /** A request that can be rendered, with well-formed headers that declare the length of its body and are
      not multipart. */
  ghost predicate Declares(verb: Bytes, target: Bytes, version: Bytes, fs: seq<Field>, body: Bytes) {
    var m := RequestRoundTrip.EmplaceAll(map[], fs);
    && RequestRoundTrip.Plain(verb) && RequestRoundTrip.Plain(target) && RequestRoundTrip.Plain(version)
    && RequestRoundTrip.AllWellFormed(fs) && TargetOf(target).Ok? && |body| < 0x8000_0000_0000_0000
    && CONTENT_LENGTH in m && m[CONTENT_LENGTH] == Decimal.Printed(|body|)
    && !StartsWith(HeaderOf(m, CONTENT_TYPE), MULTIPART)
  }

  /** Positive pieces of a text, the first of which holds its head. */
  ghost predicate Cut(chunks: seq<Bytes>, head: Bytes, rest: Bytes) {
    chunks != [] && AllPositive(chunks) && Concat(chunks) == head + rest && |head| <= |chunks[0]|
  }

  lemma DeclaredStream(verb: Bytes, target: Bytes, version: Bytes, fs: seq<Field>, body: Bytes, sent: Bytes)
    returns (h: Head)
    requires Declares(verb, target, version, fs, body)
    ensures var head := RequestRoundTrip.Render(verb, target, version, fs);
      && PlainStream(head + sent, h) && h.size == |head| && h.path == TargetOf(target).value.path
      && Declared(h.headers) == |body|
  {
    hide RequestRoundTrip.Plain, RequestRoundTrip.AllWellFormed, TargetOf, ParseHead, StartsWith;
    hide RequestRoundTrip.EmplaceAll, Decimal.Printed, RequestRoundTrip.Render;
    NothingFromNoFields(fs);
    RequestRoundTrip.HeadRoundTrip(verb, target, version, fs, sent);
    Decimal.ReadPrinted(|body|);
    h := ParseHead(RequestRoundTrip.Render(verb, target, version, fs) + sent).value;
  }

  /** A rendered request that declares its body's length is received whole, however it is cut. */
  lemma RenderedRequestReceived(verb: Bytes, target: Bytes, version: Bytes, fs: seq<Field>, body: Bytes,
                                chunks: seq<Bytes>)
    requires Declares(verb, target, version, fs, body)
    requires Cut(chunks, RequestRoundTrip.Render(verb, target, version, fs), body)
    ensures Receive(chunks) == Run(Accepted(body), |chunks|)
    ensures ParseHead(chunks[0]).Ok? && ParseHead(chunks[0]).value.path == TargetOf(target).value.path
  {
    hide Declares, ParseHead, Concat, AllPositive, Receive, RequestRoundTrip.Render, Declared, TargetOf;
    var head := RequestRoundTrip.Render(verb, target, version, fs);
    var h := DeclaredStream(verb, target, version, fs, body, body);
    ChunkingIndependent(head + body, h, chunks, []);
    assert chunks + [] == chunks;
    assert (head + body)[|head|..] == body;
  }

  /** A multipart request is accepted with its first receive and an empty body, whatever it declares. */
  lemma MultipartKeepsNothing(first: Bytes, later: seq<Bytes>)
    requires first != [] && ParseHead(first).Ok?
    requires StartsWith(HeaderOf(ParseHead(first).value.headers, Ascii("Content-Type")), Ascii("multipart"))
    ensures Receive([first] + later) == Run(Accepted([]), 1)
  {
    hide ParseHead;
    assert ([first] + later)[0] == first;
  }

  /** When less than the declared body comes before the connection ends, the request is refused. */
  lemma ShortRequestRefused(verb: Bytes, target: Bytes, version: Bytes, fs: seq<Field>, body: Bytes, sent: Bytes,
                            chunks: seq<Bytes>)
    requires Declares(verb, target, version, fs, body) && |sent| < |body|
    requires Cut(chunks, RequestRoundTrip.Render(verb, target, version, fs), sent)
    ensures Receive(chunks) == Run(Refused, |chunks| + 1)
  {
    hide Declares, ParseHead, Concat, AllPositive, Receive, RequestRoundTrip.Render, Declared, TargetOf;
    var head := RequestRoundTrip.Render(verb, target, version, fs);
    var h := DeclaredStream(verb, target, version, fs, body, sent);
    ShortStreamRefused(head + sent, h, chunks);
  }

  lemma NothingFromNoFields(fs: seq<Field>)
    requires RequestRoundTrip.EmplaceAll(map[], fs) != map[]
    ensures fs != []
  {
  }
}
