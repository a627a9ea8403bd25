/** Writing a response: src/util/data_reader.cpp, src/web/response.cpp and src/include/web/response.h. */
module Response {
  import opened Bytes
  import opened RequestHead
  import RequestRoundTrip
  import Decimal

  const SIZE_RANGE: nat := 0x1_0000_0000_0000_0000

  /** The function a reader writes to: it takes any part of what it is offered, and nothing only so
      many times. */
  class Sink {
    var received: Bytes
    var idle: nat

    constructor (idle: nat)
      ensures received == [] && this.idle == idle
    {
      received, this.idle := [], idle;
    }

    method Take(data: Bytes) returns (n: nat)
      requires data != []
      modifies this
      ensures n <= |data| && received == old(received) + data[..n]
      ensures idle <= old(idle) && (n == 0 ==> idle < old(idle))
    {
      n :| n <= |data| && (n == 0 ==> idle > 0);
      if n == 0 {
        idle := idle - 1;
      }
      received := received + data[..n];
    }
  }

  /** A file stream.  A read gives any part of what remains, up to the size asked for, and nothing only
      so many times while something remains; one that could not be opened never gives anything. */
  class FileStream {
    const isOpen: bool
    const content: Bytes
    var pos: nat
    var idle: nat

    constructor (isOpen: bool, content: Bytes, idle: nat)
      requires isOpen || content == []
      ensures this.isOpen == isOpen && this.content == content && pos == 0 && this.idle == idle
    {
      this.isOpen, this.content := isOpen, content;
      pos, this.idle := 0, idle;
    }

    method ReadSome(max: nat) returns (piece: Bytes)
      requires max > 0 && pos <= |content|
      modifies this
      ensures old(pos) <= pos <= |content| && pos - old(pos) <= max && piece == content[old(pos)..pos]
      ensures idle <= old(idle) && (old(pos) == pos < |content| ==> idle < old(idle))
    {
      var n :| 0 <= n <= max && n <= |content| - pos && (n == 0 && pos < |content| ==> idle > 0);
      if n == 0 && pos < |content| {
        idle := idle - 1;
      }
      piece := content[pos..pos + n];
      pos := pos + n;
    }

    /** tellg at the end, as a size_t: -1 for a stream that is not open. */
    function EndPosition(): nat {
      if isOpen then |content| else SIZE_RANGE - 1
    }

    method SeekBegin()
      modifies this`pos
      ensures pos == 0
    {
      pos := 0;
    }
  }

  const READ_SIZE: nat := 4096

  class DataReader {
    var input: FileStream?
    var beginData: Bytes
    var streamSize: nat

    /** The size is that of the file, which is open and at its start; without a file it is 0. */
    ghost predicate Valid()
      reads this, input
    {
      if input == null then streamSize == 0
      else input.pos == 0 && (streamSize == 0 || (input.isOpen && streamSize == |input.content|))
    }

    ghost function FileData(): Bytes
      reads this, input
    {
      if input == null || streamSize == 0 then [] else input.content
    }

    constructor ()
      ensures Valid() && input == null && beginData == [] && FileData() == []
    {
      input, beginData, streamSize := null, [], 0;
    }

    /** A file that could not be opened is taken for one of 2^64 - 1 bytes. */
    method SetFileStream(stream: FileStream)
      modifies this, stream
      ensures input == stream && beginData == old(beginData)
      ensures stream.isOpen ==> Valid() && FileData() == stream.content && streamSize == |stream.content|
      ensures !stream.isOpen ==> !Valid() && streamSize == SIZE_RANGE - 1
    {
      input := stream;
      streamSize := stream.EndPosition();
      stream.SeekBegin();
    }

    method SetBeginData(data: Bytes)
      modifies this`beginData
      ensures beginData == data
    {
      beginData := data;
    }

    /** Delivers the begin data and then the file, each byte once and in order, whatever parts the
        sink takes and the file gives; and leaves the reader as it was. */
    method BufferRead(sink: Sink)
      requires Valid()
      modifies sink, input
      ensures sink.received == old(sink.received) + beginData + FileData()
      ensures Valid()
    {
      if beginData != [] {
        Deliver(sink, beginData);
      }
      ghost var before := sink.received;
      var realRead := 0;
      while realRead < streamSize
        invariant input != null ==> realRead <= |input.content| && input.pos == realRead
        invariant realRead <= streamSize
        invariant realRead > 0 ==> input != null
        invariant sink.received == before + FileData()[..realRead]
        decreases streamSize - realRead, if input == null then 0 else input.idle
      {
        var piece := input.ReadSome(READ_SIZE);
        Deliver(sink, piece);
        realRead := realRead + |piece|;
      }
      assert FileData()[..realRead] == FileData();
      if input != null {
        input.SeekBegin();
      }
    }

    /** The same loop over a file that could not be opened, up to a number of rounds: whatever the
        number, it has nothing to send and goes on. */
    method SpinUnopened(rounds: nat) returns (realRead: nat)
      requires input != null && !input.isOpen && input.content == [] && input.pos == 0 && streamSize == SIZE_RANGE - 1
      modifies input
      ensures realRead == 0 < streamSize
    {
      realRead := 0;
      for i := 0 to rounds
        invariant realRead == 0 && input.pos == 0
      {
        var piece := input.ReadSome(READ_SIZE);
        realRead := realRead + |piece|;
      }
    }

    /** One of the two partial-send loops. */
    method Deliver(sink: Sink, data: Bytes)
      modifies sink
      ensures sink.received == old(sink.received) + data
    {
      var sent := 0;
      while sent < |data|
        invariant sent <= |data|
        invariant sink.received == old(sink.received) + data[..sent]
        decreases |data| - sent, sink.idle
      {
        var n := sink.Take(data[sent..]);
        assert data[..sent] + data[sent..][..n] == data[..sent + n];
        sent := sent + n;
      }
      assert data[..sent] == data;
    }
  }

  /** Reading twice delivers the same bytes twice. */
  method ReadTwice(reader: DataReader, first: Sink, second: Sink)
    requires reader.Valid() && first != second && first.received == [] && second.received == []
    modifies first, second, reader.input
    ensures first.received == second.received == reader.beginData + reader.FileData()
  {
    reader.BufferRead(first);
    reader.BufferRead(second);
  }

  // Headers.

  /** The first header of that name replaced, or a new one at the end. */
  function WithHeader(hs: seq<Field>, k: Bytes, v: Bytes): seq<Field> {
    if hs == [] then [Field(k, v)]
    else if hs[0].key == k then [Field(k, v)] + hs[1..]
    else [hs[0]] + WithHeader(hs[1..], k, v)
  }

  function Keys(hs: seq<Field>): set<Bytes> {
    set h | h in hs :: h.key
  }

  ghost predicate UniqueKeys(hs: seq<Field>) {
    forall i, j :: 0 <= i < j < |hs| ==> hs[i].key != hs[j].key
  }

  /** The value a reader that keeps first occurrences sees. */
  function Seen(hs: seq<Field>, k: Bytes): Option<Bytes> {
    if hs == [] then None else if hs[0].key == k then Some(hs[0].value) else Seen(hs[1..], k)
  }

  /** After SetHeader the name has the new value, and other names are as before. */
  lemma {:induction false} SetHeaderSeen(hs: seq<Field>, k: Bytes, v: Bytes, name: Bytes)
    ensures Seen(WithHeader(hs, k, v), name) == if name == k then Some(v) else Seen(hs, name)
  {
    if hs != [] {
      var t := WithHeader(hs, k, v);
      if hs[0].key == k {
        assert t[1..] == hs[1..];
      } else {
        assert t[1..] == WithHeader(hs[1..], k, v);
        SetHeaderSeen(hs[1..], k, v, name);
      }
    } else {
      assert [Field(k, v)][1..] == [];
    }
  }

  lemma {:induction false} SeenIffKey(hs: seq<Field>, k: Bytes)
    ensures Seen(hs, k).Some? <==> k in Keys(hs)
  {
    if hs != [] {
      SeenIffKey(hs[1..], k);
      assert hs == [hs[0]] + hs[1..];
    }
  }

  lemma {:induction false} SetHeaderShape(hs: seq<Field>, k: Bytes, v: Bytes)
    ensures var t := WithHeader(hs, k, v);
      && |t| == |hs| + (if Seen(hs, k).Some? then 0 else 1)
      && (forall i :: 0 <= i < |hs| ==> t[i].key == hs[i].key)
      && (Seen(hs, k).None? ==> t[|hs|] == Field(k, v))
  {
    if hs != [] && hs[0].key != k {
      SetHeaderShape(hs[1..], k, v);
    }
  }

  /** Names stay unique and in order, and a new name comes last. */
  lemma SetHeaderKeepsUnique(hs: seq<Field>, k: Bytes, v: Bytes)
    requires UniqueKeys(hs)
    ensures UniqueKeys(WithHeader(hs, k, v))
    ensures |WithHeader(hs, k, v)| == |hs| + if k in Keys(hs) then 0 else 1
    ensures forall i :: 0 <= i < |hs| ==> WithHeader(hs, k, v)[i].key == hs[i].key
    ensures k !in Keys(hs) ==> WithHeader(hs, k, v)[|hs|] == Field(k, v)
  {
    hide WithHeader, Seen;
    SeenIffKey(hs, k);
    SetHeaderShape(hs, k, v);
  }

  // The head.

  function Line(f: Field): Bytes {
    RequestRoundTrip.FieldLine(f) + [CR, LF]
  }

  function Lines(hs: seq<Field>): Bytes {
    if hs == [] then [] else Line(hs[0]) + Lines(hs[1..])
  }

  const PROTOCOL := Ascii("HTTP/1.1 ")

  /** A stream prints a negative int with a minus sign. */
  function PrintedInt(n: int): Bytes {
    if n < 0 then [45] + Decimal.Printed(-n) else Decimal.Printed(n)
  }

  function StatusLine(code: int, reason: Bytes): Bytes {
    PROTOCOL + PrintedInt(code) + [SPACE] + reason
  }

  /** The headers as they are printed: Content-Length comes last. */
  function AllHeaders(hs: seq<Field>, size: nat): seq<Field> {
    hs + [Field(CONTENT_LENGTH, Decimal.Printed(size))]
  }

  function HeadText(code: int, reason: Bytes, hs: seq<Field>, size: nat): Bytes {
    StatusLine(code, reason) + [CR, LF] + Lines(AllHeaders(hs, size)) + [CR, LF]
  }

  class Response {
    var code: int
    var reader: DataReader
    var bodyData: Bytes
    var headers: seq<Field>
    /** The reason table, constant data of the source. */
    const reasons: map<int, Bytes>

    constructor (reasons: map<int, Bytes>)
      ensures code == 200 && bodyData == [] && headers == [] && this.reasons == reasons
      ensures fresh(reader) && reader.Valid() && reader.input == null
    {
      code, bodyData, headers := 200, [], [];
      this.reasons := reasons;
      reader := new DataReader();
    }

    function Reason(): Bytes
      reads this
    {
      if code in reasons then reasons[code] else [SPACE]
    }

    method SetHeader(k: Bytes, v: Bytes)
      modifies this`headers
      ensures headers == WithHeader(old(headers), k, v)
    {
      hide WithHeader;
      for i := 0 to |headers|
        invariant headers == old(headers)
        invariant WithHeader(headers, k, v) == headers[..i] + WithHeader(headers[i..], k, v)
      {
        SkipHeader(headers, i, k, v);
        if headers[i].key == k {
          headers := headers[i := Field(k, v)];
          return;
        }
      }
      SetAtEnd(headers[|headers|..], k, v);
      assert headers[..|headers|] == headers;
      headers := headers + [Field(k, v)];
    }

    method MakeHttpHead(size: nat) returns (text: Bytes)
      ensures text == HeadText(code, Reason(), headers, size)
    {
      hide Lines, Line, StatusLine;
      text := StatusLine(code, Reason()) + [CR, LF];
      ghost var start := text;
      LinesOfNothing();
      for i := 0 to |headers|
        invariant text == start + Lines(headers[..i])
      {
        assert headers[..i + 1] == headers[..i] + [headers[i]];
        LinesAppend(headers[..i], headers[i]);
        text := text + Line(headers[i]);
      }
      assert headers[..|headers|] == headers;
      LinesAppend(headers, Field(CONTENT_LENGTH, Decimal.Printed(size)));
      text := text + Line(Field(CONTENT_LENGTH, Decimal.Printed(size))) + [CR, LF];
    }

    /** The reader delivers a head that announces exactly the bytes that follow it, as long as their
        number fits in a size_t. */
    method GetDataReader() returns (r: DataReader)
      modifies reader`beginData
      ensures r == reader && r.FileData() == old(reader.FileData()) && r.streamSize == old(reader.streamSize)
      ensures r.beginData == HeadText(code, Reason(), headers, (|bodyData| + r.streamSize) % SIZE_RANGE) + bodyData
      ensures old(reader.Valid()) ==> r.Valid()
      ensures r.Valid() && |bodyData + r.FileData()| < SIZE_RANGE ==>
        r.beginData + r.FileData() == Message(code, Reason(), headers, bodyData + r.FileData())
      // With a file that could not be opened the head announces one byte less than the body has.
      ensures r.streamSize == SIZE_RANGE - 1 && 0 < |bodyData| < SIZE_RANGE ==>
        r.beginData == HeadText(code, Reason(), headers, |bodyData| - 1) + bodyData
    {
      hide HeadText;
      var head := MakeHttpHead((|bodyData| + reader.streamSize) % SIZE_RANGE);
      reader.SetBeginData(head + bodyData);
      r := reader;
    }
  }

  /** A framed message: the head for a body, and the body. */
  function Message(code: int, reason: Bytes, hs: seq<Field>, body: Bytes): Bytes {
    HeadText(code, reason, hs, |body|) + body
  }

  lemma SkipHeader(hs: seq<Field>, i: nat, k: Bytes, v: Bytes)
    requires i < |hs|
    ensures hs[..i] + WithHeader(hs[i..], k, v)
         == if hs[i].key == k then hs[i := Field(k, v)] else hs[..i + 1] + WithHeader(hs[i + 1..], k, v)
  {
    assert hs[i..][1..] == hs[i + 1..];
  }

  lemma SetAtEnd(hs: seq<Field>, k: Bytes, v: Bytes)
    requires hs == []
    ensures WithHeader(hs, k, v) == [Field(k, v)]
  {
  }

  lemma LinesOfNothing()
    ensures Lines([]) == []
  {
  }

  lemma {:induction false} LinesAppend(hs: seq<Field>, f: Field)
    ensures Lines(hs + [f]) == Lines(hs) + Line(f)
  {
    if hs == [] {
      assert (hs + [f])[1..] == [];
    } else {
      assert (hs + [f])[1..] == hs[1..] + [f];
      LinesAppend(hs[1..], f);
    }
  }

  // What a client reads.

  ghost predicate BreakFreeFields(hs: seq<Field>) {
    forall i :: 0 <= i < |hs| ==> RequestRoundTrip.BreakFree(hs[i].key) && RequestRoundTrip.BreakFree(hs[i].value)
  }

  /** Where the first empty line ends. */
  function BlankLineEnd(s: Bytes, at: nat): Option<nat>
    decreases |s| + 1 - at
  {
    match NextLine(s, at)
    case Err(_) => None
    case Ok(line) => if line.text == [] then Some(line.next) else BlankLineEnd(s, line.next)
  }

  /** A line that stands at a position, with its line end. */
  lemma TakeLine(s: Bytes, at: nat, t: Bytes)
    requires RequestRoundTrip.BreakFree(t) && RequestRoundTrip.Stands(s, at, t + [CR, LF])
    ensures NextLine(s, at) == Ok(Taken(t, at + |t| + 2))
  {
    RequestRoundTrip.StandsParts(s, at, t, [CR, LF]);
    assert s[at + |t|] == s[at + |t|..at + |t| + 2][0] == CR;
    RequestRoundTrip.LineHere(s, at, t);
  }

  lemma {:induction false} LinesEnd(s: Bytes, at: nat, hs: seq<Field>)
    requires BreakFreeFields(hs) && RequestRoundTrip.Stands(s, at, Lines(hs) + [CR, LF])
    ensures BlankLineEnd(s, at) == Some(at + |Lines(hs)| + 2)
    decreases |hs|
  {
    hide NextLine;
    if hs == [] {
      assert Lines(hs) + [CR, LF] == [] + [CR, LF];
      TakeLine(s, at, []);
    } else {
      var t := RequestRoundTrip.FieldLine(hs[0]);
      assert Lines(hs) + [CR, LF] == (t + [CR, LF]) + (Lines(hs[1..]) + [CR, LF]);
      RequestRoundTrip.StandsParts(s, at, t + [CR, LF], Lines(hs[1..]) + [CR, LF]);
      TakeLine(s, at, t);
      LinesEnd(s, at + |t| + 2, hs[1..]);
    }
  }

  lemma PrintedIsBreakFree(n: nat)
    ensures RequestRoundTrip.BreakFree(Decimal.Printed(n)) && RequestRoundTrip.BlankFree(Decimal.Printed(n))
  {
    var p := Decimal.Printed(n);
    assert forall i :: 0 <= i < |p| ==> Decimal.IsDigit(p[i]);
  }

  lemma LengthFieldWellFormed(n: nat)
    ensures RequestRoundTrip.WellFormed(Field(CONTENT_LENGTH, Decimal.Printed(n)))
    ensures RequestRoundTrip.BreakFree(CONTENT_LENGTH)
  {
    hide Decimal.Printed;
    PrintedIsBreakFree(n);
    NamesArePlain();
  }

  lemma NamesArePlain()
    ensures RequestRoundTrip.BlankFree(CONTENT_LENGTH) && RequestRoundTrip.BreakFree(PROTOCOL)
  {
    var a, b := "Content-Length", "HTTP/1.1 ";
    assert forall i :: 0 <= i < |a| ==> a[i] as int < 256 && !IsBlank(a[i] as int);
    assert forall i :: 0 <= i < |b| ==> b[i] as int < 256 && !IsBreak(b[i] as int);
  }

  lemma StatusIsLine(code: int, reason: Bytes)
    requires RequestRoundTrip.BreakFree(reason)
    ensures StatusLine(code, reason) != [] && RequestRoundTrip.BreakFree(StatusLine(code, reason))
  {
    hide Decimal.Printed;
    PrintedIsBreakFree(if code < 0 then -code else code);
    NamesArePlain();
  }

  /** The first empty line ends where the body starts, for reasons and headers without line breaks. */
  lemma BlankLineEndsHead(code: int, reason: Bytes, hs: seq<Field>, body: Bytes)
    requires RequestRoundTrip.BreakFree(reason) && BreakFreeFields(hs)
    ensures BlankLineEnd(Message(code, reason, hs, body), 0) == Some(|HeadText(code, reason, hs, |body|)|)
  {
    hide StatusLine, Lines, NextLine, Decimal.Printed;
    var status, all := StatusLine(code, reason) + [CR, LF], AllHeaders(hs, |body|);
    var s, rest := Message(code, reason, hs, body), Lines(all) + [CR, LF];
    StatusIsLine(code, reason);
    LengthFieldWellFormed(|body|);
    HeadStands(status, rest, body, s);
    TakeLine(s, 0, StatusLine(code, reason));
    LinesEnd(s, |status|, all);
  }

  lemma HeadStands(status: Bytes, rest: Bytes, body: Bytes, s: Bytes)
    requires s == status + rest + body
    ensures RequestRoundTrip.Stands(s, 0, status) && RequestRoundTrip.Stands(s, |status|, rest)
  {
    assert RequestRoundTrip.Stands(s, 0, status + rest);
    RequestRoundTrip.StandsParts(s, 0, status, rest);
  }

  lemma {:induction false} LinesAreFields(hs: seq<Field>)
    ensures Lines(hs) + [CR, LF] == RequestRoundTrip.RenderFields(hs)
  {
    if hs == [] {
      assert [] + [CR, LF] == [CR, LF];
    } else {
      LinesAreFields(hs[1..]);
      assert Lines(hs) + [CR, LF] == Line(hs[0]) + (Lines(hs[1..]) + [CR, LF]);
    }
  }

  lemma {:induction false} SeenIsFirst(m: map<Bytes, Bytes>, hs: seq<Field>, k: Bytes)
    requires k !in m
    ensures var all := RequestRoundTrip.EmplaceAll(m, hs);
      match Seen(hs, k) case None => k !in all case Some(v) => k in all && all[k] == v
    decreases |hs|
  {
    if hs != [] {
      if hs[0].key == k {
        RequestRoundTrip.EmplaceKeeps(Emplace(m, hs[0]), hs[1..], k);
      } else {
        SeenIsFirst(Emplace(m, hs[0]), hs[1..], k);
      }
    }
  }

  lemma {:induction false} SeenAppend(hs: seq<Field>, f: Field, k: Bytes)
    ensures Seen(hs + [f], k) == if Seen(hs, k).Some? then Seen(hs, k) else if f.key == k then Some(f.value) else None
  {
    if hs == [] {
      assert (hs + [f])[1..] == [];
    } else {
      assert (hs + [f])[1..] == hs[1..] + [f];
      SeenAppend(hs[1..], f, k);
    }
  }

  /** The first line of a response: the protocol, the code in decimal and the reason, with one blank between
      them; a client reads each of them back. */
  lemma StatusReadBack(code: int, reason: Bytes)
    requires -0x8000_0000_0000_0000 <= code < 0x8000_0000_0000_0000
    ensures var line := StatusLine(code, reason);
      && |line| > 9 && line[..8] == Ascii("HTTP/1.1") && line[8] == SPACE
      && Decimal.Strtol(line[9..]) == code
      && var n := First(line[9..], SPACE); n < |line[9..]| && line[9..][n + 1..] == reason
  {
    hide Decimal.Printed, Decimal.Strtol, StatusLine;
    var digits := Decimal.Printed(if code < 0 then -code else code);
    StatusParts(code, reason);
    LineParts(StatusLine(code, reason), PrintedInt(code), reason);
    assert StatusLine(code, reason)[9..] == PrintedInt(code) + ([SPACE] + reason);
    Decimal.StrtolReads([], if code < 0 then -code else code, [SPACE] + reason);
    SignInFront(code, digits, [SPACE] + reason);
    PrintedIsBreakFree(if code < 0 then -code else code);
    FirstIs(PrintedInt(code) + ([SPACE] + reason), SPACE, |PrintedInt(code)|);
  }

  lemma StatusParts(code: int, reason: Bytes)
    ensures StatusLine(code, reason) == PROTOCOL + PrintedInt(code) + [SPACE] + reason
  {
  }

  lemma SignInFront(code: int, digits: Bytes, rest: Bytes)
    requires digits == Decimal.Printed(if code < 0 then -code else code)
    ensures PrintedInt(code) + rest == [] + (if code < 0 then [45] + (digits + rest) else digits + rest)
  {
    hide Decimal.Printed;
    assert [45] + digits + rest == [45] + (digits + rest);
  }

  lemma LineParts(line: Bytes, number: Bytes, reason: Bytes)
    requires line == PROTOCOL + number + [SPACE] + reason
    ensures |line| >= 10 && line[..8] == Ascii("HTTP/1.1") && line[8] == SPACE
    ensures line[9..] == number + ([SPACE] + reason)
    ensures (number + ([SPACE] + reason))[|number| + 1..] == reason
  {
    ProtocolText();
    assert line == PROTOCOL + (number + ([SPACE] + reason));
    assert line[..8] == PROTOCOL[..8];
  }

  lemma ProtocolText()
    ensures |PROTOCOL| == 9 && PROTOCOL[..8] == Ascii("HTTP/1.1") && PROTOCOL[8] == SPACE
  {
    var a, b := "HTTP/1.1 ", "HTTP/1.1";
    assert forall i :: 0 <= i < 8 ==> a[i] == b[i];
    assert a[8] == ' ';
  }

  /** A client that reads headers the way this framework reads its own requests finds the end of the
      head and, in Content-Length, the number of bytes after it; a Content-Length set by hand is seen
      first, so then it has to say that number. */
  lemma ClientReadsFrame(code: int, reason: Bytes, hs: seq<Field>, body: Bytes)
    requires RequestRoundTrip.BreakFree(reason) && RequestRoundTrip.AllWellFormed(hs)
    requires |body| < 0x8000_0000_0000_0000
    ensures var s, head := Message(code, reason, hs, body), HeadText(code, reason, hs, |body|);
      var r := HeadersFrom(s, |StatusLine(code, reason)| + 2, map[]);
      NextLine(s, 0) == Ok(Taken(StatusLine(code, reason), |StatusLine(code, reason)| + 2))
      && r.Ok? && r.value.next == |head| && s[r.value.next..] == body && CONTENT_LENGTH in r.value.fields
      && (forall k :: k != CONTENT_LENGTH ==>
            match Seen(hs, k) case None => k !in r.value.fields
                              case Some(v) => k in r.value.fields && r.value.fields[k] == v)
      && (Decimal.ToSize(Decimal.Strtol(r.value.fields[CONTENT_LENGTH])) == |s| - r.value.next <==>
          CONTENT_LENGTH in Keys(hs) ==>
            Seen(hs, CONTENT_LENGTH).Some? && Decimal.ToSize(Decimal.Strtol(Seen(hs, CONTENT_LENGTH).value)) == |body|)
  {
    hide StatusLine, Lines, NextLine, Decimal.Printed, RequestRoundTrip.WellFormed, Decimal.Strtol;
    var status, all := StatusLine(code, reason) + [CR, LF], AllHeaders(hs, |body|);
    var s, rest := Message(code, reason, hs, body), Lines(all) + [CR, LF];
    StatusIsLine(code, reason);
    LengthFieldWellFormed(|body|);
    HeadStands(status, rest, body, s);
    TakeLine(s, 0, StatusLine(code, reason));
    LinesAreFields(all);
    RequestRoundTrip.FieldsParse(s, |status|, all, map[]);
    SeenIsFirst(map[], all, CONTENT_LENGTH);
    SeenIffKey(hs, CONTENT_LENGTH);
    forall k | k != CONTENT_LENGTH
      ensures Seen(all, k) == Seen(hs, k)
    {
      SeenAppend(hs, Field(CONTENT_LENGTH, Decimal.Printed(|body|)), k);
    }
    forall k
      ensures match Seen(all, k) case None => k !in RequestRoundTrip.EmplaceAll(map[], all)
                                 case Some(v) => k in RequestRoundTrip.EmplaceAll(map[], all)
                                                 && RequestRoundTrip.EmplaceAll(map[], all)[k] == v
    {
      SeenIsFirst(map[], all, k);
    }
    SeenAppend(hs, Field(CONTENT_LENGTH, Decimal.Printed(|body|)), CONTENT_LENGTH);
    Decimal.ReadPrinted(|body|);
    assert s[|status + rest|..] == body;
  }
}
