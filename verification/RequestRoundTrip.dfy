/** What a rendered request head parses to, and which bytes a parse depends on. */
module RequestRoundTrip {
  import opened Bytes
  import opened RequestHead
  import UrlCoding

  // Rendering a head.

  ghost predicate BlankFree(s: Bytes) {
    forall k :: 0 <= k < |s| ==> !IsBlank(s[k])
  }

  ghost predicate BreakFree(s: Bytes) {
    forall k :: 0 <= k < |s| ==> !IsBreak(s[k])
  }

  /** A word of the request line. */
  ghost predicate Plain(s: Bytes) {
    s != [] && BlankFree(s)
  }

  /** A header with a blank-free name and a non-empty value without line breaks or a leading blank. */
  ghost predicate WellFormed(f: Field) {
    BlankFree(f.key) && f.value != [] && BreakFree(f.value) && !IsBlank(f.value[0])
  }

  ghost predicate AllWellFormed(fs: seq<Field>) {
    forall i :: 0 <= i < |fs| ==> WellFormed(fs[i])
  }

  function FieldLine(f: Field): Bytes {
    f.key + [COLON, SPACE] + f.value
  }

  function RenderFields(fs: seq<Field>): (r: Bytes)
    ensures |r| >= 2
  {
    if fs == [] then [CR, LF] else FieldLine(fs[0]) + [CR, LF] + RenderFields(fs[1..])
  }

  function RequestLine(verb: Bytes, target: Bytes, version: Bytes): Bytes {
    verb + [SPACE] + target + [SPACE] + version + [CR, LF]
  }

  function Render(verb: Bytes, target: Bytes, version: Bytes, fs: seq<Field>): Bytes {
    RequestLine(verb, target, version) + RenderFields(fs)
  }

  /** Every header in turn, the first of a name staying. */
  function EmplaceAll(m: map<Bytes, Bytes>, fs: seq<Field>): map<Bytes, Bytes>
    decreases |fs|
  {
    if fs == [] then m else EmplaceAll(Emplace(m, fs[0]), fs[1..])
  }

  /** A map holds exactly the names of a list, each with the value of its first occurrence. */
  ghost predicate FirstOccurrences(m: map<Bytes, Bytes>, fs: seq<Field>) {
    (forall k :: k in m ==> exists i :: 0 <= i < |fs| && fs[i].key == k)
    && (forall i :: 0 <= i < |fs| ==> fs[i].key in m)
    && (forall i :: 0 <= i < |fs| && (forall j :: 0 <= j < i ==> fs[j].key != fs[i].key) ==>
          fs[i].key in m && m[fs[i].key] == fs[i].value)
  }

  lemma {:induction false} EmplaceKeeps(m: map<Bytes, Bytes>, fs: seq<Field>, k: Bytes)
    ensures k in m ==> k in EmplaceAll(m, fs) && EmplaceAll(m, fs)[k] == m[k]
    decreases |fs|
  {
    if fs != [] {
      EmplaceKeeps(Emplace(m, fs[0]), fs[1..], k);
    }
  }

  lemma {:induction false} EmplaceFirst(m: map<Bytes, Bytes>, fs: seq<Field>, i: nat)
    requires i < |fs| && fs[i].key !in m && forall j :: 0 <= j < i ==> fs[j].key != fs[i].key
    ensures fs[i].key in EmplaceAll(m, fs) && EmplaceAll(m, fs)[fs[i].key] == fs[i].value
    decreases |fs|
  {
    if i == 0 {
      EmplaceKeeps(Emplace(m, fs[0]), fs[1..], fs[0].key);
    } else {
      assert fs[0].key != fs[i].key;
      EmplaceFirst(Emplace(m, fs[0]), fs[1..], i - 1);
    }
  }

  lemma {:induction false} EmplaceOnly(m: map<Bytes, Bytes>, fs: seq<Field>, k: Bytes)
    ensures k in EmplaceAll(m, fs) <==> k in m || exists i :: 0 <= i < |fs| && fs[i].key == k
    decreases |fs|
  {
    if fs != [] {
      var m', t := Emplace(m, fs[0]), fs[1..];
      EmplaceOnly(m', t, k);
      if i :| 0 <= i < |t| && t[i].key == k {
        assert fs[i + 1].key == k;
      }
      if i :| 0 <= i < |fs| && fs[i].key == k {
        assert i == 0 || t[i - 1].key == k;
      }
    }
  }

  lemma EmplaceAllIsFirst(fs: seq<Field>)
    ensures FirstOccurrences(EmplaceAll(map[], fs), fs)
  {
    var m := EmplaceAll(map[], fs);
    forall k
      ensures k in m <==> exists i :: 0 <= i < |fs| && fs[i].key == k
    {
      EmplaceOnly(map[], fs, k);
    }
    forall i | 0 <= i < |fs| && (forall j :: 0 <= j < i ==> fs[j].key != fs[i].key)
      ensures fs[i].key in m && m[fs[i].key] == fs[i].value
    {
      EmplaceFirst(map[], fs, i);
    }
  }

  // Scanning rendered text.

  /** A text stands at a position. */
  ghost predicate Stands(s: Bytes, at: nat, t: Bytes) {
    at + |t| <= |s| && s[at..at + |t|] == t
  }

  lemma StandsParts(s: Bytes, at: nat, t: Bytes, u: Bytes)
    ensures Stands(s, at, t + u) <==> Stands(s, at, t) && Stands(s, at + |t|, u)
  {
    if Stands(s, at, t + u) {
      assert s[at..at + |t|] == (t + u)[..|t|];
      assert s[at + |t|..at + |t| + |u|] == (t + u)[|t|..];
    }
    if Stands(s, at, t) && Stands(s, at + |t|, u) {
      assert s[at..at + |t| + |u|] == s[at..at + |t|] + s[at + |t|..at + |t| + |u|];
    }
  }

  /** A word followed by blanks and something else is taken whole. */
  lemma WordHere(s: Bytes, at: nat, w: Bytes, gap: Bytes)
    requires Plain(w) && gap != [] && Stands(s, at, w) && Stands(s, at + |w|, gap)
    requires forall k :: 0 <= k < |gap| ==> IsBlank(gap[k])
    requires at + |w| + |gap| < |s| && !IsBlank(s[at + |w| + |gap|])
    ensures NextWord(s, at) == Ok(Taken(w, at + |w| + |gap|))
  {
    var e, n := at + |w|, at + |w| + |gap|;
    assert forall k :: at <= k < e ==> s[k] == s[at..e][k - at];
    assert forall k :: e <= k < n ==> s[k] == s[e..n][k - e];
    assert IsBlank(s[e]);
    assert WordEnd(s, at) == e && BlankEnd(s, e) == n;
  }

  /** A line without breaks, followed by a carriage return, is taken whole. */
  lemma LineHere(s: Bytes, at: nat, t: Bytes)
    requires BreakFree(t) && Stands(s, at, t) && at + |t| < |s| && IsBreak(s[at + |t|])
    ensures NextLine(s, at) == Ok(Taken(t, at + |t| + if s[at + |t|] == CR then 2 else 1))
  {
    var e := at + |t|;
    assert forall k :: at <= k < e ==> s[k] == s[at..e][k - at];
    assert LineEnd(s, at) == e;
  }

  lemma KeyIsPlain(f: Field)
    requires WellFormed(f)
    ensures Plain(f.key + [COLON]) && BreakFree(f.value) && f.value != [] && !IsBlank(f.value[0])
    ensures (f.key + [COLON])[..|f.key|] == f.key
  {
  }

  lemma FieldParses(f: Field)
    requires WellFormed(f)
    ensures FieldOf(FieldLine(f)) == Ok(f)
  {
    hide NextWord, NextLine, WellFormed, Plain, BreakFree;
    var key, text := f.key + [COLON], FieldLine(f) + [LF, 0];
    KeyIsPlain(f);
    assert text == key + ([SPACE] + (f.value + [LF, 0]));
    StandsParts(text, 0, key, [SPACE] + (f.value + [LF, 0]));
    StandsParts(text, |key|, [SPACE], f.value + [LF, 0]);
    StandsParts(text, |key| + 1, f.value, [LF, 0]);
    assert text[|key| + 1] == f.value[0];
    WordHere(text, 0, key, [SPACE]);
    LineHere(text, |key| + 1, f.value);
  }

  lemma FieldLineIsLine(f: Field)
    requires WellFormed(f)
    ensures FieldLine(f) != [] && BreakFree(FieldLine(f)) && !IsBlank(FieldLine(f)[0])
  {
  }

  /** Rendered headers parse to the map of their first occurrences, up to the end of the blank line. */
  lemma {:induction false} FieldsParse(s: Bytes, at: nat, fs: seq<Field>, m: map<Bytes, Bytes>)
    requires AllWellFormed(fs) && Stands(s, at, RenderFields(fs))
    ensures HeadersFrom(s, at, m) == Ok(Headers(EmplaceAll(m, fs), at + |RenderFields(fs)|))
    decreases |fs|
  {
    hide NextLine, FieldOf, FieldLine, WellFormed;
    if fs == [] {
      assert s[at..at + 2][0] == CR;
      StandsParts(s, at, [], [CR, LF]);
      LineHere(s, at, []);
    } else {
      var line, rest := FieldLine(fs[0]), RenderFields(fs[1..]);
      StandsParts(s, at, line + [CR, LF], rest);
      StandsParts(s, at, line, [CR, LF]);
      assert s[at + |line|] == s[at + |line|..at + |line| + 2][0] == CR;
      FieldLineIsLine(fs[0]);
      LineHere(s, at, line);
      FieldParses(fs[0]);
      FieldsParse(s, at + |line| + 2, fs[1..], Emplace(m, fs[0]));
    }
  }

  lemma FieldsStartPlain(fs: seq<Field>)
    requires fs != [] && AllWellFormed(fs)
    ensures RenderFields(fs) != [] && !IsBlank(RenderFields(fs)[0])
  {
    FieldLineIsLine(fs[0]);
  }

  lemma RequestLineStands(s: Bytes, verb: Bytes, target: Bytes, version: Bytes)
    requires Stands(s, 0, RequestLine(verb, target, version))
    ensures var a := |verb| + 1; var b := a + |target| + 1;
      Stands(s, 0, verb) && Stands(s, |verb|, [SPACE]) && Stands(s, a, target) && Stands(s, a + |target|, [SPACE])
      && Stands(s, b, version) && Stands(s, b + |version|, [CR, LF])
  {
    StandsParts(s, 0, verb + [SPACE] + target + [SPACE] + version, [CR, LF]);
    StandsParts(s, 0, verb + [SPACE] + target + [SPACE], version);
    StandsParts(s, 0, verb + [SPACE] + target, [SPACE]);
    StandsParts(s, 0, verb + [SPACE], target);
    StandsParts(s, 0, verb, [SPACE]);
  }

  lemma LengthOfLine(verb: Bytes, target: Bytes, version: Bytes)
    ensures |RequestLine(verb, target, version)| == |verb| + 1 + |target| + 1 + |version| + 2
  {
  }

  lemma FirstTwoWords(s: Bytes, verb: Bytes, target: Bytes, version: Bytes)
    requires Plain(verb) && Plain(target) && Plain(version) && Stands(s, 0, RequestLine(verb, target, version))
    ensures NextWord(s, 0) == Ok(Taken(verb, |verb| + 1))
    ensures NextWord(s, |verb| + 1) == Ok(Taken(target, |verb| + 1 + |target| + 1))
  {
    var a := |verb| + 1;
    var b := a + |target| + 1;
    RequestLineStands(s, verb, target, version);
    assert s[a] == s[a..a + |target|][0];
    assert s[b] == s[b..b + |version|][0];
    WordHere(s, 0, verb, [SPACE]);
    WordHere(s, a, target, [SPACE]);
  }

  /** A rendered head parses to what was rendered, whatever follows it: the words of the request line,
      the decoded target, the first occurrences of the headers, and its own length. */
  lemma HeadRoundTrip(verb: Bytes, target: Bytes, version: Bytes, fs: seq<Field>, body: Bytes)
    requires Plain(verb) && Plain(target) && Plain(version) && fs != [] && AllWellFormed(fs)
    ensures var head := Render(verb, target, version, fs);
      ParseHead(head + body) == match TargetOf(target)
        case Err(e) => Err(e)
        case Ok(t) => Ok(Head(verb, t.path, version, EmplaceAll(map[], fs), t.params, |head|))
  {
    hide NextWord, HeadersFrom, TargetOf, RequestLine, RenderFields, Plain, AllWellFormed;
    var line, rest := RequestLine(verb, target, version), RenderFields(fs);
    var s := line + rest + body;
    StandsParts(s, 0, line + rest, body);
    assert Stands(s, 0, line + rest + body);
    StandsParts(s, 0, line, rest);
    FirstTwoWords(s, verb, target, version);
    ThirdWord(s, verb, target, version, fs);
    FieldsParse(s, |line|, fs, map[]);
    assert Render(verb, target, version, fs) + body == s;
  }

  lemma ThirdWord(s: Bytes, verb: Bytes, target: Bytes, version: Bytes, fs: seq<Field>)
    requires Plain(version) && fs != [] && AllWellFormed(fs)
    requires var line := RequestLine(verb, target, version); Stands(s, 0, line) && Stands(s, |line|, RenderFields(fs))
    ensures NextWord(s, |verb| + 1 + |target| + 1) == Ok(Taken(version, |RequestLine(verb, target, version)|))
  {
    hide NextWord;
    var b := |verb| + 1 + |target| + 1;
    RequestLineStands(s, verb, target, version);
    FieldsStartPlain(fs);
    var n, r := b + |version| + 2, RenderFields(fs);
    assert s[n] == s[n..n + |r|][0] == r[0];
    WordHere(s, b, version, [CR, LF]);
  }

  /** Without headers the blank line is taken for blanks after the version: the parse fails, or runs
      past the end of the head into the body. */
  lemma EmptyHeaderListMisread(verb: Bytes, target: Bytes, version: Bytes, body: Bytes)
    requires Plain(verb) && Plain(target) && Plain(version)
    ensures var head := Render(verb, target, version, []);
      var r := ParseHead(head + body); r.Ok? ==> r.value.size > |head|
  {
    hide HeadersFrom, TargetOf, NextWord, Plain, RequestLine;
    var line := RequestLine(verb, target, version);
    var s := line + [CR, LF] + body;
    assert Stands(s, 0, line + [CR, LF]);
    StandsParts(s, 0, line, [CR, LF]);
    FirstTwoWords(s, verb, target, version);
    RequestLineStands(s, verb, target, version);
    var b := |verb| + 1 + |target| + 1;
    LengthOfLine(verb, target, version);
    BlanksSkipped(s, b, version, [CR, LF, CR, LF]);
    assert Render(verb, target, version, []) + body == s;
  }

  /** So a head is read back exactly when it has a header. */
  lemma HeadRoundTripIff(verb: Bytes, target: Bytes, version: Bytes, fs: seq<Field>, body: Bytes)
    requires Plain(verb) && Plain(target) && Plain(version) && AllWellFormed(fs) && TargetOf(target).Ok?
    ensures var head, t := Render(verb, target, version, fs), TargetOf(target).value;
      ParseHead(head + body) == Ok(Head(verb, t.path, version, EmplaceAll(map[], fs), t.params, |head|)) <==> fs != []
  {
    hide ParseHead, TargetOf, Plain, AllWellFormed;
    if fs == [] {
      EmptyHeaderListMisread(verb, target, version, body);
    } else {
      HeadRoundTrip(verb, target, version, fs, body);
    }
  }

  lemma BlanksSkipped(s: Bytes, at: nat, w: Bytes, gap: Bytes)
    requires Plain(w) && gap != [] && Stands(s, at, w) && Stands(s, at + |w|, gap)
    requires forall k :: 0 <= k < |gap| ==> IsBlank(gap[k])
    ensures NextWord(s, at).Ok? ==> NextWord(s, at).value.next >= at + |w| + |gap|
  {
    var e, n := at + |w|, at + |w| + |gap|;
    assert forall k :: at <= k < e ==> s[k] == s[at..e][k - at];
    assert forall k :: e <= k < n ==> s[k] == s[e..n][k - e];
    assert IsBlank(s[e]);
    assert WordEnd(s, at) == e;
  }

  // The parse depends on the bytes of the head only.

  ghost predicate SameFront(a: Bytes, b: Bytes, n: nat) {
    n <= |a| && n <= |b| && forall k :: 0 <= k < n ==> a[k] == b[k]
  }

  lemma WordIsLocal(a: Bytes, b: Bytes, at: nat, n: nat)
    requires NextWord(a, at).Ok? && NextWord(a, at).value.next < n && SameFront(a, b, n)
    ensures NextWord(b, at) == NextWord(a, at)
  {
    var e, m := WordEnd(a, at), NextWord(a, at).value.next;
    assert WordEnd(b, at) == e && BlankEnd(b, e) == m;
    assert a[at..e] == b[at..e];
  }

  lemma LineIsLocal(a: Bytes, b: Bytes, at: nat, n: nat)
    requires NextLine(a, at).Ok? && NextLine(a, at).value.next <= n && SameFront(a, b, n)
    ensures NextLine(b, at) == NextLine(a, at)
  {
    var e := LineEnd(a, at);
    assert LineEnd(b, at) == e;
    assert a[at..e] == b[at..e];
  }

  lemma {:induction false} HeadersAreLocal(a: Bytes, b: Bytes, at: nat, m: map<Bytes, Bytes>, n: nat)
    requires HeadersFrom(a, at, m).Ok? && HeadersFrom(a, at, m).value.next <= n && SameFront(a, b, n)
    ensures HeadersFrom(b, at, m) == HeadersFrom(a, at, m)
    decreases |a| + 1 - at
  {
    hide NextLine, FieldOf;
    var line := NextLine(a, at).value;
    NextIsLater(a, at);
    if line.text == [] {
      LineIsLocal(a, b, at, n);
    } else {
      var m' := Emplace(m, FieldOf(line.text).value);
      HeadersAreLocal(a, b, line.next, m', n);
      LineIsLocal(a, b, at, n);
    }
  }

  /** Texts that agree on the head parse alike: what follows the head does not matter, and a prefix
      that holds the head is enough. */
  lemma HeadIsLocal(a: Bytes, b: Bytes)
    requires ParseHead(a).Ok? && SameFront(a, b, ParseHead(a).value.size)
    ensures ParseHead(b) == ParseHead(a)
  {
    hide NextWord, TargetOf, SameFront;
    var n := ParseHead(a).value.size;
    var w1 := NextWord(a, 0).value;
    var w2 := NextWord(a, w1.next).value;
    var w3 := NextWord(a, w2.next).value;
    WordGoesOn(a, w1.next);
    WordGoesOn(a, w2.next);
    HeadersAreLocal(a, b, w3.next, map[], n);
    WordIsLocal(a, b, 0, n);
    WordIsLocal(a, b, w1.next, n);
    WordIsLocal(a, b, w2.next, n);
  }

  lemma WordGoesOn(s: Bytes, at: nat)
    requires NextWord(s, at).Ok?
    ensures at < NextWord(s, at).value.next < |s|
  {
  }

  // The query parameters as the source cuts them.

  lemma {:induction false} PlainDecodes(s: Bytes)
    requires UrlCoding.PERCENT !in s
    ensures UrlCoding.UrlDecoded(s) == Some(s)
  {
    if s != [] {
      PlainDecodes(s[1..]);
      assert s == [s[0]] + s[1..];
    }
  }

  /** A parameter without escapes keeps the equals sign in its value. */
  lemma ValueKeepsEquals(key: Bytes, val: Bytes)
    requires UrlCoding.PERCENT !in key && UrlCoding.PERCENT !in val
    requires forall k :: 0 <= k < |key| ==> key[k] != EQUALS
    ensures ParamOf(key + [EQUALS] + val) == Ok(Field(key, [EQUALS] + val))
  {
    hide UrlCoding.UrlDecoded;
    var p := key + [EQUALS] + val;
    FirstIs(p, EQUALS, |key|);
    assert p[..|key|] == key && p[|key|..] == [EQUALS] + val;
    PlainDecodes(key);
    PlainDecodes([EQUALS] + val);
  }

  // Header lines that cannot be parsed.

  /** A blank with something else after it: a word ends there and a value follows. */
  ghost predicate HasValue(line: Bytes) {
    exists i, j :: 0 <= i < j < |line| && IsBlank(line[i]) && !IsBlank(line[j])
  }

  /** A line fails by its length exactly when it starts with a blank, and runs past its end exactly when it
      does not and no value follows its first word. */
  lemma FieldFailsIff(line: Bytes)
    requires line != [] && BreakFree(line)
    ensures FieldOf(line) == Err(LengthError) <==> IsBlank(line[0])
    ensures FieldOf(line) == Err(Overrun) <==> !IsBlank(line[0]) && !HasValue(line)
    ensures FieldOf(line).Ok? <==> !IsBlank(line[0]) && HasValue(line)
  {
    var text := line + [LF, 0];
    var n := |line|;
    assert text[n] == LF && text[n + 1] == 0 && |text| == n + 2;
    assert forall k :: 0 <= k < n ==> text[k] == line[k];
    if !IsBlank(line[0]) {
      var e := WordEnd(text, 0);
      var b := BlankEnd(text, e);
      assert e <= n && b <= n + 1 && b != n;
      if HasValue(line) {
        var i, j :| 0 <= i < j < n && IsBlank(line[i]) && !IsBlank(line[j]);
        assert e <= i && b <= j;
      }
      if b < n {
        assert IsBlank(line[e]) && !IsBlank(line[b]);
        assert LineEnd(text, b) == n;
      } else {
        assert b == n + 1 && LineEnd(text, b) == n + 2;
      }
    } else {
      assert BlankEnd(text, 0) <= n + 1;
    }
  }
}
