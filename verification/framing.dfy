/** The `Content-Length` framing of the Go JSON-RPC client: what `sendMessage`
    writes before each message, and how `readLoop` reads header lines and the
    body back from the stream. A stream is a string whose characters stand
    for its bytes. */
module Framing {
  import opened Wrappers
  import opened Decimal

  const ContentLengthPrefix: string := "Content-Length: "
  const CRLF: string := "\r\n"

  /** `sendMessage`: the header, a blank line, then the data. */
  function EncodeFrame(data: string): (frame: string)
    ensures |frame| > |ContentLengthPrefix| + |data|
    ensures frame[..|ContentLengthPrefix|] == ContentLengthPrefix
    ensures frame[|frame| - |data|..] == data
  {
    ContentLengthPrefix + NatToString(|data|) + CRLF + CRLF + data
  }

  // ---------------------------------------------------------------------------
  // Lines

  /** The position of the first newline, or `|s|` when there is none. */
  function NewlineIndex(s: string): (k: nat)
    ensures k <= |s|
    ensures k < |s| ==> s[k] == '\n'
    ensures forall j :: 0 <= j < k ==> s[j] != '\n'
  {
    if |s| == 0 then 0
    else if s[0] == '\n' then 0
    else 1 + NewlineIndex(s[1..])
  }

  /** `ReadString('\n')`: the next line including its newline and what
      follows it, or `None` when the stream ends before a newline. */
  function ReadLine(s: string): (r: Option<(string, string)>)
    ensures r.Some? ==> r.value.0 + r.value.1 == s && |r.value.0| > 0
    ensures r.Some? ==> IsLine(r.value.0)
    ensures r.None? <==> forall j :: 0 <= j < |s| ==> s[j] != '\n'
  {
    var k := NewlineIndex(s);
    if k == |s| then None
    else
      assert s[..k + 1] + s[k + 1..] == s;
      Some((s[..k + 1], s[k + 1..]))
  }

  /** A single line: ends with its only newline. */
  predicate IsLine(line: string) {
    |line| > 0 && line[|line| - 1] == '\n' && forall j :: 0 <= j < |line| - 1 ==> line[j] != '\n'
  }

  lemma {:induction false} ReadLineOfLine(line: string, rest: string)
    requires IsLine(line)
    ensures ReadLine(line + rest) == Some((line, rest))
  {
    var s := line + rest;
    var k := NewlineIndex(s);
    assert s[|line| - 1] == '\n';
    assert forall j :: 0 <= j < |line| ==> s[j] == line[j];
    assert s[..k + 1] == line;
    assert s[k + 1..] == rest;
  }

  // ---------------------------------------------------------------------------
  // Header lines

  /** The longest run of decimal digits at the front of `s`. */
  function DigitPrefix(s: string): (d: string)
    ensures AllDigits(d) && |d| <= |s| && d == s[..|d|]
    ensures |d| < |s| ==> !IsDigit(s[|d|])
  {
    if |s| == 0 || !IsDigit(s[0]) then ""
    else
      var rest := DigitPrefix(s[1..]);
      assert [s[0]] + rest == s[..|rest| + 1];
      [s[0]] + rest
  }

  /** `Sscanf(line, "Content-Length: %d", &length)` succeeding: the line starts
      with the literal text and at least one digit follows it. */
  function ParseContentLength(line: string): (r: Option<nat>)
    ensures r.Some? ==> |line| > |ContentLengthPrefix| && line[..|ContentLengthPrefix|] == ContentLengthPrefix
  {
    if |line| >= |ContentLengthPrefix| && line[..|ContentLengthPrefix|] == ContentLengthPrefix then
      var digits := DigitPrefix(line[|ContentLengthPrefix|..]);
      if |digits| > 0 then Some(DigitsValue(digits)) else None
    else None
  }

  /** `t` is what is left of `s` after some prefix has been read. */
  predicate IsSuffix(t: string, s: string) {
    |t| <= |s| && s[|s| - |t|..] == t
  }

  lemma SuffixTransitive(a: string, b: string, c: string)
    requires IsSuffix(a, b) && IsSuffix(b, c)
    ensures IsSuffix(a, c)
  {
    assert c[|c| - |a|..] == c[|c| - |b|..][|b| - |a|..];
  }

  predicate IsBlank(line: string) {
    line == CRLF || line == "\n"
  }

  /** The header loop of `readLoop`: reads lines until a blank one; every line
      that parses as a length overrides `contentLength`, all others are
      ignored. `None` when the stream ends inside the header. */
  function ReadHeader(s: string, contentLength: nat): (r: Option<(nat, string)>)
    ensures r.Some? ==> |r.value.1| < |s| && IsSuffix(r.value.1, s)
    decreases |s|
  {
    match ReadLine(s)
    case None => None
    case Some((line, rest)) =>
      assert IsSuffix(rest, s) by { assert s[|line|..] == rest; }
      if IsBlank(line) then Some((contentLength, rest))
      else
        var next := if ParseContentLength(line).Some? then ParseContentLength(line).value else contentLength;
        var r := ReadHeader(rest, next);
        if r.Some? then SuffixTransitive(r.value.1, rest, s); r else r
  }

  /** One turn of `readLoop`'s outer loop. */
  datatype Frame =
    | Ended                            // the stream ended or failed: the loop returns
    | Skipped(rest: string)            // no or zero length: the loop continues
    | Body(data: string, rest: string) // a body of exactly the announced length

  /** What the rest of a turn of `readLoop` makes of the header's outcome. */
  function FrameOf(h: Option<(nat, string)>): (r: Frame)
    ensures r.Body? ==> h.Some? && |r.data| == h.value.0 > 0 && r.data + r.rest == h.value.1
    ensures r.Skipped? <==> h.Some? && h.value.0 == 0
    ensures r.Skipped? ==> r.rest == h.value.1
    ensures r.Ended? <==> h.None? || |h.value.1| < h.value.0
  {
    if h.None? then Ended
    else
      var (n, rest) := h.value;
      if n == 0 then Skipped(rest)
      else if |rest| < n then Ended
      else
        assert rest[..n] + rest[n..] == rest;
        Body(rest[..n], rest[n..])
  }

  /** One turn of `readLoop`: a frame is skipped exactly when the header
      announces no or zero length, ends the loop exactly when the stream ends
      inside the header or before the announced body is complete, and is
      otherwise a body of exactly the announced length. */
  function ReadFrame(s: string): (r: Frame)
    ensures r.Skipped? ==> |r.rest| < |s|
    ensures r.Body? ==> |r.data| > 0 && |r.data| + |r.rest| < |s|
    ensures r.Body? ==> IsSuffix(r.data + r.rest, s)
    ensures r.Body? ==>
      ReadHeader(s, 0).Some? && |r.data| == ReadHeader(s, 0).value.0 && r.data + r.rest == ReadHeader(s, 0).value.1
    ensures r.Skipped? <==> ReadHeader(s, 0).Some? && ReadHeader(s, 0).value.0 == 0
    ensures r.Skipped? ==> r.rest == ReadHeader(s, 0).value.1
    ensures r.Ended? <==>
      ReadHeader(s, 0).None? || |ReadHeader(s, 0).value.1| < ReadHeader(s, 0).value.0
  {
    FrameOf(ReadHeader(s, 0))
  }

  /** Every message body in the stream, in order, until the stream ends;
      frames without a length are passed over. */
  function ReadStream(s: string): (messages: seq<string>)
    ensures forall i :: 0 <= i < |messages| ==> |messages[i]| > 0
    decreases |s|
  {
    match ReadFrame(s)
    case Ended => []
    case Skipped(rest) => ReadStream(rest)
    case Body(data, rest) => [data] + ReadStream(rest)
  }

  // ---------------------------------------------------------------------------
  // Header lemmas

  /** A line that is neither blank nor a length is ignored. */
  lemma OtherHeaderIgnored(line: string, s: string, contentLength: nat)
    requires IsLine(line) && !IsBlank(line) && ParseContentLength(line).None?
    ensures ReadHeader(line + s, contentLength) == ReadHeader(s, contentLength)
  {
    ReadLineOfLine(line, s);
  }

  /** A length line replaces whatever length came before: the last one wins. */
  lemma LengthHeaderOverrides(line: string, s: string, contentLength: nat)
    requires IsLine(line) && !IsBlank(line) && ParseContentLength(line).Some?
    ensures ReadHeader(line + s, contentLength) == ReadHeader(s, ParseContentLength(line).value)
  {
    ReadLineOfLine(line, s);
  }

  /** The header line `sendMessage` writes parses back to the length. */
  lemma {:induction false} LengthLineParses(n: nat)
    ensures IsLine(ContentLengthPrefix + NatToString(n) + CRLF)
    ensures !IsBlank(ContentLengthPrefix + NatToString(n) + CRLF)
    ensures ParseContentLength(ContentLengthPrefix + NatToString(n) + CRLF) == Some(n)
  {
    var digits := NatToString(n);
    var line := ContentLengthPrefix + digits + CRLF;
    var p := |ContentLengthPrefix|;
    assert line[..p] == ContentLengthPrefix;
    assert line[p..] == digits + CRLF;
    var d := DigitPrefix(digits + CRLF);
    assert (digits + CRLF)[|digits|] == '\r';
    assert forall j :: 0 <= j < |digits| ==> (digits + CRLF)[j] == digits[j];
    assert d == digits;
    forall j | 0 <= j < |line| - 1
      ensures line[j] != '\n'
    {
      if j < p {
        assert line[j] == ContentLengthPrefix[j];
      } else if j < p + |digits| {
        assert line[j] == digits[j - p];
      }
    }
    assert |line| > 2;
  }

  /** The header `sendMessage` writes is read back as the data's length, with
      the data next in the stream. */
  lemma EncodedHeaderReads(data: string, rest: string)
    ensures ReadHeader(EncodeFrame(data) + rest, 0) == Some((|data|, data + rest))
  {
    var line := ContentLengthPrefix + NatToString(|data|) + CRLF;
    LengthLineParses(|data|);
    assert EncodeFrame(data) + rest == line + (CRLF + (data + rest));
    LengthHeaderOverrides(line, CRLF + (data + rest), 0);
    BlankLineEndsHeader(data + rest, |data|);
  }

  /** The blank line ends the header with the length read so far. */
  lemma BlankLineEndsHeader(s: string, contentLength: nat)
    ensures ReadHeader(CRLF + s, contentLength) == Some((contentLength, s))
  {
    assert IsLine(CRLF);
    ReadLineOfLine(CRLF, s);
  }

  // ---------------------------------------------------------------------------
  // Round trips

  /** Reading a frame written by `sendMessage` yields exactly its data; an
      empty message is written with length 0 and is passed over. */
  lemma FrameRoundTrip(data: string, rest: string)
    ensures |data| > 0 ==> ReadFrame(EncodeFrame(data) + rest) == Body(data, rest)
    ensures |data| == 0 ==> ReadFrame(EncodeFrame(data) + rest) == Skipped(rest)
  {
    EncodedHeaderReads(data, rest);
    assert (data + rest)[..|data|] == data;
    assert (data + rest)[|data|..] == rest;
  }

  function EncodeStream(messages: seq<string>): string {
    if |messages| == 0 then "" else EncodeFrame(messages[0]) + EncodeStream(messages[1..])
  }

  function NonEmpty(messages: seq<string>): (r: seq<string>)
    ensures forall m :: m in r <==> m in messages && |m| > 0
  {
    if |messages| == 0 then []
    else if |messages[0]| == 0 then NonEmpty(messages[1..])
    else [messages[0]] + NonEmpty(messages[1..])
  }

  /** A stream of frames written by `sendMessage` is read back as the same
      messages in the same order, empty ones excepted. */
  lemma {:induction false} StreamRoundTrip(messages: seq<string>)
    ensures ReadStream(EncodeStream(messages)) == NonEmpty(messages)
  {
    if |messages| > 0 {
      FrameRoundTrip(messages[0], EncodeStream(messages[1..]));
      StreamRoundTrip(messages[1..]);
    } else {
      assert ReadLine("").None?;
    }
  }
}
