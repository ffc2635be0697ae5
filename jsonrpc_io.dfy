/**
 * Base-protocol framing (lsp/io/jsonrpc_io.py) over a binary stream, as the
 * Language Server Protocol 3.16 "Base Protocol", "Header Part" describes it:
 * header lines ended by "\r\n", an empty line, then exactly Content-Length
 * bytes of body.
 *
 * The JSON text itself (`json.dumps`, `json.loads`) is foreign: `Write` takes
 * the text `json.dumps` produced and `Read` returns the body bytes that
 * `json.loads` would be given. Header lines are ASCII, so a byte stands for
 * the character with that code.
 */
module JsonRpcIo {
  import opened Values

  type byte = b: int | 0 <= b < 256

  /** The bytes of an ASCII string (the header text is ASCII; other characters are not used). */
  function Ascii(s: string): (r: seq<byte>)
    ensures |r| == |s| && forall i :: 0 <= i < |s| && (s[i] as int) < 256 ==> r[i] == s[i] as int
  {
    seq(|s|, i requires 0 <= i < |s| => if (s[i] as int) < 256 then s[i] as int else 0)
  }

  const LF: byte := 10
  const CR: byte := 13

  // ---------------------------------------------------------------------------
  // UTF-8, for the length the header announces.

  /** The UTF-8 encoding of one character (a Unicode scalar value). */
  function EncodeChar(c: char): (r: seq<byte>)
    ensures 1 <= |r| <= 4
    ensures |r| == 1 <==> (c as int) < 128
  {
    var n := c as int;
    if n < 0x80 then [n]
    else if n < 0x800 then [0xC0 + n / 64, 0x80 + n % 64]
    else if n < 0x10000 then [0xE0 + n / 4096, 0x80 + (n / 64) % 64, 0x80 + n % 64]
    else [0xF0 + n / 262144, 0x80 + (n / 4096) % 64, 0x80 + (n / 64) % 64, 0x80 + n % 64]
  }

  /** `text.encode('utf-8')`. */
  function Utf8(text: string): seq<byte>
  {
    if text == [] then [] else EncodeChar(text[0]) + Utf8(text[1..])
  }

  /** The byte length is never below the character count, and equals it exactly when the text is ASCII. */
  lemma {:induction false} Utf8Length(text: string)
    ensures |Utf8(text)| >= |text|
    ensures |Utf8(text)| == |text| <==> forall i :: 0 <= i < |text| ==> (text[i] as int) < 128
  {
    if text != [] {
      Utf8Length(text[1..]);
      assert forall i :: 1 <= i < |text| ==> text[i] == text[1..][i - 1];
    }
  }

  // ---------------------------------------------------------------------------
  // Decimal numbers.

  predicate IsDigit(b: byte) { 48 <= b <= 57 }

  /** `str(n)`. */
  function Decimal(n: nat): (r: seq<byte>)
    ensures |r| >= 1 && forall i :: 0 <= i < |r| ==> IsDigit(r[i])
  {
    if n < 10 then [48 + n] else Decimal(n / 10) + [48 + n % 10]
  }

  /** `int(digits)` for a run of ASCII digits. */
  function DigitsValue(ds: seq<byte>): nat
    requires forall i :: 0 <= i < |ds| ==> IsDigit(ds[i])
  {
    if ds == [] then 0 else DigitsValue(ds[..|ds| - 1]) * 10 + (assert IsDigit(ds[|ds| - 1]); (ds[|ds| - 1] as int) - 48)
  }

  lemma {:induction false} DecimalValue(n: nat)
    ensures DigitsValue(Decimal(n)) == n
  {
    if n >= 10 {
      DecimalValue(n / 10);
      var d := Decimal(n);
      assert d[..|d| - 1] == Decimal(n / 10);
    }
  }

  // ---------------------------------------------------------------------------
  // The Content-Length header.

  /** The characters `str.strip()` removes from an ASCII line. */
  predicate IsSpace(b: byte) { 9 <= b <= 13 || 28 <= b <= 32 }

  /** `not line.strip()`. */
  predicate Blank(line: seq<byte>) { forall i :: 0 <= i < |line| ==> IsSpace(line[i]) }

  function Lower(b: byte): byte { if 65 <= b <= 90 then b + 32 else b }

  /** The number of leading bytes of `s` satisfying the run's predicate. */
  function SpaceRun(s: seq<byte>): (n: nat)
    ensures n <= |s| && (forall i :: 0 <= i < n ==> IsSpace(s[i])) && (n < |s| ==> !IsSpace(s[n]))
  {
    if s == [] || !IsSpace(s[0]) then 0 else 1 + SpaceRun(s[1..])
  }

  function DigitRun(s: seq<byte>): (n: nat)
    ensures n <= |s| && (forall i :: 0 <= i < n ==> IsDigit(s[i])) && (n < |s| ==> !IsDigit(s[n]))
  {
    if s == [] || !IsDigit(s[0]) then 0 else 1 + DigitRun(s[1..])
  }

  const HeaderName := Ascii("content-length:")

  /** The line starts with the header name, ignoring the case of the line's letters. */
  predicate NamesContentLength(line: seq<byte>)
  {
    |line| >= |HeaderName| && forall i :: 0 <= i < |HeaderName| ==> Lower(line[i]) == HeaderName[i]
  }

  /**
   * `CONTENT_LENGTH_REGEX.match(line)` and its group: the name at the start of
   * the line in any case, at least one whitespace, then the digit run.
   */
  function ContentLength(line: seq<byte>): (r: Option<nat>)
    ensures r.Some? ==> NamesContentLength(line)
  {
    if !NamesContentLength(line) then None
    else
      var rest := line[|HeaderName|..];
      var ws := SpaceRun(rest);
      var ds := DigitRun(rest[ws..]);
      if ws == 0 || ds == 0 then None else Some(DigitsValue(rest[ws..][..ds]))
  }

  // ---------------------------------------------------------------------------
  // Reading. The functions take the bytes not read yet and also return how
  // many of them they consume.

  /** The length of the first line of `s`, its "\n" included; all of `s` when it has none. */
  function LineLength(s: seq<byte>): (n: nat)
    ensures n <= |s|
  {
    if s == [] then 0 else if s[0] == LF then 1 else 1 + LineLength(s[1..])
  }

  /** A message as `read` returns it: the header lines and the body. */
  datatype Message = Message(headers: seq<seq<byte>>, body: seq<byte>)

  /** What the header loop has read: the lines and the Content-Length seen. */
  datatype Headers = Headers(lines: seq<seq<byte>>, length: Option<nat>)

  /** One non-blank header line: appended, and a second Content-Length is an assertion failure. */
  function AddLine(acc: Headers, line: seq<byte>): Result<Headers>
  {
    var n := ContentLength(line);
    if n.Some? && acc.length.Some? then Err(AssertionError)
    else Ok(Headers(acc.lines + [line], if n.Some? then n else acc.length))
  }

  /** The header loop: lines until a blank one or the end of the stream. */
  function ScanHeaders(s: seq<byte>, acc: Headers): (r: (Result<Headers>, nat))
    ensures r.1 <= |s|
    decreases |s|
  {
    var e := LineLength(s);
    var line := s[..e];
    if e == 0 || Blank(line) then (Ok(acc), e)
    else
      match AddLine(acc, line)
      case Err(err) => (Err(err), e)
      case Ok(next) =>
        var r := ScanHeaders(s[e..], next);
        (r.0, e + r.1)
  }

  /** `read()`: the headers, then Content-Length bytes of body (fewer when the stream ends first). */
  function ReadMessage(s: seq<byte>): (Result<Option<Message>>, nat)
  {
    var scan := ScanHeaders(s, Headers([], None));
    TakeBody(s, scan.0, scan.1)
  }

  /** `read(n)` at `c`: `n` bytes, or what is left of the stream when it ends first. */
  function BodyOf(s: seq<byte>, c: nat, n: nat): (body: seq<byte>)
    requires c <= |s|
    ensures |body| == if c + n <= |s| then n else |s| - c
  {
    if c + n <= |s| then s[c..c + n] else s[c..]
  }

  /** What `read()` does once the header loop has consumed `c` bytes of `s` with outcome `h`. */
  function TakeBody(s: seq<byte>, h: Result<Headers>, c: nat): (Result<Option<Message>>, nat)
    requires c <= |s|
  {
    if h.Err? then (Err(h.error), c)
    else if h.value.length.None? then (Ok(None), c)
    else
      var n := h.value.length.value;
      var body := BodyOf(s, c, n);
      (Ok(Some(Message(h.value.lines, body))), c + |body|)
  }

  // ---------------------------------------------------------------------------
  // Writing.

  const LengthPrefix := Ascii("Content-Length: ")
  const CrLf: seq<byte> := [CR, LF]
  const TypeText := Ascii("Content-Type: ") + Ascii("application/") + Ascii("vscode-jsonrpc; ") + Ascii("charset=utf-8")
  const TypeLine := TypeText + CrLf

  function LengthLine(n: nat): seq<byte> { LengthPrefix + Decimal(n) + CrLf }

  /** What `write` puts on the stream for a body of encoded JSON text. */
  function Frame(body: seq<byte>): seq<byte>
  {
    LengthLine(|body|) + TypeLine + CrLf + body
  }

  // ---------------------------------------------------------------------------
  // Reading what was written.

  /** A line with a single "\n", at its end. */
  predicate OneLine(line: seq<byte>)
  {
    |line| > 0 && line[|line| - 1] == LF && forall i :: 0 <= i < |line| - 1 ==> line[i] != LF
  }

  lemma {:induction false} LineLengthOf(line: seq<byte>, tail: seq<byte>)
    requires OneLine(line)
    ensures LineLength(line + tail) == |line|
    decreases |line|
  {
    if |line| > 1 {
      assert (line + tail)[1..] == line[1..] + tail;
      LineLengthOf(line[1..], tail);
    }
  }

  /** No line break in a piece of header text. */
  predicate Plain(s: seq<byte>) { forall i :: 0 <= i < |s| ==> s[i] != LF && s[i] != CR }

  lemma LengthPrefixFacts(p: seq<byte>)
    requires p == LengthPrefix
    ensures |p| == |HeaderName| + 1 && p[|HeaderName|] == 32 && Plain(p) && !IsSpace(p[0])
    ensures forall i :: 0 <= i < |HeaderName| ==> Lower(p[i]) == HeaderName[i]
  {
  }

  lemma TypeTextFacts(t: seq<byte>)
    requires t == TypeText
    ensures Plain(t) && |t| > 8 && !IsSpace(t[0]) && Lower(t[8]) != HeaderName[8]
  {
    var a, b, c, d := Ascii("Content-Type: "), Ascii("application/"), Ascii("vscode-jsonrpc; "), Ascii("charset=utf-8");
    assert Plain(a) && Plain(b);
    assert Plain(c) && Plain(d);
    assert t == a + b + c + d;
  }

  /** The first header line announces the body's length. */
  lemma LengthLineParses(n: nat)
    ensures OneLine(LengthLine(n)) && !Blank(LengthLine(n))
    ensures ContentLength(LengthLine(n)) == Some(n)
  {
    var p := LengthPrefix;
    var d := Decimal(n);
    var line := LengthLine(n);
    LengthPrefixFacts(p);
    assert line == p + d + CrLf;
    assert line[0] == p[0];
    assert NamesContentLength(line) by {
      forall i | 0 <= i < |HeaderName| ensures Lower(line[i]) == HeaderName[i] {
        assert line[i] == p[i];
      }
    }
    assert line[|HeaderName|..] == [32] + d + CrLf;
    SpaceThenDigits(d);
    DecimalValue(n);
  }

  /** After the name: one space, then the digit run `d`, ended by CR. */
  lemma SpaceThenDigits(d: seq<byte>)
    requires |d| >= 1 && forall i :: 0 <= i < |d| ==> IsDigit(d[i])
    ensures var rest := [32] + d + CrLf;
            SpaceRun(rest) == 1 && DigitRun(rest[1..]) == |d| && rest[1..][..|d|] == d
  {
    var rest := [32] + d + CrLf;
    assert rest[1..] == d + CrLf;
    assert SpaceRun(rest) == 1 by {
      assert !IsSpace(rest[1]);
    }
    assert DigitRun(rest[1..]) == |d| by {
      assert forall i :: 0 <= i < |d| ==> rest[1..][i] == d[i];
      assert (d + CrLf)[|d|] == CR;
    }
  }

  /** The second header line is not a Content-Length line. */
  lemma TypeLineParses()
    ensures OneLine(TypeLine) && !Blank(TypeLine) && ContentLength(TypeLine) == None
  {
    TypeTextFacts(TypeText);
    assert TypeLine[8] == TypeText[8] && TypeLine[0] == TypeText[0];
    assert TypeLine[|TypeLine| - 1] == LF;
  }

  /** The header loop over a list of lines, without the stream. */
  function FoldHeaders(lines: seq<seq<byte>>, acc: Headers): Result<Headers>
  {
    if lines == [] then Ok(acc)
    else
      match AddLine(acc, lines[0])
      case Err(err) => Err(err)
      case Ok(next) => FoldHeaders(lines[1..], next)
  }

  function Concat(lines: seq<seq<byte>>): seq<byte>
  {
    if lines == [] then [] else lines[0] + Concat(lines[1..])
  }

  /** Header lines one after another, then the blank line: the loop folds them and stops after the blank line. */
  lemma {:induction false} ScanLaidOut(lines: seq<seq<byte>>, acc: Headers, tail: seq<byte>, s: seq<byte>)
    requires forall i :: 0 <= i < |lines| ==> OneLine(lines[i]) && !Blank(lines[i])
    requires FoldHeaders(lines, acc).Ok? && s == Concat(lines) + CrLf + tail
    ensures ScanHeaders(s, acc).0 == FoldHeaders(lines, acc) && ScanHeaders(s, acc).1 == |Concat(lines)| + 2
    decreases |lines|
  {
    if lines == [] {
      assert OneLine(CrLf) && Blank(CrLf);
      assert s == CrLf + tail;
      assert FoldHeaders(lines, acc) == Ok(acc);
      ScanStep(s, acc, CrLf, tail);
    } else {
      var line, more := lines[0], Concat(lines[1..]) + CrLf + tail;
      assert s == line + more;
      ScanStep(s, acc, line, more);
      ScanLaidOut(lines[1..], AddLine(acc, line).value, tail, more);
    }
  }


  /** Reading a frame gives back its two header lines and the original body, and consumes exactly the frame. */
  lemma ReadFrame(body: seq<byte>, tail: seq<byte>)
    ensures ReadMessage(Frame(body) + tail).0 == Ok(Some(Message([LengthLine(|body|), TypeLine], body)))
    ensures ReadMessage(Frame(body) + tail).1 == |Frame(body)|
  {
    LengthLineParses(|body|);
    TypeLineParses();
    ReadTwoLines(LengthLine(|body|), TypeLine, body, tail);
  }


  /** Two header lines, the first giving the body's length, then the blank line and the body. */
  lemma ReadTwoLines(l1: seq<byte>, l2: seq<byte>, body: seq<byte>, tail: seq<byte>)
    requires OneLine(l1) && OneLine(l2) && !Blank(l1) && !Blank(l2)
    requires ContentLength(l1) == Some(|body|) && ContentLength(l2) == None
    ensures ReadMessage(l1 + l2 + CrLf + body + tail).0 == Ok(Some(Message([l1, l2], body)))
    ensures ReadMessage(l1 + l2 + CrLf + body + tail).1 == |l1| + |l2| + 2 + |body|
  {
    var s := l1 + l2 + CrLf + body + tail;
    var c := |l1| + |l2| + 2;
    var h := Headers([l1, l2], Some(|body|));
    assert c + |body| <= |s| && s[c..c + |body|] == body by {
      TwoLinesLayout(l1, l2, body, tail, s);
    }
    assert ScanHeaders(s, Headers([], None)).0 == Ok(h) && ScanHeaders(s, Headers([], None)).1 == c by {
      TwoLinesLayout(l1, l2, body, tail, s);
      ScanTwoLines(l1, l2, |body|, body + tail, s);
    }
    ReadBody(s, h, c);
  }

  lemma TwoLinesLayout(l1: seq<byte>, l2: seq<byte>, body: seq<byte>, tail: seq<byte>, s: seq<byte>)
    requires s == l1 + l2 + CrLf + body + tail
    ensures s == l1 + l2 + CrLf + (body + tail)
    ensures |s| >= |l1| + |l2| + 2 + |body|
    ensures s[|l1| + |l2| + 2..|l1| + |l2| + 2 + |body|] == body
  {
  }



  /** The header loop reads the two lines and stops after the blank line. */
  lemma ScanTwoLines(l1: seq<byte>, l2: seq<byte>, n: nat, rest: seq<byte>, s: seq<byte>)
    requires OneLine(l1) && OneLine(l2) && !Blank(l1) && !Blank(l2)
    requires ContentLength(l1) == Some(n) && ContentLength(l2) == None
    requires s == l1 + l2 + CrLf + rest
    ensures ScanHeaders(s, Headers([], None)).0 == Ok(Headers([l1, l2], Some(n)))
    ensures ScanHeaders(s, Headers([], None)).1 == |l1| + |l2| + 2
  {
    var lines: seq<seq<byte>> := [l1, l2];
    ConcatTwo(l1, l2, rest, s);
    FoldTwo(l1, l2, n);
    ScanLaidOut(lines, Headers([], None), rest, s);
  }


  lemma ConcatTwo(l1: seq<byte>, l2: seq<byte>, rest: seq<byte>, s: seq<byte>)
    requires s == l1 + l2 + CrLf + rest
    ensures Concat([l1, l2]) == l1 + l2 && s == Concat([l1, l2]) + CrLf + rest
  {
    assert [l1, l2][1..] == [l2];
    assert Concat([l2]) == l2 + Concat([]);
  }


  lemma FoldTwo(l1: seq<byte>, l2: seq<byte>, n: nat)
    requires ContentLength(l1) == Some(n) && ContentLength(l2) == None
    ensures FoldHeaders([l1, l2], Headers([], None)) == Ok(Headers([l1, l2], Some(n)))
  {
    var lines: seq<seq<byte>> := [l1, l2];
    var none: seq<seq<byte>> := [];
    var h1 := Headers([l1], Some(n));
    assert lines[1..] == [l2];
    assert none + [l1] == [l1] && [l1] + [l2] == lines;
    assert AddLine(Headers(none, None), l1) == Ok(h1);
    assert AddLine(h1, l2) == Ok(Headers(lines, Some(n)));
    assert FoldHeaders(lines[1..], h1) == FoldHeaders([], Headers(lines, Some(n)));
  }

  /** Once the headers give a length that the stream holds, `read` returns that many bytes after them. */
  lemma ReadBody(s: seq<byte>, h: Headers, c: nat)
    requires ScanHeaders(s, Headers([], None)).0 == Ok(h) && ScanHeaders(s, Headers([], None)).1 == c
    requires h.length.Some? && c + h.length.value <= |s|
    ensures ReadMessage(s).0 == Ok(Some(Message(h.lines, s[c..c + h.length.value])))
    ensures ReadMessage(s).1 == c + h.length.value
  {
    TakeBodyAll(s, h, c);
  }

  lemma TakeBodyAll(s: seq<byte>, h: Headers, c: nat)
    requires h.length.Some? && c + h.length.value <= |s|
    ensures TakeBody(s, Ok(h), c).0 == Ok(Some(Message(h.lines, s[c..c + h.length.value])))
    ensures TakeBody(s, Ok(h), c).1 == c + h.length.value
  {
  }



  /** The header loop takes one whole line at a time. */
  lemma ScanStep(s: seq<byte>, acc: Headers, line: seq<byte>, rest: seq<byte>)
    requires OneLine(line) && s == line + rest
    ensures Blank(line) ==> ScanHeaders(s, acc) == (Ok(acc), |line|)
    ensures !Blank(line) && AddLine(acc, line).Err? ==> ScanHeaders(s, acc) == (AddLine(acc, line), |line|)
    ensures !Blank(line) && AddLine(acc, line).Ok? ==>
              var r := ScanHeaders(rest, AddLine(acc, line).value);
              ScanHeaders(s, acc) == (r.0, |line| + r.1)
  {
    LineLengthOf(line, rest);
    assert s[..|line|] == line && s[|line|..] == rest;
  }

  /** A second Content-Length header fails the assertion. */
  lemma SecondLength(l1: seq<byte>, l2: seq<byte>, tail: seq<byte>)
    requires OneLine(l1) && OneLine(l2) && !Blank(l1) && !Blank(l2)
    requires ContentLength(l1).Some? && ContentLength(l2).Some?
    ensures ReadMessage(l1 + l2 + tail).0 == Err(AssertionError)
  {
    var h0 := Headers([], None);
    var h1 := AddLine(h0, l1).value;
    ScanStep(l1 + l2 + tail, h0, l1, l2 + tail);
    ScanStep(l2 + tail, h1, l2, tail);
    assert ScanHeaders(l1 + l2 + tail, h0).0 == Err(AssertionError);
  }

  /** Without a Content-Length header, `read` returns None and consumes only the header lines. */
  lemma NoLengthNoBody(lines: seq<seq<byte>>, tail: seq<byte>)
    requires forall i :: 0 <= i < |lines| ==> OneLine(lines[i]) && !Blank(lines[i])
    requires forall i :: 0 <= i < |lines| ==> ContentLength(lines[i]).None?
    ensures ReadMessage(Concat(lines) + CrLf + tail).0 == Ok(None)
    ensures ReadMessage(Concat(lines) + CrLf + tail).1 == |Concat(lines)| + 2
  {
    NoLengthFold(lines, Headers([], None));
    ScanLaidOut(lines, Headers([], None), tail, Concat(lines) + CrLf + tail);
  }

  lemma {:induction false} NoLengthFold(lines: seq<seq<byte>>, acc: Headers)
    requires forall i :: 0 <= i < |lines| ==> ContentLength(lines[i]).None?
    ensures FoldHeaders(lines, acc) == Ok(Headers(acc.lines + lines, acc.length))
    decreases |lines|
  {
    if lines != [] {
      assert AddLine(acc, lines[0]) == Ok(Headers(acc.lines + [lines[0]], acc.length));
      assert FoldHeaders(lines, acc) == FoldHeaders(lines[1..], Headers(acc.lines + [lines[0]], acc.length));
      NoLengthFold(lines[1..], Headers(acc.lines + [lines[0]], acc.length));
      assert acc.lines + [lines[0]] + lines[1..] == acc.lines + lines;
    } else {
      assert acc.lines + lines == acc.lines;
    }
  }

  // ---------------------------------------------------------------------------
  // The header loop on the stream, one `readline()` at a time.

  /** `input[pos..next]` is the line `readline()` returns at `pos`. */
  predicate ReadsLine(input: seq<byte>, pos: nat, next: nat)
  {
    pos <= next <= |input| && next == pos + LineLength(input[pos..])
  }

  lemma LineSlices(input: seq<byte>, pos: nat, next: nat)
    requires ReadsLine(input, pos, next)
    ensures input[pos..][..next - pos] == input[pos..next] && input[pos..][next - pos..] == input[next..]
  {
  }

  /** A blank line (or the end of the stream) ends the loop. */
  lemma ScanAtStop(input: seq<byte>, pos: nat, next: nat, acc: Headers)
    requires ReadsLine(input, pos, next) && Blank(input[pos..next])
    ensures ScanHeaders(input[pos..], acc).0 == Ok(acc) && ScanHeaders(input[pos..], acc).1 == next - pos
  {
    LineSlices(input, pos, next);
    ScanStop(input[pos..], acc, next - pos, input[pos..next]);
  }

  /** A second Content-Length line ends it with the assertion failure. */
  lemma ScanAtFail(input: seq<byte>, pos: nat, next: nat, acc: Headers)
    requires ReadsLine(input, pos, next) && !Blank(input[pos..next])
    requires ContentLength(input[pos..next]).Some? && acc.length.Some?
    ensures ScanHeaders(input[pos..], acc).0 == Err(AssertionError) && ScanHeaders(input[pos..], acc).1 == next - pos
  {
    LineSlices(input, pos, next);
    ScanFail(input[pos..], acc, next - pos, input[pos..next]);
  }

  lemma ScanStop(s: seq<byte>, acc: Headers, e: nat, line: seq<byte>)
    requires e == LineLength(s) && line == s[..e] && Blank(line)
    ensures ScanHeaders(s, acc).0 == Ok(acc) && ScanHeaders(s, acc).1 == e
  {
  }

  lemma ScanFail(s: seq<byte>, acc: Headers, e: nat, line: seq<byte>)
    requires e == LineLength(s) && line == s[..e] && !Blank(line)
    requires ContentLength(line).Some? && acc.length.Some?
    ensures ScanHeaders(s, acc).0 == Err(AssertionError) && ScanHeaders(s, acc).1 == e
  {
  }

  /** Any other line is added and the loop goes on after it. */
  lemma ScanAtGo(input: seq<byte>, pos: nat, next: nat, acc: Headers)
    requires ReadsLine(input, pos, next) && !Blank(input[pos..next])
    requires !(ContentLength(input[pos..next]).Some? && acc.length.Some?)
    ensures var line := input[pos..next];
            var after := Headers(acc.lines + [line], if ContentLength(line).Some? then ContentLength(line) else acc.length);
            ScanHeaders(input[pos..], acc).0 == ScanHeaders(input[next..], after).0 &&
            ScanHeaders(input[pos..], acc).1 == next - pos + ScanHeaders(input[next..], after).1
  {
    LineSlices(input, pos, next);
    var line := input[pos..next];
    AddLineOk(acc, line);
    ScanGo(input[pos..], acc, next - pos, line, input[next..]);
  }

  lemma AddLineOk(acc: Headers, line: seq<byte>)
    requires !(ContentLength(line).Some? && acc.length.Some?)
    ensures AddLine(acc, line) == Ok(Headers(acc.lines + [line], if ContentLength(line).Some? then ContentLength(line) else acc.length))
  {
  }

  /** The loop's turn for a line that is added, on the bytes not read yet. */
  lemma ScanGo(s: seq<byte>, acc: Headers, e: nat, line: seq<byte>, rest: seq<byte>)
    requires e == LineLength(s) && line == s[..e] && rest == s[e..]
    requires e != 0 && !Blank(line) && AddLine(acc, line).Ok?
    ensures ScanHeaders(s, acc).0 == ScanHeaders(rest, AddLine(acc, line).value).0
    ensures ScanHeaders(s, acc).1 == e + ScanHeaders(rest, AddLine(acc, line).value).1
  {
  }

  lemma ReadFailed(s: seq<byte>, e: PyError, c: nat)
    requires ScanHeaders(s, Headers([], None)).0 == Err(e) && ScanHeaders(s, Headers([], None)).1 == c
    ensures ReadMessage(s).0 == Err(e) && ReadMessage(s).1 == c
  {
  }

  lemma ReadStopped(s: seq<byte>, h: Headers, c: nat)
    requires ScanHeaders(s, Headers([], None)).0 == Ok(h) && ScanHeaders(s, Headers([], None)).1 == c
    requires h.length.None?
    ensures ReadMessage(s).0 == Ok(None) && ReadMessage(s).1 == c
  {
  }

  /** With a Content-Length of `n` after the headers' `c` bytes: `n` bytes of body, or what is left of the stream. */
  lemma ReadWithBody(s: seq<byte>, h: Headers, c: nat)
    requires ScanHeaders(s, Headers([], None)).0 == Ok(h) && ScanHeaders(s, Headers([], None)).1 == c
    requires h.length.Some?
    ensures c <= |s|
    ensures ReadMessage(s).0 == Ok(Some(Message(h.lines, BodyOf(s, c, h.length.value))))
    ensures ReadMessage(s).1 == c + |BodyOf(s, c, h.length.value)|
  {
    TakeBodySome(s, h, c);
  }

  lemma TakeBodySome(s: seq<byte>, h: Headers, c: nat)
    requires h.length.Some? && c <= |s|
    ensures TakeBody(s, Ok(h), c).0 == Ok(Some(Message(h.lines, BodyOf(s, c, h.length.value))))
    ensures TakeBody(s, Ok(h), c).1 == c + |BodyOf(s, c, h.length.value)|
  {
  }

  /** The bytes `read(n)` takes at `pos` are the body as seen from `start`. */
  lemma BodyAt(input: seq<byte>, start: nat, pos: nat, end: nat, n: nat, body: seq<byte>)
    requires start <= pos <= |input|
    requires end == (if pos + n <= |input| then pos + n else |input|)
    requires body == input[pos..end]
    ensures pos - start <= |input[start..]|
    ensures body == BodyOf(input[start..], pos - start, n) && end - start == pos - start + |body|
  {
    var s, c := input[start..], pos - start;
    if c + n <= |s| {
      assert s[c..c + n] == body;
    } else {
      assert s[c..] == body;
    }
  }

  /** The stream: the bytes still to read with the read position, and the bytes written. */
  class JsonRpcStream {
    var input: seq<byte>
    var pos: nat
    var output: seq<byte>

    predicate Valid()
      reads this
    {
      pos <= |input|
    }

    constructor (input: seq<byte>)
      ensures Valid() && this.input == input && pos == 0 && output == []
    {
      this.input := input;
      pos := 0;
      output := [];
    }

    /** `readline()`: up to and including the next "\n"; empty at the end of the stream. */
    method ReadLine() returns (line: seq<byte>)
      requires Valid()
      modifies this
      ensures Valid() && input == old(input) && output == old(output)
      ensures pos == old(pos) + LineLength(input[old(pos)..]) && line == input[old(pos)..pos]
    {
      var e := pos;
      while e < |input| && input[e] != LF
        invariant pos <= e <= |input|
        invariant LineLength(input[pos..]) == e - pos + LineLength(input[e..])
      {
        assert input[e..][1..] == input[e + 1..];
        e := e + 1;
      }
      if e < |input| {
        e := e + 1;
      }
      line := input[pos..e];
      pos := e;
    }

    /** `read(n)`: up to `n` bytes. */
    method ReadBytes(n: nat) returns (bytes: seq<byte>)
      requires Valid()
      modifies this
      ensures Valid() && input == old(input) && output == old(output)
      ensures pos == (if old(pos) + n <= |input| then old(pos) + n else |input|)
      ensures bytes == input[old(pos)..pos]
    {
      var end := if pos + n <= |input| then pos + n else |input|;
      bytes := input[pos..end];
      pos := end;
    }

    /** The header lines of `read()`, up to the blank line, the end of the stream or a second Content-Length. */
    method ReadHeaders() returns (h: Result<Headers>)
      requires Valid()
      modifies this
      ensures Valid() && input == old(input) && output == old(output)
      ensures h == ScanHeaders(input[old(pos)..], Headers([], None)).0
      ensures pos == old(pos) + ScanHeaders(input[old(pos)..], Headers([], None)).1
    {
      ghost var start := pos;
      ghost var scanned := ScanHeaders(input[start..], Headers([], None));
      var headers: seq<seq<byte>> := [];
      var length: Option<nat> := None;
      while true
        invariant Valid() && input == old(input) && output == old(output) && start <= pos
        invariant ScanHeaders(input[pos..], Headers(headers, length)).0 == scanned.0
        invariant pos - start + ScanHeaders(input[pos..], Headers(headers, length)).1 == scanned.1
        decreases |input| - pos
      {
        ghost var before := pos;
        var line := ReadLine();
        if Blank(line) {
          ScanAtStop(input, before, pos, Headers(headers, length));
          break;
        }
        var n := ContentLength(line);
        if n.Some? && length.Some? {
          ScanAtFail(input, before, pos, Headers(headers, length));
          return Err(AssertionError);
        }
        ScanAtGo(input, before, pos, Headers(headers, length));
        headers := headers + [line];
        if n.Some? {
          length := n;
        }
      }
      h := Ok(Headers(headers, length));
    }

    /** `read()`: the header loop, then the body when a Content-Length was seen. */
    method Read() returns (r: Result<Option<Message>>)
      requires Valid()
      modifies this
      ensures Valid() && input == old(input) && output == old(output)
      ensures r == ReadMessage(input[old(pos)..]).0 && pos == old(pos) + ReadMessage(input[old(pos)..]).1
    {
      ghost var start := pos;
      var h := ReadHeaders();
      if h.Err? {
        ReadFailed(input[start..], h.error, pos - start);
        return Err(h.error);
      }
      if h.value.length.None? {
        ReadStopped(input[start..], h.value, pos - start);
        return Ok(None);
      }
      ghost var bodyStart := pos;
      var body := ReadBytes(h.value.length.value);
      BodyAt(input, start, bodyStart, pos, h.value.length.value, body);
      ReadWithBody(input[start..], h.value, bodyStart - start);
      r := Ok(Some(Message(h.value.lines, body)));
    }

    /** `write(data)`, given the text `json.dumps(data)` produced. */
    method Write(json: string)
      modifies this
      ensures input == old(input) && pos == old(pos)
      ensures output == old(output) + Frame(Utf8(json))
    {
      var body := Utf8(json);
      output := output + LengthLine(|body|) + TypeLine + CrLf + body;
    }
  }
}
