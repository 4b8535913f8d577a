/** Reading usage off a stream as it passes: the rolling tail buffer, and the incremental line scanner
    (internal/router/capture.go, internal/router/anthropic.go). A byte is a char. */
module Captures {
  datatype Option<+T> = None | Some(value: T)

  // ----- lines --------------------------------------------------------------------------

  /** One more character in front of the pieces. */
  function Push(c: char, pieces: seq<string>): (more: seq<string>)
    requires |pieces| > 0
    ensures |more| > 0
  {
    if c == '\n' then [""] + pieces else [[c] + pieces[0]] + pieces[1..]
  }

  /** The pieces between newlines, the last one unterminated. */
  function Split(s: string): (lines: seq<string>)
    ensures |lines| > 0
  {
    if s == [] then [""] else Push(s[0], Split(s[1..]))
  }

  function Complete(s: string): seq<string> {
    Split(s)[..|Split(s)| - 1]
  }

  function Partial(s: string): string {
    Split(s)[|Split(s)| - 1]
  }

  predicate NoNewline(s: string) {
    '\n' !in s
  }

  lemma {:induction false} SplitPlain(s: string)
    requires NoNewline(s)
    ensures Split(s) == [s]
  {
    if s != [] {
      SplitPlain(s[1..]);
      assert [s[0]] + s[1..] == s;
    }
  }

  /** Splitting goes on from the unterminated piece. */
  lemma {:induction false} SplitAppend(s: string, b: string)
    ensures Split(s + b) == Complete(s) + Split(Partial(s) + b)
  {
    hide Split, Push;
    if s == [] {
      assert s + b == b;
      SplitEmpty();
    } else {
      SplitAppend(s[1..], b);
      assert (s + b)[1..] == s[1..] + b;
      SplitCons(s);
      SplitCons(s + b);
      var (done, rest) := (Complete(s[1..]), Partial(s[1..]));
      assert Split(s[1..]) == done + [rest];
      PushAppend(s[0], done, rest, b);
    }
  }

  lemma SplitEmpty()
    ensures Split("") == [""]
  {
  }

  lemma SplitCons(s: string)
    requires s != []
    ensures Split(s) == Push(s[0], Split(s[1..]))
  {
  }

  lemma PushAppend(c: char, done: seq<string>, rest: string, b: string)
    ensures var pieces := Push(c, done + [rest]);
            Push(c, done + Split(rest + b)) == pieces[..|pieces| - 1] + Split(pieces[|pieces| - 1] + b)
  {
    if done != [] {
      PushConcat(c, done, Split(rest + b));
      PushConcat(c, done, [rest]);
      hide Push, Split;
      assert (Push(c, done) + [rest])[..|Push(c, done)|] == Push(c, done);
    } else {
      assert [] + Split(rest + b) == Split(rest + b) && [] + [rest] == [rest];
      PushFirst(c, rest, b);
    }
  }

  lemma PushConcat(c: char, a: seq<string>, b: seq<string>)
    requires a != []
    ensures Push(c, a + b) == Push(c, a) + b
  {
  }

  lemma PushFirst(c: char, rest: string, b: string)
    ensures var pieces := Push(c, [rest]);
            Push(c, Split(rest + b)) == pieces[..|pieces| - 1] + Split(pieces[|pieces| - 1] + b)
  {
    if c != '\n' {
      assert ([c] + rest) + b == [c] + (rest + b);
      assert ([c] + (rest + b))[1..] == rest + b;
    }
  }

  lemma {:induction false} PartialHasNoNewline(s: string)
    ensures NoNewline(Partial(s))
  {
    if s != [] {
      PartialHasNoNewline(s[1..]);
    }
  }

  /** Cutting at a newline cuts between lines. */
  lemma SplitJoin(a: string, b: string)
    ensures Split(a + "\n" + b) == Split(a) + Split(b)
  {
    hide Split, Push;
    SplitAppend(a, "\n" + b);
    assert a + "\n" + b == a + ("\n" + b);
    PartialHasNoNewline(a);
    SplitTerminated(Partial(a), b);
    assert Split(a) == Complete(a) + [Partial(a)];
  }

  lemma {:induction false} SplitTerminated(line: string, rest: string)
    requires NoNewline(line)
    ensures Split(line + ("\n" + rest)) == [line] + Split(rest)
  {
    if line == [] {
      assert line + ("\n" + rest) == "\n" + rest;
      assert ("\n" + rest)[1..] == rest;
    } else {
      SplitTerminated(line[1..], rest);
      assert (line + ("\n" + rest))[1..] == line[1..] + ("\n" + rest);
      PushConcat(line[0], [line[1..]], Split(rest));
      assert [line[0]] + line[1..] == line;
    }
  }

  // ----- the tail buffer ----------------------------------------------------------------

  function Tail(s: string, max: nat): string {
    if |s| <= max then s else s[|s| - max..]
  }

  lemma TailAppend(s: string, chunk: string, max: nat)
    ensures Tail(Tail(s, max) + chunk, max) == Tail(s + chunk, max)
  {
  }

  /** Passes the stream on and keeps its last max bytes. */
  class TailCapture {
    const max: nat
    var buf: string
    ghost var stream: string

    ghost predicate Valid()
      reads this
    {
      max > 0 && buf == Tail(stream, max)
    }

    constructor (limit: int)
      ensures Valid() && stream == "" && max == if limit <= 0 then 65536 else limit
    {
      max := if limit <= 0 then 65536 else limit;
      buf, stream := "", "";
    }

    method Read(chunk: string)
      requires Valid()
      modifies this
      ensures Valid() && stream == old(stream) + chunk
    {
      stream := stream + chunk;
      if |chunk| == 0 {
        assert stream == old(stream);
      } else {
        TailAppend(old(stream), chunk, max);
        buf := buf + chunk;
        if |buf| > max {
          buf := buf[|buf| - max..];
        }
      }
    }
  }

  // ----- usage off the tail -------------------------------------------------------------

  predicate Space(c: char) {
    c == ' ' || c == '\t' || c == '\n' || c == '\r' || c == '\U{0B}' || c == '\U{0C}'
  }

  function TrimLeft(s: string): string {
    if s != [] && Space(s[0]) then TrimLeft(s[1..]) else s
  }

  function TrimRight(s: string): string {
    if s != [] && Space(s[|s| - 1]) then TrimRight(s[..|s| - 1]) else s
  }

  function TrimSpace(s: string): string {
    TrimRight(TrimLeft(s))
  }

  function TrimReturns(s: string): string {
    if s != [] && s[|s| - 1] == '\r' then TrimReturns(s[..|s| - 1]) else s
  }

  const DATA := "data:"
  const DONE := "[DONE]"

  /** What a line says about usage; parse is what the JSON decoder makes of its payload, None if it says
      nothing. */
  function LineUsage<U>(parse: string -> Option<U>, line: string): Option<U> {
    var l := TrimReturns(line);
    if !(DATA <= l) then None
    else
      var data := TrimSpace(l[|DATA|..]);
      if data == [] || data == DONE then None else parse(data)
  }

  /** The last of the lines that says anything. */
  function LastUsage<U>(parse: string -> Option<U>, lines: seq<string>): Option<U> {
    if lines == [] then None
    else
      var u := LineUsage(parse, lines[|lines| - 1]);
      if u.Some? then u else LastUsage(parse, lines[..|lines| - 1])
  }

  predicate AllSpace(s: string) {
    forall k | 0 <= k < |s| :: Space(s[k])
  }

  /** Begins and ends with something that is no space; nothing at all will do. */
  predicate Trim(s: string) {
    s != [] ==> !Space(s[0]) && !Space(s[|s| - 1])
  }

  lemma {:induction false} TrimLeftSays(a: string, s: string)
    requires AllSpace(a) && (s != [] ==> !Space(s[0]))
    ensures TrimLeft(a + s) == s
  {
    if a == [] {
      assert a + s == s;
    } else {
      assert (a + s)[1..] == a[1..] + s;
      TrimLeftSays(a[1..], s);
    }
  }

  lemma {:induction false} TrimRightSays(s: string, b: string)
    requires AllSpace(b) && (s != [] ==> !Space(s[|s| - 1]))
    ensures TrimRight(s + b) == s
  {
    if b == [] {
      assert s + b == s;
    } else {
      assert (s + b)[..|s + b| - 1] == s + b[..|b| - 1];
      TrimRightSays(s, b[..|b| - 1]);
    }
  }

  /** Whatever space is put around a text, trimming gives it back. */
  lemma TrimSays(a: string, s: string, b: string)
    requires AllSpace(a) && Trim(s) && AllSpace(b)
    ensures TrimSpace(a + s + b) == s
  {
    if s == [] {
      assert a + s + b == a + b + [];
      TrimLeftSays(a + b, []);
    } else {
      assert a + s + b == a + (s + b);
      TrimLeftSays(a, s + b);
      TrimRightSays(s, b);
    }
  }

  lemma {:induction false} ReturnsSay(s: string, b: string)
    requires AllSpace(b) && s != [] && s[|s| - 1] != '\r'
    ensures exists c :: AllSpace(c) && TrimReturns(s + b) == s + c
  {
    if b == [] {
      assert s + b == s + [];
      assert AllSpace([]);
    } else if b[|b| - 1] == '\r' {
      assert (s + b)[..|s + b| - 1] == s + b[..|b| - 1];
      ReturnsSay(s, b[..|b| - 1]);
    }
  }

  lemma {:induction false} ReturnsOnly(line: string)
    ensures TrimReturns(line) <= line
  {
    if line != [] && line[|line| - 1] == '\r' {
      ReturnsOnly(line[..|line| - 1]);
    }
  }

  /** A data line says what the decoder makes of its payload, however much space stands around that and whatever
      line end behind it; the end marker and an empty payload say nothing, and neither does any other line. */
  lemma DataLineSays<U>(parse: string -> Option<U>, a: string, payload: string, b: string)
    requires AllSpace(a) && Trim(payload) && AllSpace(b)
    ensures LineUsage(parse, DATA + a + payload + b) == if payload == "" || payload == "[DONE]" then None else parse(payload)
    ensures forall line | !("data:" <= line) :: LineUsage(parse, line).None?
  {
    forall line | !("data:" <= line)
      ensures LineUsage(parse, line).None?
    {
      ReturnsOnly(line);
    }
    if payload == [] {
      assert DATA + a + payload + b == DATA + (a + b);
      ReturnsSay(DATA, a + b);
      var c :| AllSpace(c) && TrimReturns(DATA + (a + b)) == DATA + c;
      assert (DATA + c)[|DATA|..] == [] + [] + c;
      TrimSays([], [], c);
    } else {
      var s := DATA + a + payload;
      ReturnsSay(s, b);
      var c :| AllSpace(c) && TrimReturns(s + b) == s + c;
      assert (s + c)[|DATA|..] == a + payload + c;
      TrimSays(a, payload, c);
    }
  }

  method ExtractSseUsage<U>(parse: string -> Option<U>, tail: string) returns (out: Option<U>)
    ensures out == LastUsage(parse, Split(tail))
  {
    hide LineUsage;
    out := None;
    var lines := Split(tail);
    for i := 0 to |lines|
      invariant out == LastUsage(parse, lines[..i])
    {
      assert lines[..i + 1][..i] == lines[..i];
      var u := LineUsage(parse, lines[i]);
      if u.Some? {
        out := u;
      }
    }
    assert lines[..|lines|] == lines;
  }

  lemma {:induction false} LastUsageAppend<U>(parse: string -> Option<U>, a: seq<string>, b: seq<string>)
    ensures LastUsage(parse, a + b) == if LastUsage(parse, b).Some? then LastUsage(parse, b) else LastUsage(parse, a)
  {
    hide LineUsage;
    if b == [] {
      assert a + b == a;
    } else {
      LastUsageAppend(parse, a, b[..|b| - 1]);
      assert (a + b)[..|a + b| - 1] == a + b[..|b| - 1];
    }
  }

  /** A line of the stream starts here. */
  predicate LineStart(s: string, p: nat) {
    p <= |s| && (p == 0 || s[p - 1] == '\n')
  }

  /** From a line start on, what comes before matters only if nothing after it says anything. */
  lemma UsageFromLineStart<U>(parse: string -> Option<U>, s: string, p: nat)
    requires LineStart(s, p) && LastUsage(parse, Split(s[p..])).Some?
    ensures LastUsage(parse, Split(s)) == LastUsage(parse, Split(s[p..]))
  {
    if p > 0 {
      assert s == s[..p - 1] + "\n" + s[p..];
      SplitJoin(s[..p - 1], s[p..]);
      LastUsageAppend(parse, Split(s[..p - 1]), Split(s[p..]));
    } else {
      assert s[0..] == s;
    }
  }

  /** The usage read off the tail is the usage of the whole stream, whenever a line that says something
      about usage starts inside the tail; a first line cut short by the buffer does no harm. */
  lemma TailUsageIsStreamUsage<U>(parse: string -> Option<U>, s: string, max: nat, p: nat)
    requires LineStart(s, p) && |s| - |Tail(s, max)| <= p && LineUsage(parse, Split(s[p..])[0]).Some?
    ensures LastUsage(parse, Split(Tail(s, max))) == LastUsage(parse, Split(s))
    ensures LastUsage(parse, Split(s)).Some?
  {
    hide LineUsage, Split;
    var t := Tail(s, max);
    var cut := |s| - |t|;
    assert t == s[cut..];
    SomeLineSpeaks(parse, Split(s[p..]));
    UsageFromLineStart(parse, s, p);
    assert t[p - cut..] == s[p..];
    UsageFromLineStart(parse, t, p - cut);
  }

  lemma {:induction false} SomeLineSpeaks<U>(parse: string -> Option<U>, lines: seq<string>)
    requires lines != [] && LineUsage(parse, lines[0]).Some?
    ensures LastUsage(parse, lines).Some?
  {
    hide LineUsage;
    if |lines| > 1 {
      SomeLineSpeaks(parse, lines[..|lines| - 1]);
    }
  }

  /** The first piece, and what the newline after it leaves. */
  lemma {:induction false} FirstPiece(t: string) returns (u: string)
    ensures |Split(t)| == 1 ==> Split(t)[0] == t
    ensures |Split(t)| > 1 ==> t == Split(t)[0] + "\n" + u && Split(t)[1..] == Split(u)
  {
    u := "";
    if t != [] {
      var (c, rest) := (t[0], t[1..]);
      assert t == [c] + rest;
      if c == '\n' {
        u := rest;
        assert Split(t) == [""] + Split(rest);
      } else {
        u := FirstPiece(rest);
        assert Split(t) == [[c] + Split(rest)[0]] + Split(rest)[1..];
        assert |Split(t)| > 1 ==> [c] + (Split(rest)[0] + "\n" + u) == [c] + Split(rest)[0] + "\n" + u;
      }
    }
  }

  /** Where the line the buffer cuts into ends. */
  function CutLineEnd(s: string, max: nat): (e: nat)
    ensures e <= |s|
  {
    var t := Tail(s, max);
    SplitStarts(t);
    |s| - |t| + |Split(t)[0]|
  }

  lemma {:induction false} SplitStarts(t: string)
    ensures Split(t)[0] <= t
  {
    if t != [] {
      SplitStarts(t[1..]);
      assert t == [t[0]] + t[1..];
    }
  }

  /** The usage read off the tail is the usage of the whole stream exactly if a line after the one the buffer
      cuts into says something, or what is left of that one says what the stream up to its end says. */
  lemma TailUsageExactly<U>(parse: string -> Option<U>, s: string, max: nat)
    ensures var lines := Split(Tail(s, max));
            LastUsage(parse, lines) == LastUsage(parse, Split(s)) <==>
            LastUsage(parse, lines[1..]).Some? || LineUsage(parse, lines[0]) == LastUsage(parse, Split(s[..CutLineEnd(s, max)]))
  {
    hide LineUsage, Split;
    var t := Tail(s, max);
    var (cut, e, lines) := (|s| - |t|, CutLineEnd(s, max), Split(t));
    assert t == s[cut..];
    var u := FirstPiece(t);
    assert lines == [lines[0]] + lines[1..];
    LastUsageAppend(parse, [lines[0]], lines[1..]);
    OneLineUsage(parse, lines[0]);
    if |lines| == 1 {
      assert lines[1..] == [];
      assert s[..e] == s;
    } else {
      CutThere(s, cut, t, lines[0], u);
      SplitJoin(s[..e], u);
      LastUsageAppend(parse, Split(s[..e]), Split(u));
    }
  }

  lemma OneLineUsage<U>(parse: string -> Option<U>, line: string)
    ensures LastUsage(parse, [line]) == LineUsage(parse, line)
  {
    assert [line][..0] == [];
    hide LineUsage;
  }

  lemma CutThere(s: string, cut: nat, t: string, line: string, u: string)
    requires cut <= |s| && t == s[cut..] && t == line + "\n" + u
    ensures cut + |line| <= |s| && s == s[..cut + |line|] + "\n" + u
  {
    assert s == s[..cut] + t;
    assert s == (s[..cut] + line) + "\n" + u;
    assert s[..cut + |line|] == s[..cut] + line;
  }

  // ----- the incremental scanner --------------------------------------------------------

  const CAP := 0x10_0000

  /** Merged usage; a field is None until something was reported for it. */
  datatype Usage = Usage(input: Option<int>, output: Option<int>, cacheCreation: Option<int>, cacheRead: Option<int>)

  const NOTHING := Usage(None, None, None, None)

  /** What the decoder makes of a payload: the usage of a start or a delta event, or neither. */
  datatype Frame = Carries(u: Usage) | Silent

  function Newer(a: Option<int>, b: Option<int>): Option<int> {
    if b.Some? then b else a
  }

  function Merge(a: Usage, b: Usage): Usage {
    Usage(Newer(a.input, b.input), Newer(a.output, b.output), Newer(a.cacheCreation, b.cacheCreation), Newer(a.cacheRead, b.cacheRead))
  }

  function LineFrame(decode: string -> Frame, line: string): Frame {
    var l := TrimSpace(line);
    if !(DATA <= l) then Silent
    else
      var payload := TrimSpace(l[|DATA|..]);
      if payload == [] || payload[0] != '{' then Silent else decode(payload)
  }

  function MergeLine(decode: string -> Frame, u: Usage, line: string): Usage {
    match LineFrame(decode, line)
    case Carries(more) => Merge(u, more)
    case Silent => u
  }

  function MergeLines(decode: string -> Frame, u: Usage, lines: seq<string>): Usage {
    if lines == [] then u else MergeLine(decode, MergeLines(decode, u, lines[..|lines| - 1]), lines[|lines| - 1])
  }

  /** The same for the scanner, which takes space before a line as well, and looks at objects only. */
  lemma FrameSays(decode: string -> Frame, a: string, b: string, payload: string, c: string)
    requires AllSpace(a) && AllSpace(b) && Trim(payload) && AllSpace(c)
    ensures LineFrame(decode, a + DATA + b + payload + c) == if payload == "" || payload[0] != '{' then Silent else decode(payload)
    ensures forall text | Trim(text) && !("data:" <= text) :: LineFrame(decode, a + text + c).Silent?
  {
    hide TrimSpace;
    forall text | Trim(text) && !("data:" <= text)
      ensures LineFrame(decode, a + text + c).Silent?
    {
      TrimSays(a, text, c);
    }
    if payload == [] {
      EmptyFrameSays(decode, a, b + c);
      assert a + DATA + b + payload + c == a + DATA + (b + c);
    } else {
      FullFrameSays(decode, a, b, payload, c);
    }
  }

  lemma EmptyFrameSays(decode: string -> Frame, a: string, b: string)
    requires AllSpace(a) && AllSpace(b)
    ensures LineFrame(decode, a + DATA + b).Silent?
  {
    hide TrimSpace;
    TrimSays(a, DATA, b);
    assert DATA[|DATA|..] == [] + [] + [];
    TrimSays([], [], []);
  }

  lemma FullFrameSays(decode: string -> Frame, a: string, b: string, payload: string, c: string)
    requires AllSpace(a) && AllSpace(b) && Trim(payload) && AllSpace(c) && payload != ""
    ensures LineFrame(decode, a + DATA + b + payload + c) == if payload[0] != '{' then Silent else decode(payload)
  {
    hide TrimSpace, Space;
    var text := DATA + b + payload;
    assert a + DATA + b + payload + c == a + text + c;
    DataIsTrim(b, payload);
    TrimSays(a, text, c);
    assert text[|DATA|..] == b + payload + [];
    TrimSays(b, payload, []);
  }

  lemma DataIsTrim(b: string, payload: string)
    requires Trim(payload) && payload != ""
    ensures Trim(DATA + b + payload)
  {
  }

  /** Line k is the last to report this field. */
  predicate LastReport(decode: string -> Frame, lines: seq<string>, field: Usage -> Option<int>, k: int) {
    && 0 <= k < |lines| && Reports(decode, lines[k], field)
    && forall j | k < j < |lines| :: !Reports(decode, lines[j], field)
  }

  predicate Reports(decode: string -> Frame, line: string, field: Usage -> Option<int>) {
    LineFrame(decode, line).Carries? && field(LineFrame(decode, line).u).Some?
  }

  /** A field that merging keeps apart from the others is, over any lines, what the last line to report it says. */
  lemma {:induction false} FieldIsLastReport(decode: string -> Frame, lines: seq<string>, field: Usage -> Option<int>)
    requires field(NOTHING).None? && forall a, b :: field(Merge(a, b)) == if field(b).Some? then field(b) else field(a)
    ensures var v := field(MergeLines(decode, NOTHING, lines));
            && (v.Some? <==> exists k :: LastReport(decode, lines, field, k))
            && forall k | LastReport(decode, lines, field, k) :: v == field(LineFrame(decode, lines[k]).u)
  {
    hide LineFrame;
    if lines != [] {
      var n := |lines| - 1;
      var front := lines[..n];
      FieldIsLastReport(decode, front, field);
      if Reports(decode, lines[n], field) {
        assert LastReport(decode, lines, field, n);
      } else {
        forall k: int
          ensures LastReport(decode, lines, field, k) <==> LastReport(decode, front, field, k)
        {
          if LastReport(decode, front, field, k) {
            assert forall j | k < j < n :: !Reports(decode, front[j], field);
          }
        }
      }
    }
  }

  /** Each count of the merged usage is the last one reported for it, whatever the lines in between report. */
  lemma UsageIsLastReported(decode: string -> Frame, lines: seq<string>, k: int)
    ensures var u := MergeLines(decode, NOTHING, lines);
            && (LastReport(decode, lines, (x: Usage) => x.input, k) ==> u.input == LineFrame(decode, lines[k]).u.input)
            && (LastReport(decode, lines, (x: Usage) => x.output, k) ==> u.output == LineFrame(decode, lines[k]).u.output)
            && (LastReport(decode, lines, (x: Usage) => x.cacheCreation, k) ==> u.cacheCreation == LineFrame(decode, lines[k]).u.cacheCreation)
            && (LastReport(decode, lines, (x: Usage) => x.cacheRead, k) ==> u.cacheRead == LineFrame(decode, lines[k]).u.cacheRead)
  {
    hide LineFrame, MergeLines, LastReport;
    FieldIsLastReport(decode, lines, (x: Usage) => x.input);
    FieldIsLastReport(decode, lines, (x: Usage) => x.output);
    FieldIsLastReport(decode, lines, (x: Usage) => x.cacheCreation);
    FieldIsLastReport(decode, lines, (x: Usage) => x.cacheRead);
  }

  datatype Scanned = Scanned(handled: seq<string>, buf: string)

  /** What scanning chunk after chunk handles and keeps. */
  function ScanAll(chunks: seq<string>): Scanned {
    if chunks == [] then Scanned([], "")
    else
      var (before, chunk) := (ScanAll(chunks[..|chunks| - 1]), chunks[|chunks| - 1]);
      var rest := Partial(before.buf + chunk);
      Scanned(before.handled + Complete(before.buf + chunk), if |rest| > CAP then "" else rest)
  }

  lemma ScanMore(chunks: seq<string>, chunk: string)
    ensures var (before, all) := (ScanAll(chunks), ScanAll(chunks).buf + chunk);
            ScanAll(chunks + [chunk]) == Scanned(before.handled + Complete(all), if |Partial(all)| > CAP then "" else Partial(all))
  {
    hide Complete, Partial;
    assert (chunks + [chunk])[..|chunks|] == chunks;
  }

  lemma MergeMore(decode: string -> Frame, u: Usage, lines: seq<string>, line: string)
    ensures MergeLines(decode, u, lines + [line]) == MergeLine(decode, MergeLines(decode, u, lines), line)
  {
    assert (lines + [line])[..|lines|] == lines;
  }

  /** chunks is everything read so far, handled the lines seen so far. */
  class SseScanner {
    const decode: string -> Frame
    var buf: string
    var usage: Usage
    ghost var handled: seq<string>
    ghost var chunks: seq<string>

    ghost predicate Valid()
      reads this
    {
      Scanned(handled, buf) == ScanAll(chunks) && usage == MergeLines(decode, NOTHING, handled)
    }

    constructor (decode: string -> Frame)
      ensures Valid() && chunks == [] && this.decode == decode
    {
      this.decode := decode;
      buf, usage, handled, chunks := "", NOTHING, [], [];
    }

    method HandleLine(line: string)
      modifies this`usage, this`handled
      ensures usage == MergeLine(decode, old(usage), line) && handled == old(handled) + [line]
    {
      handled := handled + [line];
      var f := LineFrame(decode, line);
      if f.Carries? {
        usage := Merge(usage, f.u);
      }
    }

    /** Handles every line the chunk completes, and keeps the rest unless it has grown past the cap. */
    method Scan(chunk: string)
      requires Valid()
      modifies this
      ensures Valid() && chunks == old(chunks) + [chunk]
      ensures handled == old(handled) + Complete(old(buf) + chunk)
      ensures buf == if |Partial(old(buf) + chunk)| > CAP then "" else Partial(old(buf) + chunk)
    {
      hide MergeLine, MergeLines, ScanAll, Split, Complete, Partial, NoNewline;
      buf := buf + chunk;
      ghost var all := buf;
      ghost var done: seq<string> := [];
      assert done + Split(buf) == Split(all);
      while true
        invariant Split(all) == done + Split(buf)
        invariant handled == old(handled) + done && usage == MergeLines(decode, NOTHING, handled)
        invariant chunks == old(chunks)
        decreases |buf|
      {
        var i := IndexOfNewline(buf);
        if i.None? {
          Finished(all, done, buf);
          if |buf| > CAP {
            buf := "";
          }
          ScanMore(chunks, chunk);
          chunks := chunks + [chunk];
          return;
        }
        OneLine(all, done, buf, i.value);
        var line := buf[..i.value];
        MergeMore(decode, NOTHING, handled, line);
        buf := buf[i.value + 1..];
        HandleLine(line);
        done := done + [line];
      }
    }
  }

  lemma Finished(all: string, done: seq<string>, buf: string)
    requires Split(all) == done + Split(buf) && NoNewline(buf)
    ensures Complete(all) == done && Partial(all) == buf
  {
    SplitPlain(buf);
    hide Split;
  }

  lemma OneLine(all: string, done: seq<string>, buf: string, i: nat)
    requires Split(all) == done + Split(buf) && i < |buf| && buf[i] == '\n' && NoNewline(buf[..i])
    ensures Split(all) == (done + [buf[..i]]) + Split(buf[i + 1..])
  {
    hide Split;
    assert buf == buf[..i] + ("\n" + buf[i + 1..]);
    SplitTerminated(buf[..i], buf[i + 1..]);
    assert done + ([buf[..i]] + Split(buf[i + 1..])) == (done + [buf[..i]]) + Split(buf[i + 1..]);
  }

  method IndexOfNewline(s: string) returns (i: Option<nat>)
    ensures i.None? <==> NoNewline(s)
    ensures i.Some? ==> i.value < |s| && s[i.value] == '\n' && NoNewline(s[..i.value])
  {
    for k := 0 to |s|
      invariant NoNewline(s[..k])
    {
      if s[k] == '\n' {
        return Some(k);
      }
      assert s[..k + 1] == s[..k] + [s[k]];
    }
    assert s[..|s|] == s;
    return None;
  }

  // ----- chunking does not matter -------------------------------------------------------

  function Joined(chunks: seq<string>): string {
    if chunks == [] then "" else Joined(chunks[..|chunks| - 1]) + chunks[|chunks| - 1]
  }

  lemma NothingScanned()
    ensures Complete("") == [] && Partial("") == ""
  {
  }

  lemma AppendSplits(s: string, b: string)
    ensures Complete(s + b) == Complete(s) + Complete(Partial(s) + b) && Partial(s + b) == Partial(Partial(s) + b)
  {
    SplitAppend(s, b);
    hide Split;
    var more := Split(Partial(s) + b);
    assert (Complete(s) + more)[..|Complete(s)| + |more| - 1] == Complete(s) + more[..|more| - 1];
  }

  /** What is left of an unterminated line after any of the chunks is within the cap. */
  predicate PartialsFit(chunks: seq<string>) {
    |Partial(Joined(chunks))| <= CAP && (chunks != [] ==> PartialsFit(chunks[..|chunks| - 1]))
  }

  /** The lines handled are the newline split of the whole stream, however it was cut into chunks, and the
      rest is its unterminated end, exactly as long as every partial line stays within the cap. */
  lemma ChunkingDoesNotMatter(chunks: seq<string>)
    ensures ScanAll(chunks) == Scanned(Complete(Joined(chunks)), Partial(Joined(chunks))) <==> PartialsFit(chunks)
  {
    hide ScanAll, Joined, Complete, Partial;
    if PartialsFit(chunks) {
      FittingIsExact(chunks);
    } else {
      DroppedStaysLost(chunks);
      TotalOfSplit(Joined(chunks));
    }
  }

  lemma {:induction false} FittingIsExact(chunks: seq<string>)
    requires PartialsFit(chunks)
    ensures ScanAll(chunks) == Scanned(Complete(Joined(chunks)), Partial(Joined(chunks)))
  {
    hide Split, Complete, Partial;
    if chunks == [] {
      NothingScanned();
    } else {
      var (front, chunk) := (chunks[..|chunks| - 1], chunks[|chunks| - 1]);
      FittingIsExact(front);
      AppendSplits(Joined(front), chunk);
    }
  }

  /** Characters accounted for: those of the lines, a newline each, and those of the rest. */
  function Total(lines: seq<string>, rest: string): nat {
    if lines == [] then |rest| else Total(lines[..|lines| - 1], rest) + |lines[|lines| - 1]| + 1
  }

  lemma {:induction false} TotalAppend(a: seq<string>, b: seq<string>, rest: string)
    ensures Total(a + b, rest) == Total(a, "") + Total(b, rest)
  {
    if b == [] {
      assert a + b == a;
      TotalRest(a, rest);
    } else {
      TotalAppend(a, b[..|b| - 1], rest);
      assert (a + b)[..|a + b| - 1] == a + b[..|b| - 1];
    }
  }

  lemma {:induction false} TotalRest(a: seq<string>, rest: string)
    ensures Total(a, rest) == Total(a, "") + |rest|
  {
    if a != [] {
      TotalRest(a[..|a| - 1], rest);
    }
  }

  /** Splitting loses nothing. */
  lemma {:induction false} TotalOfSplit(s: string)
    ensures Total(Complete(s), Partial(s)) == |s|
  {
    if s == [] {
      NothingScanned();
    } else {
      TotalOfSplit(s[1..]);
      PushTotal(s[0], Split(s[1..]));
    }
  }

  lemma PushTotal(c: char, pieces: seq<string>)
    requires pieces != []
    ensures var (p, q) := (pieces, Push(c, pieces));
            q != [] && Total(q[..|q| - 1], q[|q| - 1]) == Total(p[..|p| - 1], p[|p| - 1]) + 1
  {
    var (p, q) := (pieces, Push(c, pieces));
    var rest := p[|p| - 1];
    if c == '\n' {
      assert q[..|q| - 1] == [""] + p[..|p| - 1];
      TotalAppend([""], p[..|p| - 1], rest);
      TotalOne("", "");
    } else if |p| > 1 {
      assert q[..|q| - 1] == [[c] + p[0]] + p[1..|p| - 1];
      assert p[..|p| - 1] == [p[0]] + p[1..|p| - 1];
      TotalAppend([[c] + p[0]], p[1..|p| - 1], rest);
      TotalAppend([p[0]], p[1..|p| - 1], rest);
      TotalOne([c] + p[0], "");
      TotalOne(p[0], "");
    }
  }

  lemma TotalOne(line: string, rest: string)
    ensures Total([line], rest) == |line| + 1 + |rest|
  {
    assert [line][..0] == [];
  }

  /** A scan never accounts for more than it was given, and once a partial line was dropped it never
      catches up. */
  lemma {:induction false} DroppedStaysLost(chunks: seq<string>)
    requires !PartialsFit(chunks)
    ensures Total(ScanAll(chunks).handled, ScanAll(chunks).buf) < |Joined(chunks)|
  {
    hide Complete, Partial, Total, ScanAll;
    if chunks == [] {
      NothingScanned();
    } else {
      var (front, chunk) := (chunks[..|chunks| - 1], chunks[|chunks| - 1]);
      ScanStepTotal(chunks);
      if PartialsFit(front) {
        FittingIsExact(front);
        TotalOfSplit(Joined(front));
        AppendSplits(Joined(front), chunk);
      } else {
        DroppedStaysLost(front);
      }
    }
  }

  lemma ScanStepTotal(chunks: seq<string>)
    requires chunks != []
    ensures var (before, chunk) := (ScanAll(chunks[..|chunks| - 1]), chunks[|chunks| - 1]);
            var (total, rest) := (Total(ScanAll(chunks).handled, ScanAll(chunks).buf), Partial(before.buf + chunk));
            total == Total(before.handled, before.buf) + |chunk| - if |rest| > CAP then |rest| else 0
  {
    hide Complete, Partial, Total;
    var (before, chunk) := (ScanAll(chunks[..|chunks| - 1]), chunks[|chunks| - 1]);
    var all := before.buf + chunk;
    TotalOfSplit(all);
    var kept := if |Partial(all)| > CAP then "" else Partial(all);
    TotalAppend(before.handled, Complete(all), kept);
    TotalRest(Complete(all), Partial(all));
    TotalRest(Complete(all), kept);
    TotalRest(before.handled, before.buf);
  }

  /** Over the cap it does matter: a long line that comes in one chunk with its newline is handled whole,
      and one whose newline comes later is dropped, leaving an empty line. */
  lemma LongLineDependsOnChunking(line: string)
    requires NoNewline(line) && |line| > CAP
    ensures Joined([line + "\n"]) == Joined([line, "\n"])
    ensures ScanAll([line + "\n"]).handled == [line] && ScanAll([line, "\n"]).handled == [""]
  {
    hide Split, ScanAll, Joined;
    JoinedOne(line + "\n");
    JoinedOne(line);
    JoinedMore([line], "\n");
    assert [line] + ["\n"] == [line, "\n"];
    WholeLineIsHandled(line);
    CutLineIsDropped(line);
  }

  lemma WholeLineIsHandled(line: string)
    requires NoNewline(line)
    ensures ScanAll([line + "\n"]).handled == [line]
  {
    hide Complete, Partial;
    var chunk := line + "\n";
    assert [chunk][..0] == [];
    assert "" + chunk == chunk;
    TerminatedLine(line);
  }

  lemma CutLineIsDropped(line: string)
    requires NoNewline(line) && |line| > CAP
    ensures ScanAll([line, "\n"]).handled == [""]
  {
    hide Complete, Partial;
    assert [line, "\n"][..1] == [line] && [line][..0] == [];
    assert "" + line == line && "" + "\n" == "\n";
    PlainLine(line);
    assert ScanAll([line]) == Scanned([], "");
    TerminatedLine("");
  }

  lemma PlainLine(line: string)
    requires NoNewline(line)
    ensures Complete(line) == [] && Partial(line) == line
  {
    SplitPlain(line);
  }

  lemma JoinedOne(chunk: string)
    ensures Joined([chunk]) == chunk
  {
    assert [chunk][..0] == [];
  }

  lemma JoinedMore(chunks: seq<string>, chunk: string)
    ensures Joined(chunks + [chunk]) == Joined(chunks) + chunk
  {
    assert (chunks + [chunk])[..|chunks|] == chunks;
  }

  lemma TerminatedLine(line: string)
    requires NoNewline(line)
    ensures Complete(line + "\n") == [line] && Partial(line + "\n") == ""
  {
    assert line + "\n" == line + ("\n" + "");
    SplitTerminated(line, "");
    SplitPlain("");
  }
}
