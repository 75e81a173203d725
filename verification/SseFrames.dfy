/** The server-sent-event writer of web/broker/broker.go and, as an independent reading of what it
    writes, the event-stream parser of the WHATWG HTML Living Standard, sections 9.2.5 and 9.2.6. */
module SseFrames {
  import opened Decimal

  datatype Frame = Frame(event: string, data: string)

  // ----- The writer -----

  const PREAMBLE := "retry: 3000\n\n"

  function FieldLine(name: string, value: string): string {
    name + ": " + value
  }

  function Encode(f: Frame): string {
    if f.event != "" then FieldLine("event", f.event) + "\n" + (FieldLine("data", f.data) + "\n\n")
    else FieldLine("data", f.data) + "\n\n"
  }

  function EncodeAll(frames: seq<Frame>): string {
    if frames == [] then "" else EncodeAll(frames[..|frames| - 1]) + Encode(frames[|frames| - 1])
  }

  /** Writing the lines of `f` one after the other extends the encoded stream by one frame. */
  lemma EncodeAllSnoc(written: string, frames: seq<Frame>, f: Frame)
    requires written == PREAMBLE + EncodeAll(frames)
    ensures PREAMBLE + EncodeAll(frames + [f])
         == (if f.event != "" then written + (FieldLine("event", f.event) + "\n") else written)
            + (FieldLine("data", f.data) + "\n\n")
  {
    assert (frames + [f])[..|frames|] == frames;
    Associative(PREAMBLE, EncodeAll(frames), Encode(f));
    Associative(written, FieldLine("event", f.event) + "\n", FieldLine("data", f.data) + "\n\n");
  }

  lemma Associative(a: string, b: string, c: string)
    ensures (a + b) + c == a + (b + c)
  {
  }

  /** One HTTP response being streamed to a dashboard. */
  class Stream {
    var written: string
    ghost var frames: seq<Frame>

    ghost predicate Valid()
      reads this
    {
      written == PREAMBLE + EncodeAll(frames)
    }

    constructor ()
      ensures Valid() && frames == []
    {
      written, frames := "retry: 3000\n\n", [];
    }

    method WriteFrame(f: Frame)
      requires Valid()
      modifies this
      ensures Valid() && frames == old(frames) + [f]
    {
      if f.event != "" {
        written := written + (FieldLine("event", f.event) + "\n");
      }
      written := written + (FieldLine("data", f.data) + "\n\n");
      EncodeAllSnoc(old(written), frames, f);
      frames := frames + [f];
    }

    /** What a standard browser parser makes of everything written so far. */
    lemma Received()
      requires Valid()
      ensures Parse(written).dispatched == Expected(frames) <==> AllClean(frames)
    {
      SurvivesIff(frames);
    }
  }

  // ----- The standard's parser -----

  predicate IsBreak(c: char) { c == '\r' || c == '\n' }

  /** Index of the first colon, or the length. */
  function Colon(s: string): (i: nat)
    ensures i <= |s|
    ensures ':' !in s[..i]
    ensures i < |s| ==> s[i] == ':'
  {
    if s == "" || s[0] == ':' then 0 else 1 + Colon(s[1..])
  }

  /** An event as the browser dispatches it. */
  datatype Message = Message(name: string, data: string)

  /** What has been dispatched, and the buffers for the event being read. */
  datatype Parser = Parser(dispatched: seq<Message>, name: string, data: string, lastId: string, retry: int)

  /** The reconnection time before the server has set one. */
  const UNSET := -1

  const FRESH := Parser([], "", "", "", UNSET)

  function Field(p: Parser, name: string, value: string): Parser {
    if name == "event" then p.(name := value)
    else if name == "data" then p.(data := p.data + value + "\n")
    else if name == "id" then (if '\0' in value then p else p.(lastId := value))
    else if name == "retry" then
      if value != "" && forall c | c in value :: IsDigit(c) then p.(retry := DecimalValue(value)) else p
    else p
  }

  function Dispatch(p: Parser): Parser {
    if p.data == "" then p.(name := "", data := "")
    else
      var body := if p.data[|p.data| - 1] == '\n' then p.data[..|p.data| - 1] else p.data;
      p.(dispatched := p.dispatched + [Message(if p.name == "" then "message" else p.name, body)],
         name := "", data := "")
  }

  function Line(p: Parser, line: string): Parser {
    if line == "" then Dispatch(p)
    else
      var colon := Colon(line);
      if colon == 0 then p
      else if colon == |line| then Field(p, line, "")
      else
        var rest := line[colon + 1..];
        Field(p, line[..colon], if rest != "" && rest[0] == ' ' then rest[1..] else rest)
  }

  /** `line` is the line read so far; `afterCr` says that a CR has just ended a line, so that a LF
      right behind it belongs to the same line ending. */
  datatype Reader = Reader(parser: Parser, line: string, afterCr: bool)

  /** One character of the stream; lines end in CR LF, LF or CR. */
  function Char(r: Reader, c: char): Reader {
    if c == '\n' && r.afterCr then r.(afterCr := false)
    else if IsBreak(c) then Reader(Line(r.parser, r.line), "", c == '\r')
    else Reader(r.parser, r.line + [c], false)
  }

  function Consume(r: Reader, s: string): Reader
    decreases |s|
  {
    if s == "" then r else Char(Consume(r, s[..|s| - 1]), s[|s| - 1])
  }

  /** The reader at the start of a line. */
  function AtLine(p: Parser): Reader { Reader(p, "", false) }

  /** A leading byte order mark is dropped; text after the last line ending is never dispatched. */
  function Parse(s: string): Parser {
    Consume(AtLine(FRESH), if s != "" && s[0] == '\U{FEFF}' then s[1..] else s).parser
  }

  // ----- The round trip -----

  ghost predicate NoBreak(s: string) {
    '\r' !in s && '\n' !in s
  }

  /** No line ending inside the event name or the data. */
  ghost predicate Clean(f: Frame) {
    NoBreak(f.event) && NoBreak(f.data)
  }

  ghost predicate AllClean(frames: seq<Frame>) {
    forall f | f in frames :: Clean(f)
  }

  function AsMessage(f: Frame): Message {
    Message(if f.event == "" then "message" else f.event, f.data)
  }

  function Expected(frames: seq<Frame>): (r: seq<Message>)
    ensures |r| == |frames| && forall i | 0 <= i < |frames| :: r[i] == AsMessage(frames[i])
  {
    seq(|frames|, i requires 0 <= i < |frames| => AsMessage(frames[i]))
  }

  lemma {:induction false} ConsumeConcat(r: Reader, a: string, b: string)
    ensures Consume(r, a + b) == Consume(Consume(r, a), b)
    decreases |b|
  {
    if b == "" {
      assert a + b == a;
    } else {
      assert (a + b)[..|a + b| - 1] == a + b[..|b| - 1];
      ConsumeConcat(r, a, b[..|b| - 1]);
    }
  }

  lemma ConsumeOne(r: Reader, c: char)
    ensures Consume(r, [c]) == Char(r, c)
  {
    assert [c][..0] == "";
    assert Consume(r, "") == r;
  }

  /** Text without line endings is collected into the current line. */
  lemma {:induction false} ConsumeText(p: Parser, s: string)
    requires NoBreak(s)
    ensures Consume(AtLine(p), s) == Reader(p, s, false)
    decreases |s|
  {
    if s == "" {
    } else {
      assert s[..|s| - 1] + [s[|s| - 1]] == s;
      ConsumeText(p, s[..|s| - 1]);
    }
  }

  /** Reading one whole line is processing it. */
  lemma ConsumeLine(p: Parser, s: string)
    requires NoBreak(s)
    ensures Consume(AtLine(p), s + "\n") == AtLine(Line(p, s))
  {
    ConsumeConcat(AtLine(p), s, "\n");
    ConsumeText(p, s);
    ConsumeOne(Reader(p, s, false), '\n');
  }

  lemma FieldLineNoBreak(name: string, value: string)
    requires NoBreak(name) && NoBreak(value)
    ensures NoBreak(FieldLine(name, value))
  {
    forall c | c in FieldLine(name, value) ensures !IsBreak(c) {
      assert c in name || c in ": " || c in value;
    }
  }

  lemma {:induction false} ColonAfter(name: string, rest: string)
    requires ':' !in name && rest != "" && rest[0] == ':'
    ensures Colon(name + rest) == |name|
    decreases |name|
  {
    if name == "" {
      assert name + rest == rest;
    } else {
      assert (name + rest)[1..] == name[1..] + rest;
      ColonAfter(name[1..], rest);
    }
  }

  lemma LineField(p: Parser, name: string, value: string)
    requires name != "" && ':' !in name
    ensures Line(p, FieldLine(name, value)) == Field(p, name, value)
  {
    var line, rest := FieldLine(name, value), ": " + value;
    assert line == name + rest;
    ColonAfter(name, rest);
    assert line[..|name|] == name && line[|name|..] == rest;
    assert line[|name| + 1..] == line[|name|..][1..] == " " + value;
    assert (" " + value)[1..] == value;
  }

  /** Reading one field line changes exactly that field. */
  lemma ConsumeField(p: Parser, name: string, value: string)
    requires NoBreak(name) && NoBreak(value) && name != "" && ':' !in name
    ensures Consume(AtLine(p), FieldLine(name, value) + "\n") == AtLine(Field(p, name, value))
  {
    FieldLineNoBreak(name, value);
    ConsumeLine(p, FieldLine(name, value));
    LineField(p, name, value);
  }

  /** A field line followed by an empty line: the field is set, then the message is dispatched. */
  lemma ConsumeBlock(p: Parser, name: string, value: string)
    requires NoBreak(name) && NoBreak(value) && name != "" && ':' !in name
    ensures Consume(AtLine(p), FieldLine(name, value) + "\n\n") == AtLine(Dispatch(Field(p, name, value)))
  {
    var line := FieldLine(name, value) + "\n";
    assert FieldLine(name, value) + "\n\n" == line + "\n";
    ConsumeConcat(AtLine(p), line, "\n");
    ConsumeField(p, name, value);
    ConsumeOne(AtLine(Field(p, name, value)), '\n');
  }

  /** A clean event name, present or not, only sets the name. */
  lemma ConsumeName(p: Parser, f: Frame)
    requires p.name == "" && NoBreak(f.event)
    ensures Consume(AtLine(p), Encode(f))
         == Consume(AtLine(p.(name := f.event)), FieldLine("data", f.data) + "\n\n")
  {
    if f.event != "" {
      ConsumeConcat(AtLine(p), FieldLine("event", f.event) + "\n", FieldLine("data", f.data) + "\n\n");
      ConsumeField(p, "event", f.event);
    }
  }

  /** A clean frame dispatches exactly one message and leaves nothing behind. */
  lemma FrameDispatches(p: Parser, f: Frame)
    requires p.name == "" && p.data == "" && Clean(f)
    ensures Consume(AtLine(p), Encode(f)) == AtLine(p.(dispatched := p.dispatched + [AsMessage(f)]))
  {
    var q := p.(name := f.event);
    ConsumeName(p, f);
    ConsumeBlock(q, "data", f.data);
    var body := q.data + f.data + "\n";
    assert body[..|body| - 1] == f.data;
  }

  lemma ConsumeParts(p: Parser, q: Parser, r: Parser, a: string, b: string)
    requires Consume(AtLine(p), a) == AtLine(q) && Consume(AtLine(q), b) == AtLine(r)
    ensures Consume(AtLine(p), a + b) == AtLine(r)
  {
    ConsumeConcat(AtLine(p), a, b);
  }

  /** The parser that has read `frames` in addition to what `p` had read. */
  function Having(p: Parser, frames: seq<Frame>): Parser {
    p.(dispatched := p.dispatched + Expected(frames))
  }

  lemma OneMoreFrame(p: Parser, front: seq<Frame>, last: Frame, text: string)
    requires p.name == "" && p.data == "" && Clean(last)
    requires Consume(AtLine(p), text) == AtLine(Having(p, front))
    ensures Consume(AtLine(p), text + Encode(last)) == AtLine(Having(p, front + [last]))
  {
    FrameDispatches(Having(p, front), last);
    assert Having(p, front).dispatched + [AsMessage(last)] == Having(p, front + [last]).dispatched;
    ConsumeParts(p, Having(p, front), Having(p, front + [last]), text, Encode(last));
  }

  lemma {:induction false} FramesDispatch(p: Parser, frames: seq<Frame>)
    requires p.name == "" && p.data == "" && AllClean(frames)
    ensures Consume(AtLine(p), EncodeAll(frames)) == AtLine(Having(p, frames))
    decreases |frames|
  {
    if frames == [] {
      assert Having(p, []) == p;
    } else {
      var front, last := frames[..|frames| - 1], frames[|frames| - 1];
      assert front + [last] == frames;
      FramesDispatch(p, front);
      OneMoreFrame(p, front, last, EncodeAll(front));
    }
  }

  lemma ThreeThousand()
    ensures NoBreak("3000") && forall c | c in "3000" :: IsDigit(c)
    ensures DecimalValue("3000") == 3000
  {
    var s := "3000";
    assert s[..3] == "300" && "300"[..2] == "30" && "30"[..1] == "3" && "3"[..0] == "";
    assert DecimalValue("3") == 3;
    assert DecimalValue("30") == 30;
    assert DecimalValue("300") == 300;
  }

  /** The `retry` preamble sets the reconnection time and dispatches nothing. */
  lemma PreambleSetsRetry()
    ensures Consume(AtLine(FRESH), PREAMBLE) == AtLine(FRESH.(retry := 3000))
  {
    ThreeThousand();
    assert PREAMBLE == FieldLine("retry", "3000") + "\n\n";
    ConsumeBlock(FRESH, "retry", "3000");
  }

  /** What is read starts where the preamble ends. */
  lemma ParseFrames(frames: seq<Frame>)
    ensures Parse(PREAMBLE + EncodeAll(frames))
         == Consume(AtLine(FRESH.(retry := 3000)), EncodeAll(frames)).parser
  {
    var s := PREAMBLE + EncodeAll(frames);
    assert s[0] == 'r';
    ConsumeConcat(AtLine(FRESH), PREAMBLE, EncodeAll(frames));
    PreambleSetsRetry();
  }

  /** Parsing what was written yields exactly the frames, in order, once each, with an absent
      event name read as "message". */
  lemma RoundTrip(frames: seq<Frame>)
    requires AllClean(frames)
    ensures Parse(PREAMBLE + EncodeAll(frames)) == FRESH.(dispatched := Expected(frames), retry := 3000)
  {
    ParseFrames(frames);
    FramesDispatch(FRESH.(retry := 3000), frames);
    assert Having(FRESH.(retry := 3000), frames).dispatched == Expected(frames);
  }

  // ----- What else the parser has to read -----

  /** A line ends at CR LF, at LF, or at CR, and a LF right behind a CR belongs to it. */
  lemma LineEndingsAgree(p: Parser, line: string, next: char)
    requires NoBreak(line)
    ensures Consume(AtLine(p), line + "\n") == AtLine(Line(p, line))
    ensures Consume(AtLine(p), line + "\r\n") == AtLine(Line(p, line))
    ensures Consume(AtLine(p), line + "\r" + [next]) ==
      if next == '\n' then AtLine(Line(p, line)) else Char(AtLine(Line(p, line)), next)
  {
    ConsumeLine(p, line);
    ConsumeText(p, line);
    ConsumeConcat(AtLine(p), line, "\r");
    ConsumeOne(Reader(p, line, false), '\r');
    ConsumeConcat(AtLine(p), line + "\r", "\n");
    ConsumeOne(Reader(Line(p, line), "", true), '\n');
    assert line + "\r\n" == line + "\r" + "\n";
    ConsumeConcat(AtLine(p), line + "\r", [next]);
    ConsumeOne(Reader(Line(p, line), "", true), next);
  }

  /** One byte order mark at the start is dropped. */
  lemma ByteOrderMarkDropped(s: string)
    requires s == "" || s[0] != '\U{FEFF}'
    ensures Parse("\U{FEFF}" + s) == Parse(s)
  {
    assert ("\U{FEFF}" + s)[1..] == s;
  }

  /** A line that starts with a colon is a comment; a line without one is a field with an empty value;
      an id without NUL is kept. */
  lemma OtherLines(p: Parser, text: string)
    ensures Line(p, ":" + text) == p
    ensures Line(p, "data") == p.(data := p.data + "\n") && Line(p, "event") == p.(name := "")
    ensures Line(p, "id: " + text) == if '\0' in text then p else p.(lastId := text)
  {
    assert (":" + text)[0] == ':';
    ColonAfter("data", ":");
    ColonAfter("event", ":");
    NoColon("data");
    NoColon("event");
    LineField(p, "id", text);
    assert "id: " + text == FieldLine("id", text);
  }

  lemma NoColon(s: string)
    requires ':' !in s
    ensures Colon(s) == |s|
  {
    assert forall i | 0 <= i < |s| :: s[i] in s;
  }

  // ----- Frames that do not survive -----

  /** Event names never hold a line ending, whatever is read. */
  ghost predicate CleanNames(p: Parser) {
    NoBreak(p.name) && forall m | m in p.dispatched :: NoBreak(m.name)
  }

  ghost predicate NamesOk(r: Reader) {
    NoBreak(r.line) && CleanNames(r.parser)
  }

  lemma NoBreakTail(s: string, i: nat)
    requires NoBreak(s) && i <= |s|
    ensures NoBreak(s[i..])
  {
    forall c | c in s[i..] ensures !IsBreak(c) {
      assert c in s;
    }
  }

  lemma FieldNames(p: Parser, name: string, value: string)
    requires CleanNames(p) && NoBreak(value)
    ensures CleanNames(Field(p, name, value))
  {
  }

  lemma DispatchNames(p: Parser)
    requires CleanNames(p)
    ensures CleanNames(Dispatch(p))
  {
  }

  lemma LineNames(p: Parser, line: string)
    requires CleanNames(p) && NoBreak(line)
    ensures CleanNames(Line(p, line))
  {
    var colon := Colon(line);
    if line == "" {
      DispatchNames(p);
    } else if colon == |line| {
      FieldNames(p, line, "");
    } else if colon > 0 {
      var rest := line[colon + 1..];
      NoBreakTail(line, colon + 1);
      var value := if rest != "" && rest[0] == ' ' then rest[1..] else rest;
      if rest != "" {
        NoBreakTail(rest, 1);
      }
      FieldNames(p, line[..colon], value);
    }
  }

  lemma CharNames(r: Reader, c: char)
    requires NamesOk(r)
    ensures NamesOk(Char(r, c))
  {
    if IsBreak(c) {
      LineNames(r.parser, r.line);
    }
  }

  lemma {:induction false} NamesKept(r: Reader, s: string)
    requires NamesOk(r)
    ensures NamesOk(Consume(r, s))
    decreases |s|
  {
    if s == "" {
    } else {
      NamesKept(r, s[..|s| - 1]);
      CharNames(Consume(r, s[..|s| - 1]), s[|s| - 1]);
    }
  }

  function TotalData(messages: seq<Message>): nat {
    if messages == [] then 0 else TotalData(messages[..|messages| - 1]) + |messages[|messages| - 1].data| + 1
  }

  /** What the reader holds: the dispatched data with the line ending each message lost, the data
      being collected, and the line being read. */
  function Weight(r: Reader): nat {
    TotalData(r.parser.dispatched) + |r.parser.data| + |r.line|
  }

  predicate EndsInBreak(data: string) {
    data == "" || data[|data| - 1] == '\n'
  }

  lemma FieldWeight(p: Parser, name: string, value: string)
    requires EndsInBreak(p.data)
    ensures EndsInBreak(Field(p, name, value).data)
    ensures Weight(AtLine(Field(p, name, value))) <= Weight(AtLine(p)) + if name == "data" then |value| + 1 else 0
  {
  }

  lemma DispatchWeight(p: Parser)
    requires EndsInBreak(p.data)
    ensures EndsInBreak(Dispatch(p).data)
    ensures Weight(AtLine(Dispatch(p))) <= Weight(AtLine(p))
  {
    var q := Dispatch(p);
    if p.data != "" {
      assert q.dispatched[..|p.dispatched|] == p.dispatched;
    }
  }

  /** Processing a line never makes more data than the line was long. */
  lemma LineWeight(p: Parser, line: string)
    requires EndsInBreak(p.data)
    ensures EndsInBreak(Line(p, line).data)
    ensures Weight(AtLine(Line(p, line))) <= Weight(AtLine(p)) + |line|
  {
    var colon := Colon(line);
    if line == "" {
      DispatchWeight(p);
    } else if colon == |line| {
      FieldWeight(p, line, "");
    } else if colon > 0 {
      var rest := line[colon + 1..];
      FieldWeight(p, line[..colon], if rest != "" && rest[0] == ' ' then rest[1..] else rest);
    }
  }

  function NonBreaks(s: string): (n: nat)
    ensures n <= |s|
  {
    if s == "" then 0 else NonBreaks(s[..|s| - 1]) + if IsBreak(s[|s| - 1]) then 0 else 1
  }

  lemma {:induction false} ConsumeWeight(r: Reader, s: string)
    requires EndsInBreak(r.parser.data)
    ensures EndsInBreak(Consume(r, s).parser.data)
    ensures Weight(Consume(r, s)) <= Weight(r) + NonBreaks(s)
    decreases |s|
  {
    if s == "" {
    } else {
      ConsumeWeight(r, s[..|s| - 1]);
      var before := Consume(r, s[..|s| - 1]);
      LineWeight(before.parser, before.line);
    }
  }

  /** Data that holds a line ending comes out shorter than it went in. */
  lemma BrokenDataShrinks(p: Parser, data: string)
    requires p.data == "" && !NoBreak(data)
    ensures Weight(Consume(AtLine(p), FieldLine("data", data) + "\n\n")) <= TotalData(p.dispatched) + |data|
  {
    var k := FirstBreak(data);
    var head, rest := data[..k], data[k + 1..] + "\n\n";
    var line := FieldLine("data", head);
    assert FieldLine("data", data) + "\n\n" == line + ([data[k]] + rest);
    ConsumeConcat(AtLine(p), line, [data[k]] + rest);
    FieldLineNoBreak("data", head);
    ConsumeText(p, line);
    ConsumeConcat(Reader(p, line, false), [data[k]], rest);
    ConsumeOne(Reader(p, line, false), data[k]);
    LineField(p, "data", head);
    var r := Char(Reader(p, line, false), data[k]);
    assert Weight(r) == TotalData(p.dispatched) + k + 1;
    ConsumeWeight(r, rest);
    NonBreaksTail(data[k + 1..]);
  }

  function FirstBreak(s: string): (k: nat)
    requires !NoBreak(s)
    ensures k < |s| && IsBreak(s[k]) && NoBreak(s[..k])
  {
    if IsBreak(s[0]) then 0
    else
      assert s == [s[0]] + s[1..];
      var k := 1 + FirstBreak(s[1..]);
      assert s[..k] == [s[0]] + s[1..][..k - 1];
      k
  }

  lemma NonBreaksTail(s: string)
    ensures NonBreaks(s + "\n\n") <= |s|
  {
    assert (s + "\n\n")[..|s| + 1] == s + "\n";
    assert (s + "\n")[..|s|] == s;
  }

  /** Two line feeds end whatever stands before them, and leave no partial event. */
  lemma BlankLineResets(p: Parser, s: string)
    ensures var r := Consume(AtLine(p), s + "\n\n");
      r == AtLine(r.parser) && r.parser.name == "" && r.parser.data == ""
  {
    var r := Consume(AtLine(p), s);
    assert r.afterCr ==> r.line == "";
    ConsumeConcat(AtLine(p), s, "\n\n");
    assert "\n\n" == "\n" + "\n";
    ConsumeConcat(r, "\n", "\n");
    ConsumeOne(r, '\n');
    ConsumeOne(Char(r, '\n'), '\n');
  }

  /** Whatever its data, a frame with a clean name leaves the reader at the start of a line with empty
      buffers; and it adds its data and the lost line ending, or less if the data is broken. */
  lemma FrameWeight(p: Parser, f: Frame)
    requires p.name == "" && p.data == "" && NoBreak(f.event)
    ensures var r := Consume(AtLine(p), Encode(f));
      && r == AtLine(r.parser) && r.parser.name == "" && r.parser.data == ""
      && TotalData(r.parser.dispatched) <= TotalData(p.dispatched) + |f.data| + if Clean(f) then 1 else 0
  {
    ConsumeName(p, f);
    var q := p.(name := f.event);
    if Clean(f) {
      FrameDispatches(p, f);
      var more := p.dispatched + [AsMessage(f)];
      assert more[..|p.dispatched|] == p.dispatched;
    } else {
      BrokenDataShrinks(q, f.data);
      BlankLineResets(q, FieldLine("data", f.data));
    }
  }

  /** The reader is between frames, and has dispatched at most the data of `frames` beyond `p`; less
      if a frame is broken. */
  ghost predicate WeighsAtMost(p: Parser, frames: seq<Frame>, r: Reader) {
    && r == AtLine(r.parser) && r.parser.name == "" && r.parser.data == ""
    && TotalData(r.parser.dispatched) + (if AllClean(frames) then 0 else 1)
       <= TotalData(p.dispatched) + TotalData(Expected(frames))
  }

  lemma ExpectedWeightSnoc(front: seq<Frame>, last: Frame)
    ensures TotalData(Expected(front + [last])) == TotalData(Expected(front)) + |last.data| + 1
  {
    assert Expected(front + [last])[..|front|] == Expected(front);
  }

  lemma AllCleanSnoc(front: seq<Frame>, last: Frame)
    ensures AllClean(front + [last]) <==> AllClean(front) && Clean(last)
  {
    assert last in front + [last];
    assert forall f | f in front :: f in front + [last];
  }

  lemma OneMoreWeight(p: Parser, front: seq<Frame>, last: Frame, r: Reader)
    requires WeighsAtMost(p, front, r) && NoBreak(last.event)
    ensures WeighsAtMost(p, front + [last], Consume(r, Encode(last)))
  {
    FrameWeight(r.parser, last);
    ExpectedWeightSnoc(front, last);
    AllCleanSnoc(front, last);
  }

  lemma {:induction false} FramesWeight(p: Parser, frames: seq<Frame>)
    requires p.name == "" && p.data == "" && forall f | f in frames :: NoBreak(f.event)
    ensures WeighsAtMost(p, frames, Consume(AtLine(p), EncodeAll(frames)))
    decreases |frames|
  {
    if frames == [] {
    } else {
      var front, last := frames[..|frames| - 1], frames[|frames| - 1];
      assert frames == front + [last];
      FramesWeight(p, front);
      ConsumeConcat(AtLine(p), EncodeAll(front), Encode(last));
      OneMoreWeight(p, front, last, Consume(AtLine(p), EncodeAll(front)));
    }
  }

  /** A stream comes out as it went in exactly when no frame in it holds a line ending in its name or
      its data: one broken frame spoils it, wherever it stands and whatever the others hold. */
  lemma SurvivesIff(frames: seq<Frame>)
    ensures Parse(PREAMBLE + EncodeAll(frames)).dispatched == Expected(frames) <==> AllClean(frames)
  {
    if AllClean(frames) {
      RoundTrip(frames);
    } else if Parse(PREAMBLE + EncodeAll(frames)).dispatched == Expected(frames) {
      ParseFrames(frames);
      NamesKept(AtLine(FRESH.(retry := 3000)), EncodeAll(frames));
      forall f | f in frames ensures NoBreak(f.event) {
        var i :| 0 <= i < |frames| && frames[i] == f;
        assert Expected(frames)[i] in Expected(frames);
      }
      FramesWeight(FRESH.(retry := 3000), frames);
      assert false;
    }
  }
}
