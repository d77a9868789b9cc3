/** Reading a stream of server-sent events: an eager reader, and the blank-line-delimited one it stands for. */
module SseReader {
  import opened Text

  /** What the JSON parser makes of a text.  `Object` is a JSON object; `marksEnd` says that it carries the
      reader's own end mark. */
  datatype Value = NotJson | Null | Object(content: string, marksEnd: bool) | Scalar

  type Parser = string -> Value

  datatype Parsed = Nothing | End | Event(content: string) | Broken

  datatype Status = Reading | Done | Crashed

  /** A reader: the data lines it holds back, the events it has delivered, and how it stands. */
  datatype Reader = Reader(buffer: seq<string>, events: seq<string>, status: Status)

  datatype Line = Blank | Data(text: string) | Ignored

  const START: Reader := Reader([], [], Reading)

  function Classify(raw: string): Line {
    var line := ChompLine(raw);
    if line == "" then Blank
    else if |line| >= 5 && line[..5] == "data:" then Data(Strip(line[5..]))
    else Ignored
  }

  function Lines(raw: seq<string>): (r: seq<Line>)
    ensures |r| == |raw| && forall i :: 0 <= i < |r| ==> r[i] == Classify(raw[i])
  {
    seq(|raw|, i requires 0 <= i < |raw| => Classify(raw[i]))
  }

  function Join(lines: seq<string>): string {
    if |lines| == 0 then ""
    else if |lines| == 1 then lines[0]
    else Join(lines[..|lines| - 1]) + "\n" + lines[|lines| - 1]
  }

  /** `parse_payload`. */
  function Parse(json: Parser, buffer: seq<string>): Parsed {
    var payload := Strip(Join(buffer));
    if payload == "" then Nothing
    else if payload == "[DONE]" then End
    else
      match json(payload)
      case NotJson => Nothing
      case Null => Nothing
      case Object(content, marksEnd) => if marksEnd then End else Event(content)
      case Scalar => Broken
  }

  /** A line of the stream: blank without its terminators, data behind `data:`, and anything else ignored. */
  lemma ClassifyIs(raw: string)
    ensures ChompLine(raw) == "" <==> Classify(raw).Blank?
    ensures (exists rest :: ChompLine(raw) == "data:" + rest) <==> Classify(raw).Data?
    ensures forall rest :: ChompLine(raw) == "data:" + rest ==> Classify(raw) == Data(Strip(rest))
    ensures |ChompLine(raw)| > 0 && ChompLine(raw)[0] == ':' ==> Classify(raw) == Ignored
  {
    var line := ChompLine(raw);
    if Classify(raw).Data? { assert line == "data:" + line[5..]; }
    forall rest | line == "data:" + rest ensures line[..5] == "data:" && line[5..] == rest { }
  }

  /** The lines of an event are joined by line feeds. */
  lemma {:induction false} JoinIs(a: seq<string>, line: string)
    requires |a| > 0
    ensures Join(a + [line]) == Join(a) + "\n" + line
    ensures Join([line]) == line
  {
    assert (a + [line])[..|a|] == a;
  }

  /** What a text amounts to: nothing if it is blank or no JSON value but null, the end if it is the end mark or an
      object that carries the reader's own, an event if it is any other object, and an error otherwise. */
  lemma ParseIs(json: Parser, buffer: seq<string>)
    ensures var payload := Strip(Join(buffer));
            && (Parse(json, buffer) == End
                <==> payload == "[DONE]" || (payload != "" && json(payload).Object? && json(payload).marksEnd))
            && (forall content :: Parse(json, buffer) == Event(content)
                  <==> payload != "" && payload != "[DONE]" && json(payload) == Object(content, false))
            && (Parse(json, buffer) == Broken
                <==> payload != "" && payload != "[DONE]" && json(payload) == Scalar)
  {
  }

  /** A data line that completes an event is delivered at once, and the end mark ends the reading. */
  lemma DataIsRead(json: Parser, lines: seq<Line>, text: string, content: string)
    requires Read(json, lines).status == Reading
    ensures var held := Read(json, lines).buffer + [text];
            && (Parse(json, held) == Event(content) ==>
                  Read(json, lines + [Data(text)]) == Reader([], Read(json, lines).events + [content], Reading))
            && (Parse(json, held) == End ==>
                  && Read(json, lines + [Data(text)]).status == Done
                  && Read(json, lines + [Data(text)]).events == Read(json, lines).events)
            && (Parse(json, held) == Nothing ==>
                  Read(json, lines + [Data(text)]) == Reader(held, Read(json, lines).events, Reading))
  {
    ReadSnoc(json, lines, Data(text));
  }

  lemma EmptyParsesToNothing(json: Parser, none: seq<string>)
    requires |none| == 0
    ensures Parse(json, none) == Nothing
  {
  }

  /** Delivers what a buffer amounts to. */
  function Deliver(r: Reader, p: Parsed): Reader {
    match p
    case Nothing => r
    case End => r.(status := Done)
    case Event(content) => r.(events := r.events + [content])
    case Broken => r.(status := Crashed)
  }

  // ---------------------------------------------------------------------------------------------
  // The eager reader
  // ---------------------------------------------------------------------------------------------

  /** One line of the eager reader: it delivers as soon as the lines held back parse, and forgets them at a
      blank line. */
  function Feed(json: Parser, r: Reader, line: Line): Reader {
    if r.status != Reading then r
    else
      match line
      case Ignored => r
      case Blank => r.(buffer := [])
      case Data(text) =>
        var held := r.buffer + [text];
        var p := Parse(json, held);
        Deliver(r.(buffer := if p == Nothing then held else []), p)
  }

  function Read(json: Parser, lines: seq<Line>): Reader {
    if |lines| == 0 then START else Feed(json, Read(json, lines[..|lines| - 1]), lines[|lines| - 1])
  }

  /** What the eager reader holds back never parses. */
  predicate HeldBack(json: Parser, r: Reader) {
    Parse(json, r.buffer) == Nothing
  }

  lemma FeedHeldBack(json: Parser, r: Reader, line: Line)
    requires HeldBack(json, r)
    ensures HeldBack(json, Feed(json, r, line))
  {
    EmptyParsesToNothing(json, Feed(json, r, Blank).buffer[..0]);
  }

  /** So neither a blank line nor the end of the stream ever delivers anything. */
  lemma {:induction false} BufferNeverParses(json: Parser, lines: seq<Line>)
    ensures HeldBack(json, Read(json, lines))
  {
    if |lines| == 0 {
      EmptyParsesToNothing(json, Read(json, lines).buffer);
    } else {
      BufferNeverParses(json, lines[..|lines| - 1]);
      FeedHeldBack(json, Read(json, lines[..|lines| - 1]), lines[|lines| - 1]);
    }
  }

  /** Once the reader is done or broken, nothing that follows matters. */
  lemma {:induction false} NothingAfterEnd(json: Parser, lines: seq<Line>, more: seq<Line>)
    requires Read(json, lines).status != Reading
    ensures Read(json, lines + more) == Read(json, lines)
  {
    if |more| == 0 {
      assert lines + more == lines;
    } else {
      var init := more[..|more| - 1];
      NothingAfterEnd(json, lines, init);
      assert (lines + more)[..|lines + more| - 1] == lines + init;
    }
  }

  /** `_iter_sse_payloads`, with everything it yields. */
  method IterSsePayloads(json: Parser, raw: seq<string>) returns (events: seq<string>, crashed: bool)
    ensures events == Read(json, Lines(raw)).events
    ensures crashed <==> Read(json, Lines(raw)).status == Crashed
  {
    ghost var lines := Lines(raw);
    var buffer: seq<string> := [];
    events, crashed := [], false;
    for i := 0 to |raw|
      invariant Read(json, lines[..i]) == Reader(buffer, events, Reading) && !crashed
    {
      assert lines[..i + 1][..i] == lines[..i];
      BufferNeverParses(json, lines[..i]);
      ghost var r := Read(json, lines[..i]);
      assert Read(json, lines[..i + 1]) == Feed(json, r, lines[i]);
      assert lines == lines[..i + 1] + lines[i + 1..];
      match Classify(raw[i])
      case Blank =>
        if |buffer| > 0 {
          var parsed := Parse(json, buffer);
          buffer := [];
          if parsed != Nothing { assert false; }
        }
      case Ignored =>
      case Data(text) =>
        buffer := buffer + [text];
        var parsed := Parse(json, buffer);
        match parsed
        case Nothing =>
        case End =>
          NothingAfterEnd(json, lines[..i + 1], lines[i + 1..]);
          return;
        case Broken =>
          NothingAfterEnd(json, lines[..i + 1], lines[i + 1..]);
          return events, true;
        case Event(content) =>
          buffer := [];
          events := events + [content];
    }
    assert lines[..|raw|] == lines;
    BufferNeverParses(json, lines);
    if |buffer| > 0 {
      var parsed := Parse(json, buffer);
      match parsed
      case Nothing =>
      case _ => assert false;
    }
  }

  // ---------------------------------------------------------------------------------------------
  // The delimited reader
  // ---------------------------------------------------------------------------------------------

  /** One line of the delimited reader: data lines are collected, and a blank line delivers them. */
  function Collect(json: Parser, r: Reader, line: Line): Reader {
    if r.status != Reading then r
    else
      match line
      case Ignored => r
      case Data(text) => r.(buffer := r.buffer + [text])
      case Blank => Deliver(r.(buffer := []), Parse(json, r.buffer))
  }

  function Delimited(json: Parser, lines: seq<Line>): Reader {
    if |lines| == 0 then START else Collect(json, Delimited(json, lines[..|lines| - 1]), lines[|lines| - 1])
  }

  /** The end of the stream delivers what is left. */
  function Flush(json: Parser, r: Reader): Reader {
    if r.status != Reading then r else Deliver(r, Parse(json, r.buffer))
  }

  function OpenStep(open: seq<string>, line: Line): seq<string> {
    match line
    case Blank => []
    case Ignored => open
    case Data(text) => open + [text]
  }

  /** The data lines of the event that is open at the end of some lines. */
  function Open(lines: seq<Line>): seq<string> {
    if |lines| == 0 then [] else OpenStep(Open(lines[..|lines| - 1]), lines[|lines| - 1])
  }

  /** No proper prefix of an event's data lines parses. */
  predicate Unambiguous(json: Parser, lines: seq<Line>) {
    forall i :: 0 <= i < |lines| && lines[i].Data? ==> Parse(json, Open(lines[..i])) == Nothing
  }

  lemma CollectHoldsOpen(json: Parser, r: Reader, open: seq<string>, line: Line)
    requires r.status == Reading ==> r.buffer == open
    ensures Collect(json, r, line).status == Reading ==> Collect(json, r, line).buffer == OpenStep(open, line)
  {
  }

  lemma {:induction false} DelimitedHoldsOpen(json: Parser, lines: seq<Line>)
    ensures Delimited(json, lines).status == Reading ==> Delimited(json, lines).buffer == Open(lines)
  {
    if |lines| > 0 {
      var init, last := lines[..|lines| - 1], lines[|lines| - 1];
      DelimitedHoldsOpen(json, init);
      CollectHoldsOpen(json, Delimited(json, init), Open(init), last);
    }
  }

  /** The eager reader is the delimited one with the open event delivered already. */
  predicate Ahead(json: Parser, eager: Reader, delimited: Reader) {
    var flushed := Flush(json, delimited);
    && eager.events == flushed.events && eager.status == flushed.status
    && (eager.status == Reading ==>
          eager.buffer == if Parse(json, delimited.buffer) == Nothing then delimited.buffer else [])
  }

  lemma AheadStep(json: Parser, eager: Reader, delimited: Reader, line: Line)
    requires Ahead(json, eager, delimited)
    requires line.Data? && delimited.status == Reading ==> Parse(json, delimited.buffer) == Nothing
    ensures Ahead(json, Feed(json, eager, line), Collect(json, delimited, line))
  {
    EmptyParsesToNothing(json, delimited.buffer[..0]);
  }

  lemma {:induction false} EagerIsAhead(json: Parser, lines: seq<Line>)
    requires Unambiguous(json, lines)
    ensures Ahead(json, Read(json, lines), Delimited(json, lines))
  {
    if |lines| == 0 {
      EmptyParsesToNothing(json, Delimited(json, lines).buffer);
    } else {
      var init, last := lines[..|lines| - 1], lines[|lines| - 1];
      assert forall i :: 0 <= i < |init| ==> init[i] == lines[i] && init[..i] == lines[..i];
      EagerIsAhead(json, init);
      DelimitedHoldsOpen(json, init);
      AheadStep(json, Read(json, init), Delimited(json, init), last);
    }
  }

  /** On every stream in which no proper prefix of an event's data lines parses, the eager reader delivers what
      the delimited reader delivers, and ends the same way. */
  lemma EagerAgreesWithDelimited(json: Parser, lines: seq<Line>)
    requires Unambiguous(json, lines)
    ensures Read(json, lines).events == Flush(json, Delimited(json, lines)).events
    ensures Read(json, lines).status == Flush(json, Delimited(json, lines)).status
  {
    EagerIsAhead(json, lines);
  }

  lemma ReadSnoc(json: Parser, lines: seq<Line>, line: Line)
    ensures Read(json, lines + [line]) == Feed(json, Read(json, lines), line)
    ensures Delimited(json, lines + [line]) == Collect(json, Delimited(json, lines), line)
  {
    assert (lines + [line])[..|lines|] == lines;
  }

  /** Where the condition fails, this happens: an event of two data lines that parse one by one but not
      together is delivered as two events instead of none. */
  lemma SplitEvent(json: Parser, a: string, b: string, x: string, y: string)
    requires Parse(json, [a]) == Event(x) && Parse(json, [b]) == Event(y) && Parse(json, [a, b]) == Nothing
    ensures Read(json, [] + [Data(a)] + [Data(b)] + [Blank]).events == [x, y]
    ensures Flush(json, Delimited(json, [] + [Data(a)] + [Data(b)] + [Blank])).events == []
  {
    var one := [] + [Data(a)];
    ReadSnoc(json, [], Data(a));
    ReadSnoc(json, one, Data(b));
    ReadSnoc(json, one + [Data(b)], Blank);
    assert [] + [a] == [a] && [] + [b] == [b] && [a] + [b] == [a, b];
    var d := Delimited(json, one + [Data(b)] + [Blank]);
    EmptyParsesToNothing(json, d.buffer);
  }

  // ---------------------------------------------------------------------------------------------
  // What the eager reader reads in general
  // ---------------------------------------------------------------------------------------------

  /** The stream with a blank line put after every data line at which the eager reader delivers. */
  function Segmented(json: Parser, lines: seq<Line>): seq<Line> {
    if |lines| == 0 then []
    else
      var init, last := lines[..|lines| - 1], lines[|lines| - 1];
      var r := Read(json, init);
      if last.Data? && r.status == Reading && Parse(json, r.buffer + [last.text]) != Nothing
      then Segmented(json, init) + [last] + [Blank]
      else Segmented(json, init) + [last]
  }

  /** On every stream whatever, the eager reader is the delimited reader of the segmented stream. */
  lemma {:induction false} EagerReadsSegments(json: Parser, lines: seq<Line>)
    ensures Delimited(json, Segmented(json, lines)) == Read(json, lines)
  {
    if |lines| > 0 {
      var init, last := lines[..|lines| - 1], lines[|lines| - 1];
      EagerReadsSegments(json, init);
      BufferNeverParses(json, init);
      var s := Segmented(json, init);
      ReadSnoc(json, s, last);
      ReadSnoc(json, s + [last], Blank);
    }
  }
}
