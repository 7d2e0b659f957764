/**
 * The body reader of `stream_response`: it walks the response body line by
 * line, skips the blank separators and the lines that do not carry the
 * `data: ` field of the Server-Sent Events format (a simplified subset of
 * section 9.2 of the WHATWG HTML Living Standard), and decodes every other
 * line as one JSON event.
 */
module EventStream {
  import opened Wrappers
  import opened JsonValue

  type byte = b: int | 0 <= b < 256

  /** One line of the response body as the transport delivers it, usually ending in `\n`. */
  type Line = seq<byte>

  /** The six bytes `data: ` that open every data line. */
  const DataPrefix: Line := [0x64, 0x61, 0x74, 0x61, 0x3A, 0x20]

  /** Python's `s[:n]`: the first n elements, or all of s when it is shorter. */
  function Take<T>(s: seq<T>, n: nat): (r: seq<T>)
    ensures |r| == if |s| < n then |s| else n
    ensures r <= s
  {
    if |s| <= n then s else s[..n]
  }

  /** Python's `s[n:]`: what follows the first n elements, empty when s is shorter. */
  function Drop<T>(s: seq<T>, n: nat): (r: seq<T>)
    ensures Take(s, n) + r == s
  {
    if |s| <= n then [] else s[n..]
  }

  /** What the loop does with one body line before decoding anything. */
  datatype LineKind =
    | Separator   // skipped silently
    | BadHeader   // a warning is printed and the line is skipped
    | DataLine    // the rest of the line is decoded as one event

  function Classify(line: Line): (k: LineKind)
    ensures k == Separator <==> |line| == 1
    ensures k == DataLine <==> |line| >= 6 && line[..6] == DataPrefix
  {
    if |line| == 1 then Separator
    else if Take(line, 6) != DataPrefix then BadHeader
    else DataLine
  }

  /**
   * The two foreign decoders the loop calls on a data line: UTF-8 decoding
   * of the whole line (`bytes.decode`) and `json.loads`. Both are partial;
   * `None` stands for the exception each raises.
   */
  datatype Decoders = Decoders(utf8: Line -> Option<string>, loads: string -> Option<Json>)

  /** The exception that ends the stream: UnicodeDecodeError or JSONDecodeError. */
  datatype DecodeError = InvalidUtf8 | InvalidJson

  /** The event a data line decodes to: the whole line decoded, its first six characters dropped, the rest parsed. */
  function DecodeLine(dec: Decoders, line: Line): (r: Result<Json, DecodeError>)
    ensures r == Err(InvalidUtf8) <==> dec.utf8(line).None?
    ensures dec.utf8(line).Some? ==>
      var text := dec.utf8(line).value;
      var rest := if |text| >= 6 then text[6..] else "";
      && (r.Ok? <==> dec.loads(rest).Some?)
      && (r.Ok? ==> r.value == dec.loads(rest).value)
  {
    match dec.utf8(line)
    case None => Err(InvalidUtf8)
    case Some(text) =>
      match dec.loads(Drop(text, 6))
      case None => Err(InvalidJson)
      case Some(event) => Ok(event)
  }

  /**
   * One pass of the generator over the body: the events it yielded, in
   * order; the exception that ended it, if any; and how many body lines it
   * pulled from the transport.
   */
  datatype StreamRun = StreamRun(events: seq<Json>, failure: Option<DecodeError>, linesRead: nat)

  /** A run that first yielded `events` from `read` lines and then went on as `rest`. */
  function After(events: seq<Json>, read: nat, rest: StreamRun): StreamRun {
    StreamRun(events + rest.events, rest.failure, read + rest.linesRead)
  }

  /** The lines that reach the decoder, in body order. */
  function DataLines(lines: seq<Line>): (r: seq<Line>)
    ensures |r| <= |lines|
  {
    if lines == [] then []
    else if Classify(lines[0]) == DataLine then [lines[0]] + DataLines(lines[1..])
    else DataLines(lines[1..])
  }

  /** The lines the generator finished with: all it read except one whose decoding raised. */
  function LinesCompleted(run: StreamRun): nat {
    if run.failure.Some? && run.linesRead > 0 then run.linesRead - 1 else run.linesRead
  }

  /** What one line contributes: the events it yields (none or one), or the exception it raises. */
  function LineResult(dec: Decoders, line: Line): Result<seq<Json>, DecodeError> {
    match Classify(line)
    case Separator => Ok([])
    case BadHeader => Ok([])
    case DataLine =>
      match DecodeLine(dec, line)
      case Err(e) => Err(e)
      case Ok(event) => Ok([event])
  }

  /** What the loop does with one line, given what it goes on to do with the lines after it. */
  function StepLine(dec: Decoders, line: Line, rest: StreamRun): StreamRun {
    match LineResult(dec, line)
    case Err(e) => StreamRun([], Some(e), 1)
    case Ok(yielded) => After(yielded, 1, rest)
  }

  /** What the generator produces from a whole body: the specification of StreamBody. */
  function DecodeBody(dec: Decoders, lines: seq<Line>): (run: StreamRun)
    ensures run.linesRead <= |lines|
    ensures |run.events| <= run.linesRead
    ensures run.failure.None? ==> run.linesRead == |lines|
    ensures run.failure.Some? ==> run.linesRead >= 1
  {
    if lines == [] then StreamRun([], None, 0)
    else StepLine(dec, lines[0], DecodeBody(dec, lines[1..]))
  }

  /** The `async for` loop of `stream_response`, over a body already split into lines. */
  method StreamBody(dec: Decoders, body: seq<Line>) returns (run: StreamRun)
    ensures run == DecodeBody(dec, body)
  {
    var events: seq<Json> := [];
    var i := 0;
    while i < |body|
      invariant 0 <= i <= |body|
      invariant After(events, i, DecodeBody(dec, body[i..])) == DecodeBody(dec, body)
    {
      var rawLine := body[i];
      if |rawLine| == 1 {
        LineSkipped(dec, body, events, i);
      } else if Take(rawLine, 6) != DataPrefix {
        LineSkipped(dec, body, events, i);
      } else {
        var text := dec.utf8(rawLine);
        if text.None? {
          LineRaises(dec, body, events, i, InvalidUtf8);
          return StreamRun(events, Some(InvalidUtf8), i + 1);
        }
        var event := dec.loads(Drop(text.value, 6));
        if event.None? {
          LineRaises(dec, body, events, i, InvalidJson);
          return StreamRun(events, Some(InvalidJson), i + 1);
        }
        LineYields(dec, body, events, i, [event.value]);
        events := events + [event.value];
      }
      i := i + 1;
    }
    assert body[i..] == [];
    run := StreamRun(events, None, |body|);
  }

  /** The loop step for a line that yields `yielded` and lets the loop go on. */
  lemma LineYields(dec: Decoders, body: seq<Line>, events: seq<Json>, i: nat, yielded: seq<Json>)
    requires i < |body| && LineResult(dec, body[i]) == Ok(yielded)
    requires After(events, i, DecodeBody(dec, body[i..])) == DecodeBody(dec, body)
    ensures After(events + yielded, i + 1, DecodeBody(dec, body[i + 1..])) == DecodeBody(dec, body)
  {
    assert body[i..][1..] == body[i + 1..];
    AfterAfter(events, i, yielded, 1, DecodeBody(dec, body[i + 1..]));
  }

  /** The loop step for a line that is skipped. */
  lemma LineSkipped(dec: Decoders, body: seq<Line>, events: seq<Json>, i: nat)
    requires i < |body| && LineResult(dec, body[i]) == Ok([])
    requires After(events, i, DecodeBody(dec, body[i..])) == DecodeBody(dec, body)
    ensures After(events, i + 1, DecodeBody(dec, body[i + 1..])) == DecodeBody(dec, body)
  {
    LineYields(dec, body, events, i, []);
    assert events + [] == events;
  }

  /** The loop step for a line whose decoding raises `e`, which ends the generator. */
  lemma LineRaises(dec: Decoders, body: seq<Line>, events: seq<Json>, i: nat, e: DecodeError)
    requires i < |body| && LineResult(dec, body[i]) == Err(e)
    requires After(events, i, DecodeBody(dec, body[i..])) == DecodeBody(dec, body)
    ensures StreamRun(events, Some(e), i + 1) == DecodeBody(dec, body)
  {
    assert events + [] == events;
  }

  lemma AfterAfter(first: seq<Json>, m: nat, second: seq<Json>, n: nat, rest: StreamRun)
    ensures After(first, m, After(second, n, rest)) == After(first + second, m + n, rest)
  {
    assert first + (second + rest.events) == first + second + rest.events;
  }

  /** Decoding a body is decoding its first part and, unless that raised, going on with the rest. */
  lemma {:induction false} DecodeBodyAppend(dec: Decoders, a: seq<Line>, b: seq<Line>)
    ensures DecodeBody(dec, a + b) ==
      if DecodeBody(dec, a).failure.Some? then DecodeBody(dec, a)
      else After(DecodeBody(dec, a).events, |a|, DecodeBody(dec, b))
  {
    if a == [] {
      assert a + b == b;
    } else {
      assert (a + b)[0] == a[0];
      assert (a + b)[1..] == a[1..] + b;
      DecodeBodyAppend(dec, a[1..], b);
      var tail := DecodeBody(dec, a[1..]);
      if tail.failure.None? {
        var rest := DecodeBody(dec, b);
        match LineResult(dec, a[0])
        case Ok(first) =>
          assert DecodeBody(dec, a + b) == After(first, 1, After(tail.events, |a| - 1, rest));
          assert first + tail.events + rest.events == first + (tail.events + rest.events);
        case Err(_) =>
      }
    }
  }

  /**
   * Every line the loop finished with was either skipped or yielded exactly
   * one event: the events are the decoded data lines among them, in order.
   */
  lemma {:induction false} EventsAreDecodedDataLines(dec: Decoders, lines: seq<Line>)
    ensures LinesCompleted(DecodeBody(dec, lines)) <= |lines|
    ensures var run := DecodeBody(dec, lines);
            var accepted := DataLines(lines[..LinesCompleted(run)]);
            && |run.events| == |accepted|
            && forall j :: 0 <= j < |accepted| ==> DecodeLine(dec, accepted[j]) == Ok(run.events[j])
  {
    if lines != [] {
      var run := DecodeBody(dec, lines);
      var rest := DecodeBody(dec, lines[1..]);
      EventsAreDecodedDataLines(dec, lines[1..]);
      var n := LinesCompleted(run);
      if Classify(lines[0]) == DataLine && DecodeLine(dec, lines[0]).Err? {
        assert n == 0;
        assert lines[..n] == [];
      } else {
        assert n == 1 + LinesCompleted(rest);
        assert lines[..n][0] == lines[0];
        assert lines[..n][1..] == lines[1..][..LinesCompleted(rest)];
      }
    }
  }

  /** The stream raises exactly when some data line fails to decode. */
  lemma {:induction false} FailsIffSomeDataLineFails(dec: Decoders, lines: seq<Line>)
    ensures DecodeBody(dec, lines).failure.Some? <==>
      exists j :: 0 <= j < |lines| && Classify(lines[j]) == DataLine && DecodeLine(dec, lines[j]).Err?
  {
    if lines != [] {
      FailsIffSomeDataLineFails(dec, lines[1..]);
      if exists j :: 0 <= j < |lines[1..]| && Classify(lines[1..][j]) == DataLine && DecodeLine(dec, lines[1..][j]).Err? {
        var j :| 0 <= j < |lines[1..]| && Classify(lines[1..][j]) == DataLine && DecodeLine(dec, lines[1..][j]).Err?;
        assert lines[j + 1] == lines[1..][j];
      }
      if exists j :: 0 <= j < |lines| && Classify(lines[j]) == DataLine && DecodeLine(dec, lines[j]).Err? {
        var j :| 0 <= j < |lines| && Classify(lines[j]) == DataLine && DecodeLine(dec, lines[j]).Err?;
        if j > 0 {
          assert lines[1..][j - 1] == lines[j];
        }
      }
    }
  }

  /**
   * When the stream raises, the error comes from the first data line that
   * fails to decode, that line is the last one read, and no later line is read.
   */
  lemma {:induction false} FailureIsFirstBadDataLine(dec: Decoders, lines: seq<Line>)
    requires DecodeBody(dec, lines).failure.Some?
    ensures var run := DecodeBody(dec, lines);
            var k := run.linesRead - 1;
            && 0 <= k < |lines|
            && Classify(lines[k]) == DataLine
            && DecodeLine(dec, lines[k]) == Err(run.failure.value)
            && forall j :: 0 <= j < k && Classify(lines[j]) == DataLine ==> DecodeLine(dec, lines[j]).Ok?
  {
    var run := DecodeBody(dec, lines);
    if !(Classify(lines[0]) == DataLine && DecodeLine(dec, lines[0]).Err?) {
      FailureIsFirstBadDataLine(dec, lines[1..]);
      var k := run.linesRead - 1;
      forall j | 0 <= j < k && Classify(lines[j]) == DataLine
        ensures DecodeLine(dec, lines[j]).Ok?
      {
        if j > 0 {
          assert lines[j] == lines[1..][j - 1];
        }
      }
    }
  }

  /**
   * A data line that decodes never ends the stream, even when its event
   * carries `stop: true`: the event is yielded and the lines after it are
   * still read and decoded.
   */
  lemma DataLineNeverEndsStream(dec: Decoders, before: seq<Line>, line: Line, after: seq<Line>, event: Json)
    requires DecodeBody(dec, before).failure.None?
    requires Classify(line) == DataLine && DecodeLine(dec, line) == Ok(event)
    ensures DecodeBody(dec, before + [line] + after) ==
      After(DecodeBody(dec, before).events + [event], |before| + 1, DecodeBody(dec, after))
  {
    DecodeBodyAppend(dec, before + [line], after);
    DecodeBodyAppend(dec, before, [line]);
    assert [line][1..] == [];
  }
}
