/**
 * The server-sent-event frames the Go back end writes (`sendSSEEvent` in
 * internal/api/handlers.go), and how a receiver following the event stream
 * interpretation of section 9.2 of the WHATWG HTML Living Standard reads them
 * back. JSON text is not modelled: a marshaller is a parameter, and may fail.
 *
 * The interpretation below splits lines at LF only; the frames written here
 * contain no CR, so CR and CRLF line ends never arise.
 */
module Sse {
  import opened Wrappers
  import opened GoModels

  /** `s` holds no line break. */
  predicate OneLine(s: string) {
    forall k :: 0 <= k < |s| ==> s[k] != '\n' && s[k] != '\r'
  }

  /** The frame `event: <type>\n` `data: <json>\n\n`. */
  function Frame(eventType: string, json: string): string {
    "event: " + eventType + "\n" + "data: " + json + "\n\n"
  }

  /**
   * `sendSSEEvent`: the event is stamped with the stream's client ID and marshalled;
   * when marshalling fails nothing is written.
   */
  function SendSSEEvent(clientId: string, eventType: string, data: EventData, marshal: APIEvent -> Option<string>): (w: string)
    ensures marshal(APIEvent(clientId, eventType, data)).None? <==> w == ""
    ensures marshal(APIEvent(clientId, eventType, data)).Some? ==>
              w == Frame(eventType, marshal(APIEvent(clientId, eventType, data)).value)
  {
    match marshal(APIEvent(clientId, eventType, data))
    case None => ""
    case Some(json) => Frame(eventType, json)
  }

  // ---------------------------------------------------------------------------
  // The receiver's side
  // ---------------------------------------------------------------------------

  /** The stream cut at each LF, `line` being the part of the current line read so far. */
  function LinesFrom(s: string, line: string): (r: seq<string>)
    ensures |r| >= 1
    decreases |s|
  {
    if s == [] then [line]
    else if s[0] == '\n' then [line] + LinesFrom(s[1..], "")
    else LinesFrom(s[1..], line + [s[0]])
  }

  /** The stream cut at each LF; the piece after the last LF comes last. */
  function Lines(s: string): seq<string> {
    LinesFrom(s, "")
  }

  lemma {:induction false} LinesFromCons(a: string, rest: string, line: string)
    requires forall k :: 0 <= k < |a| ==> a[k] != '\n'
    ensures LinesFrom(a + "\n" + rest, line) == [line + a] + LinesFrom(rest, "")
    decreases |a|
  {
    if a == [] {
      assert a + "\n" + rest == ['\n'] + rest;
      assert line + a == line;
    } else {
      assert (a + "\n" + rest)[0] == a[0];
      assert (a + "\n" + rest)[1..] == a[1..] + "\n" + rest;
      LinesFromCons(a[1..], rest, line + [a[0]]);
      assert line + [a[0]] + a[1..] == line + a;
    }
  }

  lemma LinesCons(a: string, rest: string)
    requires forall k :: 0 <= k < |a| ==> a[k] != '\n'
    ensures Lines(a + "\n" + rest) == [a] + Lines(rest)
  {
    LinesFromCons(a, rest, "");
    assert "" + a == a;
  }

  /** The field name of a line: everything before its first colon (the whole line if none). */
  function FieldName(line: string): string {
    if line == [] then []
    else if line[0] == ':' then []
    else [line[0]] + FieldName(line[1..])
  }

  /** The field value: after the first colon, without one leading space; empty when there is no colon. */
  function FieldValue(line: string): string
    decreases |line|
  {
    if line == [] then []
    else if line[0] == ':' then (if |line| > 1 && line[1] == ' ' then line[2..] else line[1..])
    else FieldValue(line[1..])
  }

  lemma FieldOf(name: string, value: string)
    requires forall k :: 0 <= k < |name| ==> name[k] != ':'
    ensures FieldName(name + ": " + value) == name && FieldValue(name + ": " + value) == value
    decreases |name|
  {
    if name == [] {
      assert name + ": " + value == [':', ' '] + value;
    } else {
      assert (name + ": " + value)[1..] == name[1..] + ": " + value;
      FieldOf(name[1..], value);
    }
  }

  /** A dispatched event: its type and its data. */
  datatype Received = Received(eventType: string, data: string)

  /**
   * Interpreting lines with the current event type and data buffers: a blank line
   * dispatches (nothing when the data buffer is empty; type "message" when none was
   * set) and resets both; an `event` line sets the type; a `data` line appends its
   * value and an LF; a comment or any other field is ignored. The piece after the
   * last line break is not a complete line and is dropped.
   */
  function Interpret(lines: seq<string>, eventType: string, data: string): seq<Received>
    decreases |lines|
  {
    if |lines| <= 1 then []
    else if lines[0] == "" then
      (if data == "" then [] else [Received(if eventType == "" then "message" else eventType, data[..|data| - 1])])
      + Interpret(lines[1..], "", "")
    else if FieldName(lines[0]) == "event" then Interpret(lines[1..], FieldValue(lines[0]), data)
    else if FieldName(lines[0]) == "data" then Interpret(lines[1..], eventType, data + FieldValue(lines[0]) + "\n")
    else Interpret(lines[1..], eventType, data)
  }

  /** The events a receiver dispatches from a whole response body. */
  function Dispatched(body: string): seq<Received> {
    Interpret(Lines(body), "", "")
  }

  /** Frames written one after another. */
  function Concat(frames: seq<string>): string {
    if frames == [] then "" else frames[0] + Concat(frames[1..])
  }

  /** A prefix without LF followed by a one-line text has no LF. */
  lemma NoLf(prefix: string, s: string)
    requires OneLine(s) && forall k :: 0 <= k < |prefix| ==> prefix[k] != '\n'
    ensures forall k :: 0 <= k < |prefix + s| ==> (prefix + s)[k] != '\n'
  {
    forall k | 0 <= k < |prefix + s| ensures (prefix + s)[k] != '\n' {
      if k >= |prefix| {
        assert (prefix + s)[k] == s[k - |prefix|];
      }
    }
  }

  /** Two lines, a blank line, and then `rest`. */
  lemma TwoLinesThenBlank(a: string, b: string, rest: string)
    requires forall k :: 0 <= k < |a| ==> a[k] != '\n'
    requires forall k :: 0 <= k < |b| ==> b[k] != '\n'
    ensures Lines(a + "\n" + b + "\n\n" + rest) == [a, b, ""] + Lines(rest)
  {
    var r1 := "" + "\n" + rest;
    var r2 := b + "\n" + r1;
    LinesCons("", rest);
    LinesCons(b, r1);
    LinesCons(a, r2);
    assert Lines(a + "\n" + r2) == [a, b, ""] + Lines(rest);
    assert a + "\n" + b + "\n\n" + rest == a + "\n" + r2;
  }

  /** The lines of a frame followed by more output. */
  lemma FrameLines(eventType: string, json: string, rest: string)
    requires OneLine(eventType) && OneLine(json)
    ensures Lines(Frame(eventType, json) + rest) == ["event: " + eventType, "data: " + json, ""] + Lines(rest)
  {
    NoLf("event: ", eventType);
    NoLf("data: ", json);
    assert Frame(eventType, json) + rest == ("event: " + eventType) + "\n" + ("data: " + json) + "\n\n" + rest;
    TwoLinesThenBlank("event: " + eventType, "data: " + json, rest);
  }

  /** Interpreting an event line, a data line and a blank line dispatches that one event. */
  lemma InterpretFrame(l1: string, l2: string, more: seq<string>, eventType: string, json: string)
    requires l1 != "" && FieldName(l1) == "event" && FieldValue(l1) == eventType && eventType != ""
    requires l2 != "" && FieldName(l2) == "data" && FieldValue(l2) == json && json != ""
    requires |more| >= 1
    ensures Interpret([l1, l2, ""] + more, "", "") == [Received(eventType, json)] + Interpret(more, "", "")
  {
    assert [l1, l2, ""] + more == [l1] + ([l2] + ([""] + more));
    InterpretEventLine(l1, [l2] + ([""] + more), "");
    InterpretDataLine(l2, [""] + more, eventType, "");
    assert "" + json + "\n" == json + "\n";
    InterpretBlankLine(more, eventType, json + "\n");
    assert (json + "\n")[..|json|] == json;
  }

  /** An `event` line sets the event type. */
  lemma InterpretEventLine(l: string, rest: seq<string>, data: string)
    requires l != "" && FieldName(l) == "event" && |rest| >= 1
    ensures Interpret([l] + rest, "", data) == Interpret(rest, FieldValue(l), data)
  {
    assert ([l] + rest)[0] == l && ([l] + rest)[1..] == rest;
  }

  /** A `data` line appends its value and an LF to the data buffer. */
  lemma InterpretDataLine(l: string, rest: seq<string>, eventType: string, data: string)
    requires l != "" && FieldName(l) == "data" && |rest| >= 1
    ensures Interpret([l] + rest, eventType, data) == Interpret(rest, eventType, data + FieldValue(l) + "\n")
  {
    assert ([l] + rest)[0] == l && ([l] + rest)[1..] == rest;
    assert FieldName(l) != "event";
  }

  /** A blank line dispatches a non-empty data buffer, without its last LF, and resets both buffers. */
  lemma InterpretBlankLine(rest: seq<string>, eventType: string, data: string)
    requires |rest| >= 1 && eventType != "" && data != ""
    ensures Interpret([""] + rest, eventType, data) == [Received(eventType, data[..|data| - 1])] + Interpret(rest, "", "")
  {
    assert ([""] + rest)[0] == "" && ([""] + rest)[1..] == rest;
  }

  /** One frame followed by more output is read as its event followed by what the rest yields. */
  lemma FrameThenRest(eventType: string, json: string, rest: string)
    requires OneLine(eventType) && OneLine(json) && json != "" && eventType != ""
    ensures Dispatched(Frame(eventType, json) + rest) == [Received(eventType, json)] + Dispatched(rest)
  {
    FrameLines(eventType, json, rest);
    assert "event: " + eventType == "event" + ": " + eventType;
    assert "data: " + json == "data" + ": " + json;
    FieldOf("event", eventType);
    FieldOf("data", json);
    InterpretFrame("event: " + eventType, "data: " + json, Lines(rest), eventType, json);
  }

  /**
   * Writing a sequence of frames with non-empty one-line types and JSON texts is read
   * back as exactly those events, in order.
   */
  lemma {:induction false} FramesRoundTrip(events: seq<Received>)
    requires forall k :: 0 <= k < |events| ==>
               OneLine(events[k].eventType) && OneLine(events[k].data) && events[k].eventType != "" && events[k].data != ""
    ensures Dispatched(Concat(FramesOf(events))) == events
  {
    if events == [] {
      assert Lines("") == [""];
    } else {
      var frames := FramesOf(events);
      FramesRoundTrip(events[1..]);
      assert frames[1..] == FramesOf(events[1..]);
      assert Concat(frames) == frames[0] + Concat(FramesOf(events[1..]));
      FrameThenRest(events[0].eventType, events[0].data, Concat(FramesOf(events[1..])));
      assert events == [events[0]] + events[1..];
    }
  }

  /** The frame of each event. */
  function FramesOf(events: seq<Received>): (r: seq<string>)
    ensures |r| == |events|
    ensures forall k :: 0 <= k < |events| ==> r[k] == Frame(events[k].eventType, events[k].data)
  {
    seq(|events|, k requires 0 <= k < |events| => Frame(events[k].eventType, events[k].data))
  }
}
