/** The events the chat server streams to the browser and their framing: each event is one
    `data: <json>` line followed by a blank line, the single-line subset of the server-sent
    events format of section 9.2 of the WHATWG HTML Living Standard. */
module StreamEvents {
  import opened Wrappers
  import opened JsonText

  datatype StreamEvent =
    | Text(content: string)
    | ToolStart(tool: string)
    | ToolEnd(tool: string)
    | Done
    | Error(content: string)
  {
    /** `done` and `error` end a stream. */
    predicate IsTerminal() { Done? || Error? }
  }

  const DATA_PREFIX: string := "data: "
  const FRAME_END: string := "\n\n"

  /** The object literal the server hands to JSON.stringify for an event, in its key order. */
  function Fields(e: StreamEvent): (ms: Members)
    ensures |ms| >= 1 && ms[0].0 == "type"
  {
    match e
    case Text(c) => [("type", "text"), ("content", c)]
    case ToolStart(t) => [("type", "tool_start"), ("tool", t)]
    case ToolEnd(t) => [("type", "tool_end"), ("tool", t)]
    case Done => [("type", "done")]
    case Error(c) => [("type", "error"), ("content", c)]
  }

  /** The structured reading of an event object: the inverse of Fields on the shapes the
      server writes, `None` on every other object. */
  function FromFields(ms: Members): (r: Option<StreamEvent>)
    ensures r.Some? ==> Fields(r.value) == ms
  {
    if |ms| == 1 && ms[0] == ("type", "done") then Some(Done)
    else if |ms| != 2 || ms[0].0 != "type" then None
    else if ms[0].1 == "text" && ms[1].0 == "content" then Some(Text(ms[1].1))
    else if ms[0].1 == "tool_start" && ms[1].0 == "tool" then Some(ToolStart(ms[1].1))
    else if ms[0].1 == "tool_end" && ms[1].0 == "tool" then Some(ToolEnd(ms[1].1))
    else if ms[0].1 == "error" && ms[1].0 == "content" then Some(Error(ms[1].1))
    else None
  }

  /** The frame text without its terminating blank line. */
  function Payload(e: StreamEvent): (p: string)
    ensures '\n' !in p
    ensures |p| > |DATA_PREFIX| && p[..|DATA_PREFIX|] == DATA_PREFIX
  {
    DATA_PREFIX + Stringify(Fields(e))
  }

  /** One frame as the server enqueues it: `data: <json>\n\n`. */
  function EncodeFrame(e: StreamEvent): (f: string)
    ensures |f| > |DATA_PREFIX| + |FRAME_END|
    ensures f[..|DATA_PREFIX|] == DATA_PREFIX && f[|f| - |FRAME_END|..] == FRAME_END
    ensures '\n' !in f[..|f| - |FRAME_END|]
  {
    var p := Payload(e);
    FrameSlices(p);
    assert (p + FRAME_END)[..|p|] == p;
    p + FRAME_END
  }

  /** The whole stream: the frames of the events, in order. */
  function Encode(es: seq<StreamEvent>): string
    decreases |es|
  {
    if es == [] then [] else EncodeFrame(es[0]) + Encode(es[1..])
  }

  /** Reads one frame back into an event. */
  function DecodeFrame(frame: string): Option<StreamEvent>
  {
    if |frame| < |DATA_PREFIX| + |FRAME_END|
      || frame[..|DATA_PREFIX|] != DATA_PREFIX
      || frame[|frame| - |FRAME_END|..] != FRAME_END
    then None
    else match ParseObject(frame[|DATA_PREFIX|..|frame| - |FRAME_END|])
      case None => None
      case Some(ms) => FromFields(ms)
  }

  /** The JSON text of an event parses back to exactly the object the server serialized. */
  lemma PayloadParses(e: StreamEvent)
    ensures ParseObject(Payload(e)[|DATA_PREFIX|..]) == Some(Fields(e))
  {
    assert Payload(e)[|DATA_PREFIX|..] == Stringify(Fields(e));
    StringifyRoundTrip(Fields(e));
  }

  lemma FieldsRoundTrip(e: StreamEvent)
    ensures FromFields(Fields(e)) == Some(e)
  {
  }

  /** Encoding an event of any of the five kinds as a frame and reading the frame back gives
      the same event. */
  lemma FrameRoundTrip(e: StreamEvent)
    ensures DecodeFrame(EncodeFrame(e)) == Some(e)
  {
    var p := Payload(e);
    FrameSlices(p);
    PayloadParses(e);
    FieldsRoundTrip(e);
  }

  /** Where the prefix, the JSON text and the blank line sit in a frame. */
  lemma FrameSlices(p: string)
    requires |p| > |DATA_PREFIX| && p[..|DATA_PREFIX|] == DATA_PREFIX
    ensures var f := p + FRAME_END;
      && |f| >= |DATA_PREFIX| + |FRAME_END|
      && f[..|DATA_PREFIX|] == DATA_PREFIX
      && f[|f| - |FRAME_END|..] == FRAME_END
      && f[|DATA_PREFIX|..|f| - |FRAME_END|] == p[|DATA_PREFIX|..]
  {
    var f := p + FRAME_END;
    assert f[..|DATA_PREFIX|] == p[..|DATA_PREFIX|];
  }
}
