/** The browser side of the chat: the hook's state (messages, loading flag, tool status, the
    open request), the incremental reader that cuts the streamed text into frames, and the fold
    of the frames' events into the state. */
module UseChat {
  import opened Wrappers
  import opened Json
  import opened JsonText
  import opened StreamEvents
  import opened ChatModel

  const CREATE_EVENT_LABEL: string := "일정을 생성하고 있습니다..."
  const GET_EVENTS_LABEL: string := "일정을 조회하고 있습니다..."
  const GET_COURTS_LABEL: string := "코트 정보를 조회하고 있습니다..."
  const OTHER_TOOL_LABEL: string := "처리 중..."
  /** The content an `error` event without content leaves in the reply. */
  const DEFAULT_ERROR: string := "오류가 발생했습니다."
  /** The content a failed request leaves in the reply. */
  const SEND_FAILED: string := "죄송합니다. 오류가 발생했습니다. 다시 시도해주세요."

  // ---------------------------------------------------------------- input

  /** The characters `String.prototype.trim` removes: white space and line terminators. */
  predicate IsJsWhitespace(c: char)
  {
    || c == '\t' || c == '\n' || c == '\U{B}' || c == '\U{C}' || c == '\r' || c == ' '
    || c == '\U{A0}' || c == '\U{1680}' || ('\U{2000}' <= c <= '\U{200A}')
    || c == '\U{2028}' || c == '\U{2029}' || c == '\U{202F}' || c == '\U{205F}'
    || c == '\U{3000}' || c == '\U{FEFF}'
  }

  /** The message is empty once trimmed. */
  predicate IsBlank(s: string)
  {
    forall i :: 0 <= i < |s| ==> IsJsWhitespace(s[i])
  }

  // ---------------------------------------------------------------- framing

  /** `s.split('\n\n')`: the pieces between the leftmost non-overlapping occurrences of the
      blank-line delimiter, scanning from the left. */
  function Split(s: string): (parts: seq<string>)
    ensures |parts| >= 1
    decreases |s|
  {
    if |s| >= 2 && s[0] == '\n' && s[1] == '\n' then [[]] + Split(s[2..])
    else if s == [] then [[]]
    else
      var rest := Split(s[1..]);
      [[s[0]] + rest[0]] + rest[1..]
  }

  /** `parts.join('\n\n')`. */
  function Join(parts: seq<string>): string
    requires |parts| >= 1
    decreases |parts|
  {
    if |parts| == 1 then parts[0] else parts[0] + "\n\n" + Join(parts[1..])
  }

  predicate NoDelimiter(s: string)
  {
    forall i :: 0 <= i < |s| - 1 ==> !(s[i] == '\n' && s[i + 1] == '\n')
  }

  function Last<T>(xs: seq<T>): T
    requires |xs| >= 1
  {
    xs[|xs| - 1]
  }

  function Init<T>(xs: seq<T>): seq<T>
    requires |xs| >= 1
  {
    xs[..|xs| - 1]
  }

  /** Joining the pieces gives the text back. */
  lemma {:induction false} SplitJoin(s: string)
    ensures Join(Split(s)) == s
    decreases |s|
  {
    if |s| >= 2 && s[0] == '\n' && s[1] == '\n' {
      var tail := Split(s[2..]);
      SplitDelimiter(s);
      SplitJoin(s[2..]);
      JoinCons([], tail);
      assert s == "\n\n" + s[2..];
    } else if s != [] {
      var rest := Split(s[1..]);
      SplitCons(s);
      SplitJoin(s[1..]);
      var head := [s[0]] + rest[0];
      if |rest| == 1 {
        assert Join(Split(s)) == head;
      } else {
        JoinCons(head, rest[1..]);
        assert rest == [rest[0]] + rest[1..];
        JoinCons(rest[0], rest[1..]);
        RegroupTail([s[0]], rest[0], "\n\n", Join(rest[1..]));
      }
      assert s == [s[0]] + s[1..];
    }
  }

  lemma JoinCons(h: string, t: seq<string>)
    requires |t| >= 1
    ensures Join([h] + t) == h + "\n\n" + Join(t)
  {
    assert ([h] + t)[1..] == t;
  }

  lemma RegroupTail(a: string, b: string, c: string, d: string)
    ensures a + b + c + d == a + (b + c + d)
  {
  }

  /** No piece holds the delimiter. */
  lemma {:induction false} SplitPiecesHaveNoDelimiter(s: string)
    ensures forall i :: 0 <= i < |Split(s)| ==> NoDelimiter(Split(s)[i])
    decreases |s|
  {
    var parts := Split(s);
    if |s| >= 2 && s[0] == '\n' && s[1] == '\n' {
      SplitPiecesHaveNoDelimiter(s[2..]);
      assert forall i :: 1 <= i < |parts| ==> parts[i] == Split(s[2..])[i - 1];
    } else if s != [] {
      var rest := Split(s[1..]);
      SplitPiecesHaveNoDelimiter(s[1..]);
      var head := [s[0]] + rest[0];
      assert parts == [head] + rest[1..];
      assert forall i :: 1 <= i < |parts| ==> parts[i] == rest[i];
      HeadHasNoDelimiter(s);
    }
  }

  lemma HeadHasNoDelimiter(s: string)
    requires s != [] && !(|s| >= 2 && s[0] == '\n' && s[1] == '\n')
    requires NoDelimiter(Split(s[1..])[0])
    ensures NoDelimiter([s[0]] + Split(s[1..])[0])
  {
    var piece := Split(s[1..])[0];
    var head := [s[0]] + piece;
    if |piece| > 0 && piece[0] == '\n' {
      SplitHeadStart(s[1..]);
    }
    assert forall i :: 1 <= i < |head| ==> head[i] == piece[i - 1];
  }

  /** A first piece that starts with a line feed means the text starts with a line feed that
      does not begin the delimiter. */
  lemma {:induction false} SplitHeadStart(s: string)
    requires |Split(s)[0]| > 0 && Split(s)[0][0] == '\n'
    ensures |s| > 0 && s[0] == '\n' && !(|s| >= 2 && s[1] == '\n')
    decreases |s|
  {
  }

  /** A text that splits into one piece is that piece. */
  lemma {:induction false} SplitSingle(s: string)
    requires |Split(s)| == 1
    ensures Split(s) == [s]
    decreases |s|
  {
    if s != [] {
      SplitSingle(s[1..]);
      assert [s[0]] + s[1..] == s;
    }
  }

  /** The last piece, kept as the buffer, never holds a complete frame. */
  lemma {:induction false} LastPieceIsWhole(s: string)
    ensures |Split(Last(Split(s)))| == 1
    decreases |s|
  {
    if |s| >= 2 && s[0] == '\n' && s[1] == '\n' {
      SplitDelimiter(s);
      InitLastCons([], Split(s[2..]));
      LastPieceIsWhole(s[2..]);
    } else if s != [] {
      var rest := Split(s[1..]);
      SplitCons(s);
      if |rest| > 1 {
        assert Last(Split(s)) == Last(rest);
        LastPieceIsWhole(s[1..]);
      } else {
        SplitSingle(s[1..]);
        assert [s[0]] + s[1..] == s;
        assert Split(s) == [s];
      }
    }
  }

  /** Cuts made before the last piece do not depend on what is appended: splitting `s + y` is
      splitting `s` with `y` appended to its last piece. */
  lemma {:induction false} SplitAppend(s: string, y: string)
    ensures Split(s + y) == Init(Split(s)) + Split(Last(Split(s)) + y)
    decreases |s|
  {
    if |Split(s)| == 1 {
      SplitSingle(s);
      assert Init(Split(s)) == [];
    } else if |s| >= 2 && s[0] == '\n' && s[1] == '\n' {
      SplitAppend(s[2..], y);
      SplitAppendDelimiter(s, y);
    } else {
      SplitAppend(s[1..], y);
      SplitAppendStep(s, y);
    }
  }

  lemma SplitAppendDelimiter(s: string, y: string)
    requires |s| >= 2 && s[0] == '\n' && s[1] == '\n'
    requires Split(s[2..] + y) == Init(Split(s[2..])) + Split(Last(Split(s[2..])) + y)
    ensures Split(s + y) == Init(Split(s)) + Split(Last(Split(s)) + y)
  {
    var tail := Split(s[2..]);
    SplitDelimiter(s);
    assert (s + y)[2..] == s[2..] + y;
    SplitDelimiter(s + y);
    DelimiterPieces([], tail, Split(Last(tail) + y));
  }

  /** The bookkeeping of SplitAppendDelimiter on the pieces alone. */
  lemma DelimiterPieces<T>(e: T, tail: seq<T>, z: seq<T>)
    requires |tail| >= 1
    ensures [e] + (Init(tail) + z) == Init([e] + tail) + z && Last([e] + tail) == Last(tail)
  {
    InitLastCons(e, tail);
  }

  /** One unfolding of Split on a text that starts with the delimiter. */
  lemma SplitDelimiter(s: string)
    requires |s| >= 2 && s[0] == '\n' && s[1] == '\n'
    ensures Split(s) == [[]] + Split(s[2..])
  {
  }

  lemma InitLastCons<T>(h: T, xs: seq<T>)
    requires |xs| >= 1
    ensures Init([h] + xs) == [h] + Init(xs) && Last([h] + xs) == Last(xs)
  {
    assert Init([h] + xs) == [h] + Init(xs);
  }

  lemma {:induction false} SplitAppendStep(s: string, y: string)
    requires |Split(s)| > 1 && !(|s| >= 2 && s[0] == '\n' && s[1] == '\n')
    requires Split(s[1..] + y) == Init(Split(s[1..])) + Split(Last(Split(s[1..])) + y)
    ensures Split(s + y) == Init(Split(s)) + Split(Last(Split(s)) + y)
    decreases |s|, 0
  {
    var rest := Split(s[1..]);
    SplitCons(s);
    assert (s + y)[1..] == s[1..] + y;
    SplitCons(s + y);
    StepPieces(s[0], rest, Split(Last(rest) + y));
  }

  /** One unfolding of Split on a text that does not start with the delimiter. */
  lemma SplitCons(s: string)
    requires s != [] && !(|s| >= 2 && s[0] == '\n' && s[1] == '\n')
    ensures Split(s) == [[s[0]] + Split(s[1..])[0]] + Split(s[1..])[1..]
  {
  }

  /** The bookkeeping of SplitAppendStep on the pieces alone. */
  lemma StepPieces(c: char, rest: seq<string>, tail: seq<string>)
    requires |rest| > 1
    ensures var r := Init(rest) + tail;
      var parts := [[c] + rest[0]] + rest[1..];
      && [[c] + r[0]] + r[1..] == Init(parts) + tail
      && Last(parts) == Last(rest)
  {
    var r := Init(rest) + tail;
    var parts := [[c] + rest[0]] + rest[1..];
    assert r[0] == rest[0];
    assert r[1..] == Init(rest)[1..] + tail;
    assert Init(parts) == [[c] + rest[0]] + Init(rest)[1..];
  }

  /** A frame whose body has no line feed is cut off whole. */
  lemma {:induction false} SplitFrame(body: string, rest: string)
    requires '\n' !in body
    ensures Split(body + "\n\n" + rest) == [body] + Split(rest)
    decreases |body|
  {
    var s := body + "\n\n" + rest;
    if body == [] {
      assert s == "\n\n" + rest;
      assert s[2..] == rest;
    } else {
      SplitFrame(body[1..], rest);
      assert s[1..] == body[1..] + "\n\n" + rest;
      assert [body[0]] + body[1..] == body;
    }
  }

  /** Frame bodies, each followed by the delimiter. */
  function Frames(bodies: seq<string>): string
    decreases |bodies|
  {
    if bodies == [] then [] else bodies[0] + "\n\n" + Frames(bodies[1..])
  }

  /** Splitting frames whose bodies have no line feed gives the bodies, then whatever follows. */
  lemma {:induction false} SplitFrames(bodies: seq<string>, tail: string)
    requires forall i :: 0 <= i < |bodies| ==> '\n' !in bodies[i]
    ensures Split(Frames(bodies) + tail) == bodies + Split(tail)
    decreases |bodies|
  {
    if bodies != [] {
      var b := bodies[0];
      var rest := Frames(bodies[1..]) + tail;
      calc {
        Split(Frames(bodies) + tail);
        { assert Frames(bodies) + tail == b + "\n\n" + rest; }
        Split(b + "\n\n" + rest);
        { SplitFrame(b, rest); }
        [b] + Split(rest);
        { SplitFrames(bodies[1..], tail); }
        [b] + (bodies[1..] + Split(tail));
        { assert [b] + bodies[1..] == bodies; }
        bodies + Split(tail);
      }
    } else {
      assert Frames(bodies) + tail == tail;
    }
  }

  /** The payloads of the events, in order. */
  function Payloads(es: seq<StreamEvent>): (ps: seq<string>)
    ensures |ps| == |es|
    ensures forall i :: 0 <= i < |ps| ==> '\n' !in ps[i]
    decreases |es|
  {
    if es == [] then [] else [Payload(es[0])] + Payloads(es[1..])
  }

  /** The server's stream is the frames of the payloads. */
  lemma {:induction false} EncodeIsFrames(es: seq<StreamEvent>)
    ensures Encode(es) == Frames(Payloads(es))
    decreases |es|
  {
    if es != [] {
      EncodeIsFrames(es[1..]);
      assert Payloads(es)[1..] == Payloads(es[1..]);
    }
  }

  /** Splitting an encoded stream gives each event's payload, then an empty rest. */
  lemma SplitEncoded(es: seq<StreamEvent>)
    ensures Split(Encode(es)) == Payloads(es) + [[]]
  {
    EncodeIsFrames(es);
    SplitFrames(Payloads(es), []);
    assert Frames(Payloads(es)) + [] == Frames(Payloads(es));
  }

  // ---------------------------------------------------------------- the fold

  /** What the chat window shows: the messages and the tool status line. */
  datatype View = View(messages: seq<ChatMessage>, toolStatus: Option<string>)

  /** The last message gets `s` appended when it is the assistant's; nothing changes otherwise. */
  function AppendToLast(ms: seq<ChatMessage>, s: string): seq<ChatMessage>
  {
    if |ms| > 0 && ms[|ms| - 1].role == Assistant
    then ms[..|ms| - 1] + [ChatMessage(Assistant, ms[|ms| - 1].content + s)]
    else ms
  }

  /** The last message's content becomes `s` when it is the assistant's; nothing changes otherwise. */
  function SetLast(ms: seq<ChatMessage>, s: string): seq<ChatMessage>
  {
    if |ms| > 0 && ms[|ms| - 1].role == Assistant
    then ms[..|ms| - 1] + [ChatMessage(Assistant, s)]
    else ms
  }

  function OrElse(v: Option<string>, default: string): string
  {
    match v
    case Some(s) => s
    case None => default
  }

  /** The status line while a tool runs. */
  function ToolLabel(tool: Option<string>): (shown: string)
    ensures shown == OTHER_TOOL_LABEL <==>
      tool != Some("create_event") && tool != Some("get_events") && tool != Some("get_courts")
  {
    if tool == Some("create_event") then CREATE_EVENT_LABEL
    else if tool == Some("get_events") then GET_EVENTS_LABEL
    else if tool == Some("get_courts") then GET_COURTS_LABEL
    else OTHER_TOOL_LABEL
  }

  /** One parsed event object, dispatched on its `type` member; an unknown type changes nothing. */
  function ApplyEvent(v: View, ev: Members): View
  {
    var kind := Lookup(ev, "type");
    if kind == Some("text") then View(AppendToLast(v.messages, OrElse(Lookup(ev, "content"), "")), v.toolStatus)
    else if kind == Some("tool_start") then View(v.messages, Some(ToolLabel(Lookup(ev, "tool"))))
    else if kind == Some("tool_end") then View(v.messages, None)
    else if kind == Some("error") then View(SetLast(v.messages, OrElse(Lookup(ev, "content"), DEFAULT_ERROR)), v.toolStatus)
    else v
  }

  /** One frame: only `data: ` lines are read, and a payload that does not parse is ignored. */
  function HandleLine(v: View, line: string): View
  {
    if |line| < |DATA_PREFIX| || line[..|DATA_PREFIX|] != DATA_PREFIX then v
    else match ParseObject(line[|DATA_PREFIX|..])
      case None => v
      case Some(ev) => ApplyEvent(v, ev)
  }

  function HandleLines(v: View, lines: seq<string>): View
    decreases |lines|
  {
    if lines == [] then v else HandleLines(HandleLine(v, lines[0]), lines[1..])
  }

  /** The read loop: each chunk is appended to the buffer, every complete frame is handled and
      the unterminated rest stays in the buffer. */
  function Consume(v: View, buffer: string, chunks: seq<string>): (View, string)
    decreases |chunks|
  {
    if chunks == [] then (v, buffer)
    else
      var lines := Split(buffer + chunks[0]);
      Consume(HandleLines(v, Init(lines)), Last(lines), chunks[1..])
  }

  function Concat(chunks: seq<string>): string
    decreases |chunks|
  {
    if chunks == [] then [] else chunks[0] + Concat(chunks[1..])
  }

  /** The effect of a typed event, as the hook means it: the reference the fold is checked against. */
  function Receive(v: View, e: StreamEvent): View
  {
    match e
    case Text(c) => View(AppendToLast(v.messages, c), v.toolStatus)
    case ToolStart(t) => View(v.messages, Some(ToolLabel(Some(t))))
    case ToolEnd(_) => View(v.messages, None)
    case Done => v
    case Error(c) => View(SetLast(v.messages, c), v.toolStatus)
  }

  function ReceiveAll(v: View, es: seq<StreamEvent>): View
    decreases |es|
  {
    if es == [] then v else ReceiveAll(Receive(v, es[0]), es[1..])
  }

  lemma {:induction false} HandleLinesAppend(v: View, a: seq<string>, b: seq<string>)
    ensures HandleLines(v, a + b) == HandleLines(HandleLines(v, a), b)
    decreases |a|
  {
    if a == [] {
      assert a + b == b;
    } else {
      assert (a + b)[1..] == a[1..] + b;
      HandleLinesAppend(HandleLine(v, a[0]), a[1..], b);
    }
  }

  /** The hook reads each event object exactly as the server meant it. */
  lemma ApplyFieldsIsReceive(v: View, e: StreamEvent)
    ensures ApplyEvent(v, Fields(e)) == Receive(v, e)
  {
    var ms := Fields(e);
    if |ms| == 2 {
      assert |ms[1].0| >= 4 && ms[1].0 != "type";
      assert Lookup(ms, "type") == Some(ms[0].1);
    }
  }

  /** A frame the server wrote is handled as the event it carries. */
  lemma HandlePayload(v: View, e: StreamEvent)
    ensures HandleLine(v, Payload(e)) == Receive(v, e)
  {
    PayloadParses(e);
    ApplyFieldsIsReceive(v, e);
  }

  lemma {:induction false} HandlePayloads(v: View, es: seq<StreamEvent>)
    ensures HandleLines(v, Payloads(es)) == ReceiveAll(v, es)
    decreases |es|
  {
    if es != [] {
      HandlePayload(v, es[0]);
      HandlePayloads(Receive(v, es[0]), es[1..]);
    }
  }

  /** A line that is not a `data: ` line, or whose payload does not parse, changes nothing. */
  lemma SkippedLines(v: View, line: string)
    requires |line| < 6 || line[..6] != "data: " || ParseObject(line[6..]).None?
    ensures HandleLine(v, line) == v
  {
  }

  /** Reading chunk after chunk handles exactly the complete frames of everything read so far
      and keeps the unterminated rest, however the text was cut into chunks. */
  lemma {:induction false} ConsumeAll(v: View, buffer: string, chunks: seq<string>)
    requires Split(buffer) == [buffer]
    ensures var all := Split(buffer + Concat(chunks));
      Consume(v, buffer, chunks) == (HandleLines(v, Init(all)), Last(all))
    decreases |chunks|
  {
    if chunks == [] {
      assert buffer + Concat(chunks) == buffer;
    } else {
      var s := buffer + chunks[0];
      var y := Concat(chunks[1..]);
      var p := Split(s);
      LastPieceIsWhole(s);
      SplitSingle(Last(p));
      ConsumeAll(HandleLines(v, Init(p)), Last(p), chunks[1..]);
      ConcatStep(buffer, chunks);
      SplitAppend(s, y);
      var q := Split(Last(p) + y);
      InitLastAppend(Init(p), q);
      HandleLinesAppend(v, Init(p), Init(q));
    }
  }

  lemma ConcatStep(buffer: string, chunks: seq<string>)
    requires chunks != []
    ensures buffer + Concat(chunks) == (buffer + chunks[0]) + Concat(chunks[1..])
  {
  }

  lemma InitLastAppend<T>(a: seq<T>, q: seq<T>)
    requires |q| >= 1
    ensures Init(a + q) == a + Init(q) && Last(a + q) == Last(q)
  {
    assert Init(a + q) == a + Init(q);
  }

  /** The server's frames, received in any chunking, are read as exactly its events, in order,
      with nothing left in the buffer. */
  lemma EncodedStreamAnyChunking(v: View, es: seq<StreamEvent>, chunks: seq<string>)
    requires Concat(chunks) == Encode(es)
    ensures Consume(v, [], chunks) == (ReceiveAll(v, es), [])
  {
    var all := Split([] + Concat(chunks));
    assert Split([]) == [[]];
    ConsumeAll(v, [], chunks);
    assert all == Payloads(es) + [[]] by {
      assert [] + Concat(chunks) == Encode(es);
      SplitEncoded(es);
    }
    assert Init(all) == Payloads(es) && Last(all) == [];
    HandlePayloads(v, es);
  }

  // ---------------------------------------------------------------- event effects

  /** A text event appends its content to the reply when the last message is the assistant's,
      and leaves the messages alone otherwise; the status line is untouched. */
  lemma TextEventAppends(v: View, c: string)
    ensures var w := Receive(v, Text(c));
      && w.toolStatus == v.toolStatus
      && KeepsEarlier(v.messages, w.messages)
      && (|v.messages| > 0 && v.messages[|v.messages| - 1].role == Assistant ==>
            w.messages[|w.messages| - 1] == ChatMessage(Assistant, v.messages[|v.messages| - 1].content + c))
      && (|v.messages| == 0 || v.messages[|v.messages| - 1].role != Assistant ==> w.messages == v.messages)
  {
  }

  /** An error event replaces the reply's content; `done` changes nothing. */
  lemma ErrorEventOverwrites(v: View, c: string)
    ensures var w := Receive(v, Error(c));
      && w.toolStatus == v.toolStatus
      && KeepsEarlier(v.messages, w.messages)
      && (|v.messages| > 0 && v.messages[|v.messages| - 1].role == Assistant ==>
            w.messages[|w.messages| - 1] == ChatMessage(Assistant, c))
    ensures Receive(v, Done) == v
  {
  }

  /** An error object without content leaves the default message. */
  lemma ErrorWithoutContent(v: View)
    requires |v.messages| > 0 && v.messages[|v.messages| - 1].role == Assistant
    ensures ApplyEvent(v, [("type", "error")]).messages[|v.messages| - 1] == ChatMessage(Assistant, DEFAULT_ERROR)
  {
  }

  /** tool_start shows the tool's label, tool_end clears the status line; neither touches the
      messages. */
  lemma ToolEventsSetStatus(v: View, t: string)
    ensures Receive(v, ToolStart(t)) == View(v.messages, Some(ToolLabel(Some(t))))
    ensures Receive(v, ToolEnd(t)) == View(v.messages, None)
    ensures ToolLabel(Some("create_event")) == CREATE_EVENT_LABEL
    ensures ToolLabel(Some("get_events")) == GET_EVENTS_LABEL
    ensures ToolLabel(Some("get_courts")) == GET_COURTS_LABEL
  {
  }

  // ---------------------------------------------------------------- one request

  datatype StreamEnd = EndOfStream | ReadThrew(aborted: bool)

  /** What the request to the chat route brings back: fetch throwing (an abort or a network
      error), or a response with its status, whether it has a body, the body's chunks as decoded
      text, and how reading ended. */
  datatype Reply =
    | FetchThrew(aborted: bool)
    | HttpResponse(ok: bool, hasBody: bool, chunks: seq<string>, end: StreamEnd)

  /** The messages after a request, starting from the messages with the empty reply appended. An
      abort leaves them as they are; any other failure puts the apology in the reply. Text left in
      the buffer when the stream ends is dropped. */
  function AfterReply(ms: seq<ChatMessage>, reply: Reply): (r: seq<ChatMessage>)
    ensures |r| == |ms|
    ensures reply == FetchThrew(true) ==> r == ms
    ensures |ms| == 0 || ms[|ms| - 1].role != Assistant ==> r == ms
    ensures Failed(reply) && |ms| > 0 && ms[|ms| - 1].role == Assistant ==>
      r == ms[..|ms| - 1] + [ChatMessage(Assistant, SEND_FAILED)]
  {
    match reply
    case FetchThrew(aborted) => if aborted then ms else SetLast(ms, SEND_FAILED)
    case HttpResponse(ok, hasBody, chunks, end) =>
      if !ok || !hasBody then SetLast(ms, SEND_FAILED)
      else
        ConsumeKeepsEarlier(View(ms, None), [], chunks);
        var read := Consume(View(ms, None), [], chunks).0.messages;
        match end
        case EndOfStream => read
        case ReadThrew(aborted) => if aborted then read else SetLast(read, SEND_FAILED)
  }

  /** A request that was neither aborted nor ended cleanly: fetch failed, the status was not
      ok, there was no body, or reading threw. */
  predicate Failed(reply: Reply)
  {
    match reply
    case FetchThrew(aborted) => !aborted
    case HttpResponse(ok, hasBody, _, end) => !ok || !hasBody || end == ReadThrew(false)
  }

  /** Messages before the last one are never changed by the events; an assistant's last message
      stays the assistant's, and any other last message is left as it is. */
  predicate KeepsEarlier(ms: seq<ChatMessage>, ns: seq<ChatMessage>)
  {
    && |ns| == |ms|
    && (|ms| > 0 ==>
          && ns[..|ns| - 1] == ms[..|ms| - 1]
          && (ms[|ms| - 1].role == Assistant ==> ns[|ns| - 1].role == Assistant)
          && (ms[|ms| - 1].role != Assistant ==> ns[|ns| - 1] == ms[|ms| - 1]))
  }

  lemma ApplyEventKeepsEarlier(v: View, ev: Members)
    ensures KeepsEarlier(v.messages, ApplyEvent(v, ev).messages)
  {
  }

  lemma {:induction false} HandleLinesKeepsEarlier(v: View, lines: seq<string>)
    ensures KeepsEarlier(v.messages, HandleLines(v, lines).messages)
    decreases |lines|
  {
    if lines != [] {
      var w := HandleLine(v, lines[0]);
      if |lines[0]| >= |DATA_PREFIX| && lines[0][..|DATA_PREFIX|] == DATA_PREFIX {
        match ParseObject(lines[0][|DATA_PREFIX|..])
        case None =>
        case Some(ev) => ApplyEventKeepsEarlier(v, ev);
      }
      HandleLinesKeepsEarlier(w, lines[1..]);
    }
  }

  lemma {:induction false} ConsumeKeepsEarlier(v: View, buffer: string, chunks: seq<string>)
    ensures KeepsEarlier(v.messages, Consume(v, buffer, chunks).0.messages)
    decreases |chunks|
  {
    if chunks != [] {
      var lines := Split(buffer + chunks[0]);
      HandleLinesKeepsEarlier(v, Init(lines));
      ConsumeKeepsEarlier(HandleLines(v, Init(lines)), Last(lines), chunks[1..]);
    }
  }

  /** Whatever comes back, a request only ever changes the last message, and an aborted fetch
      changes nothing. */
  lemma AfterReplyKeepsEarlier(ms: seq<ChatMessage>, reply: Reply)
    ensures KeepsEarlier(ms, AfterReply(ms, reply))
    ensures reply == FetchThrew(true) ==> AfterReply(ms, reply) == ms
  {
    if reply.HttpResponse? && reply.ok && reply.hasBody {
      ConsumeKeepsEarlier(View(ms, None), [], reply.chunks);
    }
  }

  /** The hook's state. `requestOpen` stands for the abort controller of the request in flight. */
  class ChatClient {
    var messages: seq<ChatMessage>
    var isLoading: bool
    var toolStatus: Option<string>
    var requestOpen: bool

    constructor ()
      ensures messages == [] && !isLoading && toolStatus == None && !requestOpen
    {
      messages := [];
      isLoading := false;
      toolStatus := None;
      requestOpen := false;
    }

    /** Handles one frame cut from the buffer. */
    method ReceiveLine(line: string)
      modifies this
      ensures View(messages, toolStatus) == HandleLine(old(View(messages, toolStatus)), line)
      ensures isLoading == old(isLoading) && requestOpen == old(requestOpen)
    {
      if |line| < |DATA_PREFIX| || line[..|DATA_PREFIX|] != DATA_PREFIX {
        return;
      }
      var parsed := ParseObject(line[|DATA_PREFIX|..]);
      if parsed.None? {
        return;
      }
      var ev := parsed.value;
      var kind := Lookup(ev, "type");
      if kind == Some("text") {
        messages := AppendToLast(messages, OrElse(Lookup(ev, "content"), ""));
      } else if kind == Some("tool_start") {
        toolStatus := Some(ToolLabel(Lookup(ev, "tool")));
      } else if kind == Some("tool_end") {
        toolStatus := None;
      } else if kind == Some("error") {
        messages := SetLast(messages, OrElse(Lookup(ev, "content"), DEFAULT_ERROR));
      }
    }

    /** The read loop over the response body. */
    method ReadStream(chunks: seq<string>) returns (buffer: string)
      modifies this
      ensures (View(messages, toolStatus), buffer) == Consume(old(View(messages, toolStatus)), [], chunks)
      ensures isLoading == old(isLoading) && requestOpen == old(requestOpen)
    {
      buffer := [];
      var k := 0;
      while k < |chunks|
        invariant 0 <= k <= |chunks|
        invariant Consume(View(messages, toolStatus), buffer, chunks[k..]) ==
                  Consume(old(View(messages, toolStatus)), [], chunks)
        invariant isLoading == old(isLoading) && requestOpen == old(requestOpen)
      {
        assert chunks[k..][0] == chunks[k] && chunks[k..][1..] == chunks[k + 1..];
        buffer := buffer + chunks[k];
        var lines := Split(buffer);
        buffer := lines[|lines| - 1];
        ghost var start := View(messages, toolStatus);
        var j := 0;
        while j < |lines| - 1
          invariant 0 <= j <= |lines| - 1
          invariant HandleLines(View(messages, toolStatus), lines[j..|lines| - 1]) == HandleLines(start, Init(lines))
          invariant isLoading == old(isLoading) && requestOpen == old(requestOpen)
        {
          assert lines[j..|lines| - 1][1..] == lines[j + 1..|lines| - 1];
          ReceiveLine(lines[j]);
          j := j + 1;
        }
        k := k + 1;
      }
      assert chunks[k..] == [];
    }

    /** Sends a message and reads the reply. Blank input or a request already in flight is
        ignored; otherwise the message and an empty reply are shown at once, the request carries
        the conversation without the empty reply, and loading and the status line are reset
        whatever happens. */
    method SendMessage(userMessage: string, reply: Reply) returns (requestBody: Option<seq<ChatMessage>>)
      modifies this
      ensures IsBlank(userMessage) || old(isLoading) ==>
        requestBody == None && messages == old(messages) && isLoading == old(isLoading)
        && toolStatus == old(toolStatus) && requestOpen == old(requestOpen)
      ensures !IsBlank(userMessage) && !old(isLoading) ==>
        && requestBody == Some(old(messages) + [ChatMessage(User, userMessage)])
        && messages == AfterReply(old(messages) + [ChatMessage(User, userMessage), ChatMessage(Assistant, [])], reply)
        && !isLoading && toolStatus == None && !requestOpen
    {
      if IsBlank(userMessage) || isLoading {
        return None;
      }
      var updated := messages + [ChatMessage(User, userMessage)];
      messages := updated + [ChatMessage(Assistant, [])];
      assert messages == old(messages) + [ChatMessage(User, userMessage), ChatMessage(Assistant, [])];
      isLoading := true;
      toolStatus := None;
      requestOpen := true;
      requestBody := Some(updated);
      match reply {
        case FetchThrew(aborted) =>
          if !aborted {
            messages := SetLast(messages, SEND_FAILED);
          }
        case HttpResponse(ok, hasBody, chunks, end) =>
          if !ok || !hasBody {
            messages := SetLast(messages, SEND_FAILED);
          } else {
            var rest := ReadStream(chunks);
            match end {
              case EndOfStream =>
              case ReadThrew(aborted) =>
                if !aborted {
                  messages := SetLast(messages, SEND_FAILED);
                }
            }
          }
      }
      isLoading := false;
      toolStatus := None;
      requestOpen := false;
    }

    method ClearMessages()
      modifies this
      ensures messages == [] && isLoading == old(isLoading) && toolStatus == old(toolStatus)
      ensures requestOpen == old(requestOpen)
    {
      messages := [];
    }

    /** Aborts the request in flight (its effect on the read is the `aborted` outcome of the
        reply) and resets loading and the status line; the messages stay. */
    method CancelRequest()
      modifies this
      ensures messages == old(messages) && !isLoading && toolStatus == None
      ensures requestOpen == old(requestOpen)
    {
      isLoading := false;
      toolStatus := None;
    }
  }
}
