/** The chat service: the dispatcher that runs a tool the language model asked for, and the
    tool-use loop that calls the model, runs the tools it asks for and streams events. */
module ChatService {
  import opened Wrappers
  import opened Json
  import opened ChatModel
  import opened StreamEvents
  import opened ChatTools

  const UNKNOWN_TOOL_PREFIX: string := "알 수 없는 도구: "
  /** The only error text the stream ever carries; the internal error is logged, not sent. */
  const STREAM_ERROR_MESSAGE: string := "처리 중 오류가 발생했습니다."
  const TOOL_USE: string := "tool_use"
  const EVENTS_PAGE: int := 1
  const EVENTS_LIMIT: int := 50
  const COURTS_DEFAULT_PAGE: int := 1
  const COURTS_DEFAULT_LIMIT: int := 20

  // ---------------------------------------------------------------- dispatcher

  /** The record handed to the event store. The input is cast, not checked: a field the model
      left out is `None` (undefined); the three optional ones are coalesced to null. */
  datatype EventWrite = EventWrite(
    title: Option<Json>,
    startDatetime: Option<Json>,
    endDatetime: Option<Json>,
    locationName: Json,
    locationUrl: Json,
    maxParticipants: Option<Json>,
    description: Json,
    hostMemberSeq: int)

  datatype EventFilter = EventFilter(year: Option<Json>, month: Option<Json>)

  /** The store call a tool request turns into. */
  datatype ToolCall =
    | CreateEvent(event: EventWrite)
    | GetEvents(page: int, limit: int, filter: EventFilter)
    | GetCourts(courtPage: Json, courtLimit: Json)
    | UnknownTool(name: string)

  /** The event the store reports back after the insert. */
  datatype EventRecord = EventRecord(
    id: Json, title: Json, startDatetime: Json, endDatetime: Json,
    locationName: Json, maxParticipants: Json)

  datatype EventRow = EventRow(
    id: Json, title: Json, startDatetime: Json, endDatetime: Json, locationName: Json,
    maxParticipants: Json, currentParticipants: Json, hostNickname: Json)

  datatype EventPage = EventPage(total: Json, events: seq<EventRow>)

  datatype CourtRow = CourtRow(
    courtId: Json, name: Json, address: Json, isIndoor: Json, courtType: Json, rsvUrl: Json)

  datatype CourtPage = CourtPage(total: Json, courts: seq<CourtRow>)

  /** The event and court stores, as stubs: each call returns a value or throws (`Failure`). */
  datatype Stores = Stores(
    writeEvent: EventWrite -> Result<EventRecord>,
    getEventList: (int, int, EventFilter) -> Result<EventPage>,
    getCourtList: (Json, Json) -> Result<CourtPage>)

  /** The names the dispatcher has a case for. */
  predicate IsDispatched(name: string)
  {
    name == "create_event" || name == "get_events" || name == "get_courts"
  }

  /** The store call for a tool request, with the caller stamped as host and the defaults applied. */
  function PlanToolCall(toolName: string, toolInput: map<string, Json>, hostMemberSeq: int): (c: ToolCall)
    ensures c.UnknownTool? <==> !IsDispatched(toolName)
    ensures c.UnknownTool? ==> c.name == toolName
  {
    if toolName == "create_event" then
      CreateEvent(EventWrite(
        Field(toolInput, "title"),
        Field(toolInput, "start_datetime"),
        Field(toolInput, "end_datetime"),
        Coalesce(Field(toolInput, "location_name"), JNull),
        Coalesce(Field(toolInput, "location_url"), JNull),
        Field(toolInput, "max_participants"),
        Coalesce(Field(toolInput, "description"), JNull),
        hostMemberSeq))
    else if toolName == "get_events" then
      GetEvents(EVENTS_PAGE, EVENTS_LIMIT,
        EventFilter(Field(toolInput, "year"), Field(toolInput, "month")))
    else if toolName == "get_courts" then
      GetCourts(Coalesce(Field(toolInput, "page"), JNum(COURTS_DEFAULT_PAGE)),
                Coalesce(Field(toolInput, "limit"), JNum(COURTS_DEFAULT_LIMIT)))
    else UnknownTool(toolName)
  }

  function UnknownToolPayload(name: string): Json
  {
    JObj([("error", JStr(UNKNOWN_TOOL_PREFIX + name))])
  }

  function CreatedPayload(e: EventRecord): Json
  {
    JObj([("success", JBool(true)), ("event_id", e.id), ("title", e.title),
          ("start_datetime", e.startDatetime), ("end_datetime", e.endDatetime),
          ("location_name", e.locationName), ("max_participants", e.maxParticipants)])
  }

  function EventItem(e: EventRow): Json
  {
    JObj([("id", e.id), ("title", e.title), ("start_datetime", e.startDatetime),
          ("end_datetime", e.endDatetime), ("location_name", e.locationName),
          ("max_participants", e.maxParticipants),
          ("current_participants", e.currentParticipants), ("host_nickname", e.hostNickname)])
  }

  function CourtItem(c: CourtRow): Json
  {
    JObj([("court_id", c.courtId), ("name", c.name), ("address", c.address),
          ("is_indoor", c.isIndoor), ("court_type", c.courtType), ("rsv_url", c.rsvUrl)])
  }

  function EventsPayload(p: EventPage): Json
  {
    JObj([("total", p.total),
          ("events", JArr(seq(|p.events|, i requires 0 <= i < |p.events| => EventItem(p.events[i]))))])
  }

  function CourtsPayload(p: CourtPage): Json
  {
    JObj([("total", p.total),
          ("courts", JArr(seq(|p.courts|, i requires 0 <= i < |p.courts| => CourtItem(p.courts[i]))))])
  }

  /** Performs a store call and builds the payload returned to the model. */
  function RunToolCall(call: ToolCall, stores: Stores): Result<Json>
  {
    match call
    case CreateEvent(e) =>
      (match stores.writeEvent(e)
       case Failure => Failure
       case Success(record) => Success(CreatedPayload(record)))
    case GetEvents(page, limit, filter) =>
      (match stores.getEventList(page, limit, filter)
       case Failure => Failure
       case Success(p) => Success(EventsPayload(p)))
    case GetCourts(page, limit) =>
      (match stores.getCourtList(page, limit)
       case Failure => Failure
       case Success(p) => Success(CourtsPayload(p)))
    case UnknownTool(name) => Success(UnknownToolPayload(name))
  }

  /** Runs the tool the model asked for. An unknown name is answered with an error payload and
      never throws; only a failing store call throws. */
  function ExecuteToolCall(toolName: string, toolInput: map<string, Json>, hostMemberSeq: int,
                           stores: Stores): (r: Result<Json>)
    ensures !IsDispatched(toolName) ==> r == Success(JObj([("error", JStr(UNKNOWN_TOOL_PREFIX + toolName))]))
    ensures r.Failure? ==> IsDispatched(toolName)
  {
    RunToolCall(PlanToolCall(toolName, toolInput, hostMemberSeq), stores)
  }

  /** Every tool of the catalog has its own case in the dispatcher, and the dispatcher has no
      case for a tool the model is not told about. */
  lemma CatalogIsDispatched(name: string, toolInput: map<string, Json>, hostMemberSeq: int)
    ensures name in ToolNames(CHAT_TOOLS) <==> !PlanToolCall(name, toolInput, hostMemberSeq).UnknownTool?
  {
    CatalogNames();
  }

  /** create_event: the caller is the host whatever the input says; a missing optional field
      is null and a present one passes through unchanged. */
  lemma CreateEventPlan(toolInput: map<string, Json>, hostMemberSeq: int)
    ensures var c := PlanToolCall("create_event", toolInput, hostMemberSeq);
      && c.CreateEvent?
      && c.event.hostMemberSeq == hostMemberSeq
      && c.event.locationName == (if "location_name" in toolInput then toolInput["location_name"] else JNull)
      && c.event.locationUrl == (if "location_url" in toolInput then toolInput["location_url"] else JNull)
      && c.event.description == (if "description" in toolInput then toolInput["description"] else JNull)
  {
  }

  /** create_event with an input that has the shape of CreateEventToolParams writes exactly those
      parameters, stamped with the caller. */
  lemma CreateEventFromParams(p: CreateEventToolParams, hostMemberSeq: int)
    ensures PlanToolCall("create_event", CreateEventInput(p), hostMemberSeq) ==
      CreateEvent(EventWrite(
        Some(JStr(p.title)), Some(JStr(p.startDatetime)), Some(JStr(p.endDatetime)),
        OrNull(p.locationName), OrNull(p.locationUrl), Some(JNum(p.maxParticipants)),
        OrNull(p.description), hostMemberSeq))
  {
    CreateEventRequiredFields(p);
    CreateEventOptionalFields(p);
    CreateEventOptionalsOrNull(p);
  }

  lemma CreateEventOptionalsOrNull(p: CreateEventToolParams)
    ensures var input := CreateEventInput(p);
      && Coalesce(Field(input, "location_name"), JNull) == OrNull(p.locationName)
      && Coalesce(Field(input, "location_url"), JNull) == OrNull(p.locationUrl)
      && Coalesce(Field(input, "description"), JNull) == OrNull(p.description)
  {
    CreateEventOptionalFields(p);
  }

  function OrNull(v: Option<string>): Json
  {
    match v
    case Some(s) => JStr(s)
    case None => JNull
  }

  /** get_events always asks for the first page of 50 events, filtered by the given year and month. */
  lemma GetEventsPlan(toolInput: map<string, Json>, hostMemberSeq: int)
    ensures PlanToolCall("get_events", toolInput, hostMemberSeq) ==
      GetEvents(1, 50, EventFilter(Field(toolInput, "year"), Field(toolInput, "month")))
  {
  }

  lemma GetEventsFromParams(p: GetEventsToolParams, hostMemberSeq: int)
    ensures PlanToolCall("get_events", GetEventsInput(p), hostMemberSeq) ==
      GetEvents(1, 50, EventFilter(Some(JNum(p.year)), Some(JNum(p.month))))
  {
  }

  /** get_courts: page defaults to 1 and limit to 20 when absent or null. */
  lemma GetCourtsPlan(toolInput: map<string, Json>, hostMemberSeq: int)
    ensures var c := PlanToolCall("get_courts", toolInput, hostMemberSeq);
      && c.GetCourts?
      && c.courtPage == (if "page" in toolInput && toolInput["page"] != JNull then toolInput["page"] else JNum(1))
      && c.courtLimit == (if "limit" in toolInput && toolInput["limit"] != JNull then toolInput["limit"] else JNum(20))
  {
  }

  lemma GetCourtsFromParams(p: GetCourtsToolParams, hostMemberSeq: int)
    ensures PlanToolCall("get_courts", GetCourtsInput(p), hostMemberSeq) ==
      GetCourts(NumberOr(p.page, 1), NumberOr(p.limit, 20))
  {
    var input := GetCourtsInput(p);
    assert Field(input, "page") == (match p.page case Some(n) => Some(JNum(n)) case None => None);
    assert Field(input, "limit") == (match p.limit case Some(n) => Some(JNum(n)) case None => None);
  }

  function NumberOr(v: Option<int>, default: int): Json
  {
    match v
    case Some(n) => JNum(n)
    case None => JNum(default)
  }

  /** A created event is reported back with `success: true` and the store's own id and fields. */
  lemma CreatedPayloadReportsRecord(e: EventRecord)
    ensures var m := CreatedPayload(e).members;
      && Lookup(m, "success") == Some(JBool(true))
      && Lookup(m, "event_id") == Some(e.id)
      && Lookup(m, "title") == Some(e.title)
  {
    var m := CreatedPayload(e).members;
    assert |m[0].0| == 7 && |m[1].0| == 8 && |m[2].0| == 5 && |m[3].0| == 14;
    assert |m[4].0| == 12 && |m[5].0| == 13 && |m[6].0| == 16;
    LookupUnique(m, "success", 0);
    LookupUnique(m, "event_id", 1);
    LookupUnique(m, "title", 2);
  }

  /** A created event is answered with `success: true` unless the store throws. */
  lemma CreateEventReportsSuccess(toolInput: map<string, Json>, hostMemberSeq: int, stores: Stores)
    ensures var r := ExecuteToolCall("create_event", toolInput, hostMemberSeq, stores);
      r.Success? ==> r.value.JObj? && Lookup(r.value.members, "success") == Some(JBool(true))
  {
    var c := PlanToolCall("create_event", toolInput, hostMemberSeq);
    match stores.writeEvent(c.event)
    case Failure =>
    case Success(record) => CreatedPayloadReportsRecord(record);
  }

  /** A list payload has one item per store row, in store order. */
  lemma ListPayloadsKeepRows(ep: EventPage, cp: CourtPage)
    ensures var items := EventsPayload(ep).members[1].1.items;
      |items| == |ep.events| && forall i :: 0 <= i < |items| ==> items[i] == EventItem(ep.events[i])
    ensures var items := CourtsPayload(cp).members[1].1.items;
      |items| == |cp.courts| && forall i :: 0 <= i < |items| ==> items[i] == CourtItem(cp.courts[i])
  {
  }

  // ---------------------------------------------------------------- tool-use loop

  /** A content block of a model response. Blocks of any other type are ignored by the loop. */
  datatype Block =
    | TextBlock(text: string)
    | ToolUseBlock(id: string, name: string, input: map<string, Json>)
    | OtherBlock

  /** A model response, or a call to the model that threw. */
  datatype ModelReply =
    | Reply(stopReason: string, content: seq<Block>)
    | ModelCallFailed

  datatype ToolResult = ToolResult(toolUseId: string, content: Json)

  datatype TurnContent =
    | Plain(text: string)
    | Blocks(blocks: seq<Block>)
    | ToolResults(results: seq<ToolResult>)

  /** One entry of the conversation sent to the model. */
  datatype Turn = Turn(role: ChatRole, content: TurnContent)

  /** How the stream ended: `done` after a final reply, `error` after an exception, or neither
      because the model was asked more often than the bound allows. */
  datatype Outcome = Finished | Failed | Unfinished

  /** The frames a run streams, the conversation it ends with and how it ended. */
  datatype Run = Run(frames: seq<StreamEvent>, history: seq<Turn>, outcome: Outcome)

  /** The effect of walking (part of) the blocks of one tool_use response. */
  datatype Step = Step(frames: seq<StreamEvent>, history: seq<Turn>, threw: bool)

  /** The language model: its reply to a conversation on the call that still allows `left`
      calls, counting this one. The count falls by one per call, so the model may answer the
      same conversation differently on different calls. */
  type Oracle = (seq<Turn>, nat) -> ModelReply

  /** The conversation from the browser, as the model receives it. */
  function Seed(messages: seq<ChatMessage>): (h: seq<Turn>)
    ensures |h| == |messages|
    ensures forall i :: 0 <= i < |h| ==> h[i].role == messages[i].role && h[i].content == Plain(messages[i].content)
  {
    seq(|messages|, i requires 0 <= i < |messages| => Turn(messages[i].role, Plain(messages[i].content)))
  }

  /** Walks `blocks`, the rest of a tool_use response whose whole content is `content`: a
      non-empty text block streams a text frame, a tool block streams tool_start, runs the tool,
      streams tool_end and appends the assistant turn and the tool result to the history. A tool
      that throws ends the walk right after its tool_start. */
  function ToolUseBlocks(content: seq<Block>, blocks: seq<Block>, history: seq<Turn>,
                         hostMemberSeq: int, stores: Stores): Step
    decreases |blocks|
  {
    if blocks == [] then Step([], history, false)
    else match blocks[0]
      case TextBlock(t) =>
        var rest := ToolUseBlocks(content, blocks[1..], history, hostMemberSeq, stores);
        if t != [] then Step([Text(t)] + rest.frames, rest.history, rest.threw) else rest
      case OtherBlock => ToolUseBlocks(content, blocks[1..], history, hostMemberSeq, stores)
      case ToolUseBlock(id, name, input) =>
        match ExecuteToolCall(name, input, hostMemberSeq, stores)
        case Failure => Step([ToolStart(name)], history, true)
        case Success(payload) =>
          var grown := history + [Turn(Assistant, Blocks(content)), Turn(User, ToolResults([ToolResult(id, payload)]))];
          var rest := ToolUseBlocks(content, blocks[1..], grown, hostMemberSeq, stores);
          Step([ToolStart(name), ToolEnd(name)] + rest.frames, rest.history, rest.threw)
  }

  /** The text frames of a final response: every text block, empty ones included. */
  function FinalTexts(blocks: seq<Block>): seq<StreamEvent>
    decreases |blocks|
  {
    if blocks == [] then []
    else if blocks[0].TextBlock? then [Text(blocks[0].text)] + FinalTexts(blocks[1..])
    else FinalTexts(blocks[1..])
  }

  /** The loop, asking the model at most `fuel` more times; the call that still allows `fuel`
      calls is answered by `model(history, fuel)`. */
  function Drive(history: seq<Turn>, model: Oracle, fuel: nat,
                 hostMemberSeq: int, stores: Stores): Run
    decreases fuel, 1
  {
    if fuel == 0 then Run([], history, Unfinished)
    else Answer(model(history, fuel), history, model, fuel, hostMemberSeq, stores)
  }

  /** One turn of the loop: what the stream does with the model's reply to `history`. */
  function Answer(reply: ModelReply, history: seq<Turn>, model: Oracle, fuel: nat,
                  hostMemberSeq: int, stores: Stores): Run
    requires fuel > 0
    decreases fuel, 0
  {
    match reply
    case ModelCallFailed => Run([Error(STREAM_ERROR_MESSAGE)], history, Failed)
    case Reply(stopReason, content) =>
      if stopReason == TOOL_USE then
        var step := ToolUseBlocks(content, content, history, hostMemberSeq, stores);
        if step.threw then Run(step.frames + [Error(STREAM_ERROR_MESSAGE)], step.history, Failed)
        else
          var rest := Drive(step.history, model, fuel - 1, hostMemberSeq, stores);
          Run(step.frames + rest.frames, rest.history, rest.outcome)
      else Run(FinalTexts(content) + [Done], history, Finished)
  }

  /** `r` after the frames already streamed. */
  function Continue(streamed: seq<StreamEvent>, r: Run): Run
  {
    Run(streamed + r.frames, r.history, r.outcome)
  }

  function Resume(streamed: seq<StreamEvent>, s: Step): Step
  {
    Step(streamed + s.frames, s.history, s.threw)
  }

  /** The walk over one tool_use response's blocks: streams text and tool frames, runs each tool
      and grows the history; stops at the first tool that throws, right after its tool_start. */
  method WalkToolUseBlocks(content: seq<Block>, history0: seq<Turn>, hostMemberSeq: int, stores: Stores)
    returns (frames: seq<StreamEvent>, history: seq<Turn>, threw: bool)
    ensures Step(frames, history, threw) == ToolUseBlocks(content, content, history0, hostMemberSeq, stores)
  {
    frames, history, threw := [], history0, false;
    ghost var step := ToolUseBlocks(content, content, history0, hostMemberSeq, stores);
    var i := 0;
    while i < |content|
      invariant 0 <= i <= |content|
      invariant Resume(frames, ToolUseBlocks(content, content[i..], history, hostMemberSeq, stores)) == step
    {
      assert content[i..][0] == content[i] && content[i..][1..] == content[i + 1..];
      ghost var fi, hi := frames, history;
      match content[i] {
        case TextBlock(t) =>
          if t != [] {
            frames := frames + [Text(t)];
            ghost var rest := ToolUseBlocks(content, content[i + 1..], hi, hostMemberSeq, stores);
            assert frames + rest.frames == fi + ([Text(t)] + rest.frames);
          }
        case OtherBlock =>
        case ToolUseBlock(id, name, input) =>
          frames := frames + [ToolStart(name)];
          var toolResult := ExecuteToolCall(name, input, hostMemberSeq, stores);
          if toolResult.Failure? {
            threw := true;
            return;
          }
          frames := frames + [ToolEnd(name)];
          history := history + [Turn(Assistant, Blocks(content))];
          history := history + [Turn(User, ToolResults([ToolResult(id, toolResult.value)]))];
          assert history == hi + [Turn(Assistant, Blocks(content)), Turn(User, ToolResults([ToolResult(id, toolResult.value)]))];
          ghost var rest := ToolUseBlocks(content, content[i + 1..], history, hostMemberSeq, stores);
          assert frames + rest.frames == fi + ([ToolStart(name), ToolEnd(name)] + rest.frames);
      }
      i := i + 1;
    }
    assert content[i..] == [];
    assert frames + [] == frames;
  }

  /** The text frames of a final response. */
  method StreamFinalTexts(content: seq<Block>) returns (frames: seq<StreamEvent>)
    ensures frames == FinalTexts(content)
  {
    frames := [];
    var j := 0;
    while j < |content|
      invariant 0 <= j <= |content|
      invariant frames + FinalTexts(content[j..]) == FinalTexts(content)
    {
      assert content[j..][1..] == content[j + 1..];
      if content[j].TextBlock? {
        frames := frames + [Text(content[j].text)];
      }
      j := j + 1;
    }
    assert content[j..] == [];
  }

  /** One turn of the loop: the frames streamed for the model's reply to `history0`, the history
      after it and, when the reply ends the stream, how. */
  method Respond(response: ModelReply, history0: seq<Turn>, ghost model: Oracle,
                 ghost left: nat, hostMemberSeq: int, stores: Stores)
    returns (frames: seq<StreamEvent>, history: seq<Turn>, ended: Option<Outcome>)
    requires left > 0
    ensures ended.Some? ==>
      Answer(response, history0, model, left, hostMemberSeq, stores) == Run(frames, history, ended.value)
    ensures ended.None? ==>
      Answer(response, history0, model, left, hostMemberSeq, stores) ==
      Continue(frames, Drive(history, model, left - 1, hostMemberSeq, stores))
  {
    if response.ModelCallFailed? {
      return [Error(STREAM_ERROR_MESSAGE)], history0, Some(Failed);
    }
    if response.stopReason == TOOL_USE {
      var threw;
      frames, history, threw := WalkToolUseBlocks(response.content, history0, hostMemberSeq, stores);
      if threw {
        frames := frames + [Error(STREAM_ERROR_MESSAGE)];
        ended := Some(Failed);
      } else {
        ended := None;
      }
    } else {
      frames := StreamFinalTexts(response.content);
      frames := frames + [Done];
      history, ended := history0, Some(Finished);
    }
  }

  /** The chat stream: asks the model, walks a tool_use response's blocks running the tools and
      asks again, until a final response, an exception or the bound on model calls. */
  method ProcessChatStream(messages: seq<ChatMessage>, hostMemberSeq: int,
                           model: Oracle, fuel: nat, stores: Stores)
    returns (frames: seq<StreamEvent>, history: seq<Turn>, outcome: Outcome)
    ensures Run(frames, history, outcome) == Drive(Seed(messages), model, fuel, hostMemberSeq, stores)
  {
    history := Seed(messages);
    frames := [];
    ghost var goal := Drive(history, model, fuel, hostMemberSeq, stores);
    var calls: nat := 0;
    while calls < fuel
      invariant calls <= fuel
      invariant Continue(frames, Drive(history, model, fuel - calls, hostMemberSeq, stores)) == goal
      decreases fuel - calls
    {
      var response := model(history, fuel - calls);
      var turnFrames, grown, ended := Respond(response, history, model, fuel - calls, hostMemberSeq, stores);
      DriveStep(frames, history, model, fuel - calls, hostMemberSeq, stores, turnFrames, grown, ended);
      calls := calls + 1;
      frames, history := frames + turnFrames, grown;
      if ended.Some? {
        outcome := ended.value;
        return;
      }
    }
    outcome := Unfinished;
  }

  /** One turn of the loop in terms of Drive: what Respond returned carries the stream on. */
  lemma DriveStep(frames: seq<StreamEvent>, history: seq<Turn>, model: Oracle, left: nat,
                  hostMemberSeq: int, stores: Stores,
                  turnFrames: seq<StreamEvent>, grown: seq<Turn>, ended: Option<Outcome>)
    requires left > 0
    requires ended.Some? ==>
      Answer(model(history, left), history, model, left, hostMemberSeq, stores) == Run(turnFrames, grown, ended.value)
    requires ended.None? ==>
      Answer(model(history, left), history, model, left, hostMemberSeq, stores) ==
      Continue(turnFrames, Drive(grown, model, left - 1, hostMemberSeq, stores))
    ensures ended.Some? ==>
      Continue(frames, Drive(history, model, left, hostMemberSeq, stores)) == Run(frames + turnFrames, grown, ended.value)
    ensures ended.None? ==>
      Continue(frames, Drive(history, model, left, hostMemberSeq, stores)) ==
      Continue(frames + turnFrames, Drive(grown, model, left - 1, hostMemberSeq, stores))
  {
    DriveUnfold(history, model, left, hostMemberSeq, stores);
    ContinueAfter(frames, Answer(model(history, left), history, model, left, hostMemberSeq, stores),
                  turnFrames, grown, ended, Drive(grown, model, left - 1, hostMemberSeq, stores));
  }

  lemma DriveUnfold(history: seq<Turn>, model: Oracle, left: nat, hostMemberSeq: int, stores: Stores)
    requires left > 0
    ensures Drive(history, model, left, hostMemberSeq, stores) ==
      Answer(model(history, left), history, model, left, hostMemberSeq, stores)
  {
  }

  lemma ContinueAfter(frames: seq<StreamEvent>, answer: Run, turnFrames: seq<StreamEvent>, grown: seq<Turn>,
                      ended: Option<Outcome>, rest: Run)
    requires ended.Some? ==> answer == Run(turnFrames, grown, ended.value)
    requires ended.None? ==> answer == Continue(turnFrames, rest)
    ensures ended.Some? ==> Continue(frames, answer) == Run(frames + turnFrames, grown, ended.value)
    ensures ended.None? ==> Continue(frames, answer) == Continue(frames + turnFrames, rest)
  {
    if ended.None? {
      assert frames + (turnFrames + rest.frames) == frames + turnFrames + rest.frames;
    }
  }

  // ---------------------------------------------------------------- the shape of the stream

  /** Text frames and adjacent tool_start/tool_end pairs naming the same tool, in any order. */
  predicate Units(fs: seq<StreamEvent>)
    decreases |fs|
  {
    if fs == [] then true
    else if fs[0].Text? then Units(fs[1..])
    else |fs| >= 2 && fs[0].ToolStart? && fs[1] == ToolEnd(fs[0].tool) && Units(fs[2..])
  }

  /** Units, possibly followed by the tool_start of a tool that threw. */
  predicate UnitsThenStart(fs: seq<StreamEvent>)
  {
    Units(fs) || (|fs| >= 1 && fs[|fs| - 1].ToolStart? && Units(fs[..|fs| - 1]))
  }

  /** A finished stream ends with its only `done`; a failed one with its only `error`, which
      carries the generic message; an unfinished one has neither. */
  predicate WellFormedStream(fs: seq<StreamEvent>, outcome: Outcome)
  {
    match outcome
    case Finished => |fs| >= 1 && fs[|fs| - 1] == Done && Units(fs[..|fs| - 1])
    case Failed => |fs| >= 1 && fs[|fs| - 1] == Error(STREAM_ERROR_MESSAGE) && UnitsThenStart(fs[..|fs| - 1])
    case Unfinished => Units(fs)
  }

  lemma {:induction false} UnitsAppend(a: seq<StreamEvent>, b: seq<StreamEvent>)
    requires Units(a) && Units(b)
    ensures Units(a + b)
    decreases |a|
  {
    if a == [] {
      assert a + b == b;
    } else {
      assert (a + b)[0] == a[0];
      if a[0].Text? {
        assert (a + b)[1..] == a[1..] + b;
        UnitsAppend(a[1..], b);
      } else {
        assert (a + b)[1] == a[1];
        assert (a + b)[2..] == a[2..] + b;
        UnitsAppend(a[2..], b);
      }
    }
  }

  /** Neither `done` nor `error` occurs among units. */
  lemma {:induction false} UnitsHaveNoTerminal(fs: seq<StreamEvent>)
    requires Units(fs)
    ensures forall i :: 0 <= i < |fs| ==> !fs[i].IsTerminal()
    decreases |fs|
  {
    if fs != [] {
      if fs[0].Text? {
        UnitsHaveNoTerminal(fs[1..]);
        assert forall i :: 1 <= i < |fs| ==> fs[i] == fs[1..][i - 1];
      } else {
        UnitsHaveNoTerminal(fs[2..]);
        assert forall i :: 2 <= i < |fs| ==> fs[i] == fs[2..][i - 2];
      }
    }
  }

  lemma PrependText(t: string, fs: seq<StreamEvent>)
    requires UnitsThenStart(fs)
    ensures UnitsThenStart([Text(t)] + fs)
    ensures Units(fs) ==> Units([Text(t)] + fs)
  {
    var g := [Text(t)] + fs;
    assert g[1..] == fs;
    if !Units(fs) {
      assert g[..|g| - 1][1..] == fs[..|fs| - 1];
    }
  }

  lemma PrependPair(n: string, fs: seq<StreamEvent>)
    requires UnitsThenStart(fs)
    ensures UnitsThenStart([ToolStart(n), ToolEnd(n)] + fs)
    ensures Units(fs) ==> Units([ToolStart(n), ToolEnd(n)] + fs)
  {
    var g := [ToolStart(n), ToolEnd(n)] + fs;
    assert g[2..] == fs;
    if !Units(fs) {
      assert g[..|g| - 1][2..] == fs[..|fs| - 1];
    }
  }

  /** The frames of a walk: units when no tool threw, and units then the thrower's tool_start
      when one did. */
  predicate StepShaped(s: Step)
  {
    && (!s.threw ==> Units(s.frames))
    && (s.threw ==> |s.frames| >= 1 && s.frames[|s.frames| - 1].ToolStart? && Units(s.frames[..|s.frames| - 1]))
  }

  /** Within one tool_use response every tool block streams tool_start then tool_end of the same
      name, never interleaved with another pair; a tool that throws leaves only its tool_start. */
  lemma {:induction false} StepShape(content: seq<Block>, blocks: seq<Block>, history: seq<Turn>,
                                     hostMemberSeq: int, stores: Stores)
    ensures StepShaped(ToolUseBlocks(content, blocks, history, hostMemberSeq, stores))
    decreases |blocks|
  {
    if blocks != [] {
      match blocks[0]
      case TextBlock(t) =>
        StepShape(content, blocks[1..], history, hostMemberSeq, stores);
        if t != [] {
          ShapedText(t, ToolUseBlocks(content, blocks[1..], history, hostMemberSeq, stores));
        }
      case OtherBlock =>
        StepShape(content, blocks[1..], history, hostMemberSeq, stores);
      case ToolUseBlock(id, name, input) =>
        match ExecuteToolCall(name, input, hostMemberSeq, stores)
        case Failure =>
          assert [ToolStart(name)][..0] == [];
        case Success(payload) =>
          var grown := history + [Turn(Assistant, Blocks(content)), Turn(User, ToolResults([ToolResult(id, payload)]))];
          StepShape(content, blocks[1..], grown, hostMemberSeq, stores);
          ShapedPair(name, ToolUseBlocks(content, blocks[1..], grown, hostMemberSeq, stores));
    }
  }

  lemma ShapedText(t: string, rest: Step)
    requires StepShaped(rest)
    ensures StepShaped(Step([Text(t)] + rest.frames, rest.history, rest.threw))
  {
    PrependText(t, rest.frames);
    if rest.threw {
      assert !Units(rest.frames) by { UnitsHaveNoTerminalOrStart(rest.frames); }
    }
  }

  lemma ShapedPair(n: string, rest: Step)
    requires StepShaped(rest)
    ensures StepShaped(Step([ToolStart(n), ToolEnd(n)] + rest.frames, rest.history, rest.threw))
  {
    PrependPair(n, rest.frames);
    if rest.threw {
      assert !Units(rest.frames) by { UnitsHaveNoTerminalOrStart(rest.frames); }
    }
  }

  /** Units never end with a tool_start. */
  lemma {:induction false} UnitsHaveNoTerminalOrStart(fs: seq<StreamEvent>)
    requires |fs| >= 1 && fs[|fs| - 1].ToolStart?
    ensures !Units(fs)
    decreases |fs|
  {
    if Units(fs) {
      if fs[0].Text? {
        assert fs[1..][|fs| - 2] == fs[|fs| - 1];
        UnitsHaveNoTerminalOrStart(fs[1..]);
      } else if |fs| > 2 {
        assert fs[2..][|fs| - 3] == fs[|fs| - 1];
        UnitsHaveNoTerminalOrStart(fs[2..]);
      }
    }
  }

  /** Putting units in front of a well-formed stream keeps it well formed. */
  lemma PrependUnits(a: seq<StreamEvent>, fs: seq<StreamEvent>, outcome: Outcome)
    requires Units(a) && WellFormedStream(fs, outcome)
    ensures WellFormedStream(a + fs, outcome)
  {
    match outcome
    case Unfinished => UnitsAppend(a, fs);
    case Finished => PrependUnitsLast(a, fs);
    case Failed => PrependUnitsLast(a, fs);
  }

  lemma PrependUnitsLast(a: seq<StreamEvent>, fs: seq<StreamEvent>)
    requires Units(a) && |fs| >= 1 && UnitsThenStart(fs[..|fs| - 1])
    ensures var g := a + fs;
      && |g| >= 1 && g[|g| - 1] == fs[|fs| - 1]
      && UnitsThenStart(g[..|g| - 1])
      && (Units(fs[..|fs| - 1]) ==> Units(g[..|g| - 1]))
  {
    var body := fs[..|fs| - 1];
    var g := a + fs;
    assert g[..|g| - 1] == a + body;
    PrependUnitsBody(a, body);
  }

  lemma PrependUnitsBody(a: seq<StreamEvent>, body: seq<StreamEvent>)
    requires Units(a) && UnitsThenStart(body)
    ensures UnitsThenStart(a + body)
    ensures Units(body) ==> Units(a + body)
  {
    if Units(body) {
      UnitsAppend(a, body);
    } else {
      var init := body[..|body| - 1];
      UnitsAppend(a, init);
      assert (a + body)[..|a + body| - 1] == a + init;
    }
  }

  lemma {:induction false} FinalTextsAreUnits(blocks: seq<Block>)
    ensures Units(FinalTexts(blocks))
    decreases |blocks|
  {
    if blocks != [] {
      FinalTextsAreUnits(blocks[1..]);
      if blocks[0].TextBlock? {
        PrependText(blocks[0].text, FinalTexts(blocks[1..]));
      }
    }
  }

  /** Whatever the model answers and whatever the stores do, the stream is well formed. */
  lemma {:induction false} DriveWellFormed(history: seq<Turn>, model: Oracle, fuel: nat,
                                           hostMemberSeq: int, stores: Stores)
    ensures var r := Drive(history, model, fuel, hostMemberSeq, stores);
      WellFormedStream(r.frames, r.outcome)
    decreases fuel
  {
    var r := Drive(history, model, fuel, hostMemberSeq, stores);
    if fuel > 0 {
      assert r == Answer(model(history, fuel), history, model, fuel, hostMemberSeq, stores);
      match model(history, fuel)
      case ModelCallFailed =>
        assert r.frames[..0] == [];
      case Reply(stopReason, content) =>
        if stopReason == TOOL_USE {
          var step := ToolUseBlocks(content, content, history, hostMemberSeq, stores);
          StepShape(content, content, history, hostMemberSeq, stores);
          if step.threw {
            assert r.frames == step.frames + [Error(STREAM_ERROR_MESSAGE)];
            assert r.frames[..|r.frames| - 1] == step.frames;
          } else {
            DriveWellFormed(step.history, model, fuel - 1, hostMemberSeq, stores);
            var rest := Drive(step.history, model, fuel - 1, hostMemberSeq, stores);
            PrependUnits(step.frames, rest.frames, rest.outcome);
          }
        } else {
          FinalTextsAreUnits(content);
          assert r.frames == FinalTexts(content) + [Done];
          assert r.frames[..|r.frames| - 1] == FinalTexts(content);
        }
    }
  }

  /** Only the last frame can end the stream: a finished run's last frame is `done`, a failed
      run's is an `error` with the generic message, and an unfinished run has neither. */
  lemma DriveSingleTerminal(history: seq<Turn>, model: Oracle, fuel: nat,
                            hostMemberSeq: int, stores: Stores)
    ensures var r := Drive(history, model, fuel, hostMemberSeq, stores);
      && (forall i :: 0 <= i < |r.frames| - 1 ==> !r.frames[i].IsTerminal())
      && (forall i :: 0 <= i < |r.frames| && r.frames[i].Error? ==> r.frames[i].content == STREAM_ERROR_MESSAGE)
      && (r.outcome == Finished <==> |r.frames| > 0 && r.frames[|r.frames| - 1] == Done)
      && (r.outcome == Failed <==> |r.frames| > 0 && r.frames[|r.frames| - 1].Error?)
      && (r.outcome == Unfinished <==> forall i :: 0 <= i < |r.frames| ==> !r.frames[i].IsTerminal())
  {
    var r := Drive(history, model, fuel, hostMemberSeq, stores);
    DriveWellFormed(history, model, fuel, hostMemberSeq, stores);
    var fs := r.frames;
    if r.outcome == Unfinished {
      UnitsHaveNoTerminal(fs);
    } else {
      var body := fs[..|fs| - 1];
      if Units(body) {
        UnitsHaveNoTerminal(body);
      } else {
        UnitsHaveNoTerminal(body[..|body| - 1]);
        assert forall i :: 0 <= i < |body| - 1 ==> body[i] == body[..|body| - 1][i];
      }
      assert forall i :: 0 <= i < |fs| - 1 ==> fs[i] == body[i];
    }
  }

  // ---------------------------------------------------------------- tools, history and texts

  /** The names of the tool blocks, in block order. */
  function ToolBlockNames(blocks: seq<Block>): seq<string>
    decreases |blocks|
  {
    if blocks == [] then []
    else (if blocks[0].ToolUseBlock? then [blocks[0].name] else []) + ToolBlockNames(blocks[1..])
  }

  function ToolBlockIds(blocks: seq<Block>): seq<string>
    decreases |blocks|
  {
    if blocks == [] then []
    else (if blocks[0].ToolUseBlock? then [blocks[0].id] else []) + ToolBlockIds(blocks[1..])
  }

  /** The tool names of the tool_start frames, in stream order. */
  function StartedTools(fs: seq<StreamEvent>): seq<string>
    decreases |fs|
  {
    if fs == [] then []
    else (if fs[0].ToolStart? then [fs[0].tool] else []) + StartedTools(fs[1..])
  }

  function TextBlockTexts(blocks: seq<Block>): seq<string>
    decreases |blocks|
  {
    if blocks == [] then []
    else (if blocks[0].TextBlock? then [blocks[0].text] else []) + TextBlockTexts(blocks[1..])
  }

  /** The contents of the text frames, in stream order. */
  function FrameTexts(fs: seq<StreamEvent>): seq<string>
    decreases |fs|
  {
    if fs == [] then []
    else (if fs[0].Text? then [fs[0].content] else []) + FrameTexts(fs[1..])
  }

  function NonEmpty(ts: seq<string>): seq<string>
    decreases |ts|
  {
    if ts == [] then []
    else (if ts[0] != [] then [ts[0]] else []) + NonEmpty(ts[1..])
  }

  /** The tool results of a tool_use response's blocks, in block order: per tool block its id
      and the payload the executor returned, up to the first tool that throws. */
  function ToolBlockResults(blocks: seq<Block>, hostMemberSeq: int, stores: Stores): seq<ToolResult>
    decreases |blocks|
  {
    if blocks == [] then []
    else match blocks[0]
      case ToolUseBlock(id, name, input) =>
        (match ExecuteToolCall(name, input, hostMemberSeq, stores)
         case Failure => []
         case Success(payload) => [ToolResult(id, payload)] + ToolBlockResults(blocks[1..], hostMemberSeq, stores))
      case _ => ToolBlockResults(blocks[1..], hostMemberSeq, stores)
  }

  /** The results carry the ids of the tool blocks, in order. */
  lemma {:induction false} ToolBlockResultsIds(blocks: seq<Block>, hostMemberSeq: int, stores: Stores)
    ensures var rs, ids := ToolBlockResults(blocks, hostMemberSeq, stores), ToolBlockIds(blocks);
      |rs| <= |ids| && forall k :: 0 <= k < |rs| ==> rs[k].toolUseId == ids[k]
    decreases |blocks|
  {
    if blocks != [] {
      ToolBlockResultsIds(blocks[1..], hostMemberSeq, stores);
    }
  }

  /** The tool turns `added` holds for a response with content `content` whose tools gave
      `results`: per result an assistant turn with the whole content, then a user turn with
      exactly that one tool result. */
  predicate AppendsToolTurns(added: seq<Turn>, content: seq<Block>, results: seq<ToolResult>)
    decreases |results|
  {
    if results == [] then added == []
    else
      && |added| >= 2
      && added[0] == Turn(Assistant, Blocks(content))
      && added[1] == Turn(User, ToolResults([results[0]]))
      && AppendsToolTurns(added[2..], content, results[1..])
  }

  /** So a response with k tool results grows the history by 2k turns. */
  lemma {:induction false} AppendsToolTurnsLength(added: seq<Turn>, content: seq<Block>, results: seq<ToolResult>)
    requires AppendsToolTurns(added, content, results)
    ensures |added| == 2 * |results|
    decreases |results|
  {
    if results != [] {
      AppendsToolTurnsLength(added[2..], content, results[1..]);
    }
  }

  /** The tool_start frames of a tool_use response name its tool blocks in block order; when a
      tool throws, they name a prefix of them. */
  lemma {:induction false} StepTools(content: seq<Block>, blocks: seq<Block>, history: seq<Turn>,
                                     hostMemberSeq: int, stores: Stores)
    ensures var s := ToolUseBlocks(content, blocks, history, hostMemberSeq, stores);
      && StartedTools(s.frames) <= ToolBlockNames(blocks)
      && (!s.threw ==> StartedTools(s.frames) == ToolBlockNames(blocks))
    decreases |blocks|
  {
    if blocks != [] {
      var names := ToolBlockNames(blocks[1..]);
      match blocks[0]
      case TextBlock(t) =>
        StepTools(content, blocks[1..], history, hostMemberSeq, stores);
        var rest := ToolUseBlocks(content, blocks[1..], history, hostMemberSeq, stores);
        StartedToolsText(t, rest.frames);
        assert ToolBlockNames(blocks) == names;
      case OtherBlock =>
        StepTools(content, blocks[1..], history, hostMemberSeq, stores);
        assert ToolBlockNames(blocks) == names;
      case ToolUseBlock(id, name, input) =>
        assert ToolBlockNames(blocks) == [name] + names;
        match ExecuteToolCall(name, input, hostMemberSeq, stores)
        case Failure =>
          assert StartedTools([ToolStart(name)]) == [name];
        case Success(payload) =>
          var grown := history + [Turn(Assistant, Blocks(content)), Turn(User, ToolResults([ToolResult(id, payload)]))];
          StepTools(content, blocks[1..], grown, hostMemberSeq, stores);
          var rest := ToolUseBlocks(content, blocks[1..], grown, hostMemberSeq, stores);
          StartedToolsPair(name, rest.frames);
    }
  }

  lemma StartedToolsText(t: string, fs: seq<StreamEvent>)
    ensures StartedTools([Text(t)] + fs) == StartedTools(fs)
  {
    assert ([Text(t)] + fs)[1..] == fs;
  }

  lemma StartedToolsPair(n: string, fs: seq<StreamEvent>)
    ensures StartedTools([ToolStart(n), ToolEnd(n)] + fs) == [n] + StartedTools(fs)
  {
    var g := [ToolStart(n), ToolEnd(n)] + fs;
    assert g[1..][1..] == fs;
    assert StartedTools(g[1..]) == StartedTools(fs);
  }

  /** Each tool block that ran appends exactly two turns, in order: the assistant turn with the
      whole response content, and a user turn with one tool result carrying that block's id and
      the executor's payload. When no tool threw, every tool block ran. The history is only ever
      appended to. */
  lemma {:induction false} StepHistory(content: seq<Block>, blocks: seq<Block>, history: seq<Turn>,
                                       hostMemberSeq: int, stores: Stores)
    ensures var s := ToolUseBlocks(content, blocks, history, hostMemberSeq, stores);
      var results := ToolBlockResults(blocks, hostMemberSeq, stores);
      && history <= s.history
      && AppendsToolTurns(s.history[|history|..], content, results)
      && (!s.threw ==> |results| == |ToolBlockIds(blocks)|)
    decreases |blocks|
  {
    if blocks != [] {
      match blocks[0]
      case TextBlock(t) =>
        StepHistory(content, blocks[1..], history, hostMemberSeq, stores);
        assert ToolBlockIds(blocks) == ToolBlockIds(blocks[1..]);
      case OtherBlock =>
        StepHistory(content, blocks[1..], history, hostMemberSeq, stores);
        assert ToolBlockIds(blocks) == ToolBlockIds(blocks[1..]);
      case ToolUseBlock(id, name, input) =>
        match ExecuteToolCall(name, input, hostMemberSeq, stores)
        case Failure =>
          assert history[|history|..] == [];
        case Success(payload) =>
          var turns := [Turn(Assistant, Blocks(content)), Turn(User, ToolResults([ToolResult(id, payload)]))];
          var grown := history + turns;
          StepHistory(content, blocks[1..], grown, hostMemberSeq, stores);
          var s := ToolUseBlocks(content, blocks[1..], grown, hostMemberSeq, stores);
          assert grown <= s.history;
          AddedTurns(history, turns, s.history);
          assert ToolBlockIds(blocks) == [id] + ToolBlockIds(blocks[1..]);
    }
  }

  lemma AddedTurns(history: seq<Turn>, turns: seq<Turn>, after: seq<Turn>)
    requires |turns| == 2 && history + turns <= after
    ensures var added := after[|history|..];
      |added| >= 2 && added[..2] == turns && added[2..] == after[|history + turns|..]
  {
    var added := after[|history|..];
    assert forall k :: 0 <= k < 2 ==> added[k] == (history + turns)[|history| + k] == turns[k];
  }

  /** In a tool_use response only non-empty text blocks are streamed, each once and in order. */
  lemma {:induction false} StepTexts(content: seq<Block>, blocks: seq<Block>, history: seq<Turn>,
                                     hostMemberSeq: int, stores: Stores)
    ensures var s := ToolUseBlocks(content, blocks, history, hostMemberSeq, stores);
      && (forall i :: 0 <= i < |s.frames| && s.frames[i].Text? ==> s.frames[i].content != [])
      && (!s.threw ==> FrameTexts(s.frames) == NonEmpty(TextBlockTexts(blocks)))
    decreases |blocks|
  {
    if blocks != [] {
      match blocks[0]
      case TextBlock(t) =>
        StepTexts(content, blocks[1..], history, hostMemberSeq, stores);
        var rest := ToolUseBlocks(content, blocks[1..], history, hostMemberSeq, stores);
        var fs := [Text(t)] + rest.frames;
        assert fs[1..] == rest.frames;
        assert forall i :: 1 <= i < |fs| ==> fs[i] == rest.frames[i - 1];
      case OtherBlock =>
        StepTexts(content, blocks[1..], history, hostMemberSeq, stores);
        assert TextBlockTexts(blocks) == TextBlockTexts(blocks[1..]);
      case ToolUseBlock(id, name, input) =>
        match ExecuteToolCall(name, input, hostMemberSeq, stores)
        case Failure =>
        case Success(payload) =>
          var grown := history + [Turn(Assistant, Blocks(content)), Turn(User, ToolResults([ToolResult(id, payload)]))];
          StepTexts(content, blocks[1..], grown, hostMemberSeq, stores);
          var rest := ToolUseBlocks(content, blocks[1..], grown, hostMemberSeq, stores);
          var fs := [ToolStart(name), ToolEnd(name)] + rest.frames;
          assert fs[1..][1..] == rest.frames;
          assert forall i :: 2 <= i < |fs| ==> fs[i] == rest.frames[i - 2];
          assert FrameTexts(fs) == FrameTexts(fs[1..]) == FrameTexts(rest.frames);
          assert TextBlockTexts(blocks) == TextBlockTexts(blocks[1..]);
    }
  }

  /** A final response streams every text block, empty ones included, in order, and nothing else
      before `done`. */
  lemma {:induction false} FinalTextsKeepEveryText(blocks: seq<Block>)
    ensures forall i :: 0 <= i < |FinalTexts(blocks)| ==> FinalTexts(blocks)[i].Text?
    ensures FrameTexts(FinalTexts(blocks)) == TextBlockTexts(blocks)
    decreases |blocks|
  {
    if blocks != [] {
      FinalTextsKeepEveryText(blocks[1..]);
      var rest := FinalTexts(blocks[1..]);
      if blocks[0].TextBlock? {
        var fs := [Text(blocks[0].text)] + rest;
        assert fs[1..] == rest;
        assert forall i :: 1 <= i < |fs| ==> fs[i] == rest[i - 1];
      }
    }
  }

  /** An unknown tool does not end the walk: its tool_start is followed by its tool_end and the
      model is handed the error payload as the tool's result. */
  lemma UnknownToolContinues(content: seq<Block>, blocks: seq<Block>, history: seq<Turn>,
                             hostMemberSeq: int, stores: Stores)
    requires |blocks| > 0 && blocks[0].ToolUseBlock? && !IsDispatched(blocks[0].name)
    ensures var s := ToolUseBlocks(content, blocks, history, hostMemberSeq, stores);
      && |s.frames| >= 2 && s.frames[..2] == [ToolStart(blocks[0].name), ToolEnd(blocks[0].name)]
      && |s.history| >= |history| + 2
      && s.history[|history| + 1] ==
           Turn(User, ToolResults([ToolResult(blocks[0].id, UnknownToolPayload(blocks[0].name))]))
  {
    var b := blocks[0];
    var grown := history + [Turn(Assistant, Blocks(content)),
                            Turn(User, ToolResults([ToolResult(b.id, UnknownToolPayload(b.name))]))];
    StepHistory(content, blocks[1..], grown, hostMemberSeq, stores);
    var s := ToolUseBlocks(content, blocks, history, hostMemberSeq, stores);
    assert s.history[|history| + 1] == grown[|history| + 1];
  }

  /** The loop ends exactly at a reply whose stop reason is not tool_use: such a reply streams its
      texts and `done` and ends the run, while a tool_use reply whose tools all ran hands the
      grown history back to the model. */
  lemma LoopExitsOnFinalReply(history: seq<Turn>, model: Oracle, fuel: nat,
                              hostMemberSeq: int, stores: Stores)
    requires fuel > 0 && model(history, fuel).Reply?
    ensures var reply := model(history, fuel);
      var r := Drive(history, model, fuel, hostMemberSeq, stores);
      var step := ToolUseBlocks(reply.content, reply.content, history, hostMemberSeq, stores);
      && (reply.stopReason != TOOL_USE ==> r == Run(FinalTexts(reply.content) + [Done], history, Finished))
      && (reply.stopReason == TOOL_USE && !step.threw ==>
            r == Continue(step.frames, Drive(step.history, model, fuel - 1, hostMemberSeq, stores)))
  {
  }

  /** A tool_use reply without tool blocks streams nothing and asks the model again about the
      same conversation. */
  lemma EmptyToolUseAsksAgain(history: seq<Turn>, model: Oracle, fuel: nat, hostMemberSeq: int, stores: Stores)
    requires fuel > 0 && model(history, fuel) == Reply(TOOL_USE, [])
    ensures Drive(history, model, fuel, hostMemberSeq, stores) == Drive(history, model, fuel - 1, hostMemberSeq, stores)
  {
    assert ToolUseBlocks([], [], history, hostMemberSeq, stores) == Step([], history, false);
    var rest := Drive(history, model, fuel - 1, hostMemberSeq, stores);
    assert [] + rest.frames == rest.frames;
  }

  /** The second call may be answered differently: an empty tool_use reply and then a final reply
      without blocks finish the stream with `done` alone. */
  lemma AskedAgainCanFinish(history: seq<Turn>, hostMemberSeq: int, stores: Stores)
    ensures var model: Oracle := (h, left) => if left == 2 then Reply(TOOL_USE, []) else Reply("end_turn", []);
      Drive(history, model, 2, hostMemberSeq, stores) == Run([Done], history, Finished)
  {
    var model: Oracle := (h, left) => if left == 2 then Reply(TOOL_USE, []) else Reply("end_turn", []);
    EmptyToolUseAsksAgain(history, model, 2, hostMemberSeq, stores);
    assert FinalTexts([]) == [];
  }

  /** The conversation a run ends with extends the one it started from. */
  lemma {:induction false} DriveHistoryExtends(history: seq<Turn>, model: Oracle, fuel: nat,
                                               hostMemberSeq: int, stores: Stores)
    ensures history <= Drive(history, model, fuel, hostMemberSeq, stores).history
    decreases fuel
  {
    if fuel > 0 {
      var r := Drive(history, model, fuel, hostMemberSeq, stores);
      assert r == Answer(model(history, fuel), history, model, fuel, hostMemberSeq, stores);
      match model(history, fuel)
      case ModelCallFailed =>
      case Reply(stopReason, content) =>
        if stopReason == TOOL_USE {
          StepHistory(content, content, history, hostMemberSeq, stores);
          var step := ToolUseBlocks(content, content, history, hostMemberSeq, stores);
          if !step.threw {
            DriveHistoryExtends(step.history, model, fuel - 1, hostMemberSeq, stores);
          }
        }
    }
  }
}
