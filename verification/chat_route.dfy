/** The chat endpoint for an authenticated user: it checks the request body, looks the member
    up, and answers with the event stream of the conversation. */
module ChatRoute {
  import opened Wrappers
  import opened Json

  const MESSAGES_REQUIRED: string := "메시지가 필요합니다."
  const MEMBER_NOT_FOUND: string := "회원 정보를 찾을 수 없습니다."
  const CHAT_FAILED: string := "챗봇 처리 중 오류가 발생했습니다."

  const STREAM_HEADERS: seq<(string, string)> :=
    [("Content-Type", "text/event-stream"), ("Cache-Control", "no-cache"), ("Connection", "keep-alive")]

  /** What the member lookup for the authenticated user gave: the member's sequence number, no
      member, or a thrown error. */
  datatype MemberLookup = Found(memberSeq: int) | NotFound | LookupThrew

  datatype Response =
    | JsonError(status: int, error: string)
    /** The shared error handler's answer, with the endpoint's fallback message. */
    | HandledError(fallback: string)
    | EventStream(messages: seq<Json>, actor: int, headers: seq<(string, string)>)

  /** The `messages` property of a parsed body: `None` when it is absent, and on every body that
      is not an object (reading a property of a string, number, boolean or array gives nothing). */
  function MessagesOf(body: Json): Option<Json>
    requires !body.JNull?
  {
    if body.JObj? then Lookup(body.members, "messages") else None
  }

  /** The handler. `body` is `None` when the request body is not JSON; `lookup` is what the
      member lookup gives, and is only consulted once the messages are accepted. */
  function Post(body: Option<Json>, lookup: MemberLookup): (r: Response)
    ensures r.EventStream? ==> r.headers == STREAM_HEADERS && |r.messages| > 0
  {
    match body
    case None => HandledError(CHAT_FAILED)
    case Some(b) =>
      if b.JNull? then HandledError(CHAT_FAILED)
      else
        match MessagesOf(b)
        case Some(JArr(items)) =>
          if |items| == 0 then JsonError(400, MESSAGES_REQUIRED)
          else
            (match lookup
             case NotFound => JsonError(404, MEMBER_NOT_FOUND)
             case LookupThrew => HandledError(CHAT_FAILED)
             case Found(memberSeq) => EventStream(items, memberSeq, STREAM_HEADERS))
        case _ => JsonError(400, MESSAGES_REQUIRED)
  }

  /** A body the endpoint accepts: a JSON object whose `messages` is a non-empty array. */
  predicate AcceptedBody(body: Option<Json>)
  {
    && body.Some? && body.value.JObj?
    && var m := Lookup(body.value.members, "messages");
       m.Some? && m.value.JArr? && |m.value.items| > 0
  }

  /** A body that parses to something other than `null` and is not accepted gets 400, whatever
      the member lookup would have given: the messages are checked first. */
  lemma RejectedBeforeLookup(body: Option<Json>, lookup: MemberLookup)
    requires body.Some? && !body.value.JNull? && !AcceptedBody(body)
    ensures Post(body, lookup) == JsonError(400, MESSAGES_REQUIRED)
  {
  }

  /** The outcomes of an accepted body, by what the lookup gave. */
  lemma AcceptedOutcomes(body: Option<Json>, lookup: MemberLookup)
    requires AcceptedBody(body)
    ensures lookup.NotFound? ==> Post(body, lookup) == JsonError(404, MEMBER_NOT_FOUND)
    ensures lookup.LookupThrew? ==> Post(body, lookup) == HandledError(CHAT_FAILED)
    ensures lookup.Found? ==>
      Post(body, lookup) ==
        EventStream(Lookup(body.value.members, "messages").value.items, lookup.memberSeq, STREAM_HEADERS)
  {
  }

  /** The stream is opened exactly for an accepted body and a member that was found. */
  lemma StreamExactlyWhenAccepted(body: Option<Json>, lookup: MemberLookup)
    ensures Post(body, lookup).EventStream? <==> AcceptedBody(body) && lookup.Found?
  {
    if body.Some? && !body.value.JNull? && !AcceptedBody(body) {
      RejectedBeforeLookup(body, lookup);
    }
  }

  /** A failure anywhere in the handler, including a body that is not JSON or is `null`, ends
      in the shared error handler with the chat fallback message, and no other response of the
      handler uses it. */
  lemma ThrownErrorsAreHandled(body: Option<Json>, lookup: MemberLookup)
    ensures Post(body, lookup).HandledError? <==>
      body.None? || body.value.JNull? || (AcceptedBody(body) && lookup.LookupThrew?)
    ensures Post(body, lookup).HandledError? ==> Post(body, lookup).fallback == CHAT_FAILED
  {
    if body.Some? && !body.value.JNull? && !AcceptedBody(body) {
      RejectedBeforeLookup(body, lookup);
    }
  }
}
