/** The chat domain's types: roles, messages, the request body and the parameters of the
    three tools, with the readers that take a tool's input record to its typed parameters. */
module ChatModel {
  import opened Wrappers
  import opened Json

  /** A chat role is `'user'` or `'assistant'` and nothing else. */
  datatype ChatRole = User | Assistant

  function RoleName(r: ChatRole): (s: string)
    ensures s == "user" || s == "assistant"
  {
    match r
    case User => "user"
    case Assistant => "assistant"
  }

  /** Reads a role from its wire name; exactly the two names are roles. */
  function ParseRole(s: string): (r: Option<ChatRole>)
    ensures r.Some? <==> s == "user" || s == "assistant"
    ensures r.Some? ==> RoleName(r.value) == s
  {
    if s == "user" then Some(User)
    else if s == "assistant" then Some(Assistant)
    else None
  }

  datatype ChatMessage = ChatMessage(role: ChatRole, content: string)

  /** `location_name`, `location_url` and `description` are optional; the rest are required. */
  datatype CreateEventToolParams = CreateEventToolParams(
    title: string,
    startDatetime: string,
    endDatetime: string,
    locationName: Option<string>,
    locationUrl: Option<string>,
    maxParticipants: int,
    description: Option<string>)

  datatype GetEventsToolParams = GetEventsToolParams(year: int, month: int)

  datatype GetCourtsToolParams = GetCourtsToolParams(page: Option<int>, limit: Option<int>)

  /** A required string property. */
  function RequiredString(input: map<string, Json>, key: string): (r: Option<string>)
    ensures r.Some? <==> key in input && input[key].JStr?
  {
    if key in input && input[key].JStr? then Some(input[key].s) else None
  }

  /** A required number property. */
  function RequiredNumber(input: map<string, Json>, key: string): (r: Option<int>)
    ensures r.Some? <==> key in input && input[key].JNum?
  {
    if key in input && input[key].JNum? then Some(input[key].n) else None
  }

  /** An optional string property: `Some(None)` when absent, `None` when present with another type. */
  function OptionalString(input: map<string, Json>, key: string): (r: Option<Option<string>>)
    ensures r.None? <==> key in input && !input[key].JStr?
  {
    if key !in input then Some(None)
    else if input[key].JStr? then Some(Some(input[key].s))
    else None
  }

  /** An optional number property: `Some(None)` when absent, `None` when present with another type. */
  function OptionalNumber(input: map<string, Json>, key: string): (r: Option<Option<int>>)
    ensures r.None? <==> key in input && !input[key].JNum?
  {
    if key !in input then Some(None)
    else if input[key].JNum? then Some(Some(input[key].n))
    else None
  }

  /** The input record when it has the shape of CreateEventToolParams. */
  function ReadCreateEventParams(input: map<string, Json>): Option<CreateEventToolParams>
  {
    match (RequiredString(input, "title"), RequiredString(input, "start_datetime"),
           RequiredString(input, "end_datetime"), RequiredNumber(input, "max_participants"))
    case (Some(title), Some(start), Some(end), Some(max)) =>
      (match (OptionalString(input, "location_name"), OptionalString(input, "location_url"),
              OptionalString(input, "description"))
       case (Some(locationName), Some(locationUrl), Some(description)) =>
         Some(CreateEventToolParams(title, start, end, locationName, locationUrl, max, description))
       case _ => None)
    case _ => None
  }

  function ReadGetEventsParams(input: map<string, Json>): Option<GetEventsToolParams>
  {
    match (RequiredNumber(input, "year"), RequiredNumber(input, "month"))
    case (Some(year), Some(month)) => Some(GetEventsToolParams(year, month))
    case _ => None
  }

  function ReadGetCourtsParams(input: map<string, Json>): Option<GetCourtsToolParams>
  {
    match (OptionalNumber(input, "page"), OptionalNumber(input, "limit"))
    case (Some(page), Some(limit)) => Some(GetCourtsToolParams(page, limit))
    case _ => None
  }

  function OptionalStringMember(key: string, v: Option<string>): map<string, Json>
  {
    match v
    case Some(s) => map[key := JStr(s)]
    case None => map[]
  }

  function OptionalNumberMember(key: string, v: Option<int>): map<string, Json>
  {
    match v
    case Some(n) => map[key := JNum(n)]
    case None => map[]
  }

  /** The input record a model writes for the given parameters: absent optionals are left out. */
  function CreateEventInput(p: CreateEventToolParams): map<string, Json>
  {
    map["title" := JStr(p.title), "start_datetime" := JStr(p.startDatetime),
        "end_datetime" := JStr(p.endDatetime), "max_participants" := JNum(p.maxParticipants)]
      + OptionalStringMember("location_name", p.locationName)
      + OptionalStringMember("location_url", p.locationUrl)
      + OptionalStringMember("description", p.description)
  }

  function GetEventsInput(p: GetEventsToolParams): map<string, Json>
  {
    map["year" := JNum(p.year), "month" := JNum(p.month)]
  }

  function GetCourtsInput(p: GetCourtsToolParams): map<string, Json>
  {
    OptionalNumberMember("page", p.page) + OptionalNumberMember("limit", p.limit)
  }

  /** Reading the record of any CreateEventToolParams gives those parameters back. */
  lemma CreateEventParamsRoundTrip(p: CreateEventToolParams)
    ensures ReadCreateEventParams(CreateEventInput(p)) == Some(p)
  {
    CreateEventRequiredFields(p);
    CreateEventOptionalFields(p);
  }

  lemma CreateEventRequiredFields(p: CreateEventToolParams)
    ensures var input := CreateEventInput(p);
      && RequiredString(input, "title") == Some(p.title)
      && RequiredString(input, "start_datetime") == Some(p.startDatetime)
      && RequiredString(input, "end_datetime") == Some(p.endDatetime)
      && RequiredNumber(input, "max_participants") == Some(p.maxParticipants)
  {
    var input := CreateEventInput(p);
    assert input["title"] == JStr(p.title);
    assert input["start_datetime"] == JStr(p.startDatetime);
    assert input["end_datetime"] == JStr(p.endDatetime);
    assert input["max_participants"] == JNum(p.maxParticipants);
  }

  lemma CreateEventOptionalFields(p: CreateEventToolParams)
    ensures var input := CreateEventInput(p);
      && OptionalString(input, "location_name") == Some(p.locationName)
      && OptionalString(input, "location_url") == Some(p.locationUrl)
      && OptionalString(input, "description") == Some(p.description)
  {
    var input := CreateEventInput(p);
    assert ("location_name" in input) == p.locationName.Some?;
    assert ("location_url" in input) == p.locationUrl.Some?;
    assert ("description" in input) == p.description.Some?;
  }

  lemma GetEventsParamsRoundTrip(p: GetEventsToolParams)
    ensures ReadGetEventsParams(GetEventsInput(p)) == Some(p)
  {
  }

  lemma GetCourtsParamsRoundTrip(p: GetCourtsToolParams)
    ensures ReadGetCourtsParams(GetCourtsInput(p)) == Some(p)
  {
    var input := GetCourtsInput(p);
    assert OptionalNumber(input, "page") == Some(p.page);
    assert OptionalNumber(input, "limit") == Some(p.limit);
  }
}
