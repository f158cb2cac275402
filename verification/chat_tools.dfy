/** The tool catalog presented to the language model: three tools, each with its declared
    properties and their primitive types, and the list of required properties. */
module ChatTools {
  import opened Wrappers
  import opened Json
  import opened ChatModel

  datatype PropType = StringProp | NumberProp

  datatype ToolDef = ToolDef(name: string, properties: seq<(string, PropType)>, required: seq<string>)

  const CREATE_EVENT_TOOL: ToolDef := ToolDef(
    "create_event",
    [("title", StringProp), ("start_datetime", StringProp), ("end_datetime", StringProp),
     ("location_name", StringProp), ("location_url", StringProp),
     ("max_participants", NumberProp), ("description", StringProp)],
    ["title", "start_datetime", "end_datetime", "max_participants"])

  const GET_EVENTS_TOOL: ToolDef := ToolDef(
    "get_events",
    [("year", NumberProp), ("month", NumberProp)],
    ["year", "month"])

  const GET_COURTS_TOOL: ToolDef := ToolDef(
    "get_courts",
    [("page", NumberProp), ("limit", NumberProp)],
    [])

  /** The catalog, in the order it is sent with every model request. */
  const CHAT_TOOLS: seq<ToolDef> := [CREATE_EVENT_TOOL, GET_EVENTS_TOOL, GET_COURTS_TOOL]

  function ToolNames(tools: seq<ToolDef>): (names: seq<string>)
    ensures |names| == |tools|
    ensures forall i :: 0 <= i < |tools| ==> names[i] == tools[i].name
    decreases |tools|
  {
    if tools == [] then [] else [tools[0].name] + ToolNames(tools[1..])
  }

  function PropertyNames(def: ToolDef): seq<string>
  {
    seq(|def.properties|, i requires 0 <= i < |def.properties| => def.properties[i].0)
  }

  /** The declared properties that are not required. */
  function OptionalNames(def: ToolDef): seq<string>
  {
    OptionalNamesOf(def.properties, def.required)
  }

  function OptionalNamesOf(props: seq<(string, PropType)>, required: seq<string>): seq<string>
    decreases |props|
  {
    if props == [] then []
    else (if props[0].0 in required then [] else [props[0].0]) + OptionalNamesOf(props[1..], required)
  }

  predicate Distinct(xs: seq<string>)
  {
    forall i, j :: 0 <= i < j < |xs| ==> xs[i] != xs[j]
  }

  /** A tool's schema is well formed when its property names are distinct and every required
      name is a declared property. */
  predicate WellFormed(def: ToolDef)
  {
    Distinct(PropertyNames(def)) && forall r :: r in def.required ==> r in PropertyNames(def)
  }

  predicate HasType(v: Json, t: PropType)
  {
    match t
    case StringProp => v.JStr?
    case NumberProp => v.JNum?
  }

  /** An input record conforms to a schema when every required property is present and every
      declared property that is present has its declared type. */
  predicate Conforms(def: ToolDef, input: map<string, Json>)
  {
    && (forall r :: r in def.required ==> r in input)
    && (forall i :: 0 <= i < |def.properties| && def.properties[i].0 in input ==>
          HasType(input[def.properties[i].0], def.properties[i].1))
  }

  /** The catalog holds three tools, in this order, with distinct names. */
  lemma CatalogNames()
    ensures ToolNames(CHAT_TOOLS) == ["create_event", "get_events", "get_courts"]
    ensures Distinct(ToolNames(CHAT_TOOLS))
  {
    var names := ToolNames(CHAT_TOOLS);
    assert names[0] == "create_event" && names[1] == "get_events" && names[2] == "get_courts";
    assert names[0][0] == 'c' && names[1][0] == 'g' && names[2][0] == 'g';
    assert names[1][4] == 'e' && names[2][4] == 'c';
  }

  /** create_event's property names are distinct and include every required name. */
  lemma CreateEventSchema()
    ensures WellFormed(CREATE_EVENT_TOOL)
  {
    var def := CREATE_EVENT_TOOL;
    var names := PropertyNames(def);
    assert names == ["title", "start_datetime", "end_datetime",
      "location_name", "location_url", "max_participants", "description"];
    assert |names[0]| == 5 && |names[1]| == 14 && |names[2]| == 12 && |names[3]| == 13;
    assert |names[4]| == 12 && |names[5]| == 16 && |names[6]| == 11;
    assert names[2][0] != names[4][0];
  }

  /** create_event requires title, start_datetime, end_datetime and max_participants; its
      other properties, location_name, location_url and description, are optional. */
  lemma CreateEventOptionals()
    ensures OptionalNames(CREATE_EVENT_TOOL) == ["location_name", "location_url", "description"]
  {
    var props := CREATE_EVENT_TOOL.properties;
    var req := CREATE_EVENT_TOOL.required;
    CreateEventRequiredNames();
    assert OptionalNamesOf(props[6..], req) == ["description"];
    assert OptionalNamesOf(props[5..], req) == ["description"];
    assert OptionalNamesOf(props[4..], req) == ["location_url", "description"];
    assert OptionalNamesOf(props[3..], req) == ["location_name", "location_url", "description"];
    assert OptionalNamesOf(props[2..], req) == ["location_name", "location_url", "description"];
    assert OptionalNamesOf(props[1..], req) == ["location_name", "location_url", "description"];
  }

  /** Which of create_event's properties are in its required list. */
  lemma CreateEventRequiredNames()
    ensures var props, req := CREATE_EVENT_TOOL.properties, CREATE_EVENT_TOOL.required;
      && props[0].0 in req && props[1].0 in req && props[2].0 in req && props[5].0 in req
      && props[3].0 !in req && props[4].0 !in req && props[6].0 !in req
  {
    var req := CREATE_EVENT_TOOL.required;
    assert |req[0]| == 5 && |req[1]| == 14 && |req[2]| == 12 && |req[3]| == 16;
    assert "location_name" !in req;
    assert "location_url" !in req by {
      assert "location_url"[0] != req[2][0];
    }
    assert "description" !in req;
  }

  /** get_events requires year and month. */
  lemma GetEventsSchema()
    ensures WellFormed(GET_EVENTS_TOOL)
    ensures GET_EVENTS_TOOL.required == PropertyNames(GET_EVENTS_TOOL) == ["year", "month"]
  {
    assert PropertyNames(GET_EVENTS_TOOL) == ["year", "month"];
  }

  /** get_courts requires nothing: page and limit are both optional. */
  lemma GetCourtsSchema()
    ensures WellFormed(GET_COURTS_TOOL)
    ensures GET_COURTS_TOOL.required == []
    ensures OptionalNames(GET_COURTS_TOOL) == ["page", "limit"]
  {
    assert PropertyNames(GET_COURTS_TOOL) == ["page", "limit"];
  }

  lemma CatalogWellFormed()
    ensures forall t :: t in CHAT_TOOLS ==> WellFormed(t)
  {
    CreateEventSchema();
    GetEventsSchema();
    GetCourtsSchema();
  }

  /** CreateEventToolParams and the create_event schema agree: an input record reads as those
      parameters exactly when it conforms to the schema. */
  lemma CreateEventSchemaMatchesParams(input: map<string, Json>)
    ensures ReadCreateEventParams(input).Some? <==> Conforms(CREATE_EVENT_TOOL, input)
  {
    var def := CREATE_EVENT_TOOL;
    if Conforms(def, input) {
      assert def.properties[0] == ("title", StringProp);
      assert def.properties[1] == ("start_datetime", StringProp);
      assert def.properties[2] == ("end_datetime", StringProp);
      assert def.properties[3] == ("location_name", StringProp);
      assert def.properties[4] == ("location_url", StringProp);
      assert def.properties[5] == ("max_participants", NumberProp);
      assert def.properties[6] == ("description", StringProp);
      assert "title" in def.required && "start_datetime" in def.required;
      assert "end_datetime" in def.required && "max_participants" in def.required;
    }
  }

  lemma GetEventsSchemaMatchesParams(input: map<string, Json>)
    ensures ReadGetEventsParams(input).Some? <==> Conforms(GET_EVENTS_TOOL, input)
  {
    var def := GET_EVENTS_TOOL;
    assert def.properties[0] == ("year", NumberProp) && def.properties[1] == ("month", NumberProp);
    assert "year" in def.required && "month" in def.required;
  }

  lemma GetCourtsSchemaMatchesParams(input: map<string, Json>)
    ensures ReadGetCourtsParams(input).Some? <==> Conforms(GET_COURTS_TOOL, input)
  {
    var def := GET_COURTS_TOOL;
    assert def.properties[0] == ("page", NumberProp) && def.properties[1] == ("limit", NumberProp);
  }
}
