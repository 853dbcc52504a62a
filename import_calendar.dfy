/** `import_calendar_to_app.py`: the transformation of a generated calendar
    into the bulk-create payload of the calendar application, and the name
    of the strategy-summary file that goes with a calendar file. Reading
    the files and the POST itself are not part of this model. */
module ImportCalendar {
  import opened Wrappers
  import opened JsonValue
  import Text
  import OrderedMap

  const DefaultColor := "bg-gray-200 text-gray-800"

  /** `EVENT_TYPE_COLORS` */
  const EventTypeColors: map<string, string> := map[
    "promotional" := "bg-red-100 text-red-800",
    "engagement" := "bg-blue-100 text-blue-800",
    "content" := "bg-green-100 text-green-800",
    "special" := "bg-purple-100 text-purple-800",
    "default" := DefaultColor
  ]

  /** `EVENT_TYPE_COLORS.get(event_type, EVENT_TYPE_COLORS['default'])`:
      the lookup raises `TypeError` for an unhashable type. */
  function Color(eventType: Value): (r: Result<string, PyExc>)
    ensures r.Err? <==> !Hashable(eventType)
    ensures r.Ok? && eventType.Str? && eventType.s in EventTypeColors ==> r.value == EventTypeColors[eventType.s]
    ensures r.Ok? && !(eventType.Str? && eventType.s in EventTypeColors) ==> r.value == DefaultColor
  {
    if !Hashable(eventType) then Err(TypeError)
    else if eventType.Str? && eventType.s in EventTypeColors then Ok(EventTypeColors[eventType.s])
    else Ok(DefaultColor)
  }

  /** Every event gets one of the five palette colours. */
  lemma ColorInPalette(eventType: Value)
    requires Hashable(eventType)
    ensures Color(eventType).value in EventTypeColors.Values
  {
    if !(eventType.Str? && eventType.s in EventTypeColors) {
      assert EventTypeColors["default"] == DefaultColor;
    }
  }

  /** The grey default is the colour of exactly the types outside the four
      named ones, so the colour tells a named type from any other. */
  lemma GreyForUnknown(eventType: Value)
    requires Hashable(eventType)
    ensures Color(eventType).value == DefaultColor
            <==> !(eventType.Str? && eventType.s in {"promotional", "engagement", "content", "special"})
  {
    if eventType.Str? && eventType.s in {"promotional", "engagement", "content", "special"} {
      var c := Color(eventType).value;
      assert c[5] != DefaultColor[5];
    }
  }

  /** `transform_event` */
  function TransformEvent(event: Value, clientId: Value): (r: Result<Value, PyExc>)
    ensures r.Ok? ==> r.value.Obj?
  {
    if !event.Obj? then Err(AttributeError)
    else
      var eventType := Lookup(event, "type", Str("default"));
      var color :- Color(eventType);
      Ok(Record(event, clientId, eventType, color))
  }

  /** The dict `transform_event` builds. */
  function Record(event: Value, clientId: Value, eventType: Value, color: string): Value
    requires event.Obj?
  {
    Obj([
      ("client_id", clientId),
      ("title", Lookup(event, "title", Str(""))),
      ("content", Lookup(event, "description", Str(""))),
      ("event_date", Lookup(event, "date", Null)),
      ("event_type", eventType),
      ("send_time", Lookup(event, "send_time", Null)),
      ("color", Str(color)),
      ("segment", Lookup(event, "segment", Null)),
      ("subject_a", Lookup(event, "subject_a", Null)),
      ("subject_b", Lookup(event, "subject_b", Null)),
      ("preview_text", Lookup(event, "preview_text", Null)),
      ("main_cta", Lookup(event, "main_cta", Null)),
      ("offer", Lookup(event, "offer", Null)),
      ("ab_test", Lookup(event, "ab_test", Null))])
  }

  /** A dict event transforms unless its type is unhashable; anything else
      raises `AttributeError`. */
  lemma TransformEventFails(event: Value, clientId: Value)
    ensures !event.Obj? ==> TransformEvent(event, clientId) == Err(AttributeError)
    ensures event.Obj? ==> (TransformEvent(event, clientId).Ok? <==> Hashable(Lookup(event, "type", Str("default"))))
  {
  }

  /** The field mapping: the client id comes from the argument, the date
      becomes `event_date`, the description `content` (default ""), the
      title defaults to "", and the colour follows the type, a missing type
      counting as "default". */
  lemma TransformEventFields(event: Value, clientId: Value)
    requires TransformEvent(event, clientId).Ok?
    ensures event.Obj?
    ensures var r := TransformEvent(event, clientId).value;
            var t := Lookup(event, "type", Str("default"));
            && r.fields[0] == ("client_id", clientId)
            && r.fields[1] == ("title", Lookup(event, "title", Str("")))
            && r.fields[2] == ("content", Lookup(event, "description", Str("")))
            && r.fields[3] == ("event_date", Lookup(event, "date", Null))
            && r.fields[4] == ("event_type", t)
            && r.fields[6] == ("color", Str(if t.Str? && t.s in EventTypeColors then EventTypeColors[t.s] else DefaultColor))
  {
    var t := Lookup(event, "type", Str("default"));
    assert TransformEvent(event, clientId) == Ok(Record(event, clientId, t, Color(t).value));
  }

  /** The client id of a transformed event is the one it was given. */
  lemma TransformedClientId(event: Value, clientId: Value)
    requires TransformEvent(event, clientId).Ok?
    ensures Field(TransformEvent(event, clientId).value, "client_id") == Some(clientId)
  {
  }

  /** The list comprehension of `create_bulk_request`: each event in turn,
      stopping at the first that raises. */
  function TransformAll(events: seq<Value>, clientId: Value): (r: Result<seq<Value>, PyExc>)
    ensures r.Ok? ==> |r.value| == |events|
    ensures r.Ok? ==> forall i :: 0 <= i < |events| ==> TransformEvent(events[i], clientId) == Ok(r.value[i])
    ensures r.Ok? <==> forall i :: 0 <= i < |events| ==> TransformEvent(events[i], clientId).Ok?
  {
    if events == [] then Ok([])
    else
      var first :- TransformEvent(events[0], clientId);
      var rest :- TransformAll(events[1..], clientId);
      assert forall i :: 1 <= i < |events| ==> events[i] == events[1..][i - 1];
      Ok([first] + rest)
  }

  /** `create_bulk_request`; Python's `None` summary is `Null`. */
  function CreateBulkRequest(calendar: Value, summary: Value): (r: Result<Value, PyExc>)
    ensures r.Ok? ==> r.value.Obj?
  {
    if !calendar.Obj? then Err(AttributeError)
    else
      var clientId := Lookup(calendar, "client_id", Null);
      match Iterate(Lookup(calendar, "events", Arr([])))
      case None => Err(TypeError)
      case Some(events) =>
        var transformed :- TransformAll(events, clientId);
        var payload := Obj([("client_id", clientId), ("events", Arr(transformed))]);
        Ok(if Truthy(summary) then Set(payload, "strategy_summary", summary) else payload)
  }

  /** Every event of a successful transformation carries the given client id. */
  lemma TransformAllClientIds(events: seq<Value>, clientId: Value)
    requires TransformAll(events, clientId).Ok?
    ensures forall i :: 0 <= i < |events| ==> Field(TransformAll(events, clientId).value[i], "client_id") == Some(clientId)
  {
    forall i | 0 <= i < |events|
      ensures Field(TransformAll(events, clientId).value[i], "client_id") == Some(clientId)
    {
      TransformedClientId(events[i], clientId);
    }
  }

  /** The payload carries the calendar's client id and its events
      transformed one for one, in order; by `TransformAll` and
      `TransformAllClientIds` each of those is stamped with that client id. */
  lemma BulkRequestEvents(calendar: Value, summary: Value)
    requires CreateBulkRequest(calendar, summary).Ok?
    requires Lookup(calendar, "events", Arr([])).Arr?
    ensures var payload := CreateBulkRequest(calendar, summary).value;
            var clientId := Lookup(calendar, "client_id", Null);
            var events := Lookup(calendar, "events", Arr([])).items;
            && TransformAll(events, clientId).Ok?
            && Field(payload, "client_id") == Some(clientId)
            && Field(payload, "events") == Some(Arr(TransformAll(events, clientId).value))
  {
    var clientId := Lookup(calendar, "client_id", Null);
    var events := Lookup(calendar, "events", Arr([])).items;
    var payload := Obj([("client_id", clientId), ("events", Arr(TransformAll(events, clientId).value))]);
    assert CreateBulkRequest(calendar, summary).value
           == if Truthy(summary) then Set(payload, "strategy_summary", summary) else payload;
    if Truthy(summary) {
      OrderedMap.PutOther(payload.fields, "strategy_summary", summary, "client_id");
      OrderedMap.PutOther(payload.fields, "strategy_summary", summary, "events");
    }
  }

  /** The payload has a `strategy_summary` key exactly when the summary is
      truthy, and then it holds that summary. */
  lemma BulkRequestSummary(calendar: Value, summary: Value)
    requires CreateBulkRequest(calendar, summary).Ok?
    ensures var payload := CreateBulkRequest(calendar, summary).value;
            && (HasField(payload, "strategy_summary") <==> Truthy(summary))
            && (Truthy(summary) ==> Field(payload, "strategy_summary") == Some(summary))
  {
    var payload := CreateBulkRequest(calendar, summary).value;
    if !Truthy(summary) {
      assert OrderedMap.Keys(payload.fields) == ["client_id", "events"];
    }
  }

  const CalendarSuffix := "_calendar_app.json"
  const SummarySuffix := "_strategy_summary.json"

  /** The strategy-summary path `load_strategy_summary` derives. */
  function StrategyPath(calendarPath: string): string {
    Text.Replace(calendarPath, CalendarSuffix, SummarySuffix)
  }

  /** A calendar file named `<stem>_calendar_app.json`, with the suffix
      nowhere else, has its summary at `<stem>_strategy_summary.json`; a
      path without the suffix is its own summary path. */
  lemma StrategyPathOfCalendar(stem: string)
    requires forall i :: 0 <= i < |stem| ==> !Text.OccursAt(stem + CalendarSuffix, CalendarSuffix, i)
    ensures StrategyPath(stem + CalendarSuffix) == stem + SummarySuffix
  {
    Text.ReplaceSuffix(stem, CalendarSuffix, SummarySuffix);
  }

  lemma StrategyPathWithoutSuffix(path: string)
    requires !Text.Contains(path, CalendarSuffix)
    ensures StrategyPath(path) == path
  {
    Text.ReplaceAbsent(path, CalendarSuffix, SummarySuffix);
  }
}
