/** `push_to_calendar.py`: the repair of event types, the transformation of
    a `calendar_import.json` event into the calendar application's create
    schema, the bulk payload, and the loop of `main` that transforms every
    event and records each type it repaired. Reading the file and the POST
    are not part of this model. */
module PushCalendar {
  import opened Wrappers
  import opened JsonValue
  import Text
  import OrderedMap

  /** `TYPE_MAPPINGS` */
  const TypeMappings: map<string, string> := map["content" := "educational", "special" := "product_spotlight"]

  /** `fix_event_type`: `TYPE_MAPPINGS.get(event_type, event_type)`, which
      raises `TypeError` for an unhashable type. */
  function FixEventType(t: Value): (r: Result<Value, PyExc>)
    ensures r.Err? <==> !Hashable(t)
    ensures r.Ok? ==> r.value == if t.Str? && t.s in TypeMappings then Str(TypeMappings[t.s]) else t
  {
    if !Hashable(t) then Err(TypeError)
    else if t.Str? && t.s in TypeMappings then Ok(Str(TypeMappings[t.s]))
    else Ok(t)
  }

  /** "content" becomes "educational", "special" becomes "product_spotlight",
      every other type is kept; repairing twice is repairing once. */
  lemma FixEventTypeIdempotent(t: Value)
    requires Hashable(t)
    ensures FixEventType(FixEventType(t).value) == FixEventType(t)
    ensures FixEventType(Str("content")) == Ok(Str("educational"))
    ensures FixEventType(Str("special")) == Ok(Str("product_spotlight"))
    ensures FixEventType(t).value != t <==> t.Str? && t.s in TypeMappings
  {
    var r := FixEventType(t).value;
    if t.Str? && t.s in TypeMappings {
      assert r.s !in TypeMappings;
    }
  }

  /** `x.copy()`: dicts and lists have one, other values raise. */
  function Copy(v: Value): Result<Value, PyExc> {
    if v.Obj? || v.Arr? then Ok(v) else Err(AttributeError)
  }

  /** `metadata[key] = value`: a list only takes integer indices. */
  function SetKey(metadata: Value, key: string, x: Value): (r: Result<Value, PyExc>)
    requires metadata.Obj? || metadata.Arr?
    ensures r.Ok? <==> metadata.Obj?
    ensures r.Ok? ==> r.value.Obj?
  {
    if metadata.Obj? then Ok(Assign(metadata, key, x)) else Err(TypeError)
  }

  /** The `metadata` of `transform_event`: a copy of a truthy `custom_fields`
      (else `{}`), then `tags` and `client_name` when they are truthy. */
  function Metadata(event: Value): (r: Result<Value, PyExc>)
    requires event.Obj?
    ensures r.Ok? ==> r.value.Obj? || r.value.Arr?
  {
    var customFields := Lookup(event, "custom_fields", Null);
    var m0 :- if Truthy(customFields) then Copy(customFields) else Ok(Obj([]));
    var tags := Lookup(event, "tags", Null);
    var m1 :- if Truthy(tags) then SetKey(m0, "tags", tags) else Ok(m0);
    var clientName := Lookup(event, "client_name", Null);
    if Truthy(clientName) then SetKey(m1, "client_name", clientName) else Ok(m1)
  }

  /** With dict (or falsy) custom fields, the metadata holds every custom
      field except where `tags` or `client_name` override it, and those two
      exactly when they are truthy. */
  lemma MetadataFields(event: Value, k: string)
    requires event.Obj?
    requires var cf := Lookup(event, "custom_fields", Null); cf.Obj? || !Truthy(cf)
    ensures Metadata(event).Ok? && Metadata(event).value.Obj?
    ensures var m := Metadata(event).value;
            var cf := Lookup(event, "custom_fields", Null);
            var tags := Lookup(event, "tags", Null);
            var clientName := Lookup(event, "client_name", Null);
            && (Truthy(tags) ==> Find(m.fields, "tags") == Some(tags))
            && (Truthy(clientName) ==> Find(m.fields, "client_name") == Some(clientName))
            && (k != "tags" && k != "client_name" ==>
                  Find(m.fields, k) == if Truthy(cf) then Find(cf.fields, k) else None)
  {
    var cf := Lookup(event, "custom_fields", Null);
    var tags := Lookup(event, "tags", Null);
    var clientName := Lookup(event, "client_name", Null);
    var m0 := if Truthy(cf) then cf else Obj([]);
    var m1 := if Truthy(tags) then Assign(m0, "tags", tags) else m0;
    FindAssign(m0.fields, "tags", tags, k);
    FindAssign(m1.fields, "client_name", clientName, k);
    FindAssign(m1.fields, "client_name", clientName, "tags");
    FindAssign(m1.fields, "client_name", clientName, "client_name");
    FindAssign(m0.fields, "tags", tags, "tags");
  }

  /** `transform_event`: the subscripts `event["client_id"]`,
      `event["name"]` and `event["date"]` raise `KeyError` for a missing key. */
  function TransformEvent(event: Value): (r: Result<Value, PyExc>)
    ensures r.Ok? ==> event.Obj? && Has(event, "client_id") && Has(event, "name") && Has(event, "date")
  {
    if !event.Obj? then Err(AttributeError)
    else
      var eventType :- FixEventType(Lookup(event, "type", Str("campaign")));
      var metadata :- Metadata(event);
      if !Has(event, "client_id") || !Has(event, "name") || !Has(event, "date") then Err(KeyError)
      else Ok(Obj([
        ("client_id", Lookup(event, "client_id", Null)),
        ("title", Lookup(event, "name", Null)),
        ("event_date", Lookup(event, "date", Null)),
        ("description", Lookup(event, "description", Str(""))),
        ("event_type", eventType),
        ("status", Lookup(event, "status", Str("draft"))),
        ("send_time", Lookup(event, "time", Null)),
        ("metadata", metadata)]))
  }

  /** The event type is the repaired type (default "campaign"), the status
      defaults to "draft" and the description to "". */
  lemma TransformEventDefaults(event: Value)
    requires TransformEvent(event).Ok?
    ensures var r := TransformEvent(event).value;
            && r.Obj? && |r.fields| == 8
            && r.fields[4] == ("event_type", FixEventType(Lookup(event, "type", Str("campaign"))).value)
            && r.fields[5] == ("status", Lookup(event, "status", Str("draft")))
            && r.fields[3] == ("description", Lookup(event, "description", Str("")))
            && r.fields[0] == ("client_id", Lookup(event, "client_id", Null))
            && r.fields[1] == ("title", Lookup(event, "name", Null))
            && r.fields[2] == ("event_date", Lookup(event, "date", Null))
  {
  }

  /** The `event_type` of a transformed event is its repaired type. */
  lemma TransformedType(event: Value)
    requires TransformEvent(event).Ok?
    ensures TransformEvent(event).value.Obj?
    ensures Lookup(TransformEvent(event).value, "event_type", Null) == FixEventType(Lookup(event, "type", Str("campaign"))).value
  {
    TransformEventDefaults(event);
    FindAt(TransformEvent(event).value.fields, 4, "event_type");
  }

  /** `create_bulk_request` wraps the events unchanged. */
  function BulkRequest(events: seq<Value>, clientId: Value): (r: Value)
    ensures r.Obj? && Find(r.fields, "client_id") == Some(clientId) && Find(r.fields, "events") == Some(Arr(events))
  {
    Obj([("client_id", clientId), ("events", Arr(events))])
  }

  /** The line `main` records for a repaired type; the index counts from 1. */
  function FixMessage(i: nat, name: Value, original: Value, fixed: Value): string {
    "  Event " + Text.IntToString(i) + ": '" + PyStr(name) + "' - type '" + PyStr(original)
      + "' → '" + PyStr(fixed) + "'"
  }

  /** The transformed event `main` gets for `event`, and the fix it records. */
  function Step(i: nat, event: Value): (r: Result<(Value, seq<string>), PyExc>)
    ensures r.Ok? ==> TransformEvent(event) == Ok(r.value.0)
  {
    if !event.Obj? then Err(AttributeError)
    else
      var original := Lookup(event, "type", Null);
      var t :- TransformEvent(event);
      var fixed := Lookup(t, "event_type", Null);
      Ok((t, if original != fixed then [FixMessage(i, Lookup(event, "name", Null), original, fixed)] else []))
  }

  datatype Pushed = Pushed(transformed: seq<Value>, fixes: seq<string>)

  /** The loop of `main` over the first events. */
  function PushAll(events: seq<Value>): (r: Result<Pushed, PyExc>)
    ensures r.Ok? ==> |r.value.transformed| == |events|
    ensures r.Ok? ==> forall i :: 0 <= i < |events| ==> TransformEvent(events[i]) == Ok(r.value.transformed[i])
  {
    if events == [] then Ok(Pushed([], []))
    else
      var init := events[..|events| - 1];
      var p :- PushAll(init);
      var s :- Step(|events|, events[|events| - 1]);
      assert forall i :: 0 <= i < |init| ==> init[i] == events[i];
      Ok(Pushed(p.transformed + [s.0], p.fixes + s.1))
  }

  /** A fix is recorded exactly for an event whose `type` is missing (it
      becomes "campaign") or is one of the two repaired types. */
  lemma FixRecorded(i: nat, event: Value)
    requires Step(i, event).Ok?
    ensures Step(i, event).value.1 != [] <==>
            !Has(event, "type") || Lookup(event, "type", Null) in {Str("content"), Str("special")}
  {
    TransformedType(event);
    if Has(event, "type") {
      var v := Lookup(event, "type", Null);
      assert Lookup(event, "type", Str("campaign")) == v;
      FixEventTypeIdempotent(v);
    }
  }

  /** The loop state after one more event that transforms. */
  lemma PushStep(events: seq<Value>, i: int, p: Pushed)
    requires 0 <= i < |events|
    requires PushAll(events[..i]) == Ok(p)
    requires Step(i + 1, events[i]).Ok?
    ensures PushAll(events[..i + 1]) == Ok(Pushed(p.transformed + [Step(i + 1, events[i]).value.0], p.fixes + Step(i + 1, events[i]).value.1))
  {
    assert events[..i + 1][..i] == events[..i];
  }

  /** The loop raises what the first event that raises raises. */
  lemma PushFails(events: seq<Value>, i: int, p: Pushed)
    requires 0 <= i < |events|
    requires PushAll(events[..i]) == Ok(p)
    requires Step(i + 1, events[i]).Err?
    ensures PushAll(events) == Err(Step(i + 1, events[i]).error)
  {
    PushFailsHere(events, i, p);
    PushStops(events, i + 1);
  }

  lemma PushFailsHere(events: seq<Value>, i: int, p: Pushed)
    requires 0 <= i < |events|
    requires PushAll(events[..i]) == Ok(p)
    requires Step(i + 1, events[i]).Err?
    ensures PushAll(events[..i + 1]) == Err(Step(i + 1, events[i]).error)
  {
    var s := events[..i + 1];
    assert s[..|s| - 1] == events[..i];
  }

  /** Once an event raises, so does the whole loop. */
  lemma {:induction false} PushStops(events: seq<Value>, i: int)
    requires 0 < i <= |events|
    requires PushAll(events[..i]).Err?
    ensures PushAll(events) == PushAll(events[..i])
  {
    if i < |events| {
      var init := events[..|events| - 1];
      assert init[..i] == events[..i];
      PushStops(init, i);
    } else {
      assert events[..i] == events;
    }
  }

  /** What `main` sends and reports: the bulk payload and the fix lines. */
  function Prepare(calendar: Value): Result<(Value, seq<string>), PyExc> {
    if !calendar.Obj? then Err(AttributeError)
    else
      var events := Lookup(calendar, "events", Arr([]));
      var metadata := Lookup(calendar, "metadata", Obj([]));
      if !metadata.Obj? then Err(AttributeError)
      else
        var clientId := Lookup(metadata, "client_id", Str("rogue-creamery"));
        if Len(events).None? then Err(TypeError)
        else
          var items := Iterate(events).value;
          var p :- PushAll(items);
          Ok((BulkRequest(p.transformed, clientId), p.fixes))
  }

  /** The loop of `main`, up to the payload it sends. */
  method PrepareBulk(calendar: Value) returns (r: Result<(Value, seq<string>), PyExc>)
    ensures r == Prepare(calendar)
  {
    if !calendar.Obj? {
      return Err(AttributeError);
    }
    var events := Lookup(calendar, "events", Arr([]));
    var metadata := Lookup(calendar, "metadata", Obj([]));
    if !metadata.Obj? {
      return Err(AttributeError);
    }
    var clientId := Lookup(metadata, "client_id", Str("rogue-creamery"));
    if Len(events).None? {
      return Err(TypeError);
    }
    var items := Iterate(events).value;
    var transformed: seq<Value> := [];
    var fixes: seq<string> := [];
    var i := 0;
    while i < |items|
      invariant 0 <= i <= |items|
      invariant PushAll(items[..i]) == Ok(Pushed(transformed, fixes))
    {
      var event := items[i];
      if !event.Obj? {
        PushFails(items, i, Pushed(transformed, fixes));
        return Err(AttributeError);
      }
      var original := Lookup(event, "type", Null);
      var t := TransformEvent(event);
      if t.Err? {
        PushFails(items, i, Pushed(transformed, fixes));
        return Err(t.error);
      }
      var fixed := Lookup(t.value, "event_type", Null);
      var line := if original != fixed then [FixMessage(i + 1, Lookup(event, "name", Null), original, fixed)] else [];
      PushStep(items, i, Pushed(transformed, fixes));
      transformed := transformed + [t.value];
      fixes := fixes + line;
      i := i + 1;
    }
    assert items[..i] == items;
    r := Ok((BulkRequest(transformed, clientId), fixes));
  }
}
