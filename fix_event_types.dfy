/** `fix_event_types.py`: the classification of calendar events whose
    `event_type` the calendar schema does not accept, the per-type tally of
    those events, the loop that sends one update per flagged event, and the
    exit code of `main`. The GET and the PUTs are parameters; the printed
    report is not part of this model. */
module FixEventTypes {
  import opened Wrappers
  import opened JsonValue
  import Text
  import OrderedMap

  /** `TYPE_MAPPINGS`: invalid type to valid type. */
  const TypeMappings: map<string, string> := map[
    "content" := "educational",
    "special" := "product_spotlight",
    "email_campaign" := "promotional",
    "email" := "promotional"
  ]

  /** `VALID_TYPES` */
  const ValidTypes: seq<string> := [
    "promotional", "educational", "seasonal", "product_launch",
    "product_spotlight", "engagement", "win_back", "nurture",
    "resend", "lifecycle"
  ]

  /** `event_type and event_type not in VALID_TYPES`: list membership compares
      with `==`, so any value can be tested. */
  predicate IsInvalidType(t: Value) {
    Truthy(t) && !(t.Str? && t.s in ValidTypes)
  }

  /** `TYPE_MAPPINGS.get(event_type, "promotional")`, which raises `TypeError`
      for an unhashable type. The replacement is always a valid type. */
  function NewType(t: Value): (r: Result<string, PyExc>)
    ensures r.Err? <==> !Hashable(t)
    ensures r.Ok? ==> r.value in ValidTypes
    ensures r.Ok? && t.Str? && t.s in TypeMappings ==> r.value == TypeMappings[t.s]
    ensures r.Ok? && !(t.Str? && t.s in TypeMappings) ==> r.value == "promotional"
  {
    if !Hashable(t) then Err(TypeError)
    else if t.Str? && t.s in TypeMappings then
      assert TypeMappings[t.s] in {"educational", "product_spotlight", "promotional"};
      Ok(TypeMappings[t.s])
    else Ok("promotional")
  }

  /** The record `main` keeps for a flagged event. */
  datatype Flagged = Flagged(id: Value, title: Value, current: Value, newType: string)

  /** A flagged record carries an invalid, hashable current type and a
      valid replacement. */
  predicate Valid(f: Flagged) {
    IsInvalidType(f.current) && Hashable(f.current) && f.newType in ValidTypes
  }

  /** `event.get("event_type", "")` */
  function TypeOf(event: Value): Value
    requires event.Obj?
  {
    Lookup(event, "event_type", Str(""))
  }

  /** One turn of the first loop of `main`: `event.get` raises
      `AttributeError` on a non-dict; a flagged event yields its record. */
  function Flag(event: Value): (r: Result<Option<Flagged>, PyExc>)
    ensures r.Ok? <==> event.Obj? && (IsInvalidType(TypeOf(event)) ==> Hashable(TypeOf(event)))
    ensures r.Ok? ==> (r.value.Some? <==> IsInvalidType(TypeOf(event)))
    ensures r.Ok? && r.value.Some? ==> Valid(r.value.value)
  {
    if !event.Obj? then Err(AttributeError)
    else
      var t := TypeOf(event);
      if !IsInvalidType(t) then Ok(None)
      else
        var newType :- NewType(t);
        Ok(Some(Flagged(Lookup(event, "id", Null), Lookup(event, "title", Str("Untitled")), t, newType)))
  }

  /** Each event's turn of the first loop, in order. */
  function Results(events: seq<Value>): (rs: seq<Result<Option<Flagged>, PyExc>>)
    ensures |rs| == |events| && forall i :: 0 <= i < |events| ==> rs[i] == Flag(events[i])
  {
    seq(|events|, i requires 0 <= i < |events| => Flag(events[i]))
  }

  function Listed(o: Option<Flagged>): seq<Flagged> {
    if o.Some? then [o.value] else []
  }

  /** The loop over the turns: the first exception, or the records of the
      flagged events in order. */
  function Collect(rs: seq<Result<Option<Flagged>, PyExc>>): (r: Result<seq<Flagged>, PyExc>)
    ensures r.Ok? ==> |r.value| <= |rs|
  {
    if rs == [] then Ok([])
    else
      var prev :- Collect(rs[..|rs| - 1]);
      var last :- rs[|rs| - 1];
      Ok(prev + Listed(last))
  }

  /** `invalid_events` after the first loop over `events`. */
  function FlagAll(events: seq<Value>): (r: Result<seq<Flagged>, PyExc>)
    ensures r.Ok? ==> |r.value| <= |events|
    ensures r.Ok? ==> forall k :: 0 <= k < |r.value| ==> Valid(r.value[k])
  {
    CollectValid(Results(events));
    Collect(Results(events))
  }

  /** The records collected from valid records are valid. */
  lemma CollectValid(rs: seq<Result<Option<Flagged>, PyExc>>)
    requires forall i :: 0 <= i < |rs| && rs[i].Ok? && rs[i].value.Some? ==> Valid(rs[i].value.value)
    ensures Collect(rs).Ok? ==> forall k :: 0 <= k < |Collect(rs).value| ==> Valid(Collect(rs).value[k])
  {
    if Collect(rs).Ok? {
      var pos := CollectPositions(rs);
    }
  }

  /** The loop runs to the end exactly when no turn raises. */
  lemma {:induction false} CollectOk(rs: seq<Result<Option<Flagged>, PyExc>>)
    ensures Collect(rs).Ok? <==> forall i :: 0 <= i < |rs| ==> rs[i].Ok?
  {
    if rs != [] {
      var init := rs[..|rs| - 1];
      CollectOk(init);
      OrderedMap.AllInit(rs, init, (x: Result<Option<Flagged>, PyExc>) => x.Ok?);
    }
  }

  /** The classification succeeds exactly when every event is a dict and
      every invalid type is hashable. */
  lemma FlagAllOk(events: seq<Value>)
    ensures FlagAll(events).Ok? <==>
            forall i :: 0 <= i < |events| ==>
              events[i].Obj? && (IsInvalidType(TypeOf(events[i])) ==> Hashable(TypeOf(events[i])))
  {
    CollectOk(Results(events));
  }

  /** The records the loop collects are those of the turns that flag an
      event, in order: `pos` lists their positions. */
  lemma {:induction false} CollectPositions(rs: seq<Result<Option<Flagged>, PyExc>>) returns (pos: seq<nat>)
    requires Collect(rs).Ok?
    ensures |pos| == |Collect(rs).value|
    ensures forall k :: 0 <= k < |pos| ==> pos[k] < |rs| && rs[pos[k]] == Ok(Some(Collect(rs).value[k]))
    ensures forall k, l :: 0 <= k < l < |pos| ==> pos[k] < pos[l]
    ensures forall i :: 0 <= i < |rs| ==> rs[i].Ok? && (i in pos <==> rs[i].value.Some?)
  {
    if rs == [] {
      return [];
    }
    var n := |rs| - 1;
    var init := rs[..n];
    var prev := CollectPositions(init);
    var last := rs[n].value;
    assert Collect(rs).value == Collect(init).value + Listed(last);
    pos := prev + if last.Some? then [n] else [];
    assert forall i :: 0 <= i < n ==> init[i] == rs[i];
    forall i | 0 <= i < |rs|
      ensures rs[i].Ok? && (i in pos <==> rs[i].value.Some?)
    {
      if i < n {
        assert i in pos <==> i in prev;
      }
    }
  }

  /** The flagged records are those of the events with an invalid type, in
      the order the events were fetched: `pos` lists their positions. */
  lemma FlagAllPositions(events: seq<Value>) returns (pos: seq<nat>)
    requires FlagAll(events).Ok?
    ensures |pos| == |FlagAll(events).value|
    ensures forall k :: 0 <= k < |pos| ==> pos[k] < |events| && Flag(events[pos[k]]) == Ok(Some(FlagAll(events).value[k]))
    ensures forall k, l :: 0 <= k < l < |pos| ==> pos[k] < pos[l]
    ensures forall i :: 0 <= i < |events| ==> events[i].Obj? && (i in pos <==> IsInvalidType(TypeOf(events[i])))
  {
    pos := CollectPositions(Results(events));
  }

  /** The first loop of `main`. */
  method FindInvalid(events: seq<Value>) returns (r: Result<seq<Flagged>, PyExc>)
    ensures r == FlagAll(events)
  {
    ghost var rs := Results(events);
    var invalid: seq<Flagged> := [];
    var i := 0;
    while i < |events|
      invariant 0 <= i <= |events|
      invariant Collect(rs[..i]) == Ok(invalid)
    {
      var event := events[i];
      if !event.Obj? {
        CollectFails(rs, i, invalid);
        return Err(AttributeError);
      }
      var t := Lookup(event, "event_type", Str(""));
      if IsInvalidType(t) {
        var newType := NewType(t);
        if newType.Err? {
          CollectFails(rs, i, invalid);
          return Err(newType.error);
        }
        var record := Flagged(Lookup(event, "id", Null), Lookup(event, "title", Str("Untitled")), t, newType.value);
        assert rs[i] == Ok(Some(record));
        CollectStep(rs, i, invalid);
        invalid := invalid + [record];
      } else {
        assert rs[i] == Ok(None);
        CollectStep(rs, i, invalid);
        assert invalid + Listed(None) == invalid;
      }
      i := i + 1;
    }
    assert rs[..i] == rs;
    return Ok(invalid);
  }

  /** The loop state after one more turn that does not raise. */
  lemma CollectStep(rs: seq<Result<Option<Flagged>, PyExc>>, i: int, prev: seq<Flagged>)
    requires 0 <= i < |rs|
    requires Collect(rs[..i]) == Ok(prev)
    requires rs[i].Ok?
    ensures Collect(rs[..i + 1]) == Ok(prev + Listed(rs[i].value))
  {
    assert rs[..i + 1][..i] == rs[..i];
  }

  /** The loop raises what the first turn that raises raises. */
  lemma CollectFails(rs: seq<Result<Option<Flagged>, PyExc>>, i: int, prev: seq<Flagged>)
    requires 0 <= i < |rs|
    requires Collect(rs[..i]) == Ok(prev)
    requires rs[i].Err?
    ensures Collect(rs) == Err(rs[i].error)
  {
    CollectFailsHere(rs, i, prev);
    CollectStops(rs, i + 1);
  }

  lemma CollectFailsHere(rs: seq<Result<Option<Flagged>, PyExc>>, i: int, prev: seq<Flagged>)
    requires 0 <= i < |rs|
    requires Collect(rs[..i]) == Ok(prev)
    requires rs[i].Err?
    ensures Collect(rs[..i + 1]) == Err(rs[i].error)
  {
    assert rs[..i + 1][..i] == rs[..i];
  }

  /** Once a turn raises, so does the whole loop. */
  lemma {:induction false} CollectStops(rs: seq<Result<Option<Flagged>, PyExc>>, i: int)
    requires 0 < i <= |rs|
    requires Collect(rs[..i]).Err?
    ensures Collect(rs) == Collect(rs[..i])
  {
    if i < |rs| {
      var init := rs[..|rs| - 1];
      assert init[..i] == rs[..i];
      CollectStops(init, i);
    } else {
      assert rs[..i] == rs;
    }
  }

  // ---------------------------------------------------------------------------
  // The per-type tally

  /** `type_counts.get(key, 0)` */
  function CountOf(counts: OrderedMap.Dict<Value, nat>, key: Value): nat {
    if counts == [] then 0
    else if counts[0].0 == key then counts[0].1
    else CountOf(counts[1..], key)
  }

  /** The sum of the counts. */
  function Total(counts: OrderedMap.Dict<Value, nat>): nat {
    if counts == [] then 0 else counts[0].1 + Total(counts[1..])
  }

  /** `type_counts[key] = type_counts.get(key, 0) + 1`: the count of an
      existing key goes up in place, a new key is appended with count 1. */
  function Bump(counts: OrderedMap.Dict<Value, nat>, key: Value): OrderedMap.Dict<Value, nat> {
    if counts == [] then [(key, 1)]
    else if counts[0].0 == key then [(key, counts[0].1 + 1)] + counts[1..]
    else [counts[0]] + Bump(counts[1..], key)
  }

  /** The dict key of each record's current type. */
  function Keys(flagged: seq<Flagged>): seq<Value>
    requires forall k :: 0 <= k < |flagged| ==> Hashable(flagged[k].current)
  {
    seq(|flagged|, k requires 0 <= k < |flagged| && Hashable(flagged[k].current) => KeyOf(flagged[k].current))
  }

  /** `type_counts` after the second loop of `main`. */
  function Tally(flagged: seq<Flagged>): OrderedMap.Dict<Value, nat>
    requires forall k :: 0 <= k < |flagged| ==> Hashable(flagged[k].current)
  {
    if flagged == [] then []
    else
      var counts := Tally(flagged[..|flagged| - 1]);
      var key := KeyOf(flagged[|flagged| - 1].current);
      Bump(counts, key)
  }

  /** Bumping one key adds one to its count and leaves the others alone. */
  lemma {:induction false} CountOfBump(counts: OrderedMap.Dict<Value, nat>, key: Value, k: Value)
    ensures CountOf(Bump(counts, key), k) == CountOf(counts, k) + if k == key then 1 else 0
  {
    if counts != [] && counts[0].0 != key {
      CountOfBump(counts[1..], key, k);
    }
  }

  /** Bumping one key adds one to the total. */
  lemma {:induction false} TotalBump(counts: OrderedMap.Dict<Value, nat>, key: Value)
    ensures Total(Bump(counts, key)) == Total(counts) + 1
  {
    if counts != [] && counts[0].0 != key {
      TotalBump(counts[1..], key);
    }
  }

  /** The counts add up to the number of flagged events. */
  lemma {:induction false} TallyTotal(flagged: seq<Flagged>)
    requires forall k :: 0 <= k < |flagged| ==> Hashable(flagged[k].current)
    ensures Total(Tally(flagged)) == |flagged|
  {
    if flagged != [] {
      var init := flagged[..|flagged| - 1];
      TallyTotal(init);
      TotalBump(Tally(init), KeyOf(flagged[|flagged| - 1].current));
    }
  }

  /** Each type's count is the number of flagged events of that type
      (`True` and `1` being one key). */
  lemma {:induction false} TallyCounts(flagged: seq<Flagged>, k: Value)
    requires forall j :: 0 <= j < |flagged| ==> Hashable(flagged[j].current)
    ensures CountOf(Tally(flagged), k) == multiset(Keys(flagged))[k]
  {
    if flagged != [] {
      var init := flagged[..|flagged| - 1];
      var key := KeyOf(flagged[|flagged| - 1].current);
      TallyCounts(init, k);
      CountOfBump(Tally(init), key, k);
      assert Keys(flagged) == Keys(init) + [key];
    }
  }

  /** The second loop of `main`. */
  method CountTypes(flagged: seq<Flagged>) returns (counts: OrderedMap.Dict<Value, nat>)
    requires forall k :: 0 <= k < |flagged| ==> Hashable(flagged[k].current)
    ensures counts == Tally(flagged)
  {
    counts := [];
    for i := 0 to |flagged|
      invariant counts == Tally(flagged[..i])
    {
      assert flagged[..i + 1][..i] == flagged[..i];
      var key := KeyOf(flagged[i].current);
      counts := Bump(counts, key);
    }
    assert flagged[..|flagged|] == flagged;
  }

  // ---------------------------------------------------------------------------
  // The updates

  /** `event["title"][:50]`: only strings and lists can be sliced. */
  function Title50(title: Value): (r: Result<Value, PyExc>)
    ensures r.Ok? <==> title.Str? || title.Arr?
  {
    match title
    case Str(s) => Ok(Str(if |s| <= 50 then s else s[..50]))
    case Arr(items) => Ok(Arr(if |items| <= 50 then items else items[..50]))
    case _ => Err(TypeError)
  }

  /** `update_event_type`: whether the PUT of the new type succeeded. */
  type Updater = (Value, string) -> bool

  /** `(success_count, failed_count)` after the update loop. */
  function Updates(flagged: seq<Flagged>, update: Updater): (r: Result<(nat, nat), PyExc>)
  {
    if flagged == [] then Ok((0, 0))
    else
      var counts :- Updates(flagged[..|flagged| - 1], update);
      var last := flagged[|flagged| - 1];
      var _ :- Title50(last.title);
      Ok(if update(last.id, last.newType) then (counts.0 + 1, counts.1) else (counts.0, counts.1 + 1))
  }

  /** Every flagged event is counted once, as a success or a failure, and
      nothing failed exactly when every update succeeded. */
  lemma {:induction false} UpdatesCount(flagged: seq<Flagged>, update: Updater)
    requires Updates(flagged, update).Ok?
    ensures Updates(flagged, update).value.0 + Updates(flagged, update).value.1 == |flagged|
    ensures Updates(flagged, update).value.1 == 0 <==>
            forall k :: 0 <= k < |flagged| ==> update(flagged[k].id, flagged[k].newType)
  {
    if flagged != [] {
      var init := flagged[..|flagged| - 1];
      UpdatesCount(init, update);
      OrderedMap.AllInit(flagged, init, (e: Flagged) => update(e.id, e.newType));
    }
  }

  /** The updates run to the end exactly when every title can be sliced. */
  lemma {:induction false} UpdatesOk(flagged: seq<Flagged>, update: Updater)
    ensures Updates(flagged, update).Ok? <==> forall k :: 0 <= k < |flagged| ==> Title50(flagged[k].title).Ok?
  {
    if flagged != [] {
      var init := flagged[..|flagged| - 1];
      UpdatesOk(init, update);
      OrderedMap.AllInit(flagged, init, (e: Flagged) => Title50(e.title).Ok?);
    }
  }

  /** The update loop of `main`. */
  method ApplyUpdates(flagged: seq<Flagged>, update: Updater) returns (r: Result<(nat, nat), PyExc>)
    ensures r == Updates(flagged, update)
  {
    var successCount, failedCount := 0, 0;
    var i := 0;
    while i < |flagged|
      invariant 0 <= i <= |flagged|
      invariant Updates(flagged[..i], update) == Ok((successCount, failedCount))
    {
      assert flagged[..i + 1][..i] == flagged[..i];
      var title := Title50(flagged[i].title);
      if title.Err? {
        UpdatesStop(flagged, update, i + 1);
        return Err(title.error);
      }
      if update(flagged[i].id, flagged[i].newType) {
        successCount := successCount + 1;
      } else {
        failedCount := failedCount + 1;
      }
      i := i + 1;
    }
    assert flagged[..i] == flagged;
    return Ok((successCount, failedCount));
  }

  /** Once a title raises, so does the whole loop. */
  lemma {:induction false} UpdatesStop(flagged: seq<Flagged>, update: Updater, i: int)
    requires 0 < i <= |flagged|
    requires Updates(flagged[..i], update).Err?
    ensures Updates(flagged, update) == Updates(flagged[..i], update)
  {
    if i < |flagged| {
      var init := flagged[..|flagged| - 1];
      assert init[..i] == flagged[..i];
      UpdatesStop(init, update, i);
    } else {
      assert flagged[..i] == flagged;
    }
  }

  // ---------------------------------------------------------------------------
  // `main`

  /** How `main` ends: an exit code, or an exception it does not catch. */
  datatype Outcome = Exit(code: int) | Crash(exc: PyExc)

  /** The confirmation: `--yes`, or an answer of "yes" or "y" after
      `.strip().lower()`. */
  predicate Confirmed(autoYes: bool, answer: string) {
    autoYes || Text.Lower(Text.Strip(answer)) in ["yes", "y"]
  }

  /** The events `get_all_events` returns from the decoded response body
      (`None` when the request failed), or the exception of `data.get` and
      of the `len` in the report line. */
  function Events(fetched: Value): Result<seq<Value>, PyExc> {
    if !fetched.Obj? then Err(AttributeError)
    else
      var events := Lookup(fetched, "events", Arr([]));
      if Len(events).None? then Err(TypeError) else Ok(Iterate(events).value)
  }

  /** `main`: `fetched` is the decoded body of the GET, `None` when the
      request failed (which exits with 1). */
  function Main(fetched: Option<Value>, autoYes: bool, answer: string, update: Updater): Outcome {
    match fetched
    case None => Exit(1)
    case Some(data) =>
      match Events(data)
      case Err(e) => Crash(e)
      case Ok(events) =>
        match FlagAll(events)
        case Err(e) => Crash(e)
        case Ok(flagged) =>
          if flagged == [] then Exit(0)
          else if !Confirmed(autoYes, answer) then Exit(1)
          else
            match Updates(flagged, update)
            case Err(e) => Crash(e)
            case Ok(counts) => Exit(if counts.1 == 0 then 0 else 1)
  }

  /** The exit code: 0 when nothing is flagged; 1 when the updates are not
      confirmed; otherwise 0 exactly when every update succeeded. */
  lemma ExitCode(data: Value, autoYes: bool, answer: string, update: Updater)
    requires Events(data).Ok? && FlagAll(Events(data).value).Ok?
    ensures var flagged := FlagAll(Events(data).value).value;
            && (flagged == [] ==> Main(Some(data), autoYes, answer, update) == Exit(0))
            && (flagged != [] && !Confirmed(autoYes, answer) ==> Main(Some(data), autoYes, answer, update) == Exit(1))
            && (flagged != [] && Confirmed(autoYes, answer) && Updates(flagged, update).Ok? ==>
                  (Main(Some(data), autoYes, answer, update) == Exit(0) <==>
                   forall k :: 0 <= k < |flagged| ==> update(flagged[k].id, flagged[k].newType)))
  {
    var flagged := FlagAll(Events(data).value).value;
    if flagged != [] && Confirmed(autoYes, answer) && Updates(flagged, update).Ok? {
      UpdatesCount(flagged, update);
    }
  }

  /** `main`, step by step. */
  method Run(fetched: Option<Value>, autoYes: bool, answer: string, update: Updater)
    returns (outcome: Outcome, counts: OrderedMap.Dict<Value, nat>)
    ensures outcome == Main(fetched, autoYes, answer, update)
    ensures fetched.Some? && Events(fetched.value).Ok? && FlagAll(Events(fetched.value).value).Ok? ==>
              counts == Tally(FlagAll(Events(fetched.value).value).value)
  {
    counts := [];
    if fetched.None? {
      return Exit(1), counts;
    }
    var events := Events(fetched.value);
    if events.Err? {
      return Crash(events.error), counts;
    }
    var invalid := FindInvalid(events.value);
    if invalid.Err? {
      return Crash(invalid.error), counts;
    }
    var flagged := invalid.value;
    if flagged == [] {
      return Exit(0), counts;
    }
    counts := CountTypes(flagged);
    if !Confirmed(autoYes, answer) {
      return Exit(1), counts;
    }
    var updated := ApplyUpdates(flagged, update);
    if updated.Err? {
      return Crash(updated.error), counts;
    }
    outcome := Exit(if updated.value.1 == 0 then 0 else 1);
  }
}
