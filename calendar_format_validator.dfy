/** `tools/calendar_format_validator.py`: the check of an uploaded calendar
    against the calendar JSON upload format. A `Validator` collects error
    and warning lines in two lists; the pure functions below say which lines
    each check adds. Reading and decoding a file (`validate_json_file`) is
    not part of this model. */
module CalendarFormatValidator {
  import opened Wrappers
  import opened JsonValue
  import Text
  import Dates
  import OrderedMap

  const ValidEmailTypes: set<string> := {
    "email", "promotional", "content", "engagement", "seasonal", "special",
    "educational", "product_launch", "win_back", "nurture"}
  const ValidSmsTypes: set<string> := {
    "sms", "sms-promotional", "sms-content", "sms-engagement", "sms-seasonal", "sms-special"}
  const ValidPushTypes: set<string> := {"push", "push-promotional", "push-reminder"}
  const ValidTypes: set<string> := ValidEmailTypes + ValidSmsTypes + ValidPushTypes

  /** `', '.join(sorted(VALID_TYPES))` */
  const SortedValidTypes :=
    "content, educational, email, engagement, nurture, product_launch, promotional, push, "
    + "push-promotional, push-reminder, seasonal, sms, sms-content, sms-engagement, "
    + "sms-promotional, sms-seasonal, sms-special, special, win_back"

  const MaxTitleLength := 100
  const MaxDescriptionLength := 2000
  const MaxCampaignsPerFile := 1000
  const MinYear := 2020
  const MaxYear := 2030

  /** `TITLE_ALTERNATIVES` is a set: the order in which a validator visits it
      is fixed for the process but not by the program, so it is a parameter. */
  predicate IsTitleOrder(order: seq<string>) {
    |order| == 3 && multiset(order) == multiset{"title", "name", "subject_line_a"}
  }

  /** The optional text fields whose values should be strings. */
  const TextFields: seq<string> := [
    "subject_line_a", "subject_line_b", "preview_text", "hero_h1", "sub_head", "hero_image",
    "cta_copy", "offer", "ab_test_idea", "secondary_message", "sms_variant"]

  /** One line of a report. The validator appends the rendered message
      (`Message`); the model keeps the issue, from which the line is fixed. */
  datatype Issue =
    | NotAnArray(key: string)
    | UnrecognizedFormat
    | InvalidRootType
    | TooManyCampaigns(count: nat)
    | NotADict(at: nat)
    | MissingDate(at: nat)
    | DateNotString(at: nat)
    | BadDate(at: nat, text: string)
    | YearOutOfRange(at: nat, year: int)
    | MissingTitle(at: nat)
    | TitleNotString(at: nat, field: string)
    | EmptyTitle(at: nat, field: string)
    | TitleTooLong(at: nat, field: string, length: nat)
    | MissingType(at: nat)
    | TypeNotString(at: nat)
    | UnknownType(at: nat, text: string)
    | DescriptionNotString(at: nat)
    | DescriptionTooLong(at: nat, length: nat)
    | WeekNotInteger(at: nat)
    | WeekOutOfRange(at: nat, shown: string)
    | SendTimeNotString(at: nat)
    | BadSendTime(at: nat, text: string)
    | TextNotString(at: nat, field: string)

  function Prefix(index: nat): string {
    "Event #" + Text.NatToString(index)
  }

  /** The line the validator appends for an issue. */
  function Message(issue: Issue): string {
    match issue
    case NotAnArray(key) => "'" + key + "' property must be an array"
    case UnrecognizedFormat => "Unrecognized JSON format. Must be array or object with 'events' or 'calendar' property"
    case InvalidRootType => "Invalid JSON root type. Must be array or object"
    case TooManyCampaigns(n) => "Number of campaigns (" + Text.NatToString(n) + ") exceeds maximum 1000"
    case NotADict(i) => Prefix(i) + ": Must be an object/dictionary"
    case MissingDate(i) => Prefix(i) + ": Missing required 'date' field"
    case DateNotString(i) => Prefix(i) + ": 'date' must be a string"
    case BadDate(i, s) => Prefix(i) + ": Invalid date format '" + s + "'. Must be YYYY-MM-DD"
    case YearOutOfRange(i, y) => Prefix(i) + ": Year " + Text.IntToString(y) + " outside valid range 2020-2030"
    case MissingTitle(i) => Prefix(i) + ": Missing required 'title' field (or alternative: 'name', 'subject_line_a')"
    case TitleNotString(i, f) => Prefix(i) + ": '" + f + "' must be a string"
    case EmptyTitle(i, f) => Prefix(i) + ": '" + f + "' cannot be empty"
    case TitleTooLong(i, f, n) =>
      Prefix(i) + ": '" + f + "' exceeds maximum length 100 characters (current: " + Text.NatToString(n) + ")"
    case MissingType(i) => Prefix(i) + ": Missing required 'type' field"
    case TypeNotString(i) => Prefix(i) + ": 'type' must be a string"
    case UnknownType(i, t) => Prefix(i) + ": Unknown campaign type '" + t + "'. Valid types: " + SortedValidTypes
    case DescriptionNotString(i) => Prefix(i) + ": 'description' should be a string"
    case DescriptionTooLong(i, n) =>
      Prefix(i) + ": 'description' exceeds recommended length 2000 characters (current: " + Text.NatToString(n) + ")"
    case WeekNotInteger(i) => Prefix(i) + ": 'week_number' should be an integer"
    case WeekOutOfRange(i, shown) => Prefix(i) + ": 'week_number' " + shown + " outside typical range 1-53"
    case SendTimeNotString(i) => Prefix(i) + ": 'send_time' should be a string"
    case BadSendTime(i, s) => Prefix(i) + ": Invalid 'send_time' format '" + s + "'. Should be HH:MM (24-hour format)"
    case TextNotString(i, f) => Prefix(i) + ": '" + f + "' should be a string"
  }

  /** The lines of a list of issues. */
  function Messages(issues: seq<Issue>): (r: seq<string>)
    ensures |r| == |issues|
  {
    seq(|issues|, k requires 0 <= k < |issues| => Message(issues[k]))
  }

  /** The event an issue is about, if it is about one. */
  function EventOf(issue: Issue): Option<nat> {
    if issue.NotAnArray? || issue.UnrecognizedFormat? || issue.InvalidRootType? || issue.TooManyCampaigns? then None
    else Some(issue.at)
  }

  // ---------------------------------------------------------------------------
  // What each check adds

  /** `_extract_events`: the events list, or `None` with the error it adds. */
  function ExtractEvents(data: Value): (r: (Option<seq<Value>>, seq<Issue>))
    ensures r.0.Some? <==> r.1 == []
    ensures |r.1| <= 1
  {
    if data.Arr? then (Some(data.items), [])
    else if !data.Obj? then (None, [InvalidRootType])
    else if Has(data, "events") then
      var v := Lookup(data, "events", Null);
      if v.Arr? then (Some(v.items), []) else (None, [NotAnArray("events")])
    else if Has(data, "calendar") then
      var v := Lookup(data, "calendar", Null);
      if v.Arr? then (Some(v.items), []) else (None, [NotAnArray("calendar")])
    else (None, [UnrecognizedFormat])
  }

  /** `event.get("date") or event.get("send_date")` */
  function DateValue(event: Value): Value
    requires event.Obj?
  {
    var d := Lookup(event, "date", Null);
    if Truthy(d) then d else Lookup(event, "send_date", Null)
  }

  /** `_validate_date` */
  function DateErrors(event: Value, at: nat): (r: seq<Issue>)
    requires event.Obj?
    ensures |r| <= 1
    ensures forall e :: e in r ==> EventOf(e) == Some(at)
  {
    if !Has(event, "date") && !Has(event, "send_date") then [MissingDate(at)]
    else
      var v := DateValue(event);
      if !v.Str? then [DateNotString(at)]
      else
        var d := Dates.ParseDate(v.s);
        if d.None? then [BadDate(at, v.s)]
        else if MinYear <= d.value.year <= MaxYear then []
        else [YearOutOfRange(at, d.value.year)]
  }

  /** The first title alternative, in the validator's order, that is a key. */
  function TitleField(event: Value, order: seq<string>): (r: Option<string>)
    requires event.Obj?
    ensures r.Some? ==> r.value in order && Has(event, r.value)
    ensures r.None? <==> forall f :: f in order ==> !Has(event, f)
  {
    if order == [] then None
    else if Has(event, order[0]) then Some(order[0])
    else TitleField(event, order[1..])
  }

  /** `_validate_title` */
  function TitleErrors(event: Value, at: nat, order: seq<string>): (r: seq<Issue>)
    requires event.Obj?
    ensures |r| <= 1
    ensures forall e :: e in r ==> EventOf(e) == Some(at)
  {
    var field := TitleField(event, order);
    if field.None? then [MissingTitle(at)]
    else
      var v := Lookup(event, field.value, Null);
      if !v.Str? then [TitleNotString(at, field.value)]
      else if Text.Strip(v.s) == [] then [EmptyTitle(at, field.value)]
      else if |v.s| > MaxTitleLength then [TitleTooLong(at, field.value, |v.s|)]
      else []
  }

  /** `_validate_type` */
  function TypeErrors(event: Value, at: nat): (r: seq<Issue>)
    requires event.Obj?
    ensures |r| <= 1
    ensures forall e :: e in r ==> EventOf(e) == Some(at)
  {
    if !Has(event, "type") then [MissingType(at)]
    else
      var v := Lookup(event, "type", Null);
      if !v.Str? then [TypeNotString(at)]
      else if v.s in ValidTypes then []
      else [UnknownType(at, v.s)]
  }

  /** `_validate_description`: a description passes exactly when it is a
      string of at most 2000 characters; a non-string is reported as such and
      a longer string with its length. */
  function DescriptionWarnings(description: Value, at: nat): (r: seq<Issue>)
    ensures |r| <= 1
    ensures forall e :: e in r ==> EventOf(e) == Some(at)
    ensures r == [] <==> description.Str? && |description.s| <= MaxDescriptionLength
    ensures !description.Str? ==> r == [DescriptionNotString(at)]
    ensures description.Str? && r != [] ==> r == [DescriptionTooLong(at, |description.s|)]
  {
    if !description.Str? then [DescriptionNotString(at)]
    else if |description.s| > MaxDescriptionLength then [DescriptionTooLong(at, |description.s|)]
    else []
  }

  /** `_validate_week_number`: a week number passes exactly when it is an
      integer from 1 to 53; a `bool` is an `int` to `isinstance`. */
  function WeekNumberWarnings(weekNumber: Value, at: nat): (r: seq<Issue>)
    ensures |r| <= 1
    ensures forall e :: e in r ==> EventOf(e) == Some(at)
    ensures r == [] <==> IsPyInt(weekNumber) && 1 <= AsInt(weekNumber) <= 53
    ensures !IsPyInt(weekNumber) ==> r == [WeekNotInteger(at)]
    ensures IsPyInt(weekNumber) && r != [] ==> r == [WeekOutOfRange(at, PyStr(weekNumber))]
  {
    if !IsPyInt(weekNumber) then [WeekNotInteger(at)]
    else if 1 <= AsInt(weekNumber) <= 53 then []
    else [WeekOutOfRange(at, PyStr(weekNumber))]
  }

  /** `_validate_send_time`: a send time passes exactly when it is a string
      `strptime` reads as `%H:%M`. */
  function SendTimeWarnings(sendTime: Value, at: nat): (r: seq<Issue>)
    ensures |r| <= 1
    ensures forall e :: e in r ==> EventOf(e) == Some(at)
    ensures r == [] <==> sendTime.Str? && Dates.ParseTime24(sendTime.s).Some?
    ensures !sendTime.Str? ==> r == [SendTimeNotString(at)]
    ensures sendTime.Str? && r != [] ==> r == [BadSendTime(at, sendTime.s)]
  {
    if !sendTime.Str? then [SendTimeNotString(at)]
    else if Dates.ParseTime24(sendTime.s).Some? then []
    else [BadSendTime(at, sendTime.s)]
  }

  /** Every valid clock time written as `%H:%M` passes the send-time
      check. */
  lemma FormattedSendTimePasses(t: Dates.Time, at: nat)
    requires Dates.ValidTime(t)
    ensures SendTimeWarnings(Str(Dates.FormatTime(t)), at) == []
  {
    Dates.ParseFormatTime(t);
  }

  /** Whether the loop over the text fields warns about a field: a present,
      truthy, non-string value. */
  predicate WarnsAbout(event: Value, field: string)
    requires event.Obj?
  {
    Has(event, field) && Truthy(Lookup(event, field, Null)) && !Lookup(event, field, Null).Str?
  }

  /** The loop over the text fields. */
  function TextWarnings(event: Value, at: nat, fields: seq<string>): (r: seq<Issue>)
    requires event.Obj?
    ensures |r| <= |fields|
    ensures forall w :: w in r ==> w.TextNotString? && w.at == at && w.field in fields
  {
    if fields == [] then []
    else
      var field := fields[|fields| - 1];
      TextWarnings(event, at, fields[..|fields| - 1])
        + if WarnsAbout(event, field) then [TextNotString(at, field)] else []
  }

  /** The warnings of the optional-field checks of one dict event. */
  function OptionalWarnings(event: Value, at: nat): (r: seq<Issue>)
    requires event.Obj?
    ensures |r| <= 3
    ensures forall e :: e in r ==> EventOf(e) == Some(at)
  {
    (if Has(event, "description") then DescriptionWarnings(Lookup(event, "description", Null), at) else [])
    + (if Has(event, "week_number") then WeekNumberWarnings(Lookup(event, "week_number", Null), at) else [])
    + (if Has(event, "send_time") then SendTimeWarnings(Lookup(event, "send_time", Null), at) else [])
  }

  /** `_validate_event`: the errors it adds. */
  function EventErrors(event: Value, at: nat, order: seq<string>): (r: seq<Issue>)
    ensures |r| <= 3
    ensures forall e :: e in r ==> EventOf(e) == Some(at)
  {
    if !event.Obj? then [NotADict(at)]
    else DateErrors(event, at) + TitleErrors(event, at, order) + TypeErrors(event, at)
  }

  /** `_validate_event`: the warnings it adds. */
  function EventWarnings(event: Value, at: nat): (r: seq<Issue>)
    ensures forall e :: e in r ==> EventOf(e) == Some(at)
  {
    if !event.Obj? then []
    else OptionalWarnings(event, at) + TextWarnings(event, at, TextFields)
  }

  /** The concatenation of a list of lists. */
  function Flatten<T>(parts: seq<seq<T>>): seq<T> {
    if parts == [] then [] else Flatten(parts[..|parts| - 1]) + parts[|parts| - 1]
  }

  /** The errors of each event, numbered from 1. */
  function ErrorsByEvent(events: seq<Value>, order: seq<string>): seq<seq<Issue>> {
    seq(|events|, i requires 0 <= i < |events| => EventErrors(events[i], i + 1, order))
  }

  /** The warnings of each event, numbered from 1. */
  function WarningsByEvent(events: seq<Value>): seq<seq<Issue>> {
    seq(|events|, i requires 0 <= i < |events| => EventWarnings(events[i], i + 1))
  }

  /** The errors of the loop over the events. */
  function AllErrors(events: seq<Value>, order: seq<string>): seq<Issue> {
    Flatten(ErrorsByEvent(events, order))
  }

  /** The warnings of the loop over the events. */
  function AllWarnings(events: seq<Value>): seq<Issue> {
    Flatten(WarningsByEvent(events))
  }

  lemma FlattenSnoc<T>(parts: seq<seq<T>>, i: nat)
    requires i < |parts|
    ensures Flatten(parts[..i + 1]) == Flatten(parts[..i]) + parts[i]
  {
    assert parts[..i + 1][..i] == parts[..i];
  }

  /** A concatenation is empty exactly when every part is. */
  lemma {:induction false} FlattenEmpty<T>(parts: seq<seq<T>>)
    ensures Flatten(parts) == [] <==> forall i :: 0 <= i < |parts| ==> parts[i] == []
  {
    if parts != [] {
      var init := parts[..|parts| - 1];
      FlattenEmpty(init);
      assert forall i :: 0 <= i < |init| ==> init[i] == parts[i];
    }
  }

  /** The outcome of a validation: validity, errors and warnings. */
  datatype Report = Report(valid: bool, errors: seq<Issue>, warnings: seq<Issue>)

  /** `validate_json_data` */
  function ValidateData(data: Value, order: seq<string>): Report {
    var (events, errors) := ExtractEvents(data);
    if events.None? || events.value == [] then Report(false, errors, [])
    else if |events.value| > MaxCampaignsPerFile then Report(false, [TooManyCampaigns(|events.value|)], [])
    else
      var errors := AllErrors(events.value, order);
      Report(errors == [], errors, AllWarnings(events.value))
  }

  // ---------------------------------------------------------------------------
  // Properties

  /** A valid report has no errors; a report without errors is valid unless
      there were no events to check, which is invalid without any message. */
  lemma ValidIffNoErrors(data: Value, order: seq<string>)
    ensures ValidateData(data, order).valid ==> ValidateData(data, order).errors == []
    ensures ValidateData(data, order).errors == [] && !ValidateData(data, order).valid <==>
            ExtractEvents(data).0 == Some([])
  {
  }

  /** Validity depends on the error checks only: warnings never decide it. */
  lemma ValidityFromErrors(data: Value, order: seq<string>)
    ensures ValidateData(data, order).valid <==>
            var events := ExtractEvents(data).0;
            && events.Some? && 0 < |events.value| <= MaxCampaignsPerFile
            && forall i :: 0 <= i < |events.value| ==> ErrorsByEvent(events.value, order)[i] == []
  {
    var events := ExtractEvents(data).0;
    if events.Some? {
      AllErrorsEmpty(events.value, order);
    }
  }

  lemma AllErrorsEmpty(events: seq<Value>, order: seq<string>)
    ensures AllErrors(events, order) == [] <==>
            forall i :: 0 <= i < |events| ==> ErrorsByEvent(events, order)[i] == []
  {
    FlattenEmpty(ErrorsByEvent(events, order));
  }

  /** The loop over the text fields warns about a field exactly when the
      field is present, truthy and not a string. */
  lemma {:induction false} TextWarningsExact(event: Value, at: nat, fields: seq<string>)
    requires event.Obj?
    ensures forall f :: f in fields ==> (TextNotString(at, f) in TextWarnings(event, at, fields) <==> WarnsAbout(event, f))
  {
    if fields != [] {
      var init := fields[..|fields| - 1];
      TextWarningsExact(event, at, init);
      assert forall f :: f in fields ==> f in init || f == fields[|fields| - 1];
    }
  }

  /** `_extract_events`: a list is the events; a dict's `events` key is
      consulted before its `calendar` key and must hold a list; anything
      else adds one error and yields no events. */
  lemma ExtractShapes(data: Value)
    ensures data.Arr? ==> ExtractEvents(data) == (Some(data.items), [])
    ensures data.Obj? && Has(data, "events") ==>
              (ExtractEvents(data).0.Some? <==> Lookup(data, "events", Null).Arr?)
              && (Lookup(data, "events", Null).Arr? ==> ExtractEvents(data).0 == Some(Lookup(data, "events", Null).items))
    ensures data.Obj? && !Has(data, "events") && Has(data, "calendar") ==>
              (ExtractEvents(data).0.Some? <==> Lookup(data, "calendar", Null).Arr?)
              && (Lookup(data, "calendar", Null).Arr? ==> ExtractEvents(data).0 == Some(Lookup(data, "calendar", Null).items))
    ensures data.Obj? && !Has(data, "events") && !Has(data, "calendar") ==> ExtractEvents(data) == (None, [UnrecognizedFormat])
    ensures !data.Arr? && !data.Obj? ==> ExtractEvents(data) == (None, [InvalidRootType])
  {
  }

  /** An empty list is invalid and reported with no message at all. */
  lemma EmptyIsInvalid(order: seq<string>)
    ensures ValidateData(Arr([]), order) == Report(false, [], [])
    ensures ValidateData(Obj([("events", Arr([]))]), order) == Report(false, [], [])
  {
    assert Has(Obj([("events", Arr([]))]), "events");
  }

  /** Over a thousand events: one count error and no per-event checks. */
  lemma TooManyEvents(data: Value, order: seq<string>)
    requires ExtractEvents(data).0.Some? && |ExtractEvents(data).0.value| > MaxCampaignsPerFile
    ensures ValidateData(data, order) == Report(false, [TooManyCampaigns(|ExtractEvents(data).0.value|)], [])
  {
  }

  /** A non-dict event contributes exactly one error and nothing else. */
  lemma NonDictEvent(event: Value, at: nat, order: seq<string>)
    requires !event.Obj?
    ensures EventErrors(event, at, order) == [NotADict(at)] && EventWarnings(event, at) == []
  {
  }

  /** The date is `date`, or `send_date` when `date` is falsy; it passes
      exactly when it is a string `strptime` reads as `%Y-%m-%d` with a year
      from 2020 to 2030, and it adds at most one error. */
  lemma DateRule(event: Value, at: nat)
    requires event.Obj?
    ensures DateErrors(event, at) == [] <==>
            && (Has(event, "date") || Has(event, "send_date"))
            && DateValue(event).Str?
            && Dates.ParseDate(DateValue(event).s).Some?
            && MinYear <= Dates.ParseDate(DateValue(event).s).value.year <= MaxYear
    ensures |DateErrors(event, at)| <= 1
  {
  }

  /** The type passes exactly when it is a string of one of the three
      channels' type sets, and adds at most one error. */
  lemma TypeRule(event: Value, at: nat)
    requires event.Obj?
    ensures TypeErrors(event, at) == [] <==>
            Has(event, "type") && Lookup(event, "type", Null).Str? && Lookup(event, "type", Null).s in ValidTypes
    ensures |TypeErrors(event, at)| <= 1
  {
  }

  /** The title passes exactly when the first alternative present holds a
      non-blank string of at most 100 characters. */
  lemma TitleRule(event: Value, at: nat, order: seq<string>)
    requires event.Obj?
    ensures TitleErrors(event, at, order) == [] <==>
            var field := TitleField(event, order);
            && field.Some?
            && Lookup(event, field.value, Null).Str?
            && Text.Strip(Lookup(event, field.value, Null).s) != []
            && |Lookup(event, field.value, Null).s| <= MaxTitleLength
    ensures |TitleErrors(event, at, order)| <= 1
  {
  }

  /** With exactly one alternative present, the order of the set does not
      matter; with none, the title is missing whatever the order. */
  lemma {:induction false} TitleOrderIrrelevant(event: Value, order: seq<string>, field: string)
    requires event.Obj? && field in order
    requires forall f :: f in order && f != field ==> !Has(event, f)
    ensures TitleField(event, order) == if Has(event, field) then Some(field) else None
  {
    if order[0] != field {
      TitleOrderIrrelevant(event, order[1..], field);
    }
  }

  // ---------------------------------------------------------------------------
  // The validator

  /** `CalendarFormatValidator`: the two lists hold the issues whose
      messages the validator reports. */
  class Validator {
    var errors: seq<Issue>
    var warnings: seq<Issue>
    const titleOrder: seq<string>

    constructor (titleOrder: seq<string>)
      requires IsTitleOrder(titleOrder)
      ensures errors == [] && warnings == [] && this.titleOrder == titleOrder
    {
      errors := [];
      warnings := [];
      this.titleOrder := titleOrder;
    }

    method AddError(issue: Issue)
      modifies this`errors
      ensures errors == old(errors) + [issue]
    {
      errors := errors + [issue];
    }

    method AddWarning(issue: Issue)
      modifies this`warnings
      ensures warnings == old(warnings) + [issue]
    {
      warnings := warnings + [issue];
    }

    /** `_extract_events` */
    method ExtractEventsOf(data: Value) returns (events: Option<seq<Value>>)
      modifies this`errors
      ensures events == ExtractEvents(data).0
      ensures errors == old(errors) + ExtractEvents(data).1
    {
      if data.Arr? {
        return Some(data.items);
      } else if !data.Obj? {
        AddError(InvalidRootType);
        return None;
      } else if Has(data, "events") {
        var v := Lookup(data, "events", Null);
        if v.Arr? {
          return Some(v.items);
        }
        AddError(NotAnArray("events"));
        return None;
      } else if Has(data, "calendar") {
        var v := Lookup(data, "calendar", Null);
        if v.Arr? {
          return Some(v.items);
        }
        AddError(NotAnArray("calendar"));
        return None;
      }
      AddError(UnrecognizedFormat);
      return None;
    }

    /** `_validate_date` */
    method ValidateDate(event: Value, at: nat)
      requires event.Obj?
      modifies this`errors
      ensures errors == old(errors) + DateErrors(event, at)
    {
      if !Has(event, "date") && !Has(event, "send_date") {
        AddError(MissingDate(at));
        return;
      }
      var dateValue := DateValue(event);
      if !dateValue.Str? {
        AddError(DateNotString(at));
        return;
      }
      var date := Dates.ParseDate(dateValue.s);
      if date.None? {
        AddError(BadDate(at, dateValue.s));
      } else if !(MinYear <= date.value.year <= MaxYear) {
        AddError(YearOutOfRange(at, date.value.year));
      }
    }

    /** `_validate_title`: the loop stops at the first alternative present. */
    method ValidateTitle(event: Value, at: nat)
      requires event.Obj?
      modifies this`errors
      ensures errors == old(errors) + TitleErrors(event, at, titleOrder)
    {
      var titleField: Option<string> := None;
      var i := 0;
      while i < |titleOrder|
        invariant 0 <= i <= |titleOrder|
        invariant TitleField(event, titleOrder) == TitleField(event, titleOrder[i..])
      {
        if Has(event, titleOrder[i]) {
          titleField := Some(titleOrder[i]);
          break;
        }
        assert titleOrder[i..][1..] == titleOrder[i + 1..];
        i := i + 1;
      }
      assert titleField == TitleField(event, titleOrder);
      if titleField.None? {
        AddError(MissingTitle(at));
        return;
      }
      var field := titleField.value;
      var titleValue := Lookup(event, field, Null);
      if !titleValue.Str? {
        AddError(TitleNotString(at, field));
      } else if Text.Strip(titleValue.s) == [] {
        AddError(EmptyTitle(at, field));
      } else if |titleValue.s| > MaxTitleLength {
        AddError(TitleTooLong(at, field, |titleValue.s|));
      }
    }

    /** `_validate_type` */
    method ValidateType(event: Value, at: nat)
      requires event.Obj?
      modifies this`errors
      ensures errors == old(errors) + TypeErrors(event, at)
    {
      if !Has(event, "type") {
        AddError(MissingType(at));
        return;
      }
      var typeValue := Lookup(event, "type", Null);
      if !typeValue.Str? {
        AddError(TypeNotString(at));
      } else if typeValue.s !in ValidTypes {
        AddError(UnknownType(at, typeValue.s));
      }
    }

    /** `_validate_description` */
    method ValidateDescription(description: Value, at: nat)
      modifies this`warnings
      ensures warnings == old(warnings) + DescriptionWarnings(description, at)
    {
      if !description.Str? {
        AddWarning(DescriptionNotString(at));
      } else if |description.s| > MaxDescriptionLength {
        AddWarning(DescriptionTooLong(at, |description.s|));
      }
    }

    /** `_validate_week_number` */
    method ValidateWeekNumber(weekNumber: Value, at: nat)
      modifies this`warnings
      ensures warnings == old(warnings) + WeekNumberWarnings(weekNumber, at)
    {
      if !IsPyInt(weekNumber) {
        AddWarning(WeekNotInteger(at));
      } else if !(1 <= AsInt(weekNumber) <= 53) {
        AddWarning(WeekOutOfRange(at, PyStr(weekNumber)));
      }
    }

    /** `_validate_send_time` */
    method ValidateSendTime(sendTime: Value, at: nat)
      modifies this`warnings
      ensures warnings == old(warnings) + SendTimeWarnings(sendTime, at)
    {
      if !sendTime.Str? {
        AddWarning(SendTimeNotString(at));
      } else if Dates.ParseTime24(sendTime.s).None? {
        AddWarning(BadSendTime(at, sendTime.s));
      }
    }

    /** The optional-field checks of `_validate_event`. */
    method ValidateOptional(event: Value, at: nat)
      requires event.Obj?
      modifies this`warnings
      ensures warnings == old(warnings) + OptionalWarnings(event, at)
    {
      ghost var description := if Has(event, "description") then DescriptionWarnings(Lookup(event, "description", Null), at) else [];
      ghost var week := if Has(event, "week_number") then WeekNumberWarnings(Lookup(event, "week_number", Null), at) else [];
      ghost var sendTime := if Has(event, "send_time") then SendTimeWarnings(Lookup(event, "send_time", Null), at) else [];
      assert OptionalWarnings(event, at) == description + week + sendTime;
      if Has(event, "description") {
        ValidateDescription(Lookup(event, "description", Null), at);
      }
      assert warnings == old(warnings) + description;
      if Has(event, "week_number") {
        ValidateWeekNumber(Lookup(event, "week_number", Null), at);
      }
      OrderedMap.ConcatAssoc(old(warnings), description, week);
      if Has(event, "send_time") {
        ValidateSendTime(Lookup(event, "send_time", Null), at);
      }
      OrderedMap.ConcatAssoc(old(warnings), description + week, sendTime);
    }

    /** The loop over the text fields of `_validate_event`. */
    method ValidateTextFields(event: Value, at: nat)
      requires event.Obj?
      modifies this`warnings
      ensures warnings == old(warnings) + TextWarnings(event, at, TextFields)
    {
      for k := 0 to |TextFields|
        invariant warnings == old(warnings) + TextWarnings(event, at, TextFields[..k])
      {
        var field := TextFields[k];
        assert TextFields[..k + 1][..k] == TextFields[..k];
        if Has(event, field) && Truthy(Lookup(event, field, Null)) && !Lookup(event, field, Null).Str? {
          AddWarning(TextNotString(at, field));
        }
      }
      assert TextFields[..|TextFields|] == TextFields;
    }

    /** The required-field checks of `_validate_event`. */
    method ValidateRequired(event: Value, at: nat)
      requires event.Obj?
      modifies this`errors
      ensures errors == old(errors) + DateErrors(event, at) + TitleErrors(event, at, titleOrder) + TypeErrors(event, at)
    {
      ValidateDate(event, at);
      ValidateTitle(event, at);
      ValidateType(event, at);
    }

    /** `_validate_event` */
    method ValidateEvent(event: Value, at: nat)
      modifies this`errors, this`warnings
      ensures errors == old(errors) + EventErrors(event, at, titleOrder)
      ensures warnings == old(warnings) + EventWarnings(event, at)
    {
      if !event.Obj? {
        AddError(NotADict(at));
        return;
      }
      ValidateRequired(event, at);
      assert errors == old(errors) + EventErrors(event, at, titleOrder);
      ghost var warnings0 := warnings;
      ValidateOptional(event, at);
      ValidateTextFields(event, at);
      OrderedMap.ConcatAssoc(warnings0, OptionalWarnings(event, at), TextWarnings(event, at, TextFields));
    }

    /** The loop of `validate_json_data` over the events, numbered from 1. */
    method ValidateEvents(items: seq<Value>)
      modifies this`errors, this`warnings
      ensures errors == old(errors) + AllErrors(items, titleOrder)
      ensures warnings == old(warnings) + AllWarnings(items)
    {
      for i := 0 to |items|
        invariant errors == old(errors) + Flatten(ErrorsByEvent(items, titleOrder)[..i])
        invariant warnings == old(warnings) + Flatten(WarningsByEvent(items)[..i])
      {
        FlattenSnoc(ErrorsByEvent(items, titleOrder), i);
        FlattenSnoc(WarningsByEvent(items), i);
        ValidateEvent(items[i], i + 1);
        OrderedMap.ConcatAssoc(old(errors), Flatten(ErrorsByEvent(items, titleOrder)[..i]), EventErrors(items[i], i + 1, titleOrder));
        OrderedMap.ConcatAssoc(old(warnings), Flatten(WarningsByEvent(items)[..i]), EventWarnings(items[i], i + 1));
      }
      assert ErrorsByEvent(items, titleOrder)[..|items|] == ErrorsByEvent(items, titleOrder);
      assert WarningsByEvent(items)[..|items|] == WarningsByEvent(items);
    }

    /** `validate_json_data`: the lists are reset first, so the report
        depends on `data` alone; the lists returned are the ones kept. */
    method ValidateJsonData(data: Value) returns (valid: bool, errorLines: seq<string>, warningLines: seq<string>)
      modifies this`errors, this`warnings
      ensures var r := ValidateData(data, titleOrder);
              valid == r.valid && errors == r.errors && warnings == r.warnings
      ensures errorLines == Messages(errors) && warningLines == Messages(warnings)
    {
      errors := [];
      warnings := [];
      var events := ExtractEventsOf(data);
      if events.None? || events.value == [] {
        return false, Messages(errors), Messages(warnings);
      }
      var items := events.value;
      if |items| > MaxCampaignsPerFile {
        AddError(TooManyCampaigns(|items|));
        return false, Messages(errors), Messages(warnings);
      }
      ValidateEvents(items);
      return errors == [], Messages(errors), Messages(warnings);
    }
  }

  /** `validate_calendar_data`: a fresh validator. */
  method ValidateCalendarData(data: Value, titleOrder: seq<string>) returns (valid: bool, errors: seq<string>, warnings: seq<string>)
    requires IsTitleOrder(titleOrder)
    ensures var r := ValidateData(data, titleOrder);
            valid == r.valid && errors == Messages(r.errors) && warnings == Messages(r.warnings)
  {
    var v := new Validator(titleOrder);
    valid, errors, warnings := v.ValidateJsonData(data);
  }
}
