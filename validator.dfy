/** `tools/validator.py`: the v4.0.0 calendar check and the quality checks
    on the planning and brief texts. The calendar check collects problems
    in a local list and reports validity as "no problems"; the text checks
    only collect warnings and always report valid. */
module CalendarValidator {
  import opened Wrappers
  import opened JsonValue
  import Text
  import Dates
  import OrderedMap

  const RequiredCalendarFields: seq<string> :=
    ["version", "client_name", "start_date", "end_date", "campaigns", "metadata"]
  const RequiredCampaignFields: seq<string> :=
    ["campaign_id", "name", "send_date", "channel", "type", "audience"]
  const ValidChannels: seq<string> := ["email", "sms"]
  const ValidCampaignTypes: seq<string> := [
    "promotional", "educational", "seasonal", "product_launch", "product_spotlight",
    "engagement", "win_back", "nurture", "resend", "lifecycle"]
  const ExpectedVersion := "4.0.0"

  /** One line of an error list. `at` is the campaign's 0-based position for
      a campaign problem and `None` for a top-level one. */
  datatype Problem =
    | MissingField(at: Option<nat>, field: string)
    | BadVersion(version: Value)
    | BadDate(at: Option<nat>, field: string, value: Value)
    | CampaignsNotArray
    | BadChannel(at: Option<nat>, value: Value)
    | BadType(at: Option<nat>, value: Value)
    | BadSendTime(at: Option<nat>, value: Value)
    | AudienceNotObject(at: Option<nat>)
    | AudienceWithoutTarget(at: Option<nat>)

  /** The campaign a problem is about, if any. */
  function CampaignOf(p: Problem): Option<nat> {
    if p.BadVersion? || p.CampaignsNotArray? then None else p.at
  }

  function Prefix(at: Option<nat>): string {
    match at
    case None => ""
    case Some(i) => "Campaign [" + Text.NatToString(i) + "] "
  }

  /** The line the validator appends for a problem. */
  function Message(p: Problem): string {
    match p
    case MissingField(at, f) => Prefix(at) + "Missing required field: " + f
    case BadVersion(v) => "Invalid version: " + PyStr(v) + " (expected 4.0.0)"
    case BadDate(at, f, v) => Prefix(at) + "Invalid " + f + " format: " + PyStr(v) + " (expected YYYY-MM-DD)"
    case CampaignsNotArray => "'campaigns' must be an array"
    case BadChannel(at, v) => Prefix(at) + "Invalid channel: " + PyStr(v) + " (must be one of ['email', 'sms'])"
    case BadType(at, v) =>
      Prefix(at) + "Invalid type: " + PyStr(v) + " (must be one of ['promotional', 'educational', 'seasonal', "
      + "'product_launch', 'product_spotlight', 'engagement', 'win_back', 'nurture', 'resend', 'lifecycle'])"
    case BadSendTime(at, v) => Prefix(at) + "Invalid send_time format: " + PyStr(v) + " (expected HH:MM)"
    case AudienceNotObject(at) => Prefix(at) + "'audience' must be an object"
    case AudienceWithoutTarget(at) => Prefix(at) + "'audience' must have either segment or list specification"
  }

  function Messages(ps: seq<Problem>): (r: seq<string>)
    ensures |r| == |ps|
  {
    seq(|ps|, k requires 0 <= k < |ps| => Message(ps[k]))
  }

  // ---------------------------------------------------------------------------
  // The predicates

  /** `_is_valid_date`: `strptime(v, "%Y-%m-%d")` succeeds; a non-string
      makes it raise `TypeError`, which reads as false. */
  predicate IsValidDate(v: Value) {
    v.Str? && Dates.ParseDate(v.s).Some?
  }

  /** `_is_valid_time`: `"%H:%M"`, else `"%I:%M %p"`. */
  predicate IsValidTime(v: Value) {
    v.Str? && (Dates.ParseTime24(v.s).Some? || Dates.ParseTime12(v.s).Some?)
  }

  /** Every time written as `%H:%M` is accepted. */
  lemma FormattedTimeIsValid(t: Dates.Time)
    requires Dates.ValidTime(t)
    ensures IsValidTime(Str(Dates.FormatTime(t)))
  {
    Dates.ParseFormatTime(t);
  }

  /** Every real date written as `%Y-%m-%d` is accepted; a date is never
      accepted when it is not a string. */
  lemma FormattedDateIsValid(d: Dates.Date, v: Value)
    requires Dates.ValidDate(d)
    ensures IsValidDate(Str(Dates.FormatDate(d)))
    ensures !v.Str? ==> !IsValidDate(v)
  {
    Dates.ParseFormatDate(d);
  }

  // ---------------------------------------------------------------------------
  // The problems each check adds

  /** The loop over required fields: one problem per field the dict lacks,
      in the order of the list. */
  function MissingFields(d: Value, at: Option<nat>, fields: seq<string>): (r: seq<Problem>)
    requires d.Obj?
    ensures |r| <= |fields|
  {
    if fields == [] then []
    else
      var f := fields[|fields| - 1];
      MissingFields(d, at, fields[..|fields| - 1]) + if Has(d, f) then [] else [MissingField(at, f)]
  }

  /** Exactly the fields the dict lacks are reported, each as a missing field. */
  lemma {:induction false} MissingFieldsExact(d: Value, at: Option<nat>, fields: seq<string>)
    requires d.Obj?
    ensures forall p :: p in MissingFields(d, at, fields) ==> p.MissingField? && p.at == at && p.field in fields && !Has(d, p.field)
    ensures forall f :: f in fields ==> (MissingField(at, f) in MissingFields(d, at, fields) <==> !Has(d, f))
  {
    if fields != [] {
      var init := fields[..|fields| - 1];
      MissingFieldsExact(d, at, init);
      assert forall f :: f in fields ==> f in init || f == fields[|fields| - 1];
    }
  }

  /** A truthy value outside the allowed strings is a problem. */
  predicate Rejected(v: Value, allowed: seq<string>) {
    Truthy(v) && !(v.Str? && v.s in allowed)
  }

  /** `_validate_campaign` on a dict. */
  function CampaignChecks(c: Value, at: nat): (r: seq<Problem>)
    requires c.Obj?
  {
    MissingFields(c, Some(at), RequiredCampaignFields) + FieldChecks(c, Some(at))
  }

  /** The checks of `_validate_campaign` after the required-field loop. */
  function FieldChecks(c: Value, at: Option<nat>): (r: seq<Problem>)
    requires c.Obj?
    ensures forall p :: p in r ==> !p.MissingField? && CampaignOf(p) == at
  {
    ChannelCheck(c, at) + TypeCheck(c, at) + SendDateCheck(c, at) + SendTimeCheck(c, at)
    + AudienceChecks(Lookup(c, "audience", Null), at)
  }

  /** A truthy channel must be "email" or "sms". */
  function ChannelCheck(c: Value, at: Option<nat>): seq<Problem>
    requires c.Obj?
  {
    var channel := Lookup(c, "channel", Null);
    if Rejected(channel, ValidChannels) then [BadChannel(at, channel)] else []
  }

  /** A truthy type must be one of the campaign types. */
  function TypeCheck(c: Value, at: Option<nat>): seq<Problem>
    requires c.Obj?
  {
    var campaignType := Lookup(c, "type", Null);
    if Rejected(campaignType, ValidCampaignTypes) then [BadType(at, campaignType)] else []
  }

  /** A truthy send date must be a real `YYYY-MM-DD` date. */
  function SendDateCheck(c: Value, at: Option<nat>): seq<Problem>
    requires c.Obj?
  {
    var sendDate := Lookup(c, "send_date", Null);
    if Truthy(sendDate) && !IsValidDate(sendDate) then [BadDate(at, "send_date", sendDate)] else []
  }

  /** A truthy send time must be a 24-hour or 12-hour clock time. */
  function SendTimeCheck(c: Value, at: Option<nat>): seq<Problem>
    requires c.Obj?
  {
    var sendTime := Lookup(c, "send_time", Null);
    if Truthy(sendTime) && !IsValidTime(sendTime) then [BadSendTime(at, sendTime)] else []
  }

  /** The audience must be a dict naming a segment or a list, when truthy. */
  function AudienceChecks(audience: Value, at: Option<nat>): (r: seq<Problem>)
    ensures r == [] <==> !Truthy(audience) ||
                         (audience.Obj? && (Has(audience, "segment_id") || Has(audience, "segment_name")
                                            || Has(audience, "list_id") || Has(audience, "list_name")))
    ensures |r| <= 1
    ensures forall p :: p in r ==> CampaignOf(p) == at && (p.AudienceNotObject? <==> !audience.Obj?)
  {
    if !Truthy(audience) then []
    else if !audience.Obj? then [AudienceNotObject(at)]
    else if Has(audience, "segment_id") || Has(audience, "segment_name")
            || Has(audience, "list_id") || Has(audience, "list_name") then []
    else [AudienceWithoutTarget(at)]
  }

  /** `key in v` followed by `v.get(...)`: only a dict gets through; a list or
      string fails at `.get`, anything else already at `in`. */
  function NotADict(v: Value): PyExc {
    if v.Str? || v.Arr? then AttributeError else TypeError
  }

  /** `_validate_campaign` */
  function CampaignProblems(c: Value, at: nat): (r: Result<seq<Problem>, PyExc>)
    ensures r.Err? <==> !c.Obj?
  {
    if c.Obj? then Ok(CampaignChecks(c, at)) else Err(NotADict(c))
  }

  /** A loop over a list that extends a result with each element's check,
      numbered from 0, and stops at the first check that raises. */
  function Sequence<T>(cs: seq<Value>, check: (Value, nat) -> Result<seq<T>, PyExc>): (r: Result<seq<T>, PyExc>)
    ensures r.Ok? <==> forall i :: 0 <= i < |cs| ==> check(cs[i], i).Ok?
  {
    if cs == [] then Ok([])
    else
      var init :- Sequence(cs[..|cs| - 1], check);
      var last :- check(cs[|cs| - 1], |cs| - 1);
      Ok(init + last)
  }

  lemma SequenceStep<T>(cs: seq<Value>, check: (Value, nat) -> Result<seq<T>, PyExc>, i: nat, acc: seq<T>)
    requires i < |cs| && Sequence(cs[..i], check) == Ok(acc) && check(cs[i], i).Ok?
    ensures Sequence(cs[..i + 1], check) == Ok(acc + check(cs[i], i).value)
  {
    assert cs[..i + 1][..i] == cs[..i];
  }

  lemma SequenceFails<T>(cs: seq<Value>, check: (Value, nat) -> Result<seq<T>, PyExc>, i: nat)
    requires i < |cs| && Sequence(cs[..i], check).Ok? && check(cs[i], i).Err?
    ensures Sequence(cs, check) == Err(check(cs[i], i).error)
  {
    assert cs[..i + 1][..i] == cs[..i];
    SequenceStops(cs, check, i + 1, check(cs[i], i).error);
  }

  /** Once a prefix raises, every longer prefix raises the same. */
  lemma {:induction false} SequenceStops<T>(cs: seq<Value>, check: (Value, nat) -> Result<seq<T>, PyExc>, n: nat, e: PyExc)
    requires n <= |cs| && Sequence(cs[..n], check) == Err(e)
    ensures Sequence(cs, check) == Err(e)
    decreases |cs| - n
  {
    if n < |cs| {
      assert cs[..n + 1][..n] == cs[..n];
      SequenceStops(cs, check, n + 1, e);
    } else {
      assert cs[..n] == cs;
    }
  }

  /** The loop over the campaigns: it raises exactly when some campaign is
      not a dict. */
  function AllCampaignProblems(cs: seq<Value>): (r: Result<seq<Problem>, PyExc>)
    ensures r.Ok? <==> forall i :: 0 <= i < |cs| ==> cs[i].Obj?
  {
    Sequence(cs, CampaignProblems)
  }

  /** The top-level checks of `validate_calendar`. */
  function TopProblems(cal: Value): (r: seq<Problem>)
    requires cal.Obj?
  {
    MissingFields(cal, None, RequiredCalendarFields) + VersionCheck(cal)
    + DateCheck(cal, "start_date") + DateCheck(cal, "end_date")
  }

  /** Any version but "4.0.0", a missing one included, is a problem. */
  function VersionCheck(cal: Value): seq<Problem>
    requires cal.Obj?
  {
    var version := Lookup(cal, "version", Null);
    if version != Str(ExpectedVersion) then [BadVersion(version)] else []
  }

  /** A truthy top-level date must be a real `YYYY-MM-DD` date. */
  function DateCheck(cal: Value, field: string): seq<Problem>
    requires cal.Obj?
  {
    var date := Lookup(cal, field, Null);
    if Truthy(date) && !IsValidDate(date) then [BadDate(None, field, date)] else []
  }

  /** `validate_calendar`: the problems, or the exception it raises. */
  function CalendarProblems(cal: Value): (r: Result<seq<Problem>, PyExc>) {
    if !cal.Obj? then Err(NotADict(cal))
    else
      var campaigns := Lookup(cal, "campaigns", Arr([]));
      if !campaigns.Arr? then Ok(TopProblems(cal) + [CampaignsNotArray])
      else
        var rest :- AllCampaignProblems(campaigns.items);
        Ok(TopProblems(cal) + rest)
  }

  /** The pair `validate_calendar` returns. */
  function Report(r: Result<seq<Problem>, PyExc>): Result<(bool, seq<string>), PyExc> {
    match r
    case Ok(ps) => Ok((ps == [], Messages(ps)))
    case Err(e) => Err(e)
  }

  // ---------------------------------------------------------------------------
  // Properties of the calendar check

  /** Each missing top-level field is reported once, and a version other
      than "4.0.0", a missing one included, once more. */
  lemma TopLevelRules(cal: Value)
    requires cal.Obj?
    ensures forall f :: f in RequiredCalendarFields ==>
              (MissingField(None, f) in TopProblems(cal) <==> !Has(cal, f))
    ensures !Has(cal, "version") ==> BadVersion(Null) in TopProblems(cal)
    ensures (exists v :: BadVersion(v) in TopProblems(cal)) <==> Lookup(cal, "version", Null) != Str(ExpectedVersion)
    ensures forall p :: p in TopProblems(cal) ==> CampaignOf(p).None?
  {
    var missing := MissingFields(cal, None, RequiredCalendarFields);
    MissingFieldsExact(cal, None, RequiredCalendarFields);
    var rest := VersionCheck(cal) + DateCheck(cal, "start_date") + DateCheck(cal, "end_date");
    OrderedMap.ConcatAssoc(missing + VersionCheck(cal), DateCheck(cal, "start_date"), DateCheck(cal, "end_date"));
    OrderedMap.ConcatAssoc(missing, VersionCheck(cal), DateCheck(cal, "start_date") + DateCheck(cal, "end_date"));
    assert TopProblems(cal) == missing + rest;
    assert forall p :: p in rest ==> !p.MissingField? && CampaignOf(p).None?;
    if Lookup(cal, "version", Null) != Str(ExpectedVersion) {
      assert BadVersion(Lookup(cal, "version", Null)) in rest;
    }
  }

  /** Campaign problems come in campaign order, each naming a campaign of
      the list. */
  lemma {:induction false} CampaignOrder(cs: seq<Value>)
    requires AllCampaignProblems(cs).Ok?
    ensures var ps := AllCampaignProblems(cs).value;
            forall j, k :: 0 <= j < k < |ps| ==>
              CampaignOf(ps[j]).Some? && CampaignOf(ps[k]).Some? && CampaignOf(ps[j]).value <= CampaignOf(ps[k]).value
    ensures forall p :: p in AllCampaignProblems(cs).value ==> CampaignOf(p).Some? && CampaignOf(p).value < |cs|
  {
    if cs != [] {
      var init := cs[..|cs| - 1];
      CampaignOrder(init);
      var a := AllCampaignProblems(init).value;
      var b := CampaignProblems(cs[|cs| - 1], |cs| - 1).value;
      CampaignChecksAt(cs[|cs| - 1], |cs| - 1);
      assert AllCampaignProblems(cs).value == a + b;
      assert forall k :: 0 <= k < |b| ==> b[k] in b;
      assert forall j :: 0 <= j < |a| ==> a[j] in a;
    }
  }

  /** Every problem of a campaign names that campaign. */
  lemma CampaignChecksAt(c: Value, at: nat)
    requires c.Obj?
    ensures forall p :: p in CampaignChecks(c, at) ==> CampaignOf(p) == Some(at)
  {
    MissingFieldsExact(c, Some(at), RequiredCampaignFields);
  }

  /** The whole list: top-level problems first, then the campaigns'. */
  lemma CalendarOrder(cal: Value)
    requires CalendarProblems(cal).Ok?
    ensures cal.Obj?
    ensures var ps := CalendarProblems(cal).value;
            var top := TopProblems(cal);
            && ps[..|top|] == top
            && forall k :: |top| <= k < |ps| ==> ps[k] == CampaignsNotArray || CampaignOf(ps[k]).Some?
  {
    var campaigns := Lookup(cal, "campaigns", Arr([]));
    if campaigns.Arr? {
      CampaignOrder(campaigns.items);
      var rest := AllCampaignProblems(campaigns.items).value;
      var ps := TopProblems(cal) + rest;
      assert forall k :: |TopProblems(cal)| <= k < |ps| ==> ps[k] == rest[k - |TopProblems(cal)|];
    }
  }

  /** Channel and type are checked only when truthy, against their lists. */
  lemma ChannelAndTypeRules(c: Value, at: nat)
    requires c.Obj?
    ensures var channel := Lookup(c, "channel", Null);
            BadChannel(Some(at), channel) in CampaignChecks(c, at) <==> Rejected(channel, ValidChannels)
    ensures var campaignType := Lookup(c, "type", Null);
            BadType(Some(at), campaignType) in CampaignChecks(c, at) <==> Rejected(campaignType, ValidCampaignTypes)
  {
    var i := Some(at);
    var missing := MissingFields(c, i, RequiredCampaignFields);
    MissingFieldsExact(c, i, RequiredCampaignFields);
    var tail := SendDateCheck(c, i) + SendTimeCheck(c, i) + AudienceChecks(Lookup(c, "audience", Null), i);
    assert CampaignChecks(c, at) == missing + (ChannelCheck(c, i) + TypeCheck(c, i) + tail);
    assert forall p: Problem :: p in missing + tail ==> !p.BadChannel? && !p.BadType?;
  }

  // ---------------------------------------------------------------------------
  // The loops

  /** `_validate_campaign` */
  method ValidateCampaign(campaign: Value, index: nat) returns (r: Result<seq<Problem>, PyExc>)
    ensures r == CampaignProblems(campaign, index)
  {
    if !campaign.Obj? {
      return Err(NotADict(campaign));
    }
    var errors: seq<Problem> := [];
    for k := 0 to |RequiredCampaignFields|
      invariant errors == MissingFields(campaign, Some(index), RequiredCampaignFields[..k])
    {
      var field := RequiredCampaignFields[k];
      assert RequiredCampaignFields[..k + 1][..k] == RequiredCampaignFields[..k];
      if !Has(campaign, field) {
        errors := errors + [MissingField(Some(index), field)];
      }
    }
    assert RequiredCampaignFields[..|RequiredCampaignFields|] == RequiredCampaignFields;
    var checks: seq<Problem> := [];
    var channel := Lookup(campaign, "channel", Null);
    if Rejected(channel, ValidChannels) {
      checks := checks + [BadChannel(Some(index), channel)];
    }
    assert checks == ChannelCheck(campaign, Some(index));
    var campaignType := Lookup(campaign, "type", Null);
    if Rejected(campaignType, ValidCampaignTypes) {
      checks := checks + [BadType(Some(index), campaignType)];
    }
    assert checks == ChannelCheck(campaign, Some(index)) + TypeCheck(campaign, Some(index));
    var sendDate := Lookup(campaign, "send_date", Null);
    if Truthy(sendDate) && !IsValidDate(sendDate) {
      checks := checks + [BadDate(Some(index), "send_date", sendDate)];
    }
    assert checks == ChannelCheck(campaign, Some(index)) + TypeCheck(campaign, Some(index))
                     + SendDateCheck(campaign, Some(index));
    var sendTime := Lookup(campaign, "send_time", Null);
    if Truthy(sendTime) && !IsValidTime(sendTime) {
      checks := checks + [BadSendTime(Some(index), sendTime)];
    }
    assert checks == ChannelCheck(campaign, Some(index)) + TypeCheck(campaign, Some(index))
                     + SendDateCheck(campaign, Some(index)) + SendTimeCheck(campaign, Some(index));
    checks := checks + AudienceChecks(Lookup(campaign, "audience", Null), Some(index));
    assert checks == FieldChecks(campaign, Some(index));
    errors := errors + checks;
    return Ok(errors);
  }

  /** `validate_calendar`; valid means no error lines. */
  method ValidateCalendar(cal: Value) returns (r: Result<(bool, seq<string>), PyExc>)
    ensures r == Report(CalendarProblems(cal))
    ensures r.Ok? ==> (r.value.0 <==> r.value.1 == [])
  {
    if !cal.Obj? {
      return Err(NotADict(cal));
    }
    var errors: seq<Problem> := [];
    for k := 0 to |RequiredCalendarFields|
      invariant errors == MissingFields(cal, None, RequiredCalendarFields[..k])
    {
      var field := RequiredCalendarFields[k];
      assert RequiredCalendarFields[..k + 1][..k] == RequiredCalendarFields[..k];
      if !Has(cal, field) {
        errors := errors + [MissingField(None, field)];
      }
    }
    assert RequiredCalendarFields[..|RequiredCalendarFields|] == RequiredCalendarFields;
    var version := Lookup(cal, "version", Null);
    if version != Str(ExpectedVersion) {
      errors := errors + [BadVersion(version)];
    }
    assert errors == MissingFields(cal, None, RequiredCalendarFields) + VersionCheck(cal);
    var startDate := Lookup(cal, "start_date", Null);
    if Truthy(startDate) && !IsValidDate(startDate) {
      errors := errors + [BadDate(None, "start_date", startDate)];
    }
    assert errors == MissingFields(cal, None, RequiredCalendarFields) + VersionCheck(cal) + DateCheck(cal, "start_date");
    var endDate := Lookup(cal, "end_date", Null);
    if Truthy(endDate) && !IsValidDate(endDate) {
      errors := errors + [BadDate(None, "end_date", endDate)];
    }
    assert errors == TopProblems(cal);
    var campaigns := Lookup(cal, "campaigns", Arr([]));
    if !campaigns.Arr? {
      errors := errors + [CampaignsNotArray];
      return Ok((errors == [], Messages(errors)));
    }
    var cs := campaigns.items;
    ghost var rest: seq<Problem> := [];
    for i := 0 to |cs|
      invariant Sequence(cs[..i], CampaignProblems) == Ok(rest)
      invariant errors == TopProblems(cal) + rest
    {
      var campaignErrors := ValidateCampaign(cs[i], i);
      if campaignErrors.Err? {
        SequenceFails(cs, CampaignProblems, i);
        return Err(campaignErrors.error);
      }
      SequenceStep(cs, CampaignProblems, i, rest);
      OrderedMap.ConcatAssoc(TopProblems(cal), rest, campaignErrors.value);
      errors := errors + campaignErrors.value;
      rest := rest + campaignErrors.value;
    }
    assert cs[..|cs|] == cs;
    return Ok((errors == [], Messages(errors)));
  }

  // ---------------------------------------------------------------------------
  // The text checks

  /** A warning of the planning or briefs check. */
  datatype Note =
    | PlanningShort
    | PlanningMissing(section: string)
    | PlanningNoDates
    | BriefsShort(minLength: int, campaignCount: int)
    | BriefsMissing(element: string)
    | BriefsNoSendTime

  function NoteMessage(n: Note): string {
    match n
    case PlanningShort => "Planning output is very short (< 500 characters)"
    case PlanningMissing(s) => "Planning output may be missing '" + s + "' content"
    case PlanningNoDates => "Planning output may be missing specific date references"
    case BriefsShort(m, c) =>
      "Briefs output is short (< " + Text.IntToString(m) + " characters for " + Text.IntToString(c) + " campaigns)"
    case BriefsMissing(e) => "Briefs may be missing '" + e + "' specifications"
    case BriefsNoSendTime => "Briefs may be missing 'send time' specifications"
  }

  function NoteMessages(ns: seq<Note>): (r: seq<string>)
    ensures |r| == |ns|
  {
    seq(|ns|, k requires 0 <= k < |ns| => NoteMessage(ns[k]))
  }

  const PlanningSections: seq<string> := ["strategic", "campaign", "audience", "timing"]
  const BriefElements: seq<string> := ["subject", "preview", "audience"]

  /** The keywords of a list that a (lower-cased) text lacks, in order,
      each turned into a note. */
  function MissingWords(text: string, words: seq<string>, planning: bool): (r: seq<Note>)
    ensures |r| <= |words|
    ensures forall n :: n in r ==> if planning then n.PlanningMissing? && n.section in words && !Text.Contains(text, n.section)
                                   else n.BriefsMissing? && n.element in words && !Text.Contains(text, n.element)
    ensures forall w :: w in words && !Text.Contains(text, w) ==> (if planning then PlanningMissing(w) else BriefsMissing(w)) in r
  {
    if words == [] then []
    else
      var w := words[|words| - 1];
      MissingWords(text, words[..|words| - 1], planning)
        + if Text.Contains(text, w) then [] else [if planning then PlanningMissing(w) else BriefsMissing(w)]
  }

  /** `validate_planning_output`'s warnings. */
  function PlanningNotes(text: string): seq<Note> {
    (if |text| < 500 then [PlanningShort] else [])
    + MissingWords(Text.Lower(text), PlanningSections, true)
    + (if !Text.Contains(text, "2025") && !Text.Contains(text, "2024") then [PlanningNoDates] else [])
  }

  /** `validate_briefs_output`'s warnings. */
  function BriefsNotes(text: string, campaignCount: int): seq<Note> {
    var minLength := campaignCount * 300;
    var lower := Text.Lower(text);
    (if |text| < minLength then [BriefsShort(minLength, campaignCount)] else [])
    + MissingWords(lower, BriefElements, false)
    + (if !Text.Contains(lower, "send time") && !Text.Contains(lower, "send_time") then [BriefsNoSendTime] else [])
  }

  /** One warning per missing section (case-insensitive), one for a text
      under 500 characters and one when neither "2024" nor "2025" occurs. */
  lemma PlanningRules(text: string)
    ensures PlanningShort in PlanningNotes(text) <==> |text| < 500
    ensures PlanningNoDates in PlanningNotes(text) <==> !Text.Contains(text, "2025") && !Text.Contains(text, "2024")
    ensures forall s :: s in PlanningSections ==>
              (PlanningMissing(s) in PlanningNotes(text) <==> !Text.Contains(Text.Lower(text), s))
    ensures |PlanningNotes(text)| <= 6
  {
    var missing := MissingWords(Text.Lower(text), PlanningSections, true);
    assert forall n :: n in missing ==> n.PlanningMissing?;
  }

  /** The "short" warning fires exactly when the text is under 300
      characters per campaign. */
  lemma BriefsRules(text: string, campaignCount: int)
    ensures BriefsShort(campaignCount * 300, campaignCount) in BriefsNotes(text, campaignCount) <==> |text| < campaignCount * 300
    ensures (exists m, c :: BriefsShort(m, c) in BriefsNotes(text, campaignCount)) <==> |text| < campaignCount * 300
    ensures forall e :: e in BriefElements ==>
              (BriefsMissing(e) in BriefsNotes(text, campaignCount) <==> !Text.Contains(Text.Lower(text), e))
    ensures |BriefsNotes(text, campaignCount)| <= 5
  {
    var missing := MissingWords(Text.Lower(text), BriefElements, false);
    assert forall n :: n in missing ==> n.BriefsMissing?;
  }

  /** `validate_planning_output`: always valid, warnings only. */
  method ValidatePlanningOutput(planningText: string) returns (valid: bool, warnings: seq<string>)
    ensures valid
    ensures warnings == NoteMessages(PlanningNotes(planningText))
  {
    var notes: seq<Note> := [];
    if |planningText| < 500 {
      notes := notes + [PlanningShort];
    }
    var lower := Text.Lower(planningText);
    ghost var before := notes;
    for k := 0 to |PlanningSections|
      invariant notes == before + MissingWords(lower, PlanningSections[..k], true)
    {
      var section := PlanningSections[k];
      assert PlanningSections[..k + 1][..k] == PlanningSections[..k];
      if !Text.Contains(lower, section) {
        OrderedMap.ConcatAssoc(before, MissingWords(lower, PlanningSections[..k], true), [PlanningMissing(section)]);
        notes := notes + [PlanningMissing(section)];
      }
    }
    assert PlanningSections[..|PlanningSections|] == PlanningSections;
    assert notes == (if |planningText| < 500 then [PlanningShort] else [])
                    + MissingWords(Text.Lower(planningText), PlanningSections, true);
    var noDates := !Text.Contains(planningText, "2025") && !Text.Contains(planningText, "2024");
    if noDates {
      notes := notes + [PlanningNoDates];
    }
    assert notes == PlanningNotes(planningText);
    return true, NoteMessages(notes);
  }

  /** `validate_briefs_output`: always valid, warnings only. */
  method ValidateBriefsOutput(briefsText: string, campaignCount: int) returns (valid: bool, warnings: seq<string>)
    ensures valid
    ensures warnings == NoteMessages(BriefsNotes(briefsText, campaignCount))
  {
    var notes: seq<Note> := [];
    var minLength := campaignCount * 300;
    if |briefsText| < minLength {
      notes := notes + [BriefsShort(minLength, campaignCount)];
    }
    var lower := Text.Lower(briefsText);
    ghost var before := notes;
    for k := 0 to |BriefElements|
      invariant notes == before + MissingWords(lower, BriefElements[..k], false)
    {
      var element := BriefElements[k];
      assert BriefElements[..k + 1][..k] == BriefElements[..k];
      if !Text.Contains(lower, element) {
        OrderedMap.ConcatAssoc(before, MissingWords(lower, BriefElements[..k], false), [BriefsMissing(element)]);
        notes := notes + [BriefsMissing(element)];
      }
    }
    assert BriefElements[..|BriefElements|] == BriefElements;
    assert notes == (if |briefsText| < minLength then [BriefsShort(minLength, campaignCount)] else [])
                    + MissingWords(lower, BriefElements, false);
    var noSendTime := !Text.Contains(lower, "send time") && !Text.Contains(lower, "send_time");
    if noSendTime {
      notes := notes + [BriefsNoSendTime];
    }
    assert notes == BriefsNotes(briefsText, campaignCount);
    return true, NoteMessages(notes);
  }
}
