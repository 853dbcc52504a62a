/** `tools/calendar_tool.py`: the wrapper around the three-stage calendar
    workflow. It checks the inputs before the agent runs, runs the output
    checks of the calendar validator on whatever the agent produced, and
    dispatches single stages. The agent itself is outside the model: its
    outcome (a result dict, or the message of the exception it raised) is a
    parameter. */
module CalendarTool {
  import opened Wrappers
  import opened JsonValue
  import Text
  import Dates
  import OrderedMap
  import CalendarValidator

  /** The longest span, in days, between the start and the end date. */
  const MaxRangeDays := 90

  // ---------------------------------------------------------------------------
  // Input validation

  /** One line of `validate_inputs`' error list. */
  datatype InputError =
    | NameNotString
    | NameNotAlphanumeric
    | BadStartDate(value: Value)
    | BadEndDate(value: Value)
    | EndNotAfterStart
    | RangeTooLarge(days: int)

  function InputMessage(e: InputError): string {
    match e
    case NameNotString => "client_name must be a non-empty string"
    case NameNotAlphanumeric => "client_name must be alphanumeric with hyphens/underscores only"
    case BadStartDate(v) => "Invalid start_date format: " + PyStr(v) + " (expected YYYY-MM-DD)"
    case BadEndDate(v) => "Invalid end_date format: " + PyStr(v) + " (expected YYYY-MM-DD)"
    case EndNotAfterStart => "end_date must be after start_date"
    case RangeTooLarge(d) => "Date range too large: " + Text.IntToString(d) + " days (max 90 days)"
  }

  function InputMessages(es: seq<InputError>): (r: seq<string>)
    ensures |r| == |es|
  {
    seq(|es|, k requires 0 <= k < |es| => InputMessage(es[k]))
  }

  /** `client_name.replace("-", "").replace("_", "")` */
  function NameCore(s: string): string {
    Text.Replace(Text.Replace(s, "-", ""), "_", "")
  }

  /** The client-name check: at most one error. */
  function NameErrors(clientName: Value): (r: seq<InputError>)
    ensures |r| <= 1
  {
    if !Truthy(clientName) || !clientName.Str? then [NameNotString]
    else if !Text.IsAlnumStr(NameCore(clientName.s)) then [NameNotAlphanumeric]
    else []
  }

  /** The two format checks, each through `_is_valid_date`. */
  function FormatErrors(startDate: Value, endDate: Value): seq<InputError> {
    (if CalendarValidator.IsValidDate(startDate) then [] else [BadStartDate(startDate)])
    + (if CalendarValidator.IsValidDate(endDate) then [] else [BadEndDate(endDate)])
  }

  /** `datetime.strptime(v, "%Y-%m-%d")`: `TypeError` on a non-string, which
      the range check does not catch, and `None` for its `ValueError`. */
  function Strptime(v: Value): Result<Option<Dates.Date>, PyExc> {
    if v.Str? then Ok(Dates.ParseDate(v.s)) else Err(TypeError)
  }

  /** The span checks on two parsed dates: `end_dt <= start_dt`, then
      `(end_dt - start_dt).days > 90`. */
  function SpanErrors(start: Dates.Date, end: Dates.Date): seq<InputError>
    requires Dates.ValidDate(start) && Dates.ValidDate(end)
  {
    var days := Dates.DayNumber(end) - Dates.DayNumber(start);
    (if !Dates.Before(start, end) then [EndNotAfterStart] else [])
    + (if days > MaxRangeDays then [RangeTooLarge(days)] else [])
  }

  /** The range check, run only when both dates are truthy; a `ValueError`
      from either parse ends it silently. */
  function RangeErrors(startDate: Value, endDate: Value): Result<seq<InputError>, PyExc> {
    if !Truthy(startDate) || !Truthy(endDate) then Ok([])
    else
      var start :- Strptime(startDate);
      if start.None? then Ok([])
      else
        var end :- Strptime(endDate);
        if end.None? then Ok([])
        else Ok(SpanErrors(start.value, end.value))
  }

  /** `validate_inputs`' error list, or the exception it lets escape. */
  function InputErrors(clientName: Value, startDate: Value, endDate: Value): Result<seq<InputError>, PyExc> {
    var range :- RangeErrors(startDate, endDate);
    Ok(NameErrors(clientName) + FormatErrors(startDate, endDate) + range)
  }

  function InputReport(r: Result<seq<InputError>, PyExc>): Result<(bool, seq<string>), PyExc> {
    match r
    case Ok(es) => Ok((es == [], InputMessages(es)))
    case Err(e) => Err(e)
  }

  /** A name is accepted exactly when it is a string of letters, digits,
      hyphens and underscores with at least one letter or digit. */
  lemma NameRule(clientName: Value)
    ensures NameErrors(clientName) == [] <==>
              clientName.Str?
              && (forall i :: 0 <= i < |clientName.s| ==>
                    Text.IsAlnum(clientName.s[i]) || clientName.s[i] == '-' || clientName.s[i] == '_')
              && (exists i :: 0 <= i < |clientName.s| && Text.IsAlnum(clientName.s[i]))
  {
    if clientName.Str? {
      var s := clientName.s;
      var once := Text.Replace(s, "-", "");
      Text.ReplaceDelete(s, '-');
      Text.ReplaceDelete(once, '_');
      var core := NameCore(s);
      assert forall x :: x in core <==> x in s && x != '-' && x != '_';
      if Text.IsAlnumStr(core) {
        assert core[0] in s;
        forall i | 0 <= i < |s|
          ensures Text.IsAlnum(s[i]) || s[i] == '-' || s[i] == '_'
        {
          if s[i] != '-' && s[i] != '_' {
            assert s[i] in core;
          }
        }
      }
      if (forall i :: 0 <= i < |s| ==> Text.IsAlnum(s[i]) || s[i] == '-' || s[i] == '_')
         && (exists i :: 0 <= i < |s| && Text.IsAlnum(s[i])) {
        var i :| 0 <= i < |s| && Text.IsAlnum(s[i]);
        assert s[i] in core;
        forall j | 0 <= j < |core|
          ensures Text.IsAlnum(core[j])
        {
          assert core[j] in s;
        }
      }
    }
  }

  /** The two span errors never fire together: a span over 90 days has the
      end after the start. An end on or before the start is reported exactly
      when its day number does not exceed the start's. */
  lemma SpanRules(start: Dates.Date, end: Dates.Date)
    requires Dates.ValidDate(start) && Dates.ValidDate(end)
    ensures EndNotAfterStart in SpanErrors(start, end) <==> Dates.DayNumber(end) <= Dates.DayNumber(start)
    ensures |SpanErrors(start, end)| <= 1
    ensures SpanErrors(start, end) == [] <==>
              Dates.DayNumber(start) < Dates.DayNumber(end) <= Dates.DayNumber(start) + MaxRangeDays
  {
    Dates.DayNumberOrder(start, end);
  }

  /** A date that fails its format check adds no range error: either both
      dates parse, or the range check is silent or raises. */
  lemma FormatErrorsSuppressRange(startDate: Value, endDate: Value)
    ensures RangeErrors(startDate, endDate).Ok? && RangeErrors(startDate, endDate).value != [] ==>
              CalendarValidator.IsValidDate(startDate) && CalendarValidator.IsValidDate(endDate)
    ensures RangeErrors(startDate, endDate).Err? <==>
              Truthy(startDate) && Truthy(endDate)
              && (!startDate.Str? || (CalendarValidator.IsValidDate(startDate) && !endDate.Str?))
  {
  }

  /** Two real dates reach the span checks. */
  lemma RangeOfValidDates(startDate: Value, endDate: Value)
    requires CalendarValidator.IsValidDate(startDate) && CalendarValidator.IsValidDate(endDate)
    ensures RangeErrors(startDate, endDate)
            == Ok(SpanErrors(Dates.ParseDate(startDate.s).value, Dates.ParseDate(endDate.s).value))
  {
  }

  /** The inputs pass exactly when the name is accepted and both dates are
      real dates with the end 1 to 90 days after the start. */
  lemma InputsValid(clientName: Value, startDate: Value, endDate: Value)
    ensures InputErrors(clientName, startDate, endDate) == Ok([]) <==>
              NameErrors(clientName) == []
              && CalendarValidator.IsValidDate(startDate) && CalendarValidator.IsValidDate(endDate)
              && var start := Dates.ParseDate(startDate.s).value;
                 var end := Dates.ParseDate(endDate.s).value;
                 Dates.DayNumber(start) < Dates.DayNumber(end) <= Dates.DayNumber(start) + MaxRangeDays
  {
    if CalendarValidator.IsValidDate(startDate) && CalendarValidator.IsValidDate(endDate) {
      RangeOfValidDates(startDate, endDate);
      SpanRules(Dates.ParseDate(startDate.s).value, Dates.ParseDate(endDate.s).value);
    } else {
      FormatErrorsSuppressRange(startDate, endDate);
      assert FormatErrors(startDate, endDate) != [];
    }
  }

  /** The name and format checks of `validate_inputs`, appending to an
      empty error list. */
  method CheckNameAndFormats(clientName: Value, startDate: Value, endDate: Value)
    returns (errors: seq<InputError>)
    ensures errors == NameErrors(clientName) + FormatErrors(startDate, endDate)
  {
    errors := [];
    if !Truthy(clientName) || !clientName.Str? {
      errors := errors + [NameNotString];
    } else if !Text.IsAlnumStr(NameCore(clientName.s)) {
      errors := errors + [NameNotAlphanumeric];
    }
    ghost var names := errors;
    if !CalendarValidator.IsValidDate(startDate) {
      errors := errors + [BadStartDate(startDate)];
    }
    if !CalendarValidator.IsValidDate(endDate) {
      errors := errors + [BadEndDate(endDate)];
    }
    OrderedMap.ConcatAssoc(names,
      if CalendarValidator.IsValidDate(startDate) then [] else [BadStartDate(startDate)],
      if CalendarValidator.IsValidDate(endDate) then [] else [BadEndDate(endDate)]);
  }

  /** The span checks, appending to an empty list. */
  method CheckSpan(start: Dates.Date, end: Dates.Date) returns (range: seq<InputError>)
    requires Dates.ValidDate(start) && Dates.ValidDate(end)
    ensures range == SpanErrors(start, end)
  {
    range := [];
    if !Dates.Before(start, end) {
      range := range + [EndNotAfterStart];
    }
    var days := Dates.DayNumber(end) - Dates.DayNumber(start);
    if days > MaxRangeDays {
      range := range + [RangeTooLarge(days)];
    }
  }

  /** The range check of `validate_inputs`, with the exception it lets
      escape. */
  method CheckRange(startDate: Value, endDate: Value) returns (r: Result<seq<InputError>, PyExc>)
    ensures r == RangeErrors(startDate, endDate)
  {
    if !Truthy(startDate) || !Truthy(endDate) {
      return Ok([]);
    }
    if !startDate.Str? {
      return Err(TypeError);
    }
    var start := Dates.ParseDate(startDate.s);
    if start.None? {
      return Ok([]);
    }
    if !endDate.Str? {
      return Err(TypeError);
    }
    var end := Dates.ParseDate(endDate.s);
    if end.None? {
      return Ok([]);
    }
    var range := CheckSpan(start.value, end.value);
    RangeOfValidDates(startDate, endDate);
    return Ok(range);
  }

  /** `validate_inputs` */
  method ValidateInputs(clientName: Value, startDate: Value, endDate: Value)
    returns (r: Result<(bool, seq<string>), PyExc>)
    ensures r == InputReport(InputErrors(clientName, startDate, endDate))
    ensures r.Ok? ==> (r.value.0 <==> r.value.1 == [])
  {
    var errors := CheckNameAndFormats(clientName, startDate, endDate);
    var range := CheckRange(startDate, endDate);
    if range.Err? {
      return Err(range.error);
    }
    errors := errors + range.value;
    return Ok((|errors| == 0, InputMessages(errors)));
  }

  // ---------------------------------------------------------------------------
  // The workflow

  /** What ended a workflow after the inputs passed: the agent's exception
      (its message), or an exception raised while checking its outputs. */
  datatype Failure = AgentRaised(message: string) | CheckRaised(exc: PyExc)

  /** The `validation` dict: three flags and the prefixed error and warning
      lines. */
  datatype Validation = Validation(
    planningValid: bool, calendarValid: bool, briefsValid: bool,
    errors: seq<string>, warnings: seq<string>)

  /** The flags before any check: all true, no lines. */
  const Unchecked := Validation(true, true, true, [], [])

  /** `run_workflow`'s result dict, by the way the workflow ended. */
  datatype WorkflowResult =
    | Aborted(workflowId: string, inputErrors: seq<string>)
    | Failed(workflowId: string, failure: Failure)
    | Completed(success: bool, planning: Value, calendar: Value, briefs: Value,
                validation: Validation, metadata: Value)

  /** `[f"{tag}{line}" for line in lines]` */
  function Prefixed(tag: string, lines: seq<string>): (r: seq<string>)
    ensures |r| == |lines|
    ensures forall i :: 0 <= i < |lines| ==> r[i] == tag + lines[i]
  {
    seq(|lines|, k requires 0 <= k < |lines| => tag + lines[k])
  }

  /** `len(text)` followed by `text.lower()` on a value that is not a string. */
  function TextException(v: Value): PyExc {
    if Len(v).Some? then AttributeError else TypeError
  }

  /** The planning check, when enabled and the planning text is truthy. */
  function PlanningStep(validate: bool, result: Value, v: Validation): Result<Validation, PyExc>
    requires result.Obj?
  {
    var planning := Lookup(result, "planning", Null);
    if !validate || !Truthy(planning) then Ok(v)
    else if !planning.Str? then Err(TextException(planning))
    else
      var warnings := CalendarValidator.NoteMessages(CalendarValidator.PlanningNotes(planning.s));
      Ok(v.(planningValid := true, warnings := v.warnings + Prefixed("Planning: ", warnings)))
  }

  /** The calendar check, when enabled and the calendar is truthy. */
  function CalendarStep(validate: bool, result: Value, v: Validation): Result<Validation, PyExc>
    requires result.Obj?
  {
    var calendar := Lookup(result, "calendar_json", Null);
    if !validate || !Truthy(calendar) then Ok(v)
    else
      var report :- CalendarValidator.Report(CalendarValidator.CalendarProblems(calendar));
      Ok(v.(calendarValid := report.0, errors := v.errors + Prefixed("Calendar: ", report.1)))
  }

  /** The number of campaigns the briefs are checked against:
      `len(result.get("calendar_json", {}).get("campaigns", []))`. */
  function CampaignCount(result: Value): Result<nat, PyExc>
    requires result.Obj?
  {
    var calendar := Lookup(result, "calendar_json", Obj([]));
    if !calendar.Obj? then Err(AttributeError)
    else
      var campaigns := Lookup(calendar, "campaigns", Arr([]));
      if Len(campaigns).None? then Err(TypeError) else Ok(Len(campaigns).value)
  }

  /** The briefs check, when enabled and the briefs text is truthy. */
  function BriefsStep(validate: bool, result: Value, v: Validation): Result<Validation, PyExc>
    requires result.Obj?
  {
    var briefs := Lookup(result, "briefs", Null);
    if !validate || !Truthy(briefs) then Ok(v)
    else
      var count :- CampaignCount(result);
      if !briefs.Str? then Err(TextException(briefs))
      else
        var warnings := CalendarValidator.NoteMessages(CalendarValidator.BriefsNotes(briefs.s, count));
        Ok(v.(briefsValid := true, warnings := v.warnings + Prefixed("Briefs: ", warnings)))
  }

  /** The three output checks in order; the first exception ends them. */
  function Checks(validate: bool, result: Value): Result<Validation, PyExc>
    requires result.Obj?
  {
    var afterPlanning :- PlanningStep(validate, result, Unchecked);
    var afterCalendar :- CalendarStep(validate, result, afterPlanning);
    BriefsStep(validate, result, afterCalendar)
  }

  /** `f"{client_name}_{start_date}_{end_date}"` */
  function WorkflowId(clientName: Value, startDate: Value, endDate: Value): string {
    PyStr(clientName) + "_" + PyStr(startDate) + "_" + PyStr(endDate)
  }

  /** The result of `run_workflow` once the agent has produced `result`. */
  function Outputs(id: string, validate: bool, result: Value): WorkflowResult {
    if !result.Obj? then Failed(id, CheckRaised(AttributeError))
    else
      match Checks(validate, result)
      case Err(e) => Failed(id, CheckRaised(e))
      case Ok(v) =>
        Completed(v.planningValid && v.calendarValid && v.briefsValid,
                  Lookup(result, "planning", Null), Lookup(result, "calendar_json", Null),
                  Lookup(result, "briefs", Null), v, Lookup(result, "metadata", Obj([])))
  }

  /** `run_workflow`: the input check runs outside the `try`, so its own
      exception escapes; everything after it is caught. */
  function Workflow(validate: bool, clientName: Value, startDate: Value, endDate: Value,
                    agent: Result<Value, string>): Result<WorkflowResult, PyExc>
  {
    var id := WorkflowId(clientName, startDate, endDate);
    var inputErrors :- InputErrors(clientName, startDate, endDate);
    if inputErrors != [] then Ok(Aborted(id, InputMessages(inputErrors)))
    else
      match agent
      case Err(message) => Ok(Failed(id, AgentRaised(message)))
      case Ok(result) => Ok(Outputs(id, validate, result))
  }

  /** Invalid inputs abort the workflow with their error lines before the
      agent runs: the result is the same whatever the agent would do. */
  lemma InvalidInputsAbort(validate: bool, clientName: Value, startDate: Value, endDate: Value,
                           agent: Result<Value, string>, other: Result<Value, string>)
    requires InputErrors(clientName, startDate, endDate).Ok?
    requires InputErrors(clientName, startDate, endDate).value != []
    ensures Workflow(validate, clientName, startDate, endDate, agent)
            == Workflow(validate, clientName, startDate, endDate, other)
            == Ok(Aborted(WorkflowId(clientName, startDate, endDate),
                          InputMessages(InputErrors(clientName, startDate, endDate).value)))
  {
  }

  /** The planning and briefs checks never clear their flags; a flag changes
      only when checking is enabled and that output is truthy. */
  lemma StepsKeepFlags(validate: bool, result: Value, v: Validation)
    requires result.Obj?
    ensures PlanningStep(validate, result, v).Ok? ==>
              var w := PlanningStep(validate, result, v).value;
              w.planningValid == (v.planningValid || (validate && Truthy(Lookup(result, "planning", Null))))
              && w.calendarValid == v.calendarValid && w.briefsValid == v.briefsValid && w.errors == v.errors
    ensures BriefsStep(validate, result, v).Ok? ==>
              var w := BriefsStep(validate, result, v).value;
              w.briefsValid == (v.briefsValid || (validate && Truthy(Lookup(result, "briefs", Null))))
              && w.planningValid == v.planningValid && w.calendarValid == v.calendarValid && w.errors == v.errors
    ensures CalendarStep(validate, result, v).Ok? && (!validate || !Truthy(Lookup(result, "calendar_json", Null))) ==>
              CalendarStep(validate, result, v).value == v
  {
  }

  /** A completed workflow succeeds exactly when the calendar check was off,
      had nothing to check, or found no problem: the planning and briefs
      checks only warn. */
  lemma SuccessRule(validate: bool, result: Value)
    requires result.Obj?
    requires Checks(validate, result).Ok?
    ensures var r := Outputs("", validate, result);
            r.Completed?
            && (r.success <==> !validate || !Truthy(Lookup(result, "calendar_json", Null))
                               || CalendarValidator.CalendarProblems(Lookup(result, "calendar_json", Null)) == Ok([]))
            && (!validate ==> r.validation == Unchecked && r.success)
  {
    var afterPlanning := PlanningStep(validate, result, Unchecked);
    StepsKeepFlags(validate, result, Unchecked);
    StepsKeepFlags(validate, result, afterPlanning.value);
    var afterCalendar := CalendarStep(validate, result, afterPlanning.value);
    StepsKeepFlags(validate, result, afterCalendar.value);
  }

  /** The planning check of `run_workflow`. */
  method CheckPlanning(validate: bool, result: Value, v: Validation) returns (r: Result<Validation, PyExc>)
    requires result.Obj?
    ensures r == PlanningStep(validate, result, v)
  {
    var planning := Lookup(result, "planning", Null);
    if !validate || !Truthy(planning) {
      return Ok(v);
    }
    if !planning.Str? {
      return Err(TextException(planning));
    }
    var valid, warnings := CalendarValidator.ValidatePlanningOutput(planning.s);
    return Ok(v.(planningValid := valid, warnings := v.warnings + Prefixed("Planning: ", warnings)));
  }

  /** The calendar check of `run_workflow`. */
  method CheckCalendar(validate: bool, result: Value, v: Validation) returns (r: Result<Validation, PyExc>)
    requires result.Obj?
    ensures r == CalendarStep(validate, result, v)
  {
    var calendar := Lookup(result, "calendar_json", Null);
    if !validate || !Truthy(calendar) {
      return Ok(v);
    }
    var report := CalendarValidator.ValidateCalendar(calendar);
    if report.Err? {
      return Err(report.error);
    }
    return Ok(v.(calendarValid := report.value.0, errors := v.errors + Prefixed("Calendar: ", report.value.1)));
  }

  /** The briefs check of `run_workflow`. */
  method CheckBriefs(validate: bool, result: Value, v: Validation) returns (r: Result<Validation, PyExc>)
    requires result.Obj?
    ensures r == BriefsStep(validate, result, v)
  {
    var briefs := Lookup(result, "briefs", Null);
    if !validate || !Truthy(briefs) {
      return Ok(v);
    }
    var count := CampaignCount(result);
    if count.Err? {
      return Err(count.error);
    }
    if !briefs.Str? {
      return Err(TextException(briefs));
    }
    var valid, warnings := CalendarValidator.ValidateBriefsOutput(briefs.s, count.value);
    return Ok(v.(briefsValid := valid, warnings := v.warnings + Prefixed("Briefs: ", warnings)));
  }

  /** `run_workflow` */
  method RunWorkflow(validate: bool, clientName: Value, startDate: Value, endDate: Value,
                     agent: Result<Value, string>)
    returns (r: Result<WorkflowResult, PyExc>)
    ensures r == Workflow(validate, clientName, startDate, endDate, agent)
  {
    var id := WorkflowId(clientName, startDate, endDate);
    var inputs := ValidateInputs(clientName, startDate, endDate);
    if inputs.Err? {
      return Err(inputs.error);
    }
    if !inputs.value.0 {
      return Ok(Aborted(id, inputs.value.1));
    }
    if agent.Err? {
      return Ok(Failed(id, AgentRaised(agent.error)));
    }
    var result := agent.value;
    assert Workflow(validate, clientName, startDate, endDate, agent) == Ok(Outputs(id, validate, result));
    if !result.Obj? {
      return Ok(Failed(id, CheckRaised(AttributeError)));
    }
    var validation := Unchecked;
    var step := CheckPlanning(validate, result, validation);
    if step.Err? {
      return Ok(Failed(id, CheckRaised(step.error)));
    }
    validation := step.value;
    step := CheckCalendar(validate, result, validation);
    if step.Err? {
      return Ok(Failed(id, CheckRaised(step.error)));
    }
    validation := step.value;
    step := CheckBriefs(validate, result, validation);
    if step.Err? {
      return Ok(Failed(id, CheckRaised(step.error)));
    }
    validation := step.value;
    var allValid := validation.planningValid && validation.calendarValid && validation.briefsValid;
    return Ok(Completed(allValid, Lookup(result, "planning", Null), Lookup(result, "calendar_json", Null),
                        Lookup(result, "briefs", Null), validation, Lookup(result, "metadata", Obj([]))));
  }

  // ---------------------------------------------------------------------------
  // Single stages

  /** Why `run_stage` reports failure; each becomes the `error` string. */
  datatype StageError =
    | MissingPlanning
    | MissingCalendar
    | InvalidStage(stage: int)
    | AgentFailed(message: string)

  function StageMessage(e: StageError): string {
    match e
    case MissingPlanning => "stage 2 requires 'planning_output' kwarg"
    case MissingCalendar => "stage 3 requires 'calendar_json' kwarg"
    case InvalidStage(s) => "Invalid stage: " + Text.IntToString(s) + " (must be 1, 2, or 3)"
    case AgentFailed(m) => m
  }

  /** `run_stage`'s result dict. */
  datatype StageResult =
    | StageSucceeded(stage: int, output: Value)
    | StageFailed(stage: int, error: StageError)

  /** `run_stage`: every exception is caught, so it always returns a result
      naming the stage. `agent` is what the chosen stage of the agent
      returns or the message of what it raises. */
  function RunStage(stage: int, kwargs: seq<(string, Value)>, agent: Result<Value, string>): (r: StageResult)
    ensures r.stage == stage
    ensures r.StageSucceeded? <==>
              1 <= stage <= 3 && agent.Ok?
              && (stage == 2 ==> Truthy(Lookup(Obj(kwargs), "planning_output", Null)))
              && (stage == 3 ==> Truthy(Lookup(Obj(kwargs), "calendar_json", Null)))
    ensures r.StageSucceeded? ==> r.output == agent.value
    ensures !(1 <= stage <= 3) ==> r == StageFailed(stage, InvalidStage(stage))
  {
    if stage == 2 && !Truthy(Lookup(Obj(kwargs), "planning_output", Null)) then
      StageFailed(stage, MissingPlanning)
    else if stage == 3 && !Truthy(Lookup(Obj(kwargs), "calendar_json", Null)) then
      StageFailed(stage, MissingCalendar)
    else if !(1 <= stage <= 3) then
      StageFailed(stage, InvalidStage(stage))
    else
      match agent
      case Ok(output) => StageSucceeded(stage, output)
      case Err(message) => StageFailed(stage, AgentFailed(message))
  }
}
