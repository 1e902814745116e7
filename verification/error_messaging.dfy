/**
 * Error messages with suggestions, validation-error records and the step-by-step
 * progress tracker (noless/error_messaging.py).
 */
module ErrorMessaging {
  import opened Py
  import opened Schemas

  // ---------------------------------------------------------------------------
  // Severity
  // ---------------------------------------------------------------------------

  datatype ErrorSeverity = Critical | Error | Warning | Info

  /** The enum's `.value`. */
  function SeverityValue(s: ErrorSeverity): string {
    match s
    case Critical => "CRITICAL"
    case Error => "ERROR"
    case Warning => "WARNING"
    case Info => "INFO"
  }

  /** `ErrorSeverity(text)`: the member whose value is `text`, if any. */
  function ParseSeverity(text: string): (r: Option<ErrorSeverity>)
    ensures r.Some? ==> SeverityValue(r.value) == text
  {
    if text == "CRITICAL" then Some(Critical)
    else if text == "ERROR" then Some(Error)
    else if text == "WARNING" then Some(Warning)
    else if text == "INFO" then Some(Info)
    else None
  }

  lemma {:induction false} ParseSeverityValue(s: ErrorSeverity)
    ensures ParseSeverity(SeverityValue(s)) == Some(s)
  {
  }

  const CriticalErrors: set<string> :=
    {"SyntaxError", "IndentationError", "SystemError", "MemoryError", "RecursionError"}

  const ErrorErrors: set<string> :=
    {"TypeError", "ValueError", "KeyError", "IndexError", "ImportError", "ModuleNotFoundError"}

  /** `_determine_severity`: the two fixed name sets, WARNING for every other name. */
  function DetermineSeverity(errorType: string): (r: ErrorSeverity)
    ensures r == Critical <==> errorType in CriticalErrors
    ensures r == Error <==> errorType in ErrorErrors
    ensures r == Warning <==> errorType !in CriticalErrors + ErrorErrors
    ensures r != Info
  {
    if errorType in CriticalErrors then Critical
    else if errorType in ErrorErrors then Error
    else Warning
  }

  // ---------------------------------------------------------------------------
  // The suggestion table and format_error
  // ---------------------------------------------------------------------------

  datatype Hint = Hint(message: string, suggestion: string, docs: string)

  const ErrorSuggestions: map<string, Hint> := map[
    "ModuleNotFoundError" := Hint(
      "Missing required module",
      "Install the missing module using: pip install {module_name}",
      "https://docs.python.org/3/library/importlib.html"),
    "SyntaxError" := Hint(
      "Code has syntax errors",
      "Check for missing colons, parentheses, or indentation issues. Line: {line}",
      "https://docs.python.org/3/tutorial/errors.html"),
    "TypeError" := Hint(
      "Type mismatch or incompatible types",
      "Ensure function arguments match expected types. Consider adding type hints.",
      "https://docs.python.org/3/library/typing.html"),
    "ValueError" := Hint(
      "Invalid value provided",
      "Validate input values before using them. Add error handling with try-except.",
      "https://docs.python.org/3/tutorial/errors.html"),
    "ImportError" := Hint(
      "Failed to import module",
      "Check module name spelling or install missing package. pip install {module}",
      "https://docs.python.org/3/library/importlib.html"),
    "KeyError" := Hint(
      "Key not found in dictionary",
      "Use .get() method with default value or check if key exists before accessing",
      "https://docs.python.org/3/tutorial/datastructures.html#dictionaries"),
    "IndexError" := Hint(
      "Index out of range",
      "Check list/array length before accessing. Use len() to validate index.",
      "https://docs.python.org/3/tutorial/introduction.html#lists"),
    "AttributeError" := Hint(
      "Object has no attribute",
      "Check if attribute exists. Use hasattr() or handle AttributeError.",
      "https://docs.python.org/3/tutorial/classes.html"),
    "ConnectionError" := Hint(
      "Failed to connect to server/database",
      "Check connection parameters, network connectivity, and add retry logic.",
      "https://docs.python.org/3/library/socket.html"),
    "TimeoutError" := Hint(
      "Operation timed out",
      "Increase timeout duration or optimize the operation. Add timeout handling.",
      "https://docs.python.org/3/library/asyncio.html")
  ]

  const DefaultDescription: string := "An error occurred"
  const DefaultSuggestion: string := "Review the error message and traceback"

  /** The seven-key dict `format_error` returns. */
  datatype FormattedError = FormattedError(
    errorType: string,
    message: string,
    severity: string,
    description: string,
    suggestion: string,
    documentation: string,
    context: map<string, Value>)

  /**
   * `format_error`: description, suggestion and docs come from the table entry, or the
   * defaults for an unknown type; a missing (or empty) context becomes `{}`.
   */
  function FormatError(errorType: string, errorMessage: string, context: Option<map<string, Value>>): (r: FormattedError)
    ensures r.errorType == errorType && r.message == errorMessage
    ensures r.severity == SeverityValue(DetermineSeverity(errorType))
    ensures errorType in ErrorSuggestions ==>
      var h := ErrorSuggestions[errorType];
      r.description == h.message && r.suggestion == h.suggestion && r.documentation == h.docs
    ensures errorType !in ErrorSuggestions ==>
      r.description == DefaultDescription && r.suggestion == DefaultSuggestion && r.documentation == ""
    ensures r.context == (if context.Some? then context.value else map[])
  {
    var ctx := if context.Some? && context.value != map[] then context.value else map[];
    var h := if errorType in ErrorSuggestions then ErrorSuggestions[errorType]
             else Hint(DefaultDescription, DefaultSuggestion, "");
    FormattedError(errorType, errorMessage, SeverityValue(DetermineSeverity(errorType)),
                   h.message, h.suggestion, h.docs, ctx)
  }

  /** Every table entry carries a documentation link, so only unknown types lack one. */
  lemma {:induction false} DocumentedIffKnown(errorType: string, errorMessage: string, context: Option<map<string, Value>>)
    ensures FormatError(errorType, errorMessage, context).documentation != "" <==> errorType in ErrorSuggestions
  {
    if errorType in ErrorSuggestions {
      assert errorType in {"ModuleNotFoundError", "SyntaxError", "TypeError", "ValueError", "ImportError",
                           "KeyError", "IndexError", "AttributeError", "ConnectionError", "TimeoutError"};
      assert |ErrorSuggestions[errorType].docs| > 0;
    }
  }

  // ---------------------------------------------------------------------------
  // format_for_display
  // ---------------------------------------------------------------------------

  const LearnMore: string := "\n[cyan]Learn more:[/cyan]"
  const WhyHeading: string := "\n[yellow]Why this happened:[/yellow]"
  const FixHeading: string := "\n[green]How to fix it:[/green]"

  /** The lines `format_for_display` joins. */
  function DisplayLines(f: FormattedError): (r: seq<string>)
    ensures |r| == if f.documentation != "" then 8 else 6
    ensures r[0] == "[bold red]ERROR[/bold red]: " + f.errorType && r[1] == "Message: " + f.message
    ensures r[3] == "  " + f.description && r[5] == "  " + f.suggestion
    ensures f.documentation != "" ==> r[6] == LearnMore && r[7] == "  " + f.documentation
  {
    ["[bold red]ERROR[/bold red]: " + f.errorType,
     "Message: " + f.message,
     WhyHeading,
     "  " + f.description,
     FixHeading,
     "  " + f.suggestion]
    + (if f.documentation != "" then [LearnMore, "  " + f.documentation] else [])
  }

  /**
   * `format_for_display`: it opens with the error type and shows the message, and the
   * documentation link whenever there is one.
   */
  function FormatForDisplay(f: FormattedError): (r: string)
    ensures StartsWith(r, "[bold red]ERROR[/bold red]: " + f.errorType)
    ensures Contains(r, "Message: " + f.message)
    ensures f.documentation != "" ==> Contains(r, "  " + f.documentation)
  {
    var lines := DisplayLines(f);
    JoinPrefix(lines, "\n", 1);
    assert Join(lines[..1], "\n") == lines[0];
    JoinContains(lines, "\n", 1);
    assert f.documentation != "" ==> Contains(Join(lines, "\n"), lines[7]) by {
      if f.documentation != "" { JoinContains(lines, "\n", 7); }
    }
    Join(lines, "\n")
  }

  /** No fixed line of the display can be mistaken for the "Learn more" heading. */
  lemma {:induction false} LearnMoreIsDistinct(f: FormattedError, k: nat)
    requires k < 6
    ensures DisplayLines(f)[k] != LearnMore
  {
    var line := DisplayLines(f)[k];
    assert LearnMore[0] == '\n' && LearnMore[2] == 'c';
    if k == 0 { assert line[0] == '['; }
    else if k == 1 { assert line[0] == 'M'; }
    else if k == 2 { assert line[2] == 'y'; }
    else if k == 3 || k == 5 { assert line[0] == ' '; }
    else { assert line[2] == 'g'; }
  }

  /** The "Learn more" heading is shown if and only if there is documentation. */
  lemma {:induction false} DisplayLearnMoreIff(f: FormattedError)
    ensures LearnMore in DisplayLines(f) <==> f.documentation != ""
  {
    var lines := DisplayLines(f);
    if f.documentation == "" {
      forall k | 0 <= k < |lines| ensures lines[k] != LearnMore {
        LearnMoreIsDistinct(f, k);
      }
    }
  }

  /** For an error type from the table, the display always ends with its link. */
  lemma {:induction false} KnownTypeShowsLearnMore(errorType: string, errorMessage: string, context: Option<map<string, Value>>)
    requires errorType in ErrorSuggestions
    ensures LearnMore in DisplayLines(FormatError(errorType, errorMessage, context))
  {
    DocumentedIffKnown(errorType, errorMessage, context);
    DisplayLearnMoreIff(FormatError(errorType, errorMessage, context));
  }

  // ---------------------------------------------------------------------------
  // ValidationError
  // ---------------------------------------------------------------------------

  datatype ValidationError = ValidationError(
    errorType: string,
    severity: ErrorSeverity,
    message: string,
    suggestion: string,
    lineNumber: Option<int> := None)

  /** `to_dict`: the five fields, one key each. */
  function ToDict(e: ValidationError): (r: map<string, Value>)
    ensures r.Keys == {"type", "severity", "message", "suggestion", "line"}
  {
    map["type" := VStr(e.errorType),
        "severity" := VStr(SeverityValue(e.severity)),
        "message" := VStr(e.message),
        "suggestion" := VStr(e.suggestion),
        "line" := if e.lineNumber.Some? then VInt(e.lineNumber.value) else VNone]
  }

  /** Reading a `to_dict` record back; None when a key is missing or has the wrong type. */
  function FromDict(d: map<string, Value>): (r: Option<ValidationError>)
    ensures r.Some? ==> forall k :: k in ToDict(r.value) ==> k in d && d[k] == ToDict(r.value)[k]
  {
    if "type" in d && "severity" in d && "message" in d && "suggestion" in d && "line" in d
       && d["type"].VStr? && d["severity"].VStr? && d["message"].VStr? && d["suggestion"].VStr?
       && (d["line"].VInt? || d["line"].VNone?)
       && ParseSeverity(d["severity"].s).Some?
    then Some(ValidationError(d["type"].s, ParseSeverity(d["severity"].s).value, d["message"].s,
                              d["suggestion"].s, if d["line"].VInt? then Some(d["line"].i) else None))
    else None
  }

  /** `to_dict` loses nothing: the record can be read back from it. */
  lemma {:induction false} ToDictRoundTrip(e: ValidationError)
    ensures FromDict(ToDict(e)) == Some(e)
  {
    ParseSeverityValue(e.severity);
  }

  /** Python truthiness of `line_number`: None and 0 are false. */
  predicate LineTruthy(line: Option<int>) {
    line.Some? && line.value != 0
  }

  /** The ` (line n)` location of `__str__`. */
  function Location(line: Option<int>): (r: string)
    ensures r == "" <==> !LineTruthy(line)
    ensures LineTruthy(line) ==> r == " (line " + IntToString(line.value) + ")"
  {
    if LineTruthy(line) then " (line " + IntToString(line.value) + ")" else ""
  }

  /** `__str__`. */
  function ToString(e: ValidationError): (r: string)
    ensures StartsWith(r, "[" + SeverityValue(e.severity) + "] " + e.errorType)
    ensures Contains(r, e.message) && Contains(r, e.suggestion)
  {
    var head := "[" + SeverityValue(e.severity) + "] " + e.errorType;
    var lead := head + Location(e.lineNumber) + ": ";
    var fix := "\nFix: " + e.suggestion;
    ContainsMiddle(lead, e.message, fix);
    ContainsMiddle("\nFix: ", e.suggestion, "");
    assert "\nFix: " + e.suggestion + "" == fix;
    ContainsAfter(lead + e.message, fix, e.suggestion);
    assert (lead + e.message + fix)[..|head|] == head;
    lead + e.message + fix
  }

  /**
   * The location is shown exactly for a truthy line number: with one, the text holds
   * " (line n)"; without one (None or 0), the text is that of an error with no line.
   */
  lemma {:induction false} ToStringLocation(e: ValidationError)
    ensures LineTruthy(e.lineNumber) ==> Contains(ToString(e), " (line " + IntToString(e.lineNumber.value) + ")")
    ensures !LineTruthy(e.lineNumber) ==> ToString(e) == ToString(e.(lineNumber := None))
    ensures Contains(ToString(e), e.message) && Contains(ToString(e), e.suggestion)
  {
    var head := "[" + SeverityValue(e.severity) + "] " + e.errorType;
    var loc := Location(e.lineNumber);
    var tail := ": " + e.message + ("\nFix: " + e.suggestion);
    assert ToString(e) == head + loc + tail;
    ContainsMiddle(head, loc, tail);
  }

  // ---------------------------------------------------------------------------
  // ProgressTracker
  // ---------------------------------------------------------------------------

  const InProgress: string := "IN_PROGRESS"
  const CompletedStatus: string := "COMPLETED"
  const FailedStatus: string := "FAILED"

  /** One entry of `step_details`; `result` and `error` are the keys added later. */
  datatype StepInfo = StepInfo(
    step: int,
    name: string,
    description: string,
    status: string,
    result: Option<Value>,
    error: Option<string>)

  /** `complete_step` on a list: only the last entry changes. */
  function MarkCompleted(steps: seq<StepInfo>, result: Value): (r: seq<StepInfo>)
    ensures |r| == |steps|
    ensures steps != [] ==> r[..|r| - 1] == steps[..|steps| - 1]
    ensures steps != [] ==>
      var last, old_ := r[|r| - 1], steps[|steps| - 1];
      last.status == CompletedStatus
      && last.step == old_.step && last.name == old_.name && last.description == old_.description
      && last.error == old_.error
      && last.result == (if Truthy(result) then Some(result) else old_.result)
  {
    if steps == [] then []
    else
      var last := steps[|steps| - 1];
      var last' := last.(status := CompletedStatus,
                         result := if Truthy(result) then Some(result) else last.result);
      steps[..|steps| - 1] + [last']
  }

  /** `fail_step` on a list: only the last entry changes. */
  function MarkFailed(steps: seq<StepInfo>, error: string): (r: seq<StepInfo>)
    ensures |r| == |steps|
    ensures steps != [] ==> r[..|r| - 1] == steps[..|steps| - 1]
    ensures steps != [] ==>
      var last, old_ := r[|r| - 1], steps[|steps| - 1];
      last.status == FailedStatus && last.error == Some(error)
      && last.step == old_.step && last.name == old_.name && last.description == old_.description
      && last.result == old_.result
  {
    if steps == [] then []
    else
      var last := steps[|steps| - 1];
      steps[..|steps| - 1] + [last.(status := FailedStatus, error := Some(error))]
  }

  /** Entry i carries step number i + 1: what `start_step` alone produces. */
  predicate NumberedSteps(steps: seq<StepInfo>) {
    forall i :: 0 <= i < |steps| ==> steps[i].step == i + 1
  }

  /** Marking the last step never renumbers anything. */
  lemma {:induction false} MarkKeepsNumbering(steps: seq<StepInfo>, result: Value, error: string)
    requires NumberedSteps(steps)
    ensures NumberedSteps(MarkCompleted(steps, result))
    ensures NumberedSteps(MarkFailed(steps, error))
  {
    if steps != [] {
      var c := MarkCompleted(steps, result);
      var f := MarkFailed(steps, error);
      forall i | 0 <= i < |c| ensures c[i].step == i + 1 {
        if i < |c| - 1 { assert c[i] == c[..|c| - 1][i]; }
      }
      forall i | 0 <= i < |f| ensures f[i].step == i + 1 {
        if i < |f| - 1 { assert f[i] == f[..|f| - 1][i]; }
      }
    }
  }

  /** `get_progress_percentage`: true division, ZeroDivisionError when there are no steps. */
  function Percentage(current: int, total: int): (r: Result<real, string>)
    ensures r.Err? <==> total == 0
    ensures r.Ok? ==> r.value * total as real == current as real * 100.0
    ensures r.Ok? && 0 <= current <= total ==> 0.0 <= r.value <= 100.0
  {
    if total == 0 then Err("ZeroDivisionError")
    else
      PercentageBounds(current, total);
      Ok((current as real / total as real) * 100.0)
  }

  lemma {:induction false} PercentageBounds(current: int, total: int)
    requires total != 0
    ensures 0 <= current <= total ==> 0.0 <= (current as real / total as real) * 100.0 <= 100.0
  {
    if 0 <= current <= total {
      assert current as real <= total as real;
    }
  }

  /** A step entry as the dict `get_progress_summary` exposes. */
  function StepDict(s: StepInfo): (r: map<string, Value>)
    ensures r.Keys == {"step", "name", "description", "status"}
                      + (if s.result.Some? then {"result"} else {})
                      + (if s.error.Some? then {"error"} else {})
  {
    var base := map["step" := VInt(s.step), "name" := VStr(s.name),
                    "description" := VStr(s.description), "status" := VStr(s.status)];
    var withResult := if s.result.Some? then base["result" := s.result.value] else base;
    if s.error.Some? then withResult["error" := VStr(s.error.value)] else withResult
  }

  function StepDicts(steps: seq<StepInfo>): (r: seq<Value>)
    ensures |r| == |steps|
    ensures forall i :: 0 <= i < |steps| ==> r[i] == VDict(StepDict(steps[i]))
  {
    if steps == [] then [] else [VDict(StepDict(steps[0]))] + StepDicts(steps[1..])
  }

  /** `get_progress_summary`; the division error of the percentage propagates. */
  function ProgressSummary(current: int, total: int, steps: seq<StepInfo>): (r: Result<map<string, Value>, string>)
    ensures r.Err? <==> total == 0
    ensures r.Ok? ==>
      r.value.Keys == {"current_step", "total_steps", "percentage", "steps"}
      && r.value["current_step"] == VInt(current) && r.value["total_steps"] == VInt(total)
      && r.value["percentage"] == VFloat(Percentage(current, total).value)
      && r.value["steps"] == VList(StepDicts(steps))
  {
    match Percentage(current, total)
    case Err(e) => Err(e)
    case Ok(p) => Ok(map["current_step" := VInt(current), "total_steps" := VInt(total),
                         "percentage" := VFloat(p), "steps" := VList(StepDicts(steps))])
  }

  /** The status icon, "?" for a status none of the three. */
  function StatusIcon(status: string): (r: string)
    ensures status == CompletedStatus ==> r == "✓"
    ensures status == InProgress ==> r == "→"
    ensures status == FailedStatus ==> r == "✗"
    ensures r == "?" <==> status !in {CompletedStatus, InProgress, FailedStatus}
  {
    if status == CompletedStatus then "✓"
    else if status == InProgress then "→"
    else if status == FailedStatus then "✗"
    else "?"
  }

  /** `step.get("error")` is truthy. */
  predicate ShowsError(s: StepInfo) {
    s.error.Some? && s.error.value != ""
  }

  /** The report lines for one step: the heading, then the description and the error if set. */
  function StepLines(s: StepInfo): (r: seq<string>)
    ensures |r| == 1 + (if s.description != "" then 1 else 0) + (if ShowsError(s) then 1 else 0)
    ensures r[0] == StatusIcon(s.status) + " Step " + IntToString(s.step) + ": " + s.name
    ensures s.description != "" ==> r[1] == "    " + s.description
    ensures ShowsError(s) ==> r[|r| - 1] == "    Error: " + s.error.value
  {
    [StatusIcon(s.status) + " Step " + IntToString(s.step) + ": " + s.name]
    + (if s.description != "" then ["    " + s.description] else [])
    + (if ShowsError(s) then ["    Error: " + s.error.value] else [])
  }

  /** The per-step part of the report, steps in order. */
  function AllStepLines(steps: seq<StepInfo>): seq<string> {
    if steps == [] then [] else StepLines(steps[0]) + AllStepLines(steps[1..])
  }

  /** Where the heading of step i sits among the per-step lines. */
  function HeadingIndex(steps: seq<StepInfo>, i: nat): nat
    requires i <= |steps|
  {
    if i == 0 then 0 else |StepLines(steps[0])| + HeadingIndex(steps[1..], i - 1)
  }

  /** Each step contributes between one and three lines, and its heading comes first. */
  lemma {:induction false} StepHeadings(steps: seq<StepInfo>, i: nat)
    requires i < |steps|
    ensures |steps| <= |AllStepLines(steps)| <= 3 * |steps|
    ensures HeadingIndex(steps, i) < |AllStepLines(steps)|
    ensures AllStepLines(steps)[HeadingIndex(steps, i)] == StepLines(steps[i])[0]
  {
    var head := StepLines(steps[0]);
    if i == 0 {
      if |steps| > 1 {
        StepHeadings(steps[1..], 0);
      }
    } else {
      StepHeadings(steps[1..], i - 1);
      assert AllStepLines(steps)[|head| + HeadingIndex(steps[1..], i - 1)]
          == AllStepLines(steps[1..])[HeadingIndex(steps[1..], i - 1)];
    }
  }

  const ReportRule: string := "=================================================="

  /** The report heading. */
  function ReportHeader(current: int, total: int): string {
    "\n\U{1F4CA} Progress Report: " + IntToString(current) + "/" + IntToString(total) + " steps"
  }

  /** All lines of `format_progress_report`: heading, rule, the steps, rule. */
  function ReportLines(current: int, total: int, steps: seq<StepInfo>): (r: seq<string>)
    ensures |r| == 3 + |AllStepLines(steps)|
    ensures r[0] == ReportHeader(current, total) && r[1] == ReportRule && r[|r| - 1] == ReportRule
    ensures r[2..|r| - 1] == AllStepLines(steps)
  {
    [ReportHeader(current, total), ReportRule] + AllStepLines(steps) + [ReportRule]
  }

  /** A ProgressTracker: counts started steps and keeps one entry per step. */
  class ProgressTracker {
    var totalSteps: int
    var currentStep: int
    var stepDetails: seq<StepInfo>

    /** The tracker's own invariant: one entry per started step, numbered from 1. */
    ghost predicate Valid()
      reads this
    {
      |stepDetails| == currentStep && NumberedSteps(stepDetails)
    }

    constructor(totalSteps: int)
      ensures this.totalSteps == totalSteps && currentStep == 0 && stepDetails == []
      ensures Valid()
    {
      this.totalSteps := totalSteps;
      currentStep := 0;
      stepDetails := [];
    }

    /** `start_step`: one more step, one more IN_PROGRESS entry numbered by it. */
    method StartStep(stepName: string, description: string := "")
      modifies this
      ensures totalSteps == old(totalSteps) && currentStep == old(currentStep) + 1
      ensures stepDetails == old(stepDetails) + [StepInfo(currentStep, stepName, description, InProgress, None, None)]
      ensures old(Valid()) ==> Valid()
    {
      currentStep := currentStep + 1;
      stepDetails := stepDetails + [StepInfo(currentStep, stepName, description, InProgress, None, None)];
    }

    /** `complete_step`. */
    method CompleteStep(result: Value := VNone)
      modifies this
      ensures totalSteps == old(totalSteps) && currentStep == old(currentStep)
      ensures stepDetails == MarkCompleted(old(stepDetails), result)
      ensures old(Valid()) ==> Valid()
    {
      if stepDetails != [] {
        var last := stepDetails[|stepDetails| - 1];
        last := last.(status := CompletedStatus);
        if Truthy(result) {
          last := last.(result := Some(result));
        }
        stepDetails := stepDetails[..|stepDetails| - 1] + [last];
      }
      if old(Valid()) {
        MarkKeepsNumbering(old(stepDetails), result, "");
      }
    }

    /** `fail_step`. */
    method FailStep(error: string)
      modifies this
      ensures totalSteps == old(totalSteps) && currentStep == old(currentStep)
      ensures stepDetails == MarkFailed(old(stepDetails), error)
      ensures old(Valid()) ==> Valid()
    {
      if stepDetails != [] {
        var last := stepDetails[|stepDetails| - 1];
        stepDetails := stepDetails[..|stepDetails| - 1] + [last.(status := FailedStatus, error := Some(error))];
      }
      if old(Valid()) {
        MarkKeepsNumbering(old(stepDetails), VNone, error);
      }
    }

    /** `get_progress_percentage`. */
    function GetProgressPercentage(): (r: Result<real, string>)
      reads this
      ensures r.Err? <==> totalSteps == 0
      ensures r.Ok? && Valid() && currentStep <= totalSteps ==> 0.0 <= r.value <= 100.0
    {
      Percentage(currentStep, totalSteps)
    }

    /** `get_progress_summary`. */
    function GetProgressSummary(): (r: Result<map<string, Value>, string>)
      reads this
      ensures r.Err? <==> totalSteps == 0
      ensures r.Ok? ==> "steps" in r.value && r.value["steps"] == VList(StepDicts(stepDetails))
    {
      ProgressSummary(currentStep, totalSteps, stepDetails)
    }

    /** `format_progress_report`: builds the line list step by step and joins it. */
    method FormatProgressReport() returns (r: string)
      ensures r == Join(ReportLines(currentStep, totalSteps, stepDetails), "\n")
    {
      var lines := AppendStepLines([ReportHeader(currentStep, totalSteps), ReportRule], stepDetails);
      lines := lines + [ReportRule];
      r := Join(lines, "\n");
    }
  }

  /** The loop of `format_progress_report`: the lines of every step, in order, after `lines`. */
  method AppendStepLines(lines: seq<string>, steps: seq<StepInfo>) returns (out: seq<string>)
    ensures out == lines + AllStepLines(steps)
  {
    out := lines;
    var i := 0;
    while i < |steps|
      invariant 0 <= i <= |steps|
      invariant out == lines + AllStepLines(steps[..i])
    {
      PrefixStepLines(lines, steps, i);
      out := out + StepLines(steps[i]);
      i := i + 1;
    }
    assert steps[..i] == steps;
  }

  lemma {:induction false} PrefixStepLines(lines: seq<string>, steps: seq<StepInfo>, i: nat)
    requires i < |steps|
    ensures lines + AllStepLines(steps[..i + 1]) == lines + AllStepLines(steps[..i]) + StepLines(steps[i])
  {
    assert steps[..i + 1] == steps[..i] + [steps[i]];
    AllStepLinesAppend(steps[..i], steps[i]);
  }

  lemma {:induction false} AllStepLinesAppend(steps: seq<StepInfo>, s: StepInfo)
    ensures AllStepLines(steps + [s]) == AllStepLines(steps) + StepLines(s)
  {
    if steps == [] {
      assert [s][1..] == [];
    } else {
      assert (steps + [s])[1..] == steps[1..] + [s];
      AllStepLinesAppend(steps[1..], s);
    }
  }

  /** A started and then completed step is shown with the check mark. */
  lemma {:induction false} StartThenCompleteShowsCheck(steps: seq<StepInfo>, name: string, description: string, result: Value)
    ensures var after := MarkCompleted(steps + [StepInfo(|steps| + 1, name, description, InProgress, None, None)], result);
      StepLines(after[|after| - 1])[0] == "✓ Step " + IntToString(|steps| + 1) + ": " + name
  {
  }
}
