/**
 * The records shared by the validator, the analyzers and the filters, each with the
 * defaults of its declaration, and `Value`, the dynamically typed value of a Python dict
 * or a decoded JSON document.
 */
module Schemas {
  import opened Py

  /** A problem found during validation. */
  datatype CodeIssue = CodeIssue(
    severity: string,
    message: string,
    category: string,
    line: Option<int> := None,
    suggestion: Option<string> := None)

  /** A suggested improvement. */
  datatype CodeSuggestion = CodeSuggestion(
    title: string,
    description: string,
    kind: string,
    priority: string := "medium")

  /** The validated shape of a code review. */
  datatype CodeReviewResult = CodeReviewResult(
    valid: bool := true,
    issues: seq<CodeIssue> := [],
    suggestions: seq<CodeSuggestion> := [],
    improvedCode: Option<string> := None,
    summary: string := "")

  datatype DatasetMetadata = DatasetMetadata(
    name: string,
    source: string,
    url: Option<string> := None,
    size: Option<string> := None,
    description: Option<string> := None,
    features: Option<int> := None,
    samples: Option<int> := None,
    taskType: Option<string> := None,
    license: Option<string> := None,
    columns: Option<seq<string>> := None)

  datatype AutopilotPlanData = AutopilotPlanData(
    task: string,
    framework: string,
    datasetQuery: string,
    architecture: Option<string> := None,
    hyperparameters: map<string, Value> := map[],
    notes: string := "",
    confidence: real := 0.8)

  /** Code quality metrics: five required fields and two defaulted ones. */
  datatype CodeMetrics = CodeMetrics(
    linesOfCode: int,
    cyclomaticComplexity: real,
    functions: int,
    classes: int,
    commentsRatio: real,
    duplicatedLines: int := 0,
    typeHintsCoverage: real := 0.0)

  /** A security finding; `kind` is the field the source calls `type`. */
  datatype SecurityIssue = SecurityIssue(
    kind: string,
    severity: string,
    message: string,
    line: Option<int> := None,
    fix: Option<string> := None)

  /** A performance finding; `kind` is the field the source calls `type`. */
  datatype PerformanceIssue = PerformanceIssue(
    kind: string,
    message: string,
    location: Option<string> := None,
    impact: string := "medium",
    suggestion: Option<string> := None)

  datatype ProjectGenerationResult = ProjectGenerationResult(
    success: bool,
    projectDir: string,
    filesCreated: seq<string> := [],
    validationResults: Option<map<string, CodeReviewResult>> := None,
    warnings: seq<string> := [],
    errors: seq<string> := [])

  datatype LLMResponse = LLMResponse(
    raw: string,
    jsonContent: Option<map<string, Value>> := None,
    isValidJson: bool := false,
    parsingError: Option<string> := None)

  /**
   * A Python value as it travels through the result dicts: JSON values plus the two
   * issue records, which the static analyzer stores in those dicts as objects.
   */
  datatype Value =
    | VNone
    | VBool(b: bool)
    | VInt(i: int)
    | VFloat(f: real)
    | VStr(s: string)
    | VList(items: seq<Value>)
    | VDict(entries: map<string, Value>)
    | VSecurity(security: SecurityIssue)
    | VPerformance(performance: PerformanceIssue)

  /** Python truthiness: `None`, `False`, zero and empty containers are false, objects true. */
  predicate Truthy(v: Value) {
    match v
    case VNone => false
    case VBool(b) => b
    case VInt(i) => i != 0
    case VFloat(f) => f != 0.0
    case VStr(s) => s != ""
    case VList(xs) => xs != []
    case VDict(m) => m != map[]
    case VSecurity(_) => true
    case VPerformance(_) => true
  }

  /** `d.get(key, default)`. */
  function Get(d: map<string, Value>, key: string, default: Value): (r: Value)
    ensures key in d ==> r == d[key]
    ensures key !in d ==> r == default
  {
    if key in d then d[key] else default
  }

  /**
   * `order` lists every key of `d` once: the insertion order in which Python iterates a
   * dict, which a `map` does not keep.
   */
  predicate KeyOrder(order: seq<string>, d: map<string, Value>) {
    (forall i, j :: 0 <= i < j < |order| ==> order[i] != order[j])
    && (forall k :: k in d ==> k in order)
    && (forall k :: k in order ==> k in d)
  }

  /** `len(v)`: defined on strings, lists and dicts; anything else raises TypeError. */
  function Len(v: Value): (r: Result<nat, string>)
    ensures r.Ok? <==> (v.VStr? || v.VList? || v.VDict?)
  {
    match v
    case VStr(s) => Ok(|s|)
    case VList(xs) => Ok(|xs|)
    case VDict(m) => Ok(|m|)
    case _ => Err("TypeError")
  }

  /** The items `for x in v[:n]` visits: list elements, or one-character strings of a string. */
  function ItemsTo(v: Value, n: int): (r: Result<seq<Value>, string>)
    ensures r.Ok? <==> (v.VStr? || v.VList?)
    ensures r.Ok? && n >= 0 ==> |r.value| <= n
  {
    match v
    case VList(xs) => Ok(SliceTo(xs, n))
    case VStr(s) => Ok(seq(|SliceTo(s, n)|, k requires 0 <= k < |SliceTo(s, n)| => VStr([SliceTo(s, n)[k]])))
    case _ => Err("TypeError")
  }

  /** `v[:n]`: the same kind of value, shortened. */
  function SliceValue(v: Value, n: int): (r: Result<Value, string>)
    ensures r.Ok? <==> (v.VStr? || v.VList?)
    ensures r.Ok? ==> Len(r.value).Ok? && Len(r.value).value <= Len(v).value
  {
    match v
    case VList(xs) => Ok(VList(SliceTo(xs, n)))
    case VStr(s) => Ok(VStr(SliceTo(s, n)))
    case _ => Err("TypeError")
  }

  /** `str(v)` for the cases whose text is fixed; other values are rendered by `repr`. */
  function Str(v: Value, repr: Value -> string): string {
    match v
    case VStr(s) => s
    case VNone => "None"
    case VBool(b) => if b then "True" else "False"
    case VInt(i) => IntToString(i)
    case _ => repr(v)
  }

  /** The review record with every field at its default value. */
  lemma {:induction false} CodeReviewResultDefaults()
    ensures var r := CodeReviewResult();
      r.valid && r.issues == [] && r.suggestions == [] && r.improvedCode == None && r.summary == ""
  {
  }

  /** Building metrics from the five required fields defaults the other two. */
  lemma {:induction false} CodeMetricsDefaults(loc: int, c: real, f: int, k: int, ratio: real)
    ensures var m := CodeMetrics(loc, c, f, k, ratio);
      m.duplicatedLines == 0 && m.typeHintsCoverage == 0.0
  {
  }

  /** An issue or a suggestion built from its required fields. */
  lemma {:induction false} ReviewRecordDefaults(kind: string, severity: string, message: string)
    ensures CodeSuggestion(kind, message, severity).priority == "medium"
    ensures CodeIssue(severity, message, kind).line == None
    ensures CodeIssue(severity, message, kind).suggestion == None
  {
  }

  /** A security or performance finding built from its required fields. */
  lemma {:induction false} FindingRecordDefaults(kind: string, severity: string, message: string)
    ensures SecurityIssue(kind, severity, message).line == None
    ensures SecurityIssue(kind, severity, message).fix == None
    ensures PerformanceIssue(kind, message).impact == "medium"
    ensures PerformanceIssue(kind, message).location == None
    ensures PerformanceIssue(kind, message).suggestion == None
  {
  }

  lemma {:induction false} ResponseRecordDefaults(raw: string, dir: string, ok: bool)
    ensures LLMResponse(raw).isValidJson == false
    ensures LLMResponse(raw).jsonContent == None && LLMResponse(raw).parsingError == None
    ensures var p := ProjectGenerationResult(ok, dir);
      p.filesCreated == [] && p.warnings == [] && p.errors == [] && p.validationResults == None
  {
  }
}
