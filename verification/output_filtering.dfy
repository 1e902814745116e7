/**
 * The result filters of noless/output_filtering.py: `OutputFilter`, which projects a
 * validation or generation result dict according to the output mode, and
 * `OutputSelector`, whose settings decide which parts of a result are kept and how many
 * issues and suggestions are shown.
 *
 * Result dicts are maps from keys to Python values; where Python would raise (a length
 * of a number, `.get` on a list), the filters return the exception's name.
 */
module OutputFiltering {
  import opened Py
  import opened Schemas

  /** `OutputMode`. */
  datatype OutputMode = Full | AnalysisOnly | DryRun | Summary

  type Dict = map<string, Value>

  // ===========================================================================
  // Line previews
  // ===========================================================================

  /** The first `n` lines of `content`, joined again. */
  function Preview(content: string, n: nat): (r: string)
    ensures r <= content
    ensures |Split(content, '\n')| <= n ==> r == content
  {
    var lines := Split(content, '\n');
    var shown := lines[..Min(n, |lines|)];
    JoinPrefix(lines, "\n", Min(n, |lines|));
    SplitJoin(content, '\n');
    assert |lines| <= n ==> shown == lines;
    Join(shown, "\n")
  }

  /** The line count a preview reports: the pieces of splitting on line breaks, one more than the breaks. */
  lemma {:induction false} LineCount(content: string)
    ensures |Split(content, '\n')| == CountChar(content, '\n') + 1
  {
    SplitLength(content, '\n');
  }

  // ===========================================================================
  // OutputFilter.filter_validation_result
  // ===========================================================================

  const TruncationNote: string := "\n... (truncated - use FULL mode to see all)"

  /** `improved_code_preview`: ten lines, and the note when the code is longer. */
  function CodePreview(code: string): (r: string)
    ensures |Split(code, '\n')| <= 10 ==> r == code
    ensures |Split(code, '\n')| > 10 ==> r == Preview(code, 10) + TruncationNote
  {
    Preview(code, 10) + (if |Split(code, '\n')| > 10 then TruncationNote else "")
  }

  /** `_extract_grade`: `metrics["grade"]`, or "unknown"; metrics that are not a dict raise. */
  function ExtractGrade(result: Dict): (r: Result<Value, string>)
    ensures "metrics" !in result ==> r == Ok(VStr("unknown"))
    ensures "metrics" in result && result["metrics"].VDict? && "grade" in result["metrics"].entries
            ==> r == Ok(result["metrics"].entries["grade"])
  {
    match Get(result, "metrics", VDict(map[]))
    case VDict(metrics) => Ok(Get(metrics, "grade", VStr("unknown")))
    case _ => Err("AttributeError")
  }

  /** The keys the analysis-only projection keeps. */
  const AnalysisKeys: set<string> := {"valid", "issues", "suggestions", "metrics", "static_issues"}

  /** `filter_validation_result`. */
  function FilterValidationResult(mode: OutputMode, result: Dict): (r: Result<Dict, string>)
    ensures mode == Full ==> r == Ok(result)
    ensures mode == AnalysisOnly ==> r.Ok? && r.value.Keys == AnalysisKeys && "improved_code" !in r.value
    ensures mode == AnalysisOnly ==> forall k :: k in AnalysisKeys && k in result ==> r.value[k] == result[k]
  {
    match mode
    case Full => Ok(result)
    case AnalysisOnly =>
      Ok(map["valid" := Get(result, "valid", VNone),
             "issues" := Get(result, "issues", VList([])),
             "suggestions" := Get(result, "suggestions", VList([])),
             "metrics" := Get(result, "metrics", VNone),
             "static_issues" := Get(result, "static_issues", VList([]))])
    case DryRun => DryRunValidation(result)
    case Summary => SummaryValidation(result)
  }

  /**
   * The dry-run projection: a truthy `improved_code` string gives way to its preview; every
   * other key is kept. A truthy `improved_code` that is not a string has no `split`.
   */
  function DryRunValidation(result: Dict): (r: Result<Dict, string>)
    ensures !Truthy(Get(result, "improved_code", VNone)) ==> r == Ok(result)
    ensures Truthy(Get(result, "improved_code", VNone)) && result["improved_code"].VStr? ==>
      r.Ok? && "improved_code" !in r.value
      && "improved_code_preview" in r.value && r.value["improved_code_preview"] == VStr(CodePreview(result["improved_code"].s))
      && forall k :: k in result && k != "improved_code" && k != "improved_code_preview" ==>
           k in r.value && r.value[k] == result[k]
    ensures Truthy(Get(result, "improved_code", VNone)) && !result["improved_code"].VStr? ==> r == Err("AttributeError")
  {
    var code := Get(result, "improved_code", VNone);
    if !Truthy(code) then Ok(result)
    else if !code.VStr? then Err("AttributeError")
    else Ok((result["improved_code_preview" := VStr(CodePreview(code.s))]) - {"improved_code"})
  }

  /** `len(result.get(key, []))`. */
  function CountOf(result: Dict, key: string): Result<nat, string> {
    Len(Get(result, key, VList([])))
  }

  /** The summary projection. */
  function SummaryValidation(result: Dict): (r: Result<Dict, string>)
    ensures r.Ok? ==> r.value.Keys == {"valid", "issue_count", "suggestion_count", "has_improvements", "quality_grade"}
    ensures r.Ok? ==> r.value["has_improvements"] == VBool(Truthy(Get(result, "improved_code", VNone)))
    ensures r.Ok? && "issues" in result && result["issues"].VList? ==> r.value["issue_count"] == VInt(|result["issues"].items|)
    ensures r.Ok? && "suggestions" in result && result["suggestions"].VList?
            ==> r.value["suggestion_count"] == VInt(|result["suggestions"].items|)
    ensures r.Err? <==> CountOf(result, "issues").Err? || CountOf(result, "suggestions").Err? || ExtractGrade(result).Err?
  {
    var issues := CountOf(result, "issues");
    var suggestions := CountOf(result, "suggestions");
    var grade := ExtractGrade(result);
    if issues.Err? then Err(issues.error)
    else if suggestions.Err? then Err(suggestions.error)
    else if grade.Err? then Err(grade.error)
    else
      Ok(map["valid" := Get(result, "valid", VNone),
             "issue_count" := VInt(issues.value),
             "suggestion_count" := VInt(suggestions.value),
             "has_improvements" := VBool(Truthy(Get(result, "improved_code", VNone))),
             "quality_grade" := grade.value])
  }

  /** A result without metrics is graded "unknown" in its summary. */
  lemma {:induction false} SummaryWithoutMetrics(result: Dict)
    requires "metrics" !in result && "issues" !in result && "suggestions" !in result
    ensures SummaryValidation(result).Ok?
    ensures SummaryValidation(result).value["quality_grade"] == VStr("unknown")
    ensures SummaryValidation(result).value["issue_count"] == VInt(0)
  {
  }

  // ===========================================================================
  // OutputFilter.filter_generation_result
  // ===========================================================================

  /** The preview entry of one file: fifteen lines, the line count and whether lines were cut. */
  function FilePreview(content: string): (r: Value)
    ensures r.VDict? && r.entries.Keys == {"preview", "total_lines", "truncated"}
    ensures r.entries["truncated"] == VBool(|Split(content, '\n')| > 15)
    ensures r.entries["total_lines"] == VInt(CountChar(content, '\n') + 1)
  {
    LineCount(content);
    var lines := Split(content, '\n');
    VDict(map["preview" := VStr(Preview(content, 15)),
              "total_lines" := VInt(|lines|),
              "truncated" := VBool(|lines| > 15)])
  }

  /** The previews of every file whose content is a string, keyed by path. */
  function FilePreviews(contents: Dict): (r: Dict)
    ensures r.Keys == set path | path in contents && contents[path].VStr?
    ensures forall path :: path in r ==> r[path] == FilePreview(contents[path].s)
  {
    map path | path in contents && contents[path].VStr? :: FilePreview(contents[path].s)
  }

  /** The loop that fills `file_previews`, one file at a time. */
  method CollectPreviews(contents: Dict) returns (previews: Dict)
    ensures previews == FilePreviews(contents)
  {
    previews := map[];
    var pending := contents.Keys;
    assert previews == PreviewsOutside(contents, pending);
    while pending != {}
      invariant pending <= contents.Keys
      invariant previews == PreviewsOutside(contents, pending)
      decreases pending
    {
      var path :| path in pending;
      PreviewsStep(contents, pending, path);
      var content := contents[path];
      if content.VStr? {
        previews := previews[path := FilePreview(content.s)];
      }
      pending := pending - {path};
    }
    assert previews == FilePreviews(contents);
  }

  /** The previews collected once every file outside `pending` has been visited. */
  function PreviewsOutside(contents: Dict, pending: set<string>): Dict {
    map path | path in contents.Keys - pending && contents[path].VStr? :: FilePreview(contents[path].s)
  }

  /** Visiting one pending file adds its preview exactly when its content is a string. */
  lemma {:induction false} PreviewsStep(contents: Dict, pending: set<string>, path: string)
    requires pending <= contents.Keys && path in pending
    ensures PreviewsOutside(contents, pending - {path})
         == if contents[path].VStr? then PreviewsOutside(contents, pending)[path := FilePreview(contents[path].s)]
            else PreviewsOutside(contents, pending)
  {
  }

  /** A validation result that lets `all(...)` go on: a dict whose `valid` is truthy. */
  predicate Passes(v: Value) {
    v.VDict? && Truthy(Get(v.entries, "valid", VNone))
  }

  /** Every result among the first `i` in `order` passes. */
  predicate PassesBefore(results: Dict, order: seq<string>, i: nat)
    requires i <= |order| && forall k :: k in order ==> k in results
  {
    forall j :: 0 <= j < i ==> Passes(results[order[j]])
  }

  /**
   * `all(v.get("valid") for v in results.values())`, visiting the values in `order`: false at
   * the first dict whose `valid` is falsy, AttributeError at a value reached first that is not a
   * dict (it has no `get`), true when every value passes.
   */
  function AllValid(results: Dict, order: seq<string>): (r: Result<bool, string>)
    requires forall k :: k in order ==> k in results
    ensures r.Err? ==> r.error == "AttributeError"
  {
    if order == [] then Ok(true)
    else
      var v := results[order[0]];
      if !v.VDict? then Err("AttributeError")
      else if !Truthy(Get(v.entries, "valid", VNone)) then Ok(false)
      else AllValid(results, order[1..])
  }

  /**
   * `all` is true exactly when every value passes, and raises exactly when a value that is not
   * a dict comes before any value that fails.
   */
  lemma {:induction false} AllValidDecided(results: Dict, order: seq<string>)
    requires forall k :: k in order ==> k in results
    ensures AllValid(results, order) == Ok(true) <==> PassesBefore(results, order, |order|)
    ensures AllValid(results, order).Err? <==>
      exists i :: 0 <= i < |order| && !results[order[i]].VDict? && PassesBefore(results, order, i)
    decreases |order|
  {
    if order != [] {
      var tail := order[1..];
      AllValidDecided(results, tail);
      if Passes(results[order[0]]) {
        assert PassesBefore(results, order, |order|) <==> PassesBefore(results, tail, |tail|) by {
          if PassesBefore(results, tail, |tail|) {
            forall j | 0 <= j < |order| ensures Passes(results[order[j]]) {
              if j > 0 { assert order[j] == tail[j - 1]; }
            }
          }
        }
        if AllValid(results, tail).Err? {
          var i :| 0 <= i < |tail| && !results[tail[i]].VDict? && PassesBefore(results, tail, i);
          assert order[i + 1] == tail[i];
          forall j | 0 <= j < i + 1 ensures Passes(results[order[j]]) {
            if j > 0 { assert order[j] == tail[j - 1]; }
          }
        }
        if exists i :: 0 <= i < |order| && !results[order[i]].VDict? && PassesBefore(results, order, i) {
          var i :| 0 <= i < |order| && !results[order[i]].VDict? && PassesBefore(results, order, i);
          assert i > 0;
          assert tail[i - 1] == order[i];
          forall j | 0 <= j < i - 1 ensures Passes(results[tail[j]]) {
            assert tail[j] == order[j + 1];
          }
          assert PassesBefore(results, tail, i - 1);
        }
      } else {
        assert !PassesBefore(results, order, |order|);
        if results[order[0]].VDict? {
          forall i | 0 < i < |order| ensures !PassesBefore(results, order, i) {
            assert !Passes(results[order[0]]);
          }
        } else {
          assert PassesBefore(results, order, 0);
        }
      }
    }
  }

  /**
   * `filter_generation_result`'s validation status for the results dict, whose keys Python
   * visits in `order`: "passed" when `all` is true, "needs_attention" when it is false.
   */
  function ValidationStatus(results: Value, order: seq<string>): (r: Result<string, string>)
    requires results.VDict? ==> KeyOrder(order, results.entries)
    ensures !results.VDict? ==> r == Err("AttributeError")
    ensures results.VDict? ==>
      (r == Ok("passed") <==> forall k :: k in results.entries ==> Passes(results.entries[k]))
    ensures results.VDict? ==>
      (r.Err? <==> exists i :: 0 <= i < |order| && !results.entries[order[i]].VDict?
                                && PassesBefore(results.entries, order, i))
    ensures results.VDict? && (forall k :: k in results.entries ==> results.entries[k].VDict?) ==>
      r == Ok(if forall k :: k in results.entries ==> Passes(results.entries[k]) then "passed" else "needs_attention")
  {
    match results
    case VDict(m) =>
      AllValidDecided(m, order);
      EveryKeyVisited(m, order);
      var all := AllValid(m, order);
      if all.Err? then Err(all.error)
      else Ok(if all.value then "passed" else "needs_attention")
    case _ => Err("AttributeError")
  }

  /** Visiting the keys in `order` visits every value of the dict. */
  lemma {:induction false} EveryKeyVisited(m: Dict, order: seq<string>)
    requires KeyOrder(order, m)
    ensures PassesBefore(m, order, |order|) <==> forall k :: k in m ==> Passes(m[k])
    ensures (forall k :: k in m ==> m[k].VDict?) ==> forall i :: 0 <= i < |order| ==> m[order[i]].VDict?
  {
    if forall k :: k in m ==> Passes(m[k]) {
      assert forall j :: 0 <= j < |order| ==> order[j] in m;
    }
    if PassesBefore(m, order, |order|) {
      forall k | k in m ensures Passes(m[k]) {
        var j :| 0 <= j < |order| && order[j] == k;
      }
    }
  }

  /** With no validation results, the status is vacuously "passed". */
  lemma {:induction false} NoResultsPass()
    ensures ValidationStatus(VDict(map[]), []) == Ok("passed")
  {
  }

  /**
   * The first result in insertion order decides between a failing dict and one Python cannot
   * call `get` on: `{"a": {"valid": False}, "b": 5}` needs attention, but listed the other way
   * round it raises.
   */
  lemma {:induction false} FirstResultDecides()
    ensures var results := VDict(map["a" := VDict(map["valid" := VBool(false)]), "b" := VInt(5)]);
      ValidationStatus(results, ["a", "b"]) == Ok("needs_attention")
      && ValidationStatus(results, ["b", "a"]) == Err("AttributeError")
  {
  }

  /**
   * `filter_generation_result`; `order` is the insertion order of the validation results'
   * keys (empty when there are none).
   */
  method FilterGenerationResult(mode: OutputMode, result: Dict, order: seq<string>) returns (r: Result<Dict, string>)
    requires Get(result, "validation_results", VDict(map[])).VDict? ==>
               KeyOrder(order, Get(result, "validation_results", VDict(map[])).entries)
    ensures mode == Full ==> r == Ok(result)
    ensures mode == AnalysisOnly ==> r.Ok? && r.value.Keys == {"analysis", "warnings", "files_would_be_created"}
    ensures mode == DryRun && "file_contents" in result && result["file_contents"].VDict? ==>
      r.Ok? && "file_previews" in r.value && r.value["file_previews"] == VDict(FilePreviews(result["file_contents"].entries))
    ensures mode == DryRun && "file_contents" in result && !result["file_contents"].VDict? ==> r == Err("AttributeError")
    ensures mode == Summary ==>
      var created := CountOf(result, "files_created");
      var status := ValidationStatus(Get(result, "validation_results", VDict(map[])), order);
      r == if created.Err? then Err(created.error)
           else if status.Err? then Err(status.error)
           else Ok(map["success" := Get(result, "success", VNone),
                       "project_dir" := Get(result, "project_dir", VNone),
                       "files_created" := VInt(created.value),
                       "validation_status" := VStr(status.value)])
  {
    match mode
    case Full =>
      r := Ok(result);
    case AnalysisOnly =>
      r := Ok(map["analysis" := Get(result, "validation_results", VDict(map[])),
                  "warnings" := Get(result, "warnings", VList([])),
                  "files_would_be_created" := Get(result, "files_created", VList([]))]);
    case DryRun =>
      var contents := Get(result, "file_contents", VDict(map[]));
      if !contents.VDict? {
        r := Err("AttributeError");
        return;
      }
      var previews := CollectPreviews(contents.entries);
      r := Ok(map["project_dir" := Get(result, "project_dir", VNone),
                  "files_that_would_be_created" := Get(result, "files_created", VList([])),
                  "file_previews" := VDict(previews)]);
    case Summary =>
      var created := CountOf(result, "files_created");
      var status := ValidationStatus(Get(result, "validation_results", VDict(map[])), order);
      if created.Err? {
        r := Err(created.error);
      } else if status.Err? {
        r := Err(status.error);
      } else {
        r := Ok(map["success" := Get(result, "success", VNone),
                    "project_dir" := Get(result, "project_dir", VNone),
                    "files_created" := VInt(created.value),
                    "validation_status" := VStr(status.value)]);
      }
  }

  // ===========================================================================
  // OutputSelector
  // ===========================================================================

  /** The attributes `OutputSelector.__init__` sets, the only ones `configure` may change. */
  const SettingNames: set<string> := {
    "include_code", "include_metrics", "include_issues", "include_suggestions",
    "include_security_analysis", "include_performance_analysis", "include_improved_code",
    "max_issues_shown", "max_suggestions_shown"}

  /** A value used as a slice bound and compared with a length: an integer, or a bool as 0 or 1. */
  function AsIndex(v: Value): Option<int> {
    match v
    case VInt(i) => Some(i)
    case VBool(b) => Some(if b then 1 else 0)
    case _ => None
  }

  /** Capping raises: the limit is not an integer, or the value under `key` cannot be sliced. */
  predicate CapFails(result: Dict, key: string, limit: Value) {
    AsIndex(limit).None? || !(Get(result, key, VList([])).VStr? || Get(result, key, VList([])).VList?)
  }

  /**
   * One capped list of `filter_result`: the first `limit` entries under `key`, and a
   * "N more ..." note under `noteKey` when there were more.
   */
  function Capped(filtered: Dict, result: Dict, key: string, noteKey: string, noun: string, limit: Value)
    : (r: Result<Dict, string>)
    requires key != noteKey
    ensures r.Err? <==> CapFails(result, key, limit)
    ensures r.Ok? ==> key in r.value && forall k :: k in filtered && k != key && k != noteKey ==> k in r.value && r.value[k] == filtered[k]
    ensures r.Ok? ==> r.value.Keys <= filtered.Keys + {key, noteKey}
    ensures r.Ok? && AsIndex(limit).Some? && AsIndex(limit).value >= 0 && Get(result, key, VList([])).VList? ==>
      r.value[key].VList? && |r.value[key].items| <= AsIndex(limit).value
      && r.value[key].items <= Get(result, key, VList([])).items
      && (noteKey !in filtered ==> (noteKey in r.value <==> |Get(result, key, VList([])).items| > AsIndex(limit).value))
  {
    var items := Get(result, key, VList([]));
    match AsIndex(limit)
    case None => Err("TypeError")
    case Some(n) =>
      match SliceValue(items, n)
      case Err(e) => Err(e)
      case Ok(shown) =>
        var count := Len(items).value;
        var kept := filtered[key := shown];
        if count > n then Ok(kept[noteKey := VStr(IntToString(count - n) + " more " + noun)])
        else Ok(kept)
  }

  /**
   * The capped list is the slice of the result's list at the limit, and the note, counting
   * the entries left out, is added exactly when the list was longer than the limit.
   */
  lemma {:induction false} CappedValue(filtered: Dict, result: Dict, key: string, noteKey: string, noun: string, limit: Value)
    requires key != noteKey && noteKey !in filtered
    requires Capped(filtered, result, key, noteKey, noun, limit).Ok?
    ensures AsIndex(limit).Some? && SliceValue(Get(result, key, VList([])), AsIndex(limit).value).Ok?
    ensures var r := Capped(filtered, result, key, noteKey, noun, limit).value;
      var n := AsIndex(limit).value;
      var count := Len(Get(result, key, VList([]))).value;
      r[key] == SliceValue(Get(result, key, VList([])), n).value
      && (noteKey in r <==> count > n)
      && (count > n ==> r[noteKey] == VStr(IntToString(count - n) + " more " + noun))
  {
  }

  /** `OutputSelector`: its attribute dict, holding exactly the nine settings. */
  class OutputSelector {
    var settings: map<string, Value>

    ghost predicate Valid()
      reads this
    {
      settings.Keys == SettingNames
    }

    /** Every part included, ten issues and five suggestions shown. */
    constructor()
      ensures Valid()
      ensures forall name :: name in SettingNames && name != "max_issues_shown" && name != "max_suggestions_shown"
                ==> settings[name] == VBool(true)
      ensures settings["max_issues_shown"] == VInt(10) && settings["max_suggestions_shown"] == VInt(5)
    {
      settings := map[
        "include_code" := VBool(true),
        "include_metrics" := VBool(true),
        "include_issues" := VBool(true),
        "include_suggestions" := VBool(true),
        "include_security_analysis" := VBool(true),
        "include_performance_analysis" := VBool(true),
        "include_improved_code" := VBool(true),
        "max_issues_shown" := VInt(10),
        "max_suggestions_shown" := VInt(5)];
    }

    /** `configure(**kwargs)`: each known setting takes its new value; unknown keys are ignored. */
    method Configure(kwargs: map<string, Value>)
      requires Valid()
      modifies this
      ensures Valid()
      ensures forall name :: name in SettingNames ==>
                settings[name] == (if name in kwargs then kwargs[name] else old(settings)[name])
    {
      settings := map name | name in settings :: if name in kwargs then kwargs[name] else settings[name];
    }

    /**
     * `filter_result`: the included parts of the result, the issues and suggestions cut to
     * their limits with a note on how many were left out, and always `valid`.
     */
    function FilterResult(result: Dict): (r: Result<Dict, string>)
      requires Valid()
      reads this
      ensures r.Err? <==> SelectionFails(settings, result)
      ensures r.Ok? ==> "valid" in r.value && r.value["valid"] == Get(result, "valid", VNone)
      ensures r.Ok? ==> Shows(r.value, result, "improved_code", settings["include_code"])
      ensures r.Ok? ==> Shows(r.value, result, "metrics", settings["include_metrics"])
      ensures r.Ok? ==> Shows(r.value, result, "security_issues", settings["include_security_analysis"])
      ensures r.Ok? ==> Shows(r.value, result, "performance_issues", settings["include_performance_analysis"])
      ensures r.Ok? ==> ("issues" in r.value <==> Truthy(settings["include_issues"]))
      ensures r.Ok? ==> ("suggestions" in r.value <==> Truthy(settings["include_suggestions"]))
    {
      Selection(settings, result)
    }
  }

  /** `d[key] = v` when `flag` is truthy. */
  function IncludeIf(d: Dict, flag: Value, key: string, v: Value): (r: Dict)
    ensures key in r <==> Truthy(flag) || key in d
    ensures Truthy(flag) ==> r[key] == v
    ensures forall k :: k in d && k != key ==> k in r && r[k] == d[k]
    ensures r.Keys <= d.Keys + {key}
  {
    if Truthy(flag) then d[key := v] else d
  }

  /** `key` is in the filtered dict exactly when `flag` is truthy, holding `result.get(key)`. */
  predicate Shows(filtered: Dict, result: Dict, key: string, flag: Value) {
    (key in filtered <==> Truthy(flag)) && (key in filtered ==> filtered[key] == Get(result, key, VNone))
  }

  /** `filter_result` raises: an included list cannot be capped at its limit. */
  predicate SelectionFails(settings: map<string, Value>, result: Dict)
    requires settings.Keys == SettingNames
  {
    (Truthy(settings["include_issues"]) && CapFails(result, "issues", settings["max_issues_shown"]))
    || (Truthy(settings["include_suggestions"]) && CapFails(result, "suggestions", settings["max_suggestions_shown"]))
  }

  /** The capped lists of `filter_result`, after the code and the metrics. */
  function CappedLists(settings: map<string, Value>, result: Dict, d: Dict): (r: Result<Dict, string>)
    requires settings.Keys == SettingNames
    ensures r.Err? <==> SelectionFails(settings, result)
    ensures r.Ok? ==> ("issues" in r.value <==> Truthy(settings["include_issues"]) || "issues" in d)
    ensures r.Ok? ==> ("suggestions" in r.value <==> Truthy(settings["include_suggestions"]) || "suggestions" in d)
    ensures r.Ok? ==> forall k :: k in d && k !in {"issues", "issues_truncated", "suggestions", "suggestions_truncated"}
                                  ==> k in r.value && r.value[k] == d[k]
    ensures r.Ok? ==> r.value.Keys <= d.Keys + {"issues", "issues_truncated", "suggestions", "suggestions_truncated"}
  {
    var withIssues := IssuesCapped(settings, result, d);
    if withIssues.Err? then withIssues
    else if Truthy(settings["include_suggestions"])
    then Capped(withIssues.value, result, "suggestions", "suggestions_truncated", "suggestions",
                settings["max_suggestions_shown"])
    else withIssues
  }

  /** The issues capped when they are included. */
  function IssuesCapped(settings: map<string, Value>, result: Dict, d: Dict): (r: Result<Dict, string>)
    requires settings.Keys == SettingNames
    ensures r.Err? <==> Truthy(settings["include_issues"]) && CapFails(result, "issues", settings["max_issues_shown"])
    ensures r.Ok? ==> ("issues" in r.value <==> Truthy(settings["include_issues"]) || "issues" in d)
    ensures r.Ok? ==> forall k :: k in d && k != "issues" && k != "issues_truncated" ==> k in r.value && r.value[k] == d[k]
    ensures r.Ok? ==> r.value.Keys <= d.Keys + {"issues", "issues_truncated"}
  {
    if Truthy(settings["include_issues"])
    then Capped(d, result, "issues", "issues_truncated", "issues", settings["max_issues_shown"])
    else Ok(d)
  }

  /** What `filter_result` builds from the settings and a result. */
  function Selection(settings: map<string, Value>, result: Dict): (r: Result<Dict, string>)
    requires settings.Keys == SettingNames
    ensures r.Err? <==> SelectionFails(settings, result)
    ensures r.Ok? ==> "valid" in r.value && r.value["valid"] == Get(result, "valid", VNone)
    ensures r.Ok? ==> Shows(r.value, result, "improved_code", settings["include_code"])
    ensures r.Ok? ==> Shows(r.value, result, "metrics", settings["include_metrics"])
    ensures r.Ok? ==> Shows(r.value, result, "security_issues", settings["include_security_analysis"])
    ensures r.Ok? ==> Shows(r.value, result, "performance_issues", settings["include_performance_analysis"])
    ensures r.Ok? ==> ("issues" in r.value <==> Truthy(settings["include_issues"]))
    ensures r.Ok? ==> ("suggestions" in r.value <==> Truthy(settings["include_suggestions"]))
  {
    match CappedLists(settings, result, Head(settings, result))
    case Err(e) => Err(e)
    case Ok(d) =>
      HeadKeysSurvive(settings, result, d);
      ListKeysSurvive(settings, result, d);
      AnalysesShown(settings, result, d);
      Ok(Tail(settings, result, d))
  }

  /** The code and the metrics pass through the capped lists and the analyses unchanged. */
  lemma {:induction false} HeadKeysSurvive(settings: map<string, Value>, result: Dict, d: Dict)
    requires settings.Keys == SettingNames
    requires CappedLists(settings, result, Head(settings, result)) == Ok(d)
    ensures Shows(Tail(settings, result, d), result, "improved_code", settings["include_code"])
    ensures Shows(Tail(settings, result, d), result, "metrics", settings["include_metrics"])
  {
    var h := Head(settings, result);
    assert "improved_code" in d <==> "improved_code" in h;
    assert "metrics" in d <==> "metrics" in h;
    if "improved_code" in d {
      TailKeeps(settings, result, d, "improved_code");
    }
    if "metrics" in d {
      TailKeeps(settings, result, d, "metrics");
    }
  }

  /** The capped lists pass through the analyses unchanged. */
  lemma {:induction false} ListKeysSurvive(settings: map<string, Value>, result: Dict, d: Dict)
    requires settings.Keys == SettingNames
    requires CappedLists(settings, result, Head(settings, result)) == Ok(d)
    ensures "issues" in Tail(settings, result, d) <==> Truthy(settings["include_issues"])
    ensures "suggestions" in Tail(settings, result, d) <==> Truthy(settings["include_suggestions"])
  {
    var h := Head(settings, result);
    assert "issues" !in h && "suggestions" !in h;
  }

  /** The analyses appear exactly when included: nothing before them adds their keys. */
  lemma {:induction false} AnalysesShown(settings: map<string, Value>, result: Dict, d: Dict)
    requires settings.Keys == SettingNames
    requires CappedLists(settings, result, Head(settings, result)) == Ok(d)
    ensures Shows(Tail(settings, result, d), result, "security_issues", settings["include_security_analysis"])
    ensures Shows(Tail(settings, result, d), result, "performance_issues", settings["include_performance_analysis"])
  {
    var h := Head(settings, result);
    assert "security_issues" !in h && "performance_issues" !in h;
  }

  /** The code and the metrics, each when included. */
  function Head(settings: map<string, Value>, result: Dict): (r: Dict)
    requires settings.Keys == SettingNames
    ensures Shows(r, result, "improved_code", settings["include_code"])
    ensures Shows(r, result, "metrics", settings["include_metrics"])
    ensures r.Keys <= {"improved_code", "metrics"}
  {
    var withCode := IncludeIf(map[], settings["include_code"], "improved_code", Get(result, "improved_code", VNone));
    IncludeIf(withCode, settings["include_metrics"], "metrics", Get(result, "metrics", VNone))
  }

  /** The analyses, each when included, and `valid`. */
  function Tail(settings: map<string, Value>, result: Dict, d: Dict): (r: Dict)
    requires settings.Keys == SettingNames
    ensures "valid" in r && r["valid"] == Get(result, "valid", VNone)
    ensures "security_issues" in r <==> Truthy(settings["include_security_analysis"]) || "security_issues" in d
    ensures "performance_issues" in r <==> Truthy(settings["include_performance_analysis"]) || "performance_issues" in d
    ensures Truthy(settings["include_security_analysis"]) ==> r["security_issues"] == Get(result, "security_issues", VNone)
    ensures Truthy(settings["include_performance_analysis"]) ==>
              r["performance_issues"] == Get(result, "performance_issues", VNone)
    ensures forall k :: k in d ==> k in r
    ensures r.Keys <= d.Keys + {"security_issues", "performance_issues", "valid"}
  {
    var withSecurity := IncludeIf(d, settings["include_security_analysis"], "security_issues",
                                  Get(result, "security_issues", VNone));
    var withPerformance := IncludeIf(withSecurity, settings["include_performance_analysis"], "performance_issues",
                                     Get(result, "performance_issues", VNone));
    withPerformance["valid" := Get(result, "valid", VNone)]
  }

  /** The analyses and `valid` leave every other entry as it was. */
  lemma {:induction false} TailKeeps(settings: map<string, Value>, result: Dict, d: Dict, k: string)
    requires settings.Keys == SettingNames
    requires k in d && k != "security_issues" && k != "performance_issues" && k != "valid"
    ensures Tail(settings, result, d)[k] == d[k]
  {
  }

  /** Capping a list at an integer limit `n` keeps its first `n` entries and notes how many were left out. */
  lemma {:induction false} CappedList(filtered: Dict, result: Dict, key: string, noteKey: string, noun: string,
                                      xs: seq<Value>, n: nat)
    requires key != noteKey && noteKey !in filtered
    requires key in result && result[key] == VList(xs)
    ensures var c := Capped(filtered, result, key, noteKey, noun, VInt(n));
      c.Ok? && c.value[key] == VList(xs[..Min(n, |xs|)])
      && (noteKey in c.value <==> |xs| > n)
      && (|xs| > n ==> c.value[noteKey] == VStr(IntToString(|xs| - n) + " more " + noun))
  {
    CappedValue(filtered, result, key, noteKey, noun, VInt(n));
  }

  /** The capped lists hold the first `n` issues, and the note exactly when there were more. */
  lemma {:induction false} CappedListsIssues(settings: map<string, Value>, result: Dict, issues: seq<Value>, n: nat)
    requires settings.Keys == SettingNames
    requires Truthy(settings["include_issues"]) && settings["max_issues_shown"] == VInt(n)
    requires "issues" in result && result["issues"] == VList(issues)
    requires CappedLists(settings, result, Head(settings, result)).Ok?
    ensures var d := CappedLists(settings, result, Head(settings, result)).value;
      "issues" in d && d["issues"] == VList(issues[..Min(n, |issues|)])
      && ("issues_truncated" in d <==> |issues| > n)
      && (|issues| > n ==> d["issues_truncated"] == VStr(IntToString(|issues| - n) + " more issues"))
  {
    var head := Head(settings, result);
    var first := IssuesCapped(settings, result, head);
    assert first == Capped(head, result, "issues", "issues_truncated", "issues", VInt(n));
    CappedList(head, result, "issues", "issues_truncated", "issues", issues, n);
    var d := CappedLists(settings, result, head).value;
    assert d["issues"] == first.value["issues"];
    if "issues_truncated" in first.value {
      assert d["issues_truncated"] == first.value["issues_truncated"];
    }
  }

  /**
   * The capped lists hold the first `n` suggestions, and the note exactly when there were
   * more: capping the issues first touches neither.
   */
  lemma {:induction false} CappedListsSuggestions(settings: map<string, Value>, result: Dict, suggestions: seq<Value>,
                                                  n: nat)
    requires settings.Keys == SettingNames
    requires Truthy(settings["include_suggestions"]) && settings["max_suggestions_shown"] == VInt(n)
    requires "suggestions" in result && result["suggestions"] == VList(suggestions)
    requires CappedLists(settings, result, Head(settings, result)).Ok?
    ensures var d := CappedLists(settings, result, Head(settings, result)).value;
      "suggestions" in d && d["suggestions"] == VList(suggestions[..Min(n, |suggestions|)])
      && ("suggestions_truncated" in d <==> |suggestions| > n)
      && (|suggestions| > n ==> d["suggestions_truncated"] == VStr(IntToString(|suggestions| - n) + " more suggestions"))
  {
    var head := Head(settings, result);
    var withIssues := IssuesCapped(settings, result, head).value;
    assert "suggestions_truncated" !in withIssues;
    assert CappedLists(settings, result, head)
        == Capped(withIssues, result, "suggestions", "suggestions_truncated", "suggestions", VInt(n));
    CappedList(withIssues, result, "suggestions", "suggestions_truncated", "suggestions", suggestions, n);
  }

  /**
   * With issues included and an integer limit `n`, the filtered issues are the first `n`,
   * and the note appears exactly when there were more.
   */
  lemma {:induction false} SelectionCapsIssues(settings: map<string, Value>, result: Dict, issues: seq<Value>, n: nat)
    requires settings.Keys == SettingNames
    requires Truthy(settings["include_issues"]) && settings["max_issues_shown"] == VInt(n)
    requires "issues" in result && result["issues"] == VList(issues)
    requires Selection(settings, result).Ok?
    ensures var r := Selection(settings, result).value;
      "issues" in r && r["issues"] == VList(issues[..Min(n, |issues|)])
      && ("issues_truncated" in r <==> |issues| > n)
      && (|issues| > n ==> r["issues_truncated"] == VStr(IntToString(|issues| - n) + " more issues"))
  {
    var d := CappedLists(settings, result, Head(settings, result)).value;
    CappedListsIssues(settings, result, issues, n);
    TailKeeps(settings, result, d, "issues");
    if "issues_truncated" in d {
      TailKeeps(settings, result, d, "issues_truncated");
    }
  }

  /**
   * With suggestions included and an integer limit `n`, the filtered suggestions are the
   * first `n`, and the note appears exactly when there were more.
   */
  lemma {:induction false} SelectionCapsSuggestions(settings: map<string, Value>, result: Dict, suggestions: seq<Value>,
                                                    n: nat)
    requires settings.Keys == SettingNames
    requires Truthy(settings["include_suggestions"]) && settings["max_suggestions_shown"] == VInt(n)
    requires "suggestions" in result && result["suggestions"] == VList(suggestions)
    requires Selection(settings, result).Ok?
    ensures var r := Selection(settings, result).value;
      "suggestions" in r && r["suggestions"] == VList(suggestions[..Min(n, |suggestions|)])
      && ("suggestions_truncated" in r <==> |suggestions| > n)
      && (|suggestions| > n ==> r["suggestions_truncated"] == VStr(IntToString(|suggestions| - n) + " more suggestions"))
  {
    var d := CappedLists(settings, result, Head(settings, result)).value;
    CappedListsSuggestions(settings, result, suggestions, n);
    TailKeeps(settings, result, d, "suggestions");
    if "suggestions_truncated" in d {
      TailKeeps(settings, result, d, "suggestions_truncated");
    }
  }
}
