/**
 * The refinement loop and the combined validation of noless/feedback_loops.py.
 *
 * The language model is the parameter `generate(model, prompt)`, which may fail (the
 * exception leaves `refine`); the optional validator and the static analyzer and lint
 * checker of the combined validation are parameters returning a Python value; code
 * execution is the parameter `execute`.
 */
module FeedbackLoops {
  import opened Py
  import opened Schemas
  import CodeValidator

  /** One pass of the refinement loop; `feedback` and `success` are what the validator returned. */
  datatype RefinementStep = RefinementStep(
    iteration: nat,
    code: string,
    feedback: Value,
    improvements: seq<string>,
    success: Value)

  /**
   * Where the source and its evident intent part: `AsWritten` follows the code,
   * `Intended` returns the accepted refinement and reads an unclosed fence to the end.
   */
  datatype Variant = AsWritten | Intended

  // ===========================================================================
  // _extract_code
  // ===========================================================================

  /** `response[start:end]` where `end` is `response.find("```", start)`, which is -1 when absent. */
  function UpToFence(variant: Variant, response: string, start: nat): string {
    match FindFrom(response, "```", start)
    case Some(e) => Slice(response, start, e)
    case None => if variant == AsWritten then Slice(response, start, -1) else Slice(response, start, |response|)
  }

  /** Where the code starts: after the first `python` fence, else after the first fence, if any. */
  function CodeStart(response: string): (r: Option<nat>)
    ensures r.None? <==> !Contains(response, "```")
  {
    NoFenceNoPythonFence(response);
    match FindFrom(response, "```python", 0)
    case Some(i) => Some(i + 9)
    case None =>
      match FindFrom(response, "```", 0)
      case Some(i) => Some(i + 3)
      case None => None
  }

  /**
   * `_extract_code`: the stripped text after the first `python` fence, else after the
   * first fence, up to the next fence; without a fence, the whole stripped reply.
   */
  function ExtractRefined(variant: Variant, response: string): (r: string)
    ensures Strip(r) == r
    ensures !Contains(response, "```") ==> r == Strip(response)
  {
    var body :=
      match CodeStart(response)
      case Some(start) => UpToFence(variant, response, start)
      case None => response;
    StripIdempotent(body);
    Strip(body)
  }

  /** A text without three backticks has no `python` fence either. */
  lemma {:induction false} NoFenceNoPythonFence(s: string)
    ensures !Contains(s, "```") ==> !Contains(s, "```python")
  {
    if Contains(s, "```python") {
      assert "```" + "python" == "```python";
      CodeValidator.FenceMeansBackticks(s, "python");
    }
  }

  /** A reply opening with a `python` fence has its code start after it. */
  lemma {:induction false} PythonFenceFirst(s: string)
    requires |s| >= 9 && s[..9] == "```python"
    ensures CodeStart(s) == Some(9)
  {
    CodeValidator.FindFromIs(s, "```python", 0, 0);
  }

  /** Code in a closed `python` fence is taken exactly, in both readings. */
  lemma {:induction false} ExtractClosedFence(variant: Variant, c: string)
    requires CodeValidator.Fenceable(c)
    ensures ExtractRefined(variant, CodeValidator.Wrapped("python", c)) == c
  {
    var s := CodeValidator.Wrapped("python", c);
    assert s[..9] == "```python";
    PythonFenceFirst(s);
    CodeValidator.WrappedShape("python", c);
    CodeValidator.FirstFenceAfter(s, 9, 11 + |c|);
    assert UpToFence(variant, s, 9) == "\n" + c + "\n" by {
      assert s[9..11 + |c|] == "\n" + c + "\n";
    }
    StripAround(c);
  }

  /** A line break on each side of a stripped text strips away. */
  lemma {:induction false} StripAround(c: string)
    requires c != [] && !IsSpace(c[0]) && !IsSpace(c[|c| - 1])
    ensures Strip("\n" + c + "\n") == c
  {
    var s := "\n" + c + "\n";
    assert s[1..] == c + "\n";
    assert LStrip(s) == LStrip(s[1..]);
    LStripNoop(c + "\n");
    assert (c + "\n")[..|c|] == c;
    CodeValidator.RStripAt(c + "\n", |c|);
  }

  /** A reply that opens a `python` fence and has no backtick after it has no closing fence. */
  lemma {:induction false} NoClosingFence(c: string)
    requires '`' !in c
    ensures var s := "```python" + c;
      CodeStart(s) == Some(9) && FindFrom(s, "```", 9) == None
  {
    var s := "```python" + c;
    assert s[..9] == "```python";
    PythonFenceFirst(s);
    forall j | 9 <= j ensures !At(s, "```", j) {
      CodeValidator.AtStartsWith(s, "```", j);
      if 9 <= j < |s| {
        assert s[j] == c[j - 9];
      }
    }
  }

  /** A leading line break strips away. */
  lemma {:induction false} StripLeadingBreak(t: string)
    ensures Strip("\n" + t) == Strip(t)
  {
    assert ("\n" + t)[1..] == t;
  }

  /** As written, a reply whose fence is not closed loses its last character. */
  lemma {:induction false} UnclosedFenceDropsLast(c: string)
    requires '`' !in c && c != []
    ensures ExtractRefined(AsWritten, "```python" + c) == Strip(c[..|c| - 1])
  {
    var s := "```python" + c;
    NoClosingFence(c);
    assert UpToFence(AsWritten, s, 9) == c[..|c| - 1] by {
      assert s[9..|s| - 1] == c[..|c| - 1];
    }
  }

  /** A line break, then a text whose whitespace is all at its end from `k` on: stripping keeps `t[..k]`. */
  lemma {:induction false} StripBrokenLine(t: string, k: nat)
    requires 0 < k <= |t| && !IsSpace(t[0]) && !IsSpace(t[k - 1])
    requires forall j :: k <= j < |t| ==> IsSpace(t[j])
    ensures Strip("\n" + t) == t[..k]
  {
    StripLeadingBreak(t);
    LStripNoop(t);
    CodeValidator.RStripAt(t, k);
  }

  /** The code of the finding's reply, "\nx = 1", without its last character and stripped. */
  lemma {:induction false} ExampleCut(c: string)
    requires c == "\nx = 1"
    ensures Strip(c[..|c| - 1]) == "x ="
  {
    var cut := c[1..|c| - 1];
    assert c[..|c| - 1] == "\n" + cut;
    assert cut == "x = ";
    StripBrokenLine(cut, 3);
  }

  /** The same code, stripped whole. */
  lemma {:induction false} ExampleWhole(c: string)
    requires c == "\nx = 1"
    ensures Strip(c) == "x = 1"
  {
    var whole := c[1..];
    assert c == "\n" + whole;
    assert whole == "x = 1";
    StripBrokenLine(whole, 5);
  }

  /** The reply "```python\nx = 1" gives "x =" as written and "x = 1" as intended. */
  lemma {:induction false} UnclosedFenceLosesLastChar(c: string)
    requires c == "\nx = 1"
    ensures ExtractRefined(AsWritten, "```python" + c) == "x ="
    ensures ExtractRefined(Intended, "```python" + c) == "x = 1"
  {
    UnclosedFenceDropsLast(c);
    UnclosedFenceIntended(c);
    ExampleCut(c);
    ExampleWhole(c);
  }

  /** Read as intended, an unclosed fence gives everything after it. */
  lemma {:induction false} UnclosedFenceIntended(c: string)
    requires '`' !in c
    ensures ExtractRefined(Intended, "```python" + c) == Strip(c)
  {
    var s := "```python" + c;
    NoClosingFence(c);
    assert UpToFence(Intended, s, 9) == c by { assert s[9..] == c; }
  }

  // ===========================================================================
  // _extract_improvements and _summarize_improvements
  // ===========================================================================

  /** The labels of `_extract_improvements`, in the order it checks them. */
  const ImprovementLabels: seq<string> := [
    "Added error handling",
    "Refactored into more functions",
    "Added documentation",
    "Added/improved type hints",
    "Added more comprehensive implementation"]

  /** The condition of each label, comparing the code before and after a step. */
  function ImprovementChecks(before: string, after: string): (r: seq<bool>)
    ensures |r| == |ImprovementLabels|
  {
    [Contains(after, "try:") && !Contains(before, "try:"),
     Contains(after, "def ") && Count(after, "def ") > Count(before, "def "),
     Contains(after, "\"\"\"") && !Contains(before, "\"\"\""),
     Contains(after, ":") && Count(after, ":") > Count(before, ":"),
     |after| > |before|]
  }

  /** The labels whose condition holds, in label order. */
  function Selected(checks: seq<bool>, labels: seq<string>): (r: seq<string>)
    requires |checks| == |labels|
    ensures |r| <= |labels|
  {
    if checks == [] then [] else (if checks[0] then [labels[0]] else []) + Selected(checks[1..], labels[1..])
  }

  /** Only labels are selected, every label whose condition holds is, and nothing is selected only when none holds. */
  lemma {:induction false} SelectedMembers(checks: seq<bool>, labels: seq<string>)
    requires |checks| == |labels|
    ensures forall x :: x in Selected(checks, labels) ==> x in labels
    ensures forall k :: 0 <= k < |labels| && checks[k] ==> labels[k] in Selected(checks, labels)
    ensures (forall k :: 0 <= k < |checks| ==> !checks[k]) <==> Selected(checks, labels) == []
  {
    if checks != [] {
      SelectedMembers(checks[1..], labels[1..]);
      assert forall k :: 1 <= k < |labels| ==> labels[k] == labels[1..][k - 1] && checks[k] == checks[1..][k - 1];
    }
  }

  /** With distinct labels, a label is selected exactly when its condition holds. */
  lemma {:induction false} SelectedExactly(checks: seq<bool>, labels: seq<string>, k: nat)
    requires |checks| == |labels| && k < |labels|
    requires forall i, j :: 0 <= i < j < |labels| ==> labels[i] != labels[j]
    ensures labels[k] in Selected(checks, labels) <==> checks[k]
  {
    if k > 0 {
      SelectedExactly(checks[1..], labels[1..], k - 1);
      assert labels[1..][k - 1] == labels[k];
    }
    if labels[k] in Selected(checks[1..], labels[1..]) {
      SelectedMembers(checks[1..], labels[1..]);
      assert labels[k] in labels[1..];
      var j :| 0 <= j < |labels[1..]| && labels[1..][j] == labels[k];
      assert labels[j + 1] == labels[k];
    }
  }

  /** `_extract_improvements`: the labels whose condition holds, in order, or else "Code refined". */
  function Improvements(before: string, after: string): (r: seq<string>)
    ensures r != [] && |r| <= |ImprovementLabels|
    ensures r == ["Code refined"] <==> forall k :: 0 <= k < |ImprovementLabels| ==> !ImprovementChecks(before, after)[k]
  {
    var found := Selected(ImprovementChecks(before, after), ImprovementLabels);
    SelectedMembers(ImprovementChecks(before, after), ImprovementLabels);
    assert "Code refined" !in ImprovementLabels;
    if found != [] then found else ["Code refined"]
  }

  /** Each label is reported exactly when its condition holds. */
  lemma {:induction false} ImprovementsExactly(before: string, after: string, k: nat)
    requires k < |ImprovementLabels|
    ensures ImprovementLabels[k] in Improvements(before, after) <==> ImprovementChecks(before, after)[k]
  {
    var checks := ImprovementChecks(before, after);
    SelectedExactly(checks, ImprovementLabels, k);
    if Selected(checks, ImprovementLabels) == [] {
      assert ImprovementLabels[k] != "Code refined";
    }
  }

  /** The appends of `_extract_improvements`: each label whose condition holds, in order. */
  method SelectLabels(checks: seq<bool>, labels: seq<string>) returns (found: seq<string>)
    requires |checks| == |labels|
    ensures found == Selected(checks, labels)
  {
    found := [];
    for k := 0 to |labels|
      invariant found + Selected(checks[k..], labels[k..]) == Selected(checks, labels)
    {
      var head := if checks[k] then [labels[k]] else [];
      var tail := Selected(checks[k + 1..], labels[k + 1..]);
      assert (found + head) + tail == Selected(checks, labels) by {
        SelectedStep(checks, labels, k);
        assert found + (head + tail) == (found + head) + tail;
      }
      found := found + head;
    }
    assert found + Selected(checks[|labels|..], labels[|labels|..]) == found by {
      assert checks[|labels|..] == [];
    }
  }

  /** One step of `Selected` from position `k`. */
  lemma {:induction false} SelectedStep(checks: seq<bool>, labels: seq<string>, k: nat)
    requires |checks| == |labels| && k < |labels|
    ensures Selected(checks[k..], labels[k..])
         == (if checks[k] then [labels[k]] else []) + Selected(checks[k + 1..], labels[k + 1..])
  {
    assert checks[k..][1..] == checks[k + 1..] && labels[k..][1..] == labels[k + 1..];
  }

  /** `_extract_improvements` as the source runs it. */
  method ExtractImprovements(before: string, after: string) returns (r: seq<string>)
    ensures r == Improvements(before, after)
  {
    var found := SelectLabels(ImprovementChecks(before, after), ImprovementLabels);
    r := if found != [] then found else ["Code refined"];
  }

  /** Unchanged code shows no improvement. */
  lemma {:induction false} UnchangedCodeIsJustRefined(code: string)
    ensures Improvements(code, code) == ["Code refined"]
  {
  }

  /**
   * `_summarize_improvements`: "Code refined" without any label, otherwise the labels
   * joined with " → " in the unspecified order of a Python set.
   */
  datatype Summary = CodeRefined | Joined(labels: set<string>)

  /** Every label of every recorded step. */
  function AllLabels(history: seq<RefinementStep>): (r: seq<string>)
    ensures forall k, j :: 0 <= k < |history| && 0 <= j < |history[k].improvements| ==>
              history[k].improvements[j] in r
  {
    if history == [] then []
    else
      var rest := AllLabels(history[1..]);
      assert forall k :: 1 <= k < |history| ==> history[k] == history[1..][k - 1];
      history[0].improvements + rest
  }

  function Summarize(history: seq<RefinementStep>): (r: Summary)
    ensures r == CodeRefined <==> AllLabels(history) == []
    ensures r.Joined? ==> r.labels != {} && forall x :: x in r.labels <==> x in AllLabels(history)
  {
    var labels := AllLabels(history);
    var distinct := set x | x in labels;
    if labels == [] then CodeRefined
    else
      assert labels[0] in distinct;
      Joined(distinct)
  }

  // ===========================================================================
  // refine
  // ===========================================================================

  datatype Oracles = Oracles(
    generate: (string, string) -> Result<string, string>,
    validator: Option<string -> Value>,
    repr: Value -> string)

  /** The prompt of `_generate_refinement`: it quotes the code and shows the feedback. */
  function RefinePrompt(code: string, feedback: Value, context: map<string, Value>, repr: Value -> string): (r: string)
    ensures Contains(r, CodeValidator.Quoted(code)) && Contains(r, Str(feedback, repr))
  {
    var head := "\nRefine this code based on the feedback provided.\n\nOriginal Code:\n";
    ContainsPieces(head, CodeValidator.Quoted(code), "\n\nFeedback/Issue:\n", Str(feedback, repr), RefineContext(context, repr));
    head + CodeValidator.Quoted(code) + "\n\nFeedback/Issue:\n" + Str(feedback, repr) + RefineContext(context, repr)
  }

  /** What the refinement prompt says after the feedback: the task, the framework and the request. */
  function RefineContext(context: map<string, Value>, repr: Value -> string): string {
    "\n\nContext:\n- Task: " + Str(Get(context, "task", VStr("ML")), repr)
    + "\n- Framework: " + Str(Get(context, "framework", VStr("pytorch")), repr)
    + "\n\nGenerate improved code that addresses the feedback. Return only the Python code, no explanations.\n"
  }

  /** One iteration either raises (the model or a non-dict validator result) or yields a step. */
  datatype Attempt = Raised(error: string) | Stepped(step: RefinementStep)

  /**
   * Iteration `iteration` of `refine`: generate from the current code and feedback, extract
   * the code, validate it (success without a validator), and record the improvements.
   */
  function AttemptAt(variant: Variant, iteration: nat, current: string, feedback: Value, context: map<string, Value>,
                     model: string, o: Oracles): (a: Attempt)
    ensures a.Stepped? ==> a.step.iteration == iteration
    ensures a.Stepped? && o.validator.None? ==> Truthy(a.step.success)
  {
    match o.generate(model, RefinePrompt(current, feedback, context, o.repr))
    case Err(e) => Raised(e)
    case Ok(reply) =>
      var refined := ExtractRefined(variant, reply);
      Judged(iteration, refined, Improvements(current, refined), o.validator)
  }

  /** The step an iteration records once it has refined code: judged by the validator, if any. */
  function Judged(iteration: nat, refined: string, improvements: seq<string>, validator: Option<string -> Value>)
    : (a: Attempt)
    ensures a.Stepped? ==> a.step.iteration == iteration && a.step.code == refined
    ensures a.Stepped? && validator.None? ==> Truthy(a.step.success)
  {
    match validator
    case None => Stepped(RefinementStep(iteration, refined, VStr("Code passed basic validation"), improvements, VBool(true)))
    case Some(validate) =>
      match validate(refined)
      case VDict(d) =>
        Stepped(RefinementStep(iteration, refined, Get(d, "feedback", VStr("")), improvements,
                               Get(d, "success", VBool(false))))
      case _ => Raised("AttributeError")
  }

  /** One iteration of `refine` as a function of its number, the current code and the feedback. */
  function Iteration(variant: Variant, context: map<string, Value>, model: string, o: Oracles)
    : (nat, string, Value) -> Attempt
  {
    (i: nat, current: string, feedback: Value) => AttemptAt(variant, i, current, feedback, context, model, o)
  }

  /** Each step an iteration yields carries the number of that iteration. */
  ghost predicate Numbered(attempt: (nat, string, Value) -> Attempt) {
    forall i, current, feedback :: attempt(i, current, feedback).Stepped? ==>
      attempt(i, current, feedback).step.iteration == i
  }

  lemma {:induction false} IterationNumbered(variant: Variant, context: map<string, Value>, model: string, o: Oracles)
    ensures Numbered(Iteration(variant, context, model, o))
  {
  }

  /** What `refine` returns besides the history: the code, the iteration count and the last success value. */
  datatype Refined = Refined(code: string, iterations: nat, success: Value)

  /** The steps a run records, and how it ends. */
  datatype Run = Run(steps: seq<RefinementStep>, outcome: Result<Refined, string>)

  function Then(steps: seq<RefinementStep>, run: Run): Run {
    Run(steps + run.steps, run.outcome)
  }

  lemma {:induction false} ThenAppend(done: seq<RefinementStep>, step: RefinementStep, run: Run)
    ensures Then(done, Then([step], run)) == Then(done + [step], run)
  {
    assert done + ([step] + run.steps) == done + [step] + run.steps;
  }

  /** The end of the loop: `success` is unbound when no iteration ran. */
  function Ended(current: string, iteration: nat, success: Option<Value>): Result<Refined, string> {
    match success
    case None => Err("UnboundLocalError")
    case Some(s) => Ok(Refined(current, iteration, s))
  }

  predicate Succeeded(success: Option<Value>) {
    success.Some? && Truthy(success.value)
  }

  /**
   * The loop of `refine` from the state after `iteration` iterations. As written, a
   * successful step does not become the current code; as intended, it does.
   */
  function RefineFrom(variant: Variant, iteration: nat, current: string, feedback: Value, success: Option<Value>,
                      maxIterations: int, attempt: (nat, string, Value) -> Attempt): (run: Run)
    ensures |run.steps| <= Max(0, maxIterations - iteration)
    decreases maxIterations - iteration
  {
    if iteration >= maxIterations || Succeeded(success) then Run([], Ended(current, iteration, success))
    else
      match attempt(iteration + 1, current, feedback)
      case Raised(e) => Run([], Err(e))
      case Stepped(step) =>
        var next := if Truthy(step.success) && variant == AsWritten then current else step.code;
        Then([step], RefineFrom(variant, iteration + 1, next, step.feedback, Some(step.success), maxIterations, attempt))
  }

  /** The whole loop of `refine`. */
  function RefineRun(variant: Variant, code: string, feedback: string, context: map<string, Value>, model: string,
                     maxIterations: int, o: Oracles): Run {
    RefineFrom(variant, 0, code, VStr(feedback), None, maxIterations, Iteration(variant, context, model, o))
  }

  /** The dict `refine` returns. */
  datatype RefineResult = RefineResult(
    refinedCode: string,
    iterations: nat,
    success: Value,
    history: seq<RefinementStep>,
    improvements: Summary)

  /** The steps carry the numbers `first`, `first + 1`, ... in order. */
  ghost predicate NumberedFrom(steps: seq<RefinementStep>, first: int) {
    forall k :: 0 <= k < |steps| ==> steps[k].iteration == first + k
  }

  /** The steps are numbered from one more than the iterations already made, one by one. */
  lemma {:induction false} StepsNumbered(variant: Variant, iteration: nat, current: string, feedback: Value,
                                         success: Option<Value>, maxIterations: int,
                                         attempt: (nat, string, Value) -> Attempt)
    requires Numbered(attempt)
    ensures NumberedFrom(RefineFrom(variant, iteration, current, feedback, success, maxIterations, attempt).steps,
                         iteration + 1)
    decreases maxIterations - iteration
  {
    if !(iteration >= maxIterations || Succeeded(success)) {
      var a := attempt(iteration + 1, current, feedback);
      if a.Stepped? {
        var step := a.step;
        var next := if Truthy(step.success) && variant == AsWritten then current else step.code;
        var rest := RefineFrom(variant, iteration + 1, next, step.feedback, Some(step.success), maxIterations, attempt);
        StepsNumbered(variant, iteration + 1, next, step.feedback, Some(step.success), maxIterations, attempt);
        var run := RefineFrom(variant, iteration, current, feedback, success, maxIterations, attempt);
        assert run == Then([step], rest);
        assert step.iteration == iteration + 1;
        forall k | 1 <= k < |run.steps| ensures run.steps[k].iteration == iteration + 1 + k {
          assert run.steps[k] == rest.steps[k - 1];
        }
      }
    }
  }

  /** Every step but the last failed. */
  predicate FailedBeforeLast(steps: seq<RefinementStep>) {
    forall k :: 0 <= k < |steps| - 1 ==> !Truthy(steps[k].success)
  }

  /** The loop stops at the first successful step: every earlier step failed. */
  lemma {:induction false} StopsAtFirstSuccess(variant: Variant, iteration: nat, current: string, feedback: Value,
                                               success: Option<Value>, maxIterations: int,
                                               attempt: (nat, string, Value) -> Attempt)
    ensures FailedBeforeLast(RefineFrom(variant, iteration, current, feedback, success, maxIterations, attempt).steps)
    decreases maxIterations - iteration
  {
    var run := RefineFrom(variant, iteration, current, feedback, success, maxIterations, attempt);
    if !(iteration >= maxIterations || Succeeded(success)) {
      var a := attempt(iteration + 1, current, feedback);
      if a.Stepped? {
        var step := a.step;
        var next := if Truthy(step.success) && variant == AsWritten then current else step.code;
        StopsAtFirstSuccess(variant, iteration + 1, next, step.feedback, Some(step.success), maxIterations, attempt);
        var rest := RefineFrom(variant, iteration + 1, next, step.feedback, Some(step.success), maxIterations, attempt);
        assert run == Then([step], rest);
        if Truthy(step.success) {
          assert rest.steps == [];
        }
        assert forall k :: 1 <= k < |run.steps| ==> run.steps[k] == rest.steps[k - 1];
      }
    }
  }

  /**
   * A run that returns a truthy success ends with a successful step and reports the
   * iterations it made. As written it returns the code the successful step started
   * from; as intended, the successful step's code.
   */
  lemma {:induction false} RunOutcome(variant: Variant, iteration: nat, current: string, feedback: Value,
                                      success: Option<Value>, maxIterations: int,
                                      attempt: (nat, string, Value) -> Attempt)
    requires !Succeeded(success)
    ensures var run := RefineFrom(variant, iteration, current, feedback, success, maxIterations, attempt);
      run.outcome.Ok? && Truthy(run.outcome.value.success)
      ==> run.steps != [] && Truthy(run.steps[|run.steps| - 1].success)
          && run.outcome.value.iterations == iteration + |run.steps|
          && run.outcome.value.code == (if variant == Intended then run.steps[|run.steps| - 1].code
                                        else if |run.steps| == 1 then current
                                        else run.steps[|run.steps| - 2].code)
    decreases maxIterations - iteration
  {
    var run := RefineFrom(variant, iteration, current, feedback, success, maxIterations, attempt);
    if !(iteration >= maxIterations || Succeeded(success)) {
      var a := attempt(iteration + 1, current, feedback);
      if a.Stepped? {
        var step := a.step;
        var next := if Truthy(step.success) && variant == AsWritten then current else step.code;
        var rest := RefineFrom(variant, iteration + 1, next, step.feedback, Some(step.success), maxIterations, attempt);
        assert run == Then([step], rest);
        if !Truthy(step.success) {
          RunOutcome(variant, iteration + 1, next, step.feedback, Some(step.success), maxIterations, attempt);
          if rest.outcome.Ok? && Truthy(rest.outcome.value.success) {
            assert run.steps[|run.steps| - 1] == rest.steps[|rest.steps| - 1];
            if |rest.steps| >= 2 {
              assert run.steps[|run.steps| - 2] == rest.steps[|rest.steps| - 2];
            } else {
              assert run.steps[0] == step;
            }
          }
        }
      }
    }
  }

  /** The iteration count a run returns never passes the bound. */
  lemma {:induction false} IterationsWithinBound(variant: Variant, iteration: nat, current: string, feedback: Value,
                                                 success: Option<Value>, maxIterations: int,
                                                 attempt: (nat, string, Value) -> Attempt)
    ensures var run := RefineFrom(variant, iteration, current, feedback, success, maxIterations, attempt);
      run.outcome.Ok? ==> iteration <= run.outcome.value.iterations <= Max(iteration, maxIterations)
    decreases maxIterations - iteration
  {
    if !(iteration >= maxIterations || Succeeded(success)) {
      var a := attempt(iteration + 1, current, feedback);
      if a.Stepped? {
        var step := a.step;
        var next := if Truthy(step.success) && variant == AsWritten then current else step.code;
        IterationsWithinBound(variant, iteration + 1, next, step.feedback, Some(step.success), maxIterations, attempt);
      }
    }
  }

  /** A run of `refine` that returns has made between one and `maxIterations` iterations. */
  lemma {:induction false} RunIterationsBounded(variant: Variant, code: string, feedback: Value, maxIterations: int,
                             attempt: (nat, string, Value) -> Attempt)
    ensures var run := RefineFrom(variant, 0, code, feedback, None, maxIterations, attempt);
      run.outcome.Ok? ==> 1 <= run.outcome.value.iterations <= maxIterations
  {
    IterationsWithinBound(variant, 0, code, feedback, None, maxIterations, attempt);
    if 0 < maxIterations {
      var a := attempt(1, code, feedback);
      if a.Stepped? {
        var step := a.step;
        var next := if Truthy(step.success) && variant == AsWritten then code else step.code;
        IterationsWithinBound(variant, 1, next, step.feedback, Some(step.success), maxIterations, attempt);
      }
    }
  }

  /** With no iteration allowed, `success` is never bound and `refine` raises. */
  lemma {:induction false} NoIterationsRaises(variant: Variant, code: string, feedback: string, context: map<string, Value>, model: string,
                           maxIterations: int, o: Oracles)
    requires maxIterations <= 0
    ensures RefineRun(variant, code, feedback, context, model, maxIterations, o) == Run([], Err("UnboundLocalError"))
  {
  }

  /**
   * Without a validator the first step succeeds and the loop stops there. As written,
   * the returned code is then the input code, not the refinement.
   */
  lemma {:induction false} NoValidatorOneStep(variant: Variant, code: string, feedback: string, context: map<string, Value>, model: string,
                           maxIterations: int, o: Oracles)
    requires maxIterations >= 1 && o.validator.None?
    requires o.generate(model, RefinePrompt(code, VStr(feedback), context, o.repr)).Ok?
    ensures var run := RefineRun(variant, code, feedback, context, model, maxIterations, o);
      var reply := o.generate(model, RefinePrompt(code, VStr(feedback), context, o.repr)).value;
      |run.steps| == 1 && run.steps[0].code == ExtractRefined(variant, reply)
      && run.outcome == Ok(Refined(if variant == AsWritten then code else ExtractRefined(variant, reply), 1, VBool(true)))
  {
    var reply := o.generate(model, RefinePrompt(code, VStr(feedback), context, o.repr)).value;
    var refined := ExtractRefined(variant, reply);
    var step := RefinementStep(1, refined, VStr("Code passed basic validation"), Improvements(code, refined), VBool(true));
    AttemptWithoutValidator(variant, 1, code, VStr(feedback), context, model, o);
    var attempt := Iteration(variant, context, model, o);
    assert attempt(1, code, VStr(feedback)) == Stepped(step);
    FirstStepSucceeds(variant, code, VStr(feedback), maxIterations, attempt);
  }

  /** Without a validator, an iteration whose generation succeeds yields a successful step. */
  lemma {:induction false} AttemptWithoutValidator(variant: Variant, iteration: nat, current: string, feedback: Value,
                                context: map<string, Value>, model: string, o: Oracles)
    requires o.validator.None?
    requires o.generate(model, RefinePrompt(current, feedback, context, o.repr)).Ok?
    ensures var refined := ExtractRefined(variant, o.generate(model, RefinePrompt(current, feedback, context, o.repr)).value);
      AttemptAt(variant, iteration, current, feedback, context, model, o)
      == Stepped(RefinementStep(iteration, refined, VStr("Code passed basic validation"), Improvements(current, refined),
                                VBool(true)))
  {
  }

  /** A first step that succeeds is the only one; the run reports one iteration. */
  lemma {:induction false} FirstStepSucceeds(variant: Variant, code: string, feedback: Value, maxIterations: int,
                          attempt: (nat, string, Value) -> Attempt)
    requires maxIterations >= 1
    requires attempt(1, code, feedback).Stepped? && Truthy(attempt(1, code, feedback).step.success)
    ensures var step := attempt(1, code, feedback).step;
      RefineFrom(variant, 0, code, feedback, None, maxIterations, attempt)
      == Run([step], Ok(Refined(if variant == AsWritten then code else step.code, 1, step.success)))
  {
    var step := attempt(1, code, feedback).step;
    var next := if variant == AsWritten then code else step.code;
    assert RefineFrom(variant, 1, next, step.feedback, Some(step.success), maxIterations, attempt)
        == Run([], Ok(Refined(next, 1, step.success)));
  }

  /** A failed step hands its code and its feedback to the next iteration. */
  lemma {:induction false} FailureFeedsNextIteration(variant: Variant, iteration: nat, current: string, feedback: Value,
                                  maxIterations: int, attempt: (nat, string, Value) -> Attempt)
    requires iteration < maxIterations
    requires attempt(iteration + 1, current, feedback).Stepped?
    requires !Truthy(attempt(iteration + 1, current, feedback).step.success)
    ensures var step := attempt(iteration + 1, current, feedback).step;
      RefineFrom(variant, iteration, current, feedback, None, maxIterations, attempt)
      == Then([step], RefineFrom(variant, iteration + 1, step.code, step.feedback, Some(step.success),
                                 maxIterations, attempt))
  {
  }

  /** `IterativeFeedbackLoop`: its settings and the history of every step of every call. */
  class IterativeFeedbackLoop {
    const maxIterations: int
    const oracles: Oracles
    var history: seq<RefinementStep>

    constructor(oracles: Oracles, maxIterations: int := 3)
      ensures this.maxIterations == maxIterations && this.oracles == oracles && history == []
    {
      this.maxIterations := maxIterations;
      this.oracles := oracles;
      history := [];
    }

    /**
     * `refine`: at most `maxIterations` model calls; each iteration appends one step to the
     * history, which keeps the steps of earlier calls.
     */
    method Refine(code: string, initialFeedback: string, taskContext: map<string, Value>, model: string := "llama2")
      returns (r: Result<RefineResult, string>, calls: nat)
      modifies this
      ensures var run := RefineRun(AsWritten, code, initialFeedback, taskContext, model, maxIterations, oracles);
        && history == old(history) + run.steps
        && r == Returned(run.outcome, history)
      ensures calls <= Max(0, maxIterations)
    {
      r, calls := Loop(code, VStr(initialFeedback), Iteration(AsWritten, taskContext, model, oracles));
    }

    /** The loop of `refine`, for any way `attempt` of running one iteration. */
    method Loop(code: string, initialFeedback: Value, attempt: (nat, string, Value) -> Attempt)
      returns (r: Result<RefineResult, string>, calls: nat)
      modifies this
      ensures var run := RefineFrom(AsWritten, 0, code, initialFeedback, None, maxIterations, attempt);
        && history == old(history) + run.steps
        && r == Returned(run.outcome, history)
      ensures calls <= Max(0, maxIterations)
    {
      ghost var run := RefineFrom(AsWritten, 0, code, initialFeedback, None, maxIterations, attempt);
      var current := code;
      var feedback := initialFeedback;
      var iteration: nat := 0;
      var success: Option<Value> := None;
      ghost var done: seq<RefinementStep> := [];
      calls := 0;
      assert Then(done, run) == run by { assert done + run.steps == run.steps; }
      while iteration < maxIterations && !Succeeded(success)
        invariant history == old(history) + done
        invariant Then(done, RefineFrom(AsWritten, iteration, current, feedback, success, maxIterations, attempt)) == run
        invariant calls == iteration <= Max(0, maxIterations)
        decreases maxIterations - iteration
      {
        ghost var rest := RefineFrom(AsWritten, iteration, current, feedback, success, maxIterations, attempt);
        ghost var before := done;
        iteration := iteration + 1;
        var a := attempt(iteration, current, feedback);
        calls := calls + 1;
        if a.Raised? {
          assert rest == Run([], Err(a.error));
          assert done + [] == done;
          r := Err(a.error);
          return;
        }
        var step := a.step;
        history := history + [step];
        done := done + [step];
        success := Some(step.success);
        if !Truthy(step.success) {
          current := step.code;
        }
        feedback := step.feedback;
        ghost var next := RefineFrom(AsWritten, iteration, current, feedback, success, maxIterations, attempt);
        assert rest == Then([step], next);
        ThenAppend(before, step, next);
      }
      assert RefineFrom(AsWritten, iteration, current, feedback, success, maxIterations, attempt)
          == Run([], Ended(current, iteration, success));
      assert run.steps == done && run.outcome == Ended(current, iteration, success);
      r := match success
           case None => Err("UnboundLocalError")
           case Some(s) => Ok(RefineResult(current, iteration, s, history, Summarize(history)));
    }
  }

  /** The dict `refine` returns for a run's outcome, with the loop's history afterwards. */
  function Returned(outcome: Result<Refined, string>, history: seq<RefinementStep>): Result<RefineResult, string> {
    match outcome
    case Err(e) => Err(e)
    case Ok(x) => Ok(RefineResult(x.code, x.iterations, x.success, history, Summarize(history)))
  }

  // ===========================================================================
  // HybridValidation.validate_comprehensive
  // ===========================================================================

  /** What `ExecutionFeedbackValidator.validate` returns. */
  datatype Execution = Execution(success: bool, feedback: string, errors: seq<string>)

  /**
   * `results[key].extend(v)`: a list gives its items, a string its characters, a dict its
   * keys in their insertion order `order`; anything else is not iterable.
   */
  function Extension(v: Value, order: seq<string>): (r: Result<seq<Value>, string>)
    requires v.VDict? ==> KeyOrder(order, v.entries)
    ensures r.Err? <==> !(v.VList? || v.VStr? || v.VDict?)
    ensures v.VList? ==> r == Ok(v.items)
    ensures v.VStr? ==> r.Ok? && |r.value| == |v.s| && forall i :: 0 <= i < |v.s| ==> r.value[i] == VStr([v.s[i]])
    ensures v.VDict? ==> r.Ok? && |r.value| == |order| && (forall i :: 0 <= i < |order| ==> r.value[i] == VStr(order[i]))
                         && forall k :: k in v.entries <==> VStr(k) in r.value
  {
    match v
    case VList(xs) => Ok(xs)
    case VStr(s) => Ok(seq(|s|, k requires 0 <= k < |s| => VStr([s[k]])))
    case VDict(_) => Ok(seq(|order|, k requires 0 <= k < |order| => VStr(order[k])))
    case _ => Err("TypeError")
  }

  /** `order` lists the keys of `result[key]` when that is a dict. */
  predicate OrdersEntry(result: Value, key: string, order: seq<string>) {
    result.VDict? && key in result.entries && result.entries[key].VDict? ==>
      KeyOrder(order, result.entries[key].entries)
  }

  /**
   * The entries `results[key]` gains from a checker's result: nothing unless its `key` entry
   * is truthy; `order` is the insertion order of that entry when it is a dict.
   */
  function Gathered(result: Value, key: string, order: seq<string>): Result<seq<Value>, string>
    requires OrdersEntry(result, key, order)
  {
    match result
    case VDict(d) => if Truthy(Get(d, key, VNone)) then Extension(d[key], order) else Ok([])
    case _ => Err("AttributeError")
  }

  datatype Comprehensive = Comprehensive(
    staticAnalysis: Value,
    execution: Execution,
    linting: Value,
    overallSuccess: bool,
    issues: seq<Value>,
    warnings: seq<Value>)

  /**
   * `validate_comprehensive`: the static issues, then the execution feedback when execution
   * failed; the lint warnings; success exactly when there is no issue.
   */
  function ValidateComprehensive(code: string, staticAnalyzer: Option<string -> Value>, execute: string -> Execution,
                                 lintChecker: Option<string -> Value>, issueOrder: seq<string>, warningOrder: seq<string>)
    : (r: Result<Comprehensive, string>)
    requires staticAnalyzer.Some? ==> OrdersEntry(staticAnalyzer.value(code), "issues", issueOrder)
    requires lintChecker.Some? ==> OrdersEntry(lintChecker.value(code), "warnings", warningOrder)
    ensures r.Ok? ==> (r.value.overallSuccess <==> r.value.issues == [])
    ensures r.Ok? ==> r.value.execution == execute(code)
    ensures r.Ok? && !execute(code).success ==>
              |r.value.issues| >= 1 && r.value.issues[|r.value.issues| - 1] == VStr(execute(code).feedback)
    ensures r.Ok? && staticAnalyzer.None? ==>
              r.value.issues == (if execute(code).success then [] else [VStr(execute(code).feedback)])
    ensures r.Ok? && lintChecker.None? ==> r.value.warnings == [] && r.value.linting == VNone
  {
    var analysis := if staticAnalyzer.Some? then staticAnalyzer.value(code) else VNone;
    var staticIssues := if staticAnalyzer.Some? then Gathered(analysis, "issues", issueOrder) else Ok([]);
    if staticIssues.Err? then Err(staticIssues.error)
    else
      var execution := execute(code);
      var issues := staticIssues.value + (if execution.success then [] else [VStr(execution.feedback)]);
      var linting := if lintChecker.Some? then lintChecker.value(code) else VNone;
      var warnings := if lintChecker.Some? then Gathered(linting, "warnings", warningOrder) else Ok([]);
      if warnings.Err? then Err(warnings.error)
      else Ok(Comprehensive(analysis, execution, linting, issues == [], issues, warnings.value))
  }

  /** The issues are the static issues followed by the failed execution's feedback. */
  lemma {:induction false} ComprehensiveIssues(code: string, staticAnalyzer: string -> Value, execute: string -> Execution,
                            lintChecker: Option<string -> Value>, warningOrder: seq<string>, found: seq<Value>)
    requires staticAnalyzer(code).VDict? && "issues" in staticAnalyzer(code).entries
    requires staticAnalyzer(code).entries["issues"] == VList(found) && found != []
    requires lintChecker.Some? ==> OrdersEntry(lintChecker.value(code), "warnings", warningOrder)
    requires ValidateComprehensive(code, Some(staticAnalyzer), execute, lintChecker, [], warningOrder).Ok?
    ensures var r := ValidateComprehensive(code, Some(staticAnalyzer), execute, lintChecker, [], warningOrder).value;
      r.issues == found + (if execute(code).success then [] else [VStr(execute(code).feedback)])
      && !r.overallSuccess
  {
  }

  /** A dict of static issues contributes its keys, in insertion order, ahead of any execution feedback. */
  lemma {:induction false} ComprehensiveDictIssues(code: string, staticAnalyzer: string -> Value, execute: string -> Execution,
                            lintChecker: Option<string -> Value>, issueOrder: seq<string>, warningOrder: seq<string>,
                            found: map<string, Value>)
    requires staticAnalyzer(code).VDict? && "issues" in staticAnalyzer(code).entries
    requires staticAnalyzer(code).entries["issues"] == VDict(found) && found != map[]
    requires KeyOrder(issueOrder, found)
    requires lintChecker.Some? ==> OrdersEntry(lintChecker.value(code), "warnings", warningOrder)
    requires ValidateComprehensive(code, Some(staticAnalyzer), execute, lintChecker, issueOrder, warningOrder).Ok?
    ensures var r := ValidateComprehensive(code, Some(staticAnalyzer), execute, lintChecker, issueOrder, warningOrder).value;
      |r.issues| == |issueOrder| + (if execute(code).success then 0 else 1)
      && (forall i :: 0 <= i < |issueOrder| ==> r.issues[i] == VStr(issueOrder[i]))
      && !r.overallSuccess
  {
    var gained := Gathered(staticAnalyzer(code), "issues", issueOrder);
    assert gained == Extension(VDict(found), issueOrder);
  }
}
