/**
 * The code validator of noless/code_validator.py around the reply parsing: the
 * extraction of code from a model's reply, the bounded fix loop, the choice of a
 * reviewer model, and the result shaping of `validate_and_improve`.
 *
 * The language models are parameters: `review` answers the review prompt,
 * `generate(attempt, prompt)` answers fix attempt `attempt`; an `Err` is the exception
 * the client raised.
 */
module CodeValidator {
  import opened Py
  import opened Schemas
  import opened ResponseParsing

  // ===========================================================================
  // _extract_code_from_response
  // ===========================================================================

  /** The generic-fence stage accepts code that mentions a definition or an import. */
  predicate LooksLikePython(code: string) {
    Contains(code, "def ") || Contains(code, "import ") || Contains(code, "class ") || StartsWith(code, "import")
  }

  /**
   * The code in a reply: the block of the first `python` fence, else the block of the
   * first fence when it looks like Python, else the whole stripped reply when it
   * mentions a function or class and spans more than three lines. The code is always
   * stripped, and a reply without a fence can only be taken whole.
   */
  function ExtractCode(response: string): (r: Option<string>)
    ensures r.Some? ==> Strip(r.value) == r.value
    ensures r.Some? && !Contains(Strip(response), "```") ==> r.value == Strip(response)
  {
    var s := Strip(response);
    StripIdempotent(response);
    match FencedBlock(s, "python")
    case Some(b) =>
      BlockIsStripped(b);
      FenceMeansBackticks(s, "python");
      Some(Strip(b))
    case None =>
      var generic := FencedBlock(s, "");
      if generic.Some? && LooksLikePython(Strip(generic.value)) then
        BlockIsStripped(generic.value);
        FenceMeansBackticks(s, "");
        Some(Strip(generic.value))
      else if (Contains(s, "def ") || Contains(s, "class ")) && Count(s, "\n") > 2 then Some(s)
      else None
  }

  /** A fenced block has no surrounding whitespace, so stripping it changes nothing. */
  lemma {:induction false} BlockIsStripped(b: string)
    requires b != [] ==> !IsSpace(b[0]) && !IsSpace(b[|b| - 1])
    ensures Strip(b) == b
  {
    if b == [] {
      assert LStrip(b) == b;
    } else {
      StripNoop(b);
    }
  }

  /** A text holding an opening fence holds three backticks. */
  lemma {:induction false} FenceMeansBackticks(s: string, tag: string)
    requires Contains(s, "```" + tag)
    ensures Contains(s, "```")
  {
    var i := FindFrom(s, "```" + tag, 0).value;
    assert s[i..i + 3] == ("```" + tag)[..3];
    assert At(s, "```", i);
  }

  /** The first occurrence is the one at `q` when `p` occurs there and nowhere before it. */
  lemma {:induction false} FindFromIs(s: string, p: string, start: nat, q: nat)
    requires start <= q && At(s, p, q)
    requires forall j :: start <= j < q ==> !At(s, p, j)
    ensures FindFrom(s, p, start) == Some(q)
  {
  }

  /** Stripping the end of `x` stops at the last non-space character, at `k`. */
  lemma {:induction false} RStripAt(x: string, k: nat)
    requires 0 < k <= |x| && !IsSpace(x[k - 1])
    requires forall j :: k <= j < |x| ==> IsSpace(x[j])
    ensures RStrip(x) == x[..k]
  {
    var r := RStrip(x);
    assert |r| == k;
  }

  /** Code with no backtick and no surrounding whitespace, wrapped in a fence. */
  predicate Fenceable(c: string) {
    c != [] && !IsSpace(c[0]) && !IsSpace(c[|c| - 1]) && '`' !in c
  }

  function Wrapped(tag: string, c: string): string {
    "```" + tag + "\n" + c + "\n```"
  }

  /** A block wrapped in a fence is recovered whole. */
  lemma {:induction false} WrappedBlock(tag: string, c: string)
    requires Fenceable(c) && '`' !in tag
    ensures FencedBlock(Wrapped(tag, c), tag) == Some(c)
  {
    var s := Wrapped(tag, c);
    var n := |tag|;
    OpeningFence(tag, c);
    WrappedBodyStart(tag, c);
    WrappedShape(tag, c);
    FirstFenceAfter(s, 4 + n, 5 + n + |c|);
    WrappedBody(tag, c);
  }

  /** The block starts after the newline that ends the opening line. */
  lemma {:induction false} WrappedBodyStart(tag: string, c: string)
    requires Fenceable(c)
    ensures SkipSpaces(Wrapped(tag, c), 3 + |tag|) == 4 + |tag|
  {
    var s := Wrapped(tag, c);
    assert s[3 + |tag|] == '\n' && s[4 + |tag|] == c[0];
  }

  /** Stripping the end of the text before the closing fence leaves the block. */
  lemma {:induction false} WrappedBody(tag: string, c: string)
    requires Fenceable(c)
    ensures RStrip(Wrapped(tag, c)[4 + |tag|..5 + |tag| + |c|]) == c
  {
    var s := Wrapped(tag, c);
    assert s[4 + |tag|..5 + |tag| + |c|] == c + "\n";
    RStripAt(c + "\n", |c|);
    assert (c + "\n")[..|c|] == c;
  }

  lemma {:induction false} OpeningFence(tag: string, c: string)
    ensures FindFrom(Wrapped(tag, c), "```" + tag, 0) == Some(0)
  {
    var s := Wrapped(tag, c);
    assert s[..3 + |tag|] == "```" + tag;
    FindFromIs(s, "```" + tag, 0, 0);
  }

  /** Between the opening line and the closing fence of a wrapped block there is no backtick. */
  lemma {:induction false} WrappedShape(tag: string, c: string)
    requires '`' !in c
    ensures var s := Wrapped(tag, c);
      |s| == 8 + |tag| + |c| && s[5 + |tag| + |c|..8 + |tag| + |c|] == "```"
      && forall j :: 4 + |tag| <= j < 5 + |tag| + |c| ==> s[j] != '`'
  {
    var pre := "```" + tag + "\n";
    var body := pre + c + "\n";
    var s := body + "```";
    assert Wrapped(tag, c) == s;
    BodyHasNoBacktick(pre, c, "\n");
    assert forall j :: |pre| <= j < |body| ==> s[j] == body[j];
    assert s[|body|..] == "```";
  }

  lemma {:induction false} BodyHasNoBacktick(pre: string, c: string, post: string)
    requires '`' !in c && post != [] && post[0] != '`'
    ensures forall j :: |pre| <= j < |pre| + |c| + 1 ==> (pre + c + post)[j] != '`'
  {
    forall j | |pre| <= j < |pre| + |c| + 1 ensures (pre + c + post)[j] != '`' {
      if j < |pre| + |c| {
        assert (pre + c + post)[j] == c[j - |pre|];
        assert c[j - |pre|] in c;
      } else {
        assert (pre + c + post)[j] == post[0];
      }
    }
  }

  /** With no backtick in `s[a..b]` and a fence at `b`, the first fence at or after `a` is at `b`. */
  lemma {:induction false} FirstFenceAfter(s: string, a: nat, b: nat)
    requires a <= b && b + 3 <= |s| && s[b..b + 3] == "```"
    requires forall j :: a <= j < b ==> s[j] != '`'
    ensures FindFrom(s, "```", a) == Some(b)
  {
    forall j | a <= j < b ensures !At(s, "```", j) {
      AtStartsWith(s, "```", j);
    }
    FindFromIs(s, "```", a, b);
  }

  /** An occurrence of `p` at `j` begins with the first character of `p`. */
  lemma {:induction false} AtStartsWith(s: string, p: string, j: nat)
    ensures At(s, p, j) && |p| > 0 ==> j < |s| && s[j] == p[0]
  {
    if At(s, p, j) && |p| > 0 {
      assert s[j..j + |p|][0] == s[j];
    }
  }

  /** A text with no backtick has no fence of any tag. */
  lemma {:induction false} NoBacktickNoFence(s: string, tag: string)
    requires '`' !in s
    ensures FencedBlock(s, tag) == None
  {
    forall j | 0 <= j ensures !At(s, "```" + tag, j) {
      if j + 3 + |tag| <= |s| {
        assert s[j] in s;
      }
    }
  }

  /** A generic fence is not a `python` fence. */
  lemma {:induction false} GenericIsNotPython(c: string)
    requires Fenceable(c)
    ensures FencedBlock(Wrapped("", c), "python") == None
  {
    var s := Wrapped("", c);
    var p := "```python";
    assert "```" + "python" == p;
    assert s == "```\n" + c + "\n```";
    forall j | 0 <= j ensures !At(s, p, j) {
      if j + |p| <= |s| {
        // an index at which the text and the opening fence differ
        var k := if j < 4 then 3 - j else 0;
        if j < 4 {
          assert s[j + k] == '\n';
        } else {
          assert s[j + k] == c[j - 4];
          assert c[j - 4] in c;
        }
        assert s[j..j + |p|][k] == s[j + k];
      }
    }
  }

  /** Code in a `python` fence is extracted exactly. */
  lemma {:induction false} ExtractPythonFence(c: string)
    requires Fenceable(c)
    ensures ExtractCode(Wrapped("python", c)) == Some(c)
  {
    var s := Wrapped("python", c);
    StripNoop(s);
    WrappedBlock("python", c);
    BlockIsStripped(c);
  }

  /** Code in a generic fence is extracted exactly when it looks like Python. */
  lemma {:induction false} ExtractGenericFence(c: string)
    requires Fenceable(c) && LooksLikePython(c)
    ensures ExtractCode(Wrapped("", c)) == Some(c)
  {
    var s := Wrapped("", c);
    StripNoop(s);
    GenericIsNotPython(c);
    WrappedBlock("", c);
    BlockIsStripped(c);
  }

  /** The code of the fenced examples of test_fixes.py. */
  const HelloCode: string := "def hello():\n    print(\"hi\")"

  lemma {:induction false} HelloCodeFenceable()
    ensures Fenceable(HelloCode) && LooksLikePython(HelloCode)
  {
    assert HelloCode[0] == 'd' && HelloCode[|HelloCode| - 1] == ')';
    assert At(HelloCode, "def ", 0);
  }

  /** The `python`-fenced example of test_fixes.py. */
  lemma {:induction false} ExtractPythonExample()
    ensures ExtractCode("```python\ndef hello():\n    print(\"hi\")\n```") == Some(HelloCode)
  {
    HelloCodeFenceable();
    assert Wrapped("python", HelloCode) == "```python\ndef hello():\n    print(\"hi\")\n```";
    ExtractPythonFence(HelloCode);
  }

  /** The generic-fenced example of test_fixes.py. */
  lemma {:induction false} ExtractGenericExample()
    ensures ExtractCode("```\ndef hello():\n    print(\"hi\")\n```") == Some(HelloCode)
  {
    HelloCodeFenceable();
    assert "```" + "" == "```";
    assert Wrapped("", HelloCode) == "```\ndef hello():\n    print(\"hi\")\n```";
    ExtractGenericFence(HelloCode);
  }

  lemma {:induction false} CountCharAppend(a: string, b: string, ch: char)
    ensures CountChar(a + b, ch) == CountChar(a, ch) + CountChar(b, ch)
    decreases |a|
  {
    if a == [] {
      assert a + b == b;
    } else {
      assert (a + b)[1..] == a[1..] + b;
      CountCharAppend(a[1..], b, ch);
    }
  }

  lemma {:induction false} CountCharAbsent(a: string, ch: char)
    requires ch !in a
    ensures CountChar(a, ch) == 0
    decreases |a|
  {
    if a != [] {
      assert a[0] in a;
      assert forall k :: 0 <= k < |a| - 1 ==> a[1..][k] == a[k + 1];
      CountCharAbsent(a[1..], ch);
    }
  }

  /** Four lines joined by newlines hold three newlines. */
  lemma {:induction false} FourLines(l1: string, l2: string, l3: string, l4: string)
    requires '\n' !in l1 && '\n' !in l2 && '\n' !in l3 && '\n' !in l4
    ensures Count(l1 + "\n" + l2 + "\n" + l3 + "\n" + l4, "\n") == 3
  {
    var s := l1 + "\n" + l2 + "\n" + l3 + "\n" + l4;
    CountCharAbsent(l1, '\n');
    CountCharAbsent(l2, '\n');
    CountCharAbsent(l3, '\n');
    CountCharAbsent(l4, '\n');
    CountCharAppend(l1 + "\n" + l2 + "\n" + l3 + "\n", l4, '\n');
    CountCharAppend(l1 + "\n" + l2 + "\n" + l3, "\n", '\n');
    CountCharAppend(l1 + "\n" + l2 + "\n", l3, '\n');
    CountCharAppend(l1 + "\n" + l2, "\n", '\n');
    CountCharAppend(l1 + "\n", l2, '\n');
    CountCharAppend(l1, "\n", '\n');
    CountOneChar(s, '\n');
  }

  /** The bare-code example of test_fixes.py: four lines of code, taken whole. */
  const BareCode: string := "def hello():" + "\n" + "    print(\"hi\")" + "\n" + "class Foo:" + "\n" + "    pass"

  lemma {:induction false} BareCodeShape()
    ensures '`' !in BareCode && Count(BareCode, "\n") == 3
    ensures BareCode[0] == 'd' && BareCode[|BareCode| - 1] == 's'
  {
    var l1, l2, l3, l4 := "def hello():", "    print(\"hi\")", "class Foo:", "    pass";
    assert '\n' !in l1 && '`' !in l1;
    assert '\n' !in l2 && '`' !in l2;
    assert '\n' !in l3 && '`' !in l3;
    assert '\n' !in l4 && '`' !in l4;
    FourLines(l1, l2, l3, l4);
  }

  lemma {:induction false} ExtractBareExample()
    ensures ExtractCode(BareCode) == Some(BareCode)
  {
    BareCodeShape();
    StripNoop(BareCode);
    NoBacktickNoFence(BareCode, "python");
    NoBacktickNoFence(BareCode, "");
    assert BareCode[..4] == "def ";
    assert At(BareCode, "def ", 0);
  }

  // ===========================================================================
  // _attempt_to_fix_issues
  // ===========================================================================

  /** A review with something to fix: truthy `issues` or truthy `static_issues`. */
  predicate HasFindings(result: map<string, Value>) {
    Truthy(Get(result, "issues", VList([]))) || Truthy(Get(result, "static_issues", VList([])))
  }

  /** The line a static finding contributes: its message when it is an issue record. */
  function StaticLine(v: Value, repr: Value -> string): string {
    match v
    case VSecurity(issue) => "- [Static] " + issue.message
    case VPerformance(issue) => "- [Static] " + issue.message
    case _ => "- [Static] " + Str(v, repr)
  }

  /**
   * The issue list of the fix prompt: the first three review issues and the first two
   * static findings; slicing a value that is neither a list nor a string raises.
   */
  function FixLines(result: map<string, Value>, repr: Value -> string): (r: Result<seq<string>, string>)
    ensures r.Ok? <==> (ItemsTo(Get(result, "issues", VList([])), 3).Ok?
                        && ItemsTo(Get(result, "static_issues", VList([])), 2).Ok?)
    ensures r.Ok? ==> |r.value| <= 5
    ensures r.Ok? ==> forall k :: 0 <= k < |r.value| ==> StartsWith(r.value[k], "- ")
  {
    match ItemsTo(Get(result, "issues", VList([])), 3)
    case Err(e) => Err(e)
    case Ok(issues) =>
      match ItemsTo(Get(result, "static_issues", VList([])), 2)
      case Err(e) => Err(e)
      case Ok(statics) =>
        Ok(Bulleted(IssueLines(issues, repr), StaticLines(statics, repr)))
  }

  /** One "- " line per review issue. */
  function IssueLines(issues: seq<Value>, repr: Value -> string): (r: seq<string>)
    ensures |r| == |issues|
    ensures forall k :: 0 <= k < |r| ==> StartsWith(r[k], "- ")
  {
    var a := seq(|issues|, k requires 0 <= k < |issues| => "- " + Str(issues[k], repr));
    assert forall k :: 0 <= k < |a| ==> a[k][..2] == "- ";
    a
  }

  /** One "- [Static] " line per static finding. */
  function StaticLines(statics: seq<Value>, repr: Value -> string): (r: seq<string>)
    ensures |r| == |statics|
    ensures forall k :: 0 <= k < |r| ==> StartsWith(r[k], "- ")
  {
    var b := seq(|statics|, k requires 0 <= k < |statics| => StaticLine(statics[k], repr));
    assert forall k :: 0 <= k < |b| ==> b[k][..2] == "- ";
    b
  }

  /** Two lists of bulleted lines, one after the other. */
  function Bulleted(a: seq<string>, b: seq<string>): (r: seq<string>)
    requires forall k :: 0 <= k < |a| ==> StartsWith(a[k], "- ")
    requires forall k :: 0 <= k < |b| ==> StartsWith(b[k], "- ")
    ensures |r| == |a| + |b|
    ensures forall k :: 0 <= k < |r| ==> StartsWith(r[k], "- ")
  {
    assert forall k :: |a| <= k < |a| + |b| ==> (a + b)[k] == b[k - |a|];
    a + b
  }

  const FixRequest: string :=
    "Please provide the COMPLETE fixed code that addresses all issues above.\n"
    + "Ensure the fixed code is syntactically correct and handles the identified problems.\n"
    + "Return ONLY the fixed Python code, starting with ``` and ending with ```."

  /** The code quoted inside a `python` fence, as both prompts show it. */
  function Quoted(code: string): string {
    "```python\n" + code + "\n```"
  }

  /** The prompt of every fix attempt: it quotes the code inside a `python` fence. */
  function FixPrompt(code: string, lines: seq<string>, fileType: string, context: map<string, Value>,
                     repr: Value -> string): (r: string)
    ensures Contains(r, Quoted(code))
  {
    ContainsMiddle(FixIntro, Quoted(code), FixDetails(lines, fileType, context, repr));
    FixIntro + Quoted(code) + FixDetails(lines, fileType, context, repr)
  }

  const FixIntro: string := "The following code has issues that need to be fixed:\n\n"

  /** What the fix prompt says after the quoted code: the issues, the context and the request. */
  function FixDetails(lines: seq<string>, fileType: string, context: map<string, Value>, repr: Value -> string): string {
    "\n\nIssues to fix:\n" + Join(lines, "\n") + "\n\n"
    + "Context:\n"
    + "- Task: " + Str(Get(context, "task", VNone), repr) + "\n"
    + "- Framework: " + Str(Get(context, "framework", VNone), repr) + "\n"
    + "- File type: " + fileType + "\n\n"
    + FixRequest
  }

  /** Whether a reply to a fix attempt carries usable code: extracted, non-empty, new. */
  predicate Usable(reply: Result<string, string>, code: string) {
    reply.Ok? && ExtractCode(reply.value).Some?
    && ExtractCode(reply.value).value != "" && ExtractCode(reply.value).value != code
  }

  /** The code of the first usable reply among attempts `attempt`..2, if any. */
  function FixFrom(attempt: nat, prompt: string, code: string, generate: (nat, string) -> Result<string, string>)
    : (r: Option<string>)
    requires attempt >= 1
    ensures r.Some? ==> r.value != "" && r.value != code
    decreases 3 - attempt
  {
    if attempt > 2 then None
    else if Usable(generate(attempt, prompt), code) then ExtractCode(generate(attempt, prompt).value)
    else FixFrom(attempt + 1, prompt, code, generate)
  }

  /** The fixer finds code exactly when the first or the second attempt gives a usable reply. */
  lemma {:induction false} FixFindsUsable(prompt: string, code: string, generate: (nat, string) -> Result<string, string>)
    ensures FixFrom(1, prompt, code, generate).Some?
            <==> Usable(generate(1, prompt), code) || Usable(generate(2, prompt), code)
    ensures Usable(generate(1, prompt), code) ==>
              FixFrom(1, prompt, code, generate) == ExtractCode(generate(1, prompt).value)
  {
    assert FixFrom(3, prompt, code, generate) == None;
  }

  /** How many fix attempts run from `attempt` on: up to the first usable reply. */
  function FixCalls(attempt: nat, prompt: string, code: string, generate: (nat, string) -> Result<string, string>)
    : (r: nat)
    requires attempt >= 1
    ensures r <= 3 - attempt || attempt > 2
    decreases 3 - attempt
  {
    if attempt > 2 then 0
    else if Usable(generate(attempt, prompt), code) then 1
    else 1 + FixCalls(attempt + 1, prompt, code, generate)
  }

  /**
   * `_attempt_to_fix_issues(result, ...)`: the review unchanged when there is nothing to
   * fix or no attempt yields usable code, otherwise the review with `improved_code` set
   * to the first usable code.
   */
  function FixOutcome(result: map<string, Value>, code: string, fileType: string, context: map<string, Value>,
                      generate: (nat, string) -> Result<string, string>, repr: Value -> string)
    : (r: Result<map<string, Value>, string>)
    ensures !HasFindings(result) ==> r == Ok(result)
    ensures r.Err? ==> FixLines(result, repr).Err?
    ensures r.Ok? ==> forall k :: k in r.value && k != "improved_code" ==> k in result && r.value[k] == result[k]
    ensures r.Ok? ==> result.Keys <= r.value.Keys
    ensures r.Ok? && r.value != result ==>
      "improved_code" in r.value && r.value["improved_code"].VStr?
      && r.value["improved_code"].s != "" && r.value["improved_code"].s != code
  {
    if !HasFindings(result) then Ok(result)
    else match FixLines(result, repr)
      case Err(e) => Err(e)
      case Ok(lines) =>
        match FixFrom(1, FixPrompt(code, lines, fileType, context, repr), code, generate)
        case None => Ok(result)
        case Some(fixed) => Ok(result["improved_code" := VStr(fixed)])
  }

  /** How many times the fixer asks the model for code. */
  function FixAttempts(result: map<string, Value>, code: string, fileType: string, context: map<string, Value>,
                       generate: (nat, string) -> Result<string, string>, repr: Value -> string): nat
  {
    if !HasFindings(result) || FixLines(result, repr).Err? then 0
    else FixCalls(1, FixPrompt(code, FixLines(result, repr).value, fileType, context, repr), code, generate)
  }

  /**
   * The fix loop: at most two attempts, a failed call or an unusable reply moves on to
   * the next attempt, the first usable code is stored and returned at once.
   */
  method AttemptToFixIssues(result: map<string, Value>, code: string, fileType: string, context: map<string, Value>,
                            generate: (nat, string) -> Result<string, string>, repr: Value -> string)
    returns (r: Result<map<string, Value>, string>, calls: nat)
    ensures r == FixOutcome(result, code, fileType, context, generate, repr)
    ensures calls == FixAttempts(result, code, fileType, context, generate, repr)
    ensures calls <= 2
  {
    calls := 0;
    if !HasFindings(result) {
      return Ok(result), 0;
    }
    var lines := FixLines(result, repr);
    if lines.Err? {
      return Err(lines.error), 0;
    }
    var prompt := FixPrompt(code, lines.value, fileType, context, repr);
    var fixed;
    fixed, calls := FixLoop(prompt, code, generate);
    if fixed.Some? {
      return Ok(result["improved_code" := VStr(fixed.value)]), calls;
    }
    r := Ok(result);
  }

  /** The attempts themselves, for one prompt: the first usable code and how many calls it took. */
  method FixLoop(prompt: string, code: string, generate: (nat, string) -> Result<string, string>)
    returns (found: Option<string>, calls: nat)
    ensures found == FixFrom(1, prompt, code, generate)
    ensures calls == FixCalls(1, prompt, code, generate) && calls <= 2
  {
    calls := 0;
    var attempt := 1;
    while attempt <= 2
      invariant 1 <= attempt <= 3
      invariant calls == attempt - 1
      invariant FixFrom(1, prompt, code, generate) == FixFrom(attempt, prompt, code, generate)
      invariant FixCalls(1, prompt, code, generate) == calls + FixCalls(attempt, prompt, code, generate)
    {
      var reply := generate(attempt, prompt);
      calls := calls + 1;
      if reply.Ok? {
        var fixed := ExtractCode(reply.value);
        if fixed.Some? && fixed.value != "" && fixed.value != code {
          return fixed, calls;
        }
      }
      attempt := attempt + 1;
    }
    found := None;
  }

  // ===========================================================================
  // _build_review_prompt
  // ===========================================================================

  const ReviewChecklist: string :=
    "Check for:\n1. Syntax errors\n2. Import errors\n3. Logic bugs\n4. Missing error handling\n"
    + "5. Performance issues\n6. Best practice violations\n7. Dataset integration correctness\n\n"
    + "Provide JSON response with issues, suggestions, and optionally improved_code.\n"

  /** The opening line of the review prompt after the file type; its task defaults to `ML`. */
  function ReviewHeadRest(context: map<string, Value>, repr: Value -> string): string {
    " file for a " + Str(Get(context, "task", VStr("ML")), repr) + " project:\n\n"
  }

  /** The context lines of the review prompt, each `None` when missing, and the checklist. */
  function ReviewTail(context: map<string, Value>, repr: Value -> string): string {
    "\n\nContext:\n"
    + "- Task: " + Str(Get(context, "task", VNone), repr) + "\n"
    + "- Framework: " + Str(Get(context, "framework", VNone), repr) + "\n"
    + "- Dataset: " + Str(Get(context, "dataset", VNone), repr) + "\n\n"
    + ReviewChecklist
  }

  /** `_build_review_prompt`. */
  function ReviewPrompt(code: string, fileType: string, context: map<string, Value>, repr: Value -> string): string {
    "\nReview this " + fileType + ReviewHeadRest(context, repr) + Quoted(code) + ReviewTail(context, repr)
  }

  /** The review prompt names the file type and quotes the code inside a `python` fence. */
  lemma {:induction false} ReviewPromptShows(code: string, fileType: string, context: map<string, Value>, repr: Value -> string)
    ensures Contains(ReviewPrompt(code, fileType, context, repr), Quoted(code))
    ensures Contains(ReviewPrompt(code, fileType, context, repr), fileType)
  {
    ContainsPieces("\nReview this ", fileType, ReviewHeadRest(context, repr), Quoted(code), ReviewTail(context, repr));
  }

  // ===========================================================================
  // validate_and_improve
  // ===========================================================================

  /** The language models and the parser the validator consults. */
  datatype Oracles = Oracles(
    review: string -> Result<string, string>,
    generate: (nat, string) -> Result<string, string>,
    parse: string -> Option<Value>,
    repr: Value -> string)

  /** The dict every path that gives up on the review returns: the code, unchanged. */
  function Unreviewed(code: string): Value {
    VDict(map["valid" := VBool(true), "improved_code" := VStr(code), "issues" := VList([]), "suggestions" := VList([])])
  }

  /** The static findings as the validator stores them: security issues first. */
  function StaticIssues(analysis: Option<(seq<SecurityIssue>, seq<PerformanceIssue>)>): (r: seq<Value>)
    ensures analysis.None? ==> r == []
    ensures analysis.Some? ==> |r| == |analysis.value.0| + |analysis.value.1|
    ensures analysis.Some? ==> forall k :: |analysis.value.0| <= k < |r| ==>
              r[k] == VPerformance(analysis.value.1[k - |analysis.value.0|])
  {
    match analysis
    case None => []
    case Some((security, performance)) =>
      seq(|security|, k requires 0 <= k < |security| => VSecurity(security[k]))
      + seq(|performance|, k requires 0 <= k < |performance| => VPerformance(performance[k]))
  }

  /** `metrics.model_dump()`: the seven fields under their declared names. */
  function MetricsDump(m: CodeMetrics): map<string, Value> {
    map["lines_of_code" := VInt(m.linesOfCode), "cyclomatic_complexity" := VFloat(m.cyclomaticComplexity),
        "functions" := VInt(m.functions), "classes" := VInt(m.classes),
        "comments_ratio" := VFloat(m.commentsRatio), "duplicated_lines" := VInt(m.duplicatedLines),
        "type_hints_coverage" := VFloat(m.typeHintsCoverage)]
  }

  /** A value a numeric format spec accepts. */
  predicate Numeric(v: Value) {
    v.VInt? || v.VFloat? || v.VBool?
  }

  /** The three metrics that are shown with a numeric format. */
  predicate FormattableMetrics(metrics: map<string, Value>) {
    forall key :: key in metrics && key in {"cyclomatic_complexity", "comments_ratio", "type_hints_coverage"} ==>
      Numeric(metrics[key])
  }

  /**
   * The review with the static findings (when there are any and the review is truthy)
   * and the metrics (when they are analysed) stored in it.
   */
  function Annotate(review: map<string, Value>, statics: seq<Value>, metrics: Option<CodeMetrics>)
    : (r: map<string, Value>)
    ensures forall k :: k in review && k != "static_issues" && k != "metrics" ==> k in r && r[k] == review[k]
    ensures review != map[] && statics != [] ==> "static_issues" in r && r["static_issues"] == VList(statics)
    ensures metrics.Some? ==> "metrics" in r && r["metrics"] == VDict(MetricsDump(metrics.value))
    ensures r.Keys <= review.Keys + {"static_issues", "metrics"}
  {
    var withStatic := if review != map[] && statics != [] then review["static_issues" := VList(statics)] else review;
    if metrics.Some? then withStatic["metrics" := VDict(MetricsDump(metrics.value))] else withStatic
  }

  /** `has_issues and not has_improvements`: the fixer runs. */
  predicate NeedsFix(result: map<string, Value>) {
    HasFindings(result) && !Truthy(Get(result, "improved_code", VNone))
  }

  /**
   * `_display_review_results` raises, as written: a field without a length, a
   * performance finding (its record has no `severity`), metrics that are not a dict or
   * whose formatted fields are not numbers, or new improved code that is not a string.
   */
  predicate DisplayRaises(result: map<string, Value>, code: string) {
    var statics := Get(result, "static_issues", VList([]));
    var metrics := Get(result, "metrics", VDict(map[]));
    var improved := Get(result, "improved_code", VNone);
    Len(Get(result, "issues", VList([]))).Err? || Len(statics).Err?
    || Len(Get(result, "suggestions", VList([]))).Err?
    || (statics.VList? && exists k :: 0 <= k < |statics.items| && statics.items[k].VPerformance?)
    || (Truthy(metrics) && (!metrics.VDict? || !FormattableMetrics(metrics.entries)))
    || (Truthy(improved) && improved != VStr(code) && !improved.VStr?)
  }

  /**
   * The display as evidently intended: a performance finding is shown by its `impact`
   * instead of the `severity` its record does not have, so only the review's own fields
   * can make the display fail.
   */
  predicate DisplayRaisesIntended(result: map<string, Value>, code: string) {
    var metrics := Get(result, "metrics", VDict(map[]));
    var improved := Get(result, "improved_code", VNone);
    Len(Get(result, "issues", VList([]))).Err? || Len(Get(result, "static_issues", VList([]))).Err?
    || Len(Get(result, "suggestions", VList([]))).Err?
    || (Truthy(metrics) && (!metrics.VDict? || !FormattableMetrics(metrics.entries)))
    || (Truthy(improved) && improved != VStr(code) && !improved.VStr?)
  }

  /** Which display the pipeline runs: the source's, or the corrected one. */
  datatype Display = AsWritten | Intended

  predicate DisplayFails(display: Display, result: map<string, Value>, code: string) {
    match display
    case AsWritten => DisplayRaises(result, code)
    case Intended => DisplayRaisesIntended(result, code)
  }

  /** The value returned after a display: the review itself when it holds improved code. */
  function Shaped(result: map<string, Value>, code: string): Value {
    if Truthy(Get(result, "improved_code", VNone)) then VDict(result)
    else VDict(map["valid" := VBool(true), "improved_code" := VStr(code),
                   "issues" := Get(result, "issues", VList([])),
                   "suggestions" := Get(result, "suggestions", VList([]))])
  }

  /** The review after the fixer, which runs only when there are issues and no code. */
  function FixStep(result: map<string, Value>, code: string, fileType: string, context: map<string, Value>,
                   o: Oracles): (r: Result<map<string, Value>, string>)
    ensures !NeedsFix(result) ==> r == Ok(result)
    ensures r.Ok? ==> result.Keys <= r.value.Keys
    ensures r.Ok? ==> forall k :: k in r.value && k != "improved_code" ==> k in result && r.value[k] == result[k]
    ensures r.Ok? && r.value != result ==>
      "improved_code" in r.value && r.value["improved_code"].VStr?
      && r.value["improved_code"].s != "" && r.value["improved_code"].s != code
  {
    if NeedsFix(result) then FixOutcome(result, code, fileType, context, o.generate, o.repr) else Ok(result)
  }

  /**
   * The steps after the parse of the review reply, or the exception one of them raises;
   * a reply that is not a dict fails at the first item assignment or `.get`, or, when
   * falsy, falls through to the same dict the failure path returns.
   */
  function Reviewed(display: Display, parsed: Result<Value, string>, code: string, fileType: string, context: map<string, Value>,
                    statics: seq<Value>, metrics: Option<CodeMetrics>, o: Oracles): Result<Value, string>
  {
    match parsed
    case Err(e) => Err(e)
    case Ok(v) =>
      if !v.VDict? then Err("TypeError")
      else
        var result := Annotate(v.entries, statics, metrics);
        if result == map[] then Ok(Unreviewed(code))
        else
          match FixStep(result, code, fileType, context, o)
          case Err(e) => Err(e)
          case Ok(final) => if DisplayFails(display, final, code) then Err("AttributeError") else Ok(Shaped(final, code))
  }

  /**
   * The review of one file: `cached` is what the cache holds for it, `VNone` when
   * nothing; `analysis` is what the error detector found, `None` when it is disabled;
   * `metrics` is what the metrics analyzer measured, `None` when it is disabled.
   */
  function ValidationOutcome(display: Display, reviewer: Option<string>, cached: Value, code: string, fileType: string,
                             context: map<string, Value>,
                             analysis: Option<(seq<SecurityIssue>, seq<PerformanceIssue>)>,
                             metrics: Option<CodeMetrics>, o: Oracles): Value
  {
    if reviewer.None? || reviewer.value == "" then Unreviewed(code)
    else if Truthy(cached) then cached
    else
      var outcome := match o.review(ReviewPrompt(code, fileType, context, o.repr))
        case Err(e) => Err(e)
        case Ok(reply) => Reviewed(display, ReviewOf(reply, o.parse), code, fileType, context, StaticIssues(analysis), metrics, o);
      if outcome.Ok? then outcome.value else Unreviewed(code)
  }

  /**
   * `validate_and_improve`: without a reviewer the code is returned as is; a cached
   * review is returned; otherwise the reply is parsed, annotated, fixed when it lists
   * issues without code, displayed and shaped, and any failure gives the code back.
   */
  method ValidateAndImprove(reviewer: Option<string>, cached: Value, code: string, fileType: string,
                            context: map<string, Value>,
                            analysis: Option<(seq<SecurityIssue>, seq<PerformanceIssue>)>,
                            metrics: Option<CodeMetrics>, o: Oracles) returns (r: Value)
    ensures r == ValidationOutcome(AsWritten, reviewer, cached, code, fileType, context, analysis, metrics, o)
  {
    if reviewer.None? || reviewer.value == "" {
      return Unreviewed(code);
    }
    if Truthy(cached) {
      return cached;
    }
    var statics := StaticIssues(analysis);
    var reply := o.review(ReviewPrompt(code, fileType, context, o.repr));
    if reply.Err? {
      return Unreviewed(code);
    }
    var parsed := ParseReviewResponse(reply.value, o.parse);
    var outcome := FinishReview(parsed, code, fileType, context, statics, metrics, o);
    r := if outcome.Ok? then outcome.value else Unreviewed(code);
  }

  /** What follows the parse in `validate_and_improve`'s try block. */
  method FinishReview(parsed: Result<Value, string>, code: string, fileType: string, context: map<string, Value>,
                      statics: seq<Value>, metrics: Option<CodeMetrics>, o: Oracles) returns (r: Result<Value, string>)
    ensures r == Reviewed(AsWritten, parsed, code, fileType, context, statics, metrics, o)
  {
    if parsed.Err? {
      return Err(parsed.error);
    }
    if !parsed.value.VDict? {
      return Err("TypeError");
    }
    var result := Annotate(parsed.value.entries, statics, metrics);
    if result == map[] {
      return Ok(Unreviewed(code));
    }
    if NeedsFix(result) {
      var fixed, _ := AttemptToFixIssues(result, code, fileType, context, o.generate, o.repr);
      assert fixed == FixStep(result, code, fileType, context, o);
      if fixed.Err? {
        return Err(fixed.error);
      }
      result := fixed.value;
    }
    if DisplayRaises(result, code) {
      return Err("AttributeError");
    }
    r := Ok(Shaped(result, code));
  }

  // ===========================================================================
  // What validate_and_improve guarantees
  // ===========================================================================

  /**
   * The shape of every reviewed result: a dict with the review keys and
   * `improved_code`, which is a string, and a result that does not declare the code
   * valid always offers non-empty improved code.
   */
  predicate ReviewShape(v: Value, code: string) {
    v.VDict? && ReviewKeys <= v.entries.Keys && "improved_code" in v.entries
    && v.entries["improved_code"].VStr?
    && (v.entries["valid"] != VBool(true) ==> v.entries["improved_code"].s != "")
  }

  lemma {:induction false} ReviewedShape(display: Display, parsed: Result<Value, string>, code: string, fileType: string,
                      context: map<string, Value>, statics: seq<Value>, metrics: Option<CodeMetrics>, o: Oracles)
    requires parsed.Ok? && parsed.value.VDict? ==> ReviewKeys <= parsed.value.entries.Keys
    ensures Reviewed(display, parsed, code, fileType, context, statics, metrics, o).Ok? ==>
              ReviewShape(Reviewed(display, parsed, code, fileType, context, statics, metrics, o).value, code)
  {
    if parsed.Ok? && parsed.value.VDict? {
      var result := Annotate(parsed.value.entries, statics, metrics);
      if result != map[] {
        var fixed := FixStep(result, code, fileType, context, o);
        assert Reviewed(display, parsed, code, fileType, context, statics, metrics, o)
               == if fixed.Err? then Err(fixed.error)
                  else if DisplayFails(display, fixed.value, code) then Err("AttributeError")
                  else Ok(Shaped(fixed.value, code));
        if fixed.Ok? && !DisplayFails(display, fixed.value, code) {
          ShapedShape(display, fixed.value, code);
        }
      }
    }
  }

  lemma {:induction false} ShapedShape(display: Display, final: map<string, Value>, code: string)
    requires ReviewKeys <= final.Keys && !DisplayFails(display, final, code)
    ensures ReviewShape(Shaped(final, code), code)
  {
  }

  /**
   * Without a reviewer the code comes back unreviewed; a cached review is returned as
   * is; every other outcome has the review shape.
   */
  lemma {:induction false} OutcomeCases(display: Display, reviewer: Option<string>, cached: Value, code: string, fileType: string,
                     context: map<string, Value>, analysis: Option<(seq<SecurityIssue>, seq<PerformanceIssue>)>,
                     metrics: Option<CodeMetrics>, o: Oracles)
    ensures reviewer.None? || reviewer.value == "" ==>
              ValidationOutcome(display, reviewer, cached, code, fileType, context, analysis, metrics, o)
              == Unreviewed(code)
    ensures reviewer.Some? && reviewer.value != "" && Truthy(cached) ==>
              ValidationOutcome(display, reviewer, cached, code, fileType, context, analysis, metrics, o) == cached
    ensures reviewer.None? || reviewer.value == "" || !Truthy(cached) ==>
              ReviewShape(ValidationOutcome(display, reviewer, cached, code, fileType, context, analysis, metrics, o),
                          code)
  {
    if reviewer.Some? && reviewer.value != "" && !Truthy(cached) {
      var reply := o.review(ReviewPrompt(code, fileType, context, o.repr));
      if reply.Ok? {
        var resp := Strip(reply.value);
        ReviewHasKeys(resp, RecoverJson(resp, o.parse));
        ReviewedShape(display, ReviewOf(reply.value, o.parse), code, fileType, context, StaticIssues(analysis),
                      metrics, o);
      }
    }
  }

  /**
   * As written, a review pipeline that sees a performance finding never gets through
   * the display: it fails, or there was no review to show.
   */
  lemma {:induction false} PerformanceFindingFailsDisplay(parsed: Result<Value, string>, code: string, fileType: string,
                                       context: map<string, Value>, statics: seq<Value>,
                                       metrics: Option<CodeMetrics>, o: Oracles, k: nat)
    requires k < |statics| && statics[k].VPerformance?
    ensures Reviewed(AsWritten, parsed, code, fileType, context, statics, metrics, o).Err?
            || Reviewed(AsWritten, parsed, code, fileType, context, statics, metrics, o) == Ok(Unreviewed(code))
  {
    if parsed.Ok? && parsed.value.VDict? {
      var result := Annotate(parsed.value.entries, statics, metrics);
      if result != map[] {
        var fixed := FixStep(result, code, fileType, context, o);
        assert Reviewed(AsWritten, parsed, code, fileType, context, statics, metrics, o)
               == if fixed.Err? then Err(fixed.error)
                  else if DisplayRaises(fixed.value, code) then Err("AttributeError")
                  else Ok(Shaped(fixed.value, code));
        if parsed.value.entries == map[] {
          EmptyReviewIsUnreviewed(result, statics, metrics, code);
        } else if fixed.Ok? {
          assert Get(fixed.value, "static_issues", VList([])).items[k].VPerformance?;
        }
      }
    }
  }

  /** An empty review, annotated with metrics only, is shown and shaped like no review. */
  lemma {:induction false} EmptyReviewIsUnreviewed(result: map<string, Value>, statics: seq<Value>, metrics: Option<CodeMetrics>,
                                code: string)
    requires result == Annotate(map[], statics, metrics) && result != map[]
    ensures !NeedsFix(result) && !DisplayRaises(result, code) && Shaped(result, code) == Unreviewed(code)
  {
    assert result.Keys == {"metrics"};
    assert FormattableMetrics(MetricsDump(metrics.value));
  }

  /**
   * The discrepancy, as written: whenever the error detector reports a performance
   * issue, `validate_and_improve` returns the code unreviewed, dropping the review and
   * any improved code.
   */
  lemma {:induction false} PerformanceFindingDiscardsReview(reviewer: Option<string>, cached: Value, code: string, fileType: string,
                                         context: map<string, Value>,
                                         analysis: Option<(seq<SecurityIssue>, seq<PerformanceIssue>)>,
                                         metrics: Option<CodeMetrics>, o: Oracles)
    requires !Truthy(cached)
    requires analysis.Some? && analysis.value.1 != []
    ensures ValidationOutcome(AsWritten, reviewer, cached, code, fileType, context, analysis, metrics, o)
            == Unreviewed(code)
  {
    var statics := StaticIssues(analysis);
    var k := |analysis.value.0|;
    if reviewer.Some? && reviewer.value != "" {
      var reply := o.review(ReviewPrompt(code, fileType, context, o.repr));
      if reply.Ok? {
        PerformanceFindingFailsDisplay(ReviewOf(reply.value, o.parse), code, fileType, context, statics,
                                       metrics, o, k);
      }
    }
  }

  /** A review that brings its own improved code, in a form the display accepts. */
  predicate SelfContainedReview(review: map<string, Value>, code: string) {
    "improved_code" in review && review["improved_code"].VStr? && review["improved_code"].s != ""
    && Len(Get(review, "issues", VList([]))).Ok? && Len(Get(review, "suggestions", VList([]))).Ok?
    && "static_issues" !in review && "metrics" !in review
  }

  /**
   * The same review under the two displays: as written, one performance finding turns
   * it into a failure; with the intended display it is returned with the findings and
   * metrics attached.
   */
  lemma {:induction false} SelfContainedReviewOutcome(review: map<string, Value>, code: string, fileType: string,
                                   context: map<string, Value>, statics: seq<Value>,
                                   metrics: Option<CodeMetrics>, o: Oracles)
    requires SelfContainedReview(review, code)
    ensures Reviewed(Intended, Ok(VDict(review)), code, fileType, context, statics, metrics, o)
            == Ok(VDict(Annotate(review, statics, metrics)))
    ensures (exists k :: 0 <= k < |statics| && statics[k].VPerformance?) ==>
              Reviewed(AsWritten, Ok(VDict(review)), code, fileType, context, statics, metrics, o).Err?
  {
    var result := Annotate(review, statics, metrics);
    assert review != map[];
    assert !NeedsFix(result);
    if metrics.Some? {
      assert FormattableMetrics(MetricsDump(metrics.value));
    }
    assert !DisplayRaisesIntended(result, code);
  }
}
