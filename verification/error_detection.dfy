/**
 * The static analyzer of noless/error_detection.py: a table-driven line scanner for
 * security patterns, detectors over the syntax tree, and regex checks for performance
 * anti-patterns.
 *
 * The syntax tree is a parameter (`None` when the code does not parse), and so is the
 * regex engine: `search(r, text)` says whether `re.search` finds `r` in `text`.
 */
module ErrorDetection {
  import opened Py
  import opened Schemas
  import opened SyntaxTree

  // ===========================================================================
  // SecurityAnalyzer
  // ===========================================================================

  /** A regular expression and whether it is searched with `re.IGNORECASE`. */
  datatype Regex = Regex(pattern: string, ignoreCase: bool)

  /** One row of `SECURITY_PATTERNS`. */
  datatype SecurityCategory = SecurityCategory(kind: string, patterns: seq<string>, severity: string, message: string)

  /** `SECURITY_PATTERNS`, in its declaration order. */
  const SecurityPatterns: seq<SecurityCategory> := [
    SecurityCategory("hardcoded_secret",
      ["api[_-]?key\\s*=\\s*['\\\"]", "password\\s*=\\s*['\\\"]", "secret\\s*=\\s*['\\\"]",
       "token\\s*=\\s*['\\\"]", "aws[_-]?access[_-]?key\\s*=\\s*['\\\"]"],
      "critical", "Hardcoded secret or credential found"),
    SecurityCategory("eval_usage", ["\\beval\\s*\\(", "\\bexec\\s*\\("],
      "critical", "Use of eval/exec is dangerous - consider safer alternatives"),
    SecurityCategory("unvalidated_input", ["os\\.system\\s*\\(", "subprocess\\.call\\s*\\("],
      "high", "Unvalidated shell command execution"),
    SecurityCategory("pickle_usage", ["pickle\\.loads\\s*\\(", "pickle\\.load\\s*\\("],
      "high", "pickle.loads with untrusted data is unsafe"),
    SecurityCategory("sql_injection", ["execute\\s*\\(\\s*f['\\\"]", "execute\\s*\\(\\s*\".*\\{"],
      "critical", "Potential SQL injection with f-string or format")
  ]

  const DefaultFix: string := "Review and fix this security issue"

  /** `_get_fix`: the hint for an issue type, the generic hint for any other. */
  function GetFix(kind: string): (r: string)
    ensures r != DefaultFix <==> kind in {"hardcoded_secret", "eval_usage", "unvalidated_input",
                                         "pickle_usage", "sql_injection"}
  {
    match kind
    case "hardcoded_secret" => "Use environment variables: os.getenv('API_KEY')"
    case "eval_usage" => "Use ast.literal_eval() or json.loads() for safe parsing"
    case "unvalidated_input" => "Use subprocess with shell=False and validate inputs"
    case "pickle_usage" => "Use json or other safe serialization formats"
    case "sql_injection" => "Use parameterized queries: execute(query, params)"
    case _ => DefaultFix
  }

  /** The finding of category `c` at 1-based line `lineNumber`. */
  function TextIssue(c: SecurityCategory, lineNumber: nat): SecurityIssue {
    SecurityIssue(c.kind, c.severity, c.message, Some(lineNumber), Some(GetFix(c.kind)))
  }

  /** The findings of one pattern over the first `n` lines, in line order. */
  function PatternHits(c: SecurityCategory, pattern: string, lines: seq<string>, n: nat,
                       search: (Regex, string) -> bool): (r: seq<SecurityIssue>)
    requires n <= |lines|
    ensures forall f :: f in r ==> f.line.Some? && 1 <= f.line.value <= n
                                   && search(Regex(pattern, true), lines[f.line.value - 1])
                                   && f == TextIssue(c, f.line.value)
    ensures forall i :: 0 <= i < n && search(Regex(pattern, true), lines[i]) ==> TextIssue(c, i + 1) in r
    ensures |r| <= n
  {
    if n == 0 then []
    else PatternHits(c, pattern, lines, n - 1, search)
         + (if search(Regex(pattern, true), lines[n - 1]) then [TextIssue(c, n)] else [])
  }

  /** Findings in strictly increasing line order, so no line is reported twice. */
  predicate InLineOrder(r: seq<SecurityIssue>) {
    forall i, j :: 0 <= i < j < |r| ==> r[i].line.Some? && r[j].line.Some? && r[i].line.value < r[j].line.value
  }

  /** The findings of one pattern are in strictly increasing line order: no line is reported twice. */
  lemma {:induction false} PatternHitsInLineOrder(c: SecurityCategory, pattern: string, lines: seq<string>, n: nat,
                                                  search: (Regex, string) -> bool)
    requires n <= |lines|
    ensures InLineOrder(PatternHits(c, pattern, lines, n, search))
  {
    if n > 0 {
      PatternHitsInLineOrder(c, pattern, lines, n - 1, search);
      var prev := PatternHits(c, pattern, lines, n - 1, search);
      var r := PatternHits(c, pattern, lines, n, search);
      var hit := search(Regex(pattern, true), lines[n - 1]);
      assert r == prev + (if hit then [TextIssue(c, n)] else []);
      forall i, j | 0 <= i < j < |r|
        ensures r[i].line.Some? && r[j].line.Some? && r[i].line.value < r[j].line.value
      {
        assert r[i] == prev[i] && prev[i] in prev;
        if j < |prev| {
          assert r[j] == prev[j];
          assert InLineOrder(prev);
        } else {
          assert r[j] == TextIssue(c, n);
          assert prev[i].line.value <= n - 1;
        }
      }
    }
  }

  /** The findings of the first `m` patterns of a category, pattern by pattern. */
  function CategoryHits(c: SecurityCategory, m: nat, lines: seq<string>, search: (Regex, string) -> bool)
    : (r: seq<SecurityIssue>)
    requires m <= |c.patterns|
    ensures forall f :: f in r ==> f.line.Some? && 1 <= f.line.value <= |lines| && f == TextIssue(c, f.line.value)
                                   && exists k :: 0 <= k < m && search(Regex(c.patterns[k], true), lines[f.line.value - 1])
  {
    if m == 0 then []
    else CategoryHits(c, m - 1, lines, search) + PatternHits(c, c.patterns[m - 1], lines, |lines|, search)
  }

  /** The findings of the first `t` categories of a table, category by category. */
  function TableHits(table: seq<SecurityCategory>, t: nat, lines: seq<string>, search: (Regex, string) -> bool)
    : (r: seq<SecurityIssue>)
    requires t <= |table|
    ensures forall f :: f in r ==> f.line.Some? && 1 <= f.line.value <= |lines|
                                   && exists j :: 0 <= j < t && f == TextIssue(table[j], f.line.value)
  {
    if t == 0 then []
    else
      var prev := TableHits(table, t - 1, lines, search);
      var last := CategoryHits(table[t - 1], |table[t - 1].patterns|, lines, search);
      assert forall f :: f in last ==> f == TextIssue(table[t - 1], f.line.value);
      prev + last
  }

  /** The text findings of `analyze`: category, then pattern, then line. */
  function TextFindings(code: string, search: (Regex, string) -> bool): seq<SecurityIssue> {
    TableHits(SecurityPatterns, |SecurityPatterns|, Split(code, '\n'), search)
  }

  /** Every match of a pattern of the table on a line is reported, with that line number. */
  lemma {:induction false} TextFindingComplete(table: seq<SecurityCategory>, lines: seq<string>, search: (Regex, string) -> bool,
                            t: nat, k: nat, i: nat)
    requires t < |table| && k < |table[t].patterns| && i < |lines|
    requires search(Regex(table[t].patterns[k], true), lines[i])
    ensures TextIssue(table[t], i + 1) in TableHits(table, |table|, lines, search)
  {
    CategoryHitsComplete(table[t], |table[t].patterns|, lines, search, k, i);
    TableHitsComplete(table, |table|, lines, search, t, TextIssue(table[t], i + 1));
  }

  lemma {:induction false} CategoryHitsComplete(c: SecurityCategory, m: nat, lines: seq<string>,
                                                search: (Regex, string) -> bool, k: nat, i: nat)
    requires k < m <= |c.patterns| && i < |lines|
    requires search(Regex(c.patterns[k], true), lines[i])
    ensures TextIssue(c, i + 1) in CategoryHits(c, m, lines, search)
  {
    if k < m - 1 {
      CategoryHitsComplete(c, m - 1, lines, search, k, i);
    }
  }

  lemma {:induction false} TableHitsComplete(table: seq<SecurityCategory>, t: nat, lines: seq<string>,
                                             search: (Regex, string) -> bool, j: nat, f: SecurityIssue)
    requires j < t <= |table|
    requires f in CategoryHits(table[j], |table[j].patterns|, lines, search)
    ensures f in TableHits(table, t, lines, search)
  {
    if j < t - 1 {
      TableHitsComplete(table, t - 1, lines, search, j, f);
    }
  }

  /** Each category's severity: critical for secrets, eval and SQL, high for shell and pickle. */
  lemma {:induction false} SecuritySeverities()
    ensures |SecurityPatterns| == 5
    ensures forall c :: c in SecurityPatterns ==>
              (c.severity == "critical" <==> c.kind in {"hardcoded_secret", "eval_usage", "sql_injection"})
    ensures forall c :: c in SecurityPatterns ==>
              (c.severity == "high" <==> c.kind in {"unvalidated_input", "pickle_usage"})
    ensures forall c :: c in SecurityPatterns ==> GetFix(c.kind) != DefaultFix
  {
  }

  /** `_get_call_name`: the attribute alone for `x.attr(...)`, the name for `f(...)`. */
  function CallName(func: Callee): Option<string> {
    match func
    case Attribute(attr) => Some(attr)
    case Name(id) => Some(id)
    case OtherCallee => None
  }

  /** `_has_timeout_arg`: some keyword argument is named `timeout`. */
  function HasTimeoutArg(keywords: seq<Option<string>>): (r: bool)
    ensures r <==> exists k :: 0 <= k < |keywords| && keywords[k] == Some("timeout")
  {
    if keywords == [] then false
    else keywords[|keywords| - 1] == Some("timeout") || HasTimeoutArg(keywords[..|keywords| - 1])
  }

  const TimeoutCalls: set<string> := {"requests.get", "requests.post", "requests.request"}

  function AssertionIssue(line: int): SecurityIssue {
    SecurityIssue("assertion", "medium", "Assertions can be disabled with -O flag, avoid for critical checks",
                  Some(line), Some("Use proper exception handling instead of assertions"))
  }

  function TimeoutIssue(line: int): SecurityIssue {
    SecurityIssue("missing_timeout", "medium", "HTTP request without timeout could hang indefinitely",
                  Some(line), Some("Add timeout parameter: requests.get(url, timeout=30)"))
  }

  predicate IsAssert(n: Node) {
    n.kind.Assert?
  }

  /** A call the timeout detector reports: one of the three names, no `timeout` keyword. */
  predicate IsUntimedRequest(n: Node) {
    n.kind.Call? && CallName(n.kind.func).Some? && CallName(n.kind.func).value in TimeoutCalls
    && !HasTimeoutArg(n.kind.keywords)
  }

  /** What the tree check reports for one walked node: an assertion, then a missing timeout. */
  function NodeSecurity(n: Node): seq<SecurityIssue> {
    (if IsAssert(n) then [AssertionIssue(n.line)] else [])
    + (if IsUntimedRequest(n) then [TimeoutIssue(n.line)] else [])
  }

  /** The tree findings for a sequence of walked nodes, in walk order. */
  function NodesSecurity(nodes: seq<Node>): seq<SecurityIssue> {
    if nodes == [] then [] else NodesSecurity(nodes[..|nodes| - 1]) + NodeSecurity(nodes[|nodes| - 1])
  }

  lemma {:induction false} SecurityStep(nodes: seq<Node>, i: nat)
    requires i < |nodes|
    ensures NodesSecurity(nodes[..i + 1]) == NodesSecurity(nodes[..i]) + NodeSecurity(nodes[i])
  {
    assert nodes[..i + 1][..i] == nodes[..i];
  }

  /** `_check_ast_issues`: nothing when the code does not parse. */
  function AstSecurity(tree: Option<Node>): seq<SecurityIssue> {
    match tree
    case None => []
    case Some(root) => NodesSecurity(Walk(root))
  }

  /** The findings of `SecurityAnalyzer.analyze`: the text findings, then the tree findings. */
  function SecurityFindings(code: string, tree: Option<Node>, search: (Regex, string) -> bool)
    : (r: seq<SecurityIssue>)
    ensures |TextFindings(code, search)| <= |r| && r[..|TextFindings(code, search)|] == TextFindings(code, search)
    ensures tree.None? ==> r == TextFindings(code, search)
  {
    TextFindings(code, search) + AstSecurity(tree)
  }

  /** How many findings have the given type. */
  function CountKind(issues: seq<SecurityIssue>, kind: string): nat {
    if issues == [] then 0
    else CountKind(issues[..|issues| - 1], kind) + (if issues[|issues| - 1].kind == kind then 1 else 0)
  }

  lemma {:induction false} CountKindAppend(a: seq<SecurityIssue>, b: seq<SecurityIssue>, kind: string)
    ensures CountKind(a + b, kind) == CountKind(a, kind) + CountKind(b, kind)
    decreases |b|
  {
    if b != [] {
      assert (a + b)[..|a + b| - 1] == a + b[..|b| - 1];
      assert (a + b)[|a + b| - 1] == b[|b| - 1];
      CountKindAppend(a, b[..|b| - 1], kind);
    } else {
      assert a + b == a;
    }
  }

  lemma {:induction false} NodesAssertions(nodes: seq<Node>)
    ensures CountKind(NodesSecurity(nodes), "assertion") == CountIf(nodes, IsAssert)
    ensures CountKind(NodesSecurity(nodes), "missing_timeout") == CountIf(nodes, IsUntimedRequest)
  {
    if nodes != [] {
      var last := nodes[|nodes| - 1];
      NodesAssertions(nodes[..|nodes| - 1]);
      CountKindAppend(NodesSecurity(nodes[..|nodes| - 1]), NodeSecurity(last), "assertion");
      CountKindAppend(NodesSecurity(nodes[..|nodes| - 1]), NodeSecurity(last), "missing_timeout");
      var a := if IsAssert(last) then [AssertionIssue(last.line)] else [];
      var b := if IsUntimedRequest(last) then [TimeoutIssue(last.line)] else [];
      CountKindAppend(a, b, "assertion");
      CountKindAppend(a, b, "missing_timeout");
      assert a == [] || a[..0] == [];
      assert b == [] || b[..0] == [];
    }
  }

  /**
   * Every assert statement of the tree gives exactly one assertion finding, and each
   * missing-timeout finding is one untimed request call of the tree.
   */
  lemma {:induction false} TreeFindingsCount(root: Node)
    ensures CountKind(AstSecurity(Some(root)), "assertion") == CountTree(root, IsAssert)
    ensures CountKind(AstSecurity(Some(root)), "missing_timeout") == CountTree(root, IsUntimedRequest)
  {
    NodesAssertions(Walk(root));
    WalkCountsTree(root, IsAssert);
    WalkCountsTree(root, IsUntimedRequest);
  }

  /** Every callee name in the tree is a Python identifier, so it has no dot. */
  predicate IdentifierCallees(n: Node)
    decreases n, 1
  {
    (n.kind.Call? && CallName(n.kind.func).Some? ==> '.' !in CallName(n.kind.func).value)
    && IdentifierCalleesAll(n.children)
  }

  predicate IdentifierCalleesAll(q: seq<Node>)
    decreases q, 0
  {
    q == [] || (IdentifierCallees(q[0]) && IdentifierCalleesAll(q[1..]))
  }

  /**
   * The timeout detector is dead code: `requests.get(...)` is an attribute call whose
   * name is just `get`, and no identifier contains a dot, so no call ever matches.
   */
  lemma {:induction false} TimeoutDetectorNeverFires(root: Node)
    requires IdentifierCallees(root)
    ensures CountKind(AstSecurity(Some(root)), "missing_timeout") == 0
  {
    TreeFindingsCount(root);
    NoUntimedRequest(root);
  }

  lemma {:induction false} NoUntimedRequest(n: Node)
    requires IdentifierCallees(n)
    ensures CountTree(n, IsUntimedRequest) == 0
    decreases n, 1
  {
    NoUntimedRequestAll(n.children);
  }

  lemma {:induction false} NoUntimedRequestAll(q: seq<Node>)
    requires IdentifierCalleesAll(q)
    ensures CountForest(q, IsUntimedRequest) == 0
    decreases q, 0
  {
    if q != [] {
      NoUntimedRequest(q[0]);
      NoUntimedRequestAll(q[1..]);
    }
  }

  /** The call `requests.get(url)` is an attribute call named `get`: nothing is reported. */
  lemma {:induction false} RequestsGetNotReported(line: int, args: seq<Node>)
    ensures NodeSecurity(Node(Call(Attribute("get"), []), line, args)) == []
  {
  }

  /** The line loop of `SecurityAnalyzer.analyze` for one pattern of a category. */
  method ScanPattern(c: SecurityCategory, pattern: string, lines: seq<string>, search: (Regex, string) -> bool)
    returns (hits: seq<SecurityIssue>)
    ensures hits == PatternHits(c, pattern, lines, |lines|, search)
  {
    hits := [];
    for n := 0 to |lines|
      invariant hits == PatternHits(c, pattern, lines, n, search)
    {
      if search(Regex(pattern, true), lines[n]) {
        hits := hits + [TextIssue(c, n + 1)];
      }
    }
  }

  /** The pattern loop of `SecurityAnalyzer.analyze` for one category. */
  method ScanCategory(c: SecurityCategory, lines: seq<string>, search: (Regex, string) -> bool)
    returns (hits: seq<SecurityIssue>)
    ensures hits == CategoryHits(c, |c.patterns|, lines, search)
  {
    hits := [];
    for m := 0 to |c.patterns|
      invariant hits == CategoryHits(c, m, lines, search)
    {
      var more := ScanPattern(c, c.patterns[m], lines, search);
      hits := hits + more;
    }
  }

  /** The category loop of `SecurityAnalyzer.analyze`. */
  method ScanTable(table: seq<SecurityCategory>, lines: seq<string>, search: (Regex, string) -> bool)
    returns (hits: seq<SecurityIssue>)
    ensures hits == TableHits(table, |table|, lines, search)
  {
    hits := [];
    for t := 0 to |table|
      invariant hits == TableHits(table, t, lines, search)
    {
      var more := ScanCategory(table[t], lines, search);
      hits := hits + more;
    }
  }

  /**
   * `SecurityAnalyzer.analyze`: every (category, pattern, line) match in table order,
   * then the tree findings.
   */
  method AnalyzeSecurity(code: string, tree: Option<Node>, search: (Regex, string) -> bool)
    returns (issues: seq<SecurityIssue>)
    ensures issues == SecurityFindings(code, tree, search)
  {
    issues := ScanTable(SecurityPatterns, Split(code, '\n'), search);
    var treeIssues := CheckAstIssues(tree);
    issues := issues + treeIssues;
  }

  /** `_check_ast_issues`: the walk of the tree, each node checked in turn. */
  method CheckAstIssues(tree: Option<Node>) returns (issues: seq<SecurityIssue>)
    ensures issues == AstSecurity(tree)
  {
    issues := [];
    if tree.None? {
      return;
    }
    var nodes := Walk(tree.value);
    for i := 0 to |nodes|
      invariant issues == NodesSecurity(nodes[..i])
    {
      SecurityStep(nodes, i);
      var found := NodeIssues(nodes[i]);
      issues := issues + found;
    }
    assert nodes[..|nodes|] == nodes;
  }

  /** The body of the walk in `_check_ast_issues`: the findings for one node. */
  method NodeIssues(node: Node) returns (found: seq<SecurityIssue>)
    ensures found == NodeSecurity(node)
  {
    found := [];
    if node.kind.Assert? {
      found := found + [AssertionIssue(node.line)];
    }
    if node.kind.Call? {
      var name := CallName(node.kind.func);
      if name.Some? && name.value in TimeoutCalls && !HasTimeoutArg(node.kind.keywords) {
        found := found + [TimeoutIssue(node.line)];
      }
    }
  }

  // ===========================================================================
  // PerformanceAnalyzer
  // ===========================================================================

  const ListMethods: set<string> := {"append", "insert", "remove"}

  /** A call of `.append`, `.insert` or `.remove` on anything. */
  predicate IsListCall(n: Node) {
    n.kind.Call? && n.kind.func.Attribute? && n.kind.func.attr in ListMethods
  }

  const InefficientLoop: PerformanceIssue :=
    PerformanceIssue("inefficient_loop", "List modification inside loop is inefficient", None, "high",
                     Some("Use list comprehension instead: [modify(x) for x in items]"))

  /** The findings of `_check_loop_patterns` for the first `n` nodes of a walk. */
  function ListCallFindings(nodes: seq<Node>): (r: seq<PerformanceIssue>)
    ensures |r| == CountIf(nodes, IsListCall)
    ensures forall k :: 0 <= k < |r| ==> r[k] == InefficientLoop
  {
    if nodes == [] then []
    else ListCallFindings(nodes[..|nodes| - 1]) + (if IsListCall(nodes[|nodes| - 1]) then [InefficientLoop] else [])
  }

  /** `_check_loop_patterns`: one finding per list-modifying call in the walk of the loop. */
  function LoopFindings(loop: Node): seq<PerformanceIssue> {
    ListCallFindings(Walk(loop))
  }

  /**
   * A loop reports every list-modifying call of its whole body, so a call inside nested
   * loops is reported once for each enclosing loop.
   */
  lemma {:induction false} LoopFindingsCount(loop: Node)
    ensures |LoopFindings(loop)| == CountTree(loop, IsListCall)
  {
    WalkCountsTree(loop, IsListCall);
  }

  method CheckLoopPatterns(loop: Node) returns (issues: seq<PerformanceIssue>)
    ensures issues == LoopFindings(loop)
  {
    var nodes := Walk(loop);
    issues := [];
    for i := 0 to |nodes|
      invariant issues == ListCallFindings(nodes[..i])
    {
      assert nodes[..i + 1][..i] == nodes[..i];
      var child := nodes[i];
      if child.kind.Call? && child.kind.func.Attribute? && child.kind.func.attr in ListMethods {
        issues := issues + [InefficientLoop];
      }
    }
    assert nodes[..|nodes|] == nodes;
  }

  /**
   * `getattr(node, "_parent", None)`: nothing in the analyzer assigns `_parent`, so a
   * node never has one and the lookup gives the default.
   */
  function Parent(n: Node): Option<Node> {
    None
  }

  /** The number of `_parent` steps from a node: none, as no node has a parent. */
  function ParentChainLength(n: Node): int {
    match Parent(n)
    case None => 0
    case Some(_) => 1
  }

  /** The deepest `_parent` chain over the first nodes of a walk. */
  function MaxChain(nodes: seq<Node>): int {
    if nodes == [] then 0 else Max(MaxChain(nodes[..|nodes| - 1]), ParentChainLength(nodes[|nodes| - 1]))
  }

  /** `_get_nesting_depth`: the longest `_parent` chain over the walk of the function. */
  method GetNestingDepth(n: Node) returns (maxDepth: int)
    ensures maxDepth == MaxChain(Walk(n))
  {
    var nodes := Walk(n);
    maxDepth := 0;
    for i := 0 to |nodes|
      invariant maxDepth == MaxChain(nodes[..i])
    {
      assert nodes[..i + 1][..i] == nodes[..i];
      var depth := ParentChainLength(nodes[i]);
      maxDepth := Max(maxDepth, depth);
    }
    assert nodes[..|nodes|] == nodes;
  }

  /** As written, the nesting depth is always 0, below the reporting threshold of 4. */
  lemma {:induction false} NestingDepthIsZero(nodes: seq<Node>)
    ensures MaxChain(nodes) == 0
  {
    if nodes != [] {
      NestingDepthIsZero(nodes[..|nodes| - 1]);
    }
  }

  /** `_check_string_concat`: only a `+` of two constants whose parent is a loop. */
  function StringConcatFindings(n: Node): seq<PerformanceIssue> {
    if n.kind.BinOp? && n.kind.leftConstant && n.kind.rightConstant
       && Parent(n).Some? && Parent(n).value.kind.For?
    then [PerformanceIssue("string_concat", "String concatenation in loop is slow", None, "high",
                           Some("Use list + join() instead: ''.join([...])"))]
    else []
  }

  function DeepNesting(name: string, depth: int): PerformanceIssue {
    PerformanceIssue("deep_nesting",
                     "High nesting depth (" + IntToString(depth) + ") reduces readability and performance",
                     Some(name), "medium", Some("Refactor into smaller functions"))
  }

  /**
   * What the tree check reports for one walked node: loop findings for a `for`,
   * concatenation findings for an addition, deep nesting for a function, nothing for a
   * comprehension (`_check_comprehension` accepts every comprehension).
   */
  function NodePerformance(n: Node): seq<PerformanceIssue> {
    (if n.kind.For? then LoopFindings(n) else [])
    + (if n.kind.BinOp? && n.kind.isAdd then StringConcatFindings(n) else [])
    + (if n.kind.FunctionDef? && MaxChain(Walk(n)) > 4 then [DeepNesting(n.kind.name, MaxChain(Walk(n)))] else [])
  }

  function NodesPerformance(nodes: seq<Node>): seq<PerformanceIssue> {
    if nodes == [] then [] else NodesPerformance(nodes[..|nodes| - 1]) + NodePerformance(nodes[|nodes| - 1])
  }

  /** As written, the tree check of the performance analyzer reports only loop findings. */
  lemma {:induction false} OnlyLoopFindings(nodes: seq<Node>)
    ensures forall f :: f in NodesPerformance(nodes) ==> f == InefficientLoop
  {
    if nodes != [] {
      var last := nodes[|nodes| - 1];
      OnlyLoopFindings(nodes[..|nodes| - 1]);
      NestingDepthIsZero(Walk(last));
    }
  }

  const WildcardImport: PerformanceIssue :=
    PerformanceIssue("wildcard_import", "Wildcard imports reduce clarity and can cause namespace pollution", None,
                     "low", Some("Import specific items: from module import func1, func2"))

  const DebugPrint: PerformanceIssue :=
    PerformanceIssue("debug_print", "Debug print statements left in code", None, "low",
                     Some("Remove debug prints or use logging module"))

  const RedundantConversion: PerformanceIssue :=
    PerformanceIssue("redundant_conversion", "Converting list literal to list is redundant", None, "low",
                     Some("Remove list() conversion from list literals"))

  /**
   * `_check_patterns`: at most one low-impact finding per regex over the whole code, in
   * the order wildcard import, debug print, redundant conversion.
   */
  function CheckPatterns(code: string, search: (Regex, string) -> bool): (r: seq<PerformanceIssue>)
    ensures |r| <= 3
    ensures forall f :: f in r ==> f.impact == "low"
    ensures WildcardImport in r <==> search(Regex("from\\s+\\*\\s+import", false), code)
    ensures DebugPrint in r <==> search(Regex("print\\s*\\(\\s*['\\\"]debug", true), code)
    ensures RedundantConversion in r <==> search(Regex("list\\s*\\(\\s*\\[\\s*", false), code)
    ensures forall i, j :: 0 <= i < j < |r| ==> r[i] != r[j]
  {
    (if search(Regex("from\\s+\\*\\s+import", false), code) then [WildcardImport] else [])
    + (if search(Regex("print\\s*\\(\\s*['\\\"]debug", true), code) then [DebugPrint] else [])
    + (if search(Regex("list\\s*\\(\\s*\\[\\s*", false), code) then [RedundantConversion] else [])
  }

  /** The findings of `PerformanceAnalyzer.analyze`: the tree findings, then the regex findings. */
  function PerformanceFindings(code: string, tree: Option<Node>, search: (Regex, string) -> bool)
    : (r: seq<PerformanceIssue>)
    ensures tree.None? ==> r == CheckPatterns(code, search)
  {
    (match tree
     case None => []
     case Some(root) => NodesPerformance(Walk(root)))
    + CheckPatterns(code, search)
  }

  /** The checks `PerformanceAnalyzer.analyze` applies to one walked node. */
  method CheckNode(node: Node) returns (issues: seq<PerformanceIssue>)
    ensures issues == NodePerformance(node)
  {
    issues := [];
    if node.kind.For? {
      var loopIssues := CheckLoopPatterns(node);
      issues := issues + loopIssues;
    }
    if node.kind.BinOp? && node.kind.isAdd {
      issues := issues + StringConcatFindings(node);
    }
    if node.kind.FunctionDef? {
      var depth := GetNestingDepth(node);
      if depth > 4 {
        issues := issues + [DeepNesting(node.kind.name, depth)];
      }
    }
  }

  /** `PerformanceAnalyzer.analyze`: the tree checks over the walk, then the regex checks. */
  method AnalyzePerformance(code: string, tree: Option<Node>, search: (Regex, string) -> bool)
    returns (issues: seq<PerformanceIssue>)
    ensures issues == PerformanceFindings(code, tree, search)
  {
    issues := [];
    if tree.Some? {
      var nodes := Walk(tree.value);
      for i := 0 to |nodes|
        invariant issues == NodesPerformance(nodes[..i])
      {
        assert nodes[..i + 1][..i] == nodes[..i];
        var more := CheckNode(nodes[i]);
        issues := issues + more;
      }
      assert nodes[..|nodes|] == nodes;
    }
    issues := issues + CheckPatterns(code, search);
  }

  // ===========================================================================
  // ErrorDetector
  // ===========================================================================

  /** `ErrorDetector.analyze`: the security findings and the performance findings. */
  method Analyze(code: string, tree: Option<Node>, search: (Regex, string) -> bool)
    returns (security: seq<SecurityIssue>, performance: seq<PerformanceIssue>)
    ensures security == SecurityFindings(code, tree, search)
    ensures performance == PerformanceFindings(code, tree, search)
  {
    security := AnalyzeSecurity(code, tree, search);
    performance := AnalyzePerformance(code, tree, search);
  }

  // ---------------------------------------------------------------------------
  // format_report
  // ---------------------------------------------------------------------------

  /** The report title as the source spells it (its emoji stored as mis-decoded UTF-8). */
  const ReportTitle: string := "ğŸ” Error & Issue Detection Report"
  const SecurityMark: string := "\nğŸ”’ Security"
  const PerformanceMark: string := "\nâš¡ Performance"
  const NoIssues: string := ": âœ“ No issues found"

  function SecurityHeader(n: nat): string {
    SecurityMark + " Issues (" + NatToString(n) + "):"
  }

  function PerformanceHeader(n: nat): string {
    PerformanceMark + " Issues (" + NatToString(n) + "):"
  }

  /** The first line of a security finding: its upper-cased severity and its message. */
  function SecurityEntry(i: SecurityIssue): string {
    "  [" + Upper(i.severity) + "] " + i.message
  }

  /** The first line of a performance finding: its upper-cased impact and its message. */
  function PerformanceEntry(i: PerformanceIssue): string {
    "  [" + Upper(i.impact) + "] " + i.message
  }

  /** The lines of the security findings: each entry, followed by its fix when it has a non-empty one. */
  function SecurityBlock(issues: seq<SecurityIssue>): (r: seq<string>)
    ensures |issues| <= |r| <= 2 * |issues|
  {
    if issues == [] then []
    else
      var i := issues[|issues| - 1];
      SecurityBlock(issues[..|issues| - 1])
      + [SecurityEntry(i)] + (if i.fix.Some? && i.fix.value != "" then ["    Fix: " + i.fix.value] else [])
  }

  /** The lines of the performance findings: each entry, followed by its non-empty suggestion. */
  function PerformanceBlock(issues: seq<PerformanceIssue>): (r: seq<string>)
    ensures |issues| <= |r| <= 2 * |issues|
  {
    if issues == [] then []
    else
      var i := issues[|issues| - 1];
      PerformanceBlock(issues[..|issues| - 1])
      + [PerformanceEntry(i)]
      + (if i.suggestion.Some? && i.suggestion.value != "" then ["    Suggestion: " + i.suggestion.value] else [])
  }

  /** The lines of `format_report`. */
  function ReportLines(security: seq<SecurityIssue>, performance: seq<PerformanceIssue>): seq<string> {
    [ReportTitle, Repeat("=", 40)]
    + (if security == [] then [SecurityMark + NoIssues] else [SecurityHeader(|security|)] + SecurityBlock(security))
    + (if performance == [] then [PerformanceMark + NoIssues]
       else [PerformanceHeader(|performance|)] + PerformanceBlock(performance))
  }

  /** `ErrorDetector.format_report`: the report lines joined by newlines, opening with the title. */
  function FormatReport(security: seq<SecurityIssue>, performance: seq<PerformanceIssue>): (r: string)
    ensures StartsWith(r, ReportTitle)
  {
    var lines := ReportLines(security, performance);
    JoinPrefix(lines, "\n", 1);
    assert Join(lines[..1], "\n") == ReportTitle;
    Join(lines, "\n")
  }

  lemma {:induction false} SecurityBlockListsAll(issues: seq<SecurityIssue>, k: nat)
    requires k < |issues|
    ensures SecurityEntry(issues[k]) in SecurityBlock(issues)
  {
    var init := issues[..|issues| - 1];
    if k < |issues| - 1 {
      SecurityBlockListsAll(init, k);
      assert init[k] == issues[k];
    }
  }

  lemma {:induction false} PerformanceBlockListsAll(issues: seq<PerformanceIssue>, k: nat)
    requires k < |issues|
    ensures PerformanceEntry(issues[k]) in PerformanceBlock(issues)
  {
    var init := issues[..|issues| - 1];
    if k < |issues| - 1 {
      PerformanceBlockListsAll(init, k);
      assert init[k] == issues[k];
    }
  }

  /**
   * The report starts with its title, has the security section before the performance
   * section, each section either says it found nothing or gives the number of findings,
   * and every finding's severity (or impact) and message line is in the report.
   */
  lemma {:induction false} ReportSections(security: seq<SecurityIssue>, performance: seq<PerformanceIssue>)
    ensures var r := ReportLines(security, performance);
      |r| >= 4 && r[0] == ReportTitle
      && (security == [] <==> r[2] == SecurityMark + NoIssues)
      && (security != [] ==> r[2] == SecurityHeader(|security|))
      && |r| == 4 + |SecurityBlock(security)| + |PerformanceBlock(performance)|
  {
    var r := ReportLines(security, performance);
    if security != [] {
      assert r[2] == SecurityHeader(|security|);
      assert SecurityHeader(|security|)[|SecurityMark|] == ' ';
      assert (SecurityMark + NoIssues)[|SecurityMark|] == ':';
    }
  }

  lemma {:induction false} SecurityEntryInReport(security: seq<SecurityIssue>, performance: seq<PerformanceIssue>, k: nat)
    requires k < |security|
    ensures SecurityEntry(security[k]) in ReportLines(security, performance)
  {
    SecurityBlockListsAll(security, k);
    var tail := if performance == [] then [PerformanceMark + NoIssues]
                else [PerformanceHeader(|performance|)] + PerformanceBlock(performance);
    assert ReportLines(security, performance)
        == [ReportTitle, Repeat("=", 40)] + [SecurityHeader(|security|)] + SecurityBlock(security) + tail;
  }

  lemma {:induction false} PerformanceEntryInReport(security: seq<SecurityIssue>, performance: seq<PerformanceIssue>, k: nat)
    requires k < |performance|
    ensures PerformanceEntry(performance[k]) in ReportLines(security, performance)
  {
    PerformanceBlockListsAll(performance, k);
    var head := [ReportTitle, Repeat("=", 40)]
      + (if security == [] then [SecurityMark + NoIssues] else [SecurityHeader(|security|)] + SecurityBlock(security));
    assert ReportLines(security, performance) == head + [PerformanceHeader(|performance|)] + PerformanceBlock(performance);
  }

  /** The report names every finding: the entry line of each one appears in the text. */
  lemma {:induction false} ReportListsEveryFinding(security: seq<SecurityIssue>, performance: seq<PerformanceIssue>)
    ensures forall k :: 0 <= k < |security| ==> Contains(FormatReport(security, performance), SecurityEntry(security[k]))
    ensures forall k :: 0 <= k < |performance| ==>
              Contains(FormatReport(security, performance), PerformanceEntry(performance[k]))
  {
    var r := ReportLines(security, performance);
    forall k | 0 <= k < |security|
      ensures Contains(FormatReport(security, performance), SecurityEntry(security[k]))
    {
      SecurityEntryInReport(security, performance, k);
      var j :| 0 <= j < |r| && r[j] == SecurityEntry(security[k]);
      JoinContains(r, "\n", j);
    }
    forall k | 0 <= k < |performance|
      ensures Contains(FormatReport(security, performance), PerformanceEntry(performance[k]))
    {
      PerformanceEntryInReport(security, performance, k);
      var j :| 0 <= j < |r| && r[j] == PerformanceEntry(performance[k]);
      JoinContains(r, "\n", j);
    }
  }
}
