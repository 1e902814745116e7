/**
 * The quality metrics of noless/code_metrics.py: line, comment and duplicate counts over
 * the lines of the code, complexity, definition counts and type-hint coverage over its
 * syntax tree (`None` when it does not parse), and the clamped score with its letter
 * grade. The analyzer object keeps the metrics of its last analysis, which the score reads.
 */
module CodeMetricsAnalysis {
  import opened Py
  import opened Schemas
  import opened SyntaxTree

  // ===========================================================================
  // Line metrics
  // ===========================================================================

  /** A line that is not blank and not a comment once stripped. */
  predicate IsCodeLine(line: string) {
    Strip(line) != "" && !StartsWith(Strip(line), "#")
  }

  /** A line that is a comment once stripped. */
  predicate IsCommentLine(line: string) {
    StartsWith(Strip(line), "#")
  }

  /** A line that is not blank once stripped. */
  predicate IsNonBlank(line: string) {
    Strip(line) != ""
  }

  /** `_count_lines`: the lines that hold code. */
  function CountLines(code: string): nat {
    CountIf(Split(code, '\n'), IsCodeLine)
  }

  /** Empty code has no lines of code. */
  lemma {:induction false} EmptyCodeHasNoLines()
    ensures CountLines("") == 0
  {
    assert Split("", '\n') == [""];
    assert Strip("") == "" by { StripEmptyIff(""); }
    assert CountIf([""], IsCodeLine) == CountIf([""][..0], IsCodeLine);
  }

  /** `_calculate_comment_ratio`: comment lines over non-blank lines, 0.0 without any. */
  function CommentRatio(code: string): (r: real)
    ensures 0.0 <= r <= 1.0
    ensures CountIf(Split(code, '\n'), IsNonBlank) == 0 ==> r == 0.0
  {
    var lines := Split(code, '\n');
    var comments := CountIf(lines, IsCommentLine);
    var nonBlank := CountIf(lines, IsNonBlank);
    CommentsAreNonBlank(lines);
    if nonBlank > 0 then Ratio(comments, nonBlank) else 0.0
  }

  /** `part / whole` for a part of a whole. */
  function Ratio(part: nat, whole: nat): (r: real)
    requires part <= whole && whole > 0
    ensures 0.0 <= r <= 1.0
    ensures r == 1.0 <==> part == whole
  {
    var r := part as real / whole as real;
    assert r * whole as real == part as real;
    r
  }

  /** A comment line is never blank: it starts with `#`. */
  lemma {:induction false} CommentsAreNonBlank(lines: seq<string>)
    ensures CountIf(lines, IsCommentLine) <= CountIf(lines, IsNonBlank)
  {
    CountIfMono(lines, IsCommentLine, IsNonBlank);
  }

  /** Code lines and comment lines together are exactly the non-blank lines. */
  lemma {:induction false} LinesPartition(lines: seq<string>)
    ensures CountIf(lines, IsCodeLine) + CountIf(lines, IsCommentLine) == CountIf(lines, IsNonBlank)
  {
    if lines != [] {
      LinesPartition(lines[..|lines| - 1]);
    }
  }

  // ===========================================================================
  // Duplicated lines
  // ===========================================================================

  /** The stripped code lines, in order, that `_find_duplicated_lines` compares. */
  function Cleaned(lines: seq<string>): (r: seq<string>)
    ensures |r| == CountIf(lines, IsCodeLine)
  {
    if lines == [] then []
    else Cleaned(lines[..|lines| - 1]) + (if IsCodeLine(lines[|lines| - 1]) then [Strip(lines[|lines| - 1])] else [])
  }

  /** The number of positions whose line already occurred earlier. */
  function Duplicates(s: seq<string>): (r: nat)
    ensures r <= |s|
  {
    if s == [] then 0 else Duplicates(s[..|s| - 1]) + (if s[|s| - 1] in s[..|s| - 1] then 1 else 0)
  }

  function Elements(s: seq<string>): set<string> {
    set x | x in s
  }

  /** Every line is either the first of its kind or a repeat: the repeats are the length less the distinct lines. */
  lemma {:induction false} DuplicatesAndDistinct(s: seq<string>)
    ensures Duplicates(s) + |Elements(s)| == |s|
  {
    if s != [] {
      var init := s[..|s| - 1];
      var last := s[|s| - 1];
      DuplicatesAndDistinct(init);
      assert s == init + [last];
      assert Elements(s) == Elements(init) + {last};
      if last in init {
        assert Elements(s) == Elements(init);
      } else {
        assert last !in Elements(init);
      }
    }
  }

  /** A sequence without repeats has no duplicates. */
  lemma {:induction false} DistinctHasNoDuplicates(s: seq<string>)
    requires forall i, j :: 0 <= i < j < |s| ==> s[i] != s[j]
    ensures Duplicates(s) == 0
  {
    DuplicatesAndDistinct(s);
    DistinctElements(s);
  }

  lemma {:induction false} DistinctElements(s: seq<string>)
    requires forall i, j :: 0 <= i < j < |s| ==> s[i] != s[j]
    ensures |Elements(s)| == |s|
  {
    if s != [] {
      var init := s[..|s| - 1];
      DistinctElements(init);
      assert s == init + [s[|s| - 1]];
      assert Elements(s) == Elements(init) + {s[|s| - 1]};
      assert s[|s| - 1] !in Elements(init);
    }
  }

  /** `_find_duplicated_lines`: one pass over the cleaned lines with a set of those seen. */
  method FindDuplicatedLines(code: string) returns (duplicates: nat)
    ensures duplicates == Duplicates(Cleaned(Split(code, '\n')))
    ensures duplicates <= CountLines(code)
  {
    var cleaned := Cleaned(Split(code, '\n'));
    duplicates := 0;
    var seen: set<string> := {};
    for i := 0 to |cleaned|
      invariant seen == Elements(cleaned[..i])
      invariant duplicates == Duplicates(cleaned[..i])
    {
      assert cleaned[..i + 1][..i] == cleaned[..i];
      var line := cleaned[i];
      if line in seen {
        duplicates := duplicates + 1;
      }
      seen := seen + {line};
      assert Elements(cleaned[..i + 1]) == Elements(cleaned[..i]) + {line} by {
        assert cleaned[..i + 1] == cleaned[..i] + [line];
      }
    }
    assert cleaned[..|cleaned|] == cleaned;
  }

  // ===========================================================================
  // Tree metrics
  // ===========================================================================

  predicate IsFunction(n: Node) {
    n.kind.FunctionDef?
  }

  predicate IsClass(n: Node) {
    n.kind.ClassDef?
  }

  /** A decision point: `if`, `for`, `while`, an `except` clause or an `and`/`or` chain. */
  predicate IsBranch(n: Node) {
    n.kind.If? || n.kind.For? || n.kind.While? || n.kind.ExceptHandler? || n.kind.BoolOp?
  }

  /** A function with a return annotation or at least one annotated positional argument. */
  predicate IsHinted(n: Node) {
    n.kind.FunctionDef? && (n.kind.returnAnnotated || true in n.kind.argsAnnotated)
  }

  /** `_count_functions`: the definitions in the walk, 0 when the code does not parse. */
  function CountFunctions(tree: Option<Node>): nat {
    match tree
    case None => 0
    case Some(root) => CountIf(Walk(root), IsFunction)
  }

  /** `_count_classes`. */
  function CountClasses(tree: Option<Node>): nat {
    match tree
    case None => 0
    case Some(root) => CountIf(Walk(root), IsClass)
  }

  /** The walk reaches every definition of the tree, nested ones included. */
  lemma {:induction false} DefinitionsCounted(root: Node)
    ensures CountFunctions(Some(root)) == CountTree(root, IsFunction)
    ensures CountClasses(Some(root)) == CountTree(root, IsClass)
  {
    WalkCountsTree(root, IsFunction);
    WalkCountsTree(root, IsClass);
  }

  /** The complexity of one function: 1 plus the decision points walked from it. */
  function FunctionComplexity(f: Node): (r: nat)
    ensures r >= 1
  {
    1 + CountIf(Walk(f), IsBranch)
  }

  /** The decision points of nested functions count towards the enclosing function too. */
  lemma {:induction false} FunctionComplexityOfTree(f: Node)
    ensures FunctionComplexity(f) == 1 + CountTree(f, IsBranch)
  {
    WalkCountsTree(f, IsBranch);
  }

  /** The complexities of the functions among the first walked nodes, in walk order. */
  function Complexities(nodes: seq<Node>): (r: seq<nat>)
    ensures |r| == CountIf(nodes, IsFunction)
    ensures forall k :: 0 <= k < |r| ==> r[k] >= 1
  {
    if nodes == [] then []
    else
      var last := nodes[|nodes| - 1];
      Complexities(nodes[..|nodes| - 1]) + (if IsFunction(last) then [FunctionComplexity(last)] else [])
  }

  function Sum(s: seq<nat>): nat {
    if s == [] then 0 else Sum(s[..|s| - 1]) + s[|s| - 1]
  }

  lemma {:induction false} SumAtLeastLength(s: seq<nat>)
    requires forall k :: 0 <= k < |s| ==> s[k] >= 1
    ensures Sum(s) >= |s|
  {
    if s != [] {
      SumAtLeastLength(s[..|s| - 1]);
    }
  }

  /** The mean of values that are each at least 1 is at least 1. */
  lemma {:induction false} MeanAtLeastOne(sum: nat, count: nat)
    requires 0 < count <= sum
    ensures sum as real / count as real >= 1.0
  {
    var c, s := count as real, sum as real;
    var r := s / c;
    assert r * c == s;
    ProductSign(r - 1.0, c);
    assert (r - 1.0) * c == s - c;
  }

  lemma {:induction false} ProductSign(x: real, y: real)
    ensures x < 0.0 && y > 0.0 ==> x * y < 0.0
  {
  }

  /**
   * `_calculate_complexity`: the mean complexity of the functions, 1.0 without
   * functions, 0.0 when the code does not parse; it is never below 1.0 for code that parses.
   */
  function Complexity(tree: Option<Node>): (r: real)
    ensures tree.None? ==> r == 0.0
    ensures tree.Some? ==> r >= 1.0
    ensures tree.Some? && CountFunctions(tree) == 0 ==> r == 1.0
  {
    match tree
    case None => 0.0
    case Some(root) =>
      var cs := Complexities(Walk(root));
      if cs == [] then 1.0 else Mean(cs)
  }

  /** The mean of complexities, each at least 1. */
  function Mean(cs: seq<nat>): (r: real)
    requires cs != [] && forall k :: 0 <= k < |cs| ==> cs[k] >= 1
    ensures r >= 1.0
  {
    SumAtLeastLength(cs);
    MeanAtLeastOne(Sum(cs), |cs|);
    Sum(cs) as real / |cs| as real
  }

  /** The inner loop of `_calculate_complexity`: 1 plus the decision points of one function. */
  method ScoreFunction(f: Node) returns (complexity: nat)
    ensures complexity == FunctionComplexity(f)
  {
    var inner := Walk(f);
    complexity := 1;
    for j := 0 to |inner|
      invariant complexity == 1 + CountIf(inner[..j], IsBranch)
    {
      assert inner[..j + 1][..j] == inner[..j];
      if IsBranch(inner[j]) {
        complexity := complexity + 1;
      }
    }
    assert inner[..|inner|] == inner;
  }

  method CalculateComplexity(tree: Option<Node>) returns (c: real)
    ensures c == Complexity(tree)
  {
    if tree.None? {
      return 0.0;
    }
    var nodes := Walk(tree.value);
    var complexities: seq<nat> := [];
    for i := 0 to |nodes|
      invariant complexities == Complexities(nodes[..i])
    {
      assert nodes[..i + 1][..i] == nodes[..i];
      if IsFunction(nodes[i]) {
        var complexity := ScoreFunction(nodes[i]);
        complexities := complexities + [complexity];
      }
    }
    assert nodes[..|nodes|] == nodes;
    c := if complexities != [] then Sum(complexities) as real / |complexities| as real else 1.0;
  }

  /**
   * `_calculate_type_hints_coverage`: the fraction of functions with a hint, 1.0
   * without functions, 0.0 when the code does not parse.
   */
  function TypeHintsCoverage(tree: Option<Node>): (r: real)
    ensures 0.0 <= r <= 1.0
    ensures tree.None? ==> r == 0.0
    ensures tree.Some? && CountFunctions(tree) == 0 ==> r == 1.0
    ensures tree.Some? ==> (r == 1.0 <==> CountIf(Walk(tree.value), IsHinted) == CountFunctions(tree))
  {
    match tree
    case None => 0.0
    case Some(root) =>
      var functions := CountIf(Walk(root), IsFunction);
      var hinted := CountIf(Walk(root), IsHinted);
      CountIfMono(Walk(root), IsHinted, IsFunction);
      if functions == 0 then 1.0 else Ratio(hinted, functions)
  }

  // ===========================================================================
  // Score and grade
  // ===========================================================================

  function RMin(a: real, b: real): real { if a <= b then a else b }
  function RMax(a: real, b: real): real { if a >= b then a else b }

  /** `_calculate_quality_score` from its four inputs. */
  function Score(complexity: real, commentRatio: real, duplicates: int, coverage: real): (r: real)
    ensures 0.0 <= r <= 100.0
  {
    var s0 := 100.0;
    var s1 := if complexity > 5.0 then s0 - RMin(20.0, (complexity - 5.0) * 2.0) else s0;
    var s2 := s1 + RMin(10.0, commentRatio * 50.0);
    var s3 := s2 - RMin(15.0, duplicates as real);
    var s4 := s3 + RMin(10.0, coverage * 30.0);
    RMax(0.0, RMin(100.0, s4))
  }

  /** More duplicated lines never raise the score. */
  lemma {:induction false} ScoreFallsWithDuplicates(c: real, ratio: real, d1: int, d2: int, cov: real)
    requires d1 <= d2
    ensures Score(c, ratio, d2, cov) <= Score(c, ratio, d1, cov)
  {
  }

  /** A higher comment ratio never lowers the score. */
  lemma {:induction false} ScoreRisesWithComments(c: real, r1: real, r2: real, d: int, cov: real)
    requires r1 <= r2
    ensures Score(c, r1, d, cov) <= Score(c, r2, d, cov)
  {
  }

  /** A higher type-hint coverage never lowers the score. */
  lemma {:induction false} ScoreRisesWithCoverage(c: real, ratio: real, d: int, v1: real, v2: real)
    requires v1 <= v2
    ensures Score(c, ratio, d, v1) <= Score(c, ratio, d, v2)
  {
  }

  /** A higher complexity never raises the score, and a complexity up to 5 costs nothing. */
  lemma {:induction false} ScoreFallsWithComplexity(c1: real, c2: real, ratio: real, d: int, cov: real)
    requires c1 <= c2
    ensures Score(c2, ratio, d, cov) <= Score(c1, ratio, d, cov)
    ensures c2 <= 5.0 ==> Score(c2, ratio, d, cov) == Score(0.0, ratio, d, cov)
  {
  }

  /** `get_quality_grade` for a score. */
  function Grade(score: real): (g: string)
    ensures g in {"A", "B", "C", "D", "F"}
    ensures g == "A" <==> score >= 90.0
    ensures g == "F" <==> score < 60.0
  {
    if score >= 90.0 then "A"
    else if score >= 80.0 then "B"
    else if score >= 70.0 then "C"
    else if score >= 60.0 then "D"
    else "F"
  }

  /** A higher score never gets a worse grade ("A" < "B" < ... < "F" as letters). */
  lemma {:induction false} GradeMonotone(s1: real, s2: real)
    requires s1 <= s2
    ensures Grade(s2)[0] <= Grade(s1)[0]
  {
  }

  /** The metrics of `analyze` for a code text and its tree. */
  function MetricsOf(code: string, tree: Option<Node>): CodeMetrics {
    CodeMetrics(
      CountLines(code),
      Complexity(tree),
      CountFunctions(tree),
      CountClasses(tree),
      CommentRatio(code),
      Duplicates(Cleaned(Split(code, '\n'))),
      TypeHintsCoverage(tree))
  }

  /**
   * The score of the stored metrics; a fresh analyzer (empty metrics dict) uses the
   * defaults complexity 1.0, ratio 0.0, no duplicates and coverage 0.0.
   */
  function ScoreOf(metrics: Option<CodeMetrics>): (r: real)
    ensures metrics.None? ==> r == 100.0
  {
    match metrics
    case None => Score(1.0, 0.0, 0, 0.0)
    case Some(m) => Score(m.cyclomaticComplexity, m.commentsRatio, m.duplicatedLines, m.typeHintsCoverage)
  }

  /** Code that does not parse loses nothing for complexity and gains nothing for hints. */
  lemma {:induction false} UnparsedCodeScore(code: string)
    ensures var m := MetricsOf(code, None);
      m.cyclomaticComplexity == 0.0 && m.typeHintsCoverage == 0.0 && m.functions == 0 && m.classes == 0
      && ScoreOf(Some(m)) == RMax(0.0, RMin(100.0, 100.0 + RMin(10.0, m.commentsRatio * 50.0)
                                                    - RMin(15.0, m.duplicatedLines as real)))
  {
  }

  /** `CodeMetricsAnalyzer`: the metrics dict of the last analysis, `None` before any. */
  class CodeMetricsAnalyzer {
    var metrics: Option<CodeMetrics>

    constructor()
      ensures metrics == None
    {
      metrics := None;
    }

    /** `analyze`: computes every metric, stores them and returns them. */
    method Analyze(code: string, tree: Option<Node>) returns (m: CodeMetrics)
      modifies this
      ensures m == MetricsOf(code, tree)
      ensures metrics == Some(m)
    {
      var complexity := CalculateComplexity(tree);
      var duplicates := FindDuplicatedLines(code);
      m := CodeMetrics(CountLines(code), complexity, CountFunctions(tree), CountClasses(tree),
                       CommentRatio(code), duplicates, TypeHintsCoverage(tree));
      metrics := Some(m);
    }

    /** `_calculate_quality_score`. */
    function QualityScore(): (r: real)
      reads this
      ensures 0.0 <= r <= 100.0
    {
      ScoreOf(metrics)
    }

    /** `get_quality_grade`. */
    function QualityGrade(): (g: string)
      reads this
      ensures g in {"A", "B", "C", "D", "F"}
    {
      Grade(QualityScore())
    }
  }

  /** Before any analysis the metrics dict is empty and every default gives the grade "A". */
  lemma {:induction false} FreshAnalyzerGradesA()
    ensures Grade(ScoreOf(None)) == "A"
  {
  }
}
