/**
 * How the code validator reads a reviewer's reply (noless/code_validator.py):
 * the four-stage JSON recovery of `_robust_json_parse`, with its string- and
 * escape-aware brace scanner, and `_parse_review_response`, which completes a
 * parsed record or falls back to a plain-text heuristic.
 *
 * `json.loads` is the parameter `parse`: `None` stands for JSONDecodeError,
 * `Some(VNone)` for a document that is `null`.
 */
module ResponseParsing {
  import opened Py
  import opened Schemas

  // ===========================================================================
  // Stage 3: the brace scanner
  // ===========================================================================

  /** The scanner's variables `brace_count`, `in_string` and `escape_next`. */
  datatype ScanState = ScanState(depth: int, inString: bool, escapeNext: bool)

  const Initial := ScanState(0, false, false)

  /** One pass of the scan loop's body over the character `c`. */
  function Step(st: ScanState, c: char): ScanState {
    if st.escapeNext then st.(escapeNext := false)
    else if c == '\\' then st.(escapeNext := true)
    else if c == '"' then st.(inString := !st.inString)
    else if st.inString then st
    else if c == '{' then st.(depth := st.depth + 1)
    else if c == '}' then st.(depth := st.depth - 1)
    else st
  }

  /** The scanner state after reading `s` from the initial state. */
  function Run(s: string): ScanState {
    if |s| == 0 then Initial else Step(Run(s[..|s| - 1]), s[|s| - 1])
  }

  /** The state after reading `t` from `st`, front to back. */
  function RunFrom(st: ScanState, t: string): ScanState
    decreases |t|
  {
    if |t| == 0 then st else RunFrom(Step(st, t[0]), t[1..])
  }

  /** Reading `text[start..k]` inclusive brings the depth back to 0. */
  predicate Closes(text: string, start: nat, k: nat)
    requires start <= k < |text|
  {
    Run(text[start..k + 1]).depth == 0
  }

  /** The first `k' >= k` at which the scan that began at `start` closes. */
  function CloseFrom(text: string, start: nat, k: nat): (r: Option<nat>)
    requires start <= k <= |text|
    ensures r.Some? ==> k <= r.value < |text| && Closes(text, start, r.value)
    ensures r.Some? ==> forall j :: k <= j < r.value ==> !Closes(text, start, j)
    ensures r.None? ==> forall j :: k <= j < |text| ==> !Closes(text, start, j)
    decreases |text| - k
  {
    if k == |text| then None
    else if Closes(text, start, k) then Some(k)
    else CloseFrom(text, start, k + 1)
  }

  /**
   * The span stage 3 extracts: from the first `{` to the first index where the depth
   * counted outside strings returns to 0; `None` when there is no `{` or the depth
   * never returns to 0.
   */
  function ObjectSpan(text: string): (r: Option<(nat, nat)>)
    ensures r.Some? ==> r.value.0 <= r.value.1 < |text| && text[r.value.0] == '{'
  {
    match FindFrom(text, "{", 0)
    case None => None
    case Some(s) =>
      match CloseFrom(text, s, s)
      case None => None
      case Some(e) => Some((s, e))
  }

  /** The scan loop of stage 3, with its `break` at the closing brace. */
  method ScanObjectSpan(text: string) returns (span: Option<(nat, nat)>)
    ensures span == ObjectSpan(text)
  {
    span := None;
    var found := FindFrom(text, "{", 0);
    if found.None? {
      return;
    }
    var start := found.value;
    assert text[start..start + 1] == "{";
    var braceCount := 0;
    var endIdx := -1;
    var inString := false;
    var escapeNext := false;
    var i := start;
    while i < |text|
      invariant start <= i <= |text|
      invariant endIdx == -1 && text[start] == '{'
      invariant Run(text[start..i]) == ScanState(braceCount, inString, escapeNext)
      invariant i > start ==> braceCount >= 1
      invariant forall j :: start <= j < i ==> !Closes(text, start, j)
      decreases |text| - i
    {
      var c := text[i];
      LastStep(text, start, i);
      if escapeNext {
        escapeNext := false;
      } else if c == '\\' {
        escapeNext := true;
      } else if c == '"' {
        inString := !inString;
      } else if !inString {
        if c == '{' {
          braceCount := braceCount + 1;
        } else if c == '}' {
          braceCount := braceCount - 1;
          if braceCount == 0 {
            assert Closes(text, start, i);
            endIdx := i;
            break;
          }
        }
      }
      assert braceCount >= 1;
      assert !Closes(text, start, i);
      i := i + 1;
    }
    if endIdx != -1 {
      span := Some((start, endIdx));
    }
  }

  /** Reading `p` then `t` is reading `t` from the state `p` leaves. */
  lemma {:induction false} RunAppend(p: string, t: string)
    ensures Run(p + t) == RunFrom(Run(p), t)
    decreases |t|
  {
    if |t| > 0 {
      var t' := t[..|t| - 1];
      assert (p + t)[..|p + t| - 1] == p + t';
      RunAppend(p, t');
      RunFromSnoc(Run(p), t', t[|t| - 1]);
      assert t' + [t[|t| - 1]] == t;
    } else {
      assert p + t == p;
    }
  }

  lemma {:induction false} RunFromSnoc(st: ScanState, t: string, c: char)
    ensures RunFrom(st, t + [c]) == Step(RunFrom(st, t), c)
    decreases |t|
  {
    if |t| > 0 {
      assert (t + [c])[1..] == t[1..] + [c];
      RunFromSnoc(Step(st, t[0]), t[1..], c);
    } else {
      assert (t + [c])[1..] == [];
    }
  }

  /**
   * The inside of a JSON string as the scanner sees it: characters other than `"`
   * and `\`, and escape pairs of a backslash and any character.
   */
  predicate StringBody(t: string) {
    if |t| == 0 then true
    else if t[0] == '\\' then |t| >= 2 && StringBody(t[2..])
    else t[0] != '"' && StringBody(t[1..])
  }

  /** Inside a string, a body leaves the scanner inside the string with its depth unchanged. */
  lemma {:induction false} BodyKeepsState(st: ScanState, t: string)
    requires st.inString && !st.escapeNext && StringBody(t)
    ensures RunFrom(st, t) == st
    decreases |t|
  {
    if |t| > 0 {
      if t[0] == '\\' {
        assert Step(st, t[0]) == st.(escapeNext := true);
        assert t[1..][1..] == t[2..];
        BodyKeepsState(st, t[2..]);
      } else {
        BodyKeepsState(st, t[1..]);
      }
    }
  }

  /**
   * A quoted string is invisible to the scanner: braces and escaped quotes inside it
   * change neither the depth nor the in-string flag.
   */
  lemma {:induction false} QuotedStringIsNeutral(p: string, body: string)
    requires !Run(p).inString && !Run(p).escapeNext && StringBody(body)
    ensures Run(p + ("\"" + body + "\"")) == Run(p)
  {
    var st := Run(p);
    var q := "\"" + body + "\"";
    RunAppend(p, q);
    var inside := st.(inString := true);
    assert Step(st, '"') == inside;
    assert q[1..] == body + "\"";
    assert RunFrom(st, q) == RunFrom(inside, body + "\"");
    BodyKeepsState(inside, body);
    RunAppendFrom(inside, body, "\"");
    assert RunFrom(inside, "\"") == RunFrom(Step(inside, '"'), "");
    assert Step(inside, '"') == st;
  }

  lemma {:induction false} RunAppendFrom(st: ScanState, a: string, b: string)
    ensures RunFrom(st, a + b) == RunFrom(RunFrom(st, a), b)
    decreases |a|
  {
    if |a| > 0 {
      assert (a + b)[1..] == a[1..] + b;
      RunAppendFrom(Step(st, a[0]), a[1..], b);
    } else {
      assert a + b == b;
    }
  }

  /** A backslash makes the scanner skip the next character, whatever it is. */
  lemma {:induction false} EscapedCharIsSkipped(p: string, c: char)
    requires !Run(p).escapeNext
    ensures Run(p + ['\\', c]) == Run(p)
  {
    RunAppend(p, ['\\', c]);
    assert ['\\', c][1..] == [c] && [c][1..] == [];
    assert RunFrom(Run(p), ['\\', c]) == RunFrom(Step(Run(p), '\\'), [c]);
    assert RunFrom(Step(Run(p), '\\'), [c]) == Step(Step(Run(p), '\\'), c);
  }

  /** Until the scan closes, the depth after each character from the opening brace on is positive. */
  lemma {:induction false} DepthPositiveBeforeClose(text: string, s: nat, j: nat)
    requires s <= j < |text| && text[s] == '{'
    requires forall i :: s <= i <= j ==> !Closes(text, s, i)
    ensures Run(text[s..j + 1]).depth >= 1
    decreases j
  {
    assert text[s..j + 1][..j - s] == text[s..j];
    if j == s {
      assert text[s..j][..0] == [];
    } else {
      DepthPositiveBeforeClose(text, s, j - 1);
      assert !Closes(text, s, j);
    }
  }

  /** The first `{` of the text, with no `{` before it. */
  lemma {:induction false} FirstBrace(text: string)
    requires FindFrom(text, "{", 0).Some?
    ensures var s := FindFrom(text, "{", 0).value;
      s < |text| && text[s] == '{' && forall k :: 0 <= k < s ==> text[k] != '{'
  {
    var s := FindFrom(text, "{", 0).value;
    assert text[s..s + 1] == "{";
    forall k | 0 <= k < s ensures text[k] != '{' {
      assert !At(text, "{", k);
      assert text[k..k + 1] == [text[k]];
    }
  }

  /** Where a scan from an opening brace closes: a `}` read outside strings, unescaped, at depth 1. */
  lemma {:induction false} CloseShape(text: string, s: nat, e: nat)
    requires s < |text| && text[s] == '{' && CloseFrom(text, s, s) == Some(e)
    ensures s < e && text[e] == '}' && Run(text[s..e]) == ScanState(1, false, false)
  {
    OpeningBraceDoesNotClose(text, s);
    DepthPositiveBeforeClose(text, s, e - 1);
    LastStep(text, s, e);
  }

  lemma {:induction false} OpeningBraceDoesNotClose(text: string, s: nat)
    requires s < |text| && text[s] == '{'
    ensures !Closes(text, s, s)
  {
    assert text[s..s + 1][..0] == [];
    assert Run(text[s..s + 1]) == Step(Initial, '{');
  }

  lemma {:induction false} LastStep(text: string, s: nat, e: nat)
    requires s <= e < |text|
    ensures Run(text[s..e + 1]) == Step(Run(text[s..e]), text[e])
  {
    assert text[s..e + 1][..e - s] == text[s..e];
  }

  /**
   * A recovered span runs from the first `{` to a `}` read outside any string and
   * not escaped, at which the depth drops from 1 to 0.
   */
  lemma {:induction false} SpanShape(text: string)
    requires ObjectSpan(text).Some?
    ensures var (s, e) := ObjectSpan(text).value;
      s < e < |text| && text[s] == '{' && text[e] == '}'
      && (forall k :: 0 <= k < s ==> text[k] != '{')
      && Run(text[s..e]) == ScanState(1, false, false)
  {
    FirstBrace(text);
    var (s, e) := ObjectSpan(text).value;
    CloseShape(text, s, e);
  }

  // ===========================================================================
  // Stages 2, 3 (repair) and 4: fences, trailing commas, flat objects
  // ===========================================================================

  /** The first index `>= k` that is not whitespace (`|s|` if none). */
  function SkipSpaces(s: string, k: nat): (r: nat)
    requires k <= |s|
    ensures k <= r <= |s| && (r == |s| || !IsSpace(s[r]))
    ensures forall j :: k <= j < r ==> IsSpace(s[j])
    decreases |s| - k
  {
    if k < |s| && IsSpace(s[k]) then SkipSpaces(s, k + 1) else k
  }

  /**
   * The group of re.search(r'```TAG\s*(.*?)\s*```', text, re.DOTALL): the leftmost
   * opening fence decides the match, the lazy group ends at the first closing fence,
   * and the surrounding `\s*` take the whitespace at both ends.
   */
  function FencedBlock(text: string, tag: string): (r: Option<string>)
    ensures r.Some? ==> Contains(text, "```" + tag)
    ensures r.Some? ==> !Contains(r.value, "```")
    ensures r.Some? && r.value != [] ==> !IsSpace(r.value[0]) && !IsSpace(r.value[|r.value| - 1])
  {
    match FindFrom(text, "```" + tag, 0)
    case None => None
    case Some(i) =>
      var g := SkipSpaces(text, i + 3 + |tag|);
      match FindFrom(text, "```", g)
      case None => None
      case Some(q) =>
        var body := RStrip(text[g..q]);
        NoFenceBefore(text, g, q, body);
        Some(body)
  }

  /** Text between `g` and the first fence at or after `g` holds no fence. */
  lemma {:induction false} NoFenceBefore(text: string, g: nat, q: nat, body: string)
    requires g <= q <= |text|
    requires forall j :: g <= j < q ==> !At(text, "```", j)
    requires |body| <= q - g && body == text[g..q][..|body|]
    ensures !Contains(body, "```")
  {
    if Contains(body, "```") {
      var j := FindFrom(body, "```", 0).value;
      FenceShifts(text, g, q, body, j);
      assert false;
    }
  }

  /** A fence inside a prefix of `text[g..q]` is a fence of `text` before `q`. */
  lemma {:induction false} FenceShifts(text: string, g: nat, q: nat, body: string, j: nat)
    requires g <= q <= |text|
    requires |body| <= q - g && body == text[g..q][..|body|]
    requires At(body, "```", j)
    ensures g + j < q && At(text, "```", g + j)
  {
    forall i | j <= i < j + 3 ensures body[i] == text[g + i] {
      assert body[i] == text[g..q][i];
    }
    assert text[g + j..g + j + 3] == body[j..j + 3];
  }

  /** `re.sub(r',\s*([}\]])', r'\1', s)`: a comma followed by whitespace and `}` or `]` is deleted with that whitespace. */
  function StripTrailingCommas(s: string): string
    decreases |s|
  {
    if |s| == 0 then s
    else if s[0] == ',' && SkipSpaces(s, 1) < |s| && (s[SkipSpaces(s, 1)] == '}' || s[SkipSpaces(s, 1)] == ']') then
      var k := SkipSpaces(s, 1);
      [s[k]] + StripTrailingCommas(s[k + 1..])
    else [s[0]] + StripTrailingCommas(s[1..])
  }

  /** The text without its commas and whitespace. */
  function Skeleton(s: string): string {
    if |s| == 0 then s
    else (if s[0] == ',' || IsSpace(s[0]) then "" else [s[0]]) + Skeleton(s[1..])
  }

  /** A comma at `c` that only whitespace separates from a closing `}` or `]`. */
  predicate TrailingCommaAt(s: string, c: nat) {
    c < |s| && s[c] == ',' && SkipSpaces(s, c + 1) < |s|
    && (s[SkipSpaces(s, c + 1)] == '}' || s[SkipSpaces(s, c + 1)] == ']')
  }

  lemma {:induction false} SkeletonAppend(a: string, b: string)
    ensures Skeleton(a + b) == Skeleton(a) + Skeleton(b)
    decreases |a|
  {
    if |a| > 0 {
      assert (a + b)[1..] == a[1..] + b;
      SkeletonAppend(a[1..], b);
    } else {
      assert a + b == b;
    }
  }

  lemma {:induction false} SkeletonOfSpaces(s: string)
    requires forall j :: 0 <= j < |s| ==> IsSpace(s[j])
    ensures Skeleton(s) == ""
    decreases |s|
  {
    if |s| > 0 { SkeletonOfSpaces(s[1..]); }
  }

  /** A trailing comma and the whitespace after it add nothing to the skeleton. */
  lemma {:induction false} SkeletonOfTrailingComma(s: string, k: nat)
    requires TrailingCommaAt(s, 0) && k == SkipSpaces(s, 1)
    ensures Skeleton(s) == Skeleton([s[k]]) + Skeleton(s[k + 1..])
  {
    var rest := s[k + 1..];
    assert s == [s[0]] + s[1..k] + [s[k]] + rest;
    SkeletonAppend([s[0]] + s[1..k] + [s[k]], rest);
    SkeletonAppend([s[0]] + s[1..k], [s[k]]);
    SkeletonAppend([s[0]], s[1..k]);
    SkeletonOfSpaces(s[1..k]);
    assert Skeleton([s[0]]) == "";
  }

  /** The repair deletes nothing but commas and whitespace. */
  lemma {:induction false} RepairKeepsSkeleton(s: string)
    ensures Skeleton(StripTrailingCommas(s)) == Skeleton(s)
    decreases |s|
  {
    if |s| > 0 {
      if TrailingCommaAt(s, 0) {
        var k := SkipSpaces(s, 1);
        var rest := s[k + 1..];
        assert Skeleton(StripTrailingCommas(s)) == Skeleton([s[k]]) + Skeleton(rest) by {
          RepairKeepsSkeleton(rest);
          SkeletonAppend([s[k]], StripTrailingCommas(rest));
        }
        SkeletonOfTrailingComma(s, k);
      } else {
        assert Skeleton(StripTrailingCommas(s)) == Skeleton([s[0]]) + Skeleton(s[1..]) by {
          RepairKeepsSkeleton(s[1..]);
          SkeletonAppend([s[0]], StripTrailingCommas(s[1..]));
        }
        assert s == [s[0]] + s[1..];
        SkeletonAppend([s[0]], s[1..]);
      }
    }
  }

  /** Text without a trailing comma is left unchanged by the repair. */
  lemma {:induction false} RepairWithoutTrailingComma(s: string)
    requires forall c :: 0 <= c < |s| ==> !TrailingCommaAt(s, c)
    ensures StripTrailingCommas(s) == s
    decreases |s|
  {
    if |s| > 0 {
      assert !TrailingCommaAt(s, 0);
      NoTrailingCommaInTail(s);
      RepairWithoutTrailingComma(s[1..]);
    }
  }

  lemma {:induction false} NoTrailingCommaInTail(s: string)
    requires |s| > 0
    requires forall c :: 0 <= c < |s| ==> !TrailingCommaAt(s, c)
    ensures forall c :: 0 <= c < |s| - 1 ==> !TrailingCommaAt(s[1..], c)
  {
    forall c | 0 <= c < |s| - 1 ensures !TrailingCommaAt(s[1..], c) {
      assert !TrailingCommaAt(s, c + 1);
      SkipSpacesShift(s, c + 2);
    }
  }

  lemma {:induction false} SkipSpacesShift(s: string, k: nat)
    requires 1 <= k <= |s|
    ensures SkipSpaces(s[1..], k - 1) == SkipSpaces(s, k) - 1
    decreases |s| - k
  {
    if k < |s| && IsSpace(s[k]) { SkipSpacesShift(s, k + 1); }
  }

  /** A trailing comma right after the text's first character is removed. */
  lemma {:induction false} RepairRemovesLeadingTrailingComma(s: string)
    requires TrailingCommaAt(s, 0)
    ensures StripTrailingCommas(s) == [s[SkipSpaces(s, 1)]] + StripTrailingCommas(s[SkipSpaces(s, 1) + 1..])
  {
  }

  /** The first index `>= k` holding a brace (`|s|` if none). */
  function NextBrace(s: string, k: nat): (r: nat)
    requires k <= |s|
    ensures k <= r <= |s| && (r < |s| ==> s[r] == '{' || s[r] == '}')
    ensures forall j :: k <= j < r ==> s[j] != '{' && s[j] != '}'
    decreases |s| - k
  {
    if k < |s| && s[k] != '{' && s[k] != '}' then NextBrace(s, k + 1) else k
  }

  /** `\{[^{}]*\}` matches at index `i`. */
  predicate FlatAt(s: string, i: nat) {
    i < |s| && s[i] == '{' && NextBrace(s, i + 1) < |s| && s[NextBrace(s, i + 1)] == '}'
  }

  /** The leftmost match of `\{[^{}]*\}` at or after `i`, as a span. */
  function FlatObjectFrom(s: string, i: nat): (r: Option<(nat, nat)>)
    requires i <= |s|
    ensures r.Some? ==> (i <= r.value.0 < r.value.1 < |s| && FlatAt(s, r.value.0)
                         && r.value.1 == NextBrace(s, r.value.0 + 1))
    ensures r.Some? ==> forall k :: i <= k < r.value.0 ==> !FlatAt(s, k)
    ensures r.None? ==> forall k :: i <= k < |s| ==> !FlatAt(s, k)
    decreases |s| - i
  {
    if i == |s| then None
    else if FlatAt(s, i) then Some((i, NextBrace(s, i + 1)))
    else FlatObjectFrom(s, i + 1)
  }

  /** The span of a flat object: braces at both ends and no brace between. */
  lemma {:induction false} FlatObjectShape(s: string)
    requires FlatObjectFrom(s, 0).Some?
    ensures var (a, b) := FlatObjectFrom(s, 0).value;
      s[a] == '{' && s[b] == '}' && forall j :: a < j < b ==> s[j] != '{' && s[j] != '}'
  {
  }

  // ===========================================================================
  // The four stages in order
  // ===========================================================================

  /**
   * The strings handed to `json.loads`, in the order the stages try them: the whole
   * text, the `json`-fenced block, the scanned span, the span after the comma repair,
   * the first flat object.
   */
  function Candidates(t: string): seq<string> {
    [t] + FenceCandidates(t) + SpanCandidates(t) + FlatCandidates(t)
  }

  function FenceCandidates(t: string): seq<string> {
    match FencedBlock(t, "json") case Some(b) => [b] case None => []
  }

  function SpanCandidates(t: string): seq<string> {
    match ObjectSpan(t)
    case Some((s, e)) => [t[s..e + 1], StripTrailingCommas(t[s..e + 1])]
    case None => []
  }

  function FlatCandidates(t: string): seq<string> {
    match FlatObjectFrom(t, 0) case Some((s, e)) => [t[s..e + 1]] case None => []
  }

  /** The index of the first candidate that parses. */
  function FirstParsing(cands: seq<string>, parse: string -> Option<Value>): (r: Option<nat>)
    ensures r.Some? ==> r.value < |cands| && parse(cands[r.value]).Some?
    ensures r.Some? ==> forall j :: 0 <= j < r.value ==> parse(cands[j]).None?
    ensures r.None? ==> forall j :: 0 <= j < |cands| ==> parse(cands[j]).None?
  {
    if |cands| == 0 then None
    else if parse(cands[0]).Some? then Some(0)
    else match FirstParsing(cands[1..], parse)
      case None => None
      case Some(i) => Some(i + 1)
  }

  /** The parse of the first candidate that parses: the reference the stages are checked against. */
  function FirstCandidateParse(text: string, parse: string -> Option<Value>): Option<Value> {
    var c := Candidates(Strip(text));
    match FirstParsing(c, parse)
    case None => None
    case Some(i) => parse(c[i])
  }

  /** Recovery fails exactly when no candidate parses, and otherwise returns the first that does. */
  lemma {:induction false} FirstCandidateParseFirstSuccess(text: string, parse: string -> Option<Value>)
    ensures var c := Candidates(Strip(text));
      (FirstCandidateParse(text, parse).None? <==> forall j :: 0 <= j < |c| ==> parse(c[j]).None?)
      && (FirstCandidateParse(text, parse).Some? ==>
            exists i :: 0 <= i < |c| && FirstCandidateParse(text, parse) == parse(c[i])
              && forall j :: 0 <= j < i ==> parse(c[j]).None?)
  {
    var c := Candidates(Strip(text));
    var f := FirstParsing(c, parse);
    if f.Some? {
      assert FirstCandidateParse(text, parse) == parse(c[f.value]);
    }
  }

  /** Text that parses as it stands is returned as parsed, whatever the later stages would find. */
  lemma {:induction false} DirectParseWins(text: string, parse: string -> Option<Value>)
    requires parse(Strip(text)).Some?
    ensures FirstCandidateParse(text, parse) == parse(Strip(text))
  {
    assert Candidates(Strip(text))[0] == Strip(text);
  }

  /** No string of `cs` parses. */
  predicate AllFail(cs: seq<string>, parse: string -> Option<Value>) {
    forall j :: 0 <= j < |cs| ==> parse(cs[j]).None?
  }

  lemma {:induction false} FirstParsingAfter(pre: seq<string>, x: string, rest: seq<string>, parse: string -> Option<Value>)
    requires AllFail(pre, parse) && parse(x).Some?
    ensures FirstParsing(pre + [x] + rest, parse) == Some(|pre|)
  {
    var c := pre + [x] + rest;
    assert c[|pre|] == x;
    assert forall j :: 0 <= j < |pre| ==> c[j] == pre[j];
  }

  /** Once the candidates before `x` have failed and `x` parses, recovery returns the parse of `x`. */
  lemma {:induction false} RecoverAt(text: string, parse: string -> Option<Value>, pre: seq<string>, x: string, rest: seq<string>)
    requires Candidates(Strip(text)) == pre + [x] + rest
    requires AllFail(pre, parse) && parse(x).Some?
    ensures FirstCandidateParse(text, parse) == parse(x)
  {
    FirstParsingAfter(pre, x, rest, parse);
    assert (pre + [x] + rest)[|pre|] == x;
  }

  lemma {:induction false} FenceStageWins(text: string, parse: string -> Option<Value>, b: string)
    requires var t := Strip(text); parse(t).None? && FencedBlock(t, "json") == Some(b) && parse(b).Some?
    ensures FirstCandidateParse(text, parse) == parse(b)
  {
    var t := Strip(text);
    var rest := SpanCandidates(t) + FlatCandidates(t);
    assert Candidates(t) == [t] + [b] + rest;
    RecoverAt(text, parse, [t], b, rest);
  }

  lemma {:induction false} SpanStageWins(text: string, parse: string -> Option<Value>, x: string, k: nat)
    requires var t := Strip(text);
      parse(t).None? && AllFail(FenceCandidates(t), parse)
      && k < |SpanCandidates(t)| && SpanCandidates(t)[k] == x && parse(x).Some?
      && AllFail(SpanCandidates(t)[..k], parse)
    ensures FirstCandidateParse(text, parse) == parse(x)
  {
    var t := Strip(text);
    var sp := SpanCandidates(t);
    var pre := [t] + FenceCandidates(t) + sp[..k];
    var rest := sp[k + 1..] + FlatCandidates(t);
    assert sp == sp[..k] + [x] + sp[k + 1..];
    assert Candidates(t) == pre + [x] + rest;
    assert AllFail(pre, parse) by {
      forall j | 0 <= j < |pre| ensures parse(pre[j]).None? {
        if j == 0 {
        } else if j < 1 + |FenceCandidates(t)| {
          assert pre[j] == FenceCandidates(t)[j - 1];
        } else {
          assert pre[j] == sp[..k][j - 1 - |FenceCandidates(t)|];
        }
      }
    }
    RecoverAt(text, parse, pre, x, rest);
  }

  lemma {:induction false} FlatStageWins(text: string, parse: string -> Option<Value>)
    requires var t := Strip(text);
      parse(t).None? && AllFail(FenceCandidates(t), parse) && AllFail(SpanCandidates(t), parse)
      && FlatCandidates(t) != [] && parse(FlatCandidates(t)[0]).Some?
    ensures FirstCandidateParse(text, parse) == parse(FlatCandidates(Strip(text))[0])
  {
    var t := Strip(text);
    var x := FlatCandidates(t)[0];
    var pre := [t] + FenceCandidates(t) + SpanCandidates(t);
    assert FlatCandidates(t) == [x];
    assert Candidates(t) == pre + [x] + [];
    assert AllFail(pre, parse) by {
      forall j | 0 <= j < |pre| ensures parse(pre[j]).None? {
        if j == 0 {
        } else if j < 1 + |FenceCandidates(t)| {
          assert pre[j] == FenceCandidates(t)[j - 1];
        } else {
          assert pre[j] == SpanCandidates(t)[j - 1 - |FenceCandidates(t)|];
        }
      }
    }
    RecoverAt(text, parse, pre, x, []);
  }

  lemma {:induction false} AllStagesFail(text: string, parse: string -> Option<Value>)
    requires var t := Strip(text);
      parse(t).None? && AllFail(FenceCandidates(t), parse) && AllFail(SpanCandidates(t), parse)
      && AllFail(FlatCandidates(t), parse)
    ensures FirstCandidateParse(text, parse) == None
  {
    var t := Strip(text);
    var c := Candidates(t);
    var f := FenceCandidates(t);
    var sp := SpanCandidates(t);
    var fl := FlatCandidates(t);
    assert AllFail(c, parse) by {
      forall j | 0 <= j < |c| ensures parse(c[j]).None? {
        if j == 0 {
        } else if j < 1 + |f| {
          assert c[j] == f[j - 1];
        } else if j < 1 + |f| + |sp| {
          assert c[j] == sp[j - 1 - |f|];
        } else {
          assert c[j] == fl[j - 1 - |f| - |sp|];
        }
      }
    }
  }

  /** Stage 2: the parse of the `json`-fenced block, if there is one. */
  function FenceStage(t: string, parse: string -> Option<Value>): Option<Value> {
    match FencedBlock(t, "json")
    case None => None
    case Some(b) => parse(b)
  }

  /** Stage 3: the parse of the scanned span, or failing that of the span without trailing commas. */
  function SpanStage(t: string, parse: string -> Option<Value>): Option<Value> {
    match ObjectSpan(t)
    case None => None
    case Some((s, e)) =>
      if parse(t[s..e + 1]).Some? then parse(t[s..e + 1])
      else parse(StripTrailingCommas(t[s..e + 1]))
  }

  /** Stage 4: the parse of the first flat object. */
  function FlatStage(t: string, parse: string -> Option<Value>): Option<Value> {
    match FlatObjectFrom(t, 0)
    case None => None
    case Some((s, e)) => parse(t[s..e + 1])
  }

  /** What `_robust_json_parse(text)` returns: the first stage that yields a value. */
  function RecoverJson(text: string, parse: string -> Option<Value>): Option<Value> {
    var t := Strip(text);
    if parse(t).Some? then parse(t)
    else if FenceStage(t, parse).Some? then FenceStage(t, parse)
    else if SpanStage(t, parse).Some? then SpanStage(t, parse)
    else FlatStage(t, parse)
  }

  lemma {:induction false} FenceStageIsFirstSuccess(t: string, parse: string -> Option<Value>)
    ensures FenceStage(t, parse).None? <==> AllFail(FenceCandidates(t), parse)
    ensures FenceStage(t, parse).Some? ==> FenceStage(t, parse) == parse(FencedBlock(t, "json").value)
  {
    match FencedBlock(t, "json")
    case None =>
      assert FenceCandidates(t) == [];
    case Some(b) =>
      assert FenceCandidates(t) == [b];
      assert parse(FenceCandidates(t)[0]) == parse(b);
  }

  /** The stages agree with the reference: the first candidate that parses wins, and `None` means all failed. */
  lemma {:induction false} RecoverJsonIsFirstSuccess(text: string, parse: string -> Option<Value>)
    ensures RecoverJson(text, parse) == FirstCandidateParse(text, parse)
  {
    var t := Strip(text);
    if parse(t).Some? {
      DirectParseWins(text, parse);
    } else if FenceStage(t, parse).Some? {
      FenceStageIsFirstSuccess(t, parse);
      FenceStageWins(text, parse, FencedBlock(t, "json").value);
    } else if SpanStage(t, parse).Some? {
      FenceStageIsFirstSuccess(t, parse);
      SpanStageAgrees(text, parse);
    } else {
      FenceStageIsFirstSuccess(t, parse);
      SpanStageFails(t, parse);
      FlatStageAgrees(text, parse);
    }
  }

  lemma {:induction false} SpanStageAgrees(text: string, parse: string -> Option<Value>)
    requires var t := Strip(text);
      parse(t).None? && AllFail(FenceCandidates(t), parse) && SpanStage(t, parse).Some?
    ensures FirstCandidateParse(text, parse) == SpanStage(Strip(text), parse)
  {
    var t := Strip(text);
    var c := SpanCandidates(t);
    SpanStagePair(t, parse);
    if parse(c[0]).Some? {
      SpanStageWins(text, parse, c[0], 0);
    } else {
      assert c[..1] == [c[0]];
      SpanStageWins(text, parse, c[1], 1);
    }
  }

  /** With a span, there are two span candidates, and the span stage parses the first that parses. */
  lemma {:induction false} SpanStagePair(t: string, parse: string -> Option<Value>)
    requires SpanStage(t, parse).Some?
    ensures |SpanCandidates(t)| == 2
    ensures SpanStage(t, parse) == if parse(SpanCandidates(t)[0]).Some? then parse(SpanCandidates(t)[0])
                                   else parse(SpanCandidates(t)[1])
  {
  }

  lemma {:induction false} SpanStageFails(t: string, parse: string -> Option<Value>)
    requires SpanStage(t, parse).None?
    ensures AllFail(SpanCandidates(t), parse)
  {
  }

  lemma {:induction false} FlatStageAgrees(text: string, parse: string -> Option<Value>)
    requires var t := Strip(text);
      parse(t).None? && AllFail(FenceCandidates(t), parse) && AllFail(SpanCandidates(t), parse)
    ensures FirstCandidateParse(text, parse) == FlatStage(Strip(text), parse)
  {
    var t := Strip(text);
    FlatStageIsCandidate(t, parse);
    if FlatCandidates(t) != [] && parse(FlatCandidates(t)[0]).Some? {
      FlatStageWins(text, parse);
    } else {
      AllStagesFail(text, parse);
    }
  }

  lemma {:induction false} FlatStageIsCandidate(t: string, parse: string -> Option<Value>)
    ensures |FlatCandidates(t)| <= 1
    ensures FlatStage(t, parse) == if FlatCandidates(t) == [] then None else parse(FlatCandidates(t)[0])
  {
  }

  /** The fence search of stage 2 and the parse of the fenced block. */
  method TryFence(t: string, parse: string -> Option<Value>) returns (r: Option<Value>)
    ensures r == FenceStage(t, parse)
  {
    r := None;
    var block := FencedBlock(t, "json");
    if block.Some? {
      r := parse(block.value);
    }
  }

  /** The flat-object search of stage 4 and the parse of its match. */
  method TryFlat(t: string, parse: string -> Option<Value>) returns (r: Option<Value>)
    ensures r == FlatStage(t, parse)
  {
    r := None;
    var m := FlatObjectFrom(t, 0);
    if m.Some? {
      var (s, e) := m.value;
      r := parse(t[s..e + 1]);
    }
  }

  /** The scan of stage 3 and the two parses of its span. */
  method TrySpan(t: string, parse: string -> Option<Value>) returns (r: Option<Value>)
    ensures r == SpanStage(t, parse)
  {
    r := None;
    var span := ScanObjectSpan(t);
    if span.Some? {
      var (s, e) := span.value;
      var jsonStr := t[s..e + 1];
      r := parse(jsonStr);
      if r.Some? {
        return;
      }
      jsonStr := StripTrailingCommas(jsonStr);
      r := parse(jsonStr);
    }
  }

  /** `_robust_json_parse`: the stages tried one after the other, returning at the first success. */
  method RobustJsonParse(text: string, parse: string -> Option<Value>) returns (r: Option<Value>)
    ensures r == RecoverJson(text, parse)
  {
    var t := Strip(text);
    // Stage 1: the whole text.
    r := parse(t);
    if r.Some? {
      return;
    }
    // Stage 2: a `json`-fenced block.
    r := TryFence(t, parse);
    if r.Some? {
      return;
    }
    // Stage 3: the scanned span, then the span with its trailing commas removed.
    r := TrySpan(t, parse);
    if r.Some? {
      return;
    }
    // Stage 4: the first brace pair with no brace inside.
    r := TryFlat(t, parse);
  }

  // ===========================================================================
  // _parse_review_response: completing a parsed record
  // ===========================================================================

  /** `key in v`: a dict's keys, a list's elements, a string's substrings; other values raise TypeError. */
  function PyIn(key: string, v: Value): Result<bool, string> {
    match v
    case VDict(m) => Ok(key in m)
    case VList(xs) => Ok(VStr(key) in xs)
    case VStr(t) => Ok(Contains(t, key))
    case _ => Err("TypeError")
  }

  /** `if key not in v: v[key] = dflt`; only a dict accepts a string subscript assignment. */
  function SetDefault(v: Value, key: string, dflt: Value): Result<Value, string> {
    match PyIn(key, v)
    case Err(e) => Err(e)
    case Ok(present) =>
      if present then Ok(v)
      else if v.VDict? then Ok(VDict(v.entries[key := dflt]))
      else Err("TypeError")
  }

  /** The three keys a review record must have. */
  const ReviewKeys: set<string> := {"valid", "issues", "suggestions"}

  /**
   * The completion of a parsed record: `valid`, `issues` and `suggestions` are added
   * with the defaults `True`, `[]`, `[]` where missing; an error is the TypeError
   * Python raises on a value that is not a dict.
   */
  function CompleteReview(v: Value): (r: Result<Value, string>)
    ensures v.VDict? ==> (r.Ok? && r.value.VDict?
                          && r.value.entries.Keys == v.entries.Keys + ReviewKeys
                          && (forall k :: k in v.entries ==> r.value.entries[k] == v.entries[k])
                          && ("valid" !in v.entries ==> r.value.entries["valid"] == VBool(true))
                          && ("issues" !in v.entries ==> r.value.entries["issues"] == VList([]))
                          && ("suggestions" !in v.entries ==> r.value.entries["suggestions"] == VList([])))
    ensures v.VList? ==> (r.Ok? <==> forall k :: k in ReviewKeys ==> VStr(k) in v.items)
    ensures v.VStr? ==> (r.Ok? <==> forall k :: k in ReviewKeys ==> Contains(v.s, k))
    ensures !v.VDict? && r.Ok? ==> r.value == v
    ensures !(v.VDict? || v.VList? || v.VStr?) ==> r.Err?
  {
    match SetDefault(v, "valid", VBool(true))
    case Err(e) => Err(e)
    case Ok(v1) =>
      match SetDefault(v1, "issues", VList([]))
      case Err(e) => Err(e)
      case Ok(v2) => SetDefault(v2, "suggestions", VList([]))
  }

  // ===========================================================================
  // _parse_review_response: the plain-text fallback
  // ===========================================================================

  const IssueWords: seq<string> := ["error", "bug", "issue", "problem", "missing", "incorrect"]
  const SuggestionWords: seq<string> := ["suggest", "recommend", "consider", "should", "could", "better"]

  /** The single suggestion of a fallback review that found nothing. */
  const NoFindings: string := "Code review completed - no specific issues found"

  /** Some word of `words` occurs in the lower-cased `line`. */
  predicate MentionsAny(line: string, words: seq<string>) {
    exists w :: w in words && Contains(Lower(line), w)
  }

  /** Lines are scanned only when the lower-cased reply mentions an error, a bug or an issue. */
  predicate ScanTriggered(response: string) {
    var low := Lower(response);
    Contains(low, "error") || Contains(low, "bug") || Contains(low, "issue")
  }

  /** A stripped line of more than 10 and fewer than 200 characters. */
  predicate Eligible(line: string) {
    10 < |Strip(line)| < 200
  }

  predicate IssueLine(line: string) {
    Eligible(line) && MentionsAny(Strip(line), IssueWords)
  }

  /** A suggestion line mentions a suggestion word and no issue word: issues take precedence. */
  predicate SuggestionLine(line: string) {
    Eligible(line) && !MentionsAny(Strip(line), IssueWords) && MentionsAny(Strip(line), SuggestionWords)
  }

  /** The first 150 characters of the stripped line: what is recorded for it. */
  function Entry(line: string): string {
    Take(Strip(line), 150)
  }

  /** The entries of the issue lines, in order. */
  function IssueLines(lines: seq<string>): seq<string> {
    if |lines| == 0 then []
    else
      var last := lines[|lines| - 1];
      IssueLines(lines[..|lines| - 1]) + (if IssueLine(last) then [Entry(last)] else [])
  }

  /** The entries of the suggestion lines, in order. */
  function SuggestionLines(lines: seq<string>): seq<string> {
    if |lines| == 0 then []
    else
      var last := lines[|lines| - 1];
      SuggestionLines(lines[..|lines| - 1]) + (if SuggestionLine(last) then [Entry(last)] else [])
  }

  /** Python strings as a list value. */
  function Strs(xs: seq<string>): (r: seq<Value>)
    ensures |r| == |xs| && forall k :: 0 <= k < |xs| ==> r[k] == VStr(xs[k])
  {
    seq(|xs|, k requires 0 <= k < |xs| => VStr(xs[k]))
  }

  /** The dict `{"valid": valid, "issues": issues, "suggestions": suggestions}`. */
  function ReviewDict(valid: bool, issues: seq<string>, suggestions: seq<string>): Value {
    VDict(map["valid" := VBool(valid), "issues" := VList(Strs(issues)), "suggestions" := VList(Strs(suggestions))])
  }

  /**
   * The issues and suggestions the fallback reports: at most five of each, never both
   * empty, every entry at most 150 characters.
   */
  function FallbackFindings(response: string): (r: (seq<string>, seq<string>))
    ensures |r.0| <= 5 && |r.1| <= 5
    ensures r.0 != [] || r.1 != []
    ensures !ScanTriggered(response) ==> r == ([], [NoFindings])
  {
    var lines := Split(response, '\n');
    var issues := if ScanTriggered(response) then SliceTo(IssueLines(lines), 5) else [];
    var suggestions := if ScanTriggered(response) then SliceTo(SuggestionLines(lines), 5) else [];
    if issues != [] || suggestions != [] then (issues, suggestions) else ([], [NoFindings])
  }

  /** The review the fallback builds from a reply that yielded no record. */
  function FallbackReview(response: string): Value {
    var (issues, suggestions) := FallbackFindings(response);
    ReviewDict(true, issues, suggestions)
  }

  /** The line loop of the fallback: each eligible line goes to the issues or, failing that, to the suggestions. */
  method ScanLines(lines: seq<string>) returns (issues: seq<string>, suggestions: seq<string>)
    ensures issues == IssueLines(lines) && suggestions == SuggestionLines(lines)
  {
    issues, suggestions := [], [];
    var i := 0;
    while i < |lines|
      invariant 0 <= i <= |lines|
      invariant issues == IssueLines(lines[..i])
      invariant suggestions == SuggestionLines(lines[..i])
    {
      assert lines[..i + 1][..i] == lines[..i];
      var line := Strip(lines[i]);
      if line != [] && |line| > 10 && |line| < 200 {
        if MentionsAny(line, IssueWords) {
          issues := issues + [Take(line, 150)];
        } else if MentionsAny(line, SuggestionWords) {
          suggestions := suggestions + [Take(line, 150)];
        }
      }
      i := i + 1;
    }
    assert lines[..i] == lines;
  }

  /** The fallback of `_parse_review_response`, with its limit of five entries per list. */
  method HeuristicReview(response: string) returns (r: Value)
    ensures r == FallbackReview(response)
  {
    var issues: seq<string> := [];
    var suggestions: seq<string> := [];
    if ScanTriggered(response) {
      issues, suggestions := ScanLines(Split(response, '\n'));
    }
    issues := SliceTo(issues, 5);
    suggestions := SliceTo(suggestions, 5);
    if issues != [] || suggestions != [] {
      r := ReviewDict(true, issues, suggestions);
    } else {
      r := ReviewDict(true, [], [NoFindings]);
    }
  }

  /** Every recorded issue is the entry of an issue line of the reply, and likewise for suggestions. */
  lemma {:induction false} FindingsComeFromLines(lines: seq<string>)
    ensures forall x :: x in IssueLines(lines) ==> exists l :: l in lines && IssueLine(l) && x == Entry(l)
    ensures forall x :: x in SuggestionLines(lines) ==> exists l :: l in lines && SuggestionLine(l) && x == Entry(l)
  {
    if |lines| > 0 {
      var init := lines[..|lines| - 1];
      FindingsComeFromLines(init);
      assert forall l :: l in init ==> l in lines;
    }
  }

  /** No line is recorded twice: the issue and suggestion entries together number at most the lines. */
  lemma {:induction false} FindingsAtMostLines(lines: seq<string>)
    ensures |IssueLines(lines)| + |SuggestionLines(lines)| <= |lines|
  {
    if |lines| > 0 {
      FindingsAtMostLines(lines[..|lines| - 1]);
    }
  }

  /** Entries are between 11 and 150 characters long. */
  lemma {:induction false} EntryLength(line: string)
    requires Eligible(line)
    ensures 10 < |Entry(line)| <= 150
  {
  }

  lemma {:induction false} EntryLengths(lines: seq<string>)
    ensures forall x :: x in IssueLines(lines) ==> 10 < |x| <= 150
    ensures forall x :: x in SuggestionLines(lines) ==> 10 < |x| <= 150
  {
    FindingsComeFromLines(lines);
    forall x | x in IssueLines(lines) ensures 10 < |x| <= 150 {
      var l :| l in lines && IssueLine(l) && x == Entry(l);
      EntryLength(l);
    }
    forall x | x in SuggestionLines(lines) ensures 10 < |x| <= 150 {
      var l :| l in lines && SuggestionLine(l) && x == Entry(l);
      EntryLength(l);
    }
  }

  // ===========================================================================
  // _parse_review_response
  // ===========================================================================

  /**
   * What `_parse_review_response` returns, or the exception it raises, once recovery
   * gave `parsed`: a truthy value is completed; anything else gives the plain-text fallback.
   */
  function ReviewFrom(resp: string, parsed: Option<Value>): Result<Value, string> {
    if parsed.Some? && Truthy(parsed.value) then CompleteReview(parsed.value)
    else Ok(FallbackReview(resp))
  }

  /** What `_parse_review_response(response)` returns, or the exception it raises. */
  function ReviewOf(response: string, parse: string -> Option<Value>): Result<Value, string> {
    var resp := Strip(response);
    ReviewFrom(resp, RecoverJson(resp, parse))
  }

  method ParseReviewResponse(response: string, parse: string -> Option<Value>) returns (r: Result<Value, string>)
    ensures r == ReviewOf(response, parse)
  {
    var resp := Strip(response);
    var result := RobustJsonParse(resp, parse);
    if result.Some? && Truthy(result.value) {
      r := CompleteReview(result.value);
      return;
    }
    var review := HeuristicReview(resp);
    r := Ok(review);
  }

  /**
   * A recovered dict gives that dict completed with the three keys; a reply that yields
   * nothing truthy gives a fallback review whose `valid` is true and whose two lists are
   * not both empty. Only a truthy value that is not a dict can raise.
   */
  lemma {:induction false} ReviewHasKeys(resp: string, parsed: Option<Value>)
    ensures (parsed.Some? && parsed.value.VDict?) || !(parsed.Some? && Truthy(parsed.value)) ==>
      ReviewFrom(resp, parsed).Ok? && ReviewFrom(resp, parsed).value.VDict?
      && ReviewKeys <= ReviewFrom(resp, parsed).value.entries.Keys
    ensures !(parsed.Some? && Truthy(parsed.value)) ==>
      ReviewFrom(resp, parsed).value.entries["valid"] == VBool(true)
      && (ReviewFrom(resp, parsed).value.entries["issues"] != VList([])
          || ReviewFrom(resp, parsed).value.entries["suggestions"] != VList([]))
    ensures ReviewFrom(resp, parsed).Err? ==> parsed.Some? && Truthy(parsed.value) && !parsed.value.VDict?
  {
    var (issues, suggestions) := FallbackFindings(resp);
    assert issues != [] ==> Strs(issues) != [];
    assert suggestions != [] ==> Strs(suggestions) != [];
  }
}
