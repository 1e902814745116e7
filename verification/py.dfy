/**
 * Python built-ins the analysed code relies on, as Dafny functions over `string`
 * (= `seq<char>`): `str.strip`, `str.split`, `str.find`, `in`, `str.count`,
 * `str.replace`, `str.lower`, slicing with a possibly negative bound, `str(int)`
 * and `int(str)`.  Every later module is written in terms of these.
 */
module Py {

  datatype Option<+T> = None | Some(value: T)

  /** A Python call that either returns a value or raises; `error` names the exception. */
  datatype Result<+T, +E> = Ok(value: T) | Err(error: E)

  function Min(a: int, b: int): int { if a <= b then a else b }
  function Max(a: int, b: int): int { if a >= b then a else b }

  // ---------------------------------------------------------------------------
  // Whitespace and strip
  // ---------------------------------------------------------------------------

  /** The characters `str.isspace` accepts, which are also what `str.strip()` and regex `\s` use. */
  predicate IsSpace(c: char) {
    || c == ' '
    || ('\t' <= c <= '\r')
    || ('\U{1C}' <= c <= '\U{1F}')
    || c == '\U{85}' || c == '\U{A0}' || c == '\U{1680}'
    || ('\U{2000}' <= c <= '\U{200A}')
    || c == '\U{2028}' || c == '\U{2029}' || c == '\U{202F}' || c == '\U{205F}' || c == '\U{3000}'
  }

  /** `s.lstrip()`: the suffix of `s` left after dropping leading whitespace. */
  function LStrip(s: string): (r: string)
    ensures |r| <= |s| && r == s[|s| - |r|..]
    ensures r == [] || !IsSpace(r[0])
    ensures forall k :: 0 <= k < |s| - |r| ==> IsSpace(s[k])
  {
    if |s| > 0 && IsSpace(s[0]) then LStrip(s[1..]) else s
  }

  /** `s.rstrip()`: the prefix of `s` left after dropping trailing whitespace. */
  function RStrip(s: string): (r: string)
    ensures |r| <= |s| && r == s[..|r|]
    ensures r == [] || !IsSpace(r[|r| - 1])
    ensures forall k :: |r| <= k < |s| ==> IsSpace(s[k])
  {
    if |s| > 0 && IsSpace(s[|s| - 1]) then RStrip(s[..|s| - 1]) else s
  }

  /** `s.strip()`. */
  function Strip(s: string): string {
    RStrip(LStrip(s))
  }

  /** A stripped string is empty exactly when every character of the original is whitespace. */
  lemma {:induction false} StripEmptyIff(s: string)
    ensures Strip(s) == [] <==> forall k :: 0 <= k < |s| ==> IsSpace(s[k])
  {
    var l := LStrip(s);
    if l != [] {
      assert !IsSpace(l[0]) && l[0] == s[|s| - |l|];
    }
  }

  lemma {:induction false} LStripNoop(t: string)
    requires t != [] && !IsSpace(t[0])
    ensures LStrip(t) == t
  {
  }

  lemma {:induction false} RStripNoop(t: string)
    requires t != [] && !IsSpace(t[|t| - 1])
    ensures RStrip(t) == t
  {
  }

  /** Text that neither starts nor ends with whitespace is its own strip. */
  lemma {:induction false} StripNoop(t: string)
    requires t != [] && !IsSpace(t[0]) && !IsSpace(t[|t| - 1])
    ensures Strip(t) == t
  {
    LStripNoop(t);
    RStripNoop(t);
  }

  /** Stripping twice is stripping once. */
  lemma {:induction false} StripIdempotent(s: string)
    ensures Strip(Strip(s)) == Strip(s)
  {
    var r := Strip(s);
    if r != [] {
      assert !IsSpace(r[0]) && !IsSpace(r[|r| - 1]);
      assert LStrip(r) == r;
    }
  }

  // ---------------------------------------------------------------------------
  // split / join
  // ---------------------------------------------------------------------------

  /** `s.split(sep)` for a one-character separator: never empty, pieces free of `sep`. */
  function Split(s: string, sep: char): (r: seq<string>)
    ensures |r| >= 1
    ensures forall i :: 0 <= i < |r| ==> sep !in r[i]
  {
    if |s| == 0 then [""]
    else
      var rest := Split(s[1..], sep);
      if s[0] == sep then [""] + rest else [[s[0]] + rest[0]] + rest[1..]
  }

  /** `sep.join(parts)`. */
  function Join(parts: seq<string>, sep: string): string {
    if |parts| == 0 then ""
    else if |parts| == 1 then parts[0]
    else parts[0] + sep + Join(parts[1..], sep)
  }

  /** Every part of a join sits in the joined text between two other pieces. */
  lemma {:induction false} JoinHasPart(parts: seq<string>, sep: string, k: nat) returns (a: string, b: string)
    requires k < |parts|
    ensures Join(parts, sep) == a + parts[k] + b
  {
    if |parts| == 1 {
      a, b := "", "";
    } else if k == 0 {
      a, b := "", sep + Join(parts[1..], sep);
    } else {
      var a', b' := JoinHasPart(parts[1..], sep, k - 1);
      a, b := parts[0] + sep + a', b';
    }
  }

  lemma {:induction false} JoinContains(parts: seq<string>, sep: string, k: nat)
    requires k < |parts|
    ensures Contains(Join(parts, sep), parts[k])
  {
    var a, b := JoinHasPart(parts, sep, k);
    ContainsMiddle(a, parts[k], b);
  }

  /** Joining the pieces of a split with the separator gives back the original text. */
  lemma {:induction false} SplitJoin(s: string, sep: char)
    ensures Join(Split(s, sep), [sep]) == s
  {
    if |s| > 0 {
      var rest := Split(s[1..], sep);
      SplitJoin(s[1..], sep);
      if s[0] == sep {
        assert Split(s, sep) == [""] + rest;
        assert ([""] + rest)[1..] == rest;
      } else {
        var r := [[s[0]] + rest[0]] + rest[1..];
        assert Split(s, sep) == r;
        if |rest| == 1 {
          assert Join(rest, [sep]) == rest[0];
        } else {
          assert Join(rest, [sep]) == rest[0] + [sep] + Join(rest[1..], [sep]);
          assert r[1..] == rest[1..];
        }
      }
    }
  }

  /** Joining the first `n` parts gives a prefix of joining them all. */
  lemma {:induction false} JoinPrefix(parts: seq<string>, sep: string, n: nat)
    requires n <= |parts|
    ensures Join(parts[..n], sep) <= Join(parts, sep)
  {
    if n == 0 {
    } else if |parts| == 1 {
      assert parts[..n] == parts;
    } else if n == 1 {
      assert parts[..n] == [parts[0]];
    } else {
      JoinPrefix(parts[1..], sep, n - 1);
      assert parts[..n][1..] == parts[1..][..n - 1];
      assert Join(parts[..n], sep) == parts[0] + sep + Join(parts[1..][..n - 1], sep);
    }
  }

  /** Occurrences of the character `c` in `s`. */
  function CountChar(s: string, c: char): nat {
    if |s| == 0 then 0 else (if s[0] == c then 1 else 0) + CountChar(s[1..], c)
  }

  /** A split has one more piece than the text has separators. */
  lemma {:induction false} SplitLength(s: string, sep: char)
    ensures |Split(s, sep)| == CountChar(s, sep) + 1
  {
    if |s| > 0 { SplitLength(s[1..], sep); }
  }

  // ---------------------------------------------------------------------------
  // Substring search: `find`, `in`, `startswith`, `count`
  // ---------------------------------------------------------------------------

  /** `p` occurs in `s` at index `i`. */
  predicate At(s: string, p: string, i: nat) {
    i + |p| <= |s| && s[i..i + |p|] == p
  }

  /** `s.find(p, start)`: the least index `>= start` where `p` occurs. */
  function FindFrom(s: string, p: string, start: nat): (r: Option<nat>)
    ensures r.Some? ==> start <= r.value && At(s, p, r.value)
    ensures r.Some? ==> forall j :: start <= j < r.value ==> !At(s, p, j)
    ensures r.None? ==> forall j :: start <= j ==> !At(s, p, j)
    decreases |s| - start
  {
    if start + |p| > |s| then None
    else if s[start..start + |p|] == p then Some(start)
    else FindFrom(s, p, start + 1)
  }

  /** Python's `p in s`. */
  predicate Contains(s: string, p: string) {
    FindFrom(s, p, 0).Some?
  }

  lemma {:induction false} ContainsIff(s: string, p: string)
    ensures Contains(s, p) <==> exists j :: At(s, p, j)
  {
    if !Contains(s, p) {
      assert forall j :: 0 <= j ==> !At(s, p, j);
    }
  }

  /** Text placed between two others is contained in the whole. */
  lemma {:induction false} ContainsMiddle(a: string, p: string, b: string)
    ensures Contains(a + p + b, p)
  {
    var s := a + p + b;
    assert s[|a|..|a| + |p|] == p;
    assert At(s, p, |a|);
    ContainsIff(s, p);
  }

  /** Both texts placed between others are contained in the whole. */
  lemma {:induction false} ContainsPieces(a: string, x: string, b: string, y: string, c: string)
    ensures Contains(a + x + b + y + c, x) && Contains(a + x + b + y + c, y)
  {
    ContainsMiddle(a, x, b + y + c);
    assert a + x + b + y + c == a + x + (b + y + c);
    ContainsMiddle(a + x + b, y, c);
  }

  /** Containment carries over to any text that surrounds the container. */
  lemma {:induction false} ContainsWithin(a: string, s: string, b: string, p: string)
    requires Contains(s, p)
    ensures Contains(a + s + b, p)
  {
    ContainsIff(s, p);
    var j: nat :| At(s, p, j);
    var t := a + s + b;
    assert t[|a| + j..|a| + j + |p|] == s[j..j + |p|];
    assert At(t, p, |a| + j);
    ContainsIff(t, p);
  }

  lemma {:induction false} ContainsAfter(a: string, s: string, p: string)
    requires Contains(s, p)
    ensures Contains(a + s, p)
  {
    ContainsWithin(a, s, "", p);
    assert a + s + "" == a + s;
  }

  /** `s.startswith(p)`. */
  predicate StartsWith(s: string, p: string) {
    |p| <= |s| && s[..|p|] == p
  }

  /** `s.count(p)` for a non-empty `p`: non-overlapping occurrences, scanned left to right. */
  function Count(s: string, p: string): nat
    requires |p| > 0
    decreases |s|
  {
    if |s| < |p| then 0
    else if s[..|p|] == p then 1 + Count(s[|p|..], p)
    else Count(s[1..], p)
  }

  /** For a one-character pattern, `count` is the number of occurrences of that character. */
  lemma {:induction false} CountOneChar(s: string, c: char)
    ensures Count(s, [c]) == CountChar(s, c)
  {
    if |s| > 0 {
      CountOneChar(s[1..], c);
      assert s[..1] == [s[0]];
    }
  }

  /** `s.replace(o, n)` for a non-empty `o`: non-overlapping occurrences, left to right. */
  function Replace(s: string, o: string, n: string): string
    requires |o| > 0
    decreases |s|
  {
    if |s| < |o| then s
    else if s[..|o|] == o then n + Replace(s[|o|..], o, n)
    else [s[0]] + Replace(s[1..], o, n)
  }

  /** Text without an occurrence of `o` is left as it is. */
  lemma {:induction false} ReplaceAbsent(s: string, o: string, n: string)
    requires |o| > 0
    requires !Contains(s, o)
    ensures Replace(s, o, n) == s
  {
    if |s| >= |o| {
      assert !At(s, o, 0);
      assert s[..|o|] != o;
      forall j | 0 <= j ensures !At(s[1..], o, j) {
        assert !At(s, o, j + 1);
        ShiftAt(s, o, j);
      }
      ReplaceAbsent(s[1..], o, n);
    }
  }

  /**
   * The text before the first occurrence is copied unchanged, the occurrence becomes `n`,
   * and replacement resumes right after it.
   */
  lemma {:induction false} ReplaceFirst(s: string, o: string, n: string)
    requires |o| > 0 && Contains(s, o)
    ensures var i := FindFrom(s, o, 0).value;
      Replace(s, o, n) == s[..i] + n + Replace(s[i + |o|..], o, n)
  {
    ReplaceFrom(s, o, n, FindFrom(s, o, 0).value);
  }

  /** An occurrence in `s[1..]` is an occurrence in `s` one position later. */
  lemma {:induction false} ShiftAt(s: string, p: string, j: nat)
    requires |s| > 0
    ensures At(s[1..], p, j) <==> At(s, p, j + 1)
  {
    if j + |p| <= |s| - 1 { assert s[1..][j..j + |p|] == s[j + 1..j + 1 + |p|]; }
  }

  /** The step of the lemma above: the head character is copied, the rest is the shorter case. */
  lemma {:induction false} ReplaceFromStep(s: string, o: string, n: string, i: nat)
    requires |o| > 0 && 0 < i && i + |o| <= |s| && !At(s, o, 0)
    requires Replace(s[1..], o, n) == s[1..][..i - 1] + n + Replace(s[1..][i - 1 + |o|..], o, n)
    ensures Replace(s, o, n) == s[..i] + n + Replace(s[i + |o|..], o, n)
  {
    var t := s[1..];
    var r := Replace(s[i + |o|..], o, n);
    assert t[i - 1 + |o|..] == s[i + |o|..];
    ReplaceStep(s, o, n);
    assert [s[0]] + t[..i - 1] == s[..i];
    PrependRegroup([s[0]], t[..i - 1], n, r);
  }

  lemma {:induction false} PrependRegroup(h: string, a: string, x: string, y: string)
    ensures h + (a + x + y) == (h + a) + x + y
  {
  }

  /** The first occurrence at `i > 0` is the first occurrence at `i - 1` of the text without its head. */
  lemma {:induction false} FirstAtShifts(s: string, o: string, i: nat)
    requires 0 < i && At(s, o, i)
    requires forall j :: 0 <= j < i ==> !At(s, o, j)
    ensures At(s[1..], o, i - 1)
    ensures forall j :: 0 <= j < i - 1 ==> !At(s[1..], o, j)
  {
    forall j | 0 <= j < i - 1 ensures !At(s[1..], o, j) {
      ShiftAt(s, o, j);
    }
    ShiftAt(s, o, i - 1);
  }

  lemma {:induction false} ReplaceStep(s: string, o: string, n: string)
    requires |o| > 0 && !At(s, o, 0) && |s| > 0
    ensures Replace(s, o, n) == [s[0]] + Replace(s[1..], o, n)
  {
  }

  lemma {:induction false} ReplaceFrom(s: string, o: string, n: string, i: nat)
    requires |o| > 0 && At(s, o, i)
    requires forall j :: 0 <= j < i ==> !At(s, o, j)
    ensures Replace(s, o, n) == s[..i] + n + Replace(s[i + |o|..], o, n)
    decreases i
  {
    if i > 0 {
      assert !At(s, o, 0);
      FirstAtShifts(s, o, i);
      ReplaceFrom(s[1..], o, n, i - 1);
      ReplaceFromStep(s, o, n, i);
    } else {
      assert s[..|o|] == o;
      assert Replace(s, o, n) == n + Replace(s[|o|..], o, n);
      assert s[..0] + n == n;
    }
  }

  // ---------------------------------------------------------------------------
  // lower, slicing
  // ---------------------------------------------------------------------------

  function LowerChar(c: char): char {
    if 'A' <= c <= 'Z' then (c as int + 32) as char else c
  }

  /** `s.lower()` on the ASCII letters. */
  function Lower(s: string): (r: string)
    ensures |r| == |s|
    ensures forall k :: 0 <= k < |s| ==> r[k] == LowerChar(s[k])
  {
    seq(|s|, k requires 0 <= k < |s| => LowerChar(s[k]))
  }

  function UpperChar(c: char): char {
    if 'a' <= c <= 'z' then (c as int - 32) as char else c
  }

  /** `s.upper()` on the ASCII letters. */
  function Upper(s: string): (r: string)
    ensures |r| == |s|
    ensures forall k :: 0 <= k < |s| ==> r[k] == UpperChar(s[k])
  {
    seq(|s|, k requires 0 <= k < |s| => UpperChar(s[k]))
  }

  /** `xs[:n]` for any integer `n` (a negative bound counts from the end). */
  function SliceTo<T>(xs: seq<T>, n: int): (r: seq<T>)
    ensures |r| <= |xs| && r == xs[..|r|]
    ensures n >= 0 ==> |r| == Min(n, |xs|)
  {
    if n >= 0 then xs[..Min(n, |xs|)] else xs[..Max(0, |xs| + n)]
  }

  /** `xs[a:b]` for a non-negative `a` and any integer `b`. */
  function Slice<T>(xs: seq<T>, a: nat, b: int): (r: seq<T>)
    ensures |r| <= |xs|
  {
    var hi := if b >= 0 then Min(b, |xs|) else Max(0, |xs| + b);
    if a >= hi then [] else xs[a..hi]
  }

  /** `s[:n]` for a non-negative `n`. */
  function Take(s: string, n: nat): (r: string)
    ensures |r| == Min(n, |s|) && r == s[..|r|]
  {
    s[..Min(n, |s|)]
  }

  /** How many elements of a sequence satisfy `p` (`sum(1 for x in s if p(x))`). */
  function CountIf<T>(s: seq<T>, p: T -> bool): (r: nat)
    ensures r <= |s|
  {
    if s == [] then 0 else CountIf(s[..|s| - 1], p) + (if p(s[|s| - 1]) then 1 else 0)
  }

  lemma {:induction false} CountIfAppend<T>(a: seq<T>, b: seq<T>, p: T -> bool)
    ensures CountIf(a + b, p) == CountIf(a, p) + CountIf(b, p)
    decreases |b|
  {
    if b != [] {
      assert (a + b)[..|a + b| - 1] == a + b[..|b| - 1];
      assert (a + b)[|a + b| - 1] == b[|b| - 1];
      CountIfAppend(a, b[..|b| - 1], p);
    } else {
      assert a + b == a;
    }
  }

  /** A property implied by another holds of at least as many elements. */
  lemma {:induction false} CountIfMono<T>(s: seq<T>, p: T -> bool, q: T -> bool)
    requires forall k :: 0 <= k < |s| && p(s[k]) ==> q(s[k])
    ensures CountIf(s, p) <= CountIf(s, q)
  {
    if s != [] {
      CountIfMono(s[..|s| - 1], p, q);
    }
  }

  function Repeat(s: string, n: nat): string {
    if n == 0 then "" else s + Repeat(s, n - 1)
  }

  // ---------------------------------------------------------------------------
  // Integers and their decimal text
  // ---------------------------------------------------------------------------

  predicate IsDigit(c: char) { '0' <= c <= '9' }

  predicate AllDigits(s: string) { forall k :: 0 <= k < |s| ==> IsDigit(s[k]) }

  function DigitChar(d: nat): (c: char)
    requires d < 10
    ensures IsDigit(c) && c as int - '0' as int == d
  {
    (d + '0' as int) as char
  }

  /** `str(n)` for a natural number. */
  function NatToString(n: nat): (r: string)
    ensures |r| >= 1 && AllDigits(r)
    ensures |r| > 1 ==> r[0] != '0'
  {
    if n < 10 then [DigitChar(n)] else NatToString(n / 10) + [DigitChar(n % 10)]
  }

  /** `str(i)` for any integer. */
  function IntToString(i: int): string {
    if i < 0 then "-" + NatToString(-i) else NatToString(i)
  }

  /** The value of a run of ASCII digits. */
  function DigitsValue(s: string): nat
    requires AllDigits(s)
  {
    if |s| == 0 then 0 else DigitsValue(s[..|s| - 1]) * 10 + (s[|s| - 1] as int - '0' as int)
  }

  /** Reading back the decimal text of `n` gives `n`. */
  lemma {:induction false} NatToStringRoundTrip(n: nat)
    ensures DigitsValue(NatToString(n)) == n
  {
    if n >= 10 {
      var r := NatToString(n);
      NatToStringRoundTrip(n / 10);
      assert r[..|r| - 1] == NatToString(n / 10);
    }
  }

  /**
   * `int(s)`: surrounding whitespace, an optional sign and at least one ASCII digit;
   * anything else raises ValueError.
   */
  function ParseInt(s: string): (r: Result<int, string>)
  {
    var t := Strip(s);
    if |t| > 0 && (t[0] == '-' || t[0] == '+') then
      (var d := t[1..];
       if |d| > 0 && AllDigits(d) then
         var v: int := DigitsValue(d);
         Ok(if t[0] == '-' then -v else v)
       else Err("ValueError"))
    else if |t| > 0 && AllDigits(t) then Ok(DigitsValue(t))
    else Err("ValueError")
  }

  /** `int(str(i)) == i`. */
  lemma {:induction false} IntToStringRoundTrip(i: int)
    ensures ParseInt(IntToString(i)) == Ok(i)
  {
    if i < 0 {
      NegativeRoundTrip(-i);
    } else {
      NonNegativeRoundTrip(i);
    }
  }

  /** The non-negative case of the lemma above: the digits of `m` alone. */
  lemma {:induction false} NonNegativeRoundTrip(m: nat)
    ensures ParseInt(NatToString(m)) == Ok(m as int)
  {
    var d := NatToString(m);
    NatToStringRoundTrip(m);
    assert !IsSpace(d[0]) && !IsSpace(d[|d| - 1]);
    StripNoop(d);
  }

  /** The negative case of the lemma above: a minus sign before the digits of `m`. */
  lemma {:induction false} NegativeRoundTrip(m: nat)
    ensures ParseInt("-" + NatToString(m)) == Ok(-(m as int))
  {
    var d := NatToString(m);
    NatToStringRoundTrip(m);
    var t := "-" + d;
    assert !IsSpace(t[0]) && t[|t| - 1] == d[|d| - 1];
    StripNoop(t);
    assert t[1..] == d;
  }
}
