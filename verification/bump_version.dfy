/**
 * The release helper bump_version.py: reading the version triple out of setup.py,
 * bumping one of its parts, and writing the new version back. File reads and writes,
 * the confirmation prompt and the printed messages are outside the model; the file
 * contents are plain strings here.
 */
module VersionBump {
  import opened Py

  datatype Version = Version(major: int, minor: int, patch: int)

  /** Lexicographic order on (major, minor, patch). */
  predicate Below(v: Version, w: Version) {
    || v.major < w.major
    || (v.major == w.major && v.minor < w.minor)
    || (v.major == w.major && v.minor == w.minor && v.patch < w.patch)
  }

  // ---------------------------------------------------------------------------
  // bump_version
  // ---------------------------------------------------------------------------

  /**
   * `major, minor, patch = map(int, version.split("."))`: every failure, a wrong number
   * of parts or a part `int` rejects, is a ValueError.
   */
  function ParseVersion(version: string): (r: Result<Version, string>)
    ensures r.Ok? <==> |Split(version, '.')| == 3
                       && ParseInt(Split(version, '.')[0]).Ok?
                       && ParseInt(Split(version, '.')[1]).Ok?
                       && ParseInt(Split(version, '.')[2]).Ok?
    ensures r.Err? ==> r.error == "ValueError"
  {
    var parts := Split(version, '.');
    if |parts| != 3 then Err("ValueError")
    else match (ParseInt(parts[0]), ParseInt(parts[1]), ParseInt(parts[2]))
      case (Ok(major), Ok(minor), Ok(patch)) => Ok(Version(major, minor, patch))
      case _ => Err("ValueError")
  }

  /** `f"{major}.{minor}.{patch}"`. */
  function VersionText(v: Version): string {
    IntToString(v.major) + "." + IntToString(v.minor) + "." + IntToString(v.patch)
  }

  const InvalidPart: string := ". Use 'major', 'minor', or 'patch'"

  /** The triple a valid part produces, or None for any other part. */
  function Bumped(v: Version, part: string): (r: Option<Version>)
    ensures r.Some? <==> part in {"major", "minor", "patch"}
    ensures r.Some? ==> Below(v, r.value)
  {
    if part == "major" then Some(Version(v.major + 1, 0, 0))
    else if part == "minor" then Some(Version(v.major, v.minor + 1, 0))
    else if part == "patch" then Some(Version(v.major, v.minor, v.patch + 1))
    else None
  }

  /** `bump_version`: the version is split before the part is looked at. */
  function BumpVersion(version: string, part: string): (r: Result<string, string>)
    ensures ParseVersion(version).Err? ==> r == Err("ValueError")
    ensures ParseVersion(version).Ok? && part !in {"major", "minor", "patch"} ==>
              r == Err("ValueError: Invalid part: " + part + InvalidPart)
  {
    match ParseVersion(version)
    case Err(e) => Err(e)
    case Ok(v) =>
      match Bumped(v, part)
      case None => Err("ValueError: Invalid part: " + part + InvalidPart)
      case Some(w) => Ok(VersionText(w))
  }

  /** Splitting text without the separator gives the text back as the only part. */
  lemma {:induction false} SplitWithout(s: string, sep: char)
    requires sep !in s
    ensures Split(s, sep) == [s]
  {
    if |s| > 0 {
      assert sep !in s[1..] by {
        forall k | 0 <= k < |s[1..]| ensures s[1..][k] != sep {
          assert s[1..][k] == s[k + 1];
        }
      }
      SplitWithout(s[1..], sep);
      assert [s[0]] + s[1..] == s;
    }
  }

  /** A leading part without the separator is split off as the first part. */
  lemma {:induction false} SplitFirst(a: string, sep: char, rest: string)
    requires sep !in a
    ensures Split(a + [sep] + rest, sep) == [a] + Split(rest, sep)
  {
    if |a| == 0 {
      assert a + [sep] + rest == [sep] + rest;
      assert ([sep] + rest)[1..] == rest;
    } else {
      var s := a + [sep] + rest;
      assert s[1..] == a[1..] + [sep] + rest;
      assert sep !in a[1..] by {
        forall k | 0 <= k < |a[1..]| ensures a[1..][k] != sep {
          assert a[1..][k] == a[k + 1];
        }
      }
      SplitFirst(a[1..], sep, rest);
      assert [a[0]] + a[1..] == a;
    }
  }

  lemma {:induction false} NoDotInNumber(i: int)
    ensures '.' !in IntToString(i)
  {
    var d := NatToString(if i < 0 then -i else i);
    assert forall k :: 0 <= k < |d| ==> IsDigit(d[k]);
    if i < 0 {
      assert IntToString(i) == "-" + d;
      forall k | 0 <= k < |"-" + d| ensures ("-" + d)[k] != '.' {
        if k > 0 {
          assert ("-" + d)[k] == d[k - 1];
        }
      }
    }
  }

  /** Three dot-free pieces joined by dots split back into those pieces. */
  lemma {:induction false} SplitThree(a: string, b: string, c: string)
    requires '.' !in a && '.' !in b && '.' !in c
    ensures Split(a + "." + b + "." + c, '.') == [a, b, c]
  {
    assert a + "." + b + "." + c == a + ['.'] + (b + ['.'] + c);
    SplitFirst(a, '.', b + ['.'] + c);
    SplitFirst(b, '.', c);
    SplitWithout(c, '.');
  }

  /** Splitting a rendered version gives back its triple. */
  lemma {:induction false} VersionRoundTrip(v: Version)
    ensures ParseVersion(VersionText(v)) == Ok(v)
  {
    NoDotInNumber(v.major);
    NoDotInNumber(v.minor);
    NoDotInNumber(v.patch);
    SplitThree(IntToString(v.major), IntToString(v.minor), IntToString(v.patch));
    IntToStringRoundTrip(v.major);
    IntToStringRoundTrip(v.minor);
    IntToStringRoundTrip(v.patch);
  }

  /**
   * A bump succeeds exactly for the three part names; the new version is the expected
   * triple, lies strictly above the old one, and splits back into that triple.
   */
  lemma {:induction false} BumpVersionSpec(version: string, part: string)
    requires ParseVersion(version).Ok?
    ensures BumpVersion(version, part).Ok? <==> part in {"major", "minor", "patch"}
    ensures var v := ParseVersion(version).value;
      BumpVersion(version, part).Ok? ==>
        && ParseVersion(BumpVersion(version, part).value) == Ok(Bumped(v, part).value)
        && Below(v, Bumped(v, part).value)
        && (part == "major" ==> Bumped(v, part).value == Version(v.major + 1, 0, 0))
        && (part == "minor" ==> Bumped(v, part).value == Version(v.major, v.minor + 1, 0))
        && (part == "patch" ==> Bumped(v, part).value == Version(v.major, v.minor, v.patch + 1))
  {
    var v := ParseVersion(version).value;
    if part in {"major", "minor", "patch"} {
      VersionRoundTrip(Bumped(v, part).value);
    }
  }

  // ---------------------------------------------------------------------------
  // get_current_version: the first match of version="(\d+\.\d+\.\d+)"
  // ---------------------------------------------------------------------------

  const VersionKey: string := "version=\""

  /** The number of ASCII digits in a row from position k. */
  function DigitRun(s: string, k: nat): (n: nat)
    ensures k + n <= |s| || n == 0
    ensures forall m :: k <= m < k + n ==> IsDigit(s[m])
    ensures k + n < |s| ==> !IsDigit(s[k + n])
    decreases |s| - k
  {
    if k < |s| && IsDigit(s[k]) then 1 + DigitRun(s, k + 1) else 0
  }

  /**
   * The match of the pattern starting at j, if any. Each digit run is taken whole: a
   * shorter run would be followed by a digit, where the pattern needs '.' or '"'.
   */
  function VersionAt(s: string, j: nat): Option<string> {
    if !(j + |VersionKey| <= |s| && s[j..j + |VersionKey|] == VersionKey) then None
    else
      var a := j + |VersionKey|;
      var n1 := DigitRun(s, a);
      if n1 == 0 || a + n1 >= |s| || s[a + n1] != '.' then None
      else
        var b := a + n1 + 1;
        var n2 := DigitRun(s, b);
        if n2 == 0 || b + n2 >= |s| || s[b + n2] != '.' then None
        else
          var c := b + n2 + 1;
          var n3 := DigitRun(s, c);
          if n3 == 0 || c + n3 >= |s| || s[c + n3] != '"' then None
          else Some(s[a..c + n3])
  }

  /** `re.search` from position j: the leftmost match. */
  function SearchFrom(s: string, j: nat): (r: Option<string>)
    ensures r.Some? ==> exists i :: j <= i <= |s| && VersionAt(s, i) == r && NoMatchIn(s, j, i)
    ensures r.None? <==> forall i :: j <= i <= |s| ==> VersionAt(s, i).None?
    decreases |s| - j
  {
    if j > |s| then None
    else if VersionAt(s, j).Some? then VersionAt(s, j)
    else SearchFrom(s, j + 1)
  }

  /** No position in [j, i) matches. */
  predicate NoMatchIn(s: string, j: nat, i: nat) {
    forall k :: j <= k < i ==> VersionAt(s, k).None?
  }

  /** `get_current_version` on the contents of setup.py. */
  function GetCurrentVersion(content: string): (r: Result<string, string>)
    ensures r.Err? <==> forall i :: 0 <= i <= |content| ==> VersionAt(content, i).None?
    ensures r.Ok? ==> exists i :: 0 <= i <= |content| && VersionAt(content, i) == Some(r.value) && NoMatchIn(content, 0, i)
    ensures r.Err? ==> r.error == "ValueError: Could not find version in setup.py"
  {
    match SearchFrom(content, 0)
    case None => Err("ValueError: Could not find version in setup.py")
    case Some(v) => Ok(v)
  }

  /** Text of the form digits '.' digits '.' digits. */
  predicate VersionShape(v: string) {
    var parts := Split(v, '.');
    |parts| == 3 && forall i :: 0 <= i < 3 ==> |parts[i]| > 0 && AllDigits(parts[i])
  }

  /** Where the pieces of a match lie: the key at `j`, three digit runs ending at `b - 1`, `c - 1` and `e`. */
  lemma {:induction false} VersionAtBounds(s: string, j: nat) returns (a: nat, b: nat, c: nat, e: nat)
    requires VersionAt(s, j).Some?
    ensures a == j + |VersionKey| && s[j..a] == VersionKey
    ensures a < b - 1 && b - 1 == a + DigitRun(s, a) && s[b - 1] == '.'
    ensures b < c - 1 && c - 1 == b + DigitRun(s, b) && s[c - 1] == '.'
    ensures c < e && e == c + DigitRun(s, c) && e < |s| && s[e] == '"'
    ensures VersionAt(s, j).value == s[a..e]
  {
    a := j + |VersionKey|;
    b := a + DigitRun(s, a) + 1;
    c := b + DigitRun(s, b) + 1;
    e := c + DigitRun(s, c);
  }

  /** The three digit runs of a match. */
  lemma {:induction false} VersionAtPieces(s: string, j: nat) returns (x: string, y: string, z: string)
    requires VersionAt(s, j).Some?
    ensures VersionAt(s, j).value == x + "." + y + "." + z
    ensures |x| > 0 && |y| > 0 && |z| > 0 && AllDigits(x) && AllDigits(y) && AllDigits(z)
  {
    var a, b, c, e := VersionAtBounds(s, j);
    x, y, z := s[a..b - 1], s[b..c - 1], s[c..e];
    SliceAtTwoPoints(s, a, b - 1, c - 1, e);
    DigitRunDigits(s, a);
    DigitRunDigits(s, b);
    DigitRunDigits(s, c);
  }

  /** A text cut at `j`, `a` and around the character at `e`. */
  lemma {:induction false} SliceAround(s: string, j: nat, a: nat, e: nat)
    requires j <= a <= e < |s|
    ensures s == s[..j] + (s[j..a] + s[a..e] + [s[e]]) + s[e + 1..]
  {
    assert s == s[..j] + s[j..a] + s[a..e] + s[e..e + 1] + s[e + 1..];
    assert s[e..e + 1] == [s[e]];
  }

  /** A slice cut around the characters at `p` and `q`. */
  lemma {:induction false} SliceAtTwoPoints(s: string, a: nat, p: nat, q: nat, e: nat)
    requires a <= p < q < e <= |s|
    ensures s[a..e] == s[a..p] + [s[p]] + s[p + 1..q] + [s[q]] + s[q + 1..e]
  {
    assert s[a..e] == s[a..p] + s[p..e];
    assert s[p..e] == [s[p]] + s[p + 1..e];
    assert s[p + 1..e] == s[p + 1..q] + s[q..e];
    assert s[q..e] == [s[q]] + s[q + 1..e];
  }

  /** The run of digits at `k`, as a text, is all digits. */
  lemma {:induction false} DigitRunDigits(s: string, k: nat)
    requires k + DigitRun(s, k) <= |s|
    ensures AllDigits(s[k..k + DigitRun(s, k)])
  {
    var d := s[k..k + DigitRun(s, k)];
    forall m | 0 <= m < |d| ensures IsDigit(d[m]) {
      assert d[m] == s[k + m];
    }
  }

  /** A match is a version triple in its text form. */
  lemma {:induction false} VersionAtShape(s: string, j: nat)
    requires VersionAt(s, j).Some?
    ensures VersionShape(VersionAt(s, j).value)
  {
    var x, y, z := VersionAtPieces(s, j);
    assert '.' !in x && '.' !in y && '.' !in z by {
      assert forall k :: 0 <= k < |x| ==> IsDigit(x[k]);
      assert forall k :: 0 <= k < |y| ==> IsDigit(y[k]);
      assert forall k :: 0 <= k < |z| ==> IsDigit(z[k]);
    }
    SplitThree(x, y, z);
  }

  /** A match sits in the text right after the key and before a closing quote. */
  lemma {:induction false} VersionAtPinned(s: string, j: nat)
    requires VersionAt(s, j).Some?
    ensures Contains(s, VersionKey + VersionAt(s, j).value + "\"")
  {
    var a, b, c, e := VersionAtBounds(s, j);
    SliceAround(s, j, a, e);
    ContainsMiddle(s[..j], s[j..a] + s[a..e] + [s[e]], s[e + 1..]);
  }

  /** Digits alone are accepted by `int`. */
  lemma {:induction false} DigitsParse(d: string)
    requires |d| > 0 && AllDigits(d)
    ensures ParseInt(d).Ok? && ParseInt(d).value >= 0
  {
    assert !IsSpace(d[0]) && !IsSpace(d[|d| - 1]);
    StripNoop(d);
  }

  /** A version found in setup.py always splits into three non-negative numbers. */
  lemma {:induction false} FoundVersionParses(content: string)
    requires GetCurrentVersion(content).Ok?
    ensures ParseVersion(GetCurrentVersion(content).value).Ok?
    ensures var v := ParseVersion(GetCurrentVersion(content).value).value;
      v.major >= 0 && v.minor >= 0 && v.patch >= 0
  {
    var text := GetCurrentVersion(content).value;
    var i :| 0 <= i <= |content| && VersionAt(content, i) == Some(text);
    VersionAtShape(content, i);
    var parts := Split(text, '.');
    var x, y, z := parts[0], parts[1], parts[2];
    DigitsParse(x);
    DigitsParse(y);
    DigitsParse(z);
  }

  // ---------------------------------------------------------------------------
  // update_version_in_file
  // ---------------------------------------------------------------------------

  function Pinned(version: string): string {
    VersionKey + version + "\""
  }

  /** The new contents of setup.py: every `version="old"` becomes `version="new"`. */
  function UpdateVersion(content: string, oldVersion: string, newVersion: string): (r: string)
    ensures !Contains(content, Pinned(oldVersion)) ==> r == content
    ensures Contains(content, Pinned(oldVersion)) ==> Contains(r, Pinned(newVersion))
  {
    assert |Pinned(oldVersion)| == |VersionKey| + |oldVersion| + 1;
    ReplaceSpec(content, Pinned(oldVersion), Pinned(newVersion));
    Replace(content, Pinned(oldVersion), Pinned(newVersion))
  }

  /** Each replacement changes the length by the difference of the two pinned texts. */
  lemma {:induction false} ReplaceLength(s: string, o: string, n: string)
    requires |o| > 0
    ensures |Replace(s, o, n)| == |s| + Count(s, o) * (|n| - |o|)
    decreases |s|
  {
    if |s| >= |o| {
      if s[..|o|] == o {
        var rest := s[|o|..];
        ReplaceLength(rest, o, n);
        var c := Count(rest, o);
        assert (1 + c) * (|n| - |o|) == (|n| - |o|) + c * (|n| - |o|);
      } else {
        ReplaceLength(s[1..], o, n);
      }
    }
  }

  /**
   * Without an occurrence of the old pinned version the contents stay as they are;
   * with one, the text before the first occurrence is kept and the new pinned version
   * takes its place. The length changes by the same amount for every occurrence. The
   * two cases rest on `Py.ReplaceAbsent` and `Py.ReplaceFirst`, through `ReplaceSpec`.
   */
  lemma {:induction false} UpdateVersionSpec(content: string, oldVersion: string, newVersion: string)
    ensures !Contains(content, Pinned(oldVersion)) ==> UpdateVersion(content, oldVersion, newVersion) == content
    ensures Contains(content, Pinned(oldVersion)) ==>
      var i := FindFrom(content, Pinned(oldVersion), 0).value;
      && StartsWith(UpdateVersion(content, oldVersion, newVersion), content[..i] + Pinned(newVersion))
      && Contains(UpdateVersion(content, oldVersion, newVersion), Pinned(newVersion))
    ensures |UpdateVersion(content, oldVersion, newVersion)|
         == |content| + Count(content, Pinned(oldVersion)) * (|newVersion| - |oldVersion|)
  {
    var o, n := Pinned(oldVersion), Pinned(newVersion);
    assert |o| == |VersionKey| + |oldVersion| + 1 && |n| == |VersionKey| + |newVersion| + 1;
    ReplaceSpec(content, o, n);
  }

  /** `str.replace` with a non-empty pattern, as the lemma above needs it. */
  lemma {:induction false} ReplaceSpec(s: string, o: string, n: string)
    requires |o| > 0
    ensures !Contains(s, o) ==> Replace(s, o, n) == s
    ensures Contains(s, o) ==>
      var i := FindFrom(s, o, 0).value;
      StartsWith(Replace(s, o, n), s[..i] + n) && Contains(Replace(s, o, n), n)
    ensures |Replace(s, o, n)| == |s| + Count(s, o) * (|n| - |o|)
  {
    ReplaceLength(s, o, n);
    if !Contains(s, o) {
      ReplaceAbsent(s, o, n);
    } else {
      var i := FindFrom(s, o, 0).value;
      var rest := Replace(s[i + |o|..], o, n);
      ReplaceFirst(s, o, n);
      assert Replace(s, o, n) == (s[..i] + n) + rest;
      assert Replace(s, o, n)[..|s[..i] + n|] == s[..i] + n;
      ContainsMiddle(s[..i], n, rest);
    }
  }

  /**
   * The whole run of `main` on the contents of setup.py, with the answer to the
   * confirmation prompt as a parameter: the new contents, or the error main reports.
   */
  function BumpSetup(content: string, part: string, response: string): (r: Result<string, string>)
    ensures r.Ok? <==> part in {"major", "minor", "patch"} && GetCurrentVersion(content).Ok?
    ensures part !in {"major", "minor", "patch"} ==> r == Err("Usage: python bump_version.py [major|minor|patch]")
    ensures part in {"major", "minor", "patch"} && GetCurrentVersion(content).Err? ==> r == Err(GetCurrentVersion(content).error)
    ensures r.Ok? && Lower(response) != "y" ==> r.value == content
  {
    if part !in {"major", "minor", "patch"} then Err("Usage: python bump_version.py [major|minor|patch]")
    else match GetCurrentVersion(content)
    case Err(e) => Err(e)
    case Ok(current) =>
      FoundVersionParses(content);
      BumpVersionSpec(current, part);
      match BumpVersion(current, part)
      case Err(e) => Err(e)
      case Ok(next) => Ok(if Lower(response) == "y" then UpdateVersion(content, current, next) else content)
  }

  /**
   * The run succeeds exactly for a valid part and contents that pin a version; once
   * confirmed the contents pin the bumped version, and an unconfirmed run changes nothing.
   */
  lemma {:induction false} BumpSetupSpec(content: string, part: string, response: string)
    ensures BumpSetup(content, part, response).Ok?
        <==> part in {"major", "minor", "patch"} && GetCurrentVersion(content).Ok?
    ensures BumpSetup(content, part, response).Ok? && Lower(response) != "y" ==>
      BumpSetup(content, part, response).value == content
    ensures BumpSetup(content, part, response).Ok? && Lower(response) == "y" ==>
      var next := BumpVersion(GetCurrentVersion(content).value, part).value;
      Contains(BumpSetup(content, part, response).value, Pinned(next))
  {
    if part in {"major", "minor", "patch"} && GetCurrentVersion(content).Ok? {
      var current := GetCurrentVersion(content).value;
      FoundVersionParses(content);
      BumpVersionSpec(current, part);
      var i :| 0 <= i <= |content| && VersionAt(content, i) == Some(current);
      VersionAtPinned(content, i);
      UpdateVersionSpec(content, current, BumpVersion(current, part).value);
    }
  }
}
