/**
 * How the code validator of noless/code_validator.py picks its reviewer model: a
 * requested model that is installed wins; otherwise the installed models are scanned
 * in name order for the largest size marker, skipping the generation model, with a
 * fallback to any other model and, last, to the generation model itself.
 */
module ReviewerSelection {
  import opened Py

  /** An installed model: its name and its size label. */
  datatype ModelInfo = ModelInfo(name: string, size: string)

  // ---------------------------------------------------------------------------
  // String order and sorting by name
  // ---------------------------------------------------------------------------

  /** Python's `<=` on strings: lexicographic by code point, a prefix first. */
  predicate StrLe(a: string, b: string)
    decreases |a|
  {
    a == [] || (b != [] && (a[0] < b[0] || (a[0] == b[0] && StrLe(a[1..], b[1..]))))
  }

  lemma {:induction false} StrLeRefl(a: string)
    ensures StrLe(a, a)
    decreases |a|
  {
    if a != [] {
      StrLeRefl(a[1..]);
    }
  }

  lemma {:induction false} StrLeTotal(a: string, b: string)
    ensures StrLe(a, b) || StrLe(b, a)
    decreases |a|
  {
    if a != [] && b != [] && a[0] == b[0] {
      StrLeTotal(a[1..], b[1..]);
    }
  }

  lemma {:induction false} StrLeTrans(a: string, b: string, c: string)
    requires StrLe(a, b) && StrLe(b, c)
    ensures StrLe(a, c)
    decreases |a|
  {
    if a != [] && a[0] == b[0] && b[0] == c[0] {
      StrLeTrans(a[1..], b[1..], c[1..]);
    }
  }

  lemma {:induction false} StrLeAntisym(a: string, b: string)
    requires StrLe(a, b) && StrLe(b, a)
    ensures a == b
    decreases |a|
  {
    if a != [] {
      StrLeAntisym(a[1..], b[1..]);
      assert a == [a[0]] + a[1..];
      assert b == [b[0]] + b[1..];
    }
  }

  /** The models in non-decreasing name order. */
  predicate SortedByName(s: seq<ModelInfo>) {
    forall i, j :: 0 <= i < j < |s| ==> StrLe(s[i].name, s[j].name)
  }

  /** Inserts `x` after every model whose name is not greater, keeping the sort stable. */
  function Insert(x: ModelInfo, s: seq<ModelInfo>): (r: seq<ModelInfo>)
    ensures multiset(r) == multiset(s) + multiset{x}
    ensures |r| == |s| + 1
  {
    if s == [] then [x]
    else if StrLe(x.name, s[0].name) && x.name != s[0].name then [x] + s
    else
      assert s == [s[0]] + s[1..];
      [s[0]] + Insert(x, s[1..])
  }

  lemma {:induction false} InsertSorted(x: ModelInfo, s: seq<ModelInfo>)
    requires SortedByName(s)
    ensures SortedByName(Insert(x, s))
  {
    if s == [] {
    } else if StrLe(x.name, s[0].name) && x.name != s[0].name {
      forall j | 0 < j < |s|
        ensures StrLe(x.name, s[j].name)
      {
        StrLeTrans(x.name, s[0].name, s[j].name);
      }
    } else {
      StrLeTotal(x.name, s[0].name);
      if StrLe(x.name, s[0].name) {
        StrLeAntisym(x.name, s[0].name);
      }
      InsertSorted(x, s[1..]);
      var r := Insert(x, s[1..]);
      forall k | 0 <= k < |r|
        ensures StrLe(s[0].name, r[k].name)
      {
        assert r[k] in multiset(r);
        assert r[k] in multiset(s[1..]) + multiset{x};
        if r[k] != x {
          assert r[k] in s[1..];
        } else {
          StrLeRefl(x.name);
        }
      }
    }
  }

  /** `sorted(models, key=lambda info: info.name)`, as a stable insertion sort. */
  function SortByName(s: seq<ModelInfo>): (r: seq<ModelInfo>)
    ensures multiset(r) == multiset(s)
    ensures |r| == |s|
  {
    if s == [] then []
    else
      assert s == s[..|s| - 1] + [s[|s| - 1]];
      Insert(s[|s| - 1], SortByName(s[..|s| - 1]))
  }

  /** Sorting puts the models in name order. */
  lemma {:induction false} SortByNameSorted(s: seq<ModelInfo>)
    ensures SortedByName(SortByName(s))
  {
    if s != [] {
      SortByNameSorted(s[..|s| - 1]);
      InsertSorted(s[|s| - 1], SortByName(s[..|s| - 1]));
    }
  }

  lemma {:induction false} SortedSameModels(s: seq<ModelInfo>, m: ModelInfo)
    ensures m in SortByName(s) <==> m in s
  {
    assert m in SortByName(s) <==> m in multiset(SortByName(s));
    assert m in s <==> m in multiset(s);
  }

  // ---------------------------------------------------------------------------
  // _has_model, _select_reviewer_model, _resolve_reviewer_model
  // ---------------------------------------------------------------------------

  /** The size markers, largest first. */
  const SizePriority: seq<string> :=
    ["70b", "32b", "8x7b", "13b", "12b", "11b", "10b", "9b", "8b", "7b", "6b", "5b", "4b", "3b", "2b", "1.5b"]

  /** Whether a model of that name is installed. */
  predicate HasModel(models: seq<ModelInfo>, name: string) {
    exists i :: 0 <= i < |models| && models[i].name == name
  }

  /** A marker matches when it occurs in the size label or in the name, ignoring case. */
  predicate Matches(info: ModelInfo, marker: string) {
    Contains(Lower(info.size), Lower(marker)) || Contains(Lower(info.name), Lower(marker))
  }

  /** The marker scan skips the generation model when one is named. */
  predicate Eligible(info: ModelInfo, generation: Option<string>) {
    !(generation.Some? && generation.value != "" && info.name == generation.value)
  }

  predicate Hit(info: ModelInfo, marker: string, generation: Option<string>) {
    Eligible(info, generation) && Matches(info, marker)
  }

  /** The first position from `i` on whose model is eligible and matches the marker. */
  function MatchFrom(s: seq<ModelInfo>, marker: string, generation: Option<string>, i: nat): (r: Option<nat>)
    requires i <= |s|
    ensures r.None? <==> forall j :: i <= j < |s| ==> !Hit(s[j], marker, generation)
    ensures r.Some? ==> i <= r.value < |s| && Hit(s[r.value], marker, generation)
                        && forall j :: i <= j < r.value ==> !Hit(s[j], marker, generation)
    decreases |s| - i
  {
    if i == |s| then None
    else if Hit(s[i], marker, generation) then Some(i)
    else MatchFrom(s, marker, generation, i + 1)
  }

  /** The name found for the first marker from `k` on that some eligible model matches. */
  function ByPriority(sorted: seq<ModelInfo>, generation: Option<string>, markers: seq<string>, k: nat)
    : Option<string>
    requires k <= |markers|
    decreases |markers| - k
  {
    if k == |markers| then None
    else match MatchFrom(sorted, markers[k], generation, 0)
      case Some(i) => Some(sorted[i].name)
      case None => ByPriority(sorted, generation, markers, k + 1)
  }

  /** The fallback takes any model whose name differs from the generation model's. */
  predicate Other(info: ModelInfo, generation: Option<string>) {
    !(generation.Some? && info.name == generation.value)
  }

  /** The first position from `i` on whose model is not the generation model. */
  function OtherFrom(models: seq<ModelInfo>, generation: Option<string>, i: nat): (r: Option<nat>)
    requires i <= |models|
    ensures r.None? <==> forall j :: i <= j < |models| ==> !Other(models[j], generation)
    ensures r.Some? ==> i <= r.value < |models| && Other(models[r.value], generation)
                        && forall j :: i <= j < r.value ==> !Other(models[j], generation)
    decreases |models| - i
  {
    if i == |models| then None
    else if Other(models[i], generation) then Some(i)
    else OtherFrom(models, generation, i + 1)
  }

  /**
   * The reviewer chosen without a request, scanning with the given markers: none when
   * nothing is installed, otherwise always one of the installed models.
   */
  function SelectAmong(models: seq<ModelInfo>, generation: Option<string>, markers: seq<string>)
    : (r: Option<string>)
    ensures r.None? <==> models == []
    ensures r.Some? ==> HasModel(models, r.value)
  {
    if models == [] then None
    else
      var sorted := SortByName(models);
      match ByPriority(sorted, generation, markers, 0)
      case Some(name) =>
        ByPriorityInstalled(sorted, generation, markers, 0);
        assert exists m :: m in sorted && m.name == name;
        var m :| m in sorted && m.name == name;
        SortedSameModels(models, m);
        Some(name)
      case None =>
        match OtherFrom(models, generation, 0)
        case Some(i) => Some(models[i].name)
        case None =>
          if generation.Some? && generation.value != "" && HasModel(models, generation.value) then generation
          else Some(models[0].name)
  }

  /** `_select_reviewer_model`, scanning with the size markers of the source. */
  function SelectReviewer(models: seq<ModelInfo>, generation: Option<string>): (r: Option<string>)
    ensures r.None? <==> models == []
    ensures r.Some? ==> HasModel(models, r.value)
  {
    SelectAmong(models, generation, SizePriority)
  }

  lemma {:induction false} ByPriorityInstalled(sorted: seq<ModelInfo>, generation: Option<string>,
                                               markers: seq<string>, k: nat)
    requires k <= |markers|
    ensures ByPriority(sorted, generation, markers, k).Some? ==>
              exists m :: m in sorted && m.name == ByPriority(sorted, generation, markers, k).value
    decreases |markers| - k
  {
    if k < |markers| && MatchFrom(sorted, markers[k], generation, 0).None? {
      ByPriorityInstalled(sorted, generation, markers, k + 1);
    }
  }

  /** One pass of the marker scan over the name-sorted models. */
  method ScanForMarker(sorted: seq<ModelInfo>, marker: string, generation: Option<string>) returns (r: Option<nat>)
    ensures r == MatchFrom(sorted, marker, generation, 0)
  {
    for i := 0 to |sorted|
      invariant MatchFrom(sorted, marker, generation, 0) == MatchFrom(sorted, marker, generation, i)
    {
      if generation.Some? && generation.value != "" && sorted[i].name == generation.value {
        continue;
      }
      if Matches(sorted[i], marker) {
        return Some(i);
      }
    }
    return None;
  }

  /**
   * `_select_reviewer_model`: for each marker in priority order, the first eligible
   * matching model of the name-sorted list; then the first model that is not the
   * generation model; then the generation model when it is installed; then the first.
   */
  method SelectReviewerModel(models: seq<ModelInfo>, generation: Option<string>) returns (r: Option<string>)
    ensures r == SelectReviewer(models, generation)
  {
    if models == [] {
      return None;
    }
    var sorted := SortByName(models);
    r := ScanMarkers(sorted, generation, SizePriority);
    if r.Some? {
      return;
    }
    var other := ScanForOther(models, generation);
    if other.Some? {
      return Some(models[other.value].name);
    }
    if generation.Some? && generation.value != "" && HasModel(models, generation.value) {
      return generation;
    }
    return Some(models[0].name);
  }

  /** The marker scan: the markers in priority order, each over the sorted models. */
  method ScanMarkers(sorted: seq<ModelInfo>, generation: Option<string>, markers: seq<string>)
    returns (r: Option<string>)
    ensures r == ByPriority(sorted, generation, markers, 0)
  {
    for k := 0 to |markers|
      invariant ByPriority(sorted, generation, markers, 0) == ByPriority(sorted, generation, markers, k)
    {
      var found := ScanForMarker(sorted, markers[k], generation);
      if found.Some? {
        return Some(sorted[found.value].name);
      }
    }
    return None;
  }

  /** The fallback scan, in installation order. */
  method ScanForOther(models: seq<ModelInfo>, generation: Option<string>) returns (r: Option<nat>)
    ensures r == OtherFrom(models, generation, 0)
  {
    for i := 0 to |models|
      invariant OtherFrom(models, generation, 0) == OtherFrom(models, generation, i)
    {
      if !(generation.Some? && models[i].name == generation.value) {
        return Some(i);
      }
    }
    return None;
  }

  /**
   * `_resolve_reviewer_model`: an installed requested model, else the automatic choice;
   * either way an installed model, and none only when nothing is installed.
   */
  function ResolveReviewer(models: seq<ModelInfo>, requested: Option<string>, generation: Option<string>)
    : (r: Option<string>)
    ensures requested.Some? && requested.value != "" && HasModel(models, requested.value) ==> r == requested
    ensures r.None? <==> models == []
    ensures r.Some? ==> HasModel(models, r.value)
  {
    if requested.Some? && requested.value != "" && HasModel(models, requested.value) then requested
    else SelectReviewer(models, generation)
  }

  // ---------------------------------------------------------------------------
  // What the selection guarantees
  // ---------------------------------------------------------------------------

  /** No eligible model of the list matches the marker. */
  predicate NoHit(s: seq<ModelInfo>, marker: string, generation: Option<string>) {
    forall i :: 0 <= i < |s| ==> !Hit(s[i], marker, generation)
  }

  /** Markers before `k` match no eligible model of the list. */
  predicate NoEarlierMarker(s: seq<ModelInfo>, generation: Option<string>, markers: seq<string>, k: nat) {
    forall j :: 0 <= j < k && j < |markers| ==> NoHit(s, markers[j], generation)
  }

  lemma {:induction false} ByPrioritySkips(sorted: seq<ModelInfo>, generation: Option<string>,
                                           markers: seq<string>, k: nat, j: nat)
    requires j <= k <= |markers|
    requires NoEarlierMarker(sorted, generation, markers, k)
    ensures ByPriority(sorted, generation, markers, j) == ByPriority(sorted, generation, markers, k)
    decreases k - j
  {
    if j < k {
      ByPriorityStep(sorted, generation, markers, j);
      ByPrioritySkips(sorted, generation, markers, k, j + 1);
    }
  }

  lemma {:induction false} ByPriorityStep(sorted: seq<ModelInfo>, generation: Option<string>, markers: seq<string>, j: nat)
    requires j < |markers| && NoHit(sorted, markers[j], generation)
    ensures ByPriority(sorted, generation, markers, j) == ByPriority(sorted, generation, markers, j + 1)
  {
    assert MatchFrom(sorted, markers[j], generation, 0).None?;
  }

  /**
   * The reviewer is found by the most preferred marker that any eligible model matches,
   * and among the models matching it the one with the least name.
   */
  lemma {:induction false} SelectedIsLeastMatch(models: seq<ModelInfo>, generation: Option<string>, markers: seq<string>,
                             k: nat, m: ModelInfo)
    requires k < |markers|
    requires m in models && Hit(m, markers[k], generation)
    requires NoEarlierMarker(models, generation, markers, k)
    ensures SelectAmong(models, generation, markers).Some?
    ensures exists w :: w in models && Hit(w, markers[k], generation)
                        && SelectAmong(models, generation, markers) == Some(w.name)
    ensures forall w :: w in models && Hit(w, markers[k], generation) ==>
                        StrLe(SelectAmong(models, generation, markers).value, w.name)
  {
    var sorted := SortByName(models);
    SortByNameSorted(models);
    SortedSameModels(models, m);
    forall j | 0 <= j < k
      ensures NoHit(sorted, markers[j], generation)
    {
      forall i | 0 <= i < |sorted|
        ensures !Hit(sorted[i], markers[j], generation)
      {
        SortedSameModels(models, sorted[i]);
      }
    }
    ByPrioritySkips(sorted, generation, markers, k, 0);
    var found := MatchFrom(sorted, markers[k], generation, 0);
    assert found.Some?;
    var i := found.value;
    assert ByPriority(sorted, generation, markers, 0) == Some(sorted[i].name);
    SortedSameModels(models, sorted[i]);
    forall w | w in models && Hit(w, markers[k], generation)
      ensures StrLe(sorted[i].name, w.name)
    {
      SortedSameModels(models, w);
      var j :| 0 <= j < |sorted| && sorted[j] == w;
      if j == i {
        StrLeRefl(w.name);
      }
    }
  }

  /**
   * When no marker matches any eligible model, the reviewer is the first installed
   * model, in installation order, that is not the generation model.
   */
  lemma {:induction false} FallbackIsFirstOther(models: seq<ModelInfo>, generation: Option<string>, markers: seq<string>, i: nat)
    requires NoEarlierMarker(models, generation, markers, |markers|)
    requires i < |models| && Other(models[i], generation)
    requires forall j :: 0 <= j < i ==> !Other(models[j], generation)
    ensures SelectAmong(models, generation, markers) == Some(models[i].name)
  {
    var sorted := SortByName(models);
    forall j | 0 <= j < |markers|
      ensures NoHit(sorted, markers[j], generation)
    {
      forall t | 0 <= t < |sorted|
        ensures !Hit(sorted[t], markers[j], generation)
      {
        SortedSameModels(models, sorted[t]);
        var u :| 0 <= u < |models| && models[u] == sorted[t];
        assert NoHit(models, markers[j], generation);
      }
    }
    ByPrioritySkips(sorted, generation, markers, |markers|, 0);
    var o := OtherFrom(models, generation, 0);
    assert o.Some?;
    assert o.value == i;
  }

  /**
   * With one installed model besides the generation model, that model is the reviewer,
   * whatever the size labels say.
   */
  lemma {:induction false} SingleOtherModelSelected(models: seq<ModelInfo>, generation: string, markers: seq<string>, x: ModelInfo)
    requires generation != "" && x.name != generation && x in models
    requires forall i :: 0 <= i < |models| ==> models[i].name == generation || models[i].name == x.name
    ensures SelectAmong(models, Some(generation), markers) == Some(x.name)
  {
    var sorted := SortByName(models);
    forall w | w in sorted
      ensures w.name == generation || w.name == x.name
    {
      SortedSameModels(models, w);
    }
    ByPriorityOnly(sorted, Some(generation), markers, x.name, 0);
    if ByPriority(sorted, Some(generation), markers, 0).None? {
      var i :| 0 <= i < |models| && models[i] == x;
      assert OtherFrom(models, Some(generation), 0).Some?;
    }
  }

  lemma {:induction false} ByPriorityOnly(sorted: seq<ModelInfo>, generation: Option<string>, markers: seq<string>,
                                          name: string, k: nat)
    requires k <= |markers|
    requires forall w :: w in sorted && Eligible(w, generation) ==> w.name == name
    ensures ByPriority(sorted, generation, markers, k).Some? ==> ByPriority(sorted, generation, markers, k).value == name
    decreases |markers| - k
  {
    if k < |markers| && MatchFrom(sorted, markers[k], generation, 0).None? {
      ByPriorityOnly(sorted, generation, markers, name, k + 1);
    }
  }
}
