/**
 * Lazy loading of the optional dependencies and the configuration built on what is
 * installed (noless/dependency_optimizer.py). Whether `import_module(package)` succeeds is
 * the oracle `importable`; a loaded module is identified by its package name.
 */
module DependencyOptimization {
  import opened Py
  import opened Schemas

  datatype DepInfo = DepInfo(package: string, frameworks: seq<string>, requiredFor: string, installCommand: string)

  /** The table in its declaration order. */
  const DepNames: seq<string> := ["torch", "tensorflow", "sklearn", "bandit", "radon"]

  const Deps: map<string, DepInfo> := OptionalDependencies()

  /** `OPTIONAL_DEPENDENCIES`. */
  function OptionalDependencies(): map<string, DepInfo> {
    map[
      "torch" := DepInfo("torch", ["pytorch"], "PyTorch-based models", "pip install torch"),
      "tensorflow" := DepInfo("tensorflow", ["tensorflow", "keras"], "TensorFlow/Keras-based models",
                              "pip install tensorflow"),
      "sklearn" := DepInfo("sklearn", ["scikit-learn"], "Scikit-learn models", "pip install scikit-learn"),
      "bandit" := DepInfo("bandit", [], "Advanced security analysis", "pip install bandit"),
      "radon" := DepInfo("radon", [], "Complexity analysis", "pip install radon")
    ]
  }

  lemma {:induction false} DepNamesAreTheTable()
    ensures forall d :: d in Deps <==> d in DepNames
    ensures forall i, j :: 0 <= i < j < |DepNames| ==> DepNames[i] != DepNames[j]
  {
  }

  lemma {:induction false} MembersAreTheTable()
    ensures Members(DepNames) == Deps.Keys
  {
    DepNamesAreTheTable();
  }

  /** The exceptions `require_dependency` raises. */
  datatype Failure = ValueError(message: string) | ImportError(message: string)

  function UnknownMessage(dep: string): string {
    "Unknown dependency: " + dep
  }

  function NotInstalledMessage(dep: string): string
    requires dep in Deps
  {
    "Required dependency '" + dep + "' is not installed.\nInstall it using: "
    + Deps[dep].installCommand + "\nThis is needed for: " + Deps[dep].requiredFor
  }

  /** A dependency is available once loaded, or when its package imports. */
  predicate Available(loaded: map<string, string>, importable: string -> bool, dep: string)
    requires dep in Deps
  {
    dep in loaded || importable(Deps[dep].package)
  }

  /** The cache after checking every dependency of `deps`: the importable ones are added. */
  function Cached(loaded: map<string, string>, importable: string -> bool, deps: set<string>): (r: map<string, string>)
    requires deps <= Deps.Keys
    ensures loaded.Keys <= r.Keys
    ensures forall d :: d in loaded ==> r[d] == loaded[d]
    ensures forall d :: d in r && d !in loaded ==> d in deps && importable(Deps[d].package) && r[d] == Deps[d].package
    ensures forall d :: d in deps && importable(Deps[d].package) ==> d in r
  {
    map d | d in loaded.Keys + (set e | e in deps && importable(Deps[e].package))
      :: if d in loaded then loaded[d] else Deps[d].package
  }

  /** The dependencies whose table entry lists frameworks. */
  function WithFrameworks(deps: seq<string>): (r: set<string>)
    requires forall i :: 0 <= i < |deps| ==> deps[i] in Deps
    ensures r <= Deps.Keys
    ensures forall d :: d in r <==> d in deps && Deps[d].frameworks != []
  {
    set d | d in deps && Deps[d].frameworks != []
  }

  /** The frameworks of the available dependencies of `deps`. */
  function FrameworksOf(loaded: map<string, string>, importable: string -> bool, deps: seq<string>): (r: set<string>)
    requires forall i :: 0 <= i < |deps| ==> deps[i] in Deps
    ensures forall f :: f in r <==>
      exists d :: d in deps && Available(loaded, importable, d) && f in Deps[d].frameworks
  {
    set d, f | d in deps && Available(loaded, importable, d) && f in Deps[d].frameworks :: f
  }

  /** What `get_missing_dependencies` reports for one dependency. */
  datatype Missing = Missing(install: string, requiredFor: string)

  /** The unavailable table entries of `deps`, each with its install command. */
  function MissingOf(loaded: map<string, string>, importable: string -> bool, deps: seq<string>): (r: map<string, Missing>)
    requires forall i :: 0 <= i < |deps| ==> deps[i] in Deps
    ensures forall d :: d in r <==> d in deps && !Available(loaded, importable, d)
    ensures forall d :: d in r ==> r[d] == Missing(Deps[d].installCommand, Deps[d].requiredFor)
  {
    map d | d in deps && !Available(loaded, importable, d) :: Missing(Deps[d].installCommand, Deps[d].requiredFor)
  }

  /** Checking dependencies caches only available ones, so what is available never changes. */
  lemma {:induction false} CachingKeepsAvailability(loaded: map<string, string>, importable: string -> bool, first: set<string>, second: set<string>)
    requires first <= Deps.Keys && second <= Deps.Keys
    ensures var after := Cached(Cached(loaded, importable, first), importable, second);
      FrameworksOf(after, importable, DepNames) == FrameworksOf(loaded, importable, DepNames)
      && FrameworksOf(Cached(loaded, importable, first), importable, DepNames) == FrameworksOf(loaded, importable, DepNames)
      && MissingOf(Cached(loaded, importable, first), importable, DepNames) == MissingOf(loaded, importable, DepNames)
  {
    var mid := Cached(loaded, importable, first);
    var after := Cached(mid, importable, second);
    assert forall d :: d in Deps ==> (Available(mid, importable, d) <==> Available(loaded, importable, d));
    assert forall d :: d in Deps ==> (Available(after, importable, d) <==> Available(loaded, importable, d));
  }

  /** The frameworks one table entry lists. */
  function FrameworkSet(dep: string): (r: set<string>)
    requires dep in Deps
    ensures forall f :: f in r <==> f in Deps[dep].frameworks
  {
    set f | f in Deps[dep].frameworks
  }

  /** The names a sequence holds. */
  function Members(names: seq<string>): (r: set<string>)
    ensures forall d :: d in r <==> d in names
  {
    set d | d in names
  }

  /** One more checked dependency: the cache grows by it exactly when it imports. */
  lemma {:induction false} CachedStep(loaded: map<string, string>, importable: string -> bool, deps: set<string>, dep: string)
    requires deps <= Deps.Keys && dep in Deps
    ensures Cached(Cached(loaded, importable, deps), importable, {dep}) == Cached(loaded, importable, deps + {dep})
    ensures Available(Cached(loaded, importable, deps), importable, dep) == Available(loaded, importable, dep)
  {
  }

  /** The frameworks of one more dependency join the union exactly when it is available. */
  lemma {:induction false} FrameworksStep(loaded: map<string, string>, importable: string -> bool, deps: seq<string>, dep: string)
    requires forall i :: 0 <= i < |deps| ==> deps[i] in Deps
    requires dep in Deps
    ensures FrameworksOf(loaded, importable, deps + [dep])
         == FrameworksOf(loaded, importable, deps) + (if Available(loaded, importable, dep) then FrameworkSet(dep) else {})
    ensures WithFrameworks(deps + [dep]) == WithFrameworks(deps) + (if Deps[dep].frameworks != [] then {dep} else {})
  {
    var longer := deps + [dep];
    assert forall d :: d in longer <==> d in deps || d == dep;
  }

  /** An unavailable dependency joins the missing ones; an available one changes nothing. */
  lemma {:induction false} MissingStep(loaded: map<string, string>, importable: string -> bool, deps: seq<string>, dep: string)
    requires forall i :: 0 <= i < |deps| ==> deps[i] in Deps
    requires dep in Deps
    ensures MissingOf(loaded, importable, deps + [dep])
         == if Available(loaded, importable, dep) then MissingOf(loaded, importable, deps)
            else MissingOf(loaded, importable, deps)[dep := Missing(Deps[dep].installCommand, Deps[dep].requiredFor)]
  {
    var longer := deps + [dep];
    assert forall d :: d in longer <==> d in deps || d == dep;
  }

  /** The frameworks any dependency of the table can contribute. */
  const AllFrameworks: set<string> := {"pytorch", "tensorflow", "keras", "scikit-learn"}

  lemma {:induction false} FrameworksAmongAll(loaded: map<string, string>, importable: string -> bool)
    ensures FrameworksOf(loaded, importable, DepNames) <= AllFrameworks
  {
    forall f | f in FrameworksOf(loaded, importable, DepNames) ensures f in AllFrameworks {
      var d :| d in DepNames && Available(loaded, importable, d) && f in Deps[d].frameworks;
    }
  }

  /** The loaded-module cache `DependencyOptimizer._loaded_modules`, shared by all callers. */
  class DependencyOptimizer {
    var loaded: map<string, string>

    /** Every cached module is a table entry's package. */
    ghost predicate Valid()
      reads this
    {
      forall d :: d in loaded ==> d in Deps && loaded[d] == Deps[d].package
    }

    constructor()
      ensures loaded == map[] && Valid()
    {
      loaded := map[];
    }

    /**
     * `require_dependency`: a cached name is returned without looking at the table or
     * the importer; an unknown name raises ValueError; a successful import is cached; a
     * failed one raises ImportError with the install command and caches nothing.
     */
    method RequireDependency(dep: string, importable: string -> bool) returns (r: Result<string, Failure>)
      modifies this
      ensures dep in old(loaded) ==> r == Ok(old(loaded)[dep]) && loaded == old(loaded)
      ensures dep !in old(loaded) && dep !in Deps ==>
        r == Err(ValueError(UnknownMessage(dep))) && loaded == old(loaded)
      ensures dep !in old(loaded) && dep in Deps && importable(Deps[dep].package) ==>
        r == Ok(Deps[dep].package) && loaded == old(loaded)[dep := Deps[dep].package]
      ensures dep !in old(loaded) && dep in Deps && !importable(Deps[dep].package) ==>
        r == Err(ImportError(NotInstalledMessage(dep))) && loaded == old(loaded)
      ensures old(Valid()) ==> Valid()
    {
      if dep in loaded {
        return Ok(loaded[dep]);
      }
      if dep !in Deps {
        return Err(ValueError(UnknownMessage(dep)));
      }
      var package := Deps[dep].package;
      if importable(package) {
        loaded := loaded[dep := package];
        r := Ok(package);
      } else {
        r := Err(ImportError(NotInstalledMessage(dep)));
      }
    }

    /** `has_dependency`: catches ImportError only, so an unknown name still raises ValueError. */
    method HasDependency(dep: string, importable: string -> bool) returns (r: Result<bool, Failure>)
      modifies this
      ensures r.Err? <==> dep !in old(loaded) && dep !in Deps
      ensures r.Err? ==> r.error == ValueError(UnknownMessage(dep))
      ensures r.Ok? && dep in Deps ==> r.value == Available(old(loaded), importable, dep)
      ensures r == Ok(false) ==> dep in Deps
      ensures dep in old(loaded) ==> r == Ok(true)
      ensures dep in Deps ==> loaded == Cached(old(loaded), importable, {dep})
      ensures dep !in Deps ==> loaded == old(loaded)
      ensures old(Valid()) ==> Valid()
    {
      var required := RequireDependency(dep, importable);
      match required
      case Ok(_) => r := Ok(true);
      case Err(ImportError(_)) => r := Ok(false);
      case Err(e) => r := Err(e);
    }

    /** One step of `get_available_frameworks`: entries without frameworks are not checked. */
    method FrameworksIfAvailable(dep: string, importable: string -> bool) returns (gained: set<string>)
      requires dep in Deps
      modifies this
      ensures gained == if Deps[dep].frameworks != [] && Available(old(loaded), importable, dep)
                        then FrameworkSet(dep) else {}
      ensures loaded == if Deps[dep].frameworks != [] then Cached(old(loaded), importable, {dep}) else old(loaded)
      ensures old(Valid()) ==> Valid()
    {
      gained := {};
      if Deps[dep].frameworks != [] {
        var has := HasDependency(dep, importable);
        if has == Ok(true) {
          gained := FrameworkSet(dep);
        }
      }
    }

    /**
     * `get_available_frameworks`: walks the table in order, checking only entries that
     * list frameworks, and returns the union of the frameworks of the available ones.
     */
    method GetAvailableFrameworks(importable: string -> bool) returns (r: set<string>)
      modifies this
      ensures r == FrameworksOf(old(loaded), importable, DepNames)
      ensures loaded == Cached(old(loaded), importable, WithFrameworks(DepNames))
      ensures old(Valid()) ==> Valid()
    {
      DepNamesAreTheTable();
      r := FrameworksOver(DepNames, importable);
    }

    /** The walk of `get_available_frameworks` over `names`, in order. */
    method FrameworksOver(names: seq<string>, importable: string -> bool) returns (r: set<string>)
      requires forall i :: 0 <= i < |names| ==> names[i] in Deps
      modifies this
      ensures r == FrameworksOf(old(loaded), importable, names)
      ensures loaded == Cached(old(loaded), importable, WithFrameworks(names))
      ensures old(Valid()) ==> Valid()
    {
      r := {};
      var i := 0;
      while i < |names|
        invariant 0 <= i <= |names|
        invariant loaded == Cached(old(loaded), importable, WithFrameworks(names[..i]))
        invariant r == FrameworksOf(old(loaded), importable, names[..i])
        invariant old(Valid()) ==> Valid()
      {
        assert names[..i + 1] == names[..i] + [names[i]];
        r := FrameworksAfter(old(loaded), names[..i], names[i], importable, r);
        i := i + 1;
      }
      assert names[..i] == names;
    }

    /** The loop body of `get_available_frameworks`: one more entry checked. */
    method FrameworksAfter(ghost base: map<string, string>, done: seq<string>, dep: string, importable: string -> bool,
                           before: set<string>)
      returns (r: set<string>)
      requires dep in Deps && forall i :: 0 <= i < |done| ==> done[i] in Deps
      requires loaded == Cached(base, importable, WithFrameworks(done))
      requires before == FrameworksOf(base, importable, done)
      modifies this
      ensures loaded == Cached(base, importable, WithFrameworks(done + [dep]))
      ensures r == FrameworksOf(base, importable, done + [dep])
      ensures old(Valid()) ==> Valid()
    {
      FrameworksStep(base, importable, done, dep);
      CachedStep(base, importable, WithFrameworks(done), dep);
      assert WithFrameworks(done + [dep])
          == WithFrameworks(done) + (if Deps[dep].frameworks != [] then {dep} else {});
      var gained := FrameworksIfAvailable(dep, importable);
      r := before + gained;
    }

    /** `get_missing_dependencies`: every unavailable table entry with its install command. */
    method GetMissingDependencies(importable: string -> bool) returns (r: map<string, Missing>)
      modifies this
      ensures r == MissingOf(old(loaded), importable, DepNames)
      ensures loaded == Cached(old(loaded), importable, Deps.Keys)
      ensures old(Valid()) ==> Valid()
    {
      DepNamesAreTheTable();
      r := MissingOver(DepNames, importable);
      MembersAreTheTable();
    }

    /** The walk of `get_missing_dependencies` over `names`, in order. */
    method MissingOver(names: seq<string>, importable: string -> bool) returns (r: map<string, Missing>)
      requires forall i :: 0 <= i < |names| ==> names[i] in Deps
      modifies this
      ensures r == MissingOf(old(loaded), importable, names)
      ensures loaded == Cached(old(loaded), importable, Members(names))
      ensures old(Valid()) ==> Valid()
    {
      r := map[];
      var i := 0;
      while i < |names|
        invariant 0 <= i <= |names|
        invariant loaded == Cached(old(loaded), importable, Members(names[..i]))
        invariant r == MissingOf(old(loaded), importable, names[..i])
        invariant old(Valid()) ==> Valid()
      {
        assert names[..i + 1] == names[..i] + [names[i]];
        r := MissingAfter(old(loaded), names[..i], names[i], importable, r);
        i := i + 1;
      }
      assert names[..i] == names;
    }

    /** The loop body of `get_missing_dependencies`: one more entry checked. */
    method MissingAfter(ghost base: map<string, string>, done: seq<string>, dep: string, importable: string -> bool,
                        before: map<string, Missing>)
      returns (r: map<string, Missing>)
      requires dep in Deps && forall i :: 0 <= i < |done| ==> done[i] in Deps
      requires loaded == Cached(base, importable, Members(done))
      requires before == MissingOf(base, importable, done)
      modifies this
      ensures loaded == Cached(base, importable, Members(done + [dep]))
      ensures r == MissingOf(base, importable, done + [dep])
      ensures old(Valid()) ==> Valid()
    {
      assert Members(done + [dep]) == Members(done) + {dep};
      MissingStep(base, importable, done, dep);
      CachedStep(base, importable, Members(done), dep);
      var has := HasDependency(dep, importable);
      r := before;
      if has == Ok(false) {
        r := r[dep := Missing(Deps[dep].installCommand, Deps[dep].requiredFor)];
      }
      assert has == Ok(Available(base, importable, dep));
    }
  }

  // ---------------------------------------------------------------------------
  // require_framework and optional_import
  // ---------------------------------------------------------------------------

  /** The decorator's alias table; any other name is used as it is. */
  function DependencyFor(framework: string): (r: string)
    ensures framework in {"pytorch"} ==> r == "torch"
    ensures framework in {"tensorflow", "keras"} ==> r == "tensorflow"
    ensures framework in {"sklearn", "scikit-learn"} ==> r == "sklearn"
    ensures framework !in {"pytorch", "tensorflow", "keras", "sklearn", "scikit-learn"} ==> r == framework
  {
    if framework == "pytorch" then "torch"
    else if framework == "tensorflow" || framework == "keras" then "tensorflow"
    else if framework == "sklearn" || framework == "scikit-learn" then "sklearn"
    else framework
  }

  function FrameworkMessage(framework: string, dep: string): string
    requires dep in Deps
  {
    "Framework '" + framework + "' is required but not installed.\nInstall using: " + Deps[dep].installCommand
  }

  /**
   * A function wrapped by `require_framework(framework)`: the framework's dependency is
   * checked first; ImportError when it is unavailable, otherwise the wrapped call's result.
   */
  method RequireFramework(framework: string, optimizer: DependencyOptimizer, importable: string -> bool, call: () -> Value)
    returns (r: Result<Value, Failure>)
    modifies optimizer
    ensures var dep := DependencyFor(framework);
      && (dep !in old(optimizer.loaded) && dep !in Deps ==> r == Err(ValueError(UnknownMessage(dep))))
      && (dep in old(optimizer.loaded) ==> r == Ok(call()))
      && (dep !in old(optimizer.loaded) && dep in Deps ==>
            r == (if importable(Deps[dep].package) then Ok(call())
                  else Err(ImportError(FrameworkMessage(framework, dep)))))
  {
    var dep := DependencyFor(framework);
    var has := optimizer.HasDependency(dep, importable);
    match has
    case Err(e) => r := Err(e);
    case Ok(present) =>
      if !present {
        r := Err(ImportError(FrameworkMessage(framework, dep)));
      } else {
        r := Ok(call());
      }
  }

  /** What `optional_import` hands back: the module, or the caller's fallback. */
  datatype Imported = Module(package: string) | Fallback(value: Value)

  /**
   * `optional_import`: ImportError gives the fallback when one is given (not None) and is
   * re-raised otherwise; ValueError always propagates.
   */
  method OptionalImport(dep: string, fallback: Value, optimizer: DependencyOptimizer, importable: string -> bool)
    returns (r: Result<Imported, Failure>)
    modifies optimizer
    ensures dep in old(optimizer.loaded) ==> r == Ok(Module(old(optimizer.loaded)[dep]))
    ensures dep !in old(optimizer.loaded) && dep !in Deps ==> r == Err(ValueError(UnknownMessage(dep)))
    ensures dep !in old(optimizer.loaded) && dep in Deps && importable(Deps[dep].package) ==>
      r == Ok(Module(Deps[dep].package))
    ensures dep !in old(optimizer.loaded) && dep in Deps && !importable(Deps[dep].package) ==>
      r == (if fallback != VNone then Ok(Fallback(fallback)) else Err(ImportError(NotInstalledMessage(dep))))
  {
    var required := optimizer.RequireDependency(dep, importable);
    match required
    case Ok(m) => r := Ok(Module(m));
    case Err(ImportError(msg)) =>
      if fallback != VNone {
        r := Ok(Fallback(fallback));
      } else {
        r := Err(ImportError(msg));
      }
    case Err(e) => r := Err(e);
  }

  // ---------------------------------------------------------------------------
  // DependencyAwareConfig
  // ---------------------------------------------------------------------------

  /** Which recommendation table: the one written, or one naming scikit-learn by its framework name. */
  datatype Variant = AsWritten | Intended

  /** The per-task preference lists of `get_recommended_framework`. */
  function Recommendations(variant: Variant, task: string): seq<string> {
    var sk := if variant == AsWritten then "sklearn" else "scikit-learn";
    if task == "image-classification" || task == "text-classification" || task == "nlp"
       || task == "time-series" then ["pytorch", "tensorflow"]
    else if task == "regression" then ["pytorch", "tensorflow", sk]
    else if task == "clustering" then [sk]
    else []
  }

  /** The first preference that is available. */
  function FirstAvailable(prefs: seq<string>, available: seq<string>): (r: Option<nat>)
    ensures r.Some? ==> r.value < |prefs| && prefs[r.value] in available
    ensures r.Some? ==> forall j :: 0 <= j < r.value ==> prefs[j] !in available
    ensures r.None? ==> forall j :: 0 <= j < |prefs| ==> prefs[j] !in available
  {
    if prefs == [] then None
    else if prefs[0] in available then Some(0)
    else match FirstAvailable(prefs[1..], available)
      case None => None
      case Some(j) => Some(j + 1)
  }

  /**
   * `get_recommended_framework` over the list of available frameworks: the first
   * available preference listed for that task, else the first available framework, else None.
   */
  function RecommendedFramework(variant: Variant, task: string, available: seq<string>): (r: Option<string>)
    ensures r.None? <==> available == []
    ensures r.Some? ==> r.value in available
    ensures var prefs := Recommendations(variant, task);
      FirstAvailable(prefs, available).Some? ==> r == Some(prefs[FirstAvailable(prefs, available).value])
    ensures FirstAvailable(Recommendations(variant, task), available).None? && available != [] ==>
      r == Some(available[0])
  {
    var prefs := Recommendations(variant, task);
    match FirstAvailable(prefs, available)
    case Some(j) => Some(prefs[j])
    case None => if available == [] then None else Some(available[0])
  }

  /**
   * As written the table names scikit-learn by its package name "sklearn", which is never
   * an available framework: clustering ignores its preference and takes whatever comes
   * first, e.g. "pytorch" when both PyTorch and scikit-learn are installed.
   */
  lemma {:induction false} ClusteringIgnoresScikitLearn(available: seq<string>)
    requires available == ["pytorch", "scikit-learn"]
    ensures RecommendedFramework(AsWritten, "clustering", available) == Some("pytorch")
  {
    assert "sklearn" !in available;
    assert FirstAvailable(["sklearn"], available) == None;
  }

  /** With the framework name in the table, clustering gets scikit-learn whenever it is available. */
  lemma {:induction false} ClusteringIntended(available: seq<string>)
    requires "scikit-learn" in available
    ensures RecommendedFramework(Intended, "clustering", available) == Some("scikit-learn")
  {
    assert FirstAvailable(["scikit-learn"], available) == Some(0);
  }

  /** Only tasks of the table can have a preference; any other task gets the first available. */
  lemma {:induction false} UnknownTaskTakesFirst(variant: Variant, task: string, available: seq<string>)
    requires task !in {"image-classification", "text-classification", "nlp", "time-series", "regression", "clustering"}
    requires available != []
    ensures RecommendedFramework(variant, task, available) == Some(available[0])
  {
  }

  /** The model lists per task that `get_available_models` starts from. */
  const ModelKeys: set<string> := {"image-classification", "text-classification", "regression", "clustering", "nlp"}

  /**
   * `get_available_models` over the available frameworks; the scikit-learn branch (keyed
   * "sklearn") appends to the missing key "classification" and would raise KeyError.
   */
  function AvailableModels(frameworks: set<string>): (r: Result<map<string, seq<string>>, string>)
    ensures r.Err? <==> "sklearn" in frameworks
    ensures r.Ok? ==> r.value.Keys == ModelKeys
    ensures r.Ok? ==> r.value["clustering"] == []
    ensures r.Ok? ==> ("bert" in r.value["text-classification"] <==> "pytorch" in frameworks)
    ensures r.Ok? ==> ("mobilenet" in r.value["image-classification"] <==> "tensorflow" in frameworks)
  {
    var torch := "pytorch" in frameworks;
    var tf := "tensorflow" in frameworks;
    if "sklearn" in frameworks then Err("KeyError")
    else
      Ok(map[
        "image-classification" := (if torch then ["resnet18", "resnet50", "vgg16"] else [])
                                  + (if tf then ["mobilenet", "inception"] else []),
        "text-classification" := (if torch then ["lstm", "bert"] else [])
                                 + (if tf then ["bert_tf", "lstm_tf"] else []),
        "regression" := (if torch then ["mlp", "linear"] else []) + (if tf then ["dense"] else []),
        "clustering" := [],
        "nlp" := if torch then ["transformer", "gpt"] else []])
  }

  /** The frameworks the table can yield never include "sklearn", so no KeyError and no scikit-learn models. */
  lemma {:induction false} ModelsNeverRaise(loaded: map<string, string>, importable: string -> bool)
    ensures AvailableModels(FrameworksOf(loaded, importable, DepNames)).Ok?
  {
    FrameworksAmongAll(loaded, importable);
  }

  /** `DependencyAwareConfig` and its one-entry `_cache`. */
  class DependencyAwareConfig {
    var cachedModels: Option<map<string, seq<string>>>

    constructor()
      ensures cachedModels == None
    {
      cachedModels := None;
    }

    /** `get_available_models`: the cached dict on every call after the first successful one. */
    method GetAvailableModels(optimizer: DependencyOptimizer, importable: string -> bool)
      returns (r: Result<map<string, seq<string>>, string>)
      modifies this, optimizer
      ensures old(cachedModels).Some? ==> r == Ok(old(cachedModels).value) && cachedModels == old(cachedModels)
      ensures old(cachedModels).None? ==>
        r == AvailableModels(FrameworksOf(old(optimizer.loaded), importable, DepNames))
        && cachedModels == (if r.Ok? then Some(r.value) else None)
    {
      if cachedModels.Some? {
        return Ok(cachedModels.value);
      }
      var frameworks := optimizer.GetAvailableFrameworks(importable);
      r := AvailableModels(frameworks);
      if r.Ok? {
        cachedModels := Some(r.value);
      }
    }

    /**
     * `get_recommended_framework`; `arrange` is the order in which `list(set(...))` lists
     * the available frameworks.
     */
    method GetRecommendedFramework(task: string, optimizer: DependencyOptimizer, importable: string -> bool,
                                   arrange: set<string> -> seq<string>)
      returns (r: Option<string>)
      modifies optimizer
      ensures r == RecommendedFramework(AsWritten, task, arrange(FrameworksOf(old(optimizer.loaded), importable, DepNames)))
    {
      var frameworks := optimizer.GetAvailableFrameworks(importable);
      r := RecommendedFramework(AsWritten, task, arrange(frameworks));
    }
  }

  /** `validate_setup`. */
  datatype SetupReport = SetupReport(availableFrameworks: set<string>, missing: map<string, Missing>, readyToUse: bool)

  method ValidateSetup(optimizer: DependencyOptimizer, importable: string -> bool) returns (r: SetupReport)
    modifies optimizer
    ensures r.availableFrameworks == FrameworksOf(old(optimizer.loaded), importable, DepNames)
    ensures r.missing == MissingOf(old(optimizer.loaded), importable, DepNames)
    ensures r.readyToUse <==> r.availableFrameworks != {}
  {
    var frameworks := optimizer.GetAvailableFrameworks(importable);
    var missing := optimizer.GetMissingDependencies(importable);
    var again := optimizer.GetAvailableFrameworks(importable);
    CachingKeepsAvailability(old(optimizer.loaded), importable, WithFrameworks(DepNames), Deps.Keys);
    r := SetupReport(frameworks, missing, |again| > 0);
  }
}
