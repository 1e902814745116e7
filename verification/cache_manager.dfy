/**
 * The TTL cache (noless/cache_manager.py). The SQLite table `cache(key PRIMARY KEY, value,
 * category, created_at, expires_at)` is a map from key to entry; the clock reading
 * `time.time()` is the parameter `now` of each operation.
 */
module CacheManagement {
  import opened Py
  import opened Schemas

  /** One row of the table; the JSON text of the value is kept as the value it decodes to. */
  datatype Entry = Entry(value: Value, category: string, createdAt: real, expiresAt: real)

  type Table = map<string, Entry>

  /** What `json.dumps` accepts: the analyzer's issue objects are not JSON serialisable. */
  predicate Serializable(v: Value)
    decreases v
  {
    match v
    case VList(xs) => forall i :: 0 <= i < |xs| ==> Serializable(xs[i])
    case VDict(m) => forall k :: k in m ==> Serializable(m[k])
    case VSecurity(_) => false
    case VPerformance(_) => false
    case _ => true
  }

  /** Python truthiness of an optional string argument. */
  predicate Given(arg: Option<string>) {
    arg.Some? && arg.value != ""
  }

  // ---------------------------------------------------------------------------
  // SQL LIKE
  // ---------------------------------------------------------------------------

  /**
   * SQLite's `key LIKE pattern` without an ESCAPE clause: `%` matches any run of
   * characters, `_` any one character, and ASCII letters match regardless of case.
   */
  predicate Like(s: string, p: string)
    decreases |s| + |p|
  {
    if p == [] then s == []
    else if p[0] == '%' then Like(s, p[1..]) || (s != [] && Like(s[1..], p))
    else s != [] && (p[0] == '_' || LowerChar(s[0]) == LowerChar(p[0])) && Like(s[1..], p[1..])
  }

  /** A pattern without wildcards. */
  predicate Literal(p: string) {
    forall k :: 0 <= k < |p| ==> p[k] != '%' && p[k] != '_'
  }

  /** `%` alone matches every key. */
  lemma {:induction false} LikeAnything(s: string)
    ensures Like(s, "%")
  {
    if s != [] {
      LikeAnything(s[1..]);
    }
  }

  /** `prefix%` matches every key that starts with the prefix, e.g. `llm:%`. */
  lemma {:induction false} LikePrefix(prefix: string, rest: string)
    requires Literal(prefix)
    ensures Like(prefix + rest, prefix + "%")
  {
    if prefix == [] {
      assert prefix + rest == rest && prefix + "%" == "%";
      LikeAnything(rest);
    } else {
      assert (prefix + rest)[1..] == prefix[1..] + rest;
      assert (prefix + "%")[1..] == prefix[1..] + "%";
      LikePrefix(prefix[1..], rest);
    }
  }

  /** A pattern without wildcards matches only keys equal to it up to ASCII case. */
  lemma {:induction false} LikeLiteral(s: string, p: string)
    requires Literal(p)
    ensures Like(s, p) <==> |s| == |p| && forall k :: 0 <= k < |s| ==> LowerChar(s[k]) == LowerChar(p[k])
  {
    if p != [] && s != [] {
      LikeLiteral(s[1..], p[1..]);
      if |s| == |p| && forall k :: 0 <= k < |s| ==> LowerChar(s[k]) == LowerChar(p[k]) {
        assert LowerChar(s[0]) == LowerChar(p[0]);
        assert forall k :: 0 <= k < |s[1..]| ==> LowerChar(s[1..][k]) == LowerChar(p[1..][k]) by {
          forall k | 0 <= k < |s[1..]| ensures LowerChar(s[1..][k]) == LowerChar(p[1..][k]) {
            assert s[1..][k] == s[k + 1] && p[1..][k] == p[k + 1];
          }
        }
      }
      if Like(s, p) {
        forall k | 0 <= k < |s| ensures LowerChar(s[k]) == LowerChar(p[k]) {
          if k > 0 {
            assert s[1..][k - 1] == s[k] && p[1..][k - 1] == p[k];
          }
        }
      }
    }
  }

  // ---------------------------------------------------------------------------
  // Table operations as functions
  // ---------------------------------------------------------------------------

  /** The keys whose row satisfies `p`. */
  function Where(table: Table, p: (string, Entry) -> bool): (r: set<string>)
    ensures r <= table.Keys
    ensures forall k :: k in r <==> k in table && p(k, table[k])
  {
    set k | k in table && p(k, table[k])
  }

  /** `DELETE FROM cache WHERE key IN doomed`. */
  function Delete(table: Table, doomed: set<string>): (r: Table)
    ensures r.Keys == table.Keys - doomed
    ensures forall k :: k in r ==> r[k] == table[k]
  {
    map k | k in table && k !in doomed :: table[k]
  }

  /** The row count of a delete is the number of rows it took out. */
  lemma {:induction false} DeleteCount(table: Table, doomed: set<string>)
    requires doomed <= table.Keys
    ensures |Delete(table, doomed)| == |table| - |doomed|
  {
    var kept := Delete(table, doomed).Keys;
    assert kept + doomed == table.Keys;
    assert kept * doomed == {};
  }

  /** `SELECT value FROM cache WHERE key = ? AND expires_at > ?`, or None. */
  function Lookup(table: Table, key: string, now: real): (r: Value)
    ensures key in table && table[key].expiresAt > now ==> r == table[key].value
    ensures !(key in table && table[key].expiresAt > now) ==> r == VNone
  {
    if key in table && table[key].expiresAt > now then table[key].value else VNone
  }

  predicate Expired(e: Entry, now: real) { e.expiresAt < now }
  predicate Live(e: Entry, now: real) { e.expiresAt > now }

  /** The rows `invalidate` deletes for the given (truthy or not) pattern and category. */
  predicate Doomed(pattern: Option<string>, category: Option<string>, key: string, e: Entry) {
    (Given(pattern) ==> Like(key, pattern.value)) && (Given(category) ==> e.category == category.value)
  }

  /**
   * The rows each of the four DELETE statements of `invalidate` selects: by pattern and
   * category, by pattern, by category, or all of them.
   */
  function InvalidateWhere(table: Table, pattern: Option<string>, category: Option<string>): (r: set<string>)
    ensures r == Where(table, (k, e) => Doomed(pattern, category, k, e))
  {
    if Given(pattern) && Given(category) then
      set k | k in table && Like(k, pattern.value) && table[k].category == category.value
    else if Given(pattern) then
      set k | k in table && Like(k, pattern.value)
    else if Given(category) then
      set k | k in table && table[k].category == category.value
    else
      table.Keys
  }

  /** Cache statistics as `get_stats` reports them. */
  datatype Stats = Stats(total: int, expired: int, valid: int, byCategory: map<string, int>)

  /** The live rows of one category. */
  function LiveIn(table: Table, category: string, now: real): set<string> {
    Where(table, (k: string, e: Entry) => e.category == category && Live(e, now))
  }

  /** The categories of the live rows. */
  function LiveCategories(table: Table, now: real): (r: set<string>)
    ensures forall c :: c in r <==> LiveIn(table, c, now) != {}
  {
    var r := set k | k in table && Live(table[k], now) :: table[k].category;
    assert forall c :: c in r <==> LiveIn(table, c, now) != {} by {
      forall c | c in r ensures LiveIn(table, c, now) != {} {
        var k :| k in table && Live(table[k], now) && table[k].category == c;
        assert k in LiveIn(table, c, now);
      }
      forall c | LiveIn(table, c, now) != {} ensures c in r {
        var k :| k in LiveIn(table, c, now);
      }
    }
    r
  }

  /**
   * `get_stats`: `valid_entries` subtracts only the rows with `expires_at < now`, while
   * `by_category` counts only rows with `expires_at > now`.
   */
  function StatsOf(table: Table, now: real): (r: Stats)
    ensures r.total == |table|
    ensures r.expired == |Where(table, (k, e) => Expired(e, now))|
    ensures r.valid == r.total - r.expired
    ensures r.byCategory.Keys == LiveCategories(table, now)
    ensures forall c :: c in r.byCategory ==> r.byCategory[c] == |LiveIn(table, c, now)| > 0
  {
    var expired := |Where(table, (k, e) => Expired(e, now))|;
    Stats(|table|, expired, |table| - expired,
          map c | c in LiveCategories(table, now) :: |LiveIn(table, c, now)|)
  }

  /**
   * The two clock comparisons disagree at the boundary: a row that expires exactly now
   * counts as valid, yet `get` does not return it and it is in no category.
   */
  lemma {:induction false} ValidIncludesBoundary(table: Table, now: real)
    ensures StatsOf(table, now).valid
            == |Where(table, (k, e) => Live(e, now))| + |Where(table, (k: string, e: Entry) => e.expiresAt == now)|
  {
    var expired := Where(table, (k, e) => Expired(e, now));
    var live := Where(table, (k, e) => Live(e, now));
    var boundary := Where(table, (k: string, e: Entry) => e.expiresAt == now);
    assert live + boundary + expired == table.Keys;
    assert live * boundary == {} && (live + boundary) * expired == {};
    assert |live + boundary| == |live| + |boundary|;
    assert |table.Keys| == |live + boundary| + |expired|;
  }

  /** Every live row of a category is counted in it. */
  lemma {:induction false} LiveRowCounted(table: Table, key: string, now: real)
    requires key in table && Live(table[key], now)
    ensures table[key].category in StatsOf(table, now).byCategory
    ensures StatsOf(table, now).byCategory[table[key].category] >= 1
  {
    assert key in LiveIn(table, table[key].category, now);
  }

  // ---------------------------------------------------------------------------
  // CacheManager
  // ---------------------------------------------------------------------------

  class CacheManager {
    /** Time to live in seconds. */
    var ttl: int
    /** The rows of the `cache` table. */
    var table: Table

    /**
     * `CacheManager(cache_dir, ttl_hours)`: the table is created if it does not exist,
     * so the rows already stored under the directory (`existing`) stay.
     */
    constructor(existing: Table, ttlHours: int := 24)
      ensures ttl == ttlHours * 3600 && table == existing
    {
      ttl := ttlHours * 3600;
      table := existing;
    }

    /**
     * `set`: INSERT OR REPLACE with `created_at = now` and `expires_at = now + ttl`; a
     * value `json.dumps` rejects leaves the table as it was.
     */
    method Set(key: string, value: Value, category: string, now: real)
      modifies this
      ensures ttl == old(ttl)
      ensures Serializable(value) ==>
        table == old(table)[key := Entry(value, category, now, now + ttl as real)]
      ensures !Serializable(value) ==> table == old(table)
    {
      if Serializable(value) {
        table := table[key := Entry(value, category, now, now + ttl as real)];
      }
    }

    /** `get`: the stored value while `expires_at > now`, None otherwise. */
    function Get(key: string, now: real): (r: Value)
      reads this
      ensures r != VNone ==> key in table && table[key].expiresAt > now && r == table[key].value
      ensures key in table && table[key].expiresAt > now ==> r == table[key].value
    {
      Lookup(table, key, now)
    }

    /**
     * `get_or_compute`: a cached value that is not None is returned without calling
     * `compute`; otherwise `compute` runs once, its result is stored and returned. The
     * lookup reads the clock as `now`, the store, after `compute`, as `later`.
     */
    method GetOrCompute(key: string, compute: () -> Value, category: string, now: real, later: real)
      returns (r: Value, computed: bool)
      modifies this
      ensures ttl == old(ttl)
      ensures computed <==> old(Get(key, now)) == VNone
      ensures !computed ==> r == old(Get(key, now)) && table == old(table)
      ensures computed ==> r == compute()
      ensures computed && Serializable(r) ==>
        table == old(table)[key := Entry(r, category, later, later + ttl as real)]
      ensures computed && !Serializable(r) ==> table == old(table)
      ensures computed && ((ttl > 0 && Serializable(r)) || r == VNone) ==> Get(key, later) == r
      ensures !computed ==> Get(key, now) == r
    {
      var cached := Get(key, now);
      if cached != VNone {
        return cached, false;
      }
      r := compute();
      computed := true;
      Set(key, r, category, later);
    }

    /**
     * `invalidate`: deletes the rows matching the pattern and/or the category (an empty
     * string counts as not given), every row when neither is given, and returns how many.
     */
    method Invalidate(pattern: Option<string>, category: Option<string>) returns (count: nat)
      modifies this
      ensures ttl == old(ttl)
      ensures table == Delete(old(table), Where(old(table), (k, e) => Doomed(pattern, category, k, e)))
      ensures count == |Where(old(table), (k, e) => Doomed(pattern, category, k, e))|
      ensures count == |old(table)| - |table|
    {
      var doomed := InvalidateWhere(table, pattern, category);
      DeleteCount(table, doomed);
      table := Delete(table, doomed);
      count := |doomed|;
    }

    /** `cleanup_expired`: deletes exactly the rows with `expires_at < now`. */
    method CleanupExpired(now: real) returns (count: nat)
      modifies this
      ensures ttl == old(ttl)
      ensures table == Delete(old(table), Where(old(table), (k, e) => Expired(e, now)))
      ensures count == |Where(old(table), (k, e) => Expired(e, now))|
      ensures count == |old(table)| - |table|
    {
      var doomed := set k | k in table && table[k].expiresAt < now;
      assert doomed == Where(table, (k, e) => Expired(e, now));
      DeleteCount(table, doomed);
      table := Delete(table, doomed);
      count := |doomed|;
    }

    /** `get_stats`. */
    function GetStats(now: real): (r: Stats)
      reads this
      ensures r.total == |table| && r.valid == r.total - r.expired
      ensures r.expired == |Where(table, (k, e) => Expired(e, now))|
    {
      StatsOf(table, now)
    }

    /** `clear`. */
    method Clear()
      modifies this
      ensures ttl == old(ttl) && table == map[]
    {
      table := map[];
    }
  }

  /** After `set` with a positive TTL, `get` at the same time returns the value. */
  lemma {:induction false} GetAfterSet(table: Table, key: string, value: Value, category: string, now: real, ttl: int)
    requires ttl > 0
    ensures Lookup(table[key := Entry(value, category, now, now + ttl as real)], key, now) == value
  {
  }

  /** `set` leaves every other key's lookup as it was. */
  lemma {:induction false} SetIsolated(table: Table, key: string, other: string, e: Entry, now: real)
    requires other != key
    ensures Lookup(table[key := e], other, now) == Lookup(table, other, now)
  {
  }

  /**
   * Cleanup never changes what `get` answers: it only removes rows `get` already hides,
   * and a row expiring exactly now is hidden by `get` but kept by the cleanup.
   */
  lemma {:induction false} CleanupPreservesLookups(table: Table, key: string, now: real)
    ensures Lookup(Delete(table, Where(table, (k, e) => Expired(e, now))), key, now) == Lookup(table, key, now)
    ensures key in table && table[key].expiresAt == now ==>
      key in Delete(table, Where(table, (k, e) => Expired(e, now))) && Lookup(table, key, now) == VNone
  {
  }

  /** With neither pattern nor category, `invalidate` empties the table. */
  lemma {:induction false} InvalidateAllWithoutFilters(table: Table)
    ensures Delete(table, Where(table, (k, e) => Doomed(None, None, k, e))) == map[]
  {
    assert Where(table, (k, e) => Doomed(None, None, k, e)) == table.Keys;
  }

  /** Invalidating a category leaves no row of it and keeps every other row. */
  lemma {:induction false} InvalidateCategory(table: Table, category: string)
    requires category != ""
    ensures var r := Delete(table, Where(table, (k, e) => Doomed(None, Some(category), k, e)));
      (forall k :: k in r ==> r[k].category != category)
      && (forall k :: k in table && table[k].category != category ==> k in r)
  {
  }

  // ---------------------------------------------------------------------------
  // The module-level instance
  // ---------------------------------------------------------------------------

  /** The module global `_cache_manager` of `get_cache_manager`. */
  class CacheRegistry {
    var instance: Option<CacheManager>

    constructor()
      ensures instance == None
    {
      instance := None;
    }

    /**
     * `get_cache_manager`: creates the manager on the first call (over the rows already on
     * disk, with the default TTL) and returns that same object on every later call.
     */
    method GetCacheManager(existing: Table) returns (m: CacheManager)
      modifies this
      ensures old(instance).Some? ==> m == old(instance).value && instance == old(instance)
      ensures old(instance).None? ==> fresh(m) && instance == Some(m) && m.table == existing && m.ttl == 24 * 3600
    {
      if instance.None? {
        m := new CacheManager(existing);
        instance := Some(m);
      } else {
        m := instance.value;
      }
    }
  }

  /** Two calls hand out the same manager. */
  method SameInstance(registry: CacheRegistry, first: Table, second: Table)
    returns (a: CacheManager, b: CacheManager)
    modifies registry
    ensures a == b
  {
    a := registry.GetCacheManager(first);
    b := registry.GetCacheManager(second);
  }
}
