/** The per-oid adapter cache of `Psycopg2ResultContext.typecast`
    (akiban/psycopg2.py). On the first value seen for an oid it decides, from
    whether that value is a string, whether later values of the oid need a
    psycopg2 adapter, and remembers the decision. */
module AdapterCache {
  import opened Json

  /** An opaque psycopg2 typecaster object. */
  datatype Adapter = Adapter(id: nat)

  /** The parts of psycopg2 that typecast consults: the table
      `psycopg2.extensions.string_types` from oid to typecaster, the
      typecaster `psycopg2.STRING`, and which values a typecaster rejects,
      raising instead of converting. */
  datatype Driver = Driver(
    stringTypes: map<Json, Adapter>,
    stringCaster: Adapter,
    rejects: (Adapter, Json) -> bool)

  /** A decoded scalar: the value unchanged, or the result of calling
      `adapter(value, adapter)`, which the model leaves uninterpreted. */
  datatype Native = Raw(value: Json) | Adapted(adapter: Adapter, value: Json)

  /** `_psycopg2_adapter_cache`: oid (as a dict key) to typecaster or None. */
  type Cache = map<Json, Option<Adapter>>

  /** A result together with the cache left behind. Updates made before an
      exception stay in the cache, so the cache is kept on failure too. */
  datatype Outcome<+T> = Outcome(result: Result<T>, cache: Cache)

  /** The cache only grows, and no entry already present changes. */
  ghost predicate Extends(before: Cache, after: Cache) {
    before.Keys <= after.Keys && forall k :: k in before ==> after[k] == before[k]
  }

  /** The value returned for a cache entry: passed through for None, and
      otherwise `adapter(value, adapter)`, which raises when the typecaster
      rejects the value. */
  function Apply(drv: Driver, entry: Option<Adapter>, value: Json): (r: Result<Native>)
    ensures entry.None? ==> r == Ok(Raw(value))
    ensures entry.Some? && r.Ok? ==> r.value == Adapted(entry.value, value)
    ensures r.Err? <==> entry.Some? && drv.rejects(entry.value, value)
    ensures r.Err? ==> r.error == AdapterError(value)
  {
    match entry
    case None => Ok(Raw(value))
    case Some(a) => if drv.rejects(a, value) then Err(AdapterError(value)) else Ok(Adapted(a, value))
  }

  /** The entry decided on first sight of a value of oid key `key`, when the
      value is (`isString`) or is not a string; None when psycopg2 has no
      typecaster registered for a string-valued oid. */
  function FirstEntry(drv: Driver, key: Json, isString: bool): (r: Option<Option<Adapter>>)
    ensures !isString ==> r == Some(None)
    ensures r.None? <==> isString && key !in drv.stringTypes
    ensures r == Some(None) ==> !isString || drv.stringTypes[key] == drv.stringCaster
    ensures r.Some? && r.value.Some? ==>
      isString && key in drv.stringTypes && r.value.value == drv.stringTypes[key] != drv.stringCaster
  {
    if !isString then Some(None)
    else if key !in drv.stringTypes then None
    else if drv.stringTypes[key] == drv.stringCaster then Some(None)
    else Some(Some(drv.stringTypes[key]))
  }

  /** `typecast(value, oid)` against the cache `cache`. */
  function CastOf(drv: Driver, cache: Cache, value: Json, oid: Json): (r: Outcome<Native>)
    ensures Extends(cache, r.cache)
    ensures r.result.Ok? || r.result.error.AdapterError? ==> Hashable(oid) && HashKey(oid) in r.cache
    ensures r.cache.Keys <= cache.Keys + {HashKey(oid)}
    ensures Hashable(oid) && HashKey(oid) in cache ==> r.cache == cache
    ensures r.result.Err? && !r.result.error.AdapterError? ==> r.cache == cache
    ensures r.result.Err? ==> !r.result.error.AdapterError? || r.result.error == AdapterError(value)
  {
    if !Hashable(oid) then Outcome(Err(TypeError), cache)
    else
      var key := HashKey(oid);
      if key in cache then Outcome(Apply(drv, cache[key], value), cache)
      else if IsString(value) then
        if key !in drv.stringTypes then Outcome(Err(KeyError(oid)), cache)
        else
          var adapter := drv.stringTypes[key];
          if adapter == drv.stringCaster then Outcome(Ok(Raw(value)), cache[key := None])
          else Outcome(Apply(drv, Some(adapter), value), cache[key := Some(adapter)])
      else Outcome(Ok(Raw(value)), cache[key := None])
  }

  /** A cache hit decides the result from the cached entry and the value
      alone: whether the value is a string is not looked at again. */
  lemma CacheHit(drv: Driver, cache: Cache, value: Json, oid: Json)
    requires Hashable(oid) && HashKey(oid) in cache
    ensures CastOf(drv, cache, value, oid) == Outcome(Apply(drv, cache[HashKey(oid)], value), cache)
  {
  }

  /** First sight of an oid: the entry stored is FirstEntry's decision and the
      result is that entry applied to the value; an unregistered string oid
      raises KeyError and caches nothing. */
  lemma FirstSight(drv: Driver, cache: Cache, value: Json, oid: Json)
    requires Hashable(oid) && HashKey(oid) !in cache
    ensures var key := HashKey(oid);
      var r := CastOf(drv, cache, value, oid);
      match FirstEntry(drv, key, IsString(value))
      case None => r == Outcome(Err(KeyError(oid)), cache)
      case Some(entry) => r == Outcome(Apply(drv, entry, value), cache[key := entry])
  {
  }

  /** The three first-sight cases as the source states them. */
  lemma FirstSightCases(drv: Driver, cache: Cache, value: Json, oid: Json)
    requires Hashable(oid) && HashKey(oid) !in cache
    ensures var key := HashKey(oid);
      var r := CastOf(drv, cache, value, oid);
      && (!IsString(value) ==> r == Outcome(Ok(Raw(value)), cache[key := None]))
      && (IsString(value) && key in drv.stringTypes && drv.stringTypes[key] == drv.stringCaster ==>
            r == Outcome(Ok(Raw(value)), cache[key := None]))
      && (IsString(value) && key in drv.stringTypes && drv.stringTypes[key] != drv.stringCaster ==>
            && r.cache == cache[key := Some(drv.stringTypes[key])]
            && r.result == if drv.rejects(drv.stringTypes[key], value) then Err(AdapterError(value))
                           else Ok(Adapted(drv.stringTypes[key], value)))
      && (IsString(value) && key !in drv.stringTypes ==> r == Outcome(Err(KeyError(oid)), cache))
  {
  }

  /** The assumption the cache rests on: when every value of an oid has the
      same representation (string or not) as the one that filled its entry, a
      warm cache decodes exactly as a cold one would. */
  lemma ConsistentRepresentationIsSound(drv: Driver, cache: Cache, value: Json, oid: Json)
    requires Hashable(oid) && HashKey(oid) in cache
    requires FirstEntry(drv, HashKey(oid), IsString(value)) == Some(cache[HashKey(oid)])
    ensures CastOf(drv, cache, value, oid).result == CastOf(drv, map[], value, oid).result
  {
  }

  /** The documented risk: once an oid was first seen with a non-string value,
      a later string value of that oid is passed through unconverted even
      though psycopg2 has a real typecaster for it. */
  lemma MixedRepresentationSkipsAdapter(drv: Driver, first: Json, later: Json, oid: Json)
    requires Hashable(oid) && !IsString(first) && IsString(later)
    requires HashKey(oid) in drv.stringTypes && drv.stringTypes[HashKey(oid)] != drv.stringCaster
    ensures var warm := CastOf(drv, map[], first, oid).cache;
      && CastOf(drv, warm, later, oid).result == Ok(Raw(later))
      && CastOf(drv, map[], later, oid).result == Apply(drv, Some(drv.stringTypes[HashKey(oid)]), later)
      && CastOf(drv, map[], later, oid).result != Ok(Raw(later))
  {
  }

  /** `_psycopg2_adapter_cache`: one module-level dict, shared by every
      result context. */
  class AdapterTable {
    var entries: Cache

    constructor ()
      ensures entries == map[]
    {
      entries := map[];
    }
  }
}
