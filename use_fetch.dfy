/**
 * The generic loader hook: it holds `data`, `loading` and `error`, a mounted
 * flag and the current abort controller, serves unforced loads from the
 * shared cache, and writes successful results back to it. The asynchronous
 * load is split into `Start` (everything before the producer is awaited)
 * and `Resolve` (what happens when the producer settles).
 */
module Fetch {
  import opened Wrappers
  import opened Js
  import opened Text
  import opened CacheStore

  /** The TTL used when the hook is given none: five minutes. */
  const DefaultTtl := 5 * 60 * 1000

  /** The cache key and TTL one resource hook passes to the loader. */
  datatype HookConfig = HookConfig(key: string, ttl: int)

  const AllCharacters := HookConfig("characters:all", 10 * 60 * 1000)
  const Students := HookConfig("characters:students", 10 * 60 * 1000)
  const Staff := HookConfig("characters:staff", 10 * 60 * 1000)
  const SpellsConfig := HookConfig("spells:all", 15 * 60 * 1000)
  const HousesConfig := HookConfig("houses:all", 30 * 60 * 1000)

  /** The hook for the characters of one house: the key embeds the house name as a string. */
  function CharactersByHouse(houseName: Value): (h: HookConfig)
    ensures h.key == "characters:house:" + ToStr(houseName)
    ensures StartsWith(h.key, "characters:") && h.ttl == 600000
  {
    var key := "characters:house:" + ToStr(houseName);
    assert key[..|"characters:"|] == "characters:";
    HookConfig(key, 10 * 60 * 1000)
  }

  /**
   * Every character hook caches under a `characters:` key and the spell hook
   * under a `spells:` key, so cached arrays come back rebuilt; the houses key
   * has neither prefix, so cached houses come back as they were stored.
   */
  lemma HookKeysSelectRebuild(d: Value)
    ensures StartsWith(AllCharacters.key, "characters:") && StartsWith(Students.key, "characters:")
    ensures StartsWith(Staff.key, "characters:") && StartsWith(SpellsConfig.key, "spells:")
    ensures ReconstructObjects(d, HousesConfig.key) == d
  {
    assert HousesConfig.key[0] == 'h';
    assert !StartsWith(HousesConfig.key, "characters:");
    assert !StartsWith(HousesConfig.key, "spells:");
  }

  /** How the producer settled: with a value, or by throwing an error with a name and message. */
  datatype Settled = Produced(value: Value) | Threw(name: string, message: string)

  /** What a load returns before awaiting the producer: a cache hit, or the controller it waits on. */
  datatype Started = Hit(value: Value) | Pending(controller: nat)

  /** What the load's promise settles with. */
  datatype Resolution = Returned(value: Value) | Rethrown(name: string, message: string)

  /**
   * The controllers created so far (`true`: aborted) and the one the ref
   * holds: every controller but the one in the ref has been aborted.
   */
  predicate ControllersValid(aborted: seq<bool>, current: Option<nat>)
  {
    (current.None? ==> aborted == []) &&
    (current.Some? ==> current.value == |aborted| - 1) &&
    (forall i :: 0 <= i < |aborted| - 1 ==> aborted[i])
  }

  /** `abortControllerRef.current?.abort()`. */
  function AbortCurrent(aborted: seq<bool>, current: Option<nat>): (r: seq<bool>)
    requires ControllersValid(aborted, current)
    ensures |r| == |aborted|
    ensures forall i :: 0 <= i < |r| ==> r[i]
  {
    if current.Some? then aborted[current.value := true] else aborted
  }

  /** At most one controller is live, and it is the one in the ref. */
  lemma OnlyCurrentLive(aborted: seq<bool>, current: Option<nat>, i: nat)
    requires ControllersValid(aborted, current)
    requires i < |aborted| && !aborted[i]
    ensures current == Some(i)
  {
  }

  /** Installing a new controller after aborting the current one keeps one live controller at most. */
  lemma StartKeepsOneLive(aborted: seq<bool>, current: Option<nat>)
    requires ControllersValid(aborted, current)
    ensures ControllersValid(AbortCurrent(aborted, current) + [false], Some(|aborted|))
  {
  }

  /** A load consults the cache only when it is not forced and the key is non-empty. */
  predicate LooksUp(force: bool, key: string)
  {
    !force && key != ""
  }

  /**
   * A truthy result the loader wrote back is served by the next unforced load
   * until its expiry time.
   */
  lemma WrittenBackServed(entries: map<string, Entry>, key: string, v: Value, ttl: int, now: int, t: int)
    requires Truthy(v)
    requires ttl == 0 || t <= now + ttl
    ensures Truthy(Read(entries[key := NewEntry(v, Some(ttl), now)], key, t))
  {
    SetThenRead(entries, key, v, Some(ttl), now, t);
  }

  class Loader {
    const cache: Cache
    const key: string
    const ttl: int
    var data: Value
    var loading: bool
    var error: Option<string>
    var mounted: bool
    var aborted: seq<bool>
    var current: Option<nat>

    predicate Valid()
      reads this
    {
      ControllersValid(aborted, current)
    }

    /** The hook's first render: no data, loading, no error, mounted, no controller yet. */
    constructor (cache: Cache, key: string, ttl: Option<int>)
      ensures Valid()
      ensures this.cache == cache && this.key == key
      ensures this.ttl == if ttl.Some? then ttl.value else 300000
      ensures data == Null && loading && error == None && mounted
      ensures aborted == [] && current == None
    {
      this.cache := cache;
      this.key := key;
      this.ttl := if ttl.Some? then ttl.value else DefaultTtl;
      data := Null;
      loading := true;
      error := None;
      mounted := true;
      aborted := [];
      current := None;
    }

    /**
     * `fetchData(force)` up to the await: abort the current controller,
     * install a new one, raise `loading`, clear `error`, and for an unforced
     * load with a key serve a truthy cached value without calling the producer.
     */
    method Start(force: bool, now: int, fault: PersistFault) returns (r: Started)
      requires Valid()
      modifies this, cache
      ensures Valid()
      ensures aborted == AbortCurrent(old(aborted), old(current)) + [false]
      ensures current == Some(|aborted| - 1)
      ensures mounted == old(mounted) && error == None
      ensures LooksUp(force, key) ==> cache.entries == Evict(old(cache.entries), key, now)
      ensures LooksUp(force, key) ==>
                cache.storage == if ExpiredAt(old(cache.entries), key, now)
                                 then Persisted(old(cache.storage), cache.entries, now, fault)
                                 else old(cache.storage)
      ensures !LooksUp(force, key) ==> unchanged(cache)
      ensures r.Hit? <==> LooksUp(force, key) && Truthy(Read(old(cache.entries), key, now))
      ensures r.Hit? ==> r.value == Read(old(cache.entries), key, now)
      ensures r.Hit? ==> data == (if mounted then r.value else old(data)) && loading == !mounted
      ensures r.Pending? ==> r.controller == |aborted| - 1 && data == old(data) && loading
    {
      StartKeepsOneLive(aborted, current);
      aborted := AbortCurrent(aborted, current) + [false];
      current := Some(|aborted| - 1);
      loading := true;
      error := None;
      if LooksUp(force, key) {
        var cached := cache.Get(key, now, fault);
        if Truthy(cached) {
          if mounted {
            data := cached;
            loading := false;
          }
          return Hit(cached);
        }
      }
      r := Pending(|aborted| - 1);
    }

    /**
     * `fetchData` after the producer settles. Once unmounted nothing changes;
     * an `AbortError` changes nothing; a value is written back to the cache
     * when both it and the key are truthy and becomes `data`; any other error
     * becomes `error`. The settled request need not be the current one.
     */
    method Resolve(outcome: Settled, now: int, fault: PersistFault) returns (r: Resolution)
      requires Valid()
      modifies this, cache
      ensures Valid()
      ensures mounted == old(mounted) && aborted == old(aborted) && current == old(current)
      ensures !old(mounted) || (outcome.Threw? && outcome.name == "AbortError") ==>
                data == old(data) && loading == old(loading) && error == old(error) && unchanged(cache)
      ensures old(mounted) && outcome.Produced? ==>
                data == outcome.value && !loading && error == old(error)
      ensures old(mounted) && outcome.Produced? && key != "" && Truthy(outcome.value) ==>
                cache.entries == old(cache.entries)[key := NewEntry(outcome.value, Some(ttl), now)] &&
                cache.storage == Persisted(old(cache.storage), cache.entries, now, fault)
      ensures outcome.Produced? && (key == "" || !Truthy(outcome.value)) ==> unchanged(cache)
      ensures old(mounted) && outcome.Threw? && outcome.name != "AbortError" ==>
                error == Some(if outcome.message != "" then outcome.message else "Error desconocido") &&
                !loading && data == old(data) && unchanged(cache)
      ensures outcome.Produced? ==> r == Returned(if old(mounted) then outcome.value else Null)
      ensures outcome.Threw? && outcome.name == "AbortError" ==> r == Returned(Null)
      ensures outcome.Threw? && outcome.name != "AbortError" ==> r == Rethrown(outcome.name, outcome.message)
    {
      match outcome
      case Produced(v) =>
        if !mounted {
          return Returned(Null);
        }
        if key != "" && Truthy(v) {
          cache.Set(key, v, Some(ttl), now, fault);
        }
        data := v;
        loading := false;
        r := Returned(v);
      case Threw(name, message) =>
        if name == "AbortError" {
          return Returned(Null);
        }
        if mounted {
          error := Some(if message != "" then message else "Error desconocido");
          loading := false;
        }
        r := Rethrown(name, message);
    }

    /** The effect body on mount (and on every dependency change): mark mounted and load. */
    method Activate(now: int, fault: PersistFault) returns (r: Started)
      requires Valid()
      modifies this, cache
      ensures Valid() && mounted
      ensures aborted == AbortCurrent(old(aborted), old(current)) + [false]
      ensures current == Some(|aborted| - 1) && error == None
      ensures LooksUp(false, key) ==> cache.entries == Evict(old(cache.entries), key, now)
      ensures LooksUp(false, key) ==>
                cache.storage == if ExpiredAt(old(cache.entries), key, now)
                                 then Persisted(old(cache.storage), cache.entries, now, fault)
                                 else old(cache.storage)
      ensures !LooksUp(false, key) ==> unchanged(cache)
      ensures r.Hit? <==> LooksUp(false, key) && Truthy(Read(old(cache.entries), key, now))
      ensures r.Hit? ==> r.value == Read(old(cache.entries), key, now)
      ensures r.Hit? ==> data == r.value && !loading
      ensures r.Pending? ==> r.controller == |aborted| - 1 && data == old(data) && loading
    {
      mounted := true;
      r := Start(false, now, fault);
    }

    /** The effect cleanup: mark unmounted and abort the controller in the ref. */
    method Deactivate()
      requires Valid()
      modifies this
      ensures Valid() && !mounted
      ensures aborted == AbortCurrent(old(aborted), old(current)) && current == old(current)
      ensures data == old(data) && loading == old(loading) && error == old(error)
    {
      mounted := false;
      aborted := AbortCurrent(aborted, current);
    }

    /** `refetch`: a forced load, which never reads the cache. */
    method Refetch(now: int, fault: PersistFault) returns (r: Started)
      requires Valid()
      modifies this, cache
      ensures Valid() && mounted == old(mounted) && error == None
      ensures aborted == AbortCurrent(old(aborted), old(current)) + [false]
      ensures unchanged(cache)
      ensures r.Pending? && r.controller == |aborted| - 1 && current == Some(r.controller)
      ensures data == old(data) && loading
    {
      r := Start(true, now, fault);
    }
  }
}
