/**
 * The application-wide cache: an in-memory map from keys to entries with an
 * optional expiry time, written through to a versioned snapshot in the
 * browser's durable storage. The clock is an explicit `now` argument and the
 * outcome of each storage write is an explicit `PersistFault` argument.
 */
module CacheStore {
  import opened Wrappers
  import opened Js
  import opened Text
  import Characters
  import Spells

  /** The storage key the snapshot lives under. */
  const StorageKey := "hp-app-cache"
  /** The snapshot version this cache writes and accepts. */
  const StorageVersion := "1.0"
  /** The period of the background sweep, in milliseconds. */
  const SweepInterval := 5 * 60 * 1000

  /** A cached value, its absolute expiry time (`null`: never) and its creation time. */
  datatype Entry = Entry(data: Value, expires: Option<int>, timestamp: int)

  /** The durable form of the whole cache. */
  datatype Snapshot = Snapshot(version: string, timestamp: int, data: map<string, Entry>)

  /**
   * What the storage slot holds: nothing, the empty string, text that does
   * not parse as a snapshot, or a parsed snapshot.
   */
  datatype Stored = Absent | Blank | Corrupt | Saved(snapshot: Snapshot)

  /** How a write of the snapshot ended. */
  datatype PersistFault = NoFault | QuotaExceeded | OtherFailure

  predicate NoNullish(items: seq<Value>)
  {
    forall i :: 0 <= i < |items| ==> !Nullish(items[i])
  }

  /** `items.map(item => new Character(item))`, as records. */
  function RebuildCharacters(items: seq<Value>): (r: seq<Value>)
    requires NoNullish(items)
    ensures |r| == |items|
    ensures forall i :: 0 <= i < |items| ==> r[i] == Characters.Record(Characters.New(items[i]))
  {
    seq(|items|, i requires 0 <= i < |items| => Characters.Record(Characters.New(items[i])))
  }

  /** `items.map(item => new Spell(item))`, as records. */
  function RebuildSpells(items: seq<Value>): (r: seq<Value>)
    requires NoNullish(items)
    ensures |r| == |items|
    ensures forall i :: 0 <= i < |items| ==> r[i] == Spells.Record(Spells.New(items[i]))
  {
    seq(|items|, i requires 0 <= i < |items| => Spells.Record(Spells.New(items[i])))
  }

  /**
   * `reconstructObjects`: arrays cached under a `characters:` or `spells:`
   * key are rebuilt item by item through the entity constructor. A nullish
   * item makes the constructor throw, and the caught error returns the data
   * as it was.
   */
  function ReconstructObjects(data: Value, key: string): (r: Value)
    ensures !data.Arr? ==> r == data
    ensures data.Arr? ==> r.Arr? && |r.items| == |data.items|
    ensures data.Arr? && !NoNullish(data.items) ==> r == data
    ensures !StartsWith(key, "characters:") && !StartsWith(key, "spells:") ==> r == data
    ensures data.Arr? && NoNullish(data.items) && StartsWith(key, "characters:") ==>
              forall i :: 0 <= i < |r.items| ==>
                r.items[i] == Characters.Record(Characters.New(data.items[i]))
    ensures data.Arr? && NoNullish(data.items) && !StartsWith(key, "characters:") && StartsWith(key, "spells:") ==>
              forall i :: 0 <= i < |r.items| ==>
                r.items[i] == Spells.Record(Spells.New(data.items[i]))
  {
    if !data.Arr? then data
    else if StartsWith(key, "characters:") then
      if NoNullish(data.items) then Arr(RebuildCharacters(data.items)) else data
    else if StartsWith(key, "spells:") then
      if NoNullish(data.items) then Arr(RebuildSpells(data.items)) else data
    else data
  }

  /** Rebuilding what was already rebuilt changes nothing. */
  lemma ReconstructIdempotent(data: Value, key: string)
    ensures ReconstructObjects(ReconstructObjects(data, key), key) == ReconstructObjects(data, key)
  {
    var r := ReconstructObjects(data, key);
    if data.Arr? && r != data {
      var items := data.items;
      if StartsWith(key, "characters:") {
        assert r.items == RebuildCharacters(items);
        forall i | 0 <= i < |r.items|
          ensures !Nullish(r.items[i])
          ensures Characters.Record(Characters.New(r.items[i])) == r.items[i]
        {
          Characters.RecordRoundTrip(Characters.New(items[i]));
        }
        assert RebuildCharacters(r.items) == r.items;
      } else {
        assert r.items == RebuildSpells(items);
        forall i | 0 <= i < |r.items|
          ensures !Nullish(r.items[i])
          ensures Spells.Record(Spells.New(r.items[i])) == r.items[i]
        {
          Spells.RecordRoundTrip(Spells.New(items[i]));
        }
        assert RebuildSpells(r.items) == r.items;
      }
    }
  }

  /** `entry.expires && entry.expires < now`: a zero or missing expiry never expires. */
  predicate Expired(e: Entry, now: int)
  {
    e.expires.Some? && e.expires.value != 0 && e.expires.value < now
  }

  /** A falsy TTL (`null`, `undefined` or 0) means no expiry. */
  predicate TtlTruthy(ttl: Option<int>)
  {
    ttl.Some? && ttl.value != 0
  }

  /** The entry `set` writes at time `now`. */
  function NewEntry(data: Value, ttl: Option<int>, now: int): (e: Entry)
    ensures e.data == data && e.timestamp == now
    ensures forall t :: Expired(e, t) <==> TtlTruthy(ttl) && now + ttl.value != 0 && now + ttl.value < t
  {
    Entry(data, if TtlTruthy(ttl) then Some(now + ttl.value) else None, now)
  }

  predicate ExpiredAt(entries: map<string, Entry>, key: string, now: int)
  {
    key in entries && Expired(entries[key], now)
  }

  /** What `get(key)` returns at time `now`. */
  function Read(entries: map<string, Entry>, key: string, now: int): (r: Value)
    ensures key !in entries || Expired(entries[key], now) ==> r == Null
    ensures key in entries && !Expired(entries[key], now) ==>
              r == ReconstructObjects(entries[key].data, key)
  {
    if key !in entries || Expired(entries[key], now) then Null
    else ReconstructObjects(entries[key].data, key)
  }

  /** The map after `get(key)`: an expired entry for the key is dropped. */
  function Evict(entries: map<string, Entry>, key: string, now: int): (r: map<string, Entry>)
    ensures ExpiredAt(entries, key, now) ==> r == entries - {key}
    ensures !ExpiredAt(entries, key, now) ==> r == entries
  {
    if ExpiredAt(entries, key, now) then entries - {key} else entries
  }

  /** The map after a sweep at time `now`: exactly the entries that have not expired. */
  function Unexpired(entries: map<string, Entry>, now: int): (r: map<string, Entry>)
    ensures forall k :: k in r <==> k in entries && !Expired(entries[k], now)
    ensures forall k :: k in r ==> r[k] == entries[k]
  {
    map k | k in entries && !Expired(entries[k], now) :: entries[k]
  }

  predicate AnyExpired(entries: map<string, Entry>, now: int)
  {
    exists k :: k in entries && Expired(entries[k], now)
  }

  /**
   * `persistCache`: a successful write stores the whole map under the current
   * version; a quota error erases the slot; any other failure leaves it.
   */
  function Persisted(storage: Stored, entries: map<string, Entry>, now: int, fault: PersistFault): (r: Stored)
    ensures fault.NoFault? ==> r == Saved(Snapshot(StorageVersion, now, entries))
    ensures fault.QuotaExceeded? ==> r == Absent
    ensures fault.OtherFailure? ==> r == storage
  {
    match fault
    case NoFault => Saved(Snapshot(StorageVersion, now, entries))
    case QuotaExceeded => Absent
    case OtherFailure => storage
  }

  /** The map the cache starts with: the stored entries only for a snapshot of the current version. */
  function Hydrate(stored: Stored): (r: map<string, Entry>)
    ensures r != map[] ==> stored.Saved? && stored.snapshot.version == StorageVersion
  {
    if stored.Saved? && stored.snapshot.version == StorageVersion then stored.snapshot.data else map[]
  }

  /** The slot after start-up: an unparseable or outdated snapshot is erased. */
  function AfterLoad(stored: Stored): (r: Stored)
    ensures r == stored || r == Absent
    ensures stored.Corrupt? ==> r == Absent
    ensures stored.Absent? || stored.Blank? ==> r == stored
    ensures stored.Saved? ==> (r == stored <==> stored.snapshot.version == StorageVersion)
  {
    match stored
    case Saved(snap) => if snap.version == StorageVersion then stored else Absent
    case Corrupt => Absent
    case _ => stored
  }

  /** A snapshot is kept at start-up exactly when its version is the current one. */
  lemma LoadKeepsOnlyCurrentVersion(snap: Snapshot)
    requires snap.data != map[]
    ensures Hydrate(Saved(snap)) == snap.data <==> snap.version == StorageVersion
  {
  }

  /** Write-through then reload: a successful write is read back as the same map. */
  lemma PersistThenLoad(storage: Stored, entries: map<string, Entry>, now: int)
    ensures Hydrate(Persisted(storage, entries, now, NoFault)) == entries
    ensures AfterLoad(Persisted(storage, entries, now, NoFault)) == Persisted(storage, entries, now, NoFault)
  {
  }

  /** Until its expiry time (inclusive), a value that was set is read back. */
  lemma SetThenRead(entries: map<string, Entry>, key: string, data: Value, ttl: Option<int>, now: int, t: int)
    requires !TtlTruthy(ttl) || t <= now + ttl.value
    ensures Read(entries[key := NewEntry(data, ttl, now)], key, t) == ReconstructObjects(data, key)
  {
  }

  /** After its expiry time a value that was set with a TTL reads as `null`. */
  lemma SetThenExpire(entries: map<string, Entry>, key: string, data: Value, ttl: int, now: int, t: int)
    requires ttl != 0 && now + ttl != 0 && now + ttl < t
    ensures Read(entries[key := NewEntry(data, Some(ttl), now)], key, t) == Null
  {
  }

  /** Setting one key does not change what the others read. */
  lemma SetKeepsOthers(entries: map<string, Entry>, key: string, other: string, data: Value,
                       ttl: Option<int>, now: int, t: int)
    requires other != key
    ensures Read(entries[key := NewEntry(data, ttl, now)], other, t) == Read(entries, other, t)
  {
  }

  /** Removing one key makes it read `null` and does not change what the others read. */
  lemma RemoveKeepsOthers(entries: map<string, Entry>, key: string, other: string, t: int)
    ensures Read(entries - {key}, key, t) == Null
    ensures other != key ==> Read(entries - {key}, other, t) == Read(entries, other, t)
  {
  }

  /** A sweep at time `now` changes nothing that `get` returns at that time. */
  lemma SweepKeepsReads(entries: map<string, Entry>, key: string, now: int)
    ensures Read(Unexpired(entries, now), key, now) == Read(entries, key, now)
  {
  }

  /** A sweep that finds nothing expired leaves the map as it was. */
  lemma SweepWithoutExpiredIsIdentity(entries: map<string, Entry>, now: int)
    requires !AnyExpired(entries, now)
    ensures Unexpired(entries, now) == entries
  {
  }

  class Cache {
    var entries: map<string, Entry>
    var storage: Stored

    /**
     * The start-up load: hydrate from a snapshot of the current version;
     * otherwise start empty, erasing an outdated or unparseable snapshot.
     */
    constructor Load(stored: Stored)
      ensures entries == Hydrate(stored) && storage == AfterLoad(stored)
    {
      match stored
      case Saved(snap) =>
        if snap.version == StorageVersion {
          entries, storage := snap.data, stored;
        } else {
          entries, storage := map[], Absent;
        }
      case Corrupt =>
        entries, storage := map[], Absent;
      case _ =>
        entries, storage := map[], stored;
    }

    /** `persistCache` of the current map. */
    method Persist(now: int, fault: PersistFault)
      modifies this`storage
      ensures storage == Persisted(old(storage), entries, now, fault)
    {
      match fault
      case NoFault =>
        storage := Saved(Snapshot(StorageVersion, now, entries));
      case QuotaExceeded =>
        storage := Absent;
      case OtherFailure =>
    }

    /** `get`: the live value, rebuilt for its key; an expired entry is deleted and the map persisted. */
    method Get(key: string, now: int, fault: PersistFault) returns (v: Value)
      modifies this
      ensures v == Read(old(entries), key, now)
      ensures entries == Evict(old(entries), key, now)
      ensures storage == if ExpiredAt(old(entries), key, now)
                         then Persisted(old(storage), entries, now, fault) else old(storage)
    {
      if key !in entries {
        return Null;
      }
      var entry := entries[key];
      if Expired(entry, now) {
        entries := entries - {key};
        Persist(now, fault);
        return Null;
      }
      v := ReconstructObjects(entry.data, key);
    }

    /** `set`: replace the key's entry and persist the map. */
    method Set(key: string, data: Value, ttl: Option<int>, now: int, fault: PersistFault)
      modifies this
      ensures entries == old(entries)[key := NewEntry(data, ttl, now)]
      ensures storage == Persisted(old(storage), entries, now, fault)
    {
      var expires := if TtlTruthy(ttl) then Some(now + ttl.value) else None;
      entries := entries[key := Entry(data, expires, now)];
      Persist(now, fault);
    }

    /** `remove`: delete the key and persist the map. */
    method Remove(key: string, now: int, fault: PersistFault)
      modifies this
      ensures entries == old(entries) - {key}
      ensures storage == Persisted(old(storage), entries, now, fault)
    {
      entries := entries - {key};
      Persist(now, fault);
    }

    /** `clear`: empty the map and erase the storage slot. */
    method Clear()
      modifies this
      ensures entries == map[] && storage == Absent
    {
      entries := map[];
      storage := Absent;
    }

    /** `has`: whether `get` returns something other than `null`, with the same effect as `get`. */
    method Has(key: string, now: int, fault: PersistFault) returns (present: bool)
      modifies this
      ensures present <==> Read(old(entries), key, now) != Null
      ensures entries == Evict(old(entries), key, now)
      ensures storage == if ExpiredAt(old(entries), key, now)
                         then Persisted(old(storage), entries, now, fault) else old(storage)
    {
      var v := Get(key, now, fault);
      present := v != Null;
    }

    /** `size`: the number of entries, expired ones not yet removed included. */
    function Size(): (n: nat)
      reads this
      ensures n == 0 <==> entries == map[]
    {
      |entries|
    }

    /**
     * The body of the periodic sweep: delete every expired entry, and persist
     * only when something was deleted.
     */
    method Sweep(now: int, fault: PersistFault)
      modifies this
      ensures entries == Unexpired(old(entries), now)
      ensures storage == if AnyExpired(old(entries), now)
                         then Persisted(old(storage), entries, now, fault) else old(storage)
    {
      var next := entries;
      var pending := entries.Keys;
      var hasChanges := false;
      while pending != {}
        invariant entries == old(entries) && storage == old(storage)
        invariant pending <= entries.Keys
        invariant forall k :: k in next ==> k in entries && next[k] == entries[k]
        invariant forall k :: k in entries ==> (k in next <==> k in pending || !Expired(entries[k], now))
        invariant hasChanges <==> exists k :: k in entries && k !in pending && Expired(entries[k], now)
        decreases pending
      {
        var k :| k in pending;
        if Expired(entries[k], now) {
          next := next - {k};
          hasChanges := true;
        }
        pending := pending - {k};
      }
      assert next == Unexpired(entries, now);
      if hasChanges {
        entries := next;
        Persist(now, fault);
      } else {
        assert !AnyExpired(entries, now);
        SweepWithoutExpiredIsIdentity(entries, now);
      }
    }
  }
}
