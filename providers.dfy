/**
  The cache store: a key/value table with absolute-time expiry and the
  read-through primitive `GetWithRefresh`.

  The pure functions below state what one operation does to the table; the
  class `DefaultCacheProvider` is the mutable store, and each of its methods
  is proved against them. The lemmas at the end follow the table through a
  series of `GetWithRefresh` calls.
*/
module Providers {
  import opened Wrappers

  /**
    The type a cached object is tagged with: the `T` of the call that stored
    it, standing in for the object's runtime type as far as `as T` can tell.
  */
  datatype TypeTag = Named(name: string) | EnumerableOf(element: TypeTag) | GridReader

  /** An opaque reference to the data of an object (a row list, a scalar, a grid reader). */
  type Payload = nat

  /** A non-null object: its runtime type and its data. */
  datatype Obj = Obj(tag: TypeTag, payload: Payload)

  /** A table slot: the stored object and the instant (in seconds) from which it is expired. */
  datatype Entry = Entry(value: Obj, expiry: int)

  type Table = map<string, Entry>

  const SecondsPerMinute := 60

  /** The `cacheTime` that `GetWithRefresh` uses when the caller gives none, in minutes. */
  const DefaultRefreshMinutes := 360

  /** `DateTime.Now + TimeSpan.FromMinutes(cacheTime)`. */
  function Expiry(now: int, cacheTime: int): (r: int)
    // only a positive lifetime puts the expiry after now; otherwise the entry is born expired
    ensures r > now <==> cacheTime > 0
    // the lifetime is a whole number of minutes, longer for a longer cacheTime
    ensures (r - now) % SecondsPerMinute == 0
    ensures forall longer :: longer > cacheTime ==> now + longer * SecondsPerMinute > r
  {
    now + cacheTime * SecondsPerMinute
  }

  /** `Cache[key]` at instant `now`: an entry is visible strictly before its expiry. */
  function Lookup(entries: Table, now: int, key: string): (r: Option<Obj>)
    ensures r.Some? <==> key in entries && now < entries[key].expiry
    ensures r.Some? ==> r.value == entries[key].value
  {
    if key in entries && now < entries[key].expiry then Some(entries[key].value) else None
  }

  /** `Get(key) as T`: the payload of a visible entry whose type is `t`, else null. */
  function Cast(entries: Table, now: int, key: string, t: TypeTag): (r: Option<Payload>)
    // non-null exactly when a visible object of type `t` is stored; an object of another type casts to null
    ensures r.Some? <==> Lookup(entries, now, key).Some? && Lookup(entries, now, key).value.tag == t
    ensures r.Some? ==> r.value == Lookup(entries, now, key).value.payload
  {
    match Lookup(entries, now, key)
    case Some(o) => if o.tag == t then Some(o.payload) else None
    case None => None
  }

  /**
    `Cache.Add(new CacheItem(key, value), policy)`: stores `value` unless a
    visible entry already holds the key, in which case the table is kept.
  */
  function Add(entries: Table, now: int, key: string, value: Obj, expiry: int): (r: Table)
    ensures Lookup(entries, now, key).Some? ==> r == entries
    ensures Lookup(entries, now, key).None? ==>
              forall at :: Lookup(r, at, key) == if at < expiry then Some(value) else None
    ensures forall k, at :: k != key ==> Lookup(r, at, k) == Lookup(entries, at, k)
  {
    if Lookup(entries, now, key).Some? then entries else entries[key := Entry(value, expiry)]
  }

  /**
    Expiry is absolute: an entry visible at `later` was visible, with the same
    object, at every earlier instant, and one invisible at `earlier` stays so.
  */
  lemma VisibilityOnlyEnds(entries: Table, earlier: int, later: int, key: string)
    requires earlier <= later
    ensures Lookup(entries, later, key).Some? ==> Lookup(entries, earlier, key) == Lookup(entries, later, key)
    ensures Lookup(entries, earlier, key).None? ==> Lookup(entries, later, key).None?
  {
  }

  /** `Cache.Remove(key)`. */
  function Remove(entries: Table, key: string): (r: Table)
    ensures forall at :: Lookup(r, at, key).None?
    ensures forall k, at :: k != key ==> Lookup(r, at, k) == Lookup(entries, at, k)
  {
    entries - {key}
  }

  /** The result of one `GetWithRefresh` call, the table after it, and whether the producer ran. */
  datatype Step = Step(result: Result<Option<Payload>, Error>, entries: Table, produced: bool)

  /** True when the producer's outcome is a non-null value. */
  predicate IsValue(outcome: Result<Option<Payload>, Error>) {
    outcome.Success? && outcome.value.Some?
  }

  /**
    One `GetWithRefresh<T>(key, refresh, cacheTime)` call at instant `now`,
    where `refresh()` would return (or throw) `outcome`.
  */
  function Serve(entries: Table, now: int, key: string, t: TypeTag,
                 outcome: Result<Option<Payload>, Error>, cacheTime: int): (s: Step)
    // a hit returns the cached value without running the producer and leaves the table alone
    ensures Cast(entries, now, key, t).Some? ==>
              s == Step(Success(Cast(entries, now, key, t)), entries, false)
    // a miss runs the producer once and returns what it returns or throws
    ensures Cast(entries, now, key, t).None? ==> s.produced && s.result == outcome
    // a null result or an exception stores nothing
    ensures !IsValue(outcome) ==> s.entries == entries
    // a visible entry is never replaced, whatever its type
    ensures Lookup(entries, now, key).Some? ==> s.entries == entries
    // a value produced for an empty slot is visible until now + cacheTime minutes
    ensures IsValue(outcome) && Lookup(entries, now, key).None? ==>
              forall at :: Cast(s.entries, at, key, t) ==
                if at < Expiry(now, cacheTime) then outcome.value else None
    ensures forall k, at :: k != key ==> Lookup(s.entries, at, k) == Lookup(entries, at, k)
  {
    var cached := Cast(entries, now, key, t);
    if cached.Some? then
      Step(Success(cached), entries, false)
    else if IsValue(outcome) then
      Step(outcome, Add(entries, now, key, Obj(t, outcome.value.value), Expiry(now, cacheTime)), true)
    else
      Step(outcome, entries, true)
  }

  /**
    The cache store. `MemoryCache.Default` becomes the `entries` table and
    `DateTime.Now` the `now` field (in seconds); `producerCalls` counts the
    producer runs of every `GetWithRefresh` call so far.
  */
  class DefaultCacheProvider {
    var entries: Table
    var now: int
    ghost var producerCalls: nat

    constructor (clock: int)
      ensures entries == map[] && now == clock && producerCalls == 0
    {
      entries := map[];
      now := clock;
      producerCalls := 0;
    }

    /** Time passes; nothing else in the store changes. */
    method Advance(seconds: nat)
      modifies this`now
      ensures now == old(now) + seconds
    {
      now := now + seconds;
    }

    /** `Get(key)`: the visible object under `key`, or null. */
    method Get(key: string) returns (r: Option<Obj>)
      ensures r == Lookup(entries, now, key)
    {
      if key in entries && now < entries[key].expiry {
        r := Some(entries[key].value);
      } else {
        r := None;
      }
    }

    /** `GetWithRefresh<T>`: a read-through lookup that stores a non-null outcome value. */
    method GetWithRefresh(key: string, t: TypeTag, refresh: () -> Result<Option<Payload>, Error>,
                          cacheTime: int := DefaultRefreshMinutes)
      returns (r: Result<Option<Payload>, Error>)
      modifies this`entries, this`producerCalls
      ensures var s := Serve(old(entries), now, key, t, refresh(), cacheTime);
              r == s.result && entries == s.entries &&
              producerCalls == old(producerCalls) + (if s.produced then 1 else 0)
    {
      var obj := Get(key);
      var cached := if obj.Some? && obj.value.tag == t then Some(obj.value.payload) else None;
      if cached.None? {
        r := refresh();
        producerCalls := producerCalls + 1;
        if r.Success? && r.value.Some? {
          Set(key, Obj(t, r.value.value), cacheTime);
        }
      } else {
        r := Success(cached);
      }
    }

    /**
      `GetWithRefreshAsync<T>`: the same lookup with an awaited producer;
      `refreshAsync()` is the value (or exception) the awaited task completes with.
    */
    method GetWithRefreshAsync(key: string, t: TypeTag, refreshAsync: () -> Result<Option<Payload>, Error>,
                               cacheTime: int := DefaultRefreshMinutes)
      returns (r: Result<Option<Payload>, Error>)
      modifies this`entries, this`producerCalls
      ensures var s := Serve(old(entries), now, key, t, refreshAsync(), cacheTime);
              r == s.result && entries == s.entries &&
              producerCalls == old(producerCalls) + (if s.produced then 1 else 0)
    {
      var obj := Get(key);
      var cached := if obj.Some? && obj.value.tag == t then Some(obj.value.payload) else None;
      if cached.None? {
        r := refreshAsync();
        producerCalls := producerCalls + 1;
        if r.Success? && r.value.Some? {
          Set(key, Obj(t, r.value.value), cacheTime);
        }
      } else {
        r := Success(cached);
      }
    }

    /** `Set(key, data, cacheTime)`: adds `data` with absolute expiry `now + cacheTime` minutes. */
    method Set(key: string, data: Obj, cacheTime: int)
      modifies this`entries
      ensures entries == Add(old(entries), now, key, data, Expiry(now, cacheTime))
    {
      if !(key in entries && now < entries[key].expiry) {
        entries := entries[key := Entry(data, now + cacheTime * SecondsPerMinute)];
      }
    }

    /** `IsSet(key)`: whether `Get(key)` would return a non-null object. */
    method IsSet(key: string) returns (b: bool)
      ensures b <==> Lookup(entries, now, key).Some?
    {
      b := key in entries && now < entries[key].expiry;
    }

    /** `Invalidate(key)`: drops the entry under `key`. */
    method Invalidate(key: string)
      modifies this`entries
      ensures entries == Remove(old(entries), key)
    {
      entries := entries - {key};
    }
  }

  /**
    The number of producer runs over successive `GetWithRefresh<T>(key, …)`
    calls made at the instants `times`, each producer returning `outcome`.
  */
  function Replay(entries: Table, times: seq<int>, key: string, t: TypeTag,
                  outcome: Result<Option<Payload>, Error>, cacheTime: int): (calls: nat)
    // at most one run per call, and a first call that misses always runs the producer
    ensures calls <= |times|
    ensures |times| > 0 && Cast(entries, times[0], key, t).None? ==> calls >= 1
    decreases |times|
  {
    if times == [] then 0
    else
      var s := Serve(entries, times[0], key, t, outcome, cacheTime);
      (if s.produced then 1 else 0) + Replay(s.entries, times[1..], key, t, outcome, cacheTime)
  }

  /** While a value of type `t` stays visible, no call runs the producer. */
  lemma {:induction false} LiveEntryServesAll(entries: Table, times: seq<int>, key: string, t: TypeTag,
                                              outcome: Result<Option<Payload>, Error>, cacheTime: int)
    requires forall i :: 0 <= i < |times| ==> Cast(entries, times[i], key, t).Some?
    ensures Replay(entries, times, key, t, outcome, cacheTime) == 0
  {
    if times != [] {
      assert Cast(entries, times[0], key, t).Some?;
      forall i | 0 <= i < |times[1..]| ensures Cast(entries, times[1..][i], key, t).Some? {
        assert times[1..][i] == times[i + 1];
      }
      LiveEntryServesAll(entries, times[1..], key, t, outcome, cacheTime);
    }
  }

  /**
    Read-through: when the key is empty at the first call and the producer
    yields a value, the producer runs once over any number of calls made
    before that value expires.
  */
  lemma {:induction false} FirstCallPopulates(entries: Table, times: seq<int>, key: string, t: TypeTag,
                                              outcome: Result<Option<Payload>, Error>, cacheTime: int)
    requires |times| > 0 && IsValue(outcome)
    requires Lookup(entries, times[0], key).None?
    requires forall i :: 0 <= i < |times| ==> times[i] < Expiry(times[0], cacheTime)
    ensures Replay(entries, times, key, t, outcome, cacheTime) == 1
  {
    var s := Serve(entries, times[0], key, t, outcome, cacheTime);
    assert s.produced;
    forall i | 0 <= i < |times[1..]| ensures Cast(s.entries, times[1..][i], key, t).Some? {
      assert times[1..][i] == times[i + 1];
    }
    LiveEntryServesAll(s.entries, times[1..], key, t, outcome, cacheTime);
  }

  /**
    No caching of null or of failures: when the producer returns null or
    throws and no value of type `t` is visible, every call runs it again.
  */
  lemma {:induction false} NullIsNeverCached(entries: Table, times: seq<int>, key: string, t: TypeTag,
                                             outcome: Result<Option<Payload>, Error>, cacheTime: int)
    requires !IsValue(outcome)
    requires forall i :: 0 <= i < |times| ==> Cast(entries, times[i], key, t).None?
    ensures Replay(entries, times, key, t, outcome, cacheTime) == |times|
  {
    if times != [] {
      assert Cast(entries, times[0], key, t).None?;
      forall i | 0 <= i < |times[1..]| ensures Cast(entries, times[1..][i], key, t).None? {
        assert times[1..][i] == times[i + 1];
      }
      NullIsNeverCached(entries, times[1..], key, t, outcome, cacheTime);
    }
  }

  /**
    Add does not overwrite: while an object of another type stays visible
    under the key, every call runs the producer and its value is never cached.
  */
  lemma {:induction false} ForeignEntryIsNeverReplaced(entries: Table, times: seq<int>, key: string, t: TypeTag,
                                                       outcome: Result<Option<Payload>, Error>, cacheTime: int)
    requires key in entries && entries[key].value.tag != t
    requires forall i :: 0 <= i < |times| ==> times[i] < entries[key].expiry
    ensures Replay(entries, times, key, t, outcome, cacheTime) == |times|
  {
    if times != [] {
      var s := Serve(entries, times[0], key, t, outcome, cacheTime);
      assert Lookup(entries, times[0], key).Some?;
      assert s.entries == entries && s.produced;
      forall i | 0 <= i < |times[1..]| ensures times[1..][i] < entries[key].expiry {
        assert times[1..][i] == times[i + 1];
      }
      ForeignEntryIsNeverReplaced(entries, times[1..], key, t, outcome, cacheTime);
    }
  }

  /**
    A key cached for one minute: calls at 0 s and 30 s share one backend run,
    and a call at 61 s finds the entry expired and runs the producer again.
  */
  lemma ExpiryForcesRefresh(t: TypeTag, p: Payload)
    ensures Replay(map[], [0, 30, 61], "users:active", t, Success(Some(p)), 1) == 2
  {
    var s0 := Serve(map[], 0, "users:active", t, Success(Some(p)), 1);
    var s1 := Serve(s0.entries, 30, "users:active", t, Success(Some(p)), 1);
    assert !s1.produced;
    var s2 := Serve(s1.entries, 61, "users:active", t, Success(Some(p)), 1);
    assert s2.produced;
  }
}
