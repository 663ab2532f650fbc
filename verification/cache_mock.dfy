/**
 * The in-memory stand-in for the response cache used by the tests
 * (`MockCacheService`). It keeps two key-value tables, `storage` for
 * `get` and `staleStorage` for `getStale`, records how it was called, and
 * has two switches that simulate a miss and a stale hit.
 */
module CacheMock {
  import opened Wrappers

  /** A table's answer for one key. */
  function Lookup<K, V>(table: map<K, V>, key: K): (r: Option<V>)
    ensures r.Some? <==> key in table
    ensures r.Some? ==> table[key] == r.value
  {
    if key in table then Some(table[key]) else None
  }

  /** The mock's tracking properties: which calls were made, with which keys, how often. */
  datatype CallRecords<K> = CallRecords(
    getCalled: bool,
    getStaleCalled: bool,
    setCalled: bool,
    invalidateCalled: bool,
    invalidateAllCalled: bool,
    lastGetKey: Option<K>,
    lastSetKey: Option<K>,
    lastInvalidateKey: Option<K>,
    getCallCount: nat,
    setCallCount: nat)
  {
    /** A flag is set exactly when its counter is non-zero or its "last key" is present. */
    predicate Consistent() {
      && (getCalled <==> getCallCount > 0)
      && (setCalled <==> setCallCount > 0)
      && (lastSetKey.Some? <==> setCalled)
      && (lastInvalidateKey.Some? <==> invalidateCalled)
      && (lastGetKey.Some? <==> getCalled || getStaleCalled)
    }
  }

  /** The records of a mock that has not been called. */
  function NoCalls<K>(): CallRecords<K>
  {
    CallRecords(false, false, false, false, false, None, None, None, 0, 0)
  }

  class MockCacheService<K(==), V> {
    var calls: CallRecords<K>
    var storage: map<K, V>
    var staleStorage: map<K, V>

    /** When set, `get` misses whatever `storage` holds. */
    var shouldReturnNil: bool
    /** When set, `getStale` answers from `staleStorage` instead of `storage`. */
    var shouldReturnStale: bool

    ghost predicate Valid()
      reads this
    {
      calls.Consistent()
    }

    /** The state of a new mock, and the state `reset()` returns to. */
    ghost predicate IsInitial()
      reads this
    {
      && calls == NoCalls()
      && !shouldReturnNil && !shouldReturnStale
      && storage == map[] && staleStorage == map[]
    }

    constructor ()
      ensures Valid() && IsInitial()
    {
      calls := NoCalls();
      storage := map[];
      staleStorage := map[];
      shouldReturnNil := false;
      shouldReturnStale := false;
    }

    /** A normal read: the stored value, unless a miss is being simulated. */
    method Get(key: K) returns (r: Option<V>)
      modifies this`calls
      ensures r == if shouldReturnNil then None else Lookup(storage, key)
      ensures calls == old(calls).(getCalled := true, lastGetKey := Some(key), getCallCount := old(calls.getCallCount) + 1)
      ensures old(Valid()) ==> Valid()
    {
      calls := calls.(getCalled := true, lastGetKey := Some(key), getCallCount := calls.getCallCount + 1);
      if shouldReturnNil {
        return None;
      }
      r := Lookup(storage, key);
    }

    /** A fallback read: from `staleStorage` when a stale hit is simulated, else from `storage`. */
    method GetStale(key: K) returns (r: Option<V>)
      modifies this`calls
      ensures r == if shouldReturnStale then Lookup(staleStorage, key) else Lookup(storage, key)
      ensures calls == old(calls).(getStaleCalled := true, lastGetKey := Some(key))
      ensures old(Valid()) ==> Valid()
    {
      calls := calls.(getStaleCalled := true, lastGetKey := Some(key));
      if shouldReturnStale {
        return Lookup(staleStorage, key);
      }
      r := Lookup(storage, key);
    }

    /** Stores `value` under `key`; every other key and the stale table stay as they were. */
    method Set(value: V, key: K)
      modifies this`calls, this`storage
      ensures storage == old(storage)[key := value]
      ensures Lookup(storage, key) == Some(value)
      ensures forall k :: k != key ==> Lookup(storage, k) == Lookup(old(storage), k)
      ensures calls == old(calls).(setCalled := true, lastSetKey := Some(key), setCallCount := old(calls.setCallCount) + 1)
      ensures old(Valid()) ==> Valid()
    {
      calls := calls.(setCalled := true, lastSetKey := Some(key), setCallCount := calls.setCallCount + 1);
      storage := storage[key := value];
    }

    /** Removes `key` from both tables; every other key stays as it was. */
    method Invalidate(key: K)
      modifies this`calls, this`storage, this`staleStorage
      ensures storage == old(storage) - {key} && staleStorage == old(staleStorage) - {key}
      ensures Lookup(storage, key) == None && Lookup(staleStorage, key) == None
      ensures forall k :: k != key ==> Lookup(storage, k) == Lookup(old(storage), k)
      ensures forall k :: k != key ==> Lookup(staleStorage, k) == Lookup(old(staleStorage), k)
      ensures calls == old(calls).(invalidateCalled := true, lastInvalidateKey := Some(key))
      ensures old(Valid()) ==> Valid()
    {
      calls := calls.(invalidateCalled := true, lastInvalidateKey := Some(key));
      storage := storage - {key};
      staleStorage := staleStorage - {key};
    }

    /** Empties both tables. */
    method InvalidateAll()
      modifies this`calls, this`storage, this`staleStorage
      ensures storage == map[] && staleStorage == map[]
      ensures forall k :: Lookup(storage, k) == None && Lookup(staleStorage, k) == None
      ensures calls == old(calls).(invalidateAllCalled := true)
      ensures old(Valid()) ==> Valid()
    {
      calls := calls.(invalidateAllCalled := true);
      storage := map[];
      staleStorage := map[];
    }

    /** Test set-up: puts `data` in `storage` without recording a call. */
    method PreloadData(data: V, key: K)
      modifies this`storage
      ensures old(Valid()) ==> Valid()
      ensures storage == old(storage)[key := data]
    {
      storage := storage[key := data];
    }

    /** Test set-up: puts `data` in `staleStorage` without recording a call. */
    method PreloadStaleData(data: V, key: K)
      modifies this`staleStorage
      ensures old(Valid()) ==> Valid()
      ensures staleStorage == old(staleStorage)[key := data]
    {
      staleStorage := staleStorage[key := data];
    }

    /** Clears every call record, both switches and both tables. */
    method Reset()
      modifies this
      ensures Valid() && IsInitial()
    {
      calls := NoCalls();
      shouldReturnNil := false;
      shouldReturnStale := false;
      storage := map[];
      staleStorage := map[];
    }
  }

  /** A value just stored is read back, unless a miss is being simulated. */
  method SetThenGet<K(==), V>(cache: MockCacheService<K, V>, value: V, key: K) returns (r: Option<V>)
    modifies cache
    ensures r == if cache.shouldReturnNil then None else Some(value)
  {
    cache.Set(value, key);
    r := cache.Get(key);
  }

  /** Invalidating one key leaves another key's value readable. */
  method InvalidateOneKeepsOther<K(==), V>(cache: MockCacheService<K, V>, k1: K, a: V, k2: K, b: V)
    returns (r1: Option<V>, r2: Option<V>)
    requires k1 != k2 && !cache.shouldReturnNil
    modifies cache
    ensures r1 == None && r2 == Some(b)
  {
    cache.Set(a, k1);
    cache.Set(b, k2);
    cache.Invalidate(k1);
    r1 := cache.Get(k1);
    r2 := cache.Get(k2);
  }

  /** After invalidating everything, both reads miss on every key. */
  method InvalidateAllThenGet<K(==), V>(cache: MockCacheService<K, V>, key: K)
    returns (normal: Option<V>, stale: Option<V>)
    modifies cache
    ensures normal == None && stale == None
  {
    cache.InvalidateAll();
    normal := cache.Get(key);
    stale := cache.GetStale(key);
  }
}
