/** Record storage: the in-memory table and the caching decorator (`src/storage.rs`). */
module Storage {
  import opened Wrappers
  import opened Errors
  import opened Records
  import Json

  /** The error `update` reports for an id the table does not hold: a not-found error naming the id. */
  function NotFoundError(id: Uuid): (e: Error)
    ensures e.NotFound? && Code(e) == "NOT_FOUND" && !IsRetryable(e)
    ensures |e.msg| == 61 && e.msg[15..51] == UuidText(id)
  {
    var e := NotFound("Record with ID " + UuidText(id) + " not found");
    assert e.msg[15..51] == UuidText(id);
    e
  }

  /** The not-found message identifies the record: distinct ids give distinct errors. */
  lemma NotFoundNamesRecord(a: Uuid, b: Uuid)
    ensures NotFoundError(a) == NotFoundError(b) ==> a == b
  {
    UuidTextInjective(a, b);
  }

  /** `InMemoryStorage`: a table from id to record. */
  class InMemoryStorage {
    var records: map<Uuid, Record>

    constructor ()
      ensures records == map[]
    {
      records := map[];
    }

    /** `store`: an upsert that never fails; an existing entry is overwritten. */
    method Store(r: Record) returns (o: Outcome<Error>)
      modifies this
      ensures records == old(records)[r.id := r]
      ensures o == Pass
    {
      records := records[r.id := r];
      o := Pass;
    }

    /** `get`: a copy of the stored record, if the id is present. */
    method Get(id: Uuid) returns (r: Option<Record>)
      ensures r.Some? <==> id in records
      ensures r.Some? ==> r.value == records[id]
    {
      if id in records {
        r := Some(records[id]);
      } else {
        r := None;
      }
    }

    /** `update`: replaces a present entry; an absent id is NotFound and changes nothing. */
    method Update(r: Record) returns (o: Outcome<Error>)
      modifies this
      ensures o.Pass? <==> r.id in old(records)
      ensures o.Pass? ==> records == old(records)[r.id := r]
      ensures o.Fail? ==> records == old(records) && o.error == NotFoundError(r.id)
    {
      if r.id in records {
        records := records[r.id := r];
        o := Pass;
      } else {
        o := Fail(NotFoundError(r.id));
      }
    }

    /** `delete`: reports whether the id was present; it is absent afterwards. */
    method Delete(id: Uuid) returns (removed: bool)
      modifies this
      ensures removed <==> id in old(records)
      ensures records == old(records) - {id}
    {
      removed := id in records;
      records := records - {id};
    }

    /** `list`: every stored id exactly once, in no particular order. */
    method List() returns (ids: seq<Uuid>)
      ensures forall i, j :: 0 <= i < j < |ids| ==> ids[i] != ids[j]
      ensures forall id :: id in ids <==> id in records
      ensures |ids| == |records|
    {
      ids := [];
      var rest := records.Keys;
      while rest != {}
        invariant rest <= records.Keys
        invariant forall id :: id in ids <==> id in records && id !in rest
        invariant forall i, j :: 0 <= i < j < |ids| ==> ids[i] != ids[j]
        invariant |ids| + |rest| == |records.Keys|
        decreases rest
      {
        var id :| id in rest;
        ids := ids + [id];
        rest := rest - {id};
      }
      assert records.Keys == set id: Uuid | id in ids;
      DistinctCardinality(ids);
    }

    /** `count`: the number of stored ids. */
    method Count() returns (n: nat)
      ensures n == |records.Keys|
    {
      n := |records|;
    }

    /** `clear`: the table is empty. */
    method Clear()
      modifies this
      ensures records == map[]
    {
      records := map[];
    }
  }

  /** A sequence without repetitions has as many elements as the set of its elements. */
  lemma {:induction false} DistinctCardinality(ids: seq<Uuid>)
    requires forall i, j :: 0 <= i < j < |ids| ==> ids[i] != ids[j]
    ensures |set id: Uuid | id in ids| == |ids|
  {
    if ids != [] {
      var last := ids[|ids| - 1];
      var front := ids[..|ids| - 1];
      DistinctCardinality(front);
      assert ids == front + [last];
      var before := set id: Uuid | id in front;
      assert (set id: Uuid | id in ids) == before + {last};
      assert last !in front by {
        forall i | 0 <= i < |front| ensures front[i] != last {
          assert front[i] == ids[i];
        }
      }
      assert last !in before;
      assert |before + {last}| == |before| + 1;
    }
  }

  /**
   * `CachedStorage`: a write-through cache of at most `cacheSize` entries in front of an
   * in-memory backend. `backendCalls` counts the calls it makes to the backend.
   */
  class CachedStorage {
    const inner: InMemoryStorage
    const cacheSize: nat
    var cache: map<Uuid, Record>
    ghost var backendCalls: nat

    /** The most entries the cache can hold: a cache of size zero still admits the entry just inserted. */
    function Capacity(): nat {
      if cacheSize == 0 then 1 else cacheSize
    }

    /** The capacity bound the cache promises. */
    ghost predicate Bounded()
      reads this
    {
      |cache| <= Capacity()
    }

    /**
     * What `evict_if_needed` may do: when the cache holds `cacheSize` entries or more, drop
     * one of them (which one is unspecified); otherwise nothing.
     */
    ghost predicate EvictionStep(before: map<Uuid, Record>, after: map<Uuid, Record>) {
      if |before| >= cacheSize && before != map[] then
        exists k :: k in before && after == before - {k}
      else
        after == before
    }

    constructor (inner: InMemoryStorage, cacheSize: nat)
      ensures this.inner == inner && this.cacheSize == cacheSize
      ensures cache == map[] && backendCalls == 0 && Bounded()
    {
      this.inner := inner;
      this.cacheSize := cacheSize;
      cache := map[];
      backendCalls := 0;
    }

    /** `evict_if_needed`: frees room for one insertion; the backend is not involved. */
    method EvictIfNeeded()
      modifies this`cache
      ensures EvictionStep(old(cache), cache)
      ensures old(Bounded()) ==> |cache| < Capacity()
    {
      if |cache| >= cacheSize && cache != map[] {
        var k :| k in cache;
        cache := cache - {k};
        assert cache.Keys == old(cache).Keys - {k};
      }
    }

    /**
     * `store`: evicts if full, caches the record, then always writes through; the result
     * is the backend's. The record stays cached whatever the backend answers.
     */
    method Store(r: Record) returns (o: Outcome<Error>)
      modifies this, inner
      ensures exists evicted :: EvictionStep(old(cache), evicted) && cache == evicted[r.id := r]
      ensures inner.records == old(inner.records)[r.id := r] && o == Pass
      ensures backendCalls == old(backendCalls) + 1
      ensures old(Bounded()) ==> Bounded()
    {
      EvictIfNeeded();
      ghost var evicted := cache;
      cache := cache[r.id := r];
      backendCalls := backendCalls + 1;
      o := inner.Store(r);
      assert EvictionStep(old(cache), evicted);
    }

    /**
     * `get`: a cache hit is answered from the cache without calling the backend; on a miss
     * the backend's answer is returned, and cached (after eviction) only when it is a record.
     */
    method Get(id: Uuid) returns (r: Option<Record>)
      modifies this
      ensures old(id in cache) ==> r == Some(old(cache)[id]) && cache == old(cache)
      ensures old(id in cache) ==> backendCalls == old(backendCalls)
      ensures old(id !in cache) ==> backendCalls == old(backendCalls) + 1
      ensures old(id !in cache) ==> (r.Some? <==> id in inner.records) && (r.Some? ==> r.value == inner.records[id])
      ensures old(id !in cache) && r.Some? ==>
        exists evicted :: EvictionStep(old(cache), evicted) && cache == evicted[id := r.value]
      ensures old(id !in cache) && r.None? ==> cache == old(cache)
      ensures old(Bounded()) ==> Bounded()
    {
      if id in cache {
        return Some(cache[id]);
      }
      backendCalls := backendCalls + 1;
      r := inner.Get(id);
      if r.Some? {
        EvictIfNeeded();
        ghost var evicted := cache;
        cache := cache[id := r.value];
        assert EvictionStep(old(cache), evicted);
      }
    }

    /**
     * `update` as written: the cache entry is upserted WITHOUT eviction, then the backend's
     * update decides the result (NotFound leaves the cache entry in place).
     */
    method Update(r: Record) returns (o: Outcome<Error>)
      modifies this, inner
      ensures cache == old(cache)[r.id := r]
      ensures o.Pass? <==> r.id in old(inner.records)
      ensures o.Pass? ==> inner.records == old(inner.records)[r.id := r]
      ensures o.Fail? ==> inner.records == old(inner.records) && o.error == NotFoundError(r.id)
      ensures backendCalls == old(backendCalls) + 1
    {
      cache := cache[r.id := r];
      backendCalls := backendCalls + 1;
      o := inner.Update(r);
    }

    /** `update` with the eviction `store` performs first, which keeps the capacity bound. */
    method UpdateBounded(r: Record) returns (o: Outcome<Error>)
      modifies this, inner
      ensures exists evicted :: EvictionStep(old(cache), evicted) && cache == evicted[r.id := r]
      ensures o.Pass? <==> r.id in old(inner.records)
      ensures o.Pass? ==> inner.records == old(inner.records)[r.id := r]
      ensures o.Fail? ==> inner.records == old(inner.records) && o.error == NotFoundError(r.id)
      ensures backendCalls == old(backendCalls) + 1
      ensures old(Bounded()) ==> Bounded()
    {
      EvictIfNeeded();
      ghost var evicted := cache;
      cache := cache[r.id := r];
      backendCalls := backendCalls + 1;
      o := inner.Update(r);
      assert EvictionStep(old(cache), evicted);
    }

    /** `delete`: the id leaves the cache; the backend's answer is returned. */
    method Delete(id: Uuid) returns (removed: bool)
      modifies this, inner
      ensures cache == old(cache) - {id}
      ensures removed <==> id in old(inner.records)
      ensures inner.records == old(inner.records) - {id}
      ensures backendCalls == old(backendCalls) + 1
      ensures old(Bounded()) ==> Bounded()
    {
      cache := cache - {id};
      assert cache.Keys <= old(cache).Keys;
      backendCalls := backendCalls + 1;
      removed := inner.Delete(id);
    }

    /** `list`: the backend's ids. */
    method List() returns (ids: seq<Uuid>)
      modifies this
      ensures forall id :: id in ids <==> id in inner.records
      ensures |ids| == |inner.records|
      ensures cache == old(cache) && backendCalls == old(backendCalls) + 1
    {
      backendCalls := backendCalls + 1;
      ids := inner.List();
    }

    /** `count`: the backend's count, not the cache's. */
    method Count() returns (n: nat)
      modifies this
      ensures n == |inner.records.Keys|
      ensures cache == old(cache) && backendCalls == old(backendCalls) + 1
    {
      backendCalls := backendCalls + 1;
      n := inner.Count();
    }

    /** `clear`: both the cache and the backend are emptied. */
    method Clear()
      modifies this, inner
      ensures cache == map[] && inner.records == map[]
      ensures backendCalls == old(backendCalls) + 1
    {
      cache := map[];
      backendCalls := backendCalls + 1;
      inner.Clear();
    }
  }

  /**
   * The cache outgrows its bound through `update` as written: with room for one entry,
   * storing one record and updating another leaves two entries cached.
   */
  method UpdateOverflowsCache() returns (cached: nat, capacity: nat)
    ensures cached == 2 && capacity == 1
  {
    var backend := new InMemoryStorage();
    var storage := new CachedStorage(backend, 1);
    var a := New(1, "a", Json.Null, 0);
    var b := New(2, "b", Json.Null, 0);
    var _ := storage.Store(a);
    assert storage.cache == map[1 := a];
    var _ := storage.Update(b);
    assert storage.cache.Keys == {1, 2};
    cached, capacity := |storage.cache|, storage.cacheSize;
  }

  /** The same steps with the bounded update keep the cache within its capacity. */
  method UpdateBoundedKeepsCapacity() returns (cached: nat, capacity: nat)
    ensures cached <= capacity && capacity == 1
  {
    var backend := new InMemoryStorage();
    var storage := new CachedStorage(backend, 1);
    var a := New(1, "a", Json.Null, 0);
    var b := New(2, "b", Json.Null, 0);
    var _ := storage.Store(a);
    var _ := storage.UpdateBounded(b);
    cached, capacity := |storage.cache|, storage.cacheSize;
  }
}
