/**
 * The least-recently-used cache of rendered images (`ImageCache`): an
 * insertion-ordered map from keys to image payloads, capped at `maxSize`
 * entries, oldest first. `get` moves a hit to the most-recent end; `set`
 * evicts the oldest entry whenever the cache is full.
 *
 * The JavaScript `Map` is a sequence of entries in insertion order with
 * distinct keys; `Map.delete` removes an entry, and `Map.set` overwrites an
 * existing key in place or appends a new one.
 */
module ImageCache {
  import opened Wrappers
  import opened ObjectUrls

  datatype Entry = Entry(key: string, blob: Blob)

  /** `Map.get`. */
  function Find(m: seq<Entry>, key: string): Option<Blob>
  {
    if m == [] then None
    else if m[0].key == key then Some(m[0].blob)
    else Find(m[1..], key)
  }

  /** `Map.delete`. */
  function Delete(m: seq<Entry>, key: string): seq<Entry>
  {
    if m == [] then []
    else if m[0].key == key then Delete(m[1..], key)
    else [m[0]] + Delete(m[1..], key)
  }

  /** `Map.set`: overwrite in place when the key is present, append otherwise. */
  function Put(m: seq<Entry>, key: string, blob: Blob): seq<Entry>
  {
    if m == [] then [Entry(key, blob)]
    else if m[0].key == key then [Entry(key, blob)] + m[1..]
    else [m[0]] + Put(m[1..], key, blob)
  }

  predicate DistinctKeys(m: seq<Entry>)
  {
    forall i, j :: 0 <= i < j < |m| ==> m[i].key != m[j].key
  }

  /** `a` is `b` with some entries left out, the rest in the same order. */
  predicate Subsequence(a: seq<Entry>, b: seq<Entry>)
  {
    if a == [] then true
    else if b == [] then false
    else if a[0] == b[0] then Subsequence(a[1..], b[1..])
    else Subsequence(a, b[1..])
  }

  lemma {:induction false} FindIn(m: seq<Entry>, key: string)
    ensures Find(m, key).Some? <==> exists i :: 0 <= i < |m| && m[i].key == key
    ensures Find(m, key).Some? ==> Entry(key, Find(m, key).value) in m
  {
    if m != [] {
      FindIn(m[1..], key);
      if m[0].key != key {
        if exists i :: 0 <= i < |m| && m[i].key == key {
          var i :| 0 <= i < |m| && m[i].key == key;
          assert m[1..][i - 1].key == key;
        }
      }
    }
  }

  /** After a delete the key is gone and the remaining entries keep their order. */
  lemma {:induction false} DeleteRemovesKey(m: seq<Entry>, key: string)
    ensures Find(Delete(m, key), key) == None
    ensures Subsequence(Delete(m, key), m)
    ensures DistinctKeys(m) ==> DistinctKeys(Delete(m, key))
    ensures DistinctKeys(m) ==> |Delete(m, key)| == |m| - (if Find(m, key).Some? then 1 else 0)
  {
    if m != [] {
      DeleteRemovesKey(m[1..], key);
      DeleteSubsetOfKeys(m[1..], key);
      var d := Delete(m, key);
      if m[0].key == key {
        assert d == Delete(m[1..], key);
        SubsequenceSkip(d, m);
        if DistinctKeys(m) {
          assert DistinctKeys(m[1..]);
          FindIn(m[1..], key);
        }
      } else {
        assert d == [m[0]] + Delete(m[1..], key);
        assert d[1..] == Delete(m[1..], key);
        if DistinctKeys(m) {
          assert DistinctKeys(m[1..]);
          forall j | 1 <= j < |d| ensures d[0].key != d[j].key {
            assert d[j] in Delete(m[1..], key);
          }
        }
      }
    }
  }

  /** A delete leaves every other key mapped as before. */
  lemma {:induction false} DeleteKeepsOthers(m: seq<Entry>, key: string, other: string)
    requires other != key
    ensures Find(Delete(m, key), other) == Find(m, other)
  {
    if m != [] {
      DeleteKeepsOthers(m[1..], key, other);
    }
  }

  /** Deleting keeps only entries that were there. */
  lemma {:induction false} DeleteSubsetOfKeys(m: seq<Entry>, key: string)
    ensures forall e :: e in Delete(m, key) ==> e in m[..] && e.key != key
  {
    if m != [] {
      DeleteSubsetOfKeys(m[1..], key);
    }
  }

  /** Dropping a leading entry of the longer sequence keeps a subsequence. */
  lemma {:induction false} SubsequenceSkip(a: seq<Entry>, b: seq<Entry>)
    requires b != [] && Subsequence(a, b[1..])
    ensures Subsequence(a, b)
    decreases |b|, 0
  {
    if a != [] && a[0] == b[0] {
      SubsequenceDrop(a, b[1..]);
    }
  }

  /** Dropping the head of a subsequence keeps a subsequence. */
  lemma {:induction false} SubsequenceDrop(a: seq<Entry>, b: seq<Entry>)
    requires a != [] && Subsequence(a, b)
    ensures Subsequence(a[1..], b)
    decreases |b|, 1
  {
    assert b != [];
    if a[0] == b[0] {
      if a[1..] != [] {
        SubsequenceSkip(a[1..], b);
      }
    } else {
      SubsequenceDrop(a, b[1..]);
      if a[1..] != [] {
        SubsequenceSkip(a[1..], b);
      }
    }
  }

  /** After a put the key maps to the new payload; the size grows only for a new key. */
  lemma {:induction false} PutStores(m: seq<Entry>, key: string, blob: Blob)
    ensures Find(Put(m, key, blob), key) == Some(blob)
    ensures |Put(m, key, blob)| == |m| + (if Find(m, key).Some? then 0 else 1)
  {
    if m != [] && m[0].key != key {
      PutStores(m[1..], key, blob);
    }
  }

  /** A put leaves every other key mapped as before. */
  lemma {:induction false} PutKeepsOthers(m: seq<Entry>, key: string, blob: Blob, other: string)
    requires other != key
    ensures Find(Put(m, key, blob), other) == Find(m, other)
  {
    if m != [] && m[0].key != key {
      PutKeepsOthers(m[1..], key, blob, other);
    }
  }

  /** A put keeps keys distinct. */
  lemma {:induction false} PutKeepsDistinct(m: seq<Entry>, key: string, blob: Blob)
    requires DistinctKeys(m)
    ensures DistinctKeys(Put(m, key, blob))
    ensures forall e :: e in Put(m, key, blob) ==> e == Entry(key, blob) || e in m
  {
    if m != [] {
      assert DistinctKeys(m[1..]);
      if m[0].key != key {
        PutKeepsDistinct(m[1..], key, blob);
        var p := Put(m, key, blob);
        assert p == [m[0]] + Put(m[1..], key, blob);
        forall j | 1 <= j < |p| ensures p[0].key != p[j].key {
          assert p[j] in Put(m[1..], key, blob);
          if p[j] != Entry(key, blob) {
            assert p[j] in m[1..];
          }
        }
      }
    }
  }

  /** In a cache with distinct keys, deleting the first key removes exactly the first entry. */
  lemma DeleteFirst(m: seq<Entry>)
    requires m != [] && DistinctKeys(m)
    ensures Delete(m, m[0].key) == m[1..]
  {
    DeleteAbsent(m[1..], m[0].key);
  }

  lemma {:induction false} DeleteAbsent(m: seq<Entry>, key: string)
    requires forall i :: 0 <= i < |m| ==> m[i].key != key
    ensures Delete(m, key) == m
  {
    if m != [] {
      DeleteAbsent(m[1..], key);
    }
  }

  /** The entries `set` leaves: evict the oldest when full, then `Map.set`. */
  function AfterSet(m: seq<Entry>, key: string, blob: Blob, maxSize: nat): seq<Entry>
  {
    Put(if |m| >= maxSize && m != [] then m[1..] else m, key, blob)
  }

  /** `set` never grows the cache beyond `maxSize`, and afterwards the key maps to the new payload. */
  lemma SetBounded(m: seq<Entry>, key: string, blob: Blob, maxSize: nat)
    requires DistinctKeys(m) && |m| <= maxSize && maxSize >= 1
    ensures |AfterSet(m, key, blob, maxSize)| <= maxSize
    ensures Find(AfterSet(m, key, blob, maxSize), key) == Some(blob)
    ensures DistinctKeys(AfterSet(m, key, blob, maxSize))
  {
    var base := if |m| >= maxSize && m != [] then m[1..] else m;
    assert DistinctKeys(base);
    PutStores(base, key, blob);
    PutKeepsDistinct(base, key, blob);
  }

  /**
   * The eviction does not look at the key: on a full cache, re-setting a key that
   * is present (but not the oldest) still drops the oldest entry, and the cache
   * shrinks by one.
   */
  lemma SetEvictsEvenWhenKeyPresent(m: seq<Entry>, i: nat, blob: Blob, maxSize: nat)
    requires DistinctKeys(m) && |m| == maxSize && 1 <= i < |m|
    ensures |AfterSet(m, m[i].key, blob, maxSize)| == maxSize - 1
    ensures Find(AfterSet(m, m[i].key, blob, maxSize), m[0].key) == None
  {
    var base := m[1..];
    assert base[i - 1].key == m[i].key;
    FindIn(base, m[i].key);
    PutStores(base, m[i].key, blob);
    PutKeepsOthers(base, m[i].key, blob, m[0].key);
    FindIn(base, m[0].key);
  }

  class ImageCache {
    const maxSize: nat
    /** The `Map`, oldest entry first. */
    var cache: seq<Entry>

    ghost predicate Valid()
      reads this
    {
      maxSize == 10 && DistinctKeys(cache) && |cache| <= maxSize
    }

    constructor ()
      ensures Valid() && cache == []
    {
      maxSize := 10;
      cache := [];
    }

    /**
     * `get`: a hit returns the stored payload and moves the entry to the most-recent
     * end, the others keeping their order; a miss returns nothing and changes nothing.
     */
    method Get(key: string) returns (item: Option<Blob>)
      requires Valid()
      modifies this
      ensures Valid()
      ensures item == Find(old(cache), key)
      ensures item.None? ==> cache == old(cache)
      ensures item.Some? ==>
        && |cache| == |old(cache)|
        && cache[|cache| - 1] == Entry(key, item.value)
        && Subsequence(cache[..|cache| - 1], old(cache))
        && forall other :: other != key ==> Find(cache, other) == Find(old(cache), other)
    {
      item := Find(cache, key);
      if item.Some? {
        FindIn(cache, key);
        DeleteRemovesKey(cache, key);
        var rest := Delete(cache, key);
        cache := rest;
        cache := Put(cache, key, item.value);
        PutKeepsDistinct(rest, key, item.value);
        PutAbsentAppends(rest, key, item.value);
        assert cache[..|cache| - 1] == rest;
        forall other | other != key
          ensures Find(cache, other) == Find(old(cache), other)
        {
          DeleteKeepsOthers(old(cache), key, other);
          PutKeepsOthers(rest, key, item.value, other);
        }
      }
    }

    /** `set`: when full, delete the first key; then `Map.set`. */
    method Set(key: string, blob: Blob)
      requires Valid()
      modifies this
      ensures Valid()
      ensures cache == AfterSet(old(cache), key, blob, maxSize)
      ensures Find(cache, key) == Some(blob)
    {
      SetBounded(cache, key, blob, maxSize);
      if |cache| >= maxSize {
        DeleteFirst(cache);
        var firstKey := cache[0].key;
        cache := Delete(cache, firstKey);
      }
      cache := Put(cache, key, blob);
    }

    /** `clear`. */
    method Clear()
      requires Valid()
      modifies this
      ensures Valid() && cache == []
    {
      cache := [];
    }

    /** `size`: the number of entries. */
    method Size() returns (n: nat)
      requires Valid()
      ensures n == |cache| && n <= maxSize
    {
      n := |cache|;
    }
  }

  /** `Map.set` of an absent key appends it. */
  lemma {:induction false} PutAbsentAppends(m: seq<Entry>, key: string, blob: Blob)
    requires Find(m, key) == None
    ensures Put(m, key, blob) == m + [Entry(key, blob)]
  {
    if m != [] {
      PutAbsentAppends(m[1..], key, blob);
      assert m == [m[0]] + m[1..];
    }
  }
}
