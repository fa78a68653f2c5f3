/** The `multimap::MultiMap<String, V>` the generator fills: each key holds the values
    inserted under it, in insertion order.  The map is hash-based, so nothing here
    orders the keys. */
module MultiMaps {

  /** The values under `key`; an absent key has none. */
  function Get<V>(m: map<string, seq<V>>, key: string): seq<V>
  {
    if key in m then m[key] else []
  }

  /** The values of `entries` that carry `key`, in the order of `entries`. */
  function Bucket<V>(entries: seq<(string, V)>, key: string): (b: seq<V>)
    ensures |b| <= |entries|
  {
    if entries == [] then []
    else
      var last := entries[|entries| - 1];
      Bucket(entries[..|entries| - 1], key) + (if last.0 == key then [last.1] else [])
  }

  /** Inserting `entries`, one after another, into `m`. */
  function InsertAll<V>(m: map<string, seq<V>>, entries: seq<(string, V)>): map<string, seq<V>>
  {
    if entries == [] then m
    else
      var last := entries[|entries| - 1];
      var before := InsertAll(m, entries[..|entries| - 1]);
      before[last.0 := Get(before, last.0) + [last.1]]
  }

  /** Every key present holds at least one value. */
  ghost predicate NoEmptyBuckets<V>(m: map<string, seq<V>>)
  {
    forall key :: key in m ==> m[key] != []
  }

  /** Grouping: after the insertions a key holds its old values followed by exactly the
      inserted values that carry it, in insertion order; it is present exactly when it
      was before or some entry carries it. */
  lemma {:induction false} InsertAllBuckets<V>(m: map<string, seq<V>>, entries: seq<(string, V)>, key: string)
    ensures Get(InsertAll(m, entries), key) == Get(m, key) + Bucket(entries, key)
    ensures key in InsertAll(m, entries) <==> key in m || Bucket(entries, key) != []
  {
    if entries != [] {
      InsertAllBuckets(m, entries[..|entries| - 1], key);
    }
  }

  lemma {:induction false} InsertAllKeepsNonEmpty<V>(m: map<string, seq<V>>, entries: seq<(string, V)>)
    requires NoEmptyBuckets(m)
    ensures NoEmptyBuckets(InsertAll(m, entries))
  {
    if entries != [] {
      InsertAllKeepsNonEmpty(m, entries[..|entries| - 1]);
    }
  }

  /** Inserting two batches is inserting their concatenation. */
  lemma {:induction false} InsertAllConcat<V>(m: map<string, seq<V>>, a: seq<(string, V)>, b: seq<(string, V)>)
    ensures InsertAll(InsertAll(m, a), b) == InsertAll(m, a + b)
    decreases |b|
  {
    if b == [] {
      assert a + b == a;
    } else {
      assert (a + b)[..|a + b| - 1] == a + b[..|b| - 1];
      InsertAllConcat(m, a, b[..|b| - 1]);
    }
  }

  lemma {:induction false} BucketConcat<V>(a: seq<(string, V)>, b: seq<(string, V)>, key: string)
    ensures Bucket(a + b, key) == Bucket(a, key) + Bucket(b, key)
    decreases |b|
  {
    if b == [] {
      assert a + b == a;
    } else {
      assert (a + b)[..|a + b| - 1] == a + b[..|b| - 1];
      BucketConcat(a, b[..|b| - 1], key);
    }
  }

  /** `order` is an iteration order of the keys of `m`: each key exactly once. */
  ghost predicate IterationOrder<V>(order: seq<string>, m: map<string, V>)
  {
    && (forall i :: 0 <= i < |order| ==> order[i] in m)
    && (forall t :: t in m ==> t in order)
    && (forall i, j :: 0 <= i < j < |order| ==> order[i] != order[j])
  }

  class MultiMap<V> {
    var buckets: map<string, seq<V>>

    ghost predicate Valid()
      reads this
    {
      NoEmptyBuckets(buckets)
    }

    /** `MultiMap::new`. */
    constructor ()
      ensures Valid() && buckets == map[]
    {
      buckets := map[];
    }

    /** `MultiMap::insert`: appends `value` to the values under `key`. */
    method Insert(key: string, value: V)
      requires Valid()
      modifies this
      ensures Valid()
      ensures buckets == old(buckets)[key := Get(old(buckets), key) + [value]]
      ensures buckets == InsertAll(old(buckets), [(key, value)])
    {
      buckets := buckets[key := Get(buckets, key) + [value]];
    }
  }
}
