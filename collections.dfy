/** The collection semantics the layer relies on: a Guava ImmutableSet built
  * from a sequence keeps the first occurrence of each element in order, and
  * putting an entry into an insertion-ordered map replaces the value of an
  * existing key in place or appends a new entry. */
module Collections {

  import opened Wrappers

  /** `ImmutableSet.copyOf`: each element once, a later duplicate dropped
    * (`DistinctAppend` states how one more element is placed). */
  function Distinct<T(==)>(xs: seq<T>): (r: seq<T>)
    ensures forall i :: 0 <= i < |xs| ==> xs[i] in r
    ensures forall i :: 0 <= i < |r| ==> r[i] in xs
    ensures forall i, j :: 0 <= i < j < |r| ==> r[i] != r[j]
    ensures |r| <= |xs|
    decreases |xs|
  {
    if xs == [] then []
    else
      var init := Distinct(xs[..|xs| - 1]);
      var last := xs[|xs| - 1];
      assert forall i :: 0 <= i < |xs| - 1 ==> xs[i] == xs[..|xs| - 1][i];
      if last in init then init else init + [last]
  }

  /** A sequence whose elements are already distinct is its own set. */
  lemma {:induction false} DistinctOfDistinct<T>(xs: seq<T>)
    requires forall i, j :: 0 <= i < j < |xs| ==> xs[i] != xs[j]
    ensures Distinct(xs) == xs
    decreases |xs|
  {
    if xs != [] {
      var init := xs[..|xs| - 1];
      DistinctOfDistinct(init);
      assert xs[|xs| - 1] !in init by {
        forall i | 0 <= i < |init| ensures init[i] != xs[|xs| - 1] {
          assert init[i] == xs[i];
        }
      }
      assert init + [xs[|xs| - 1]] == xs;
    }
  }

  /** Adding an element to a set built by `Distinct` is `Distinct` of the
    * sequence with the element appended. */
  lemma DistinctAppend<T>(xs: seq<T>, x: T)
    ensures Distinct(xs + [x]) == if x in Distinct(xs) then Distinct(xs) else Distinct(xs) + [x]
  {
    assert (xs + [x])[..|xs + [x]| - 1] == xs;
  }

  /** `map.put(k, v)`: replaces the value of an existing key where it stands,
    * else adds the entry at the end. */
  function Put<K(==), V>(entries: seq<(K, V)>, k: K, v: V): (r: seq<(K, V)>)
    ensures |r| == |entries| || |r| == |entries| + 1
    decreases |entries|
  {
    if entries == [] then [(k, v)]
    else if entries[0].0 == k then [(k, v)] + entries[1..]
    else [entries[0]] + Put(entries[1..], k, v)
  }

  predicate KeyAbsent<K(==), V>(entries: seq<(K, V)>, k: K)
  {
    forall i :: 0 <= i < |entries| ==> entries[i].0 != k
  }

  lemma {:induction false} PutNewKey<K, V>(entries: seq<(K, V)>, k: K, v: V)
    requires KeyAbsent(entries, k)
    ensures Put(entries, k, v) == entries + [(k, v)]
    decreases |entries|
  {
    if entries != [] {
      PutNewKey(entries[1..], k, v);
      assert [entries[0]] + (entries[1..] + [(k, v)]) == entries + [(k, v)];
    }
  }

  /** Putting a key that is present keeps the length and every other entry
    * and changes only the value at the key's first position. */
  lemma {:induction false} PutExistingKey<K, V>(entries: seq<(K, V)>, k: K, v: V, i: nat)
    requires i < |entries| && entries[i].0 == k && KeyAbsent(entries[..i], k)
    ensures Put(entries, k, v) == entries[i := (k, v)]
    decreases |entries|
  {
    if i > 0 {
      assert entries[0] == entries[..i][0];
      var before := entries[1..][..i - 1];
      assert KeyAbsent(before, k) by {
        forall j | 0 <= j < i - 1 ensures before[j].0 != k {
          assert before[j] == entries[..i][j + 1];
        }
      }
      PutExistingKey(entries[1..], k, v, i - 1);
      assert [entries[0]] + entries[1..][i - 1 := (k, v)] == entries[i := (k, v)];
    }
  }

  /** `map.get(k)`: the value of the first entry with key `k`. */
  function Lookup<K(==), V>(entries: seq<(K, V)>, k: K): Option<V>
    decreases |entries|
  {
    if entries == [] then None
    else if entries[0].0 == k then Some(entries[0].1)
    else Lookup(entries[1..], k)
  }

  /** After a put the key has the new value and every other key its old one. */
  lemma {:induction false} LookupAfterPut<K, V>(entries: seq<(K, V)>, k: K, v: V, j: K)
    ensures Lookup(Put(entries, k, v), j) == if j == k then Some(v) else Lookup(entries, j)
    decreases |entries|
  {
    if entries != [] && entries[0].0 != k {
      LookupAfterPut(entries[1..], k, v, j);
    }
  }
}
