/** Shared value types: options, results, and a map that remembers insertion order. */
module Collections {

  datatype Option<+T> = None | Some(value: T)

  datatype Result<+T, +E> = Ok(value: T) | Err(error: E)

  ghost predicate NoDuplicates<T>(s: seq<T>) {
    forall i, j :: 0 <= i < j < |s| ==> s[i] != s[j]
  }

  /** The keys of `s` other than `k`, in order. */
  function Without<K(==, !new)>(s: seq<K>, k: K): (r: seq<K>)
    ensures forall x :: x in r <==> x in s && x != k
    ensures NoDuplicates(s) ==> NoDuplicates(r)
    ensures |r| <= |s|
    ensures k in s ==> |r| < |s|
  {
    if s == [] then []
    else if s[0] == k then Without(s[1..], k)
    else
      assert forall x :: x in s <==> x == s[0] || x in s[1..];
      var rest := Without(s[1..], k);
      assert NoDuplicates(s) ==> NoDuplicates(s[1..]) && s[0] !in s[1..];
      assert s[0] !in s[1..] ==> s[0] !in rest;
      [s[0]] + rest
  }

  /** A JavaScript Map: values by key, iterated in the order the keys were first set. */
  datatype InsertionMap<K(==, !new), V(!new)> = InsertionMap(keys: seq<K>, vals: map<K, V>) {

    ghost predicate Valid() {
      && NoDuplicates(keys)
      && (forall k :: k in keys <==> k in vals)
    }

    function Get(k: K): Option<V> {
      if k in vals then Some(vals[k]) else None
    }

    /** Setting an existing key keeps its place; a new key goes last. */
    function Put(k: K, v: V): (r: InsertionMap<K, V>)
      ensures Valid() ==> r.Valid()
      ensures forall x :: r.Get(x) == if x == k then Some(v) else Get(x)
    {
      InsertionMap(if k in vals then keys else keys + [k], vals[k := v])
    }

    /** Writing a key again, as an in-place update of its value does, keeps only the last value. */
    lemma PutTwice(k: K, v: V, w: V)
      ensures Put(k, v).Put(k, w) == Put(k, w)
    {
      assert vals[k := v][k := w] == vals[k := w];
    }

    function Delete(k: K): (r: InsertionMap<K, V>)
      ensures Valid() ==> r.Valid()
      ensures forall x :: r.Get(x) == if x == k then None else Get(x)
      ensures |r.keys| <= |keys|
    {
      InsertionMap(Without(keys, k), vals - {k})
    }
  }

  function Empty<K(==, !new), V(!new)>(): (r: InsertionMap<K, V>)
    ensures r.Valid()
  {
    InsertionMap([], map[])
  }
}
