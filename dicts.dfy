/**
 Python dictionaries with string keys: a map together with the order in which its
 keys were inserted, which is the order in which `items()` and `values()` visit them.
 Assigning to an existing key keeps its position, assigning to a new key appends it,
 and `del` removes it from the order.
 */
module Dicts {

  /** No key occurs twice. */
  ghost predicate Distinct(s: seq<string>)
  {
    s == [] || (s[0] !in s[1..] && Distinct(s[1..]))
  }

  lemma {:induction false} DistinctAppend(s: seq<string>, k: string)
    requires Distinct(s) && k !in s
    ensures Distinct(s + [k])
  {
    if s != [] {
      assert (s + [k])[1..] == s[1..] + [k];
      DistinctAppend(s[1..], k);
    }
  }

  datatype Dict<V> = Dict(keys: seq<string>, items: map<string, V>)
  {
    /** The insertion order lists every key of the map exactly once. */
    ghost predicate Valid()
    {
      Distinct(keys) && forall k :: k in items <==> k in keys
    }

    /** `values()`: the entries in insertion order. */
    function Values(): (vs: seq<V>)
      requires Valid()
      ensures |vs| == |keys|
      ensures forall i :: 0 <= i < |keys| ==> vs[i] == items[keys[i]]
    {
      ValuesOf(keys, items)
    }
  }

  function Empty<V>(): (d: Dict<V>)
    ensures d.Valid() && d.items == map[]
  {
    Dict([], map[])
  }

  /** The entries of `items` at the keys `ks`, in that order. */
  function ValuesOf<V>(ks: seq<string>, items: map<string, V>): (vs: seq<V>)
    requires forall k :: k in ks ==> k in items
    ensures |vs| == |ks|
    ensures forall i :: 0 <= i < |ks| ==> vs[i] == items[ks[i]]
  {
    if ks == [] then [] else [items[ks[0]]] + ValuesOf(ks[1..], items)
  }

  /** The key order after `del d[k]`. */
  function Without(ks: seq<string>, k: string): (r: seq<string>)
    ensures forall x :: x in r <==> x in ks && x != k
    ensures Distinct(ks) ==> Distinct(r)
    ensures k !in ks ==> r == ks
  {
    if ks == [] then []
    else if ks[0] == k then Without(ks[1..], k)
    else
      var rest := Without(ks[1..], k);
      assert ([ks[0]] + rest)[1..] == rest;
      [ks[0]] + rest
  }

  /** `d[k] = v`: an existing key keeps its place, a new key goes last. */
  function Put<V>(d: Dict<V>, k: string, v: V): (r: Dict<V>)
    requires d.Valid()
    ensures r.Valid()
    ensures r.items == d.items[k := v]
  {
    if k in d.items then Dict(d.keys, d.items[k := v])
    else DistinctAppend(d.keys, k); Dict(d.keys + [k], d.items[k := v])
  }

  /** `del d[k]`. */
  function Delete<V>(d: Dict<V>, k: string): (r: Dict<V>)
    requires d.Valid()
    ensures r.Valid()
    ensures r.items == d.items - {k}
  {
    Dict(Without(d.keys, k), d.items - {k})
  }

  /** Deleting the key at position `i` of a distinct key order leaves the other keys in their order. */
  lemma {:induction false} WithoutAt(ks: seq<string>, i: nat)
    requires Distinct(ks) && i < |ks|
    ensures Without(ks, ks[i]) == ks[..i] + ks[i + 1..]
  {
    if i > 0 {
      assert ks[i] == ks[1..][i - 1];
      WithoutAt(ks[1..], i - 1);
      assert ks[1..][..i - 1] + ks[1..][i..] == ks[1..i] + ks[i + 1..];
    }
  }

  /** `del d[k]` keeps the insertion order of the remaining keys. */
  lemma DeleteKeepsOrder<V>(d: Dict<V>, i: nat)
    requires d.Valid() && i < |d.keys|
    ensures Delete(d, d.keys[i]).keys == d.keys[..i] + d.keys[i + 1..]
  {
    WithoutAt(d.keys, i);
  }

  /** Deleting the key that was inserted last restores the order from before the insertion. */
  lemma {:induction false} WithoutLast(ks: seq<string>, k: string)
    requires k !in ks
    ensures Without(ks + [k], k) == ks
  {
    if ks == [] {
      assert [k][1..] == [];
    } else {
      assert (ks + [k])[1..] == ks[1..] + [k];
      WithoutLast(ks[1..], k);
      assert ks == [ks[0]] + ks[1..];
    }
  }

  /** Overwriting a key and then deleting it is deleting it. */
  lemma PutThenDeleteHeld<V>(d: Dict<V>, k: string, v: V)
    requires d.Valid() && k in d.items
    ensures Delete(Put(d, k, v), k) == Delete(d, k)
  {
    assert d.items[k := v] - {k} == d.items - {k};
  }

  /** Inserting a new key and deleting it again gives back the same dictionary. */
  lemma PutThenDelete<V>(d: Dict<V>, k: string, v: V)
    requires d.Valid() && k !in d.items
    ensures Delete(Put(d, k, v), k) == d
  {
    WithoutLast(d.keys, k);
    assert d.items[k := v] - {k} == d.items;
  }
}
