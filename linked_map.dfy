/**
 * The insertion-ordered map `xmap.LinkedMap` that the store uses for its id
 * index and its event buckets, taken as a key sequence plus a map: `Put` of
 * a new key appends it, `Put` of a present key keeps its place, `Delete`
 * removes the key, and a walk visits the keys in order.
 */
module LinkedMaps {
  import opened Wrappers

  /** `keys` in insertion order, without repeats; `values` holds exactly those keys. */
  datatype LinkedMap<V> = LinkedMap(keys: seq<string>, values: map<string, V>)
  {
    ghost predicate Valid()
    {
      && Distinct(keys)
      && (forall k :: k in values <==> k in keys)
    }

    function Size(): nat
    {
      |keys|
    }

    function Get(k: string): (r: Option<V>)
      ensures r.Some? <==> k in values
      ensures r.Some? ==> r.value == values[k]
    {
      if k in values then Some(values[k]) else None
    }

    function Put(k: string, v: V): (r: LinkedMap<V>)
    {
      if k in values then LinkedMap(keys, values[k := v]) else LinkedMap(keys + [k], values[k := v])
    }

    function Delete(k: string): (r: LinkedMap<V>)
    {
      LinkedMap(Remove(keys, k), values - {k})
    }
  }

  function Empty<V>(): (m: LinkedMap<V>)
    ensures m.Valid() && m.Size() == 0
  {
    LinkedMap([], map[])
  }

  ghost predicate Distinct(s: seq<string>)
  {
    forall i, j :: 0 <= i < j < |s| ==> s[i] != s[j]
  }

  /** `s` without any occurrence of `k`, the other keys keeping their order. */
  function Remove(s: seq<string>, k: string): seq<string>
  {
    if s == [] then []
    else Remove(s[..|s| - 1], k) + (if s[|s| - 1] == k then [] else [s[|s| - 1]])
  }

  lemma {:induction false} RemoveMembers(s: seq<string>, k: string)
    ensures forall x :: x in Remove(s, k) <==> x in s && x != k
  {
    if s != [] {
      RemoveMembers(s[..|s| - 1], k);
      assert s == s[..|s| - 1] + [s[|s| - 1]];
    }
  }

  lemma {:induction false} RemoveDistinct(s: seq<string>, k: string)
    requires Distinct(s)
    ensures Distinct(Remove(s, k))
  {
    if s != [] {
      var init := s[..|s| - 1];
      RemoveDistinct(init, k);
      RemoveMembers(init, k);
      assert s[|s| - 1] !in init;
    }
  }

  /** Removing a key that is absent changes nothing. */
  lemma {:induction false} RemoveAbsent(s: seq<string>, k: string)
    requires k !in s
    ensures Remove(s, k) == s
  {
    if s != [] {
      RemoveAbsent(s[..|s| - 1], k);
      assert s == s[..|s| - 1] + [s[|s| - 1]];
    }
  }

  /** `Put` keeps the map well formed; a new key goes last, a present one keeps its place. */
  lemma PutValid<V>(m: LinkedMap<V>, k: string, v: V)
    requires m.Valid()
    ensures m.Put(k, v).Valid()
    ensures m.Put(k, v).values == m.values[k := v]
    ensures k !in m.values ==> m.Put(k, v).keys == m.keys + [k]
    ensures k in m.values ==> m.Put(k, v).keys == m.keys
  {
  }

  /** `Delete` keeps the map well formed and takes out exactly `k`. */
  lemma DeleteValid<V>(m: LinkedMap<V>, k: string)
    requires m.Valid()
    ensures m.Delete(k).Valid()
    ensures forall x :: x in m.Delete(k).keys <==> x in m.keys && x != k
    ensures k !in m.values ==> m.Delete(k) == m
  {
    RemoveDistinct(m.keys, k);
    RemoveMembers(m.keys, k);
    if k !in m.values {
      RemoveAbsent(m.keys, k);
    }
  }
}
