/** A Python dictionary: a map that remembers the order in which its keys were inserted. */
module Dictionaries {

  datatype Dict<K(==,!new), V> = Dict(keys: seq<K>, items: map<K, V>) {

    ghost predicate Ok() {
      && (forall i, j :: 0 <= i < j < |keys| ==> keys[i] != keys[j])
      && (forall k :: k in keys <==> k in items)
    }

    predicate Has(k: K) { k in items }

    function Get(k: K): V
      requires Has(k)
    {
      items[k]
    }

    function Put(k: K, v: V): Dict<K, V> {
      Dict(if k in items then keys else keys + [k], items[k := v])
    }

    function Remove(k: K): Dict<K, V> {
      Dict(Unlisted(keys, k), items - {k})
    }
  }

  function Unlisted<K(==)>(keys: seq<K>, k: K): seq<K> {
    if keys == [] then []
    else
      var n := |keys| - 1;
      Unlisted(keys[..n], k) + (if keys[n] == k then [] else [keys[n]])
  }

  function Empty<K(!new), V>(): Dict<K, V> { Dict([], map[]) }

  /** The sum of `f` over the values of the listed keys. */
  function SumOf<K, V>(keys: seq<K>, items: map<K, V>, f: V -> nat): nat {
    if keys == [] then 0
    else
      var k := keys[|keys| - 1];
      SumOf(keys[..|keys| - 1], items, f) + (if k in items then f(items[k]) else 0)
  }

  function Sum<K(!new), V>(d: Dict<K, V>, f: V -> nat): nat {
    SumOf(d.keys, d.items, f)
  }

  lemma {:induction false} SumSame<K(!new), V>(keys: seq<K>, items: map<K, V>, k: K, v: V, f: V -> nat)
    requires k !in keys
    ensures SumOf(keys, items[k := v], f) == SumOf(keys, items, f)
  {
    if keys != [] {
      SumSame(keys[..|keys| - 1], items, k, v, f);
    }
  }

  lemma {:induction false} SumUpdate<K(!new), V>(keys: seq<K>, items: map<K, V>, k: K, v: V, f: V -> nat)
    requires k in items && k in keys && forall i, j :: 0 <= i < j < |keys| ==> keys[i] != keys[j]
    ensures SumOf(keys, items[k := v], f) == SumOf(keys, items, f) - f(items[k]) + f(v)
    ensures f(items[k]) <= SumOf(keys, items, f)
  {
    var n := |keys| - 1;
    if keys[n] == k {
      SumSame(keys[..n], items, k, v, f);
    } else {
      SumUpdate(keys[..n], items, k, v, f);
    }
  }

  lemma PutOk<K(!new), V>(d: Dict<K, V>, k: K, v: V)
    requires d.Ok()
    ensures d.Put(k, v).Ok()
  {
  }

  lemma {:induction false} UnlistedKeys<K(!new)>(keys: seq<K>, k: K)
    requires forall i, j :: 0 <= i < j < |keys| ==> keys[i] != keys[j]
    ensures var r := Unlisted(keys, k);
            && (forall i, j :: 0 <= i < j < |r| ==> r[i] != r[j])
            && (forall x :: x in r <==> x in keys && x != k)
            && |r| == |keys| - if k in keys then 1 else 0
  {
    if keys != [] {
      var n := |keys| - 1;
      UnlistedKeys(keys[..n], k);
      assert keys == keys[..n] + [keys[n]];
      var front := Unlisted(keys[..n], k);
      forall i | 0 <= i < |front|
        ensures front[i] != keys[n]
      {
        assert front[i] in keys[..n];
      }
    }
  }

  lemma PutLookup<K(!new), V>(d: Dict<K, V>, k: K, v: V)
    ensures forall x :: d.Put(k, v).Has(x) <==> x == k || d.Has(x)
    ensures d.Put(k, v).Get(k) == v && forall x :: x != k && d.Has(x) ==> d.Put(k, v).Get(x) == d.Get(x)
  {
  }

  lemma RemoveLookup<K(!new), V>(d: Dict<K, V>, k: K)
    ensures forall x :: d.Remove(k).Has(x) <==> x != k && d.Has(x)
    ensures forall x :: x != k && d.Has(x) ==> d.Remove(k).Get(x) == d.Get(x)
  {
  }

  lemma RemoveOk<K(!new), V>(d: Dict<K, V>, k: K)
    requires d.Ok()
    ensures d.Remove(k).Ok() && |d.Remove(k).keys| == |d.keys| - if d.Has(k) then 1 else 0
  {
    UnlistedKeys(d.keys, k);
  }

  /** Storing a value changes the sum by the difference. */
  lemma SumPut<K(!new), V>(d: Dict<K, V>, k: K, v: V, f: V -> nat)
    requires d.Ok()
    ensures d.Put(k, v).Ok()
    ensures Sum(d.Put(k, v), f) == Sum(d, f) - (if d.Has(k) then f(d.Get(k)) else 0) + f(v)
    ensures d.Has(k) ==> f(d.Get(k)) <= Sum(d, f)
  {
    PutOk(d, k, v);
    if d.Has(k) {
      SumUpdate(d.keys, d.items, k, v, f);
    } else {
      SumSame(d.keys, d.items, k, v, f);
      assert (d.keys + [k])[..|d.keys|] == d.keys;
    }
  }

  /** The sum of `f` over the values of an unordered map. */
  ghost function MapSum<K(!new), V>(m: map<K, V>, f: V -> nat): nat
    decreases m.Keys
  {
    if m.Keys == {} then 0
    else
      var k :| k in m.Keys;
      f(m[k]) + MapSum(m - {k}, f)
  }

  function NoItems<K(!new), V>(): map<K, V> { map[] }

  lemma SumsOfNothing<K(!new), V>(f: V -> nat)
    ensures MapSum(NoItems<K, V>(), f) == 0 && SumOf([], NoItems<K, V>(), f) == 0
  {
  }

  lemma {:induction false} MapSumRemove<K(!new), V>(m: map<K, V>, k: K, f: V -> nat)
    requires k in m
    ensures MapSum(m, f) == MapSum(m - {k}, f) + f(m[k])
    decreases m.Keys
  {
    var x :| x in m.Keys && MapSum(m, f) == f(m[x]) + MapSum(m - {x}, f);
    if x != k {
      MapSumRemove(m - {x}, k, f);
      MapSumRemove(m - {k}, x, f);
      assert m - {x} - {k} == m - {k} - {x};
    }
  }

  lemma MapSumPut<K(!new), V>(m: map<K, V>, k: K, v: V, f: V -> nat)
    requires k !in m
    ensures MapSum(m[k := v], f) == MapSum(m, f) + f(v)
  {
    MapSumRemove(m[k := v], k, f);
    assert m[k := v] - {k} == m;
  }

  lemma {:induction false} SubsetSize<T(!new)>(a: set<T>, b: set<T>)
    requires a <= b
    ensures |a| <= |b|
  {
    if a != {} {
      var x :| x in a;
      SubsetSize(a - {x}, b - {x});
    }
  }
}
