/**
 * A JavaScript `Map`: keys in insertion order, each key once, and a value per key.
 * `Set` on a key already present replaces its value and keeps its position;
 * `Delete` removes the key from the order. Iteration (`for (const [k, v] of m)`)
 * follows `order`.
 */
module OrderedMaps {
  import opened Wrappers

  predicate Distinct<T(==)>(s: seq<T>) {
    forall i, j :: 0 <= i < j < |s| ==> s[i] != s[j]
  }

  function ElementsOf<T>(s: seq<T>): set<T> {
    set x | x in s
  }

  datatype JsMap<K(==), V> = JsMap(order: seq<K>, vals: map<K, V>) {

    /** The order lists every key of `vals` exactly once. */
    ghost predicate Valid() {
      && Distinct(order)
      && (forall k :: k in vals ==> k in order)
      && (forall i :: 0 <= i < |order| ==> order[i] in vals)
    }

    /** `m.size` */
    function Size(): nat {
      |order|
    }

    /** `m.has(k)` */
    predicate Has(k: K) {
      k in vals
    }

    /** `m.get(k)`: undefined when the key is absent. */
    function Get(k: K): (r: Option<V>)
      ensures r.Some? <==> k in vals
      ensures r.Some? ==> r.value == vals[k]
    {
      if k in vals then Some(vals[k]) else None
    }

    /** `m.set(k, v)`: a new key goes last, an existing key keeps its place. */
    function Set(k: K, v: V): (r: JsMap<K, V>)
      requires Valid()
      ensures r.Valid()
      ensures r.vals == vals[k := v]
      ensures r.order == if k in vals then order else order + [k]
      ensures r.Size() == if k in vals then Size() else Size() + 1
    {
      if k in vals then JsMap(order, vals[k := v]) else JsMap(order + [k], vals[k := v])
    }

    /** `m.delete(k)` */
    function Delete(k: K): (r: JsMap<K, V>)
      requires Valid()
      ensures r.Valid()
      ensures r.vals == vals - {k}
      ensures forall x :: x in r.order ==> x in order && x != k
      ensures forall x :: x in order && x != k ==> x in r.order
    {
      JsMap(Without(order, k), vals - {k})
    }

    /** The values in iteration order. */
    function Values(): (r: seq<V>)
      requires Valid()
      ensures |r| == |order|
      ensures forall i :: 0 <= i < |order| ==> r[i] == vals[order[i]]
    {
      seq(|order|, i requires 0 <= i < |order| => vals[order[i]])
    }
  }

  function Empty<K(==), V>(): (r: JsMap<K, V>)
    ensures r.Valid() && r.Size() == 0 && r.vals == map[]
  {
    JsMap([], map[])
  }

  /** `s` with every occurrence of `x` dropped, the rest in order. */
  function Without<T(==)>(s: seq<T>, x: T): (r: seq<T>)
    ensures forall y :: y in r ==> y in s && y != x
    ensures forall y :: y in s && y != x ==> y in r
    ensures forall i :: 0 <= i < |r| ==> r[i] in s && r[i] != x
    ensures Distinct(s) ==> Distinct(r)
    ensures |r| <= |s|
  {
    if s == [] then []
    else if s[0] == x then Without(s[1..], x)
    else
      var rest := Without(s[1..], x);
      assert Distinct(s) ==> s[0] !in s[1..];
      [s[0]] + rest
  }

  /** A sequence without repetitions has as many elements as its set. */
  lemma {:induction false} DistinctCardinality<T>(s: seq<T>)
    requires Distinct(s)
    ensures |ElementsOf(s)| == |s|
  {
    if s != [] {
      DistinctCardinality(s[1..]);
      assert ElementsOf(s) == ElementsOf(s[1..]) + {s[0]};
      assert s[0] !in ElementsOf(s[1..]);
    }
  }

  /** `size` is the number of keys. */
  lemma SizeIsKeyCount<K, V>(m: JsMap<K, V>)
    requires m.Valid()
    ensures m.Size() == |m.vals|
  {
    DistinctCardinality(m.order);
    assert m.vals.Keys == ElementsOf(m.order);
  }

  /** A map is empty exactly when its size is zero. */
  lemma SizeZeroIffEmpty<K, V>(m: JsMap<K, V>)
    requires m.Valid()
    ensures m.Size() == 0 <==> m.vals == map[]
  {
    if m.Size() != 0 {
      assert m.order[0] in m.vals;
    }
  }

  /** Of two finite sets of the same size, one inside the other, both are equal. */
  lemma SubsetSameSize<T>(a: set<T>, b: set<T>)
    requires a <= b && |a| == |b|
    ensures a == b
  {
    assert b == a + (b - a);
    assert a * (b - a) == {};
    assert |b - a| == 0;
    assert b - a == {};
  }
}
