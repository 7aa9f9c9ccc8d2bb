/**
 * Python dictionaries as insertion-ordered association lists.  Iteration
 * visits the pairs in order; `d[k] = v` overwrites an existing key in its
 * place and appends a new one at the end.
 */
module PyDict {
  import opened Wrappers

  type Dict<K, V> = seq<(K, V)>

  function Keys<K, V>(d: Dict<K, V>): (r: seq<K>)
    ensures |r| == |d|
    ensures forall i :: 0 <= i < |d| ==> r[i] == d[i].0
  {
    if d == [] then [] else [d[0].0] + Keys(d[1..])
  }

  predicate DistinctKeys<K(==), V>(d: Dict<K, V>) {
    forall i, j :: 0 <= i < j < |d| ==> d[i].0 != d[j].0
  }

  /** `d.get(k)`: the value stored under `k`, if any. */
  function Lookup<K(==), V>(d: Dict<K, V>, k: K): (r: Option<V>)
    ensures r.None? <==> k !in Keys(d)
    ensures r.Some? ==> (k, r.value) in d
  {
    if d == [] then None else if d[0].0 == k then Some(d[0].1) else Lookup(d[1..], k)
  }

  /** `d[k] = v`. */
  function Set<K(==), V>(d: Dict<K, V>, k: K, v: V): (r: Dict<K, V>)
    ensures |r| == |d| || |r| == |d| + 1
  {
    if d == [] then [(k, v)]
    else if d[0].0 == k then [(k, v)] + d[1..]
    else [d[0]] + Set(d[1..], k, v)
  }

  /** After `d[k] = v`, `k` maps to `v` and every other key keeps its value. */
  lemma {:induction false} SetLookup<K, V>(d: Dict<K, V>, k: K, v: V, other: K)
    ensures Lookup(Set(d, k, v), k) == Some(v)
    ensures other != k ==> Lookup(Set(d, k, v), other) == Lookup(d, other)
  {
    if d != [] && d[0].0 != k {
      SetLookup(d[1..], k, v, other);
    }
  }

  /** `d[k] = v` keeps the key order, appending `k` only when it is new. */
  lemma {:induction false} SetKeys<K, V>(d: Dict<K, V>, k: K, v: V)
    ensures k in Keys(d) ==> Keys(Set(d, k, v)) == Keys(d)
    ensures k !in Keys(d) ==> Keys(Set(d, k, v)) == Keys(d) + [k]
  {
    if d != [] && d[0].0 != k {
      SetKeys(d[1..], k, v);
      assert Keys(d) == [d[0].0] + Keys(d[1..]);
      assert Keys(Set(d, k, v)) == [d[0].0] + Keys(Set(d[1..], k, v));
    }
  }

  /** `d[k] = v` never introduces a duplicate key. */
  lemma SetDistinct<K, V>(d: Dict<K, V>, k: K, v: V)
    requires DistinctKeys(d)
    ensures DistinctKeys(Set(d, k, v))
  {
    SetKeys(d, k, v);
    var r := Set(d, k, v);
    forall i, j | 0 <= i < j < |r|
      ensures r[i].0 != r[j].0
    {
      assert Keys(r)[i] == r[i].0 && Keys(r)[j] == r[j].0;
      assert Keys(d)[i] == d[i].0;
      if j < |d| {
        assert Keys(d)[j] == d[j].0;
      }
    }
  }

  /** `dict(pairs)` / repeated `d[k] = v` from the empty dict: a later duplicate key wins. */
  function FromPairs<K(==), V>(ps: seq<(K, V)>): (r: Dict<K, V>)
    ensures DistinctKeys(r)
  {
    if ps == [] then []
    else
      var d := FromPairs(ps[..|ps| - 1]);
      SetDistinct(d, ps[|ps| - 1].0, ps[|ps| - 1].1);
      Set(d, ps[|ps| - 1].0, ps[|ps| - 1].1)
  }

  /** Storing pairs whose keys are already distinct rebuilds exactly those pairs, in order. */
  lemma {:induction false} FromPairsDistinct<K, V>(ps: seq<(K, V)>)
    requires DistinctKeys(ps)
    ensures FromPairs(ps) == ps
  {
    if ps != [] {
      var init := ps[..|ps| - 1];
      FromPairsDistinct(init);
      SetAppend(init, ps[|ps| - 1].0, ps[|ps| - 1].1);
      assert init + [ps[|ps| - 1]] == ps;
    }
  }

  /** Setting a key the dict does not hold appends the pair. */
  lemma {:induction false} SetAppend<K, V>(d: Dict<K, V>, k: K, v: V)
    requires k !in Keys(d)
    ensures Set(d, k, v) == d + [(k, v)]
  {
    if d != [] {
      assert Keys(d) == [d[0].0] + Keys(d[1..]);
      SetAppend(d[1..], k, v);
      assert [d[0]] + (d[1..] + [(k, v)]) == d + [(k, v)];
    }
  }

  /** Dropping the last pair of a dict keeps its keys distinct, and the dropped key is not among the rest. */
  lemma DistinctInit<K, V>(d: Dict<K, V>)
    requires DistinctKeys(d) && d != []
    ensures DistinctKeys(d[..|d| - 1])
    ensures d[|d| - 1].0 !in Keys(d[..|d| - 1])
  {
    var init, k := d[..|d| - 1], d[|d| - 1].0;
    forall i, j | 0 <= i < j < |init|
      ensures init[i].0 != init[j].0
    {
      assert init[i] == d[i] && init[j] == d[j];
    }
    KeysInit(d);
    assert Keys(d)[|d| - 1] == k;
  }

  /** The keys of a dict are the keys of all but its last pair, then the last key. */
  lemma KeysInit<K, V>(d: Dict<K, V>)
    requires d != []
    ensures Keys(d) == Keys(d[..|d| - 1]) + [d[|d| - 1].0]
  {
    var init := d[..|d| - 1];
    var a, b := Keys(d), Keys(init) + [d[|d| - 1].0];
    forall j | 0 <= j < |a|
      ensures a[j] == b[j]
    {
      if j < |init| {
        assert b[j] == Keys(init)[j] == init[j].0;
      }
    }
  }
}
