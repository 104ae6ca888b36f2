// Insertion-ordered dictionaries, as Python's `dict` keeps them: a key keeps
// its position when its value is replaced and goes to the end when new.
module OrderedDicts {
  datatype Dict<K(==,!new), V> = Dict(keys: seq<K>, vals: map<K, V>)
  {
    /** Keys are listed once each, and exactly the keys of the map. */
    ghost predicate Valid()
    {
      (forall i, j :: 0 <= i < j < |keys| ==> keys[i] != keys[j]) &&
      (forall k :: k in vals <==> k in keys)
    }

    predicate Has(k: K) { k in vals }

    /** `d.get(k, default)`. */
    function GetOr(k: K, default: V): V
    {
      if k in vals then vals[k] else default
    }

    /** `d[k] = v`. */
    function Put(k: K, v: V): (d: Dict<K, V>)
      requires Valid()
      ensures d.Valid()
      ensures d.vals == vals[k := v]
      ensures k in vals ==> d.keys == keys
      ensures k !in vals ==> d.keys == keys + [k]
    {
      if k in vals then Dict(keys, vals[k := v]) else Dict(keys + [k], vals[k := v])
    }

    /** `d.update(other)`: the other's entries are put in its key order. */
    function Update(other: Dict<K, V>): (d: Dict<K, V>)
      requires Valid() && other.Valid()
      ensures d.Valid()
      ensures forall k :: k in d.vals <==> k in vals || k in other.vals
      ensures forall k :: k in vals && k !in other.vals ==> d.vals[k] == vals[k]
      ensures forall k :: k in other.vals ==> d.vals[k] == other.vals[k]
      ensures |keys| <= |d.keys| && d.keys[..|keys|] == keys
      ensures (forall k :: k in other.vals ==> k in vals) ==> d.keys == keys
    {
      PutAll(other.keys, other.vals)
    }

    function PutAll(ks: seq<K>, m: map<K, V>): (d: Dict<K, V>)
      requires Valid()
      ensures d.Valid()
      ensures forall k :: k in d.vals <==> k in vals || (k in ks && k in m)
      ensures forall k :: k in vals && k !in ks ==> d.vals[k] == vals[k]
      ensures forall k :: k in ks && k in m ==> d.vals[k] == m[k]
      ensures |keys| <= |d.keys| && d.keys[..|keys|] == keys
      ensures (forall k :: k in ks && k in m ==> k in vals) ==> d.keys == keys
      decreases |ks|
    {
      if |ks| == 0 then this
      else
        var first := if ks[0] in m then Put(ks[0], m[ks[0]]) else this;
        var d := first.PutAll(ks[1..], m);
        assert forall k :: k in ks <==> k == ks[0] || k in ks[1..];
        assert d.keys[..|keys|] == first.keys[..|keys|];
        d
    }

    /** `del d[k]` when the key is present. */
    function Remove(k: K): (d: Dict<K, V>)
      requires Valid()
      ensures d.Valid()
      ensures d.vals == vals - {k}
      ensures forall i :: 0 <= i < |d.keys| ==> d.keys[i] in keys
      ensures d.keys == Without(keys, k)
    {
      var ks := Without(keys, k);
      Dict(ks, vals - {k})
    }
  }

  function Empty<K(==,!new), V>(): (d: Dict<K, V>)
    ensures d.Valid() && d.keys == [] && d.vals == map[]
  {
    Dict([], map[])
  }

  /** `d.update(o)` a second time changes nothing. */
  lemma UpdateIdempotent<K(!new), V>(d: Dict<K, V>, o: Dict<K, V>)
    requires d.Valid() && o.Valid()
    ensures d.Update(o).Update(o) == d.Update(o)
  {
    var y := d.Update(o);
    assert y.Update(o).keys == y.keys;
    UpdateIdempotentVals(d, o);
  }

  lemma UpdateIdempotentVals<K(!new), V>(d: Dict<K, V>, o: Dict<K, V>)
    requires d.Valid() && o.Valid()
    ensures d.Update(o).Update(o).vals == d.Update(o).vals
  {
    var y := d.Update(o);
    var z := y.Update(o);
    forall k
      ensures (k in z.vals <==> k in y.vals) && (k in z.vals ==> z.vals[k] == y.vals[k])
    {
    }
    MapsEqual(z.vals, y.vals);
  }

  lemma MapsEqual<K(!new), V>(m: map<K, V>, n: map<K, V>)
    requires forall k :: (k in m <==> k in n) && (k in m ==> m[k] == n[k])
    ensures m == n
  {
  }

  /** A dictionary display `{k1: v1, k2: v2, ...}`. */
  function FromPairs<K(==,!new), V>(pairs: seq<(K, V)>): (d: Dict<K, V>)
    ensures d.Valid()
    ensures forall i :: 0 <= i < |pairs| ==> pairs[i].0 in d.vals
    ensures forall k :: k in d.vals ==> exists i :: 0 <= i < |pairs| && pairs[i].0 == k
  {
    if |pairs| == 0 then Empty()
    else FromPairs(pairs[..|pairs| - 1]).Put(pairs[|pairs| - 1].0, pairs[|pairs| - 1].1)
  }

  /** In a display, a key that is not repeated later has the value given with it. */
  lemma {:induction false} FromPairsValue<K(!new), V>(pairs: seq<(K, V)>, i: nat)
    requires i < |pairs|
    requires forall j :: i < j < |pairs| ==> pairs[j].0 != pairs[i].0
    ensures pairs[i].0 in FromPairs(pairs).vals && FromPairs(pairs).vals[pairs[i].0] == pairs[i].1
  {
    if i < |pairs| - 1 {
      FromPairsValue(pairs[..|pairs| - 1], i);
    }
  }

  /** In a display where every entry for a key gives the same value, the key
    * has that value. */
  lemma {:induction false} FromPairsUniform<K(!new), V>(pairs: seq<(K, V)>, k: K, v: V)
    requires exists j :: 0 <= j < |pairs| && pairs[j].0 == k
    requires forall j :: 0 <= j < |pairs| && pairs[j].0 == k ==> pairs[j].1 == v
    ensures k in FromPairs(pairs).vals && FromPairs(pairs).vals[k] == v
  {
    var last := pairs[|pairs| - 1];
    if last.0 != k {
      var j :| 0 <= j < |pairs| && pairs[j].0 == k;
      assert pairs[..|pairs| - 1][j].0 == k;
      FromPairsUniform(pairs[..|pairs| - 1], k, v);
    }
  }

  /** The sequence with every occurrence of `k` removed, order kept. */
  function Without<K(==,!new)>(s: seq<K>, k: K): (r: seq<K>)
    ensures forall x :: x in r <==> x in s && x != k
    ensures (forall i, j :: 0 <= i < j < |s| ==> s[i] != s[j]) ==>
            (forall i, j :: 0 <= i < j < |r| ==> r[i] != r[j])
  {
    if |s| == 0 then []
    else if s[0] == k then Without(s[1..], k)
    else
      var rest := Without(s[1..], k);
      assert (forall i, j :: 0 <= i < j < |s| ==> s[i] != s[j]) ==> s[0] !in s[1..];
      [s[0]] + rest
  }

  /** Removing a key works piece by piece: the other keys keep their order. */
  lemma {:induction false} WithoutAppend<K(!new)>(a: seq<K>, b: seq<K>, k: K)
    ensures Without(a + b, k) == Without(a, k) + Without(b, k)
  {
    if |a| > 0 {
      assert (a + b)[1..] == a[1..] + b;
      WithoutAppend(a[1..], b, k);
    } else {
      assert a + b == b;
    }
  }

  /** Removing a key that is not there changes nothing. */
  lemma {:induction false} WithoutAbsent<K(!new)>(s: seq<K>, k: K)
    requires k !in s
    ensures Without(s, k) == s
  {
    if |s| > 0 {
      WithoutAbsent(s[1..], k);
      assert [s[0]] + s[1..] == s;
    }
  }

  /** Python's `collections.Counter(xs)`: each value with its number of
    * occurrences, in first-occurrence order. */
  function Counter<K(==,!new)>(xs: seq<K>): (c: Dict<K, nat>)
    ensures c.Valid()
    ensures forall x :: x in c.vals <==> x in xs
  {
    if |xs| == 0 then Empty()
    else
      var c := Counter(xs[..|xs| - 1]);
      var x := xs[|xs| - 1];
      assert forall y :: y in xs <==> y in xs[..|xs| - 1] || y == x;
      c.Put(x, c.GetOr(x, 0) + 1)
  }

  function Occurrences<K(==,!new)>(xs: seq<K>, x: K): nat
  {
    if |xs| == 0 then 0
    else Occurrences(xs[..|xs| - 1], x) + (if xs[|xs| - 1] == x then 1 else 0)
  }

  /** Every count is the number of occurrences of its value. */
  lemma {:induction false} CounterCounts<K(!new)>(xs: seq<K>, x: K)
    requires x in xs
    ensures Counter(xs).vals[x] == Occurrences(xs, x)
  {
    var init := xs[..|xs| - 1];
    if x in init {
      CounterCounts(init, x);
    } else {
      OccurrencesAbsent(init, x);
    }
  }

  lemma {:induction false} OccurrencesAbsent<K(!new)>(xs: seq<K>, x: K)
    requires x !in xs
    ensures Occurrences(xs, x) == 0
  {
    if |xs| > 0 {
      OccurrencesAbsent(xs[..|xs| - 1], x);
    }
  }

  /** The sum of the values at the listed keys. */
  function SumAt<K(==,!new)>(ks: seq<K>, m: map<K, nat>): nat
    requires forall k :: k in ks ==> k in m
  {
    if |ks| == 0 then 0 else SumAt(ks[..|ks| - 1], m) + m[ks[|ks| - 1]]
  }

  lemma {:induction false} SumAtOtherKey<K(!new)>(ks: seq<K>, m: map<K, nat>, k: K, v: nat)
    requires forall x :: x in ks ==> x in m
    requires k !in ks
    ensures SumAt(ks, m[k := v]) == SumAt(ks, m)
  {
    if |ks| > 0 {
      SumAtOtherKey(ks[..|ks| - 1], m, k, v);
    }
  }

  lemma {:induction false} SumAtChangedKey<K(!new)>(ks: seq<K>, m: map<K, nat>, k: K, v: nat)
    requires forall x :: x in ks ==> x in m
    requires forall i, j :: 0 <= i < j < |ks| ==> ks[i] != ks[j]
    requires k in ks
    ensures SumAt(ks, m[k := v]) + m[k] == SumAt(ks, m) + v
  {
    var init := ks[..|ks| - 1];
    if ks[|ks| - 1] == k {
      assert k !in init;
      SumAtOtherKey(init, m, k, v);
    } else {
      SumAtChangedKey(init, m, k, v);
    }
  }

  /** The counts of a Counter add up to the number of counted values. */
  lemma {:induction false} CounterTotal<K(!new)>(xs: seq<K>)
    ensures SumAt(Counter(xs).keys, Counter(xs).vals) == |xs|
  {
    if |xs| > 0 {
      var init := xs[..|xs| - 1];
      var x := xs[|xs| - 1];
      var c := Counter(init);
      CounterTotal(init);
      var n := c.GetOr(x, 0) + 1;
      assert Counter(xs) == c.Put(x, n);
      if x in c.vals {
        SumAtChangedKey(c.keys, c.vals, x, n);
      } else {
        var ks := c.keys + [x];
        assert ks[..|ks| - 1] == c.keys;
        SumAtOtherKey(c.keys, c.vals, x, n);
        assert SumAt(ks, c.vals[x := n]) == SumAt(c.keys, c.vals[x := n]) + n;
      }
    }
  }
}
