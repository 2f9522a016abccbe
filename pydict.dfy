/**
 * Python's `dict`, as far as the pipeline depends on it: keys keep their
 * insertion order, a key occurs once, and `dict(pairs)` keeps the first
 * position and the last value of a repeated key.
 */
module PyDict {

  datatype Dict<K(==, !new), V> = Dict(keys: seq<K>, values: map<K, V>)
  {
    /** Keys are listed once each, and exactly the keys that have a value. */
    predicate Valid()
    {
      (forall i, j :: 0 <= i < j < |keys| ==> keys[i] != keys[j]) &&
      (forall k :: k in values ==> k in keys) &&
      (forall i :: 0 <= i < |keys| ==> keys[i] in values)
    }

    predicate Has(k: K)
    {
      k in values
    }
  }

  function Empty<K(==, !new), V>(): (d: Dict<K, V>)
    ensures d.Valid() && d.keys == [] && d.values == map[]
  {
    Dict([], map[])
  }

  /** `d[k] = v`: a new key goes to the end, an existing key keeps its place. */
  function Put<K(==, !new), V>(d: Dict<K, V>, k: K, v: V): (r: Dict<K, V>)
    requires d.Valid()
    ensures r.Valid()
    ensures r.values == d.values[k := v]
    ensures r.keys == if k in d.values then d.keys else d.keys + [k]
  {
    if k in d.values then Dict(d.keys, d.values[k := v]) else Dict(d.keys + [k], d.values[k := v])
  }

  function Fsts<K, V>(pairs: seq<(K, V)>): (ks: seq<K>)
    ensures |ks| == |pairs| && forall i :: 0 <= i < |pairs| ==> ks[i] == pairs[i].0
  {
    if pairs == [] then [] else [pairs[0].0] + Fsts(pairs[1..])
  }

  predicate Distinct<K(==, !new)>(ks: seq<K>)
  {
    forall i, j :: 0 <= i < j < |ks| ==> ks[i] != ks[j]
  }

  /** The value a repeated key ends up with: that of its last pair. */
  predicate IsLastFor<K(==, !new), V>(pairs: seq<(K, V)>, i: int)
  {
    0 <= i < |pairs| && forall j :: i < j < |pairs| ==> pairs[j].0 != pairs[i].0
  }

  /** `dict(pairs)`: the pairs are put one after the other. */
  function FromPairs<K(==, !new), V>(pairs: seq<(K, V)>): (d: Dict<K, V>)
    ensures d.Valid()
    ensures forall k :: k in d.values <==> k in Fsts(pairs)
    ensures |d.keys| <= |pairs|
  {
    if pairs == [] then Empty()
    else
      var init := pairs[..|pairs| - 1];
      var p := pairs[|pairs| - 1];
      assert Fsts(pairs) == Fsts(init) + [p.0];
      Put(FromPairs(init), p.0, p.1)
  }

  /** Every pair's key ends up in the dictionary, holding the value of its last pair. */
  lemma {:induction false} FromPairsLast<K(!new), V>(pairs: seq<(K, V)>, i: int)
    requires IsLastFor(pairs, i)
    ensures pairs[i].0 in FromPairs(pairs).values
    ensures FromPairs(pairs).values[pairs[i].0] == pairs[i].1
    decreases |pairs|
  {
    var init := pairs[..|pairs| - 1];
    if i < |pairs| - 1 {
      assert init[i] == pairs[i];
      assert IsLastFor(init, i) by {
        forall j | i < j < |init| ensures init[j].0 != init[i].0 {
          assert init[j] == pairs[j];
        }
      }
      FromPairsLast(init, i);
      assert pairs[|pairs| - 1].0 != pairs[i].0;
    }
  }

  lemma FromPairsLookup<K(!new), V>(pairs: seq<(K, V)>)
    ensures forall i :: IsLastFor(pairs, i) ==>
      pairs[i].0 in FromPairs(pairs).values && FromPairs(pairs).values[pairs[i].0] == pairs[i].1
  {
    forall i | IsLastFor(pairs, i)
      ensures pairs[i].0 in FromPairs(pairs).values && FromPairs(pairs).values[pairs[i].0] == pairs[i].1
    {
      FromPairsLast(pairs, i);
    }
  }

  /** A repeated key makes the dictionary shorter than the list of pairs. */
  lemma {:induction false} KeysBound<K(!new), V>(pairs: seq<(K, V)>, i: int, j: int)
    requires 0 <= i < j < |pairs| && pairs[i].0 == pairs[j].0
    ensures |FromPairs(pairs).keys| < |pairs|
    decreases |pairs|
  {
    var init, last := pairs[..|pairs| - 1], pairs[|pairs| - 1];
    var d := FromPairs(init);
    assert FromPairs(pairs) == Put(d, last.0, last.1);
    if j == |pairs| - 1 {
      assert Fsts(init)[i] == last.0;
      assert last.0 in d.values;
    } else {
      assert init[i] == pairs[i] && init[j] == pairs[j];
      KeysBound(init, i, j);
    }
  }

  /** With distinct keys, `dict(pairs)` lists them in the order of the pairs. */
  lemma {:induction false} FromPairsOrder<K(!new), V>(pairs: seq<(K, V)>)
    requires Distinct(Fsts(pairs))
    ensures FromPairs(pairs).keys == Fsts(pairs)
    decreases |pairs|
  {
    if pairs != [] {
      var init := pairs[..|pairs| - 1];
      var p := pairs[|pairs| - 1];
      assert Fsts(pairs) == Fsts(init) + [p.0];
      assert Distinct(Fsts(init)) by {
        forall i, j | 0 <= i < j < |init| ensures Fsts(init)[i] != Fsts(init)[j] {
          assert Fsts(init)[i] == Fsts(pairs)[i] && Fsts(init)[j] == Fsts(pairs)[j];
        }
      }
      FromPairsOrder(init);
      assert p.0 !in FromPairs(init).values by {
        forall i | 0 <= i < |init| ensures Fsts(init)[i] != p.0 {
          assert Fsts(pairs)[i] != Fsts(pairs)[|pairs| - 1];
        }
      }
    }
  }

  /** Looking a key up in `dict(pairs)` when the keys are distinct. */
  lemma {:induction false} FromDistinctPairs<K(!new), V>(pairs: seq<(K, V)>, i: int)
    requires Distinct(Fsts(pairs)) && 0 <= i < |pairs|
    ensures pairs[i].0 in FromPairs(pairs).values
    ensures FromPairs(pairs).values[pairs[i].0] == pairs[i].1
  {
    assert IsLastFor(pairs, i) by {
      forall j | i < j < |pairs| ensures pairs[j].0 != pairs[i].0 {
        assert Fsts(pairs)[i] == pairs[i].0 && Fsts(pairs)[j] == pairs[j].0;
      }
    }
    FromPairsLast(pairs, i);
  }
}
