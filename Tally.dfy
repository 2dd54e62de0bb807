/** The dictionaries of running totals that the reports build
    (`categories`, `monthly_data`): a Python dict keeps its keys in insertion
    order, so a tally is its key order plus the values. */
module Tally {

  datatype Tally = Tally(keys: seq<string>, totals: map<string, real>)

  /** Keys are distinct and are exactly the keys of the value map. */
  ghost predicate Valid(t: Tally) {
    && (forall i, j :: 0 <= i < j < |t.keys| ==> t.keys[i] != t.keys[j])
    && (forall k :: k in t.totals <==> k in t.keys)
  }

  /** `{}` */
  function Empty(): (t: Tally)
    ensures Valid(t)
    ensures t.totals.Keys == {}
  {
    Tally([], map[])
  }

  /** `d.get(k, 0.0)` */
  function Get(t: Tally, k: string): real {
    if k in t.totals then t.totals[k] else 0.0
  }

  /** `d[k] = v`: an existing key keeps its place, a new key goes last. */
  function Put(t: Tally, k: string, v: real): (r: Tally)
    ensures Get(r, k) == v
    ensures forall k' :: k' != k ==> Get(r, k') == Get(t, k')
    ensures r.totals.Keys == t.totals.Keys + {k}
  {
    if k in t.totals then Tally(t.keys, t.totals[k := v])
    else Tally(t.keys + [k], t.totals[k := v])
  }

  /** Storing a value keeps the keys distinct and in step with the map.
      (Stated apart from `Put` so that a caller that does not need it is not
      handed the quantifiers of `Valid`.) */
  lemma PutValid(t: Tally, k: string, v: real)
    requires Valid(t)
    ensures Valid(Put(t, k, v))
    ensures k in t.totals ==> Put(t, k, v).keys == t.keys
    ensures k !in t.totals ==> Put(t, k, v).keys == t.keys + [k]
  {
    if k !in t.totals {
      var keys := t.keys + [k];
      forall i, j | 0 <= i < j < |keys|
        ensures keys[i] != keys[j]
      {
        if j == |t.keys| {
          assert keys[i] == t.keys[i];
        }
      }
    }
  }

  /** `d[k] = d.get(k, 0.0) + a` */
  function Add(t: Tally, k: string, a: real): (r: Tally)
    ensures Get(r, k) == Get(t, k) + a
    ensures forall k' :: k' != k ==> Get(r, k') == Get(t, k')
    ensures r.totals.Keys == t.totals.Keys + {k}
  {
    Put(t, k, Get(t, k) + a)
  }

  /** Adding `a` at one key adds `a` to the sum of the values. */
  lemma TotalAdd(t: Tally, k: string, a: real)
    requires Valid(t)
    ensures Total(Add(t, k, a)) == Total(t) + a
  {
    var v := Get(t, k) + a;
    assert Add(t, k, a) == Put(t, k, v);
    TotalPut(t, k, v);
  }

  /** Adding to a key keeps the keys distinct and in step with the map. */
  lemma AddValid(t: Tally, k: string, a: real)
    requires Valid(t)
    ensures Valid(Add(t, k, a))
  {
    PutValid(t, k, Get(t, k) + a);
  }

  /** `sum(d.values())`, adding the values in key order. */
  function Total(t: Tally): real {
    SumOver(t.keys, t.totals)
  }

  function SumOver(keys: seq<string>, m: map<string, real>): real {
    if keys == [] then 0.0
    else
      var last := keys[|keys| - 1];
      SumOver(keys[..|keys| - 1], m) + (if last in m then m[last] else 0.0)
  }

  /** Values that are all zero add up to zero, whatever the key order. */
  lemma {:induction false} SumOverZeros(keys: seq<string>, m: map<string, real>)
    requires forall k :: k in m ==> m[k] == 0.0
    ensures SumOver(keys, m) == 0.0
  {
    if keys != [] {
      SumOverZeros(keys[..|keys| - 1], m);
    }
  }

  /** A tally whose every key reads zero has a zero sum. */
  lemma TotalOfZeros(t: Tally)
    requires forall k :: Get(t, k) == 0.0
    ensures Total(t) == 0.0
  {
    forall k | k in t.totals
      ensures t.totals[k] == 0.0
    {
      assert Get(t, k) == 0.0;
    }
    SumOverZeros(t.keys, t.totals);
  }

  /** Changing the value of a key that is not listed does not change the sum. */
  lemma {:induction false} SumOverOtherKey(keys: seq<string>, m: map<string, real>, k: string, v: real)
    requires k !in keys
    ensures SumOver(keys, m[k := v]) == SumOver(keys, m)
  {
    if keys != [] {
      SumOverOtherKey(keys[..|keys| - 1], m, k, v);
    }
  }

  /** Changing the value of a listed key moves the sum by the difference. */
  lemma {:induction false} SumOverUpdate(keys: seq<string>, m: map<string, real>, k: string, v: real)
    requires forall i, j :: 0 <= i < j < |keys| ==> keys[i] != keys[j]
    requires k in keys && k in m
    ensures SumOver(keys, m[k := v]) == SumOver(keys, m) - m[k] + v
  {
    var init, last := keys[..|keys| - 1], keys[|keys| - 1];
    if last == k {
      assert k !in init by {
        forall i | 0 <= i < |init| ensures init[i] != k {
          assert init[i] == keys[i];
        }
      }
      SumOverOtherKey(init, m, k, v);
    } else {
      assert k in init by {
        var i :| 0 <= i < |keys| && keys[i] == k;
        assert i < |keys| - 1 && init[i] == k;
      }
      SumOverUpdate(init, m, k, v);
    }
  }

  /** Storing `v` at `k` changes the total by `v` minus the old value at `k`. */
  lemma TotalPut(t: Tally, k: string, v: real)
    requires Valid(t)
    ensures Total(Put(t, k, v)) == Total(t) - Get(t, k) + v
  {
    if k in t.totals {
      SumOverUpdate(t.keys, t.totals, k, v);
    } else {
      var keys := t.keys + [k];
      assert keys[..|keys| - 1] == t.keys;
      SumOverOtherKey(t.keys, t.totals, k, v);
    }
  }
}
