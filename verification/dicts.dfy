/**
  Python's insertion-ordered `dict` from category name to amount, the way the
  budget script uses it: a literal, `d[k] = v`, `d.get(k, default)`,
  `d.values()` and `sum(d.values())`.
 */
module Dicts {

  /** `keys` is the insertion order, `vals` the mapping itself. */
  datatype Dict = Dict(keys: seq<string>, vals: map<string, real>) {

    /** Every key occurs once in the order, and the order lists exactly the mapped keys. */
    ghost predicate Valid() {
      && (forall i, j :: 0 <= i < j < |keys| ==> keys[i] != keys[j])
      && (forall k :: k in vals <==> k in keys)
    }

    /**
      `d[k] = v`: an existing key keeps its position and gets the new value,
      a new key is appended at the end of the order.
     */
    function Put(k: string, v: real): (d: Dict)
      requires Valid()
      ensures d.Valid()
      ensures d.vals.Keys == vals.Keys + {k}
      ensures d.vals[k] == v
      ensures forall j :: j in vals && j != k ==> d.vals[j] == vals[j]
      ensures |keys| <= |d.keys| && d.keys[..|keys|] == keys
      ensures k in vals ==> d.keys == keys
      ensures k !in vals ==> d.keys == keys + [k]
    {
      if k in vals then Dict(keys, vals[k := v]) else Dict(keys + [k], vals[k := v])
    }

    /** `d.get(k, default)` */
    function Get(k: string, default: real): real {
      if k in vals then vals[k] else default
    }

    /** `d.values()`, in insertion order. */
    function Values(): seq<real>
      requires Valid()
    {
      seq(|keys|, i requires 0 <= i < |keys| => vals[keys[i]])
    }

    /** `sum(d.values())` */
    function Total(): real
      requires Valid()
    {
      Sum(Values())
    }
  }

  /** Python's `sum`: start at 0 and add left to right. */
  function Sum(s: seq<real>): real {
    if |s| == 0 then 0.0 else Sum(s[..|s| - 1]) + s[|s| - 1]
  }

  /** A sum of non-negative amounts is non-negative. */
  lemma {:induction false} SumNonNegative(s: seq<real>)
    requires forall i :: 0 <= i < |s| ==> s[i] >= 0.0
    ensures Sum(s) >= 0.0
  {
    if |s| > 0 {
      SumNonNegative(s[..|s| - 1]);
    }
  }

  /** Summing element-wise differences is the difference of the sums. */
  lemma {:induction false} SumOfDifferences(a: seq<real>, b: seq<real>, d: seq<real>)
    requires |a| == |b| == |d|
    requires forall i :: 0 <= i < |d| ==> d[i] == a[i] - b[i]
    ensures Sum(d) == Sum(a) - Sum(b)
  {
    if |d| > 0 {
      var n := |d| - 1;
      SumOfDifferences(a[..n], b[..n], d[..n]);
    }
  }

  /** Replacing one element changes the sum by the difference. */
  lemma {:induction false} SumUpdate(s: seq<real>, i: nat, x: real)
    requires i < |s|
    ensures Sum(s[i := x]) == Sum(s) - s[i] + x
  {
    var n := |s| - 1;
    if i < n {
      assert s[i := x][..n] == s[..n][i := x];
      SumUpdate(s[..n], i, x);
    } else {
      assert s[i := x][..n] == s[..n];
    }
  }

  /** `d[k] = v` for a new key appends `v` to `d.values()` and adds it to the total. */
  lemma PutNewKey(d: Dict, k: string, v: real)
    requires d.Valid() && k !in d.vals
    ensures d.Put(k, v).Values() == d.Values() + [v]
    ensures d.Put(k, v).Total() == d.Total() + v
  {
  }

  /**
    `d[k] = v` for a key already at position `i` replaces that one value in
    place, and the total changes by the new value minus the old one.
   */
  lemma PutExistingKey(d: Dict, k: string, v: real, i: nat)
    requires d.Valid() && i < |d.keys| && d.keys[i] == k
    ensures d.Put(k, v).Values() == d.Values()[i := v]
    ensures d.Put(k, v).Total() == d.Total() - d.vals[k] + v
  {
    SumUpdate(d.Values(), i, v);
  }

  /** A dict whose values are all non-negative has a non-negative total. */
  lemma TotalNonNegative(d: Dict)
    requires d.Valid()
    requires forall k :: k in d.vals ==> d.vals[k] >= 0.0
    ensures d.Total() >= 0.0
  {
    SumNonNegative(d.Values());
  }
}
