/**
 * Python dictionaries keyed by strings with integer values, as the rollups
 * of app.py build them. A dictionary keeps its keys in insertion order, which
 * `max(d, key=d.get)` observes, so it is modelled as a list of slots.
 */
module Assoc {

  datatype Slot = Slot(key: string, val: int)

  type Dict = seq<Slot>

  /** The keys in iteration order. */
  function Keys(d: Dict): (ks: seq<string>)
    ensures |ks| == |d|
    ensures forall i :: 0 <= i < |d| ==> ks[i] == d[i].key
  {
    seq(|d|, i requires 0 <= i < |d| => d[i].key)
  }

  /** No key occurs in two slots, as in every real dictionary. */
  predicate DistinctKeys(d: Dict)
  {
    forall i, j :: 0 <= i < j < |d| ==> d[i].key != d[j].key
  }

  /** The slot that holds `k`, or -1: the first one, which is the only one when keys are distinct. */
  function Find(d: Dict, k: string): (i: int)
    ensures -1 <= i < |d|
    ensures i >= 0 ==> d[i].key == k && forall j :: 0 <= j < i ==> d[j].key != k
    ensures i < 0 <==> k !in Keys(d)
  {
    if d == [] then -1
    else if d[0].key == k then 0
    else
      var r := Find(d[1..], k);
      assert Keys(d[1..]) == Keys(d)[1..];
      if r < 0 then -1 else r + 1
  }

  /** `d.get(k, default)`. */
  function Get(d: Dict, k: string, default: int): (v: int)
    ensures k !in Keys(d) ==> v == default
    ensures k in Keys(d) ==> exists i :: 0 <= i < |d| && d[i].key == k && v == d[i].val
  {
    var i := Find(d, k);
    if i < 0 then default else d[i].val
  }

  /** `d[k] = v`: overwrite the value of an existing key in place, or add the key at the end. */
  function Put(d: Dict, k: string, v: int): (r: Dict)
    ensures Keys(r) == if k in Keys(d) then Keys(d) else Keys(d) + [k]
    ensures DistinctKeys(d) ==> DistinctKeys(r)
  {
    var i := Find(d, k);
    if i >= 0 then
      var r := d[i := Slot(k, v)];
      assert Keys(r) == Keys(d);
      r
    else
      var r := d + [Slot(k, v)];
      assert Keys(r) == Keys(d) + [k];
      r
  }

  /** After `d[k] = v`, `k` maps to `v` and every other key keeps its value. */
  lemma GetPut(d: Dict, k: string, v: int, k': string, x: int)
    ensures Get(Put(d, k, v), k', x) == if k' == k then v else Get(d, k', x)
  {
    var r := Put(d, k, v);
    var i := Find(d, k);
    if k' != k {
      FindUnchanged(d, r, k');
    } else if i >= 0 {
      assert Find(r, k) == i;
    } else {
      assert Find(r, k) == |d|;
    }
  }

  /** `d[k] = d.get(k, 0) + a`: the accumulation step of every rollup in app.py. */
  function Bump(d: Dict, k: string, a: int): (r: Dict)
    ensures Keys(r) == if k in Keys(d) then Keys(d) else Keys(d) + [k]
    ensures DistinctKeys(d) ==> DistinctKeys(r)
  {
    Put(d, k, Get(d, k, 0) + a)
  }

  /** After `d[k] = d.get(k, 0) + a`, `k` holds `a` more than before and every other key is unchanged. */
  lemma GetBump(d: Dict, k: string, a: int, k': string, x: int)
    ensures Get(Bump(d, k, a), k', x) == if k' == k then Get(d, k, 0) + a else Get(d, k', x)
  {
    var v := Get(d, k, 0) + a;
    assert Bump(d, k, a) == Put(d, k, v);
    GetPut(d, k, v, k', x);
  }

  /** After `d[k] = ...`, the keys are the old ones and `k`. */
  lemma KeysOfBump(d: Dict, k: string, a: int, k': string)
    ensures k' in Keys(Bump(d, k, a)) <==> k' in Keys(d) || k' == k
  {
  }

  /** Slot by slot: the old slots keep their keys, and a slot past them holds the new key. */
  lemma BumpKeyAt(d: Dict, k: string, a: int, p: nat)
    requires p < |Bump(d, k, a)|
    ensures p < |d| ==> Bump(d, k, a)[p].key == d[p].key
    ensures p >= |d| ==> p == |d| && k !in Keys(d) && Bump(d, k, a)[p].key == k
  {
    var r := Bump(d, k, a);
    assert Keys(r)[p] == r[p].key;
    if p < |d| {
      assert Keys(d)[p] == d[p].key;
    }
  }

  /** `sum(d.values())`. */
  function Sum(d: Dict): int
  {
    if d == [] then 0 else d[0].val + Sum(d[1..])
  }

  /** Two dictionaries whose slots agree up to a key's first slot agree on where that key is. */
  lemma {:induction false} FindUnchanged(d: Dict, r: Dict, k: string)
    requires |d| <= |r|
    requires forall j :: 0 <= j < |d| ==> (d[j].key == k <==> r[j].key == k)
    requires Find(d, k) < 0 ==> |d| < |r| ==> r[|d|].key != k
    requires Find(d, k) < 0 ==> forall j :: |d| < j < |r| ==> r[j].key != k
    ensures Find(r, k) == Find(d, k)
  {
    if d != [] && d[0].key != k {
      FindUnchanged(d[1..], r[1..], k);
    } else if d == [] && r != [] {
      assert r[0].key != k;
      FindUnchanged(d, r[1..], k);
    }
  }

  lemma {:induction false} SumUpdate(d: Dict, i: nat, s: Slot)
    requires i < |d|
    ensures Sum(d[i := s]) == Sum(d) - d[i].val + s.val
  {
    if i > 0 {
      SumUpdate(d[1..], i - 1, s);
      assert d[i := s][1..] == d[1..][i - 1 := s];
    }
  }

  lemma {:induction false} SumAppend(d: Dict, s: Slot)
    ensures Sum(d + [s]) == Sum(d) + s.val
  {
    if d != [] {
      SumAppend(d[1..], s);
      assert (d + [s])[1..] == d[1..] + [s];
    }
  }

  /** `d[k] = d.get(k, 0) + a` grows the sum of the values by exactly `a`. */
  lemma BumpSum(d: Dict, k: string, a: int)
    ensures Sum(Bump(d, k, a)) == Sum(d) + a
  {
    var i := Find(d, k);
    if i >= 0 {
      SumUpdate(d, i, Slot(k, Get(d, k, 0) + a));
    } else {
      SumAppend(d, Slot(k, a));
    }
  }
}
