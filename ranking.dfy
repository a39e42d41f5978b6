/**
 * The "most expensive" lists of app.py: `sorted(items, key=..., reverse=True)[:n]`
 * by line total (top 10, analytics page) and by unit price (top 5,
 * recommendations page). Python's sort is stable also with `reverse=True`:
 * items with equal keys keep their list order. The sort is modelled on the
 * positions of the items, which lets that stability be stated.
 */
module Ranking {
  import opened Ledger

  datatype RankKey = ByLineTotal | ByUnitPrice

  function Key(k: RankKey, it: Item): int
  {
    match k
    case ByLineTotal => LineTotal(it)
    case ByUnitPrice => it.price
  }

  /** Position `i` comes before position `j` in a stable descending sort. */
  predicate Precedes(s: seq<Item>, k: RankKey, i: nat, j: nat)
  {
    i < |s| && j < |s| &&
    (Key(k, s[i]) > Key(k, s[j]) || (Key(k, s[i]) == Key(k, s[j]) && i < j))
  }

  /** Every position of `o` precedes every later one. */
  predicate Ranked(s: seq<Item>, k: RankKey, o: seq<nat>)
  {
    forall p, q :: 0 <= p < q < |o| ==> Precedes(s, k, o[p], o[q])
  }

  /** Insert position `x` before the first position whose key is smaller than its own. */
  function Insert(s: seq<Item>, k: RankKey, o: seq<nat>, x: nat): seq<nat>
    requires x < |s| && forall p :: 0 <= p < |o| ==> o[p] < |s|
  {
    if o == [] then [x]
    else if Key(k, s[o[0]]) < Key(k, s[x]) then [x] + o
    else [o[0]] + Insert(s, k, o[1..], x)
  }

  /** The order in which the sort lists the first `n` positions. */
  function SortPrefix(s: seq<Item>, k: RankKey, n: nat): (o: seq<nat>)
    requires n <= |s|
    ensures |o| == n
    ensures forall p :: 0 <= p < |o| ==> o[p] < n
  {
    if n == 0 then []
    else
      var o := SortPrefix(s, k, n - 1);
      InsertMembers(s, k, o, n - 1);
      var r := Insert(s, k, o, n - 1);
      assert forall p :: 0 <= p < |r| ==> r[p] in r;
      r
  }

  /** The order in which `sorted(s, key, reverse=True)` lists the positions of `s`. */
  function SortOrder(s: seq<Item>, k: RankKey): (o: seq<nat>)
    ensures |o| == |s|
    ensures forall p :: 0 <= p < |o| ==> o[p] < |s|
  {
    SortPrefix(s, k, |s|)
  }

  /** `sorted(s, key, reverse=True)[:n]`. */
  function TopN(s: seq<Item>, k: RankKey, n: nat): (r: seq<Item>)
    ensures |r| == if n < |s| then n else |s|
    ensures forall p :: 0 <= p < |r| ==> r[p] in s
  {
    var o := SortOrder(s, k);
    var m := if n < |s| then n else |s|;
    SortOrderSpec(s, k);
    seq(m, p requires 0 <= p < m => s[o[p]])
  }

  lemma {:induction false} InsertMembers(s: seq<Item>, k: RankKey, o: seq<nat>, x: nat)
    requires x < |s| && forall p :: 0 <= p < |o| ==> o[p] < |s|
    ensures |Insert(s, k, o, x)| == |o| + 1
    ensures forall y :: y in Insert(s, k, o, x) <==> y in o || y == x
  {
    if o != [] && Key(k, s[o[0]]) >= Key(k, s[x]) {
      InsertMembers(s, k, o[1..], x);
      assert o == [o[0]] + o[1..];
    }
  }

  /** Inserting a position later than all the others keeps the order ranked. */
  lemma {:induction false} InsertRanked(s: seq<Item>, k: RankKey, o: seq<nat>, x: nat)
    requires x < |s| && forall p :: 0 <= p < |o| ==> o[p] < x
    requires Ranked(s, k, o)
    ensures Ranked(s, k, Insert(s, k, o, x))
  {
    if o != [] {
      if Key(k, s[o[0]]) < Key(k, s[x]) {
        var r := [x] + o;
        forall p, q | 0 <= p < q < |r| ensures Precedes(s, k, r[p], r[q]) {
          if p == 0 && q > 1 {
            assert Precedes(s, k, o[0], o[q - 1]);
          }
        }
      } else {
        var tail := Insert(s, k, o[1..], x);
        InsertRanked(s, k, o[1..], x);
        InsertMembers(s, k, o[1..], x);
        var r := [o[0]] + tail;
        forall p, q | 0 <= p < q < |r| ensures Precedes(s, k, r[p], r[q]) {
          if p == 0 {
            assert r[q] in tail;
            if r[q] != x {
              var q' :| 0 <= q' < |o[1..]| && o[1..][q'] == r[q];
              assert Precedes(s, k, o[0], o[q' + 1]);
            }
          } else {
            assert r[p] == tail[p - 1] && r[q] == tail[q - 1];
          }
        }
      }
    }
  }

  /** The items at the positions `o` that lie within `s`, in that order. */
  function Gather(s: seq<Item>, o: seq<nat>): seq<Item>
  {
    if o == [] then []
    else (if o[0] < |s| then [s[o[0]]] else []) + Gather(s, o[1..])
  }

  /** At valid positions, gathering lists the item at each position. */
  lemma {:induction false} GatherAt(s: seq<Item>, o: seq<nat>)
    requires forall p :: 0 <= p < |o| ==> o[p] < |s|
    ensures |Gather(s, o)| == |o|
    ensures forall p :: 0 <= p < |o| ==> Gather(s, o)[p] == s[o[p]]
  {
    if o != [] {
      GatherAt(s, o[1..]);
    }
  }

  /** Gathering distributes over concatenation of the positions. */
  lemma {:induction false} GatherAppend(s: seq<Item>, o: seq<nat>, o': seq<nat>)
    ensures Gather(s, o + o') == Gather(s, o) + Gather(s, o')
  {
    if o == [] {
      assert o + o' == o';
    } else {
      var c := o + o';
      var h := if o[0] < |s| then [s[o[0]]] else [];
      GatherAppend(s, o[1..], o');
      assert c[0] == o[0] && c[1..] == o[1..] + o';
      assert Gather(s, c) == h + Gather(s, c[1..]);
      assert Gather(s, o) == h + Gather(s, o[1..]);
    }
  }

  /** Inserting a position adds exactly its item to the gathered items. */
  lemma {:induction false} GatherInsert(s: seq<Item>, k: RankKey, o: seq<nat>, x: nat)
    requires x < |s| && forall p :: 0 <= p < |o| ==> o[p] < |s|
    ensures multiset(Gather(s, Insert(s, k, o, x))) == multiset(Gather(s, o)) + multiset{s[x]}
  {
    if o == [] {
      assert Insert(s, k, o, x) == [x];
      assert Gather(s, [x]) == [s[x]];
    } else if Key(k, s[o[0]]) < Key(k, s[x]) {
      assert Insert(s, k, o, x) == [x] + o;
      assert Gather(s, [x] + o) == [s[x]] + Gather(s, o);
    } else {
      var tail := Insert(s, k, o[1..], x);
      GatherInsert(s, k, o[1..], x);
      assert Insert(s, k, o, x) == [o[0]] + tail;
      assert Gather(s, [o[0]] + tail) == [s[o[0]]] + Gather(s, tail);
      assert Gather(s, o) == [s[o[0]]] + Gather(s, o[1..]);
    }
  }

  lemma PrefixSnoc(s: seq<Item>, n: nat)
    requires 0 < n <= |s|
    ensures multiset(s[..n]) == multiset(s[..n - 1]) + multiset{s[n - 1]}
  {
    assert s[..n] == s[..n - 1] + [s[n - 1]];
  }

  /** Sorting one more position adds exactly that position's item. */
  lemma SortPrefixStep(s: seq<Item>, k: RankKey, n: nat)
    requires 0 < n <= |s|
    ensures multiset(Gather(s, SortPrefix(s, k, n))) == multiset(Gather(s, SortPrefix(s, k, n - 1))) + multiset{s[n - 1]}
  {
    var o := SortPrefix(s, k, n - 1);
    var r := Insert(s, k, o, n - 1);
    assert SortPrefix(s, k, n) == r;
    GatherInsert(s, k, o, n - 1);
    assert multiset(Gather(s, r)) == multiset(Gather(s, o)) + multiset{s[n - 1]};
  }

  /** Sorting the first `n` positions lists exactly the first `n` items, with multiplicity. */
  lemma {:induction false} SortPrefixPermutes(s: seq<Item>, k: RankKey, n: nat)
    requires n <= |s|
    ensures multiset(Gather(s, SortPrefix(s, k, n))) == multiset(s[..n])
  {
    if n == 0 {
      assert s[..n] == [];
    } else {
      SortPrefixPermutes(s, k, n - 1);
      SortPrefixStep(s, k, n);
      PrefixSnoc(s, n);
    }
  }

  /** `sorted(s, key, reverse=True)` is a permutation of `s`. */
  lemma SortedPermutes(s: seq<Item>, k: RankKey)
    ensures multiset(Gather(s, SortOrder(s, k))) == multiset(s)
  {
    SortPrefixPermutes(s, k, |s|);
    assert s[..|s|] == s;
  }

  /** The top-n list is the gathered first `m` positions of the sort order. */
  lemma TopNGathered(s: seq<Item>, k: RankKey, n: nat)
    ensures multiset(TopN(s, k, n)) <= multiset(s)
  {
    var o, r := SortOrder(s, k), TopN(s, k, n);
    var m := |r|;
    GatherAt(s, o[..m]);
    assert r == Gather(s, o[..m]);
    GatherAppend(s, o[..m], o[m..]);
    assert o == o[..m] + o[m..];
    SortedPermutes(s, k);
  }

  lemma {:induction false} SortPrefixSpec(s: seq<Item>, k: RankKey, n: nat)
    requires n <= |s|
    ensures |SortPrefix(s, k, n)| == n
    ensures forall i :: i in SortPrefix(s, k, n) <==> 0 <= i < n
    ensures Ranked(s, k, SortPrefix(s, k, n))
  {
    if n > 0 {
      var o := SortPrefix(s, k, n - 1);
      SortPrefixSpec(s, k, n - 1);
      assert SortPrefix(s, k, n) == Insert(s, k, o, n - 1);
      InsertMembers(s, k, o, n - 1);
      InsertRanked(s, k, o, n - 1);
    }
  }

  /**
   * The sort lists every position exactly once, larger keys first and equal
   * keys in list order: the one order a stable descending sort can produce.
   */
  lemma SortOrderSpec(s: seq<Item>, k: RankKey)
    ensures |SortOrder(s, k)| == |s|
    ensures forall i :: i in SortOrder(s, k) <==> 0 <= i < |s|
    ensures Ranked(s, k, SortOrder(s, k))
  {
    SortPrefixSpec(s, k, |s|);
  }

  /**
   * The top-n list: at most n items, taken from `s` (each no more often than
   * it occurs there), by non-increasing key,
   * and no item left out has a larger key than an item kept.
   */
  lemma TopNSpec(s: seq<Item>, k: RankKey, n: nat)
    ensures |TopN(s, k, n)| == if n < |s| then n else |s|
    ensures forall p :: 0 <= p < |TopN(s, k, n)| ==> TopN(s, k, n)[p] in s
    ensures multiset(TopN(s, k, n)) <= multiset(s)
    ensures forall p, q :: 0 <= p < q < |TopN(s, k, n)| ==> Key(k, TopN(s, k, n)[p]) >= Key(k, TopN(s, k, n)[q])
    ensures forall i, p :: 0 <= i < |s| && 0 <= p < |TopN(s, k, n)| && s[i] !in TopN(s, k, n) ==>
      Key(k, TopN(s, k, n)[p]) >= Key(k, s[i])
  {
    var o, r := SortOrder(s, k), TopN(s, k, n);
    SortOrderSpec(s, k);
    assert forall p :: 0 <= p < |r| ==> r[p] == s[o[p]];
    TopNGathered(s, k, n);
    forall p | 0 <= p < |r| ensures r[p] in s {
      assert o[p] in o;
    }
    forall p, q | 0 <= p < q < |r| ensures Key(k, r[p]) >= Key(k, r[q]) {
      assert Precedes(s, k, o[p], o[q]);
    }
    forall i, p | 0 <= i < |s| && 0 <= p < |r| && s[i] !in r
      ensures Key(k, r[p]) >= Key(k, s[i])
    {
      assert i in o;
      var q :| 0 <= q < |o| && o[q] == i;
      assert Precedes(s, k, o[p], o[q]);
    }
  }
}
