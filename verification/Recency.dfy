// Keys ordered by when they were last used, as the caches sort their candidates.
module Recency {
  import opened Collections

  type Key = string

  predicate Distinct(ks: seq<Key>) {
    forall i, j :: 0 <= i < j < |ks| ==> ks[i] != ks[j]
  }

  predicate Sorted(ks: seq<Key>, last: map<Key, int>)
    requires SetOf(ks) <= last.Keys
  {
    forall i, j :: 0 <= i < j < |ks| ==> last[ks[i]] <= last[ks[j]]
  }

  lemma InsertDistinct(ks: seq<Key>, at: nat, k: Key)
    requires Distinct(ks) && at <= |ks| && k !in ks
    ensures Distinct(ks[..at] + [k] + ks[at..]) && SetOf(ks[..at] + [k] + ks[at..]) == SetOf(ks) + {k}
  {
    var r := ks[..at] + [k] + ks[at..];
    assert forall i :: 0 <= i < |r| ==> r[i] == if i < at then ks[i] else if i == at then k else ks[i - 1];
    forall x
      ensures x in r <==> x in ks || x == k
    {
      assert ks == ks[..at] + ks[at..];
    }
  }

  lemma InsertSorted(last: map<Key, int>, ks: seq<Key>, at: nat, k: Key)
    requires SetOf(ks) <= last.Keys && k in last && Sorted(ks, last) && at <= |ks|
    requires at > 0 ==> last[ks[at - 1]] <= last[k]
    requires at < |ks| ==> last[k] <= last[ks[at]]
    ensures SetOf(ks[..at] + [k] + ks[at..]) <= last.Keys && Sorted(ks[..at] + [k] + ks[at..], last)
  {
    var r := ks[..at] + [k] + ks[at..];
    assert forall x :: x in ks ==> x in SetOf(ks);
    forall x | x in r
      ensures x in last
    {
      assert x in ks[..at] || x == k || x in ks[at..];
    }
    forall i, j | 0 <= i < j < |r|
      ensures last[r[i]] <= last[r[j]]
    {
      var a := if i < at then ks[i] else if i == at then k else ks[i - 1];
      var b := if j < at then ks[j] else if j == at then k else ks[j - 1];
      assert r[i] == a && r[j] == b;
    }
  }

  // slices.SortFunc and sort.Slice by last use.
  method SortByLast(last: map<Key, int>, ks: seq<Key>) returns (r: seq<Key>)
    requires SetOf(ks) <= last.Keys && Distinct(ks)
    ensures SetOf(r) == SetOf(ks) && Distinct(r) && Sorted(r, last)
  {
    r := [];
    for n := 0 to |ks|
      invariant SetOf(r) == SetOf(ks[..n]) <= last.Keys
      invariant Distinct(r) && Sorted(r, last)
    {
      var k, i := ks[n], |r|;
      assert ks[..n + 1] == ks[..n] + [k];
      assert k in SetOf(ks);
      while i > 0 && last[k] < last[r[i - 1]]
        invariant 0 <= i <= |r|
        invariant i < |r| ==> last[k] < last[r[i]]
      {
        i := i - 1;
      }
      InsertDistinct(r, i, k);
      InsertSorted(last, r, i, k);
      r := r[..i] + [k] + r[i..];
    }
  }
}
