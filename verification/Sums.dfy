// Sums of sizes over finite sets, shared by the bounded caches.
module Sums {

  ghost function Sum<K>(size: map<K, nat>, ks: set<K>): nat
    requires ks <= size.Keys
  {
    if ks == {} then 0 else
      var k :| k in ks;
      size[k] + Sum(size, ks - {k})
  }

  lemma {:induction false} SumWithout<K>(size: map<K, nat>, ks: set<K>, k: K)
    requires k in ks && ks <= size.Keys
    ensures Sum(size, ks) == size[k] + Sum(size, ks - {k})
    decreases ks
  {
    var q :| q in ks && Sum(size, ks) == size[q] + Sum(size, ks - {q});
    if q != k {
      SumWithout(size, ks - {q}, k);
      SumWithout(size, ks - {k}, q);
      assert ks - {q} - {k} == ks - {k} - {q};
    }
  }

  lemma SumWith<K>(size: map<K, nat>, ks: set<K>, k: K)
    requires k !in ks && ks <= size.Keys && k in size
    ensures Sum(size, ks + {k}) == Sum(size, ks) + size[k]
  {
    SumWithout(size, ks + {k}, k);
    assert ks + {k} - {k} == ks;
  }

  lemma {:induction false} SumSplit<K>(size: map<K, nat>, ks: set<K>, part: set<K>)
    requires part <= ks <= size.Keys
    ensures Sum(size, ks) == Sum(size, part) + Sum(size, ks - part)
    decreases part
  {
    if part == {} {
      assert ks - part == ks;
    } else {
      var k :| k in part;
      SumSplit(size, ks - {k}, part - {k});
      SumWithout(size, ks, k);
      SumWithout(size, part, k);
      assert ks - {k} - (part - {k}) == ks - part;
    }
  }

  // Only the sizes of the summed keys matter.
  lemma {:induction false} SumSame<K>(size: map<K, nat>, other: map<K, nat>, ks: set<K>)
    requires ks <= size.Keys && ks <= other.Keys && forall k :: k in ks ==> size[k] == other[k]
    ensures Sum(size, ks) == Sum(other, ks)
    decreases ks
  {
    if ks != {} {
      var k :| k in ks;
      SumSame(size, other, ks - {k});
      SumWithout(size, ks, k);
      SumWithout(other, ks, k);
    }
  }
}
