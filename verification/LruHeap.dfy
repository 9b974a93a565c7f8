// The eviction order of internal/engine/memstorage.go: a min-heap of pieces,
// ordered by memPiece.key, that knows every piece's own position (lruIdx).
module LruHeap {

  type PieceId = nat

  datatype Entry = Entry(piece: PieceId, key: int)

  function Parent(i: nat): nat
    requires i > 0
  {
    (i - 1) / 2
  }

  // Heap order among the first n keys.
  ghost predicate Ordered(es: seq<Entry>, n: nat)
    requires n <= |es|
  {
    forall i {:trigger Parent(i)} :: 0 < i < n ==> es[Parent(i)].key <= es[i].key
  }

  // The children of position i respect the parent of i.
  ghost predicate Bridged(es: seq<Entry>, n: nat, i: nat)
    requires n <= |es| && i <= n
  {
    i > 0 ==> forall c {:trigger Parent(c)} :: i < c < n && Parent(c) == i ==> es[Parent(i)].key <= es[c].key
  }

  // Heap order except that position j may be smaller than its parent.
  ghost predicate OrderedButAt(es: seq<Entry>, n: nat, j: nat)
    requires n <= |es| && j <= n
  {
    && (forall i {:trigger Parent(i)} :: 0 < i < n && i != j ==> es[Parent(i)].key <= es[i].key)
    && Bridged(es, n, j)
  }

  // Heap order except that position j may exceed its children.
  ghost predicate OrderedButUnder(es: seq<Entry>, n: nat, j: nat)
    requires n <= |es| && j <= n
  {
    && (forall i {:trigger Parent(i)} :: 0 < i < n && Parent(i) != j ==> es[Parent(i)].key <= es[i].key)
    && Bridged(es, n, j)
  }

  // Heap order except that position j fits neither its parent nor its children.
  ghost predicate OrderedAround(es: seq<Entry>, n: nat, j: nat)
    requires n <= |es| && j <= n
  {
    && (forall i {:trigger Parent(i)} :: 0 < i < n && i != j && Parent(i) != j ==> es[Parent(i)].key <= es[i].key)
    && Bridged(es, n, j)
  }

  function Swapped<T>(s: seq<T>, i: nat, j: nat): seq<T>
    requires i < |s| && j < |s|
  {
    s[i := s[j]][j := s[i]]
  }

  // The top of a heap is its minimum.
  lemma {:induction false} TopIsLeast(es: seq<Entry>, i: nat)
    requires i < |es| && Ordered(es, |es|)
    ensures es[0].key <= es[i].key
  {
    if i > 0 {
      TopIsLeast(es, Parent(i));
    }
  }

  // Sift-up from position j.
  function SiftUp(es: seq<Entry>, j: nat): (r: seq<Entry>)
    requires j < |es|
    ensures |r| == |es| && r[j + 1..] == es[j + 1..]
    decreases j
  {
    if j > 0 && es[j].key < es[Parent(j)].key then
      var up := Swapped(es, Parent(j), j);
      SiftUp(up, Parent(j))
    else es
  }

  lemma {:induction false} UpRestores(es: seq<Entry>, n: nat, j: nat)
    requires j < n <= |es| && OrderedButAt(es, n, j)
    ensures Ordered(SiftUp(es, j), n)
    decreases j
  {
    if j > 0 && es[j].key < es[Parent(j)].key {
      if Parent(j) > 0 {
        assert es[Parent(Parent(j))].key <= es[Parent(j)].key;
      }
      UpRestores(Swapped(es, Parent(j), j), n, Parent(j));
    }
  }

  // Where one turn of sift-down goes: the smaller child of i, or i to stop.
  function Sink(es: seq<Entry>, n: nat, i: nat): (j: nat)
    requires i < n <= |es|
    ensures j == i || i < j < n
  {
    var l := 2 * i + 1;
    if l >= n then i else
      var c := if l + 1 < n && es[l + 1].key < es[l].key then l + 1 else l;
      if es[c].key < es[i].key then c else i
  }

  // Sift-down from position i among the first n.
  function SiftDown(es: seq<Entry>, n: nat, i: nat): (r: seq<Entry>)
    requires i < n <= |es|
    ensures |r| == |es| && r[n..] == es[n..]
    decreases n - i
  {
    var j := Sink(es, n, i);
    if j > i then SiftDown(Swapped(es, i, j), n, j) else es
  }

  lemma SiftDownTurn(es: seq<Entry>, n: nat, i: nat)
    requires i < n <= |es|
    ensures var j := Sink(es, n, i); SiftDown(es, n, i) == if j > i then SiftDown(Swapped(es, i, j), n, j) else es
  {
  }

  lemma SinkOrders(es: seq<Entry>, n: nat, i: nat)
    requires i < n <= |es| && OrderedAround(es, n, i)
    ensures var j := Sink(es, n, i);
      if j > i then OrderedButUnder(Swapped(es, i, j), n, j)
      else OrderedButAt(es, n, i) && (OrderedButUnder(es, n, i) ==> Ordered(es, n))
  {
    var j := Sink(es, n, i);
    forall d {:trigger Parent(d)} | 0 < d < n && Parent(d) == i
      ensures es[j].key <= es[d].key
    {
      assert d == 2 * i + 1 || d == 2 * i + 2;
    }
    if j > i {
      assert Parent(j) == i;
    }
  }

  lemma {:induction false} DownRestores(es: seq<Entry>, n: nat, i: nat)
    requires i < n <= |es| && OrderedButUnder(es, n, i)
    ensures Ordered(SiftDown(es, n, i), n)
    decreases n - i
  {
    SinkOrders(es, n, i);
    var j := Sink(es, n, i);
    if j > i {
      DownRestores(Swapped(es, i, j), n, j);
    }
  }

  // container/heap's repair of one position: sift down, and up if that moved nothing.
  function Repaired(es: seq<Entry>, n: nat, i: nat): (r: seq<Entry>)
    requires i < n <= |es|
    ensures |r| == |es| && r[n..] == es[n..]
  {
    if Sink(es, n, i) > i then SiftDown(es, n, i) else SiftUp(es, i)
  }

  lemma FixRestores(es: seq<Entry>, n: nat, i: nat)
    requires i < n <= |es| && OrderedAround(es, n, i)
    ensures Ordered(Repaired(es, n, i), n)
  {
    SinkOrders(es, n, i);
    var j := Sink(es, n, i);
    if j > i {
      DownRestores(Swapped(es, i, j), n, j);
    } else {
      UpRestores(es, n, i);
    }
  }

  lemma SwappedPermutes(es: seq<Entry>, i: nat, j: nat)
    requires i < |es| && j < |es|
    ensures multiset(Swapped(es, i, j)) == multiset(es)
  {
  }

  // Sifting moves entries and loses none.
  lemma {:induction false} SiftUpPermutes(es: seq<Entry>, j: nat)
    requires j < |es|
    ensures multiset(SiftUp(es, j)) == multiset(es)
    decreases j
  {
    if j > 0 && es[j].key < es[Parent(j)].key {
      SiftUpPermutes(Swapped(es, Parent(j), j), Parent(j));
      SwappedPermutes(es, Parent(j), j);
    }
  }

  lemma {:induction false} SiftDownPermutes(es: seq<Entry>, n: nat, i: nat)
    requires i < n <= |es|
    ensures multiset(SiftDown(es, n, i)) == multiset(es)
    decreases n - i
  {
    var j := Sink(es, n, i);
    if j > i {
      SiftDownPermutes(Swapped(es, i, j), n, j);
      SwappedPermutes(es, i, j);
    }
  }

  lemma RepairedPermutes(es: seq<Entry>, n: nat, i: nat)
    requires i < n <= |es|
    ensures multiset(Repaired(es, n, i)) == multiset(es)
  {
    SiftDownPermutes(es, n, i);
    SiftUpPermutes(es, i);
  }

  // Swapping the last key into position i disturbs the order only around i.
  lemma LastIntoHole(es: seq<Entry>, i: nat)
    requires i < |es| && Ordered(es, |es|)
    ensures OrderedAround(Swapped(es, i, |es| - 1), |es| - 1, i)
    ensures i == 0 ==> OrderedButUnder(Swapped(es, i, |es| - 1), |es| - 1, i)
  {
    if i > 0 {
      assert es[Parent(i)].key <= es[i].key;
    }
  }

  lemma PrefixOrders(es: seq<Entry>)
    requires |es| > 0 && Ordered(es, |es|)
    ensures Ordered(es, |es| - 1)
  {
  }

  lemma RekeyedAt(es: seq<Entry>, i: nat, e: Entry)
    requires i < |es| && Ordered(es, |es|)
    ensures OrderedAround(es[i := e], |es|, i)
  {
    if i > 0 {
      assert es[Parent(i)].key <= es[i].key;
    }
  }

  lemma AppendedAt(es: seq<Entry>, e: Entry)
    requires Ordered(es, |es|)
    ensures OrderedButAt(es + [e], |es| + 1, |es|)
  {
  }

  // Pushing e: append it and sift it up.
  lemma PushOrders(es: seq<Entry>, e: Entry)
    requires Ordered(es, |es|)
    ensures var r := SiftUp(es + [e], |es|);
      Ordered(r, |es| + 1) && multiset(r) == multiset(es) + multiset{e}
  {
    AppendedAt(es, e);
    UpRestores(es + [e], |es| + 1, |es|);
    SiftUpPermutes(es + [e], |es|);
  }

  // Popping: swap the top with the last entry and sift that down.
  lemma PopOrders(es: seq<Entry>)
    requires |es| > 1 && Ordered(es, |es|)
    ensures var n := |es| - 1; var r := SiftDown(Swapped(es, 0, n), n, 0);
      Ordered(r, n) && r[n] == es[0] && multiset(r) == multiset(es)
  {
    var n := |es| - 1;
    var s := Swapped(es, 0, n);
    LastIntoHole(es, 0);
    SwappedPermutes(es, 0, n);
    DownRestores(s, n, 0);
    SiftDownPermutes(s, n, 0);
    assert SiftDown(s, n, 0)[n..][0] == s[n..][0];
  }

  // Removing position i: swap it with the last entry and repair position i.
  lemma RemoveOrders(es: seq<Entry>, i: nat)
    requires i + 1 < |es| && Ordered(es, |es|)
    ensures var n := |es| - 1; var r := Repaired(Swapped(es, i, n), n, i);
      Ordered(r, n) && r[n] == es[i] && multiset(r) == multiset(es)
  {
    hide Ordered, OrderedAround, OrderedButUnder, Repaired;
    var n := |es| - 1;
    var s := Swapped(es, i, n);
    LastIntoHole(es, i);
    SwappedPermutes(es, i, n);
    FixRestores(s, n, i);
    RepairedPermutes(s, n, i);
    assert Repaired(s, n, i)[n..][0] == s[n..][0];
  }

  class Heap {
    var h: seq<Entry>
    // Where each piece of the heap is: memPiece.lruIdx, absent for -1.
    var lruIdx: map<PieceId, nat>

    ghost predicate Indexed()
      reads this
    {
      && (forall i :: 0 <= i < |h| ==> h[i].piece in lruIdx && lruIdx[h[i].piece] == i)
      && (forall p :: p in lruIdx ==> lruIdx[p] < |h| && h[lruIdx[p]].piece == p)
    }

    ghost predicate Valid()
      reads this
    {
      Indexed() && Ordered(h, |h|)
    }

    constructor ()
      ensures Valid() && h == [] && lruIdx == map[]
    {
      h, lruIdx := [], map[];
    }

    method Clear()
      modifies this
      ensures Valid() && h == [] && lruIdx == map[]
    {
      h, lruIdx := [], map[];
    }

    lemma OneEntryEach(a: Entry, b: Entry)
      requires Indexed() && a in h && b in h && a.piece == b.piece
      ensures a == b
    {
      var i :| 0 <= i < |h| && h[i] == a;
      var j :| 0 <= j < |h| && h[j] == b;
      assert i == lruIdx[a.piece] == j;
    }

    lemma EntryOf(p: PieceId)
      requires Valid() && p in lruIdx
      ensures lruIdx[p] < |h| && h[lruIdx[p]].piece == p && h[lruIdx[p]] in multiset(h)
    {
    }

    lemma TopOrNone()
      requires Valid()
      ensures |h| > 0 ==> h[0] in multiset(h) && h[0].piece in lruIdx
      ensures |h| == 0 ==> lruIdx.Keys == {}
    {
    }

    method Swap(i: nat, j: nat)
      requires i < |h| && j < |h| && Indexed()
      modifies this
      ensures h == Swapped(old(h), i, j) && Indexed() && lruIdx.Keys == old(lruIdx.Keys)
    {
      h := h[i := h[j]][j := h[i]];
      lruIdx := lruIdx[h[i].piece := i];
      lruIdx := lruIdx[h[j].piece := j];
    }

    method Up(start: nat)
      requires start < |h| && Indexed()
      modifies this
      ensures h == SiftUp(old(h), start) && Indexed() && lruIdx.Keys == old(lruIdx.Keys)
    {
      var j := start;
      while j > 0
        invariant 0 <= j < |h| == old(|h|) && Indexed() && lruIdx.Keys == old(lruIdx.Keys)
        invariant SiftUp(h, j) == SiftUp(old(h), start)
      {
        var i := Parent(j);
        if !(h[j].key < h[i].key) {
          break;
        }
        Swap(i, j);
        j := i;
      }
    }

    // The smaller child of i if it is smaller than i, else i.
    method Child(i: nat, n: nat) returns (j: nat)
      requires i < n <= |h|
      ensures j == Sink(h, n, i)
    {
      j := 2 * i + 1;
      if j >= n {
        return i;
      }
      if j + 1 < n && h[j + 1].key < h[j].key {
        j := j + 1;
      }
      if !(h[j].key < h[i].key) {
        return i;
      }
    }

    // Sifts down among the first n positions; reports whether anything moved.
    method Down(start: nat, n: nat) returns (moved: bool)
      requires start < n <= |h| && Indexed()
      modifies this
      ensures h == SiftDown(old(h), n, start) && Indexed() && lruIdx.Keys == old(lruIdx.Keys)
      ensures moved == (Sink(old(h), n, start) > start)
    {
      hide SiftDown, Sink, Heap.Indexed;
      var i := start;
      while true
        invariant start <= i < n <= |h| == old(|h|) && Indexed() && lruIdx.Keys == old(lruIdx.Keys)
        invariant SiftDown(h, n, i) == SiftDown(old(h), n, start)
        invariant if i == start then h == old(h) else Sink(old(h), n, start) > start
        decreases n - i
      {
        SiftDownTurn(h, n, i);
        var j := Child(i, n);
        if j == i {
          break;
        }
        Swap(i, j);
        i := j;
      }
      moved := i > start;
    }

    method Repair(i: nat, n: nat)
      requires i < n <= |h| && Indexed()
      modifies this
      ensures h == Repaired(old(h), n, i) && Indexed() && lruIdx.Keys == old(lruIdx.Keys)
    {
      var moved := Down(i, n);
      if !moved {
        Up(i);
      }
    }

    // Gives the piece at position i another key and restores the order.
    method Fix(i: nat, key: int)
      requires i < |h| && Valid()
      modifies this
      ensures Valid() && lruIdx.Keys == old(lruIdx.Keys)
      ensures multiset(h) == old(multiset(h)) - multiset{old(h[i])} + multiset{Entry(old(h[i].piece), key)}
    {
      var e := h[i].(key := key);
      RekeyedAt(h, i, e);
      h := h[i := e];
      FixRestores(h, |h|, i);
      RepairedPermutes(h, |h|, i);
      Repair(i, |h|);
    }

    method Push(p: PieceId, key: int)
      requires Valid() && p !in lruIdx
      modifies this
      ensures Valid() && lruIdx.Keys == old(lruIdx.Keys) + {p}
      ensures multiset(h) == old(multiset(h)) + multiset{Entry(p, key)}
    {
      hide Ordered, SiftUp;
      PushOrders(h, Entry(p, key));
      h, lruIdx := h + [Entry(p, key)], lruIdx[p := |h|];
      Up(|h| - 1);
    }

    // Drops the last position, to which container/heap has moved the victim.
    method PopLast() returns (p: PieceId)
      requires |h| > 0 && Indexed() && Ordered(h, |h| - 1)
      modifies this
      ensures Valid() && p == old(h[|h| - 1].piece) && lruIdx.Keys == old(lruIdx.Keys) - {p}
      ensures multiset(h) == old(multiset(h)) - multiset{old(h[|h| - 1])}
    {
      assert h == h[..|h| - 1] + [h[|h| - 1]];
      p := h[|h| - 1].piece;
      h, lruIdx := h[..|h| - 1], lruIdx - {p};
    }

    method Pop() returns (p: PieceId)
      requires |h| > 0 && Valid()
      modifies this
      ensures Valid() && p == old(h[0].piece) && lruIdx.Keys == old(lruIdx.Keys) - {p}
      ensures multiset(h) == old(multiset(h)) - multiset{old(h[0])}
    {
      hide Ordered, SiftDown, Heap.Indexed;
      var n := |h| - 1;
      if n > 0 {
        PopOrders(h);
      }
      Swap(0, n);
      if n > 0 {
        var moved := Down(0, n);
      }
      p := PopLast();
    }

    method Remove(i: nat) returns (p: PieceId)
      requires i < |h| && Valid()
      modifies this
      ensures Valid() && p == old(h[i].piece) && lruIdx.Keys == old(lruIdx.Keys) - {p}
      ensures multiset(h) == old(multiset(h)) - multiset{old(h[i])}
    {
      hide Ordered, Repaired, Heap.Indexed;
      var n := |h| - 1;
      PrefixOrders(h);
      if n != i {
        RemoveOrders(h, i);
        Swap(i, n);
        Repair(i, n);
      }
      p := PopLast();
    }
  }
}
