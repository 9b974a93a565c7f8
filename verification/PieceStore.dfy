// What the in-RAM piece store of internal/engine/memstorage.go does, as functions
// of its state. Eviction is stated here in its simple form, a scan of all complete
// pieces for the least recently used one; MemStorage shows the heap does the same.
module PieceStore {
  import opened Bytes
  import opened LruHeap
  import opened Sums

  type Buf = nat

  // The fields of memStorage, and those of its pieces by piece.
  datatype Store = Store(
    capacity: int,
    length: map<PieceId, nat>,
    used: int,
    tick: nat,
    // Resident pieces and the buffer each holds (memPiece.data).
    data: map<PieceId, Buf>,
    complete: set<PieceId>,
    lastUsed: map<PieceId, int>,
    // What the eviction heap holds.
    lru: set<PieceId>,
    bufs: map<Buf, seq<byte>>,
    // Buffers handed back and not yet drawn again.
    pool: set<Buf>,
    // Pieces whose first writer is between reserving bytes and installing a buffer.
    pending: set<PieceId>,
    // What was written at each offset since the piece last became resident.
    written: map<PieceId, map<int, byte>>)

  // ------------------------------------------------------------------ invariant

  // No buffer is shared by two pieces, and none in use is in the pool.
  ghost predicate Owned(s: Store) {
    && s.data.Keys <= s.length.Keys && s.pool <= s.bufs.Keys
    && (forall p :: p in s.data ==>
          s.data[p] in s.bufs && |s.bufs[s.data[p]]| == s.length[p] && s.data[p] !in s.pool)
    && (forall p, q :: p in s.data && q in s.data && p != q ==> s.data[p] != s.data[q])
  }

  // The LRU is exactly the complete pieces; they are resident and their stamps differ.
  ghost predicate Ranked(s: Store) {
    && s.lru == s.complete && s.lru <= s.data.Keys && s.data.Keys <= s.lastUsed.Keys
    && (forall p :: p in s.lastUsed ==> s.lastUsed[p] <= s.tick)
    && (forall p, q :: p in s.lru && q in s.lru && p != q ==> s.lastUsed[p] != s.lastUsed[q])
  }

  ghost predicate Accounted(s: Store) {
    && s.data.Keys <= s.length.Keys && s.pending <= s.length.Keys && s.pending !! s.data.Keys
    && s.used == Sum(s.length, s.data.Keys) + Sum(s.length, s.pending)
  }

  ghost predicate Sound(s: Store) {
    && s.lastUsed.Keys <= s.length.Keys && s.pending <= s.lastUsed.Keys
    && Owned(s) && Ranked(s) && Accounted(s)
  }

  // Within budget, unless at most one complete piece is left to evict.
  ghost predicate Bounded(s: Store) {
    s.used <= s.capacity || |s.lru| <= 1
  }

  ghost predicate Inv(s: Store) {
    Sound(s) && Bounded(s)
  }

  // Every offset written since the piece became resident reads back as written.
  ghost predicate Faithful(s: Store) {
    && s.written.Keys == s.data.Keys
    && (forall p, i :: p in s.data && s.data[p] in s.bufs && i in s.written[p] ==>
          0 <= i < |s.bufs[s.data[p]]| && s.bufs[s.data[p]][i] == s.written[p][i])
  }

  // ---------------------------------------------------- eviction as a scan

  // The piece a scan of cands for the least recent stamp finds.
  ghost function Oldest(cands: set<PieceId>, stamp: map<PieceId, int>): (p: PieceId)
    requires cands != {} && cands <= stamp.Keys
    ensures p in cands && forall q :: q in cands ==> stamp[p] <= stamp[q]
  {
    OldestExists(cands, stamp);
    var p :| p in cands && forall q :: q in cands ==> stamp[p] <= stamp[q];
    p
  }

  lemma {:induction false} OldestExists(cands: set<PieceId>, stamp: map<PieceId, int>)
    requires cands != {} && cands <= stamp.Keys
    ensures exists p :: p in cands && forall q :: q in cands ==> stamp[p] <= stamp[q]
    decreases cands
  {
    var p :| p in cands;
    if cands != {p} {
      assert cands - {p} != {};
      OldestExists(cands - {p}, stamp);
      var m :| m in cands - {p} && forall q :: q in cands - {p} ==> stamp[m] <= stamp[q];
      var least := if stamp[p] <= stamp[m] then p else m;
      assert forall q :: q in cands ==> stamp[least] <= stamp[q];
    }
  }

  // The pieces that scanning cands for the least recently used one, over and over
  // until `over` bytes are freed or none is left, frees.
  ghost function Victims(cands: set<PieceId>, stamp: map<PieceId, int>, length: map<PieceId, nat>,
                         over: int): (vs: set<PieceId>)
    requires cands <= stamp.Keys && cands <= length.Keys
    ensures vs <= cands
    decreases cands
  {
    if over <= 0 || cands == {} then {} else
      var v := Oldest(cands, stamp);
      {v} + Victims(cands - {v}, stamp, length, over - length[v])
  }

  // A scan frees enough, or everything.
  lemma {:induction false} VictimsSuffice(cands: set<PieceId>, stamp: map<PieceId, int>, length: map<PieceId, nat>,
                                          over: int)
    requires cands <= stamp.Keys && cands <= length.Keys
    ensures var vs := Victims(cands, stamp, length, over);
      over <= Sum(length, vs) || vs == cands
    decreases cands
  {
    if over > 0 && cands != {} {
      var v := Oldest(cands, stamp);
      var rest := Victims(cands - {v}, stamp, length, over - length[v]);
      VictimsSuffice(cands - {v}, stamp, length, over - length[v]);
      SumWith(length, rest, v);
      assert rest + {v} == {v} + rest;
    }
  }

  // Every victim is at least as old as every survivor.
  lemma {:induction false} VictimsAreOldest(cands: set<PieceId>, stamp: map<PieceId, int>, length: map<PieceId, nat>,
                                            over: int)
    requires cands <= stamp.Keys && cands <= length.Keys
    ensures var vs := Victims(cands, stamp, length, over);
      forall v, k :: v in vs && k in cands - vs ==> stamp[v] <= stamp[k]
    decreases cands
  {
    if over > 0 && cands != {} {
      var v := Oldest(cands, stamp);
      VictimsAreOldest(cands - {v}, stamp, length, over - length[v]);
    }
  }

  // A scan that takes anything needed its newest victim.
  lemma {:induction false} VictimsAreNeeded(cands: set<PieceId>, stamp: map<PieceId, int>, length: map<PieceId, nat>,
                                            over: int)
    returns (v: PieceId)
    requires cands <= stamp.Keys && cands <= length.Keys && over > 0 && cands != {}
    ensures var vs := Victims(cands, stamp, length, over);
      && v in vs && (forall w :: w in vs ==> stamp[w] <= stamp[v])
      && Sum(length, vs - {v}) < over
    decreases cands
  {
    v := Oldest(cands, stamp);
    var first, vs := v, Victims(cands, stamp, length, over);
    var rest := Victims(cands - {first}, stamp, length, over - length[first]);
    assert first !in rest;
    if over > length[first] && cands - {first} != {} {
      v := VictimsAreNeeded(cands - {first}, stamp, length, over - length[first]);
      SumWith(length, rest - {v}, first);
      assert vs - {v} == rest - {v} + {first};
    } else {
      assert vs - {v} == {};
    }
  }

  ghost function Buffers(data: map<PieceId, Buf>, ps: set<PieceId>): set<Buf> {
    set p | p in ps && p in data :: data[p]
  }

  // Frees the given pieces: out of the LRU, not complete, buffer to the pool.
  ghost function Freed(s: Store, ps: set<PieceId>): Store
    requires s.data.Keys <= s.length.Keys
  {
    s.(data := s.data - ps,
       complete := s.complete - ps,
       lru := s.lru - ps,
       used := s.used - Sum(s.length, ps * s.data.Keys),
       pool := s.pool + Buffers(s.data, ps),
       written := s.written - ps)
  }

  // evictLocked in its simple form.
  ghost function EvictionOf(s: Store, need: nat, keep: set<PieceId>): set<PieceId>
    requires s.lru <= s.lastUsed.Keys && s.lru <= s.length.Keys
  {
    Victims(s.lru - keep, s.lastUsed, s.length, s.used + need - s.capacity)
  }

  ghost function Evicted(s: Store, need: nat, keep: set<PieceId>): Store
    requires s.lru <= s.lastUsed.Keys && s.lru <= s.length.Keys && s.data.Keys <= s.length.Keys
  {
    Freed(s, EvictionOf(s, need, keep))
  }

  lemma FreedAccounted(s: Store, ps: set<PieceId>)
    requires Accounted(s)
    ensures Accounted(Freed(s, ps))
  {
    SumSplit(s.length, s.data.Keys, ps * s.data.Keys);
    assert Freed(s, ps).data.Keys == s.data.Keys - ps * s.data.Keys;
  }

  lemma FreedSound(s: Store, ps: set<PieceId>)
    requires Sound(s)
    ensures Sound(Freed(s, ps))
  {
    FreedAccounted(s, ps);
    hide Accounted;
  }

  lemma FreedFaithful(s: Store, ps: set<PieceId>)
    requires s.data.Keys <= s.length.Keys && Faithful(s)
    ensures Faithful(Freed(s, ps))
  {
  }

  // A pass makes room, or leaves no complete piece but keep.
  lemma EvictedMakesRoom(s: Store, need: nat, keep: set<PieceId>)
    requires s.lru <= s.data.Keys && s.data.Keys <= s.lastUsed.Keys && s.data.Keys <= s.length.Keys
    ensures var t := Evicted(s, need, keep);
      t.used + need <= s.capacity || t.lru <= keep
  {
    VictimsSuffice(s.lru - keep, s.lastUsed, s.length, s.used + need - s.capacity);
    assert EvictionOf(s, need, keep) * s.data.Keys == EvictionOf(s, need, keep);
  }
}
