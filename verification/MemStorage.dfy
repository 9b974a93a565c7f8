// The in-RAM piece store of internal/engine/memstorage.go as it runs: the budget,
// the eviction heap and the pieces' own fields are updated in place. Every method
// is a critical section (or, where it says so, the sequence of them the source
// runs), and ends in the state PieceStore and PieceOps give for it.
module MemStorage {
  import opened Bytes
  import opened LruHeap
  import opened Numbers
  import opened PieceOps
  import opened PieceStore
  import opened Sums
  import opened Wrappers

  class MemStorage {
    const capacity: int
    // The length of every piece of every torrent.
    const length: map<PieceId, nat>
    const lru: Heap
    var used: int
    var tick: nat
    // The fields of memPiece, by piece.
    var data: map<PieceId, Buf>
    var complete: set<PieceId>
    var lastUsed: map<PieceId, int>
    // Buffer memory, and memBufPool.
    var bufs: map<Buf, seq<byte>>
    var pool: set<Buf>
    ghost var pending: set<PieceId>
    ghost var written: map<PieceId, map<int, byte>>

    ghost function View(): Store
      reads this, lru
    {
      Store(capacity, length, used, tick, data, complete, lastUsed, lru.lruIdx.Keys, bufs, pool, pending, written)
    }

    ghost predicate Lagging()
      reads this`lastUsed, lru
    {
      lru.Valid() && Behind(multiset(lru.h), lru.lruIdx.Keys, lastUsed)
    }

    ghost predicate Valid()
      reads this, lru
    {
      Lagging() && Inv(View()) && Faithful(View())
    }

    ghost predicate Distinct()
      reads this`lastUsed, lru
    {
      forall p, q :: p in lru.lruIdx && q in lru.lruIdx && p in lastUsed && q in lastUsed && p != q ==>
        lastUsed[p] != lastUsed[q]
    }

    constructor (capacity: int, length: map<PieceId, nat>)
      ensures Valid() && Initial(View()) && fresh(lru)
      ensures this.capacity == capacity && this.length == length
    {
      this.capacity, this.length := capacity, length;
      lru := new Heap();
      used, tick, data, complete, lastUsed := 0, 0, map[], {}, map[];
      bufs, pool, pending, written := map[], {}, {}, map[];
    }

    // ---------------------------------------------------------------- eviction

    // The entries whose heap key lags behind the recency stamp of their piece.
    ghost function Stale(): set<Entry>
      reads this, lru
    {
      set e | e in lru.h && e.piece in lastUsed && e.key < lastUsed[e.piece]
    }

    // Refreshes a stale top, so that one entry fewer is stale.
    method RefreshTop()
      requires Lagging() && |lru.h| > 0 && lru.h[0].piece in lastUsed
      requires lru.h[0].key < lastUsed[lru.h[0].piece]
      modifies lru
      ensures Lagging() && lru.lruIdx.Keys == old(lru.lruIdx.Keys)
      ensures Stale() < old(Stale())
    {
      hide Ordered, Behind;
      ghost var top, was := lru.h[0], lru.h;
      ghost var now := Entry(top.piece, lastUsed[top.piece]);
      lru.TopOrNone();
      BehindEntry(multiset(lru.h), lru.lruIdx.Keys, lastUsed, multiset{top}, now);
      assert lru.lruIdx.Keys + {top.piece} == lru.lruIdx.Keys;
      lru.Fix(0, lastUsed[lru.h[0].piece]);
      assert now in multiset(lru.h);
      assert now in lru.h;
      forall e | e in lru.h && e.piece == top.piece
        ensures e == now
      {
        lru.OneEntryEach(e, now);
      }
      forall e | e in Stale()
        ensures e in was && e != top
      {
        assert e in multiset(lru.h);
      }
      assert top in was && top in old(Stale());
    }

    // A top whose own key is current is the least recently used piece, although
    // every other key may be stale.
    lemma TopIsOldest()
      requires Lagging() && Distinct() && |lru.h| > 0
      requires lru.h[0].piece in lastUsed && lastUsed[lru.h[0].piece] <= lru.h[0].key
      ensures lru.h[0].piece == Oldest(lru.lruIdx.Keys, lastUsed)
    {
      var top := lru.h[0];
      forall p | p in lru.lruIdx
        ensures lastUsed[top.piece] <= lastUsed[p]
      {
        TopIsLeast(lru.h, lru.lruIdx[p]);
        assert lru.h[lru.lruIdx[p]] in multiset(lru.h);
      }
      assert top.piece in lru.lruIdx;
    }

    // Re-keys the top until its key is current, then takes it: what a scan of the
    // whole heap for the oldest stamp would find.
    method PopOldestLocked() returns (p: Option<PieceId>)
      requires Lagging() && Distinct()
      modifies lru
      ensures Lagging()
      ensures p.None? <==> old(lru.lruIdx.Keys) == {}
      ensures p.None? ==> lru.lruIdx.Keys == {}
      ensures p.Some? ==>
        && old(lru.lruIdx.Keys) <= lastUsed.Keys
        && p.value == Oldest(old(lru.lruIdx.Keys), lastUsed)
        && lru.lruIdx.Keys == old(lru.lruIdx.Keys) - {p.value}
    {
      hide Heap.Valid, Stale, Oldest;
      lru.TopOrNone();
      while |lru.h| > 0
        invariant Lagging() && lru.lruIdx.Keys == old(lru.lruIdx.Keys)
        decreases Stale()
      {
        lru.TopOrNone();
        var top := lru.h[0];
        if top.key < lastUsed[top.piece] {
          RefreshTop();
        } else {
          TopIsOldest();
          var out := lru.Pop();
          return Some(out);
        }
      }
      lru.TopOrNone();
      p := None;
    }

    method PutBack(p: PieceId)
      requires data.Keys <= length.Keys
      modifies this`data, this`complete, this`pool, this`written
      ensures View() == Freed(old(View()), {p}).(lru := old(View()).lru, used := used)
    {
      if p in data {
        pool := pool + {data[p]};
        data := data - {p};
      }
      written := written - {p};
      complete := complete - {p};
    }

    // Gives the buffer of a piece that is out of the LRU back to the pool.
    method FreeLocked(p: PieceId)
      requires data.Keys <= length.Keys
      modifies this`used, this`data, this`complete, this`pool, this`written
      ensures View() == Freed(old(View()), {p}).(lru := old(View()).lru)
    {
      if p in data {
        SumOfOne(length, data.Keys, p);
        used := used - length[p];
      } else {
        assert {p} * data.Keys == {};
      }
      PutBack(p);
    }

    // One turn of the eviction loop, after the pieces vs of s were freed.
    method EvictOne(ghost s: Store, ghost vs: set<PieceId>, ghost cands: set<PieceId>) returns (v: Option<PieceId>)
      requires Lagging() && Distinct() && s.data.Keys <= s.length.Keys
      requires View() == Freed(s, vs).(lru := cands - vs) && vs <= cands
      modifies this`used, this`data, this`complete, this`pool, this`written, lru
      ensures Lagging() && Distinct()
      ensures v.None? <==> cands - vs == {}
      ensures v.None? ==> View() == old(View())
      ensures v.Some? ==>
        && cands - vs <= s.lastUsed.Keys && v.value == Oldest(cands - vs, s.lastUsed)
        && View() == Freed(s, vs + {v.value}).(lru := cands - (vs + {v.value}))
    {
      hide Behind, Heap.Valid, Freed;
      FreedShrinks(s, vs);
      v := PopOldestLocked();
      if v.Some? {
        FreedMore(s, vs, v.value);
        FreedAnyLru(Freed(s, vs), v.value, lru.lruIdx.Keys);
        FreeLocked(v.value);
        assert cands - vs - {v.value} == cands - (vs + {v.value});
      }
    }

    // The eviction loop over the pieces left in the heap.
    method EvictLoop(need: nat, ghost s: Store, ghost cands: set<PieceId>) returns (ghost vs: set<PieceId>)
      requires Lagging() && Distinct() && s.data.Keys <= s.length.Keys
      requires cands <= s.data.Keys && cands <= s.lastUsed.Keys
      requires View() == s.(lru := cands)
      modifies this`used, this`data, this`complete, this`pool, this`written, lru
      ensures Lagging()
      ensures vs == Victims(cands, s.lastUsed, s.length, s.used + need - s.capacity)
      ensures View() == Freed(s, vs).(lru := cands - vs)
    {
      hide Behind, Heap.Valid, Victims, Freed, Scans, Oldest, Distinct;
      vs := {};
      FreedNothing(s);
      ghost var all := Victims(cands, s.lastUsed, s.length, s.used + need - s.capacity);
      ScansAll(cands, s.lastUsed, s.length, s.used + need - s.capacity);
      while used + need > capacity
        invariant Lagging() && Distinct() && vs <= cands && lastUsed == s.lastUsed
        invariant View() == Freed(s, vs).(lru := cands - vs)
        invariant Scans(all, vs, cands, s.lastUsed, s.length, used + need - capacity)
        decreases cands - vs
      {
        var v := EvictOne(s, vs, cands);
        if v.None? {
          break;
        }
        FreedLess(s, vs, v.value);
        ScansOne(all, vs, cands, s.lastUsed, s.length, used + s.length[v.value] + need - capacity, v.value);
        vs := vs + {v.value};
      }
      ScansNone(all, vs, cands, s.lastUsed, s.length, used + need - capacity);
    }

    method TakeOut(p: PieceId) returns (key: int)
      requires Lagging() && p in lru.lruIdx
      modifies lru
      ensures Lagging() && lru.lruIdx.Keys == old(lru.lruIdx.Keys) - {p}
      ensures p in lastUsed && key <= lastUsed[p]
    {
      hide Heap.Valid;
      lru.EntryOf(p);
      var i := lru.lruIdx[p];
      key := lru.h[i].key;
      var out := lru.Remove(i);
    }

    method PutIn(p: PieceId, key: int)
      requires Lagging() && p !in lru.lruIdx && p in lastUsed && key <= lastUsed[p]
      modifies lru
      ensures Lagging() && lru.lruIdx.Keys == old(lru.lruIdx.Keys) + {p}
    {
      lru.Push(p, key);
    }

    // evictLocked: victims come off the heap; keep is parked outside it meanwhile.
    method EvictLocked(need: nat, keep: Option<PieceId>)
      requires Lagging() && Distinct() && data.Keys <= length.Keys
      requires lru.lruIdx.Keys <= data.Keys && lru.lruIdx.Keys <= lastUsed.Keys
      modifies this`used, this`data, this`complete, this`pool, this`written, lru
      ensures Lagging() && View() == Evicted(old(View()), need, Kept(keep))
    {
      hide Behind, Heap.Valid, Freed, Victims;
      ghost var s := View();
      if used + need <= capacity {
        FreedNothing(s);
        VictimsDone(s.lru - Kept(keep), lastUsed, length, used + need - capacity);
        return;
      }
      var parked, key := keep.Some? && keep.value in lru.lruIdx, 0;
      if parked {
        key := TakeOut(keep.value);
      }
      Reunited(s.lru, keep, lru.lruIdx.Keys);
      ghost var cands := lru.lruIdx.Keys;
      ghost var vs := EvictLoop(need, s, cands);
      Rejoined(s.lru, cands, vs);
      FreedFrame(s, vs);
      if parked {
        PutIn(keep.value, key);
      }
    }

    // ------------------------------------------------------- critical sections

    method NewPiece(p: PieceId)
      requires Valid() && p in length && p !in lastUsed
      modifies this`lastUsed
      ensures Valid() && View() == Apply(old(View()), Op.NewPiece(p))
    {
      hide Inv, Faithful, Behind, Heap.Valid;
      StepKeeps(View(), Op.NewPiece(p));
      BehindNewer(multiset(lru.h), lru.lruIdx.Keys, lastUsed, lastUsed[p := 0]);
      lastUsed := lastUsed[p := 0];
    }

    // reserve
    method Reserve(p: PieceId)
      requires Valid() && Enabled(View(), Op.Reserve(p))
      modifies this, lru
      ensures Valid() && View() == Apply(old(View()), Op.Reserve(p))
    {
      hide Inv, Faithful, Behind, Heap.Valid, Evicted;
      ghost var t := Apply(View(), Op.Reserve(p));
      StepKeeps(View(), Op.Reserve(p));
      Evictable(View());
      EvictLocked(length[p], None);
      used := used + length[p];
      pending := pending + {p};
      assert View() == t;
    }

    // The end of lockResident: buf is what getPieceBuf drew for the piece.
    method Install(p: PieceId, buf: Buf, content: seq<byte>)
      requires Valid() && Enabled(View(), Op.Install(p, buf, content))
      modifies this
      ensures Valid() && View() == Apply(old(View()), Op.Install(p, buf, content))
    {
      hide Inv, Faithful, Behind, Heap.Valid;
      StepKeeps(View(), Op.Install(p, buf, content));
      data, bufs, pool := data[p := buf], bufs[buf := content], pool - {buf};
      pending, written := pending - {p}, written[p := map[]];
    }

    // The copy of WriteAt, under the piece's lock.
    method WriteChunk(p: PieceId, b: seq<byte>, off: nat) returns (n: nat)
      requires Valid() && Enabled(View(), Write(p, off, b))
      modifies this`bufs, this`written
      ensures Valid() && View() == Apply(old(View()), Write(p, off, b))
      ensures n == Min(|b|, length[p] - off) && Landed(View(), p, b, off, n)
    {
      hide Inv, Faithful, Behind, Heap.Valid, Copied, Written, Apply, Enabled, Landed;
      ghost var t := Apply(View(), Write(p, off, b));
      StepKeeps(View(), Write(p, off, b));
      WrittenFrame(View(), p, off, b);
      ghost var was := bufs[data[p]];
      n := Min(|b|, |bufs[data[p]]| - off);
      bufs := bufs[data[p] := Copied(bufs[data[p]], off, b)];
      written := t.written;
      assert View() == t;
      CopyLands(t, p, was, b, off);
    }

    method Stamp(p: PieceId)
      requires Valid() && p in lastUsed
      modifies this
      ensures Valid() && View() == Apply(old(View()), Op.Stamp(p))
    {
      hide Inv, Faithful, Behind, Heap.Valid;
      StepKeeps(View(), Op.Stamp(p));
      Evictable(View());
      if lastUsed[p] != tick {
        BehindNewer(multiset(lru.h), lru.lruIdx.Keys, lastUsed, lastUsed[p := tick + 1]);
        tick := tick + 1;
        lastUsed := lastUsed[p := tick];
      }
    }

    // Gives p, which is in the heap, the given key there.
    method Rekey(p: PieceId, key: int)
      requires Lagging() && p in lru.lruIdx && p in lastUsed && key <= lastUsed[p]
      modifies lru
      ensures Lagging() && lru.lruIdx.Keys == old(lru.lruIdx.Keys)
    {
      hide Behind, Heap.Valid;
      lru.EntryOf(p);
      var i := lru.lruIdx[p];
      BehindEntry(multiset(lru.h), lru.lruIdx.Keys, lastUsed, multiset{lru.h[i]}, Entry(p, key));
      assert lru.lruIdx.Keys + {p} == lru.lruIdx.Keys;
      lru.Fix(i, key);
    }

    // Puts p in the heap under the given key, or gives it that key there.
    method Rank(p: PieceId, key: int)
      requires Lagging() && p in lastUsed && key <= lastUsed[p]
      modifies lru
      ensures Lagging() && lru.lruIdx.Keys == old(lru.lruIdx.Keys) + {p}
    {
      hide Behind, Heap.Valid;
      if p in lru.lruIdx {
        assert lru.lruIdx.Keys + {p} == lru.lruIdx.Keys;
        Rekey(p, key);
      } else {
        PutIn(p, key);
      }
    }

    // The piece takes the newest stamp and enters the heap under it.
    method Verify(p: PieceId)
      requires Lagging() && p in lastUsed && lastUsed[p] <= tick
      modifies this`complete, this`tick, this`lastUsed, lru
      ensures Lagging() && View() == Verified(old(View()), p)
    {
      hide Behind, Heap.Valid;
      BehindNewer(multiset(lru.h), lru.lruIdx.Keys, lastUsed, lastUsed[p := tick + 1]);
      complete := complete + {p};
      tick := tick + 1;
      lastUsed := lastUsed[p := tick];
      Rank(p, tick);
    }

    method MarkComplete(p: PieceId) returns (err: Option<Error>)
      requires Valid() && p in lastUsed
      modifies this, lru
      ensures Valid() && View() == Apply(old(View()), Op.MarkComplete(p))
      ensures err == if p in old(data) then None else Some(PieceEvicted)
    {
      hide Inv, Faithful, Behind, Heap.Valid, Evicted, Verified;
      ghost var s := View();
      StepKeeps(s, Op.MarkComplete(p));
      if p !in data {
        return Some(PieceEvicted);
      }
      Evictable(s);
      EvictableVerified(s, p);
      Verify(p);
      EvictLocked(0, Some(p));
      err := None;
    }

    method MarkNotComplete(p: PieceId)
      requires Valid() && p in lastUsed
      modifies this, lru
      ensures Valid() && View() == Apply(old(View()), Op.MarkNotComplete(p))
    {
      hide Inv, Faithful, Behind, Heap.Valid;
      StepKeeps(View(), Op.MarkNotComplete(p));
      complete := complete - {p};
      if p in lru.lruIdx {
        var key := TakeOut(p);
      }
      assert lru.lruIdx.Keys == old(lru.lruIdx.Keys) - {p};
    }

    method DropLocked(p: PieceId)
      requires Lagging() && data.Keys <= length.Keys
      modifies this`used, this`data, this`complete, this`pool, this`written, lru
      ensures Lagging() && View() == Freed(old(View()), {p})
    {
      hide Behind, Heap.Valid;
      if p in lru.lruIdx {
        var key := TakeOut(p);
      }
      assert lru.lruIdx.Keys == old(lru.lruIdx.Keys) - {p};
      FreeLocked(p);
    }

    // memTorrent.close: drops those pieces of one torrent that were ever created.
    method CloseTorrent(slots: seq<PieceId>)
      requires Valid()
      modifies this`used, this`data, this`complete, this`pool, this`written, lru
      ensures Valid() && View() == Apply(old(View()), Op.CloseTorrent(Created(slots, lastUsed)))
    {
      hide Inv, Faithful, Behind, Heap.Valid, Freed;
      ghost var s := View();
      StepKeeps(s, Op.CloseTorrent(Created(slots, lastUsed)));
      Evictable(s);
      FreedNothing(s);
      assert Created(slots[..0], lastUsed) == {};
      for i := 0 to |slots|
        invariant Lagging() && View() == Freed(s, Created(slots[..i], lastUsed))
      {
        CreatedNext(slots, i, lastUsed);
        FreedShrinks(s, Created(slots[..i], lastUsed));
        if slots[i] in lastUsed {
          FreedMore(s, Created(slots[..i], lastUsed), slots[i]);
          DropLocked(slots[i]);
        }
      }
      assert slots[..|slots|] == slots;
    }

    // The client-level Close: only what is in the LRU.
    method Close()
      requires Valid()
      modifies this`used, this`data, this`complete, this`pool, this`written, lru
      ensures View() == Closed(old(View())) && lru.Valid()
    {
      hide Inv, Faithful, Behind, Freed;
      ghost var s := View();
      Evictable(s);
      FreedNothing(s);
      var order := lru.h;
      PiecesOf(order, lru.lruIdx);
      assert Pieces(order[..0]) == {};
      for i := 0 to |order|
        invariant View() == Freed(s, Pieces(order[..i])).(used := s.used, lru := s.lru)
      {
        PiecesNext(order, i);
        FreedShrinks(s, Pieces(order[..i]));
        PutBackMore(s, Pieces(order[..i]), order[i].piece);
        PutBack(order[i].piece);
      }
      assert order[..|order|] == order;
      FreedFrame(s, s.lru);
      lru.Clear();
      used := 0;
    }

    // -------------------------------------------------------------- piece calls

    // getPieceBuf: a pooled buffer of that length, or a newly made one. The pool
    // is free to forget what it holds, so either may happen.
    method GetPieceBuf(n: nat, reuse: bool, made: Buf, content: seq<byte>) returns (buf: Buf, bytes: seq<byte>)
      requires pool <= bufs.Keys && made !in bufs && |content| == n
      ensures |bytes| == n && if buf in bufs then buf in pool && bufs[buf] == bytes else buf !in pool
    {
      var fitting := set b | b in pool && |bufs[b]| == n;
      if reuse && fitting != {} {
        buf :| buf in fitting;
        bytes := bufs[buf];
      } else {
        buf, bytes := made, content;
      }
    }

    // lockResident: on first write, reserve the budget and install a buffer.
    method LockResident(p: PieceId, reuse: bool, made: Buf, content: seq<byte>)
      requires Valid() && p in lastUsed && p in length && p !in pending
      requires |content| == length[p] && made !in bufs
      modifies this, lru
      ensures Valid() && p in data && data[p] in bufs && lastUsed == old(lastUsed)
      ensures Sound(old(View()))
      ensures View() == Resident(old(View()), p, data[p], bufs[data[p]])
    {
      hide Inv, Faithful, Behind, Heap.Valid, Reserved, Sound;
      SoundStore(View());
      ResidentBuffer(View(), p);
      if p in data {
        return;
      }
      ReservedFrame(View(), p);
      Reserve(p);
      var buf, bytes := GetPieceBuf(length[p], reuse, made, content);
      Install(p, buf, bytes);
    }

    // drawn is what the buffer held when the chunk was copied over it.
    method WriteAt(p: PieceId, b: seq<byte>, off: int, reuse: bool, made: Buf, content: seq<byte>)
      returns (n: nat, err: Option<Error>, ghost drawn: seq<byte>)
      requires Valid() && p in lastUsed && p in length && p !in pending
      requires |content| == length[p] && made !in bufs
      modifies this, lru
      ensures Valid() && Sound(old(View()))
      ensures err == if off < 0 then Some(NegativeOffset) else if off >= length[p] then Some(EOF) else None
      ensures err.Some? ==> n == 0 && View() == old(View())
      ensures err.None? ==> p in data && n == Min(|b|, length[p] - off)
      ensures err.None? ==>
        var s := Resident(old(View()), p, data[p], drawn);
        && p in s.data && s.data[p] in s.bufs && p in s.written && off <= |s.bufs[s.data[p]]|
        && View() == Written(s, p, off, b)
      ensures err.None? ==> Landed(View(), p, b, off, n)
    {
      hide Inv, Faithful, Behind, Heap.Valid, Written, Sound, Resident, Enabled, Landed;
      drawn := [];
      SoundStore(View());
      if off < 0 {
        return 0, Some(NegativeOffset), drawn;
      }
      if off >= length[p] {
        return 0, Some(EOF), drawn;
      }
      LockResident(p, reuse, made, content);
      drawn := bufs[data[p]];
      WriteReady(View(), p, off, b);
      n := WriteChunk(p, b, off);
      err := None;
    }

    method ReadAt(p: PieceId, want: nat, off: int) returns (bytes: seq<byte>, err: Option<Error>)
      requires Valid() && p in lastUsed
      modifies this
      ensures Valid()
      ensures var s := old(View());
        && (p in s.data ==> p in s.length && s.data[p] in s.bufs && |s.bufs[s.data[p]]| == s.length[p])
        && (bytes, err) == Read(s, p, want, off)
        && View() == if p in s.data && 0 <= off < s.length[p] then Stamped(s, p) else s
      ensures p in lastUsed && (p in old(data) && p in length && 0 <= off < length[p] ==>
        && lastUsed[p] == tick
        && (p in lru.lruIdx ==>
             forall q :: q in lru.lruIdx && q != p ==> q in lastUsed && lastUsed[q] < lastUsed[p]))
      ensures forall q :: q in old(lastUsed) && q != p ==> q in lastUsed && lastUsed[q] == old(lastUsed)[q]
    {
      hide Inv, Faithful, Behind, Heap.Valid, Stamped;
      ResidentBuffer(View(), p);
      NewestAfterRead(View(), p);
      if p in data && 0 <= off < length[p] {
        var buf := bufs[data[p]];
        var n := Min(want, |buf| - off);
        bytes := buf[off..off + n];
        err := if n < want then Some(EOF) else None;
        Stamp(p);
      } else if off < 0 {
        return [], Some(NegativeOffset);
      } else if p in data {
        return [], Some(EOF);
      } else {
        return [], Some(PieceEvicted);
      }
    }

    // WriteTo with a writer that takes every chunk it is given, while nothing else
    // changes the store; see StreamsLatest for the chunks it unlocks between.
    method WriteTo(p: PieceId) returns (out: seq<byte>, err: Option<Error>)
      requires Valid() && p in lastUsed && p in length && length[p] > 0
      ensures p in data ==> data[p] in bufs && out == bufs[data[p]] && err.None?
      ensures p !in data ==> out == [] && err == Some(PieceEvicted)
    {
      hide Inv, Faithful, Behind, Heap.Valid;
      ResidentBuffer(View(), p);
      out := [];
      while |out| < length[p]
        invariant if p in data then |out| <= length[p] && out == bufs[data[p]][..|out|] else out == []
        decreases length[p] - |out|
      {
        if p !in data {
          return out, Some(PieceEvicted);
        }
        var buf, m := bufs[data[p]], |out|;
        out := out + buf[m..m + Min(WRITE_TO_CHUNK, |buf| - m)];
        assert out == buf[..|out|];
      }
      err := None;
    }

    method Completion(p: PieceId) returns (done: bool)
      requires Valid() && p in lastUsed
      ensures done <==> p in lru.lruIdx
    {
      done := p in complete && p in data;
    }
  }

  // The first n bytes of b are in the buffer of p from off on.
  ghost predicate Landed(s: Store, p: PieceId, b: seq<byte>, off: int, n: nat) {
    && p in s.data && s.data[p] in s.bufs && p in s.length && |s.bufs[s.data[p]]| == s.length[p]
    && 0 <= off && off + n <= s.length[p] && n <= |b|
    && forall i :: off <= i < off + n ==> s.bufs[s.data[p]][i] == b[i - off]
  }

  lemma CopyLands(s: Store, p: PieceId, was: seq<byte>, b: seq<byte>, off: nat)
    requires p in s.data && s.data[p] in s.bufs && p in s.length && off <= |was| == s.length[p]
    requires s.bufs[s.data[p]] == Copied(was, off, b)
    ensures Landed(s, p, b, off, Min(|b|, |was| - off))
  {
  }

  // What a read leaves: its piece has the newest stamp, and no other stamp moves.
  lemma NewestAfterRead(s: Store, p: PieceId)
    requires Inv(s) && p in s.lastUsed
    ensures var t := Stamped(s, p);
      && p in t.lastUsed && t.lastUsed[p] == t.tick && t.data == s.data && t.lru == s.lru && t.length == s.length
      && (forall q :: q in s.lastUsed && q != p ==> q in t.lastUsed && t.lastUsed[q] == s.lastUsed[q])
      && (p in t.lru ==> forall q :: q in t.lru && q != p ==> q in t.lastUsed && t.lastUsed[q] < t.lastUsed[p])
  {
    hide Owned, Accounted;
  }

  // lockResident as a whole: nothing, or a reservation and a buffer.
  ghost function Resident(s: Store, p: PieceId, buf: Buf, content: seq<byte>): Store
    requires Sound(s) && p in s.length
  {
    if p in s.data then s else Installed(Reserved(s, p), p, buf, content)
  }

  ghost function Pieces(h: seq<Entry>): set<PieceId> {
    set e | e in h :: e.piece
  }

  lemma PiecesNext(h: seq<Entry>, i: nat)
    requires i < |h|
    ensures Pieces(h[..i + 1]) == Pieces(h[..i]) + {h[i].piece}
  {
    assert h[..i + 1] == h[..i] + [h[i]];
  }

  lemma PiecesOf(h: seq<Entry>, lruIdx: map<PieceId, nat>)
    requires forall i :: 0 <= i < |h| ==> h[i].piece in lruIdx
    requires forall p :: p in lruIdx ==> lruIdx[p] < |h| && h[lruIdx[p]].piece == p
    ensures Pieces(h) == lruIdx.Keys
  {
    forall p | p in lruIdx
      ensures p in Pieces(h)
    {
      assert h[lruIdx[p]] in h;
    }
  }

  ghost function Created(slots: seq<PieceId>, known: map<PieceId, int>): set<PieceId> {
    set p | p in slots && p in known
  }

  lemma CreatedNext(slots: seq<PieceId>, i: nat, known: map<PieceId, int>)
    requires i < |slots|
    ensures Created(slots[..i + 1], known) ==
      if slots[i] in known then Created(slots[..i], known) + {slots[i]} else Created(slots[..i], known)
  {
    assert slots[..i + 1] == slots[..i] + [slots[i]];
  }

  lemma ResidentBuffer(s: Store, p: PieceId)
    requires Inv(s)
    ensures p in s.data ==> p in s.length && s.data[p] in s.bufs && |s.bufs[s.data[p]]| == s.length[p]
    ensures s.pool <= s.bufs.Keys && s.pending <= s.lastUsed.Keys
  {
  }

  lemma ReservedFrame(s: Store, p: PieceId)
    requires Inv(s) && Enabled(s, Op.Reserve(p))
    ensures Reserved(s, p).bufs == s.bufs && Reserved(s, p).pool <= s.bufs.Keys
    ensures p in Reserved(s, p).pending && p !in Reserved(s, p).data
    ensures Reserved(s, p).lastUsed == s.lastUsed
  {
  }

  lemma WriteReady(s: Store, p: PieceId, off: nat, b: seq<byte>)
    requires Inv(s) && Faithful(s) && p in s.data && p in s.length && off < s.length[p]
    ensures Enabled(s, Write(p, off, b)) && s.data[p] in s.bufs && p in s.written && off <= |s.bufs[s.data[p]]|
    ensures Apply(s, Write(p, off, b)) == Written(s, p, off, b) && Written(s, p, off, b).data == s.data
  {
  }

  // Every heap key is a lower bound of its piece's recency stamp.
  ghost predicate Behind(es: multiset<Entry>, lru: set<PieceId>, lastUsed: map<PieceId, int>) {
    && lru <= lastUsed.Keys
    && forall e :: e in es ==> e.piece in lastUsed && e.key <= lastUsed[e.piece]
  }

  // Reads and completions only move stamps up, so the keys stay lower bounds.
  lemma BehindNewer(es: multiset<Entry>, lru: set<PieceId>, was: map<PieceId, int>, now: map<PieceId, int>)
    requires Behind(es, lru, was)
    requires forall p :: p in was ==> p in now && was[p] <= now[p]
    ensures Behind(es, lru, now)
  {
  }

  lemma BehindEntry(es: multiset<Entry>, lru: set<PieceId>, lastUsed: map<PieceId, int>, out: multiset<Entry>, e: Entry)
    requires Behind(es, lru, lastUsed) && e.piece in lastUsed && e.key <= lastUsed[e.piece]
    ensures Behind(es - out + multiset{e}, lru + {e.piece}, lastUsed)
  {
  }

  lemma Evictable(s: Store)
    requires Inv(s)
    ensures s.data.Keys <= s.length.Keys && s.lru <= s.data.Keys && s.lru <= s.lastUsed.Keys
    ensures s.lastUsed.Keys <= s.length.Keys
    ensures forall p, q :: p in s.lru && q in s.lru && p != q ==> s.lastUsed[p] != s.lastUsed[q]
    ensures forall p :: p in s.lastUsed ==> s.lastUsed[p] <= s.tick
  {
  }

  lemma EvictableVerified(s: Store, p: PieceId)
    requires Inv(s) && p in s.data
    ensures var v := Verified(s, p);
      && v.lru <= v.data.Keys && v.lru <= v.lastUsed.Keys && v.data.Keys <= v.length.Keys
      && forall p, q :: p in v.lru && q in v.lru && p != q ==> v.lastUsed[p] != v.lastUsed[q]
  {
  }

  lemma WrittenFrame(s: Store, p: PieceId, off: nat, b: seq<byte>)
    requires Inv(s) && Faithful(s) && Enabled(s, Write(p, off, b))
    ensures p in s.data && p in s.length && off < s.length[p]
    ensures s.data[p] in s.bufs && |s.bufs[s.data[p]]| == s.length[p]
    ensures var t := Apply(s, Write(p, off, b));
      t == s.(written := t.written, bufs := s.bufs[s.data[p] := Copied(s.bufs[s.data[p]], off, b)])
  {
  }

  lemma FreedShrinks(s: Store, vs: set<PieceId>)
    requires s.data.Keys <= s.length.Keys
    ensures Freed(s, vs).data.Keys <= s.length.Keys && Freed(s, vs).length == s.length
    ensures Freed(s, vs).lastUsed == s.lastUsed
  {
  }

  // Setting the kept piece aside and putting it back leaves the LRU less the victims.
  lemma Reunited(all: set<PieceId>, keep: Option<PieceId>, cands: set<PieceId>)
    requires cands == if keep.Some? && keep.value in all then all - {keep.value} else all
    ensures cands == all - Kept(keep)
  {
  }

  lemma Rejoined(all: set<PieceId>, cands: set<PieceId>, vs: set<PieceId>)
    requires vs <= cands <= all
    ensures cands - vs + (all - cands) == all - vs
  {
  }

  lemma VictimsDone(cands: set<PieceId>, stamp: map<PieceId, int>, length: map<PieceId, nat>, over: int)
    requires cands <= stamp.Keys && cands <= length.Keys && (over <= 0 || cands == {})
    ensures Victims(cands, stamp, length, over) == {}
  {
  }

  // A scan of cands that takes all in the end has taken vs, and over bytes are
  // still to be freed.
  ghost predicate Scans(all: set<PieceId>, vs: set<PieceId>, cands: set<PieceId>,
                        stamp: map<PieceId, int>, length: map<PieceId, nat>, over: int)
    requires cands <= stamp.Keys && cands <= length.Keys
  {
    all == vs + Victims(cands - vs, stamp, length, over)
  }

  lemma ScansAll(cands: set<PieceId>, stamp: map<PieceId, int>, length: map<PieceId, nat>, over: int)
    requires cands <= stamp.Keys && cands <= length.Keys
    ensures Scans(Victims(cands, stamp, length, over), {}, cands, stamp, length, over)
  {
    hide Victims;
    assert cands - {} == cands;
  }

  lemma ScansOne(all: set<PieceId>, vs: set<PieceId>, cands: set<PieceId>,
                 stamp: map<PieceId, int>, length: map<PieceId, nat>, over: int, v: PieceId)
    requires vs <= cands && cands <= stamp.Keys && cands <= length.Keys && Scans(all, vs, cands, stamp, length, over)
    requires over > 0 && cands - vs != {} && v == Oldest(cands - vs, stamp)
    ensures Scans(all, vs + {v}, cands, stamp, length, over - length[v])
  {
    assert cands - vs - {v} == cands - (vs + {v});
  }

  lemma ScansNone(all: set<PieceId>, vs: set<PieceId>, cands: set<PieceId>,
                  stamp: map<PieceId, int>, length: map<PieceId, nat>, over: int)
    requires cands <= stamp.Keys && cands <= length.Keys && Scans(all, vs, cands, stamp, length, over)
    requires over <= 0 || cands - vs == {}
    ensures vs == all
  {
  }

  lemma StepKeeps(s: Store, op: Op)
    requires Inv(s) && Faithful(s) && Enabled(s, op)
    ensures Inv(Apply(s, op)) && Faithful(Apply(s, op))
  {
    StepKeepsInv(s, op);
    StepKeepsFaith(s, op);
  }

  function Kept(keep: Option<PieceId>): set<PieceId> {
    if keep.Some? then {keep.value} else {}
  }

  lemma FreedNothing(s: Store)
    requires s.data.Keys <= s.length.Keys
    ensures Freed(s, {}) == s
  {
    assert s.data - {} == s.data && s.written - {} == s.written;
    assert Buffers(s.data, {}) == {};
  }

  lemma FreedBytes(s: Store, vs: set<PieceId>, v: PieceId)
    requires s.data.Keys <= s.length.Keys
    ensures Sum(s.length, (vs + {v}) * s.data.Keys)
         == Sum(s.length, vs * s.data.Keys) + Sum(s.length, {v} * (s.data.Keys - vs))
  {
    hide Sum;
    var ps, qs := vs * s.data.Keys, {v} * (s.data.Keys - vs);
    assert (vs + {v}) * s.data.Keys == ps + qs;
    SumSplit(s.length, ps + qs, ps);
    assert ps + qs - ps == qs;
  }

  lemma FreedMore(s: Store, vs: set<PieceId>, v: PieceId)
    requires s.data.Keys <= s.length.Keys
    ensures Freed(Freed(s, vs), {v}) == Freed(s, vs + {v})
  {
    hide Sum;
    FreedBytes(s, vs, v);
    assert s.data - vs - {v} == s.data - (vs + {v});
    assert s.written - vs - {v} == s.written - (vs + {v});
    assert s.complete - vs - {v} == s.complete - (vs + {v}) && s.lru - vs - {v} == s.lru - (vs + {v});
  }

  lemma FreedFrame(s: Store, vs: set<PieceId>)
    requires s.data.Keys <= s.length.Keys
    ensures Freed(s, vs).(lru := s.lru - vs) == Freed(s, vs)
  {
  }

  lemma FreedAnyLru(s: Store, v: PieceId, l: set<PieceId>)
    requires s.data.Keys <= s.length.Keys
    ensures Freed(s.(lru := l), {v}).(lru := l) == Freed(s, {v}).(lru := l)
  {
  }

  lemma PutBackMore(s: Store, vs: set<PieceId>, v: PieceId)
    requires s.data.Keys <= s.length.Keys
    ensures Freed(Freed(s, vs).(used := s.used, lru := s.lru), {v}).(lru := s.lru, used := s.used)
         == Freed(s, vs + {v}).(used := s.used, lru := s.lru)
  {
    assert s.data - vs - {v} == s.data - (vs + {v});
    assert s.written - vs - {v} == s.written - (vs + {v});
  }

  lemma FreedLess(s: Store, vs: set<PieceId>, v: PieceId)
    requires s.data.Keys <= s.length.Keys && v !in vs && v in s.data
    ensures Freed(s, vs + {v}).lastUsed == s.lastUsed
    ensures Freed(s, vs + {v}).used == Freed(s, vs).used - s.length[v]
  {
    SumWith(s.length, vs * s.data.Keys, v);
    assert (vs + {v}) * s.data.Keys == vs * s.data.Keys + {v};
  }

  lemma SumOfOne(length: map<PieceId, nat>, ps: set<PieceId>, p: PieceId)
    requires p in ps && ps <= length.Keys
    ensures {p} * ps == {p} && Sum(length, {p} * ps) == length[p]
  {
    assert {p} * ps == {p};
    SumWithout(length, {p}, p);
    assert {p} - {p} == {};
  }
}
