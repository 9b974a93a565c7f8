// Every run of the in-RAM piece store: each operation is one critical section of
// internal/engine/memstorage.go, and any of them may follow any other.
module PieceOps {
  import opened Bytes
  import opened LruHeap
  import opened Numbers
  import opened PieceStore
  import opened Sums
  import opened Wrappers

  datatype Error = NegativeOffset | EOF | PieceEvicted

  datatype Op =
    | NewPiece(p: PieceId)
    | Reserve(p: PieceId)
    | Install(p: PieceId, buf: Buf, content: seq<byte>)
    | Write(p: PieceId, off: nat, bytes: seq<byte>)
    | Stamp(p: PieceId)
    | MarkComplete(p: PieceId)
    | MarkNotComplete(p: PieceId)
    | CloseTorrent(ps: set<PieceId>)

  // What the source guarantees when it starts the critical section: allocMu lets
  // one first writer at a time reserve, and only a reserved piece is installed;
  // chunks are copied while the piece is resident.
  predicate Enabled(s: Store, op: Op) {
    match op
    case NewPiece(p) => p in s.length && p !in s.lastUsed
    case Reserve(p) => p in s.lastUsed && p !in s.data && p !in s.pending
    case Install(p, buf, content) =>
      && p in s.pending && p in s.length && |content| == s.length[p]
      && (if buf in s.bufs then buf in s.pool && s.bufs[buf] == content else buf !in s.pool)
    case Write(p, off, bytes) =>
      p in s.data && s.data[p] in s.bufs && p in s.length && off < s.length[p]
    case Stamp(p) => p in s.lastUsed
    case MarkComplete(p) => p in s.lastUsed
    case MarkNotComplete(p) => p in s.lastUsed
    case CloseTorrent(ps) => true
  }

  // copy(dst[off:], src)
  function Copied(dst: seq<byte>, off: nat, src: seq<byte>): (r: seq<byte>)
    requires off <= |dst|
    ensures |r| == |dst|
    ensures forall i :: 0 <= i < |dst| ==> r[i] == if off <= i < off + |src| then src[i - off] else dst[i]
  {
    var n := Min(|dst| - off, |src|);
    dst[..off] + src[..n] + dst[off + n..]
  }

  ghost function Reserved(s: Store, p: PieceId): Store
    requires Sound(s) && p in s.length
  {
    var t := Evicted(s, s.length[p], {});
    t.(used := t.used + s.length[p], pending := t.pending + {p})
  }

  ghost function Installed(s: Store, p: PieceId, buf: Buf, content: seq<byte>): Store {
    s.(pending := s.pending - {p}, data := s.data[p := buf], bufs := s.bufs[buf := content],
       pool := s.pool - {buf}, written := s.written[p := map[]])
  }

  ghost function Written(s: Store, p: PieceId, off: nat, bytes: seq<byte>): Store
    requires p in s.data && s.data[p] in s.bufs && p in s.written && off <= |s.bufs[s.data[p]]|
  {
    var was := s.bufs[s.data[p]];
    var n := Min(|bytes|, |was| - off);
    s.(bufs := s.bufs[s.data[p] := Copied(was, off, bytes)],
       written := s.written[p := s.written[p] + Placed(off, bytes[..n])])
  }

  ghost function Placed(off: nat, bytes: seq<byte>): (m: map<int, byte>)
    ensures forall i :: i in m <==> off <= i < off + |bytes|
    ensures forall i :: i in m ==> m[i] == bytes[i - off]
  {
    if bytes == [] then map[] else
      var n := |bytes| - 1;
      Placed(off, bytes[..n])[off + n := bytes[n]]
  }

  ghost function Stamped(s: Store, p: PieceId): Store
    requires p in s.lastUsed
  {
    if s.lastUsed[p] != s.tick then
      s.(tick := s.tick + 1, lastUsed := s.lastUsed[p := s.tick + 1])
    else s
  }

  ghost function Verified(s: Store, p: PieceId): Store {
    s.(tick := s.tick + 1, complete := s.complete + {p}, lastUsed := s.lastUsed[p := s.tick + 1], lru := s.lru + {p})
  }

  ghost function Apply(s: Store, op: Op): Store
    requires Inv(s) && Faithful(s) && Enabled(s, op)
  {
    match op
    case NewPiece(p) => s.(lastUsed := s.lastUsed[p := 0])
    case Reserve(p) => Reserved(s, p)
    case Install(p, buf, content) => Installed(s, p, buf, content)
    case Write(p, off, bytes) => Written(s, p, off, bytes)
    case Stamp(p) => Stamped(s, p)
    case MarkComplete(p) => if p !in s.data then s else Evicted(Verified(s, p), 0, {p})
    case MarkNotComplete(p) => s.(complete := s.complete - {p}, lru := s.lru - {p})
    case CloseTorrent(ps) => Freed(s, ps)
  }

  // ------------------------------------------------------ every step keeps Inv

  lemma ReservedKeeps(s: Store, p: PieceId)
    requires Sound(s) && Enabled(s, Reserve(p))
    ensures Inv(Reserved(s, p))
  {
    var vs := EvictionOf(s, s.length[p], {});
    FreedSound(s, vs);
    EvictedMakesRoom(s, s.length[p], {});
    SumWith(s.length, s.pending, p);
  }

  lemma InstalledOwned(s: Store, p: PieceId, buf: Buf, content: seq<byte>)
    requires Owned(s) && p !in s.data && p in s.length && Enabled(s, Install(p, buf, content))
    ensures Owned(Installed(s, p, buf, content))
  {
    var t := Installed(s, p, buf, content);
    forall q | q in s.data
      ensures s.data[q] != buf && t.bufs[s.data[q]] == s.bufs[s.data[q]]
    {
    }
  }

  lemma InstalledAccounted(s: Store, p: PieceId, buf: Buf, content: seq<byte>)
    requires Accounted(s) && p in s.pending
    ensures Accounted(Installed(s, p, buf, content))
  {
    SumWithout(s.length, s.pending, p);
    SumWith(s.length, s.data.Keys, p);
    assert Installed(s, p, buf, content).data.Keys == s.data.Keys + {p};
  }

  lemma InstalledKeeps(s: Store, p: PieceId, buf: Buf, content: seq<byte>)
    requires Inv(s) && Enabled(s, Install(p, buf, content))
    ensures Inv(Installed(s, p, buf, content))
  {
    InstalledAccounted(s, p, buf, content);
    InstalledOwned(s, p, buf, content);
    hide Owned, Accounted;
  }

  lemma VerifiedSound(s: Store, p: PieceId)
    requires Sound(s) && p in s.data
    ensures Sound(Verified(s, p))
  {
  }

  lemma CompletedKeeps(s: Store, p: PieceId)
    requires Sound(s) && p in s.data
    ensures Sound(Verified(s, p)) && Inv(Evicted(Verified(s, p), 0, {p}))
  {
    var v := Verified(s, p);
    VerifiedSound(s, p);
    FreedSound(v, EvictionOf(v, 0, {p}));
    EvictedMakesRoom(v, 0, {p});
    var t := Evicted(v, 0, {p});
    if t.lru <= {p} {
      AtMostOne(t.lru, p);
    }
  }

  lemma AtMostOne(ps: set<PieceId>, p: PieceId)
    requires ps <= {p}
    ensures |ps| <= 1
  {
    assert ps == {} || ps == {p};
  }

  lemma FewerLru(a: set<PieceId>, b: set<PieceId>)
    requires a <= b
    ensures |a| <= |b|
  {
    assert b == a + (b - a);
  }

  lemma WrittenOwned(s: Store, p: PieceId, off: nat, bytes: seq<byte>)
    requires Owned(s) && p in s.data && p in s.written && off <= |s.bufs[s.data[p]]|
    ensures Owned(Written(s, p, off, bytes))
  {
  }

  // Buffers are not shared, so a write shows in no other piece.
  lemma WrittenFaithful(s: Store, p: PieceId, off: nat, bytes: seq<byte>)
    requires Owned(s) && Faithful(s) && p in s.data && off <= |s.bufs[s.data[p]]|
    ensures Faithful(Written(s, p, off, bytes))
  {
    hide Placed, Copied;
    var t := Written(s, p, off, bytes);
    forall q, i | q in t.data && t.data[q] in t.bufs && i in t.written[q]
      ensures 0 <= i < |t.bufs[t.data[q]]| && t.bufs[t.data[q]][i] == t.written[q][i]
    {
      if q != p {
        assert t.bufs[t.data[q]] == s.bufs[s.data[q]] && t.written[q] == s.written[q];
      }
    }
  }

  lemma WrittenFits(s: Store, p: PieceId, off: nat, bytes: seq<byte>)
    requires Owned(s) && Faithful(s) && Enabled(s, Write(p, off, bytes))
    ensures p in s.data && p in s.written && off <= |s.bufs[s.data[p]]|
  {
  }

  lemma WrittenKeeps(s: Store, p: PieceId, off: nat, bytes: seq<byte>)
    requires Inv(s) && Faithful(s) && Enabled(s, Write(p, off, bytes))
    ensures Inv(Written(s, p, off, bytes)) && Faithful(Written(s, p, off, bytes))
  {
    hide Owned, Faithful, Placed, Copied;
    WrittenFits(s, p, off, bytes);
    WrittenOwned(s, p, off, bytes);
    WrittenFaithful(s, p, off, bytes);
  }

  lemma UnrankedKeeps(s: Store, p: PieceId)
    requires Inv(s)
    ensures Inv(s.(complete := s.complete - {p}, lru := s.lru - {p}))
  {
    FewerLru(s.lru - {p}, s.lru);
  }

  lemma FreedKeeps(s: Store, ps: set<PieceId>)
    requires Inv(s)
    ensures Inv(Freed(s, ps))
  {
    hide Owned, Ranked, Accounted;
    FreedSound(s, ps);
    FewerLru(s.lru - ps, s.lru);
  }

  lemma StampedKeeps(s: Store, p: PieceId)
    requires Inv(s) && p in s.lastUsed
    ensures Inv(Stamped(s, p))
  {
  }

  lemma NewPieceKeeps(s: Store, p: PieceId)
    requires Inv(s) && p in s.length && p !in s.lastUsed
    ensures Inv(s.(lastUsed := s.lastUsed[p := 0]))
  {
  }

  lemma StepKeepsInv(s: Store, op: Op)
    requires Inv(s) && Faithful(s) && Enabled(s, op)
    ensures Inv(Apply(s, op))
  {
    hide Owned, Ranked, Accounted;
    match op
    case NewPiece(p) => NewPieceKeeps(s, p);
    case Reserve(p) => ReservedKeeps(s, p);
    case Install(p, buf, content) => InstalledKeeps(s, p, buf, content);
    case Write(p, off, bytes) => WrittenKeeps(s, p, off, bytes);
    case Stamp(p) => StampedKeeps(s, p);
    case MarkComplete(p) =>
      if p in s.data {
        CompletedKeeps(s, p);
      }
    case MarkNotComplete(p) => UnrankedKeeps(s, p);
    case CloseTorrent(ps) => FreedKeeps(s, ps);
  }

  lemma InstalledFaithful(s: Store, p: PieceId, buf: Buf, content: seq<byte>)
    requires Owned(s) && Faithful(s) && p !in s.data && Enabled(s, Install(p, buf, content))
    ensures Faithful(Installed(s, p, buf, content))
  {
    var t := Installed(s, p, buf, content);
    forall q, i | q in t.data && t.data[q] in t.bufs && i in t.written[q]
      ensures 0 <= i < |t.bufs[t.data[q]]| && t.bufs[t.data[q]][i] == t.written[q][i]
    {
      assert q != p && s.data[q] != buf;
    }
  }

  // Faithfulness does not depend on stamps, completeness or the LRU.
  lemma SameFaith(s: Store, t: Store)
    requires Faithful(s) && t.data == s.data && t.bufs == s.bufs && t.written == s.written
    ensures Faithful(t)
  {
  }

  lemma StepKeepsFaith(s: Store, op: Op)
    requires Inv(s) && Faithful(s) && Enabled(s, op)
    ensures Faithful(Apply(s, op))
  {
    hide Faithful, Freed, Written;
    match op
    case NewPiece(p) => SameFaith(s, Apply(s, op));
    case Reserve(p) =>
      FreedFaithful(s, EvictionOf(s, s.length[p], {}));
      SameFaith(Evicted(s, s.length[p], {}), Apply(s, op));
    case Install(p, buf, content) => InstalledFaithful(s, p, buf, content);
    case Write(p, off, bytes) => WrittenKeeps(s, p, off, bytes);
    case Stamp(p) => SameFaith(s, Apply(s, op));
    case MarkComplete(p) =>
      if p in s.data {
        VerifiedSound(s, p);
        SameFaith(s, Verified(s, p));
        FreedFaithful(Verified(s, p), EvictionOf(Verified(s, p), 0, {p}));
      }
    case MarkNotComplete(p) => SameFaith(s, Apply(s, op));
    case CloseTorrent(ps) => FreedFaithful(s, ps);
  }

  // ---------------------------------------------------------------- all runs

  // From s, op may run and leads to t. What it does is only defined in states that
  // keep the invariant; EveryRunIsSafe shows that there are no others.
  ghost predicate Leads(s: Store, op: Op, t: Store) {
    Enabled(s, op) && (Inv(s) && Faithful(s) ==> t == Apply(s, op))
  }

  // The states a run passes through, each one critical section after the last.
  ghost predicate IsRun(states: seq<Store>, ops: seq<Op>) {
    && |states| == |ops| + 1
    && forall i :: 0 <= i < |ops| ==> Leads(states[i], ops[i], states[i + 1])
  }

  ghost predicate Initial(s: Store) {
    && s.used == 0 && s.tick == 0 && s.data == map[] && s.complete == {} && s.lastUsed == map[] && s.lru == {}
    && s.pool <= s.bufs.Keys && s.pending == {} && s.written == map[]
  }

  lemma StartsSafe(s: Store)
    requires Initial(s)
    ensures Inv(s) && Faithful(s)
  {
  }

  // Accounting, ranking, buffer ownership, the budget and the bytes hold after
  // every prefix of every interleaving of critical sections.
  lemma {:induction false} EveryRunIsSafe(states: seq<Store>, ops: seq<Op>, k: nat)
    requires IsRun(states, ops) && Initial(states[0]) && k <= |ops|
    ensures Inv(states[k]) && Faithful(states[k])
  {
    hide Inv, Faithful, Apply, Enabled;
    if k == 0 {
      StartsSafe(states[0]);
    } else {
      EveryRunIsSafe(states, ops, k - 1);
      assert Leads(states[k - 1], ops[k - 1], states[k - 1 + 1]);
      StepKeepsInv(states[k - 1], ops[k - 1]);
      StepKeepsFaith(states[k - 1], ops[k - 1]);
    }
  }

  // Room made by one step is only ever used up by reservations: no other step
  // raises the bytes accounted.
  lemma OnlyReserveGrows(s: Store, op: Op)
    requires Inv(s) && Faithful(s) && Enabled(s, op) && !op.Reserve?
    ensures Apply(s, op).used <= s.used
  {
  }

  // A step never frees a piece that was not complete, except that closing a
  // torrent frees its own; and completing a piece never frees that piece.
  lemma OnlyCompleteIsEvicted(s: Store, op: Op, p: PieceId)
    requires Inv(s) && Faithful(s) && Enabled(s, op)
    requires p in s.data && p !in Apply(s, op).data
    ensures p in s.complete || (op.CloseTorrent? && p in op.ps)
    ensures op != MarkComplete(p)
  {
  }

  // --------------------------------------------------------- reading it back

  // ReadAt: the bytes, and the error if the request was not satisfied.
  function Read(s: Store, p: PieceId, want: nat, off: int): (r: (seq<byte>, Option<Error>))
    requires p in s.data ==> p in s.length && s.data[p] in s.bufs && |s.bufs[s.data[p]]| == s.length[p]
  {
    if p in s.data && 0 <= off < s.length[p] then
      var buf := s.bufs[s.data[p]];
      var n := Min(want, |buf| - off);
      (buf[off..off + n], if n < want then Some(EOF) else None)
    else if off < 0 then ([], Some(NegativeOffset))
    else if p in s.data then ([], Some(EOF))
    else ([], Some(PieceEvicted))
  }

  // Zero bytes without an error is what the storage wrappers panic on; only an
  // empty request can get it.
  lemma NeverSilentlyEmpty(s: Store, p: PieceId, want: nat, off: int)
    requires Sound(s) && p in s.lastUsed
    ensures Read(s, p, want, off) == ([], None) <==> want == 0 && p in s.data && 0 <= off < s.length[p]
  {
    if p in s.data && 0 <= off < s.length[p] {
      assert |Read(s, p, want, off).0| == Min(want, s.length[p] - off);
    }
  }

  // A fully written piece reads back exactly what was last written at each offset.
  lemma ReadsLatest(s: Store, p: PieceId, want: nat, off: nat)
    requires Sound(s) && Faithful(s) && p in s.data && off < s.length[p]
    requires forall i :: 0 <= i < s.length[p] ==> i in s.written[p]
    ensures var (bytes, err) := Read(s, p, want, off);
      && |bytes| == Min(want, s.length[p] - off)
      && (forall k :: 0 <= k < |bytes| ==> bytes[k] == s.written[p][off + k])
      && (err == None <==> off + want <= s.length[p])
  {
  }

  const WRITE_TO_CHUNK := 65536

  // What a chunk of WriteTo needs of the store it finds.
  ghost predicate Streamable(s: Store, p: PieceId, length: nat) {
    && p in s.data && s.data[p] in s.bufs && |s.bufs[s.data[p]]| == length
    && p in s.written && forall i :: 0 <= i < length ==> i in s.written[p] && s.written[p][i] == s.bufs[s.data[p]][i]
  }

  ghost predicate LastWritten(s: Store, p: PieceId, at: int, b: byte) {
    p in s.written && at in s.written[p] && s.written[p][at] == b
  }

  // WriteTo from total on: the store is unlocked between chunks, so chunk i is
  // copied from states[i].
  ghost function Streamed(states: seq<Store>, p: PieceId, length: nat, total: nat): (r: (seq<byte>, Option<Error>))
    decreases |states|
  {
    if total >= length || states == [] then ([], None)
    else if p !in states[0].data || states[0].data[p] !in states[0].bufs then ([], Some(PieceEvicted))
    else
      var buf := states[0].bufs[states[0].data[p]];
      var n := Min(WRITE_TO_CHUNK, |buf| - total);
      if n < 0 then ([], None)
      else
        var rest := Streamed(states[1..], p, length, total + n);
        (buf[total..total + n] + rest.0, rest.1)
  }

  lemma {:induction false} StreamsWhole(states: seq<Store>, p: PieceId, length: nat, total: nat)
    requires total <= length && length - total <= |states| * WRITE_TO_CHUNK
    requires forall i :: 0 <= i < |states| ==> Streamable(states[i], p, length)
    ensures var (out, err) := Streamed(states, p, length, total); err.None? && |out| == length - total
    decreases |states|
  {
    if total < length {
      assert Streamable(states[0], p, length);
      StreamsWhole(states[1..], p, length, total + Min(WRITE_TO_CHUNK, length - total));
    }
  }

  // The stream is the first chunk, as last written, and the stream of the rest.
  lemma StreamsChunk(states: seq<Store>, p: PieceId, length: nat, total: nat, k: nat)
    requires states != [] && total < length && Streamable(states[0], p, length)
    ensures var n := Min(WRITE_TO_CHUNK, length - total);
      var out, rest := Streamed(states, p, length, total).0, Streamed(states[1..], p, length, total + n).0;
      && (k < n ==> k < |out| && LastWritten(states[0], p, total + k, out[k]))
      && (n <= k && k - n < |rest| ==> k < |out| && out[k] == rest[k - n])
  {
  }

  lemma {:induction false} StreamsAt(states: seq<Store>, p: PieceId, length: nat, total: nat, k: nat)
    requires total <= length && length - total <= |states| * WRITE_TO_CHUNK && k < length - total
    requires forall i :: 0 <= i < |states| ==> Streamable(states[i], p, length)
    ensures k < |Streamed(states, p, length, total).0| && k / WRITE_TO_CHUNK < |states|
    ensures LastWritten(states[k / WRITE_TO_CHUNK], p, total + k, Streamed(states, p, length, total).0[k])
    decreases |states|
  {
    hide Streamable, Streamed, LastWritten;
    var n := Min(WRITE_TO_CHUNK, length - total);
    StreamsChunk(states, p, length, total, k);
    if k >= n {
      StreamsAt(states[1..], p, length, total + n, k - n);
      assert k / WRITE_TO_CHUNK == (k - n) / WRITE_TO_CHUNK + 1;
    } else {
      assert k / WRITE_TO_CHUNK == 0;
    }
  }

  // A piece that stays resident and fully written streams, at every offset, what
  // was last written there when the chunk was copied.
  lemma StreamsLatest(states: seq<Store>, p: PieceId, length: nat, total: nat)
    requires total <= length && length - total <= |states| * WRITE_TO_CHUNK
    requires forall i :: 0 <= i < |states| ==> Streamable(states[i], p, length)
    ensures var (out, err) := Streamed(states, p, length, total);
      && err.None? && |out| == length - total
      && forall k :: 0 <= k < |out| ==>
           k / WRITE_TO_CHUNK < |states| && LastWritten(states[k / WRITE_TO_CHUNK], p, total + k, out[k])
  {
    hide Streamable, Streamed, LastWritten;
    StreamsWhole(states, p, length, total);
    var out := Streamed(states, p, length, total).0;
    forall k | 0 <= k < |out|
      ensures k / WRITE_TO_CHUNK < |states| && LastWritten(states[k / WRITE_TO_CHUNK], p, total + k, out[k])
    {
      StreamsAt(states, p, length, total, k);
    }
  }

  // -------------------------------------------------------- client-level Close

  ghost function Closed(s: Store): Store
    requires s.data.Keys <= s.length.Keys
  {
    Freed(s, s.lru).(used := 0)
  }

  // Close visits the LRU only. The accounting survives it exactly when nothing
  // else is accounted: no incomplete piece is resident and none is reserved.
  lemma CloseNeedsClosedTorrents(s: Store)
    requires Sound(s) && forall p :: p in s.length ==> s.length[p] > 0
    ensures Accounted(Closed(s)) <==> s.data.Keys == s.lru && s.pending == {}
  {
    hide Sum;
    var left := s.data.Keys - s.lru;
    assert Closed(s).data.Keys == left;
    NothingSums(s.length, left);
    NothingSums(s.length, s.pending);
  }

  lemma NothingSums(size: map<PieceId, nat>, ps: set<PieceId>)
    requires ps <= size.Keys && forall p :: p in size ==> size[p] > 0
    ensures Sum(size, ps) == 0 <==> ps == {}
  {
    if p :| p in ps {
      SumWithout(size, ps, p);
    }
  }

  // Closing every torrent first meets the condition exactly when no first writer
  // is between reserving and installing: closing drops buffers, not reservations.
  lemma ClosedTorrentsSuffice(s: Store)
    requires Sound(s) && forall p :: p in s.length ==> s.length[p] > 0
    ensures var t := Freed(s, s.data.Keys);
      && t.data == map[] && t.lru == {}
      && (Accounted(Closed(t)) <==> s.pending == {})
  {
    hide Owned, Ranked, Accounted;
    InData(s);
    var t := Freed(s, s.data.Keys);
    FreedSound(s, s.data.Keys);
    assert t.data == map[] && t.lru == {};
    CloseNeedsClosedTorrents(t);
  }

  lemma InData(s: Store)
    requires Sound(s)
    ensures s.lru <= s.data.Keys && s.data.Keys <= s.length.Keys
  {
  }

  // Where nothing is resident, a reservation only reserves, and closing a torrent
  // changes nothing.
  lemma ReservedOnly(s: Store, p: PieceId)
    requires Sound(s) && p in s.length && s.data == map[] && s.written == map[]
    ensures Reserved(s, p) == s.(used := s.used + s.length[p], pending := s.pending + {p})
    ensures Freed(s, {p}) == s
  {
    assert s.lru == {} && EvictionOf(s, s.length[p], {}) == {};
    assert s.data - {} == s.data && s.written - {} == s.written && s.pool + {} == s.pool;
    assert s.data - {p} == s.data && s.written - {p} == s.written && s.complete - {p} == s.complete;
    assert Buffers(s.data, {}) == {} == Buffers(s.data, {p}) && {p} * s.data.Keys == {};
  }

  function Made(s: Store, p: PieceId): Store {
    s.(lastUsed := s.lastUsed[p := 0])
  }

  function Waiting(s: Store, p: PieceId): Store
    requires p in s.length
  {
    s.(used := s.used + s.length[p], pending := s.pending + {p})
  }

  lemma MakingLeads(s: Store, p: PieceId)
    requires Inv(s) && Faithful(s) && Enabled(s, NewPiece(p))
    ensures Leads(s, NewPiece(p), Made(s, p)) && Inv(Made(s, p)) && Faithful(Made(s, p))
  {
    hide Inv, Faithful;
    StepKeepsInv(s, NewPiece(p));
    StepKeepsFaith(s, NewPiece(p));
  }

  lemma WaitingLeads(s: Store, p: PieceId)
    requires Inv(s) && Faithful(s) && Enabled(s, Reserve(p)) && p in s.length && s.data == map[] && s.written == map[]
    ensures Leads(s, Reserve(p), Waiting(s, p)) && Inv(Waiting(s, p)) && Faithful(Waiting(s, p))
  {
    hide Inv, Faithful, Reserved;
    SoundStore(s);
    StepKeepsInv(s, Reserve(p));
    StepKeepsFaith(s, Reserve(p));
    ReservedOnly(s, p);
  }

  lemma ClosingLeads(s: Store, p: PieceId)
    requires Inv(s) && p in s.length && s.data == map[] && s.written == map[]
    ensures Leads(s, CloseTorrent({p}), s)
  {
    hide Inv, Faithful, Freed;
    SoundStore(s);
    ReservedOnly(s, p);
  }

  lemma SoundStore(s: Store)
    requires Inv(s)
    ensures Sound(s)
  {
  }

  // From every initial store the accounting can be lost although all torrents
  // were closed: a piece is created and reserved, and its torrent and then the
  // store are closed before the first writer installs the buffer.
  lemma ReservationOutlivesClose(s: Store, p: PieceId)
    requires Initial(s) && p in s.length && forall q :: q in s.length ==> s.length[q] > 0
    ensures var t := Waiting(Made(s, p), p);
      && IsRun([s, Made(s, p), t, t], [NewPiece(p), Reserve(p), CloseTorrent({p})])
      && t.data == map[] && t.data.Keys <= t.length.Keys && !Accounted(Closed(t))
  {
    hide Inv, Faithful, Leads, Accounted, Closed;
    var m := Made(s, p);
    var t := Waiting(m, p);
    StartsSafe(s);
    MakingLeads(s, p);
    WaitingLeads(m, p);
    ClosingLeads(t, p);
    SoundStore(t);
    CloseNeedsClosedTorrents(t);
    assert p in t.pending;
  }
}
