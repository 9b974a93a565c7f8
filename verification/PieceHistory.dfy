// What the state of the in-RAM piece store says about its past, for every run of
// PieceOps: the order of last use, the bytes last written, and which pieces are
// complete are read off the operations alone, without the fields that record them.
module PieceHistory {
  import opened Bytes
  import opened LruHeap
  import opened Numbers
  import opened PieceOps
  import opened PieceStore
  import opened Sums
  import opened Wrappers

  // ------------------------------------------------------------- last use

  // A piece is used by serving a read and by being completed while resident.
  ghost predicate Uses(s: Store, op: Op, p: PieceId) {
    op == Stamp(p) || (op == MarkComplete(p) && p in s.data)
  }

  // For each piece used in the first k operations, the last one that used it.
  ghost function LastUses(states: seq<Store>, ops: seq<Op>, k: nat): map<PieceId, nat>
    requires k <= |ops| <= |states|
  {
    if k == 0 then map[]
    else
      var before := LastUses(states, ops, k - 1);
      match ops[k - 1]
      case Stamp(p) => before[p := k - 1]
      case MarkComplete(p) => if p in states[k - 1].data then before[p := k - 1] else before
      case _ => before
  }

  // q was not used, or before p.
  predicate Earlier(last: map<PieceId, nat>, q: PieceId, p: PieceId) {
    p in last && (q !in last || last[q] < last[p])
  }

  // A stamp other than the initial one is nobody else's, and tells who was used
  // before.
  ghost predicate Apart(stamp: map<PieceId, int>, last: map<PieceId, nat>, p: PieceId, q: PieceId)
    requires p in stamp && q in stamp
  {
    stamp[p] > 0 ==> p in last && stamp[q] != stamp[p] && (stamp[q] < stamp[p] <==> Earlier(last, q, p))
  }

  ghost predicate ByUse(s: Store, last: map<PieceId, nat>, k: nat) {
    && (forall p :: p in last ==> last[p] < k && p in s.lastUsed)
    && (forall p :: p in s.lastUsed ==> 0 <= s.lastUsed[p] <= s.tick && (s.lastUsed[p] > 0 ==> p in last))
    && (forall p, q :: p in s.lastUsed && q in s.lastUsed && p != q ==> Apart(s.lastUsed, last, p, q))
    && (forall p :: p in s.lru ==> p in s.lastUsed && s.lastUsed[p] > 0)
  }

  lemma UsedNow(s: Store, t: Store, last: map<PieceId, nat>, k: nat, p: PieceId)
    requires ByUse(s, last, k) && p in s.lastUsed && t.lru <= s.lru + {p}
    requires t.tick == s.tick + 1 && t.lastUsed == s.lastUsed[p := s.tick + 1]
    ensures ByUse(t, last[p := k], k + 1)
  {
    forall q, w | q in t.lastUsed && w in t.lastUsed && q != w
      ensures Apart(t.lastUsed, last[p := k], q, w)
    {
      assert Apart(s.lastUsed, last, q, w);
    }
  }

  // A piece that has the newest stamp already needs no new one.
  lemma UsedAgain(s: Store, last: map<PieceId, nat>, k: nat, p: PieceId)
    requires ByUse(s, last, k) && p in s.lastUsed && s.lastUsed[p] == s.tick
    ensures ByUse(s, last[p := k], k + 1)
  {
    forall q, w | q in s.lastUsed && w in s.lastUsed && q != w
      ensures Apart(s.lastUsed, last[p := k], q, w)
    {
      assert Apart(s.lastUsed, last, q, w) && Apart(s.lastUsed, last, w, q);
    }
  }

  lemma UsedNot(s: Store, t: Store, last: map<PieceId, nat>, k: nat)
    requires ByUse(s, last, k) && t.lru <= s.lru && t.tick == s.tick
    requires s.lastUsed.Keys <= t.lastUsed.Keys && forall p :: p in s.lastUsed ==> t.lastUsed[p] == s.lastUsed[p]
    requires forall p :: p in t.lastUsed && p !in s.lastUsed ==> t.lastUsed[p] == 0
    ensures ByUse(t, last, k + 1)
  {
    forall q, w | q in t.lastUsed && w in t.lastUsed && q != w
      ensures Apart(t.lastUsed, last, q, w)
    {
      if q in s.lastUsed && w in s.lastUsed {
        assert Apart(s.lastUsed, last, q, w);
      }
    }
  }

  ghost function Used(s: Store, op: Op, last: map<PieceId, nat>, k: nat): map<PieceId, nat> {
    match op
    case Stamp(p) => last[p := k]
    case MarkComplete(p) => if p in s.data then last[p := k] else last
    case _ => last
  }

  lemma StepByUse(s: Store, op: Op, last: map<PieceId, nat>, k: nat)
    requires Inv(s) && Faithful(s) && Enabled(s, op) && ByUse(s, last, k)
    ensures ByUse(Apply(s, op), Used(s, op, last, k), k + 1)
  {
    hide ByUse, Faithful, Inv;
    var t := Apply(s, op);
    Framed(s, op);
    match op
    case Stamp(p) =>
      if s.lastUsed[p] == s.tick {
        UsedAgain(s, last, k, p);
      } else {
        UsedNow(s, t, last, k, p);
      }
    case MarkComplete(p) =>
      if p in s.data {
        UsedNow(s, t, last, k, p);
      } else {
        UsedNot(s, t, last, k);
      }
    case _ => UsedNot(s, t, last, k);
  }

  // The clock and the stamps change with a use only, and only a completion adds
  // to the LRU.
  lemma Framed(s: Store, op: Op)
    requires Inv(s) && Faithful(s) && Enabled(s, op)
    ensures var t := Apply(s, op);
      match op
      case Stamp(p) =>
        && t.lru == s.lru
        && (if s.lastUsed[p] == s.tick then t == s
            else t.tick == s.tick + 1 && t.lastUsed == s.lastUsed[p := s.tick + 1])
      case MarkComplete(p) =>
        if p in s.data then
          t.tick == s.tick + 1 && t.lastUsed == s.lastUsed[p := s.tick + 1] && t.lru <= s.lru + {p}
        else t == s
      case NewPiece(p) => t.tick == s.tick && t.lastUsed == s.lastUsed[p := 0] && t.lru == s.lru
      case _ => t.tick == s.tick && t.lastUsed == s.lastUsed && t.lru <= s.lru
  {
    hide Faithful;
  }

  lemma {:induction false} RunByUse(states: seq<Store>, ops: seq<Op>, k: nat)
    requires IsRun(states, ops) && Initial(states[0]) && k <= |ops|
    ensures ByUse(states[k], LastUses(states, ops, k), k)
  {
    hide Inv, Faithful, Apply, Enabled, ByUse;
    if k == 0 {
      StartsByUse(states[0]);
    } else {
      RunByUse(states, ops, k - 1);
      EveryRunIsSafe(states, ops, k - 1);
      assert Leads(states[k - 1], ops[k - 1], states[k - 1 + 1]);
      StepByUse(states[k - 1], ops[k - 1], LastUses(states, ops, k - 1), k - 1);
    }
  }

  lemma StartsByUse(s: Store)
    requires Initial(s)
    ensures ByUse(s, map[], 0)
  {
  }

  // After every run complete pieces stand in the eviction order exactly as they
  // were last used: by a read that served bytes or by completing.
  lemma RecencyIsOrderOfUse(states: seq<Store>, ops: seq<Op>, k: nat, p: PieceId, q: PieceId)
    requires IsRun(states, ops) && Initial(states[0]) && k <= |ops|
    requires p in states[k].lru && q in states[k].lru && p != q
    ensures var last := LastUses(states, ops, k);
      && p in last && q in last && last[p] != last[q]
      && p in states[k].lastUsed && q in states[k].lastUsed
      && (states[k].lastUsed[q] < states[k].lastUsed[p] <==> last[q] < last[p])
  {
    hide ByUse, LastUses, Initial;
    RunByUse(states, ops, k);
    RankedByUse(states[k], LastUses(states, ops, k), k, p, q);
  }

  lemma RankedByUse(s: Store, last: map<PieceId, nat>, k: nat, p: PieceId, q: PieceId)
    requires ByUse(s, last, k) && p in s.lru && q in s.lru && p != q
    ensures p in last && q in last && last[p] != last[q] && p in s.lastUsed && q in s.lastUsed
    ensures s.lastUsed[q] < s.lastUsed[p] <==> last[q] < last[p]
  {
    assert Apart(s.lastUsed, last, p, q) && Apart(s.lastUsed, last, q, p);
  }

  // ------------------------------------------------------------- eviction

  ghost predicate Evicts(op: Op) {
    op.Reserve? || op.MarkComplete?
  }

  // vs are the victims of one pass that keeps keep and is to make room for need
  // bytes; t is what it leaves, keep being complete by then.
  ghost predicate Pass(s: Store, t: Store, need: nat, keep: set<PieceId>, vs: set<PieceId>) {
    && s.lru <= s.lastUsed.Keys && s.lru <= s.length.Keys && vs <= s.data.Keys && s.data.Keys <= s.length.Keys
    && vs == Victims(s.lru - keep, s.lastUsed, s.length, s.used + need - s.capacity)
    && t.data.Keys == s.data.Keys - vs && t.lru == s.lru - vs + keep
    && t.used == s.used + need - Sum(s.length, vs)
  }

  lemma ReservePass(s: Store, p: PieceId) returns (vs: set<PieceId>)
    requires Inv(s) && Faithful(s) && Enabled(s, Reserve(p))
    ensures p in s.length && Pass(s, Apply(s, Reserve(p)), s.length[p], {}, vs)
  {
    hide Sum, Faithful, Victims, Owned;
    vs := EvictionOf(s, s.length[p], {});
    assert vs * s.data.Keys == vs && s.lru - {} == s.lru;
    assert Apply(s, Reserve(p)).lru == s.lru - vs + {};
  }

  lemma CompletePass(s: Store, p: PieceId) returns (vs: set<PieceId>)
    requires Inv(s) && Faithful(s) && Enabled(s, MarkComplete(p)) && p in s.data
    ensures Pass(s, Apply(s, MarkComplete(p)), 0, {p}, vs)
  {
    hide Sum, Faithful, Victims, Owned, Accounted;
    var v := Verified(s, p);
    assert v.lru - {p} == s.lru - {p};
    SameVictims(s.lru - {p}, s.lastUsed, v.lastUsed, s.length, s.used - s.capacity);
    vs := EvictionOf(v, 0, {p});
    assert vs * s.data.Keys == vs;
    assert v.lru - vs == s.lru - vs + {p};
  }

  lemma TakenByPass(s: Store, op: Op) returns (need: nat, keep: set<PieceId>, vs: set<PieceId>)
    requires Inv(s) && Faithful(s) && Enabled(s, op) && Evicts(op) && Apply(s, op).data.Keys != s.data.Keys
    ensures keep == (if op.MarkComplete? then {op.p} else {}) && Pass(s, Apply(s, op), need, keep, vs)
  {
    hide Inv, Faithful, Pass, Reserved, Evicted, Verified;
    if op.Reserve? {
      vs := ReservePass(s, op.p);
      keep, need := {}, s.length[op.p];
    } else {
      vs := CompletePass(s, op.p);
      keep, need := {op.p}, 0;
    }
  }

  // Victims depend on the stamps of the candidates only.
  lemma {:induction false} SameVictims(cands: set<PieceId>, stamp: map<PieceId, int>, other: map<PieceId, int>,
                                       length: map<PieceId, nat>, over: int)
    requires cands <= stamp.Keys && cands <= other.Keys && cands <= length.Keys
    requires forall p :: p in cands ==> stamp[p] == other[p]
    requires forall p, q :: p in cands && q in cands && p != q ==> stamp[p] != stamp[q]
    ensures Victims(cands, stamp, length, over) == Victims(cands, other, length, over)
    decreases cands
  {
    if over > 0 && cands != {} {
      var v, w := Oldest(cands, stamp), Oldest(cands, other);
      assert v == w;
      SameVictims(cands - {v}, stamp, other, length, over - length[v]);
    }
  }

  // Pieces are evicted in the order of their last use: what stays, but for the
  // piece just completed, was used after everything that goes.
  lemma EvictionFollowsUse(states: seq<Store>, ops: seq<Op>, k: nat, v: PieceId, w: PieceId)
    requires IsRun(states, ops) && Initial(states[0]) && k < |ops| && Evicts(ops[k])
    requires v in states[k].data && v !in states[k + 1].data
    requires w in states[k].lru && w in states[k + 1].lru && ops[k] != MarkComplete(w)
    ensures var last := LastUses(states, ops, k); v in last && w in last && last[v] < last[w]
  {
    hide Inv, Faithful, Apply, Enabled, Victims, LastUses;
    var s := states[k];
    EveryRunIsSafe(states, ops, k);
    assert Leads(s, ops[k], states[k + 1]);
    var need, keep, vs := TakenByPass(s, ops[k]);
    VictimsAreOldest(s.lru - keep, s.lastUsed, s.length, s.used + need - s.capacity);
    RecencyIsOrderOfUse(states, ops, k, v, w);
  }

  // No more than needed: without the last of what goes, by recency, the room
  // would still be short.
  lemma EvictsNoMore(s: Store, op: Op) returns (newest: PieceId)
    requires Inv(s) && Faithful(s) && Enabled(s, op) && Evicts(op) && Apply(s, op).data.Keys != s.data.Keys
    ensures var t := Apply(s, op); var gone := s.data.Keys - t.data.Keys;
      && newest in gone && newest in s.length && gone <= s.lastUsed.Keys
      && (forall q :: q in gone ==> s.lastUsed[q] <= s.lastUsed[newest])
      && t.used + s.length[newest] > s.capacity
  {
    hide Inv, Faithful, Apply, Enabled, Victims, Sum;
    var need, keep, vs := TakenByPass(s, op);
    var over := s.used + need - s.capacity;
    SomeNeeded(s.lru - keep, s.lastUsed, s.length, over);
    newest := VictimsAreNeeded(s.lru - keep, s.lastUsed, s.length, over);
    SumWithout(s.length, vs, newest);
    assert s.data.Keys - Apply(s, op).data.Keys == vs;
  }

  lemma SomeNeeded(cands: set<PieceId>, stamp: map<PieceId, int>, length: map<PieceId, nat>, over: int)
    requires cands <= stamp.Keys && cands <= length.Keys && Victims(cands, stamp, length, over) != {}
    ensures over > 0 && cands != {}
  {
  }

  // A piece used after every other complete one is the last to go.
  lemma NewestGoesLast(s: Store, p: PieceId, need: nat, keep: set<PieceId>)
    requires Sound(s) && p in s.lru && forall q :: q in s.lru && q != p ==> s.lastUsed[q] < s.lastUsed[p]
    requires p in EvictionOf(s, need, keep)
    ensures EvictionOf(s, need, keep) == s.lru - keep
    ensures s.used + need - Sum(s.length, s.lru - keep - {p}) > s.capacity
  {
    hide Victims, Sum, Owned, Accounted;
    var cands, over := s.lru - keep, s.used + need - s.capacity;
    SomeNeeded(cands, s.lastUsed, s.length, over);
    VictimsAreOldest(cands, s.lastUsed, s.length, over);
    var v := VictimsAreNeeded(cands, s.lastUsed, s.length, over);
    assert v == p;
    assert cands - Victims(cands, s.lastUsed, s.length, over) == {};
  }

  // ----------------------------------------------------------- last written

  // The byte that the last of the first k operations to write offset i of p wrote
  // there, if one did since the piece was last given a buffer.
  function LastWrite(ops: seq<Op>, k: nat, p: PieceId, i: nat): Option<byte>
    requires k <= |ops|
  {
    if k == 0 then None
    else
      match ops[k - 1]
      case Write(q, off, bytes) =>
        if q == p && off <= i < off + |bytes| then Some(bytes[i - off]) else LastWrite(ops, k - 1, p, i)
      case Install(q, _, _) => if q == p then None else LastWrite(ops, k - 1, p, i)
      case _ => LastWrite(ops, k - 1, p, i)
  }

  ghost predicate Recorded(s: Store, p: PieceId, i: nat, b: Option<byte>) {
    p in s.data && p in s.length && i < s.length[p] ==>
      && p in s.written
      && (if b.Some? then i in s.written[p] && s.written[p][i] == b.value else i !in s.written[p])
  }

  lemma OwnedAndSized(s: Store)
    requires Inv(s)
    ensures Owned(s)
    ensures forall p :: p in s.data && s.data[p] in s.bufs ==> p in s.length && |s.bufs[s.data[p]]| == s.length[p]
  {
  }

  lemma WriteRecorded(s: Store, op: Op, p: PieceId, i: nat, b: Option<byte>)
    requires Inv(s) && Faithful(s) && Enabled(s, op) && op.Write? && op.p == p && Recorded(s, p, i, b)
    ensures Recorded(Apply(s, op), p, i,
                     if op.off <= i < op.off + |op.bytes| then Some(op.bytes[i - op.off]) else b)
  {
    hide Inv, Faithful, Copied, Placed;
    OwnedAndSized(s);
    WrittenFits(s, p, op.off, op.bytes);
  }

  lemma OthersRecorded(s: Store, op: Op, p: PieceId, i: nat, b: Option<byte>)
    requires Inv(s) && Faithful(s) && Enabled(s, op) && Recorded(s, p, i, b)
    requires (op.Write? ==> op.p != p) && (op.Install? ==> op.p != p)
    ensures Recorded(Apply(s, op), p, i, b)
  {
    hide Ranked, Accounted, Copied, Placed, Victims, Sum;
  }

  lemma InstallRecorded(s: Store, op: Op, p: PieceId, i: nat)
    requires Inv(s) && Faithful(s) && Enabled(s, op) && op.Install? && op.p == p
    ensures Recorded(Apply(s, op), p, i, None)
  {
  }

  lemma {:induction false} RunRecorded(states: seq<Store>, ops: seq<Op>, k: nat, p: PieceId, i: nat)
    requires IsRun(states, ops) && Initial(states[0]) && k <= |ops|
    ensures Recorded(states[k], p, i, LastWrite(ops, k, p, i))
  {
    hide Inv, Faithful, Apply, Enabled, Recorded;
    if k == 0 {
      NoneRecorded(states[0], p, i);
    } else {
      RunRecorded(states, ops, k - 1, p, i);
      EveryRunIsSafe(states, ops, k - 1);
      assert Leads(states[k - 1], ops[k - 1], states[k - 1 + 1]);
      var s, op := states[k - 1], ops[k - 1];
      if op.Write? && op.p == p {
        WriteRecorded(s, op, p, i, LastWrite(ops, k - 1, p, i));
      } else if op.Install? && op.p == p {
        InstallRecorded(s, op, p, i);
      } else {
        OthersRecorded(s, op, p, i, LastWrite(ops, k - 1, p, i));
      }
    }
  }

  lemma NoneRecorded(s: Store, p: PieceId, i: nat)
    requires Initial(s)
    ensures Recorded(s, p, i, None)
  {
  }

  // After every run a read of a resident piece returns at each offset what the
  // last write to cover it wrote there, wherever one did since the piece was
  // given its buffer.
  lemma ReadsWhatWasWritten(states: seq<Store>, ops: seq<Op>, k: nat, p: PieceId, want: nat, off: nat, j: nat)
    requires IsRun(states, ops) && Initial(states[0]) && k <= |ops| && p in states[k].data
    requires LastWrite(ops, k, p, off + j).Some?
    ensures Inv(states[k]) && p in states[k].length
    ensures off + j < states[k].length[p] && j < want ==>
      var bytes := Read(states[k], p, want, off).0;
      |bytes| > j && Some(bytes[j]) == LastWrite(ops, k, p, off + j)
  {
    hide Ranked, Accounted, Bounded;
    EveryRunIsSafe(states, ops, k);
    RunRecorded(states, ops, k, p, off + j);
  }

  // Why a read fails: in exactly these cases, and then without a byte unless it
  // runs past the end.
  lemma WhyReadsFail(s: Store, p: PieceId, want: nat, off: int)
    requires Sound(s) && p in s.lastUsed
    ensures var (bytes, err) := Read(s, p, want, off);
      && (err == Some(NegativeOffset) <==> off < 0)
      && (err == Some(PieceEvicted) <==> off >= 0 && p !in s.data)
      && (err == Some(EOF) <==> off >= 0 && p in s.data && (off >= s.length[p] || off + want > s.length[p]))
      && (off < 0 || p !in s.data || off >= s.length[p] ==> bytes == [])
  {
  }

  // ------------------------------------------------------------- completeness

  // Whether, after k operations, p has been completed and neither been taken back
  // nor left memory since.
  ghost predicate Marked(states: seq<Store>, ops: seq<Op>, k: nat, p: PieceId)
    requires k <= |ops| < |states|
  {
    k > 0 &&
    (if ops[k - 1] == MarkComplete(p) then p in states[k - 1].data
     else ops[k - 1] != MarkNotComplete(p) && p in states[k].data && Marked(states, ops, k - 1, p))
  }

  lemma StepMarks(s: Store, op: Op, p: PieceId)
    requires Inv(s) && Faithful(s) && Enabled(s, op)
    ensures var t := Apply(s, op);
      p in t.lru <==>
        if op == MarkComplete(p) then p in s.data else op != MarkNotComplete(p) && p in t.data && p in s.lru
  {
    hide Owned, Accounted, Faithful, Sum;
  }

  // After every run a piece is complete, and may be evicted, exactly if it was
  // completed and neither taken back nor dropped since.
  lemma {:induction false} CompleteIsMarked(states: seq<Store>, ops: seq<Op>, k: nat, p: PieceId)
    requires IsRun(states, ops) && Initial(states[0]) && k <= |ops|
    ensures p in states[k].lru <==> Marked(states, ops, k, p)
  {
    hide Inv, Faithful, Apply, Enabled;
    if k > 0 {
      CompleteIsMarked(states, ops, k - 1, p);
      EveryRunIsSafe(states, ops, k - 1);
      assert Leads(states[k - 1], ops[k - 1], states[k - 1 + 1]);
      StepMarks(states[k - 1], ops[k - 1], p);
    }
  }

  // Closing a torrent frees every piece of it and no other, and gives each buffer
  // back.
  lemma ClosingFrees(s: Store, ps: set<PieceId>, p: PieceId)
    requires Inv(s) && Faithful(s)
    ensures var t := Apply(s, CloseTorrent(ps));
      && (p in t.data <==> p in s.data && p !in ps)
      && (p in t.data ==> t.data[p] == s.data[p] && t.bufs == s.bufs && p in t.written && t.written[p] == s.written[p])
      && (p in s.data && p in ps ==> s.data[p] in t.pool)
  {
    hide Ranked, Accounted, Sum;
  }
}
