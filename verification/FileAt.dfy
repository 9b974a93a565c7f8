// The handle-less read-ahead reader of internal/archive/fileat.go.
module FileAt {
  import opened Bytes
  import opened Numbers
  import opened Wrappers

  const MIN_BLOCK := 4096
  const MAX_BLOCK := 262144

  datatype Error = Negative | EndOfFile | Changed | UnexpectedEnd | Os(code: int)

  // What one open of the path meets. data is what a read finds after the Stat;
  // it is shorter than size when the file is truncated in between, and fault is
  // the error, other than the end of the file, such a short read reports.
  datatype Opening =
    | NoOpen(e: Error)
    | NoStat(e: Error)
    | Opened(size: nat, mtime: int, data: seq<byte>, fault: Option<Error>)

  // A reader of a file recorded with size and mtime: its block holds the
  // len bytes at off, in a buffer of cap bytes.
  datatype Cache = Cache(size: nat, mtime: int, off: nat, len: nat, cap: nat) {
    function End(): nat {
      off + len
    }

    // Blocks below MIN_BLOCK end at the end of the file.
    predicate Tidy() {
      len <= cap && End() <= size && (len == 0 || len >= MIN_BLOCK || End() == size)
    }

    predicate Has(pos: nat) {
      off <= pos < End()
    }

    // How many of want bytes at pos the block has.
    function Hit(pos: nat, want: nat): (h: nat)
      ensures h <= want
    {
      if Has(pos) then Min(want, End() - pos) else 0
    }

    // The length of the block a refill at pos reads, and the buffer it needs.
    function RefillLength(pos: nat, need: nat): (n: nat)
      requires Tidy() && 0 < need && pos + need <= size
      ensures need <= n <= size - pos
      ensures n <= Max(MAX_BLOCK, need)
      ensures n >= MIN_BLOCK || pos + n == size
    {
      var base := if pos == End() && len > 0 then Min(2 * len, MAX_BLOCK) else MIN_BLOCK;
      Min(Max(base, need), size - pos)
    }

    function RefillCap(n: nat): nat {
      if cap >= n then cap else if n > MIN_BLOCK then Min(MAX_BLOCK, size) else n
    }

    // Why a read of count bytes at pos fails, if it does.
    function Failure(o: Opening, pos: nat, count: nat): (r: Option<Error>)
      ensures r.None? ==> o.Opened? && pos + count <= |o.data|
    {
      match o
      case NoOpen(e) => Some(e)
      case NoStat(e) => Some(e)
      case Opened(s, m, data, fault) =>
        if s != size || m != mtime then Some(Changed)
        else if pos + count <= |data| then None
        else if fault.Some? && fault.value != EndOfFile then fault
        else Some(UnexpectedEnd)
    }

    // A refill whose open meets o.
    function Refilled(pos: nat, need: nat, o: Opening): (r: Cache)
      requires Tidy() && 0 < need < MAX_BLOCK && pos + need <= size
      ensures r.Tidy() && r.size == size && r.mtime == mtime && r.off == pos
      ensures r.len == if Failure(o, pos, RefillLength(pos, need)).None? then RefillLength(pos, need) else 0
    {
      var n := RefillLength(pos, need);
      this.(off := pos, cap := RefillCap(n), len := if Failure(o, pos, n).None? then n else 0)
    }
  }

  // ------------------------------------------------- one ReadAt as a function

  // n bytes delivered, the block afterwards, and the number of opens made.
  datatype Outcome = Outcome(n: nat, err: Option<Error>, cache: Cache, opens: nat)

  // The locked part of ReadAt: want bytes at at, all within the file. At most
  // one open is made; it meets o.
  function Locked(c: Cache, at: nat, want: nat, o: Opening): (r: Outcome)
    requires c.Tidy() && at + want <= c.size
    ensures r.cache.Tidy() && r.n <= want && r.opens <= 1
    ensures r.err.None? ==> r.n == want
  {
    var h := c.Hit(at, want);
    var pos, need := at + h, want - h;
    if need == 0 then Outcome(want, None, c, 0)
    else if need >= MAX_BLOCK then
      var f := c.Failure(o, pos, need);
      Outcome(if f.Some? then h else want, f, c, 1)
    else
      var f := c.Failure(o, pos, c.RefillLength(pos, need));
      Outcome(if f.Some? then h else want, f, c.Refilled(pos, need, o), 1)
  }

  // ReadAt of a buffer of length bytes at off.
  function ReadOutcome(c: Cache, off: int, length: nat, o: Opening): (r: Outcome)
    requires c.Tidy()
    ensures r.cache.Tidy() && r.n <= length && r.opens <= 1
  {
    if off < 0 then Outcome(0, Some(Negative), c, 0)
    else if length == 0 then Outcome(0, None, c, 0)
    else if off >= c.size then Outcome(0, Some(EndOfFile), c, 0)
    else
      var r := Locked(c, off, Min(length, c.size - off), o);
      if r.err.None? && length > c.size - off then r.(err := Some(EndOfFile)) else r
  }

  // The loop of a ReadAt with outcome spec, after n bytes and opens opens: what
  // is left to read from the present block completes spec.
  ghost predicate Reading(spec: Outcome, n: nat, opens: nat, c: Cache, at: nat, want: nat, o: Opening) {
    && c.Tidy() && n <= want && at + want <= c.size && opens <= 1
    && (opens == 1 ==> c.Hit(at + n, want - n) == want - n)
    && var r := Locked(c, at + n, want - n, o);
       spec == r.(n := n + r.n, opens := opens + r.opens)
  }

  lemma TurnFirst(c: Cache, at: nat, want: nat, o: Opening)
    requires c.Tidy() && at + want <= c.size
    ensures Reading(Locked(c, at, want, o), 0, 0, c, at, want, o)
  {
  }

  // One turn of the loop of ReadAt: nothing left, a copy from the block, a large
  // read or a refill.
  lemma TurnDone(spec: Outcome, n: nat, opens: nat, c: Cache, at: nat, want: nat, o: Opening)
    requires Reading(spec, n, opens, c, at, want, o) && n == want
    ensures spec == Outcome(n, None, c, opens)
  {
  }

  lemma TurnHit(spec: Outcome, n: nat, opens: nat, c: Cache, at: nat, want: nat, o: Opening)
    requires Reading(spec, n, opens, c, at, want, o) && n < want && c.Has(at + n)
    ensures Reading(spec, n + c.Hit(at + n, want - n), opens, c, at, want, o)
    ensures c.Hit(at + n, want - n) > 0
  {
    hide Cache.RefillLength, Cache.Failure, Cache.Refilled;
  }

  lemma TurnLarge(spec: Outcome, n: nat, opens: nat, c: Cache, at: nat, want: nat, o: Opening)
    requires Reading(spec, n, opens, c, at, want, o) && !c.Has(at + n) && want - n >= MAX_BLOCK
    ensures var f := c.Failure(o, at + n, want - n);
      opens == 0 && spec == Outcome(if f.Some? then n else want, f, c, 1)
  {
  }

  lemma TurnRefill(spec: Outcome, n: nat, opens: nat, c: Cache, at: nat, want: nat, o: Opening)
    requires Reading(spec, n, opens, c, at, want, o) && !c.Has(at + n) && 0 < want - n < MAX_BLOCK
    ensures var f := c.Failure(o, at + n, c.RefillLength(at + n, want - n));
      && opens == 0
      && var r := c.Refilled(at + n, want - n, o);
         if f.Some? then spec == Outcome(n, f, r, 1) else Reading(spec, n, 1, r, at, want, o)
  {
    hide Cache.RefillLength, Cache.RefillCap, Cache.Failure;
  }

  lemma TurnOpens(spec: Outcome, n: nat, opens: nat, c: Cache, at: nat, want: nat, o: Opening)
    requires Reading(spec, n, opens, c, at, want, o) && n < want && !c.Has(at + n)
    ensures opens == 0
  {
  }

  // Whoever opens the path finds no file of the recorded size and time that
  // holds other bytes; it may be gone, replaced, truncated or unreadable.
  ghost predicate Honest(size: nat, mtime: int, o: Opening, content: seq<byte>) {
    |content| == size && (o.Opened? && o.size == size && o.mtime == mtime ==> o.data <= content)
  }

  lemma HonestSize(size: nat, mtime: int, o: Opening, content: seq<byte>)
    requires Honest(size, mtime, o, content)
    ensures |content| == size
  {
  }

  // ----------------------------------------------------- the code, in place

  class Reader {
    const size: nat
    const mtime: int
    var buf: array<byte>
    var len: nat
    var off: nat
    // How many times the path has been opened since newFileAt.
    var opens: nat

    constructor (size: nat, mtime: int)
      ensures Valid() && View() == Cache(size, mtime, 0, 0, 0) && opens == 0 && fresh(buf)
    {
      this.size, this.mtime := size, mtime;
      buf := new byte[0];
      len, off, opens := 0, 0, 0;
    }

    function View(): Cache
      reads this
    {
      Cache(size, mtime, off, len, buf.Length)
    }

    ghost predicate Valid()
      reads this
    {
      View().Tidy()
    }

    // The block equals the file's bytes at off.
    ghost predicate Holds(content: seq<byte>)
      reads this, buf
    {
      |content| == size && Valid() && forall i :: 0 <= i < len ==> buf[i] == content[off + i]
    }

    method ReadFrom(dst: array<byte>, at: nat, count: nat, pos: nat, o: Opening, ghost content: seq<byte>)
      returns (err: Option<Error>)
      requires at + count <= dst.Length
      modifies dst, this`opens
      ensures opens == old(opens) + 1
      ensures err == View().Failure(o, pos, count)
      ensures forall i :: 0 <= i < at ==> dst[i] == old(dst[i])
      ensures err.None? && Honest(size, mtime, o, content) ==>
        pos + count <= size && forall i :: at <= i < at + count ==> dst[i] == content[pos + i - at]
    {
      opens := opens + 1;
      match o
      case NoOpen(e) => return Some(e);
      case NoStat(e) => return Some(e);
      case Opened(s, m, data, fault) =>
        if s != size || m != mtime {
          return Some(Changed);
        }
        var n := if pos > |data| then 0 else Min(count, |data| - pos);
        forall i | 0 <= i < n {
          dst[at + i] := data[pos + i];
        }
        if n == count && pos + count <= |data| {
          return None;
        }
        err := if fault.Some? then fault else Some(EndOfFile);
        if err.value == EndOfFile {
          err := Some(UnexpectedEnd);
        }
    }

    // refill up to its read: buf becomes buf[:n], in a larger buffer when the
    // present one is too small. The reslice stays within the capacity.
    method Reslice(pos: nat, need: nat)
      requires Valid() && 0 < need < MAX_BLOCK && pos + need <= size
      modifies this
      ensures buf == old(buf) || fresh(buf)
      ensures opens == old(opens) && off == pos
      ensures len == old(View()).RefillLength(pos, need) <= buf.Length
      ensures buf.Length == old(View()).RefillCap(len)
    {
      var n: int := MIN_BLOCK;
      if pos == off + len && len > 0 {
        n := Min(2 * len, MAX_BLOCK);
      }
      n := Max(n, need);
      if n > size - pos {
        n := size - pos;
      }
      if buf.Length < n {
        var c := n;
        if n > MIN_BLOCK {
          c := Min(MAX_BLOCK, size);
        }
        buf := new byte[c];
      }
      len := n;
      off := pos;
    }

    method Refill(pos: nat, need: nat, o: Opening, ghost content: seq<byte>) returns (err: Option<Error>)
      requires Valid() && 0 < need < MAX_BLOCK && pos + need <= size
      modifies this, buf
      ensures Valid() && (buf == old(buf) || fresh(buf)) && opens == old(opens) + 1
      ensures err == old(View()).Failure(o, pos, old(View()).RefillLength(pos, need))
      ensures View() == old(View()).Refilled(pos, need, o)
      ensures Honest(size, mtime, o, content) ==> Holds(content)
    {
      Reslice(pos, need);
      hide Cache.RefillLength, Cache.RefillCap;
      err := ReadFrom(buf, 0, len, pos, o, content);
      if err.Some? {
        len := 0;
      }
    }

    // The turn of the loop that copies what the block has.
    method CopyOut(p: array<byte>, n: nat, want: nat, at: nat, ghost content: seq<byte>) returns (m: nat)
      requires Valid() && p != buf && n < want <= p.Length && at + want <= size && View().Has(at + n)
      modifies p
      ensures m == n + View().Hit(at + n, want - n)
      ensures forall i :: 0 <= i < n ==> p[i] == old(p[i])
      ensures Holds(content) ==> forall i :: n <= i < m ==> p[i] == content[at + i]
    {
      var pos := at + n;
      var k := Min(want - n, off + len - pos);
      forall i | 0 <= i < k {
        p[n + i] := buf[pos - off + i];
      }
      m := n + k;
    }

    // The turn in which the block has nothing at at + n: finished unless the
    // block was refilled.
    method Fetch(p: array<byte>, n: nat, want: nat, at: nat, o: Opening, ghost spec: Outcome, ghost content: seq<byte>)
      returns (finished: bool, m: nat, err: Option<Error>)
      requires Valid() && p != buf && n < want <= p.Length && at + want <= size && !View().Has(at + n)
      requires Reading(spec, n, 0, View(), at, want, o)
      modifies this, buf, p
      ensures Valid() && (buf == old(buf) || fresh(buf))
      ensures n <= m <= want && opens == old(opens) + 1
      ensures
        if finished then spec == Outcome(m, err, View(), 1)
        else m == n && Reading(spec, n, 1, View(), at, want, o)
      ensures forall i :: 0 <= i < n ==> p[i] == old(p[i])
      ensures Honest(size, mtime, o, content) ==>
        && (old(Holds(content)) ==> Holds(content))
        && forall i :: n <= i < m ==> p[i] == content[at + i]
    {
      hide Cache.Refilled, Cache.RefillLength, Cache.Failure, Locked, Reading, Honest;
      var pos := at + n;
      if want - n >= MAX_BLOCK {
        TurnLarge(spec, n, 0, View(), at, want, o);
        err := ReadFrom(p, n, want - n, pos, o, content);
        return true, if err.Some? then n else want, err;
      }
      TurnRefill(spec, n, 0, View(), at, want, o);
      err := Refill(pos, want - n, o, content);
      return err.Some?, n, err;
    }

    // The loop of ReadAt, for the first want bytes of p.
    method ReadLocked(p: array<byte>, want: nat, at: nat, o: Opening, ghost content: seq<byte>)
      returns (n: nat, err: Option<Error>)
      requires Valid() && p != buf && want <= p.Length && at + want <= size
      modifies this, buf, p
      ensures Valid() && (buf == old(buf) || fresh(buf))
      ensures n <= want && opens >= old(opens)
      ensures Outcome(n, err, View(), opens - old(opens)) == Locked(old(View()), at, want, o)
      ensures old(Holds(content)) && Honest(size, mtime, o, content) ==>
        Holds(content) && forall i :: 0 <= i < n ==> p[i] == content[at + i]
    {
      hide Locked, Honest, Reading, Cache.Tidy, Cache.Hit, Holds;
      n := 0;
      ghost var spec := Locked(View(), at, want, o);
      ghost var good := Holds(content) && Honest(size, mtime, o, content);
      if good {
        HonestSize(size, mtime, o, content);
      }
      TurnFirst(View(), at, want, o);
      while n < want
        invariant n <= want && Valid() && opens >= old(opens)
        invariant p != buf && (buf == old(buf) || fresh(buf))
        invariant Reading(spec, n, opens - old(opens), View(), at, want, o)
        invariant good ==> Holds(content) && forall i :: 0 <= i < n ==> p[i] == content[at + i]
        decreases want - n, old(opens) + 1 - opens
      {
        if off <= at + n < off + len {
          TurnHit(spec, n, opens - old(opens), View(), at, want, o);
          n := CopyOut(p, n, want, at, content);
        } else {
          TurnOpens(spec, n, opens - old(opens), View(), at, want, o);
          var finished;
          finished, n, err := Fetch(p, n, want, at, o, spec, content);
          if finished {
            return;
          }
        }
      }
      err := None;
      TurnDone(spec, n, opens - old(opens), View(), at, want, o);
    }

    // ReadAt(p, at).
    method ReadAt(p: array<byte>, at: int, o: Opening, ghost content: seq<byte>) returns (n: nat, err: Option<Error>)
      requires Valid() && p != buf
      modifies this, buf, p
      ensures Valid() && (buf == old(buf) || fresh(buf))
      ensures n <= p.Length && opens >= old(opens)
      ensures Outcome(n, err, View(), opens - old(opens)) == ReadOutcome(old(View()), at, p.Length, o)
      ensures old(Holds(content)) && Honest(size, mtime, o, content) ==>
        Holds(content) && (n == 0 || (0 <= at && at + n <= |content| && p[..n] == content[at..at + n]))
    {
      hide Locked, Cache.Tidy;
      if at < 0 {
        return 0, Some(Negative);
      }
      if p.Length == 0 {
        return 0, None;
      }
      if at >= size {
        return 0, Some(EndOfFile);
      }
      var want, eof := p.Length, None;
      if want > size - at {
        want, eof := size - at, Some(EndOfFile);
      }
      n, err := ReadLocked(p, want, at, o, content);
      if err.None? {
        err := eof;
      }
    }
  }

  // --------------------------------------------------- what callers rely on

  // A read of length bytes at off of a file of size bytes: how many bytes it
  // delivers and the error it reports.
  function DirectRead(size: nat, off: int, length: nat): (r: (nat, Option<Error>)) {
    if off < 0 then (0, Some(Negative))
    else if length == 0 then (0, None)
    else if off >= size then (0, Some(EndOfFile))
    else (Min(length, size - off), if off + length > size then Some(EndOfFile) else None)
  }

  ghost predicate Unchanged(c: Cache, o: Opening) {
    o.Opened? && o.size == c.size && o.mtime == c.mtime && |o.data| == c.size
  }

  // Whether a read of want bytes at at, all within the file, needs an open that
  // fails.
  ghost predicate Fails(c: Cache, at: nat, want: nat, o: Opening)
    requires c.Tidy() && at + want <= c.size
  {
    var h := c.Hit(at, want);
    h < want && c.Failure(o, at + h, if want - h < MAX_BLOCK then c.RefillLength(at + h, want - h) else want - h).Some?
  }

  lemma LockedOutcome(c: Cache, at: nat, want: nat, o: Opening)
    requires c.Tidy() && at + want <= c.size
    ensures var r, h := Locked(c, at, want, o), c.Hit(at, want);
      && (if Fails(c, at, want, o) then r.err.Some? && r.n == h < want else r.err.None? && r.n == want)
      && (Fails(c, at, want, o) && want - h < MAX_BLOCK ==> r.cache.len == 0)
      && (Fails(c, at, want, o) && want - h >= MAX_BLOCK ==> r.cache == c)
      && (r.opens == 1 <==> h < want)
  {
    hide Cache.Hit, Cache.RefillLength, Cache.RefillCap, Cache.Failure;
  }

  lemma NeverFails(c: Cache, at: nat, want: nat, o: Opening)
    requires c.Tidy() && at + want <= c.size && Unchanged(c, o)
    ensures !Fails(c, at, want, o)
  {
    hide Cache.RefillLength;
  }

  // On an unchanged file ReadAt is a direct read, whatever the block holds.
  lemma IsDirectRead(c: Cache, off: int, length: nat, o: Opening)
    requires c.Tidy() && Unchanged(c, o)
    ensures var r := ReadOutcome(c, off, length, o); (r.n, r.err) == DirectRead(c.size, off, length)
  {
    hide Locked, Fails, Cache.Tidy;
    if 0 <= off < c.size {
      NeverFails(c, off, Min(length, c.size - off), o);
      LockedOutcome(c, off, Min(length, c.size - off), o);
    }
  }

  // In general it is one exactly when the block has what is wanted or the open
  // it makes works; otherwise it delivers the cached prefix with the error of
  // that open, and a small read also forgets the block.
  lemma WhenDirectRead(c: Cache, off: int, length: nat, o: Opening)
    requires c.Tidy() && 0 <= off < c.size && length > 0
    ensures var r, want := ReadOutcome(c, off, length, o), Min(length, c.size - off);
      var h := c.Hit(off, want);
      var fails := Fails(c, off, want, o);
      && ((r.n, r.err) == DirectRead(c.size, off, length) <==> !fails)
      && (fails ==> r.n == h && (want - h < MAX_BLOCK ==> r.cache.len == 0) && (want - h >= MAX_BLOCK ==> r.cache == c))
      && (r.opens == 1 <==> h < want)
  {
    hide Locked, Fails, Cache.Hit;
    LockedOutcome(c, off, Min(length, c.size - off), o);
  }

  // How far into the file a read of want bytes at at has to reach if it opens it.
  function Reach(c: Cache, at: nat, want: nat): nat
    requires c.Tidy() && at + want <= c.size
  {
    var h := c.Hit(at, want);
    at + h + if want == h then 0 else if want - h < MAX_BLOCK then c.RefillLength(at + h, want - h) else want - h
  }

  // Which opens fail a read that needs one, and with what error: a file of
  // another size or time has changed, and one that ends too early, or cannot be
  // read that far, does not pass for the end of the file.
  lemma WhyReadsFail(c: Cache, off: int, length: nat, o: Opening)
    requires c.Tidy() && 0 <= off < c.size && length > 0
    requires var want := Min(length, c.size - off); c.Hit(off, want) < want
    ensures var r, want := ReadOutcome(c, off, length, o), Min(length, c.size - off);
      && (o.NoOpen? || o.NoStat? ==> r.err == Some(o.e))
      && (o.Opened? && (o.size != c.size || o.mtime != c.mtime) ==> r.err == Some(Changed))
      && (o.Opened? && o.size == c.size && o.mtime == c.mtime ==>
           if |o.data| >= Reach(c, off, want) then r.n == want && (r.err.None? || r.err == Some(EndOfFile))
           else
             && r.n < want
             && r.err == if o.fault.None? || o.fault == Some(EndOfFile) then Some(UnexpectedEnd) else o.fault)
  {
    hide Cache.RefillLength, Cache.RefillCap, Cache.Refilled, Cache.Tidy;
  }

  // The end of the file is reported at the recorded end only, with every byte up
  // to it delivered, unless opening the path reports it.
  lemma EndOfFileIsTheEnd(c: Cache, off: int, length: nat, o: Opening)
    requires c.Tidy() && 0 <= off && length > 0
    ensures var r := ReadOutcome(c, off, length, o);
      r.err == Some(EndOfFile) <==>
        || (off + r.n == Max(off, c.size) && off + length > c.size)
        || (o in {NoOpen(EndOfFile), NoStat(EndOfFile)} && off + r.n < Min(off + length, c.size))
  {
    hide Cache.RefillLength, Cache.RefillCap, Cache.Refilled, Cache.Tidy;
    if off < c.size {
      var want := Min(length, c.size - off);
      if c.Hit(off, want) < want {
        WhyReadsFail(c, off, length, o);
      }
    }
  }

  // ------------------------------------------- opens of a sequential scan

  // After reads of the given lengths, one after another from pos, on an
  // unchanged file: the cache, the position reached and the opens made.
  ghost function Scan(c: Cache, pos: nat, lengths: seq<nat>, o: Opening): (r: (Cache, nat, nat))
    requires c.Tidy() && pos <= c.size && Unchanged(c, o)
    ensures r.0.Tidy() && r.0.size == c.size && r.0.mtime == c.mtime && pos <= r.1 <= c.size
    decreases |lengths|
  {
    if lengths == [] then (c, pos, 0)
    else
      var init := Scan(c, pos, lengths[..|lengths| - 1], o);
      var r := ReadOutcome(init.0, init.1, lengths[|lengths| - 1], o);
      assert init.1 + r.n <= c.size && r.cache.size == c.size && r.cache.mtime == c.mtime by {
        IsDirectRead(init.0, init.1, lengths[|lengths| - 1], o);
      }
      (r.cache, init.1 + r.n, init.2 + r.opens)
  }

  // The k-th block of a scan that starts afresh is at least BlockAt(k) long, and
  // the first k are Covered(k) together.
  function BlockAt(k: nat): nat {
    if k <= 1 then MIN_BLOCK else Min(2 * BlockAt(k - 1), MAX_BLOCK)
  }

  function Covered(k: nat): nat {
    if k == 0 then 0 else Covered(k - 1) + BlockAt(k)
  }

  lemma {:induction false} CoveredGrows(k: nat)
    ensures k >= 6 ==> Covered(k) + MIN_BLOCK >= MAX_BLOCK * (k - 5)
    ensures k >= 7 ==> BlockAt(k) == MAX_BLOCK
  {
    if k <= 7 {
      assert BlockAt(1) == 4096 && BlockAt(2) == 8192;
      assert BlockAt(3) == 16384 && BlockAt(4) == 32768;
      assert BlockAt(5) == 65536 && BlockAt(6) == 131072;
      assert BlockAt(7) == 262144;
      assert Covered(2) == 12288 && Covered(4) == 61440;
      assert Covered(6) == 258048;
    } else {
      CoveredGrows(k - 1);
    }
  }

  // What k opens say about where a scan from start stands.
  ghost predicate Progress(c: Cache, start: nat, pos: nat, k: nat) {
    k > 0 ==>
      && c.off < pos <= c.End() && c.off - start >= Covered(k - 1)
      && (c.End() == c.size || (c.len >= BlockAt(k) && c.End() - start >= Covered(k)))
  }

  lemma ScanRead(c: Cache, pos: nat, length: nat, o: Opening)
    requires c.Tidy() && pos <= c.size && Unchanged(c, o) && length < MAX_BLOCK
    ensures var r, want := ReadOutcome(c, pos, length, o), Min(length, c.size - pos);
      var h := c.Hit(pos, want);
      && r.n == want
      && (h == want ==> r.cache == c && r.opens == 0)
      && (h < want ==>
        && r.opens == 1 && r.cache.size == c.size && r.cache.off == pos + h
        && r.cache.len == c.RefillLength(pos + h, want - h))
  {
    hide Cache.RefillLength;
  }

  lemma ScanStep(c: Cache, start: nat, pos: nat, k: nat, length: nat, o: Opening)
    requires c.Tidy() && start <= pos <= c.size && Unchanged(c, o) && Progress(c, start, pos, k) && length < MAX_BLOCK
    ensures var r := ReadOutcome(c, pos, length, o); Progress(r.cache, start, pos + r.n, k + r.opens)
  {
    hide ReadOutcome, Unchanged, Covered, BlockAt;
    ScanRead(c, pos, length, o);
    var want := Min(length, c.size - pos);
    if c.Hit(pos, want) < want {
      NextBlock(k);
      assert k > 0 ==> pos + c.Hit(pos, want) == c.End();
    }
  }

  lemma NextBlock(k: nat)
    ensures k == 0 ==> Covered(k) == 0 && BlockAt(k + 1) == MIN_BLOCK
    ensures k > 0 ==> BlockAt(k + 1) == Min(2 * BlockAt(k), MAX_BLOCK)
    ensures Covered(k + 1) == Covered(k) + BlockAt(k + 1)
  {
  }

  lemma {:induction false} ScanProgress(c: Cache, start: nat, lengths: seq<nat>, o: Opening)
    requires c.Tidy() && start <= c.size && Unchanged(c, o) && forall n :: n in lengths ==> n < MAX_BLOCK
    ensures var r := Scan(c, start, lengths, o); Progress(r.0, start, r.1, r.2)
    decreases |lengths|
  {
    hide ReadOutcome, Covered, BlockAt;
    if lengths != [] {
      var init := lengths[..|lengths| - 1];
      assert forall n :: n in init ==> n in lengths;
      assert lengths[|lengths| - 1] in lengths;
      ScanProgress(c, start, init, o);
      var r := Scan(c, start, init, o);
      ScanStep(r.0, start, r.1, r.2, lengths[|lengths| - 1], o);
    }
  }

  // A scan of S bytes in reads of less than 256 KiB, started with any block,
  // opens the file at most 7 + S / 256 KiB times.
  lemma FewOpens(c: Cache, start: nat, lengths: seq<nat>, o: Opening)
    requires c.Tidy() && start <= c.size && Unchanged(c, o) && forall n :: n in lengths ==> n < MAX_BLOCK
    ensures var (_, end, opens) := Scan(c, start, lengths, o); opens <= 7 + (end - start) / MAX_BLOCK
  {
    ScanProgress(c, start, lengths, o);
    var (_, end, opens) := Scan(c, start, lengths, o);
    if opens > 7 {
      CoveredGrows(opens - 1);
      assert end - start >= MAX_BLOCK * (opens - 7);
    }
  }
}
