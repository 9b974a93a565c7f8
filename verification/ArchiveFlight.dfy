// The background extraction of one archive entry and a reader that serves the
// file while it grows (internal/api/archive.go).
module ArchiveFlight {
  import opened Bytes
  import opened Numbers
  import opened Wrappers

  datatype Error = Failed(code: int) | UnexpectedEnd

  // Where archiveRunExtract is: copying; done copying with an error or not; done
  // discarding the file of a failed copy; finished.
  datatype Stage = Copying | Copied(err: Option<Error>) | Discarded(why: Error) | Ended

  // entry is what the archive yields for the name, declared the limit on it; file
  // is on disk, written of it published. gen numbers the wake channel: a channel
  // is closed once gen has moved on or the flight is finished. others are the
  // registered readers besides the one followed here.
  datatype Flight = Flight(entry: seq<byte>, declared: nat, stage: Stage, file: seq<byte>, published: bool,
                           written: nat, gen: nat, finished: bool, err: Option<Error>,
                           others: nat, held: bool, dropped: bool, removals: nat) {
    function Readers(): nat {
      if held then others + 1 else others
    }
  }

  // Read is between its calls when Idle; Wanting is about to look at the flight in
  // waitFor, Sleeping blocked on channel gen, Ending in waitDone before the last
  // bytes, Fetching about to read n bytes from the file.
  datatype Phase = Idle | Wanting(len: nat) | Sleeping(len: nat, gen: nat) | Ending(n: nat) | Fetching(n: nat)

  datatype Reader = Reader(size: nat, pos: nat, phase: Phase)

  // What Read has returned so far, and from which offset.
  datatype Chunk = Chunk(at: nat, bytes: seq<byte>)

  datatype State = State(fl: Flight, r: Reader, log: seq<Chunk>)

  datatype Whence = Start | Current | End

  datatype Step =
    | Write(n: nat)
    | Advance
    | CopyOk
    | CopyFail(e: Error)
    | Drop
    | Finish
    | Acquire
    | Release
    | Open
    | Close
    | Seek(offset: int, whence: Whence)
    | Read(len: nat)
    | Look
    | Wake
    | Cancel
    | AwaitDone
    | Fetch(k: nat)

  function Initial(entry: seq<byte>, declared: nat, size: nat): State {
    State(Flight(entry, declared, Copying, [], true, 0, 0, false, None, 0, false, false, 0), Reader(size, 0, Idle), [])
  }

  predicate Enabled(s: State, e: Step) {
    var fl, r := s.fl, s.r;
    match e
    case Write(n) => fl.stage == Copying && fl.published && n > 0 && |fl.file| + n <= Min(|fl.entry|, fl.declared + 1)
    case Advance => fl.stage == Copying && !fl.published
    case CopyOk => fl.stage == Copying && fl.published && fl.file == fl.entry && |fl.file| <= fl.declared
    case CopyFail(_) => fl.stage == Copying
    case Drop => fl.stage.Copied? && fl.stage.err.Some?
    case Finish => fl.stage == Copied(None) || fl.stage.Discarded?
    case Acquire => true
    case Release => fl.others > 0
    case Open => !fl.held
    case Close => fl.held && r.phase == Idle
    case Seek(_, _) => fl.held && r.phase == Idle
    case Read(_) => fl.held && r.phase == Idle
    case Look => r.phase.Wanting?
    case Wake => r.phase.Sleeping? && (r.phase.gen != fl.gen || fl.finished)
    case Cancel => r.phase.Sleeping? || r.phase.Ending?
    case AwaitDone => r.phase.Ending? && fl.finished
    case Fetch(k) => r.phase.Fetching? && k <= r.phase.n && r.pos + k <= |fl.file|
  }

  // The lock section of waitFor for one more byte than pos: None is to sleep.
  datatype Verdict = Available(n: nat) | Refused(e: Error) | Blocked

  function WaitFor(fl: Flight, n: nat): Verdict {
    if fl.finished && fl.err.Some? then Refused(fl.err.value)
    else if fl.written >= n then Available(fl.written)
    else if fl.finished then Refused(UnexpectedEnd)
    else Blocked
  }

  // The end of releaseReader and dropFile: the last one out removes the file.
  function Swept(fl: Flight): Flight {
    if fl.dropped && fl.Readers() == 0 && fl.removals == 0 then fl.(removals := fl.removals + 1) else fl
  }

  function Target(r: Reader, offset: int, whence: Whence): int {
    match whence
    case Start => offset
    case Current => r.pos + offset
    case End => r.size + offset
  }

  // How much of a buffer of len bytes a Read serves when avail bytes are there.
  function Share(r: Reader, len: nat, avail: nat): int {
    Min(Min(len, r.size - r.pos), avail - r.pos)
  }

  function NextFlight(fl: Flight, e: Step): Flight
    requires e.Write? || e.Advance? || e.CopyOk? || e.CopyFail? || e.Drop? || e.Finish? || e.Acquire? || e.Release? ||
      e.Open? || e.Close?
    requires e.Write? ==> |fl.file| + e.n <= |fl.entry|
    requires e.Finish? ==> fl.stage.Copied? || fl.stage.Discarded?
    requires e.Drop? ==> fl.stage.Copied? && fl.stage.err.Some?
    requires e.Release? ==> fl.others > 0
  {
    match e
    case Write(n) => fl.(file := fl.entry[..|fl.file| + n], published := false)
    case Advance => fl.(published := true, written := Min(|fl.file|, fl.declared), gen := fl.gen + 1)
    case CopyOk => fl.(stage := Copied(None))
    case CopyFail(err) => fl.(stage := Copied(Some(err)))
    case Drop => Swept(fl.(dropped := true, stage := Discarded(fl.stage.err.value)))
    case Finish =>
      fl.(finished := true, stage := Ended, err := if fl.stage.Discarded? then Some(fl.stage.why) else fl.stage.err)
    case Acquire => if fl.dropped then fl else fl.(others := fl.others + 1)
    case Release => Swept(fl.(others := fl.others - 1))
    case Open => if fl.dropped then fl else fl.(held := true)
    case Close => Swept(fl.(held := false))
  }

  function NextReader(s: State, e: Step): State
    requires Enabled(s, e)
    requires e.Seek? || e.Read? || e.Look? || e.Wake? || e.Cancel? || e.AwaitDone? || e.Fetch?
  {
    var fl, r := s.fl, s.r;
    match e
    case Seek(offset, whence) =>
      var to := Target(r, offset, whence);
      if to < 0 then s else s.(r := r.(pos := to))
    case Read(len) => if r.pos >= r.size || len == 0 then s else s.(r := r.(phase := Wanting(len)))
    case Look =>
      (match WaitFor(fl, r.pos + 1)
       case Blocked => s.(r := r.(phase := Sleeping(r.phase.len, fl.gen)))
       case Refused(_) => s.(r := r.(phase := Idle))
       case Available(avail) =>
         var n := Share(r, r.phase.len, avail);
         if n < 0 then s.(r := r.(phase := Idle))
         else s.(r := r.(phase := if r.pos + n >= r.size then Ending(n) else Fetching(n))))
    case Wake => s.(r := r.(phase := Wanting(r.phase.len)))
    case Cancel => s.(r := r.(phase := Idle))
    case AwaitDone => s.(r := r.(phase := if fl.err.Some? then Idle else Fetching(r.phase.n)))
    case Fetch(k) => State(fl, r.(pos := r.pos + k, phase := Idle), s.log + [Chunk(r.pos, fl.file[r.pos..r.pos + k])])
  }

  function Next(s: State, e: Step): State
    requires Enabled(s, e)
  {
    if e.Seek? || e.Read? || e.Look? || e.Wake? || e.Cancel? || e.AwaitDone? || e.Fetch? then NextReader(s, e)
    else s.(fl := NextFlight(s.fl, e))
  }

  // ---------------------------------------------------------------- invariant

  // What is on disk and published is a prefix of the entry, all of it once the
  // copy has ended well.
  ghost predicate Prefix(fl: Flight) {
    && fl.file <= fl.entry
    && fl.written <= |fl.file| && fl.written <= fl.declared
    && (fl.published ==> fl.written == Min(|fl.file|, fl.declared))
    && (fl.stage == Copied(None) || (fl.stage == Ended && fl.err.None?) ==>
         fl.file == fl.entry && fl.written == |fl.entry|)
    && (fl.finished <==> fl.stage == Ended)
    && (fl.err.Some? ==> fl.finished)
  }

  // The file of a failed extraction is removed once, when nobody has it open.
  ghost predicate Kept(fl: Flight) {
    && fl.removals <= 1
    && (fl.removals == 1 <==> fl.dropped && fl.Readers() == 0)
    && (fl.dropped <==> fl.stage.Discarded? || (fl.stage == Ended && fl.err.Some?))
  }

  // Nobody sleeps on an open channel when there is something to read, and bytes
  // are only fetched once published, the last ones once all is verified.
  ghost predicate Served(s: State) {
    var fl, r := s.fl, s.r;
    match r.phase
    case Idle => true
    case Wanting(len) => r.pos < r.size && len > 0
    case Sleeping(len, gen) =>
      && r.pos < r.size && len > 0 && gen <= fl.gen
      && (gen == fl.gen && !fl.finished ==> fl.written <= r.pos)
    case Ending(n) => n > 0 && r.pos + n <= r.size && r.pos + n <= fl.written
    case Fetching(n) =>
      && n > 0 && r.pos + n <= r.size && r.pos + n <= fl.written
      && (r.pos + n == r.size ==> fl.finished && fl.err.None?)
  }

  // Whatever was returned is the entry's, published, and complete only if the
  // extraction ended well.
  ghost predicate True(s: State, c: Chunk) {
    && c.at + |c.bytes| <= s.fl.written && c.at + |c.bytes| <= |s.fl.entry|
    && c.bytes == s.fl.entry[c.at..c.at + |c.bytes|]
    && (c.bytes != [] && c.at + |c.bytes| >= s.r.size ==> s.fl.finished && s.fl.err.None?)
  }

  ghost predicate Inv(s: State) {
    Prefix(s.fl) && Kept(s.fl) && Served(s) && forall c :: c in s.log ==> True(s, c)
  }

  // Nothing is taken back.
  ghost predicate Onward(fl: Flight, g: Flight) {
    && g.entry == fl.entry && g.declared == fl.declared && fl.written <= g.written && fl.gen <= g.gen
    && (g.gen == fl.gen ==> g.written == fl.written)
    && (fl.finished ==> g.finished && g.err == fl.err && g.gen == fl.gen)
  }

  lemma WriteOnward(s: State, n: nat)
    requires Prefix(s.fl) && Kept(s.fl) && Enabled(s, Write(n))
    ensures var g := NextFlight(s.fl, Write(n)); Prefix(g) && Kept(g) && Onward(s.fl, g)
  {
    assert s.fl.file <= s.fl.entry[..|s.fl.file| + n];
  }

  // The copy: what is published and how it ends.
  lemma CopyOnward(s: State, e: Step)
    requires Prefix(s.fl) && Kept(s.fl) && Enabled(s, e) && (e.Advance? || e.CopyOk? || e.CopyFail?)
    ensures var g := NextFlight(s.fl, e); Prefix(g) && Kept(g) && Onward(s.fl, g)
  {
  }

  lemma EndOnward(s: State, e: Step)
    requires Prefix(s.fl) && Kept(s.fl) && Enabled(s, e) && (e.Drop? || e.Finish?)
    ensures var g := NextFlight(s.fl, e); Prefix(g) && Kept(g) && Onward(s.fl, g)
  {
  }

  // Readers coming and going only matter to the file of a failed extraction.
  lemma ComingOnward(s: State, e: Step)
    requires Prefix(s.fl) && Kept(s.fl) && Enabled(s, e) && (e.Acquire? || e.Open?)
    ensures var g := NextFlight(s.fl, e); Prefix(g) && Kept(g) && Onward(s.fl, g)
  {
  }

  lemma GoingOnward(s: State, e: Step)
    requires Prefix(s.fl) && Kept(s.fl) && Enabled(s, e) && (e.Release? || e.Close?)
    ensures var g := NextFlight(s.fl, e); Prefix(g) && Kept(g) && Onward(s.fl, g)
  {
  }

  lemma FlightOnward(s: State, e: Step)
    requires Prefix(s.fl) && Kept(s.fl) && Enabled(s, e) && !OfReader(e)
    ensures Next(s, e) == s.(fl := Next(s, e).fl)
    ensures Prefix(Next(s, e).fl) && Kept(Next(s, e).fl) && Onward(s.fl, Next(s, e).fl)
  {
    hide Prefix, Kept, Onward, NextFlight, NextReader, Enabled;
    match e
    case Write(n) => WriteOnward(s, n);
    case Advance => CopyOnward(s, e);
    case CopyOk => CopyOnward(s, e);
    case CopyFail(_) => CopyOnward(s, e);
    case Drop => EndOnward(s, e);
    case Finish => EndOnward(s, e);
    case Acquire => ComingOnward(s, e);
    case Open => ComingOnward(s, e);
    case _ => GoingOnward(s, e);
  }

  predicate OfReader(e: Step) {
    e.Seek? || e.Read? || e.Look? || e.Wake? || e.Cancel? || e.AwaitDone? || e.Fetch?
  }

  lemma ServedOnward(s: State, g: Flight)
    requires Served(s) && Onward(s.fl, g)
    ensures Served(s.(fl := g))
  {
  }

  lemma TrueOnward(s: State, g: Flight, c: Chunk)
    requires True(s, c) && Onward(s.fl, g)
    ensures True(s.(fl := g), c)
  {
  }

  lemma ReaderServed(s: State, e: Step)
    requires Prefix(s.fl) && Served(s) && Enabled(s, e) && OfReader(e)
    ensures Next(s, e).fl == s.fl && Next(s, e).r.size == s.r.size && Served(Next(s, e))
  {
  }

  lemma FetchTrue(s: State, k: nat)
    requires Prefix(s.fl) && Served(s) && Enabled(s, Fetch(k))
    ensures True(s, Chunk(s.r.pos, s.fl.file[s.r.pos..s.r.pos + k]))
  {
    var at, fl := s.r.pos, s.fl;
    assert fl.file == fl.entry[..|fl.file|];
    assert fl.file[at..at + k] == fl.entry[at..at + k];
  }

  lemma ReaderTrue(s: State, e: Step)
    requires Inv(s) && Enabled(s, e) && OfReader(e)
    ensures forall c :: c in Next(s, e).log ==> True(Next(s, e), c)
  {
    hide Prefix, Kept, Served, True;
    var t := Next(s, e);
    ReaderServed(s, e);
    forall c | c in t.log
      ensures True(t, c)
    {
      if c in s.log {
        TrueOnly(s, t, c);
      } else {
        FetchTrue(s, e.k);
        TrueOnly(s, t, c);
      }
    }
  }

  // True looks at the flight and the size only.
  lemma TrueOnly(s: State, t: State, c: Chunk)
    requires True(s, c) && t.fl == s.fl && t.r.size == s.r.size
    ensures True(t, c)
  {
  }

  lemma StepKeeps(s: State, e: Step)
    requires Inv(s) && Enabled(s, e)
    ensures Inv(Next(s, e))
  {
    hide Prefix, Kept, Served, True, Onward, Enabled, NextReader, NextFlight;
    if OfReader(e) {
      ReaderServed(s, e);
      ReaderTrue(s, e);
    } else {
      var g := Next(s, e).fl;
      FlightOnward(s, e);
      ServedOnward(s, g);
      forall c | c in s.log
        ensures True(s.(fl := g), c)
      {
        TrueOnward(s, g, c);
      }
    }
  }

  // --------------------------------------------------------------------- runs

  ghost predicate Run(s: State, es: seq<Step>)
    decreases |es|
  {
    es == [] || (Enabled(s, es[0]) && Run(Next(s, es[0]), es[1..]))
  }

  ghost function After(s: State, es: seq<Step>): State
    requires Run(s, es)
    decreases |es|
  {
    if es == [] then s else After(Next(s, es[0]), es[1..])
  }

  lemma {:induction false} RunKeeps(s: State, es: seq<Step>)
    requires Inv(s) && Run(s, es)
    ensures var t := After(s, es);
      Inv(t) && t.fl.entry == s.fl.entry && t.fl.declared == s.fl.declared && t.r.size == s.r.size
    decreases |es|
  {
    hide Inv, Enabled, NextReader, NextFlight;
    if es != [] {
      Constants(s, es[0]);
      StepKeeps(s, es[0]);
      RunKeeps(Next(s, es[0]), es[1..]);
    }
  }

  lemma Constants(s: State, e: Step)
    requires Inv(s) && Enabled(s, e)
    ensures var t := Next(s, e); t.fl.entry == s.fl.entry && t.fl.declared == s.fl.declared && t.r.size == s.r.size
  {
    hide Prefix, Kept, Served, True, Enabled, NextReader, NextFlight;
    if OfReader(e) {
      ReaderServed(s, e);
    } else {
      FlightOnward(s, e);
    }
  }

  lemma Initially(entry: seq<byte>, declared: nat, size: nat)
    ensures Inv(Initial(entry, declared, size))
  {
  }

  // For every interleaving of the extraction, other readers and this one: each
  // chunk returned holds the entry's bytes at its offset, within what has been
  // published and within the declared size; and if it holds the last byte then
  // the extraction has finished without an error.
  lemma ReadsAreTrue(entry: seq<byte>, declared: nat, size: nat, es: seq<Step>, c: Chunk)
    requires Run(Initial(entry, declared, size), es) && c in After(Initial(entry, declared, size), es).log &&
      c.bytes != []
    ensures var fl := After(Initial(entry, declared, size), es).fl;
      && c.at + |c.bytes| <= Min(|entry|, declared) && c.bytes == entry[c.at..c.at + |c.bytes|]
      && c.at + |c.bytes| <= fl.written
      && (c.at + |c.bytes| >= size ==> fl.finished && fl.err.None? && fl.file == entry)
  {
    hide Run, After, Kept, Served;
    Initially(entry, declared, size);
    RunKeeps(Initial(entry, declared, size), es);
    assert True(After(Initial(entry, declared, size), es), c);
  }

  // A reader that cannot be woken has nothing to read yet, and the flight is
  // still running.
  lemma NoForgottenSleeper(s: State)
    requires Inv(s) && s.r.phase.Sleeping? && !Enabled(s, Wake)
    ensures s.fl.written <= s.r.pos && !s.fl.finished && WaitFor(s.fl, s.r.pos + 1) == Blocked
  {
    hide Prefix, Kept;
  }

  // The file of a failed extraction is removed exactly once nobody has it open,
  // and stays until then; nobody can open it afterwards.
  lemma RemovedWhenUnread(s: State, e: Step)
    requires Inv(s) && Enabled(s, e)
    ensures s.fl.removals == if s.fl.dropped && s.fl.Readers() == 0 then 1 else 0
    ensures Next(s, e).fl.removals > s.fl.removals ==> e.Drop? || e.Release? || e.Close?
    ensures s.fl.removals == 1 ==> Next(s, e).fl.Readers() == 0
  {
    hide Prefix, Served;
  }

  // An entry longer than declared never finishes well, and its excess is never
  // published.
  lemma OverlongFails(entry: seq<byte>, declared: nat, size: nat, es: seq<Step>)
    requires Run(Initial(entry, declared, size), es) && |entry| > declared
    ensures var fl := After(Initial(entry, declared, size), es).fl;
      fl.written <= declared && |fl.file| <= |entry| && (fl.finished ==> fl.err.Some?)
  {
    hide Run, After, Kept, Served;
    Initially(entry, declared, size);
    RunKeeps(Initial(entry, declared, size), es);
  }

  // ------------------------------------------------ reading on from a position

  // A seek from the position or from the end is one from the start, which goes
  // where it says; before the start it fails and moves nothing.
  lemma SeeksAgree(s: State, offset: int, whence: Whence)
    requires Enabled(s, Seek(offset, whence))
    ensures Enabled(s, Seek(offset, Start)) && Enabled(s, Seek(s.r.pos + offset, Start))
    ensures Enabled(s, Seek(s.r.size + offset, Start))
    ensures offset >= 0 ==> Next(s, Seek(offset, Start)) == s.(r := s.r.(pos := offset))
    ensures offset < 0 ==> Next(s, Seek(offset, Start)) == s
    ensures Next(s, Seek(offset, Current)) == Next(s, Seek(s.r.pos + offset, Start))
    ensures Next(s, Seek(offset, End)) == Next(s, Seek(s.r.size + offset, Start))
  {
  }

  function Joined(chunks: seq<Chunk>): seq<byte> {
    if chunks == [] then [] else Joined(chunks[..|chunks| - 1]) + chunks[|chunks| - 1].bytes
  }

  // What the reads of a run have returned since the log was n chunks long is the
  // entry from `from` to the position.
  ghost predicate ReadOn(s: State, n: nat, from: nat) {
    && n <= |s.log| && from <= s.r.pos && (from == s.r.pos || s.r.pos <= |s.fl.entry|)
    && Joined(s.log[n..]) == if from == s.r.pos then [] else s.fl.entry[from..s.r.pos]
  }

  lemma FetchReadsOn(s: State, k: nat, n: nat, from: nat)
    requires Prefix(s.fl) && Enabled(s, Fetch(k)) && ReadOn(s, n, from)
    ensures ReadOn(Next(s, Fetch(k)), n, from)
  {
    hide Joined, Prefix;
    var at, entry := s.r.pos, s.fl.entry;
    Fetched(s, k);
    JoinedNext(s.log, n, Chunk(at, entry[at..at + k]));
    if from < at {
      assert entry[from..at] + entry[at..at + k] == entry[from..at + k];
    }
  }

  lemma Fetched(s: State, k: nat)
    requires Prefix(s.fl) && Enabled(s, Fetch(k))
    ensures s.r.pos + k <= |s.fl.entry|
    ensures Next(s, Fetch(k)) == State(s.fl, s.r.(pos := s.r.pos + k, phase := Idle),
                                       s.log + [Chunk(s.r.pos, s.fl.entry[s.r.pos..s.r.pos + k])])
  {
    assert s.fl.file == s.fl.entry[..|s.fl.file|];
    assert s.fl.file[s.r.pos..s.r.pos + k] == s.fl.entry[s.r.pos..s.r.pos + k];
  }

  lemma JoinedNext(log: seq<Chunk>, n: nat, c: Chunk)
    requires n <= |log|
    ensures Joined((log + [c])[n..]) == Joined(log[n..]) + c.bytes
  {
    var more := (log + [c])[n..];
    assert more == log[n..] + [c] && more[..|more| - 1] == log[n..];
  }

  // Nothing else moves the position or returns bytes, but a seek.
  lemma OthersReadOn(s: State, e: Step)
    requires Enabled(s, e) && !e.Fetch? && !e.Seek?
    ensures Next(s, e).r.pos == s.r.pos && Next(s, e).log == s.log && Next(s, e).fl.entry == s.fl.entry
  {
  }

  lemma {:induction false} RunReadsOn(s: State, es: seq<Step>, n: nat, from: nat)
    requires Inv(s) && Run(s, es) && ReadOn(s, n, from) && forall e :: e in es ==> !e.Seek?
    ensures ReadOn(After(s, es), n, from) && After(s, es).fl.entry == s.fl.entry
    decreases |es|
  {
    hide Enabled, NextReader, NextFlight, Prefix, Kept, Served, True;
    if es != [] {
      StepKeeps(s, es[0]);
      Constants(s, es[0]);
      if es[0].Fetch? {
        FetchReadsOn(s, es[0].k, n, from);
      } else {
        OthersReadOn(s, es[0]);
        assert ReadOn(Next(s, es[0]), n, from);
      }
      RunReadsOn(Next(s, es[0]), es[1..], n, from);
    }
  }

  // After a seek to any position, and until the next one, the reads return the
  // entry from there on, without a gap and without an overlap, whatever the
  // extraction and the other readers do meanwhile.
  lemma ReadsFollowASeek(s: State, to: nat, es: seq<Step>)
    requires Inv(s) && Enabled(s, Seek(to, Start)) && Run(Next(s, Seek(to, Start)), es)
    requires forall e :: e in es ==> !e.Seek?
    ensures var t := After(Next(s, Seek(to, Start)), es);
      && |s.log| <= |t.log| && to <= t.r.pos && (to == t.r.pos || t.r.pos <= |s.fl.entry|)
      && Joined(t.log[|s.log|..]) == if to == t.r.pos then [] else s.fl.entry[to..t.r.pos]
  {
    hide Run, After, Inv;
    StepKeeps(s, Seek(to, Start));
    RunReadsOn(Next(s, Seek(to, Start)), es, |s.log|, to);
  }

  // A look at published bytes of a flight that has not failed goes on to read as
  // many as the buffer, the entry and what is published allow; waiting for the end
  // first if they hold the last one.
  lemma LookServes(s: State)
    requires Inv(s) && Enabled(s, Look) && s.fl.written > s.r.pos && !(s.fl.finished && s.fl.err.Some?)
    ensures var p, len := Next(s, Look).r.phase, s.r.phase.len;
      && (p.Fetching? || p.Ending?) && 0 < p.n <= len && s.r.pos + p.n <= s.r.size && s.r.pos + p.n <= s.fl.written
      && (p.n == len || s.r.pos + p.n == s.r.size || s.r.pos + p.n == s.fl.written)
      && (p.Ending? <==> s.r.pos + p.n == s.r.size)
  {
    hide Prefix, Kept;
  }

  lemma OneStep(s: State, e: Step, es: seq<Step>)
    requires Enabled(s, e) && Run(Next(s, e), es)
    ensures Run(s, [e] + es) && After(s, [e] + es) == After(Next(s, e), es)
  {
    hide Enabled, Next;
    assert ([e] + es)[1..] == es;
  }

  lemma NoStep(s: State)
    ensures Run(s, []) && After(s, []) == s
  {
  }

  lemma FetchNow(s: State)
    requires Prefix(s.fl) && Served(s) && s.r.phase.Fetching?
    ensures var n := s.r.phase.n;
      && n > 0 && s.r.pos + n <= |s.fl.entry| && Run(s, [Fetch(n)])
      && After(s, [Fetch(n)]) == State(s.fl, s.r.(pos := s.r.pos + n, phase := Idle),
                                       s.log + [Chunk(s.r.pos, s.fl.entry[s.r.pos..s.r.pos + n])])
  {
    hide Run, After, NextFlight;
    var n := s.r.phase.n;
    Fetched(s, n);
    NoStep(Next(s, Fetch(n)));
    OneStep(s, Fetch(n), []);
    assert [Fetch(n)] + [] == [Fetch(n)];
  }

  // A reader that is to serve n bytes can: it returns them.
  lemma FetchEnds(s: State)
    requires Inv(s) && (s.r.phase.Fetching? || (s.r.phase.Ending? && s.fl.finished && s.fl.err.None?))
    ensures var n := s.r.phase.n; var es := if s.r.phase.Ending? then [AwaitDone, Fetch(n)] else [Fetch(n)];
      && n > 0 && s.r.pos + n <= |s.fl.entry| && Run(s, es)
      && After(s, es) == State(s.fl, s.r.(pos := s.r.pos + n, phase := Idle),
                               s.log + [Chunk(s.r.pos, s.fl.entry[s.r.pos..s.r.pos + n])])
  {
    hide Run, After, Prefix, Kept, True, Served, NextFlight;
    if s.r.phase.Fetching? {
      FetchNow(s);
    } else {
      var t := Next(s, AwaitDone);
      StepKeeps(s, AwaitDone);
      FetchNow(t);
      OneStep(s, AwaitDone, [Fetch(t.r.phase.n)]);
      assert [AwaitDone] + [Fetch(t.r.phase.n)] == [AwaitDone, Fetch(t.r.phase.n)];
    }
  }

  // A reader between calls, or woken, finds published bytes of a flight that has
  // not failed: by its own steps alone it returns some, unless they hold the last
  // one and the extraction is still to end.
  lemma PublishedIsReadable(s: State, len: nat) returns (es: seq<Step>, n: nat)
    requires Inv(s) && len > 0 && s.r.pos < s.r.size && s.fl.written > s.r.pos && s.fl.err.None?
    requires (s.r.phase.Idle? && s.fl.held) || (s.r.phase.Sleeping? && s.r.phase.len == len && Enabled(s, Wake))
    requires s.fl.finished || (s.fl.written < s.r.size && s.fl.written <= |s.fl.entry|)
    ensures Run(s, es) && forall e :: e in es ==> OfReader(e)
    ensures 0 < n <= len && s.r.pos + n <= |s.fl.entry|
    ensures After(s, es) == State(s.fl, s.r.(pos := s.r.pos + n, phase := Idle),
                                  s.log + [Chunk(s.r.pos, s.fl.entry[s.r.pos..s.r.pos + n])])
  {
    hide Run, After, Prefix, Kept, True;
    var first := if s.r.phase.Idle? then Read(len) else Wake;
    var s1 := Next(s, first);
    assert s1 == s.(r := s.r.(phase := Wanting(len)));
    StepKeeps(s, first);
    LookServes(s1);
    StepKeeps(s1, Look);
    var s2 := Next(s1, Look);
    n := s2.r.phase.n;
    LookOnly(s1);
    FetchEnds(s2);
    var rest := if s2.r.phase.Ending? then [AwaitDone, Fetch(n)] else [Fetch(n)];
    OneStep(s1, Look, rest);
    OneStep(s, first, [Look] + rest);
    es := [first] + ([Look] + rest);
  }

  lemma LookOnly(s: State)
    requires Enabled(s, Look)
    ensures var t := Next(s, Look); t.fl == s.fl && t.log == s.log && t.r == s.r.(phase := t.r.phase)
  {
  }

  // --------------------------------------------------------------- the error

  // An error the flight carries is one its copy failed with.
  ghost predicate From(fl: Flight, e: Error) {
    fl.stage == Copied(Some(e)) || fl.stage == Discarded(e) || fl.err == Some(e)
  }

  lemma StepFrom(s: State, step: Step, e: Error)
    requires Prefix(s.fl) && Enabled(s, step) && From(Next(s, step).fl, e)
    ensures From(s.fl, e) || step == CopyFail(e)
  {
    hide NextReader;
    if OfReader(step) {
      ReaderLeavesFlight(s, step);
    }
  }

  // Over every interleaving the error readers are given is the one the extraction
  // failed with; and a copy that failed never ends without it.
  lemma {:induction false} ErrorIsTheCopys(s: State, es: seq<Step>, e: Error)
    requires Inv(s) && Run(s, es)
    ensures After(s, es).fl.err == Some(e) ==> From(s.fl, e) || CopyFail(e) in es
    ensures From(s.fl, e) && After(s, es).fl.finished ==> After(s, es).fl.err == Some(e)
    decreases |es|
  {
    hide Enabled, NextReader, NextFlight, Kept, Served, True;
    if es != [] {
      StepKeeps(s, es[0]);
      if From(s.fl, e) {
        StaysFrom(s, es[0], e);
      }
      var t := Next(s, es[0]);
      ErrorIsTheCopys(t, es[1..], e);
      if From(t.fl, e) {
        StepFrom(s, es[0], e);
      }
    }
  }

  lemma StaysFrom(s: State, step: Step, e: Error)
    requires Prefix(s.fl) && Enabled(s, step) && From(s.fl, e)
    ensures From(Next(s, step).fl, e)
  {
    hide NextReader;
    if OfReader(step) {
      ReaderLeavesFlight(s, step);
    }
  }

  // ---------------------------------------------------------------- open files

  // The readers besides the one followed that have the file open: those that were
  // let in, less those that have left.
  ghost function LetIn(s: State, es: seq<Step>): int
    requires Run(s, es)
    decreases |es|
  {
    if es == [] then 0
    else
      var more := if es[0].Acquire? && !s.fl.dropped then 1 else if es[0].Release? then -1 else 0;
      more + LetIn(Next(s, es[0]), es[1..])
  }

  lemma ReaderLeavesFlight(s: State, e: Step)
    requires Enabled(s, e) && OfReader(e)
    ensures Next(s, e).fl == s.fl
  {
    hide NextFlight;
  }

  lemma StepLetsIn(s: State, e: Step)
    requires Enabled(s, e)
    ensures var t := Next(s, e);
      && t.fl.others == s.fl.others + (if e.Acquire? && !s.fl.dropped then 1 else if e.Release? then -1 else 0)
      && (t.fl.held <==> if e.Open? then !s.fl.dropped else !e.Close? && s.fl.held)
  {
    hide NextReader;
    if OfReader(e) {
      ReaderLeavesFlight(s, e);
    }
  }

  // Over every interleaving the registered readers are exactly those that found
  // the file and have not left; and the file of a failed extraction stays while
  // there is one.
  lemma {:induction false} ReadersAreCounted(s: State, es: seq<Step>)
    requires Inv(s) && Run(s, es)
    ensures After(s, es).fl.others == s.fl.others + LetIn(s, es)
    ensures s.fl.others + LetIn(s, es) > 0 ==> After(s, es).fl.removals == 0
    decreases |es|
  {
    hide Enabled, NextReader, NextFlight, Prefix, Served, True;
    if es != [] {
      StepKeeps(s, es[0]);
      StepLetsIn(s, es[0]);
      ReadersAreCounted(Next(s, es[0]), es[1..]);
    }
  }

  // ----------------------------------------------------- the code, in place

  class ExtractFlight {
    const entry: seq<byte>
    const declared: nat
    var stage: Stage
    var file: seq<byte>
    var published: bool
    var written: nat
    var gen: nat
    var finished: bool
    var err: Option<Error>
    var others: nat
    var held: bool
    var dropped: bool
    var removals: nat

    constructor (entry: seq<byte>, declared: nat)
      ensures View() == Initial(entry, declared, 0).fl
    {
      this.entry, this.declared := entry, declared;
      stage, file, published, written, gen := Copying, [], true, 0, 0;
      finished, err, others, held, dropped, removals := false, None, 0, false, false, 0;
    }

    function View(): Flight
      reads this
    {
      Flight(entry, declared, stage, file, published, written, gen, finished, err, others, held, dropped, removals)
    }

    method AcquireReader() returns (ok: bool)
      modifies this
      ensures View() == NextFlight(old(View()), Acquire) && ok == !dropped
    {
      ok := !dropped;
      if ok {
        others := others + 1;
      }
    }

    method ReleaseReader()
      requires others > 0
      modifies this
      ensures View() == NextFlight(old(View()), Release)
    {
      others := others - 1;
      var remove := dropped && View().Readers() == 0 && removals == 0;
      if remove {
        removals := removals + 1;
      }
    }
  }

  // archiveProgressReader: Seek, and the parts of Read between its waits.
  class ProgressReader {
    const size: nat
    var pos: nat
    var phase: Phase

    constructor (size: nat)
      ensures View() == Reader(size, 0, Idle)
    {
      this.size := size;
      pos, phase := 0, Idle;
    }

    function View(): Reader
      reads this
    {
      Reader(size, pos, phase)
    }

    method Seek(offset: int, whence: Whence, ghost s: State) returns (abs: Option<nat>)
      requires s.r == View() && Enabled(s, Step.Seek(offset, whence))
      modifies this
      ensures View() == Next(s, Step.Seek(offset, whence)).r
      ensures abs == if Target(old(View()), offset, whence) < 0 then None else Some(pos)
    {
      var to: int;
      match whence {
        case Start => to := offset;
        case Current => to := pos + offset;
        case End => to := size + offset;
      }
      if to < 0 {
        return None;
      }
      pos := to;
      abs := Some(to);
    }

    // Read up to waitFor: atEnd is io.EOF.
    method ReadBegin(len: nat, ghost s: State) returns (atEnd: bool)
      requires s.r == View() && Enabled(s, Read(len))
      modifies this
      ensures View() == Next(s, Read(len)).r && atEnd == (pos >= size)
    {
      atEnd := pos >= size;
      if !atEnd && len > 0 {
        phase := Wanting(len);
      }
    }

    // One turn of waitFor, on the flight fl, and what Read does with its result.
    method LookAt(fl: Flight, ghost s: State)
      requires s.r == View() && s.fl == fl && Enabled(s, Look)
      modifies this
      ensures View() == Next(s, Look).r
    {
      var len := phase.len;
      if fl.finished && fl.err.Some? {
        phase := Idle;
      } else if fl.written >= pos + 1 {
        var n := Min(Min(len, size - pos), fl.written - pos);
        if n < 0 {
          phase := Idle;
        } else if pos + n >= size {
          phase := Ending(n);
        } else {
          phase := Fetching(n);
        }
      } else if fl.finished {
        phase := Idle;
      } else {
        phase := Sleeping(len, fl.gen);
      }
    }
  }
}
