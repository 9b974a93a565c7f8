// Piece priorities at the ends of a streamed file (internal/engine/engine.go):
// which pieces are raised, and which are released again.
module Boundary {
  import opened Collections
  import opened Numbers

  // 0 is PiecePriorityNone.
  type Priority = nat

  // Half-open.
  datatype Span = Span(begin: int, end: int)

  // A file of the torrent: its pieces, and whether it is a video.
  datatype File = File(begin: int, end: int, video: bool)

  const HEAD_BYTES := 4194304
  const TAIL_BYTES := 8388608
  const PREFETCH_PIECES := 4

  // -------------------------------------------------------------- piece ranges

  // The least number of pieces, at least one, that n bytes fill.
  function PiecesForBytes(n: int, pieceLen: int): (p: int)
    ensures p >= 1
    ensures n > 0 && pieceLen > 0 ==> (p - 1) * pieceLen < n <= p * pieceLen
  {
    if pieceLen <= 0 || n <= 0 then 1
    else
      var p := (n + pieceLen - 1) / pieceLen;
      assert p * pieceLen <= n + pieceLen - 1 < p * pieceLen + pieceLen;
      if p < 1 then 1 else p
  }

  function PrimeRange(begin: int, end: int, pieceLen: int, headBytes: int, tailBytes: int): (r: (int, int))
    ensures begin <= end ==> begin <= r.0 <= end && begin <= r.1 <= end
  {
    if end <= begin then (begin, begin)
    else (Min(begin + PiecesForBytes(headBytes, pieceLen), end), Max(end - PiecesForBytes(tailBytes, pieceLen), begin))
  }

  // The pieces of a file of length bytes at offset in the torrent.
  predicate Lies(offset: int, length: int, pieceLen: int, begin: int, end: int) {
    && pieceLen > 0 && length > 0 && offset >= 0
    && begin * pieceLen <= offset < (begin + 1) * pieceLen
    && (end - 1) * pieceLen < offset + length <= end * pieceLen
  }

  // The head pieces hold the first headBytes of the file exactly when they reach
  // the end of the file, or the part of the first piece before the file leaves
  // them room.
  lemma HeadCovers(offset: int, length: int, pieceLen: int, begin: int, end: int, headBytes: int, tailBytes: int)
    requires Lies(offset, length, pieceLen, begin, end) && headBytes > 0
    ensures begin < end
    ensures var headEnd := PrimeRange(begin, end, pieceLen, headBytes, tailBytes).0;
      var pieces := PiecesForBytes(headBytes, pieceLen);
      offset + Min(headBytes, length) <= headEnd * pieceLen <==>
        end - begin <= pieces || (offset - begin * pieceLen) + Min(headBytes, length) <= pieces * pieceLen
  {
    NotEmpty(offset, length, pieceLen, begin, end);
    var pieces := PiecesForBytes(headBytes, pieceLen);
    assert (begin + pieces) * pieceLen == begin * pieceLen + pieces * pieceLen;
  }

  lemma NotEmpty(offset: int, length: int, pieceLen: int, begin: int, end: int)
    requires Lies(offset, length, pieceLen, begin, end)
    ensures begin < end
  {
  }

  // And likewise for the tail, with the part of the last piece after the file.
  lemma TailCovers(offset: int, length: int, pieceLen: int, begin: int, end: int, headBytes: int, tailBytes: int)
    requires Lies(offset, length, pieceLen, begin, end) && tailBytes > 0
    ensures var tailBegin := PrimeRange(begin, end, pieceLen, headBytes, tailBytes).1;
      var pieces := PiecesForBytes(tailBytes, pieceLen);
      tailBegin * pieceLen <= offset + length - Min(tailBytes, length) <==>
        end - begin <= pieces || (end * pieceLen - (offset + length)) + Min(tailBytes, length) <= pieces * pieceLen
  {
    NotEmpty(offset, length, pieceLen, begin, end);
    var pieces := PiecesForBytes(tailBytes, pieceLen);
    assert (end - pieces) * pieceLen == end * pieceLen - pieces * pieceLen;
  }

  // A file that starts and ends with a piece is always covered.
  lemma AlignedIsCovered(length: int, pieceLen: int, begin: int, end: int, headBytes: int, tailBytes: int)
    requires Lies(begin * pieceLen, length, pieceLen, begin, end) && begin * pieceLen + length == end * pieceLen
    requires headBytes > 0 && tailBytes > 0
    ensures var (headEnd, tailBegin) := PrimeRange(begin, end, pieceLen, headBytes, tailBytes);
      && begin * pieceLen + Min(headBytes, length) <= headEnd * pieceLen
      && tailBegin * pieceLen <= end * pieceLen - Min(tailBytes, length)
  {
    HeadCovers(begin * pieceLen, length, pieceLen, begin, end, headBytes, tailBytes);
    TailCovers(begin * pieceLen, length, pieceLen, begin, end, headBytes, tailBytes);
  }

  // A file that starts late in a 16 MiB piece: only 3 of the first 4 MiB are in
  // the head pieces; one that ends early in a piece: only 3 of the last 8 MiB are
  // in the tail pieces.
  lemma WindowsCanFallShort()
    ensures var MiB := 1048576; var (offset, length, pieceLen) := (13 * MiB, 54 * MiB, 16 * MiB);
      && Lies(offset, length, pieceLen, 0, 5)
      && PrimeRange(0, 5, pieceLen, HEAD_BYTES, TAIL_BYTES) == (1, 4)
      && offset + HEAD_BYTES > 1 * pieceLen && 4 * pieceLen > offset + length - TAIL_BYTES
  {
    assert PiecesForBytes(HEAD_BYTES, 16777216) == 1;
    assert PiecesForBytes(TAIL_BYTES, 16777216) == 1;
  }

  function BoundarySpans(begin: int, end: int, pieceLen: int): seq<Span> {
    var (headEnd, tailBegin) := PrimeRange(begin, end, pieceLen, HEAD_BYTES, TAIL_BYTES);
    [Span(begin, headEnd), Span(tailBegin, end)]
  }

  function PrefetchSpans(begin: int, end: int): seq<Span> {
    [Span(begin, Min(begin + PREFETCH_PIECES, end)), Span(Max(end - PREFETCH_PIECES, begin), end)]
  }

  function Range(s: Span): (r: set<int>)
    ensures forall i :: i in r <==> s.begin <= i < s.end
    decreases s.end - s.begin
  {
    if s.end <= s.begin then {} else Range(Span(s.begin, s.end - 1)) + {s.end - 1}
  }

  function Pieces(spans: seq<Span>): set<int> {
    if spans == [] then {} else Pieces(spans[..|spans| - 1]) + Range(spans[|spans| - 1])
  }

  lemma PiecesOfTwo(s: Span, t: Span)
    ensures Pieces([s, t]) == Range(s) + Range(t)
  {
    hide Range;
    var both, one := [s, t], [s];
    assert both[..1] == one && one[..0] == [];
    assert Pieces(one) == {} + Range(s);
  }

  // Both kinds of spans stay within the file.
  lemma SpansAreInside(begin: int, end: int, pieceLen: int, i: int)
    requires begin <= end
    requires i in Pieces(BoundarySpans(begin, end, pieceLen)) || i in Pieces(PrefetchSpans(begin, end))
    ensures begin <= i < end
  {
    var (headEnd, tailBegin) := PrimeRange(begin, end, pieceLen, HEAD_BYTES, TAIL_BYTES);
    PiecesOfTwo(Span(begin, headEnd), Span(tailBegin, end));
    PiecesOfTwo(Span(begin, Min(begin + PREFETCH_PIECES, end)), Span(Max(end - PREFETCH_PIECES, begin), end));
  }

  // ------------------------------------------------------------- priorities

  function Of(m: map<int, Priority>, i: int): Priority {
    if i in m then m[i] else 0
  }

  // raiseBoundary as a function of bprio.
  function Raised(bprio: map<int, Priority>, ps: set<int>, prio: Priority): map<int, Priority> {
    map i | i in bprio.Keys + ps :: if i in ps && !(i in bprio && bprio[i] >= prio) then prio else bprio[i]
  }

  lemma NoneRaised(bprio: map<int, Priority>, prio: Priority)
    ensures Raised(bprio, {}, prio) == bprio
  {
  }

  lemma RaisedTwice(bprio: map<int, Priority>, ps: set<int>, qs: set<int>, prio: Priority)
    ensures Raised(Raised(bprio, ps, prio), qs, prio) == Raised(bprio, ps + qs, prio)
  {
  }

  lemma RaisedOne(bprio: map<int, Priority>, ps: set<int>, i: int, prio: Priority)
    requires i !in ps
    ensures Raised(bprio, ps + {i}, prio) ==
      if i in bprio && bprio[i] >= prio then Raised(bprio, ps, prio) else Raised(bprio, ps, prio)[i := prio]
    ensures i in Raised(bprio, ps, prio) <==> i in bprio
    ensures i in bprio ==> Raised(bprio, ps, prio)[i] == bprio[i]
  {
  }

  // What the torrent was told is what bprio records.
  ghost predicate Mirrors(bprio: map<int, Priority>, explicit: map<int, Priority>) {
    forall i :: Of(explicit, i) == Of(bprio, i)
  }

  lemma SetBoth(bprio: map<int, Priority>, explicit: map<int, Priority>, i: int, prio: Priority)
    requires Mirrors(bprio, explicit)
    ensures Mirrors(bprio[i := prio], explicit[i := prio])
  {
    var b, e := bprio[i := prio], explicit[i := prio];
    forall j
      ensures Of(e, j) == Of(b, j)
    {
      assert j != i ==> Of(e, j) == Of(explicit, j) == Of(bprio, j);
    }
  }

  lemma ClearBoth(bprio: map<int, Priority>, explicit: map<int, Priority>, i: int)
    requires Mirrors(bprio, explicit)
    ensures Mirrors(bprio - {i}, explicit[i := 0])
  {
    var b, e := bprio - {i}, explicit[i := 0];
    forall j
      ensures Of(e, j) == Of(b, j)
    {
      assert j != i ==> Of(e, j) == Of(explicit, j) == Of(bprio, j);
    }
  }

  predicate Ascending(out: seq<int>) {
    forall i, j :: 0 <= i < j < |out| ==> out[i] < out[j]
  }

  class Priorities {
    var bprio: map<int, Priority>
    // The priority last set on each piece; pieces start at 0.
    var explicit: map<int, Priority>

    constructor ()
      ensures bprio == map[] && explicit == map[]
    {
      bprio, explicit := map[], map[];
    }

    method SetPriority(i: int, prio: Priority)
      modifies this`explicit
      ensures explicit == old(explicit)[i := prio]
    {
      explicit := explicit[i := prio];
    }

    method RaiseBoundary(spans: seq<Span>, prio: Priority)
      requires Mirrors(bprio, explicit)
      modifies this
      ensures bprio == Raised(old(bprio), Pieces(spans), prio) && Mirrors(bprio, explicit)
    {
      assert Raised(bprio, {}, prio) == bprio;
      for n := 0 to |spans|
        invariant bprio == Raised(old(bprio), Pieces(spans[..n]), prio) && Mirrors(bprio, explicit)
      {
        assert spans[..n + 1][..n] == spans[..n];
        RaiseSpan(spans[n], prio);
        RaisedTwice(old(bprio), Pieces(spans[..n]), Range(spans[n]), prio);
      }
      assert spans[..|spans|] == spans;
    }

    // The inner loop, over one span.
    method RaiseSpan(s: Span, prio: Priority)
      requires Mirrors(bprio, explicit)
      modifies this
      ensures bprio == Raised(old(bprio), Range(s), prio) && Mirrors(bprio, explicit)
    {
      hide Mirrors, Of, Raised;
      NoneRaised(bprio, prio);
      var i := s.begin;
      while i < s.end
        invariant bprio == Raised(old(bprio), Range(Span(s.begin, Min(i, s.end))), prio) && Mirrors(bprio, explicit)
        invariant s.begin <= i
      {
        assert Range(Span(s.begin, i + 1)) == Range(Span(s.begin, i)) + {i};
        RaisedOne(old(bprio), Range(Span(s.begin, i)), i, prio);
        if !(i in bprio && bprio[i] >= prio) {
          SetBoth(bprio, explicit, i, prio);
          bprio := bprio[i := prio];
          SetPriority(i, prio);
        }
        i := i + 1;
      }
    }

    // releasePieces.
    method ReleasePieces(pieces: seq<int>)
      requires Mirrors(bprio, explicit)
      modifies this
      ensures bprio == old(bprio) - SetOf(pieces) && Mirrors(bprio, explicit)
    {
      hide Mirrors, Of;
      for n := 0 to |pieces|
        invariant bprio == old(bprio) - SetOf(pieces[..n]) && Mirrors(bprio, explicit)
      {
        var i := pieces[n];
        assert pieces[..n + 1] == pieces[..n] + [i];
        if i in bprio {
          ClearBoth(bprio, explicit, i);
          bprio := bprio - {i};
          SetPriority(i, 0);
        }
      }
      assert pieces[..|pieces|] == pieces;
    }
  }

  // sort.Ints on distinct numbers: each goes before the first larger one.
  function Inserted(out: seq<int>, x: int): seq<int> {
    if out == [] || out[|out| - 1] < x then out + [x]
    else Inserted(out[..|out| - 1], x) + [out[|out| - 1]]
  }

  lemma {:induction false} InsertedHas(out: seq<int>, x: int)
    ensures forall i :: i in Inserted(out, x) <==> i in out || i == x
  {
    if out != [] && out[|out| - 1] >= x {
      InsertedHas(out[..|out| - 1], x);
      assert out == out[..|out| - 1] + [out[|out| - 1]];
    }
  }

  lemma Appended(out: seq<int>, x: int)
    requires Ascending(out) && forall i :: i in out ==> i < x
    ensures Ascending(out + [x])
  {
    forall i | 0 <= i < |out|
      ensures out[i] < x
    {
      assert out[i] in out;
    }
  }

  lemma {:induction false} InsertedAscends(out: seq<int>, x: int)
    requires Ascending(out) && x !in out
    ensures Ascending(Inserted(out, x))
  {
    if out == [] || out[|out| - 1] < x {
      Appended(out, x);
    } else {
      var init, last := out[..|out| - 1], out[|out| - 1];
      InsertedAscends(init, x);
      InsertedHas(init, x);
      assert forall i :: i in init ==> i < last;
      Appended(Inserted(init, x), last);
    }
  }

  // piecesToRelease: the demoted pieces that are not protected, in ascending
  // order, each once.
  method PiecesToRelease(demoted: seq<Span>, protected: seq<Span>) returns (out: seq<int>)
    ensures Ascending(out)
    ensures forall i :: i in out <==> i in Pieces(demoted) && i !in Pieces(protected)
  {
    var keep := Pieces(protected);
    out := [];
    for n := 0 to |demoted|
      invariant Ascending(out)
      invariant forall i :: i in out <==> i in Pieces(demoted[..n]) && i !in keep
    {
      assert demoted[..n + 1][..n] == demoted[..n];
      var s := demoted[n];
      var i := s.begin;
      while i < s.end
        invariant s.begin <= i && Ascending(out)
        invariant forall j :: j in out <==> (j in Pieces(demoted[..n]) || s.begin <= j < Min(i, s.end)) && j !in keep
      {
        if i !in keep && i !in out {
          InsertedHas(out, i);
          InsertedAscends(out, i);
          out := Inserted(out, i);
        }
        i := i + 1;
      }
    }
    assert demoted[..|demoted|] == demoted;
  }

  // --------------------------------------------------------------- releasing

  // The first video after file i, if there is one.
  function NextVideo(files: seq<File>, i: int): (n: int)
    requires -1 <= i
    ensures n == -1 || (i < n < |files| && files[n].video && forall j :: i < j < n ==> !files[j].video)
    ensures n == -1 ==> forall j :: i < j < |files| ==> !files[j].video
    decreases |files| - i
  {
    if i + 1 >= |files| then -1 else if files[i + 1].video then i + 1 else NextVideo(files, i + 1)
  }

  // Everything that may have been raised on behalf of file i: its own ends, and
  // those of the next video.
  function SpansOf(files: seq<File>, i: int, pieceLen: int): seq<Span> {
    if i < 0 || i >= |files| then []
    else
      var n := NextVideo(files, i);
      BoundarySpans(files[i].begin, files[i].end, pieceLen)
        + if n >= 0 then PrefetchSpans(files[n].begin, files[n].end) else []
  }

  ghost function PiecesOf(files: seq<File>, indices: set<int>, pieceLen: int): set<int> {
    set f, i | f in indices && i in Pieces(SpansOf(files, f, pieceLen)) :: i
  }

  lemma {:induction false} PiecesJoin(a: seq<Span>, b: seq<Span>)
    ensures Pieces(a + b) == Pieces(a) + Pieces(b)
  {
    hide Range;
    if b == [] {
      assert a + b == a;
    } else {
      assert (a + b)[..|a + b| - 1] == a + b[..|b| - 1];
      PiecesJoin(a, b[..|b| - 1]);
    }
  }

  // The spans of the files at indices, save those to skip.
  method Gather(files: seq<File>, indices: seq<int>, skip: seq<int>, pieceLen: int) returns (spans: seq<Span>)
    ensures Pieces(spans) == PiecesOf(files, SetOf(indices) - SetOf(skip), pieceLen)
  {
    hide PiecesOf, Pieces, SpansOf;
    spans := [];
    NoPieces(files, SetOf(indices[..0]) - SetOf(skip), pieceLen);
    for n := 0 to |indices|
      invariant Pieces(spans) == PiecesOf(files, SetOf(indices[..n]) - SetOf(skip), pieceLen)
    {
      var f := indices[n];
      assert indices[..n + 1] == indices[..n] + [f];
      if f in skip {
        assert SetOf(indices[..n + 1]) - SetOf(skip) == SetOf(indices[..n]) - SetOf(skip);
      } else {
        assert SetOf(indices[..n + 1]) - SetOf(skip) == SetOf(indices[..n]) - SetOf(skip) + {f};
        PiecesJoin(spans, SpansOf(files, f, pieceLen));
        GatherOne(files, SetOf(indices[..n]) - SetOf(skip), f, pieceLen);
        spans := spans + SpansOf(files, f, pieceLen);
      }
    }
    assert indices[..|indices|] == indices;
  }

  lemma NoPieces(files: seq<File>, none: set<int>, pieceLen: int)
    requires none == {}
    ensures Pieces([]) == PiecesOf(files, none, pieceLen)
  {
  }

  lemma GatherOne(files: seq<File>, seen: set<int>, f: int, pieceLen: int)
    ensures PiecesOf(files, seen + {f}, pieceLen)
         == PiecesOf(files, seen, pieceLen) + Pieces(SpansOf(files, f, pieceLen))
  {
    hide Pieces, SpansOf;
    var one := Pieces(SpansOf(files, f, pieceLen));
    forall i
      ensures i in PiecesOf(files, seen + {f}, pieceLen) <==> i in PiecesOf(files, seen, pieceLen) || i in one
    {
    }
  }

  // releaseBoundary: kept are the files selected, primed or being read.
  method ReleaseBoundary(p: Priorities, files: seq<File>, demoted: seq<int>, kept: seq<int>, pieceLen: int)
    requires Mirrors(p.bprio, p.explicit)
    modifies p
    ensures Mirrors(p.bprio, p.explicit)
    ensures var gone := PiecesOf(files, SetOf(demoted), pieceLen);
      var stay := PiecesOf(files, SetOf(kept) - SetOf(demoted), pieceLen);
      forall i :: Of(p.explicit, i) == if i in gone - stay then 0 else old(Of(p.explicit, i))
  {
    hide Pieces, PiecesOf;
    assert SetOf(demoted) - SetOf([]) == SetOf(demoted);
    var gone := Gather(files, demoted, [], pieceLen);
    var stay := Gather(files, kept, demoted, pieceLen);
    var out := PiecesToRelease(gone, stay);
    p.ReleasePieces(out);
    forall i
      ensures Of(p.explicit, i) == if i in Pieces(gone) - Pieces(stay) then 0 else old(Of(p.explicit, i))
    {
      assert Of(p.explicit, i) == Of(p.bprio, i) && old(Of(p.explicit, i) == Of(p.bprio, i));
    }
  }

  // Which pieces these are: those of each end, and nothing between them.
  lemma SpansAreTheEnds(begin: int, end: int, pieceLen: int, i: int)
    requires begin <= end
    ensures i in Pieces(BoundarySpans(begin, end, pieceLen)) <==>
      && begin <= i < end
      && (i < begin + PiecesForBytes(HEAD_BYTES, pieceLen) || i >= end - PiecesForBytes(TAIL_BYTES, pieceLen))
    ensures i in Pieces(PrefetchSpans(begin, end)) <==>
      begin <= i < end && (i < begin + PREFETCH_PIECES || i >= end - PREFETCH_PIECES)
  {
    hide PiecesForBytes;
    var (headEnd, tailBegin) := PrimeRange(begin, end, pieceLen, HEAD_BYTES, TAIL_BYTES);
    PiecesOfTwo(Span(begin, headEnd), Span(tailBegin, end));
    PiecesOfTwo(Span(begin, Min(begin + PREFETCH_PIECES, end)), Span(Max(end - PREFETCH_PIECES, begin), end));
  }

  // ------------------------------------------------------- on behalf of files

  // primeBoundary and prefetchNext of a file, and releaseBoundary with the files
  // that are selected, primed or being read.
  datatype FileOp =
    | Prime(f: nat, prio: Priority)
    | Prefetch(f: nat, prio: Priority)
    | Demote(demoted: set<int>, kept: set<int>)

  ghost function FileApplied(bprio: map<int, Priority>, files: seq<File>, pieceLen: int, op: FileOp)
    : map<int, Priority>
  {
    match op
    case Prime(f, prio) =>
      if f >= |files| then bprio
      else Raised(bprio, Pieces(BoundarySpans(files[f].begin, files[f].end, pieceLen)), prio)
    case Prefetch(f, prio) =>
      var n := NextVideo(files, f);
      if n < 0 then bprio else Raised(bprio, Pieces(PrefetchSpans(files[n].begin, files[n].end)), prio)
    case Demote(demoted, kept) =>
      bprio - (PiecesOf(files, demoted, pieceLen) - PiecesOf(files, kept - demoted, pieceLen))
  }

  ghost function FilesApplied(files: seq<File>, pieceLen: int, ops: seq<FileOp>): map<int, Priority> {
    if ops == [] then map[]
    else FileApplied(FilesApplied(files, pieceLen, ops[..|ops| - 1]), files, pieceLen, ops[|ops| - 1])
  }

  // The files something was raised for, or that were kept, and that have not been
  // demoted since.
  function Holding(ops: seq<FileOp>): set<int> {
    if ops == [] then {}
    else
      var before := Holding(ops[..|ops| - 1]);
      match ops[|ops| - 1]
      case Prime(f, _) => before + {f}
      case Prefetch(f, _) => before + {f}
      case Demote(demoted, kept) => before + kept - demoted
  }

  // i is at an end of file f, or of the first video after it.
  predicate Served(files: seq<File>, f: int, pieceLen: int, i: int) {
    && 0 <= f < |files|
    && (i in Pieces(BoundarySpans(files[f].begin, files[f].end, pieceLen))
        || exists n :: f < n < |files| && files[n].video && (forall j :: f < j < n ==> !files[j].video)
             && i in Pieces(PrefetchSpans(files[n].begin, files[n].end)))
  }

  lemma ServedIsInSpans(files: seq<File>, f: int, pieceLen: int, i: int)
    ensures i in Pieces(SpansOf(files, f, pieceLen)) <==> Served(files, f, pieceLen, i)
  {
    hide Pieces, BoundarySpans, PrefetchSpans;
    NoSpans();
    if 0 <= f < |files| {
      var n := NextVideo(files, f);
      var own := BoundarySpans(files[f].begin, files[f].end, pieceLen);
      assert own + [] == own;
      if n >= 0 {
        PiecesJoin(own, PrefetchSpans(files[n].begin, files[n].end));
        assert forall m :: f < m < |files| && files[m].video && (forall j :: f < j < m ==> !files[j].video) ==> m == n;
      }
    }
  }

  lemma NoSpans()
    ensures Pieces([]) == {}
  {
  }

  lemma InPiecesOf(files: seq<File>, indices: set<int>, pieceLen: int, i: int)
    ensures i in PiecesOf(files, indices, pieceLen) <==> exists f :: f in indices && Served(files, f, pieceLen, i)
  {
    hide Pieces, SpansOf, Served;
    forall f
      ensures i in Pieces(SpansOf(files, f, pieceLen)) <==> Served(files, f, pieceLen, i)
    {
      ServedIsInSpans(files, f, pieceLen, i);
    }
  }

  // Whatever is raised on behalf of a file is taken back with it: after any
  // sequence of primings, prefetches and demotions a piece with a priority is at
  // an end of, or of the video after, a file that still holds one.
  lemma {:induction false} NothingIsLeftBehind(files: seq<File>, pieceLen: int, ops: seq<FileOp>, i: int)
    requires i in FilesApplied(files, pieceLen, ops)
    ensures exists f :: f in Holding(ops) && Served(files, f, pieceLen, i)
  {
    hide Pieces, PiecesOf, BoundarySpans, PrefetchSpans, Served;
    var before, op := ops[..|ops| - 1], ops[|ops| - 1];
    if i in FilesApplied(files, pieceLen, before) {
      NothingIsLeftBehind(files, pieceLen, before, i);
    }
    match op
    case Prime(f, _) => RaisedFor(files, f, pieceLen, i);
    case Prefetch(f, _) => RaisedFor(files, f, pieceLen, i);
    case Demote(demoted, kept) =>
      InPiecesOf(files, demoted, pieceLen, i);
      InPiecesOf(files, kept - demoted, pieceLen, i);
  }

  lemma RaisedFor(files: seq<File>, f: nat, pieceLen: int, i: int)
    ensures f < |files| && i in Pieces(BoundarySpans(files[f].begin, files[f].end, pieceLen)) ==>
      Served(files, f, pieceLen, i)
    ensures var n := NextVideo(files, f);
      n >= 0 && i in Pieces(PrefetchSpans(files[n].begin, files[n].end)) ==> Served(files, f, pieceLen, i)
  {
    hide Pieces, BoundarySpans, PrefetchSpans;
  }

  // So demoting every file that holds one resets every piece.
  lemma DemotingAllResetsAll(files: seq<File>, pieceLen: int, ops: seq<FileOp>)
    ensures FilesApplied(files, pieceLen, ops + [Demote(Holding(ops), {})]) == map[]
  {
    hide Served;
    var all := ops + [Demote(Holding(ops), {})];
    assert all[..|all| - 1] == ops;
    assert Holding(all) == Holding(ops) + {} - Holding(ops) == {};
    forall i | i in FilesApplied(files, pieceLen, all)
      ensures false
    {
      NothingIsLeftBehind(files, pieceLen, all, i);
    }
  }

  // --------------------------------------------------------------------- runs

  datatype Op = Raise(spans: seq<Span>, prio: Priority) | Release(pieces: set<int>)

  function Applied(bprio: map<int, Priority>, op: Op): map<int, Priority> {
    match op
    case Raise(spans, prio) => Raised(bprio, Pieces(spans), prio)
    case Release(pieces) => bprio - pieces
  }

  function AppliedAll(ops: seq<Op>): map<int, Priority> {
    if ops == [] then map[] else Applied(AppliedAll(ops[..|ops| - 1]), ops[|ops| - 1])
  }

  // What piece i should be at: the highest priority it was raised to since it was
  // last released.
  function Wanted(ops: seq<Op>, i: int): Priority {
    if ops == [] then 0
    else
      var before := Wanted(ops[..|ops| - 1], i);
      match ops[|ops| - 1]
      case Raise(spans, prio) => if i in Pieces(spans) then Max(before, prio) else before
      case Release(pieces) => if i in pieces then 0 else before
  }

  // After any sequence of raises and releases every piece is at the highest
  // priority asked for since its last release; no raise lowers a piece.
  lemma {:induction false} PrioritiesAreHighestWanted(ops: seq<Op>, i: int)
    ensures Of(AppliedAll(ops), i) == Wanted(ops, i)
    ensures ops != [] && ops[|ops| - 1].Raise? ==> Of(AppliedAll(ops[..|ops| - 1]), i) <= Of(AppliedAll(ops), i)
  {
    hide Pieces;
    if ops != [] {
      PrioritiesAreHighestWanted(ops[..|ops| - 1], i);
    }
  }
}
