// The index of cached HLS segments of one session (internal/media/segindex.go).
module SegIndex {
  import opened Collections
  import opened Recency
  import opened Sums
  import opened Wrappers
  import HlsNames
  import HlsTimeline

  // segServeGrace, in nanoseconds.
  const GRACE := 30_000_000_000

  datatype Entry = Entry(size: nat, last: int)

  // A directory entry: its size is None when it cannot be read.
  datatype DirEntry = DirEntry(name: Key, isDir: bool, size: Option<nat>, mtime: int)

  datatype Index = Index(loaded: bool, files: map<Key, Entry>, total: int)

  ghost function Sizes(files: map<Key, Entry>): (r: map<Key, nat>)
    ensures r.Keys == files.Keys && forall k :: k in r ==> r[k] == files[k].size
  {
    map k | k in files :: files[k].size
  }

  function Lasts(files: map<Key, Entry>): (r: map<Key, int>)
    ensures r.Keys == files.Keys && forall k :: k in r ==> r[k] == files[k].last
  {
    map k | k in files :: files[k].last
  }

  ghost function Bytes(files: map<Key, Entry>): nat {
    Sum(Sizes(files), files.Keys)
  }

  lemma BytesWith(files: map<Key, Entry>, name: Key, e: Entry)
    ensures Bytes(files[name := e]) == Bytes(files) - (if name in files then files[name].size else 0) + e.size
  {
    var r := files[name := e];
    var others := files.Keys - {name};
    SumSame(Sizes(files), Sizes(r), others);
    SumWithout(Sizes(r), r.Keys, name);
    assert r.Keys - {name} == others;
    if name in files {
      SumWithout(Sizes(files), files.Keys, name);
    } else {
      assert others == files.Keys;
    }
  }

  lemma BytesWithout(files: map<Key, Entry>, name: Key)
    requires name in files
    ensures Bytes(files - {name}) == Bytes(files) - files[name].size
  {
    var r := files - {name};
    SumWithout(Sizes(files), files.Keys, name);
    SumSame(Sizes(files), Sizes(r), r.Keys);
    assert r.Keys == files.Keys - {name};
  }

  // -------------------------------------------------------------------- names

  predicate Contains(s: string, part: string) {
    exists i :: 0 <= i <= |s| && part <= s[i..]
  }

  predicate IsCachedSegName(name: string) {
    && HlsNames.HasSuffix(name, ".ts") && !Contains(name, ".tmp")
    && ("seg" <= name || ("a" <= name && Contains(name, "seg")))
  }

  // Every segment the playlists list is counted once it is on disk.
  lemma ListedVideoIsCached(i: nat)
    ensures IsCachedSegName(HlsTimeline.Uri("", i))
  {
    hide HlsTimeline.Digits;
    var stem := "seg" + HlsTimeline.Digits(i);
    NoTmp(stem);
    assert HlsTimeline.Uri("", i) == stem + ".ts";
  }

  lemma ListedAudioIsCached(k: nat, i: nat)
    ensures IsCachedSegName(HlsTimeline.Uri("a" + HlsTimeline.Digits(k), i))
  {
    hide HlsTimeline.Digits, Contains, HlsNames.HasSuffix;
    var n, m := HlsTimeline.Digits(k), HlsTimeline.Digits(i);
    var stem := "a" + n + "seg" + m;
    NoTmp(stem);
    assert HlsTimeline.Uri("a" + n, i) == stem + ".ts";
    HasSeg("a" + n, m + ".ts");
    assert stem + ".ts" == "a" + n + "seg" + (m + ".ts");
  }

  lemma HasSeg(head: string, tail: string)
    ensures Contains(head + "seg" + tail, "seg")
  {
    assert (head + "seg" + tail)[|head|..] == "seg" + tail;
  }

  // What is counted: exactly the finished files whose name HLSFile takes for a
  // segment's. So no playlist, no subtitle, and nothing of another name.
  lemma CountedMeansSegment(name: string, x: HlsNames.Session)
    ensures IsCachedSegName(name) <==>
      HlsNames.MeansSegment(HlsNames.Dispatch(name, x)) && !Contains(name, ".tmp")
  {
    hide HlsNames.Dispatch, HlsNames.MeansSegment, HlsNames.HasSuffix;
    HlsNames.WhichNamesMeanSegments(name, x);
    if "a" <= name {
      assert name[0..] == name && name[0] == 'a';
    }
  }

  // And no work file, whatever comes before and after.
  lemma WorkFilesDoNotCount(head: string, tail: string)
    ensures !IsCachedSegName(head + ".tmp" + tail)
  {
    assert (head + ".tmp" + tail)[|head|..] == ".tmp" + tail;
  }

  // Names without a dot before the suffix hold no ".tmp".
  lemma NoTmp(stem: string)
    requires forall c :: c in stem ==> c != '.'
    ensures HlsNames.HasSuffix(stem + ".ts", ".ts") && !Contains(stem + ".ts", ".tmp")
  {
    var name := stem + ".ts";
    forall i | 0 <= i <= |name|
      ensures !(".tmp" <= name[i..])
    {
      if i < |stem| {
        assert name[i..][0] == stem[i] && stem[i] in stem;
      }
    }
  }

  // --------------------------------------------------------------- accounting

  ghost predicate Inv(ix: Index) {
    if ix.loaded then ix.total == Bytes(ix.files) else ix.files == map[] && ix.total == 0
  }

  // What loadLocked takes from a directory whose names are distinct.
  predicate Counts(e: DirEntry) {
    !e.isDir && IsCachedSegName(e.name) && e.size.Some? && e.size.value > 0
  }

  function Scanned(dir: seq<DirEntry>): map<Key, Entry> {
    if dir == [] then map[]
    else
      var e := dir[|dir| - 1];
      var rest := Scanned(dir[..|dir| - 1]);
      if Counts(e) then rest[e.name := Entry(e.size.value, e.mtime)] else rest
  }

  predicate DistinctNames(dir: seq<DirEntry>) {
    forall i, j :: 0 <= i < j < |dir| ==> dir[i].name != dir[j].name
  }

  lemma {:induction false} ScannedNames(dir: seq<DirEntry>)
    ensures forall name :: name in Scanned(dir) ==> exists i :: 0 <= i < |dir| && dir[i].name == name
  {
    hide Counts;
    if dir != [] {
      var rest := dir[..|dir| - 1];
      ScannedNames(rest);
      forall name | name in Scanned(dir)
        ensures exists i :: 0 <= i < |dir| && dir[i].name == name
      {
        if name in Scanned(rest) {
          var i :| 0 <= i < |rest| && rest[i].name == name;
          assert dir[i].name == name;
        }
      }
    }
  }

  // The index of a directory holds exactly the counted files, each with its size
  // and time.
  lemma {:induction false} ScannedIsCounted(dir: seq<DirEntry>, name: Key)
    requires DistinctNames(dir)
    ensures name in Scanned(dir) <==> exists i :: 0 <= i < |dir| && dir[i].name == name && Counts(dir[i])
    ensures forall i :: 0 <= i < |dir| && Counts(dir[i]) ==>
      && dir[i].name in Scanned(dir) && dir[i].size.Some?
      && Scanned(dir)[dir[i].name] == Entry(dir[i].size.value, dir[i].mtime)
  {
    hide IsCachedSegName;
    if dir != [] {
      var rest := dir[..|dir| - 1];
      ScannedIsCounted(rest, name);
      forall i | 0 <= i < |rest|
        ensures rest[i] == dir[i]
      {
      }
    }
  }

  // ----------------------------------------------------------------- eviction

  // What the eviction loop may try: not the segment kept, and none used within
  // the grace window.
  function Candidates(files: map<Key, Entry>, keep: Key, now: int): (r: set<Key>)
    ensures r <= files.Keys
  {
    set k | k in files && k != keep && now - files[k].last >= GRACE
  }

  // The loop over the candidates ks; free are those whose lock can be taken and
  // removable those whose file can be removed.
  function Left(files: map<Key, Entry>, total: int, ks: seq<Key>, limit: int, free: set<Key>,
                removable: set<Key>): (map<Key, Entry>, int)
    requires SetOf(ks) <= files.Keys && Distinct(ks)
  {
    if ks == [] || total <= limit then (files, total)
    else if ks[0] in free && ks[0] in removable then
      assert ks[0] !in ks[1..];
      Left(files - {ks[0]}, total - files[ks[0]].size, ks[1..], limit, free, removable)
    else Left(files, total, ks[1..], limit, free, removable)
  }

  lemma TailOf(ks: seq<Key>)
    requires ks != [] && Distinct(ks)
    ensures Distinct(ks[1..]) && ks[0] !in ks[1..] && SetOf(ks[1..]) <= SetOf(ks)
    ensures forall k :: k in ks <==> k == ks[0] || k in ks[1..]
  {
  }

  // The total stays the sum, and afterwards it is within the limit or every
  // candidate still there is locked or cannot be removed.
  lemma {:induction false} LeftAccounts(files: map<Key, Entry>, ks: seq<Key>, limit: int, free: set<Key>,
                                        removable: set<Key>)
    requires SetOf(ks) <= files.Keys && Distinct(ks)
    ensures var (left, total) := Left(files, Bytes(files), ks, limit, free, removable);
      && total == Bytes(left)
      && (total <= limit || forall k :: k in ks && k in left ==> k !in free || k !in removable)
  {
    hide Distinct;
    if ks != [] && Bytes(files) > limit {
      var rest := ks[1..];
      TailOf(ks);
      if ks[0] in free && ks[0] in removable {
        BytesWithout(files, ks[0]);
        LeftAccounts(files - {ks[0]}, rest, limit, free, removable);
        LeftIsPart(files - {ks[0]}, Bytes(files - {ks[0]}), rest, limit, free, removable);
      } else {
        LeftAccounts(files, rest, limit, free, removable);
      }
    }
  }

  // Only candidates that are free and removable go; the others are untouched.
  lemma {:induction false} LeftIsPart(files: map<Key, Entry>, total: int, ks: seq<Key>, limit: int, free: set<Key>,
                                      removable: set<Key>)
    requires SetOf(ks) <= files.Keys && Distinct(ks)
    ensures var left := Left(files, total, ks, limit, free, removable).0;
      && left.Keys <= files.Keys && (forall k :: k in left ==> left[k] == files[k])
      && forall k :: k in files && k !in left ==> k in ks && k in free && k in removable
  {
    hide Distinct;
    if ks != [] && total > limit {
      var rest := ks[1..];
      TailOf(ks);
      if ks[0] in free && ks[0] in removable {
        LeftIsPart(files - {ks[0]}, total - files[ks[0]].size, rest, limit, free, removable);
      } else {
        LeftIsPart(files, total, rest, limit, free, removable);
      }
    }
  }

  // A segment goes only after every removable candidate before it.
  lemma {:induction false} LeftInOrder(files: map<Key, Entry>, total: int, ks: seq<Key>, limit: int, free: set<Key>,
                                       removable: set<Key>, i: nat, j: nat)
    requires SetOf(ks) <= files.Keys && Distinct(ks) && i < j < |ks|
    requires ks[i] in free && ks[i] in removable && ks[j] !in Left(files, total, ks, limit, free, removable).0
    ensures ks[i] !in Left(files, total, ks, limit, free, removable).0
  {
    var rest := ks[1..];
    TailOf(ks);
    assert ks[j] == rest[j - 1] && ks[j] != ks[0];
    if total > limit {
      var gone := ks[0] in free && ks[0] in removable;
      var left, after := if gone then files - {ks[0]} else files, if gone then total - files[ks[0]].size else total;
      if i == 0 {
        LeftIsPart(left, after, rest, limit, free, removable);
      } else {
        assert ks[i] == rest[i - 1];
        LeftInOrder(left, after, rest, limit, free, removable, i - 1, j - 1);
      }
    }
  }

  // The last segment to go went while the total was over the limit: without its
  // removal the limit would not have been met.
  lemma {:induction false} NoneTooMany(files: map<Key, Entry>, total: int, ks: seq<Key>, limit: int, free: set<Key>,
                                       removable: set<Key>)
    requires SetOf(ks) <= files.Keys && Distinct(ks)
    ensures var (left, after) := Left(files, total, ks, limit, free, removable);
      left == files || exists k :: k in files && k !in left && after + files[k].size > limit
  {
    hide Distinct, SetOf;
    if ks != [] && total > limit {
      var rest := ks[1..];
      TailOf(ks);
      if ks[0] in free && ks[0] in removable {
        var next, less := files - {ks[0]}, total - files[ks[0]].size;
        NoneTooMany(next, less, rest, limit, free, removable);
        LeftIsPart(next, less, rest, limit, free, removable);
        var (left, after) := Left(next, less, rest, limit, free, removable);
        if left == next {
          LeftUnchanged(next, less, rest, limit, free, removable);
          assert ks[0] in files && ks[0] !in left;
        } else {
          var k :| k in next && k !in left && after + next[k].size > limit;
          assert k in files && files[k] == next[k];
        }
      } else {
        NoneTooMany(files, total, rest, limit, free, removable);
      }
    }
  }

  lemma {:induction false} LeftUnchanged(files: map<Key, Entry>, total: int, ks: seq<Key>, limit: int, free: set<Key>,
                                         removable: set<Key>)
    requires SetOf(ks) <= files.Keys && Distinct(ks)
    ensures var (left, after) := Left(files, total, ks, limit, free, removable); left == files ==> after == total
  {
    hide Distinct;
    if ks != [] && total > limit {
      var rest := ks[1..];
      TailOf(ks);
      if ks[0] in free && ks[0] in removable {
        LeftIsPart(files - {ks[0]}, total - files[ks[0]].size, rest, limit, free, removable);
      } else {
        LeftUnchanged(files, total, rest, limit, free, removable);
      }
    }
  }

  // What evictSegments leaves of an index: the total is the sum of what is
  // tracked, and within the limit unless all that is left is the kept segment, in
  // its grace window, locked or not removable; what went was none of these.
  lemma EvictionIsFair(files: map<Key, Entry>, order: seq<Key>, limit: int, keep: Key, now: int, free: set<Key>,
                       removable: set<Key>)
    requires SetOf(order) == Candidates(files, keep, now) && Distinct(order)
    ensures var (left, total) := Left(files, Bytes(files), order, limit, free, removable);
      && total == Bytes(left)
      && (total <= limit || forall k :: k in left ==>
          k == keep || now - left[k].last < GRACE || k !in free || k !in removable)
      && (forall k :: k in files && k !in left ==>
           k != keep && now - files[k].last >= GRACE && k in free && k in removable)
  {
    hide Left;
    LeftAccounts(files, order, limit, free, removable);
    LeftIsPart(files, Bytes(files), order, limit, free, removable);
    var left := Left(files, Bytes(files), order, limit, free, removable).0;
    forall k | k in left
      ensures k in order <==> k != keep && now - left[k].last >= GRACE
    {
      assert k in order <==> k in SetOf(order);
    }
  }

  // Segments go in the order of last use: one that could have gone stays only if
  // it was used no earlier than every one that went.
  lemma OldestGoFirst(files: map<Key, Entry>, order: seq<Key>, limit: int, keep: Key, now: int, free: set<Key>,
                      removable: set<Key>, stays: Key, goes: Key)
    requires SetOf(order) == Candidates(files, keep, now) && Distinct(order) && Sorted(order, Lasts(files))
    requires var left := Left(files, Bytes(files), order, limit, free, removable).0;
      stays in left && goes in files && goes !in left
    requires stays in Candidates(files, keep, now) && stays in free && stays in removable
    ensures files[goes].last <= files[stays].last
  {
    hide Left, Candidates, Sorted;
    LeftIsPart(files, Bytes(files), order, limit, free, removable);
    assert stays in order && goes in order;
    var i :| 0 <= i < |order| && order[i] == stays;
    var j :| 0 <= j < |order| && order[j] == goes;
    if i < j {
      LeftInOrder(files, Bytes(files), order, limit, free, removable, i, j);
    }
    InPlaces(files, order, j, i);
  }

  lemma InPlaces(files: map<Key, Entry>, order: seq<Key>, i: nat, j: nat)
    requires SetOf(order) <= files.Keys && Sorted(order, Lasts(files)) && i <= j < |order|
    ensures order[i] in files && order[j] in files && files[order[i]].last <= files[order[j]].last
  {
    assert order[i] in SetOf(order) && order[j] in SetOf(order);
  }

  // ----------------------------------------------------- the code, in place

  class SegmentIndex {
    var loaded: bool
    var files: map<Key, Entry>
    var total: int

    constructor ()
      ensures View() == Index(false, map[], 0)
    {
      loaded, files, total := false, map[], 0;
    }

    function View(): Index
      reads this
    {
      Index(loaded, files, total)
    }

    // loadLocked; dir is what ReadDir finds, empty when it fails.
    method LoadLocked(dir: seq<DirEntry>)
      requires Inv(View()) && DistinctNames(dir)
      modifies this
      ensures loaded && Inv(View())
      ensures files == if old(loaded) then old(files) else Scanned(dir)
    {
      hide Counts;
      if loaded {
        return;
      }
      Nothing();
      loaded := true;
      files := map[];
      for n := 0 to |dir|
        invariant loaded && files == Scanned(dir[..n]) && total == Bytes(files)
      {
        var e := dir[n];
        assert dir[..n + 1][..n] == dir[..n];
        ScannedNames(dir[..n]);
        if Counts(e) {
          SizeOf(e);
          BytesWith(files, e.name, Entry(e.size.value, e.mtime));
          files := files[e.name := Entry(e.size.value, e.mtime)];
          total := total + e.size.value;
        }
      }
      assert dir[..|dir|] == dir;
    }

    method NoteSegment(filename: Key, size: nat, now: int, dir: seq<DirEntry>)
      requires Inv(View()) && DistinctNames(dir)
      modifies this
      ensures Inv(View()) && loaded
      ensures files == (if old(loaded) then old(files) else Scanned(dir))[filename := Entry(size, now)]
    {
      LoadLocked(dir);
      BytesWith(files, filename, Entry(size, now));
      total := total + size - (if filename in files then files[filename].size else 0);
      files := files[filename := Entry(size, now)];
    }

    // evictSegments; order is the candidate list the loop goes through.
    method EvictSegments(limit: int, keep: Key, now: int, dir: seq<DirEntry>, free: set<Key>, removable: set<Key>)
      returns (order: seq<Key>)
      requires Inv(View()) && DistinctNames(dir)
      modifies this
      ensures Inv(View())
      ensures limit <= 0 ==> View() == old(View())
      ensures limit > 0 ==>
        var before := if old(loaded) then old(files) else Scanned(dir);
        && loaded && SetOf(order) == Candidates(before, keep, now) && Distinct(order) && Sorted(order, Lasts(before))
        && (files, total) == Left(before, Bytes(before), order, limit, free, removable)
    {
      order := [];
      if limit <= 0 {
        return;
      }
      LoadLocked(dir);
      ghost var before := files;
      order := Ordered(files, keep, now);
      LeftAccounts(files, order, limit, free, removable);
      if total <= limit {
        return;
      }
      RemoveLoop(order, limit, free, removable);
    }

    method RemoveLoop(cands: seq<Key>, limit: int, free: set<Key>, removable: set<Key>)
      requires SetOf(cands) <= files.Keys && Distinct(cands)
      modifies this
      ensures loaded == old(loaded)
      ensures (files, total) == Left(old(files), old(total), cands, limit, free, removable)
    {
      for n := 0 to |cands|
        invariant loaded == old(loaded)
        invariant SetOf(cands[n..]) <= files.Keys && Distinct(cands[n..])
        invariant Left(old(files), old(total), cands, limit, free, removable)
               == Left(files, total, cands[n..], limit, free, removable)
      {
        if total <= limit {
          return;
        }
        var name := cands[n];
        assert name == cands[n..][0] && cands[n..][1..] == cands[n + 1..] && name !in cands[n + 1..];
        if name !in free {
          continue;
        }
        if name in removable {
          total := total - files[name].size;
          files := files - {name};
        }
      }
    }
  }

  lemma Nothing()
    ensures Bytes(map[]) == 0
  {
  }

  lemma SizeOf(e: DirEntry)
    requires Counts(e)
    ensures e.size.Some?
  {
  }

  // The candidates, sorted by last use.
  method Ordered(files: map<Key, Entry>, keep: Key, now: int) returns (order: seq<Key>)
    ensures SetOf(order) == Candidates(files, keep, now) && Distinct(order) && Sorted(order, Lasts(files))
  {
    var cands: seq<Key> := [];
    var todo := files.Keys;
    while todo != {}
      invariant todo <= files.Keys
      invariant Distinct(cands) && SetOf(cands) == Candidates(files, keep, now) - todo
    {
      var k :| k in todo;
      if k != keep && now - files[k].last >= GRACE {
        InsertDistinct(cands, |cands|, k);
        assert cands[..|cands|] + [k] + cands[|cands|..] == cands + [k];
        cands := cands + [k];
      }
      todo := todo - {k};
    }
    order := SortByLast(Lasts(files), cands);
  }
}
