// How HLSFile (internal/media/hls.go) reads a requested file name, after
// filepath.Base: the inverse of the URIs that writePlaylist prints.
module HlsNames {
  import opened Wrappers
  import opened HlsTimeline

  const MAX_INT := 0x7fff_ffff_ffff_ffff

  datatype Kind = Muxed | VideoOnly | AudioOnly

  datatype Refusal = OutsideDir | NotMultiAudio | BadAudioPlaylist | BadSubPlaylist | BadSubTrack
    | BadSegment | BeyondDuration | BadSegmentName | BadAudioSegment | BadAudioNumber | NotFound

  datatype Request =
    | Playlist
    | VideoPlaylist
    | AudioPlaylist(k: nat)
    | SubPlaylist(k: nat)
    | SubTrack(k: nat)
    | Segment(kind: Kind, k: nat, n: nat)
    | Refused(why: Refusal)

  // What HLSFile reads from the session; an unknown duration is 0.
  datatype Session = Session(multiAudio: bool, audio: nat, subtitles: nat, duration: real)

  // ----------------------------------------------------------------- strings

  predicate HasSuffix(s: string, suffix: string) {
    |suffix| <= |s| && s[|s| - |suffix|..] == suffix
  }

  function TrimPrefix(s: string, prefix: string): string {
    if prefix <= s then s[|prefix|..] else s
  }

  function TrimSuffix(s: string, suffix: string): string {
    if HasSuffix(s, suffix) then s[..|s| - |suffix|] else s
  }

  // strings.Index(s, part).
  function Index(s: string, part: string): (r: Option<nat>)
    ensures r.Some? ==> r.value + |part| <= |s| && s[r.value..r.value + |part|] == part
    ensures r.Some? ==> forall j :: 0 <= j < r.value ==> !(part <= s[j..])
    ensures r.None? ==> forall j :: 0 <= j <= |s| ==> !(part <= s[j..])
  {
    if part <= s then Some(0)
    else if s == [] then None
    else
      var r := Index(s[1..], part);
      assert forall j :: 1 <= j <= |s| ==> s[j..] == s[1..][j - 1..];
      if r.Some? then Some(r.value + 1) else None
  }

  function Value(s: string): int {
    if s == [] then 0 else Value(s[..|s| - 1]) * 10 + (s[|s| - 1] as int - '0' as int)
  }

  predicate AllDigits(s: string) {
    s != [] && forall c :: c in s ==> '0' <= c <= '9'
  }

  // strconv.Atoi with a 64-bit int.
  function Atoi(s: string): Option<int> {
    var signed := s != [] && (s[0] == '-' || s[0] == '+');
    var digits := if signed then s[1..] else s;
    if !AllDigits(digits) then None
    else
      var v := if signed && s[0] == '-' then -Value(digits) else Value(digits);
      if -MAX_INT - 1 <= v <= MAX_INT then Some(v) else None
  }

  // -------------------------------------------------------------- dispatching

  // An index in a name is good if it is in the range given and, when the
  // duration is known, before the end of the media.
  function Track(s: string, limit: nat): Option<nat> {
    var v := Atoi(s);
    if v.None? || v.value < 0 || v.value >= limit then None else Some(v.value)
  }

  function Dispatch(name: string, x: Session): Request {
    if name == "." || name == ".." then Refused(OutsideDir)
    else if name == "playlist.m3u8" then Playlist
    else if name == "video.m3u8" then if x.multiAudio then VideoPlaylist else Refused(NotMultiAudio)
    else if "audio" <= name && HasSuffix(name, ".m3u8") then
      var k := Track(TrimSuffix(TrimPrefix(name, "audio"), ".m3u8"), x.audio);
      if k.Some? then AudioPlaylist(k.value) else Refused(BadAudioPlaylist)
    else if "sub" <= name && HasSuffix(name, ".m3u8") then
      var k := Track(TrimSuffix(TrimPrefix(name, "sub"), ".m3u8"), x.subtitles);
      if k.Some? then SubPlaylist(k.value) else Refused(BadSubPlaylist)
    else if "sub" <= name && HasSuffix(name, ".vtt") then
      var k := Track(TrimSuffix(TrimPrefix(name, "sub"), ".vtt"), x.subtitles);
      if k.Some? then SubTrack(k.value) else Refused(BadSubTrack)
    else if "seg" <= name && HasSuffix(name, ".ts") then
      var n := Track(TrimSuffix(TrimPrefix(name, "seg"), ".ts"), MAX_INDEX + 1);
      if n.None? then Refused(BadSegment)
      else if x.duration > 0.0 && n.value >= Count(x.duration) then Refused(BeyondDuration)
      else Segment(if x.multiAudio then VideoOnly else Muxed, 0, n.value)
    else if "a" <= name && HasSuffix(name, ".ts") then
      AudioSegment(TrimSuffix(TrimPrefix(name, "a"), ".ts"), x)
    else Refused(NotFound)
  }

  // rest is <k>seg<n>.
  function AudioSegment(rest: string, x: Session): Request {
    var at := Index(rest, "seg");
    if at.None? then Refused(BadSegmentName)
    else
      var k := Track(rest[..at.value], x.audio);
      if k.None? then Refused(BadAudioSegment)
      else
        var n := Track(rest[at.value + 3..], MAX_INDEX + 1);
        if n.None? then Refused(BadAudioNumber)
        else if x.duration > 0.0 && n.value >= Count(x.duration) then Refused(BeyondDuration)
        else Segment(AudioOnly, k.value, n.value)
  }

  // ------------------------------------------------------------- round trips

  lemma {:induction false} DigitsValue(n: nat)
    ensures Value(Digits(n)) == n && AllDigits(Digits(n))
  {
    if n >= 10 {
      DigitsValue(n / 10);
      var s := Digits(n);
      assert s[..|s| - 1] == Digits(n / 10);
    }
  }

  lemma TrackDigits(n: nat, limit: nat)
    requires limit <= MAX_INT
    ensures Track(Digits(n), limit) == if n < limit then Some(n) else None
  {
    DigitsValue(n);
    assert Digits(n)[0] in Digits(n);
  }

  lemma IndexOfSeg(head: string, tail: string)
    requires forall c :: c in head ==> c != 's'
    ensures Index(head + "seg" + tail, "seg") == Some(|head|)
  {
    var s := head + "seg" + tail;
    assert s[|head|..] == "seg" + tail;
    forall j | 0 <= j < |head|
      ensures !("seg" <= s[j..])
    {
      assert s[j] == head[j] && head[j] in head;
    }
    var r := Index(s, "seg");
    assert r.Some? ==> "seg" <= s[r.value..] by {
      if r.Some? {
        assert s[r.value..] == s[r.value..r.value + 3] + s[r.value + 3..];
      }
    }
  }

  // What Dispatch sees of a segment name.
  lemma TsShape(prefix: string, rest: string)
    requires prefix == "seg" || (prefix == "a" && rest != [] && '0' <= rest[0] <= '9')
    ensures var name := prefix + rest + ".ts";
      && TrimSuffix(TrimPrefix(name, prefix), ".ts") == rest
      && prefix <= name && HasSuffix(name, ".ts") && !HasSuffix(name, ".m3u8") && !HasSuffix(name, ".vtt")
      && (prefix == "a" ==> !("seg" <= name))
      && name != "." && name != ".." && name != "playlist.m3u8" && name != "video.m3u8"
  {
    var name := prefix + rest + ".ts";
    assert name[|name| - 1] == 's';
    assert name[|prefix|..] == rest + ".ts";
    assert name[|name| - 3..] == ".ts";
    assert name[0] == prefix[0];
  }

  // The numbers a name may carry: what is listed of a media of known duration.
  predicate Listable(x: Session, n: nat) {
    if x.duration > 0.0 then n < Count(x.duration) && n <= MAX_INDEX else n <= MAX_INDEX
  }

  lemma VideoNames(x: Session, n: nat)
    ensures Dispatch(Uri("", n), x) ==
      if n > MAX_INDEX then Refused(BadSegment)
      else if Listable(x, n) then Segment(if x.multiAudio then VideoOnly else Muxed, 0, n)
      else Refused(BeyondDuration)
  {
    hide Digits, Track, TrimPrefix, TrimSuffix, HasSuffix, Count, AudioSegment;
    assert Uri("", n) == "seg" + Digits(n) + ".ts";
    TsShape("seg", Digits(n));
    TrackDigits(n, MAX_INDEX + 1);
  }

  lemma AudioNames(x: Session, k: nat, n: nat)
    requires k < x.audio <= MAX_INT
    ensures Dispatch(Uri("a" + Digits(k), n), x) ==
      if n > MAX_INDEX then Refused(BadAudioNumber)
      else if Listable(x, n) then Segment(AudioOnly, k, n)
      else Refused(BeyondDuration)
  {
    hide Digits, Track, TrimPrefix, TrimSuffix, HasSuffix, Count, Index;
    var rest := Digits(k) + "seg" + Digits(n);
    assert Uri("a" + Digits(k), n) == "a" + rest + ".ts";
    assert rest[0] == Digits(k)[0] && Digits(k)[0] in Digits(k);
    TsShape("a", rest);
    IndexOfSeg(Digits(k), Digits(n));
    assert rest[..|Digits(k)|] == Digits(k) && rest[|Digits(k)| + 3..] == Digits(n);
    TrackDigits(k, x.audio);
    TrackDigits(n, MAX_INDEX + 1);
  }

  // Every URI of a written playlist is accepted as its own track and index, and
  // no URI beyond the media is, for every duration up to 2^20 seconds.
  lemma ListedNamesRoundTrip(x: Session, k: nat, n: nat)
    requires 0.0 < x.duration <= 1048576.0 && k < x.audio <= MAX_INT
    ensures Dispatch(Uri("", n), x).Segment? <==> n < Count(x.duration)
    ensures Dispatch(Uri("a" + Digits(k), n), x).Segment? <==> n < Count(x.duration)
    ensures n < Count(x.duration) ==>
      && Dispatch(Uri("", n), x) == Segment(if x.multiAudio then VideoOnly else Muxed, 0, n)
      && Dispatch(Uri("a" + Digits(k), n), x) == Segment(AudioOnly, k, n)
  {
    hide Dispatch, Uri, Digits;
    VideoNames(x, n);
    AudioNames(x, k, n);
  }

  // Whatever the name, a segment is made only for a track and an index that the
  // playlists list: one of the listed URIs means the same.
  lemma AcceptedIsListed(x: Session, name: string)
    requires 0.0 < x.duration <= 1048576.0 && x.audio <= MAX_INT && Dispatch(name, x).Segment?
    ensures var r := Dispatch(name, x);
      && r.n < Count(x.duration)
      && r == Dispatch(Uri(if r.kind.AudioOnly? then "a" + Digits(r.k) else "", r.n), x)
  {
    hide Digits, TrimPrefix, TrimSuffix, HasSuffix, Count, Index, Atoi, Uri;
    var r := Dispatch(name, x);
    AcceptedRange(x, name);
    if r.kind.AudioOnly? {
      ListedNamesRoundTrip(x, r.k, r.n);
    } else {
      VideoNames(x, r.n);
    }
  }

  // ------------------------------------------------------------ other names

  lemma Trimmed(prefix: string, mid: string, suffix: string)
    ensures var name := prefix + mid + suffix;
      TrimSuffix(TrimPrefix(name, prefix), suffix) == mid && prefix <= name && HasSuffix(name, suffix)
  {
    var name := prefix + mid + suffix;
    assert name[|prefix|..] == mid + suffix;
    assert name[|name| - |suffix|..] == suffix;
    assert (mid + suffix)[|mid|..] == suffix && (mid + suffix)[..|mid|] == mid;
  }

  // Names told apart by their first and last letters.
  lemma FirstAndLast(name: string)
    requires name != []
    ensures name[0] in {'a', 's'} ==> name !in {".", "..", "playlist.m3u8", "video.m3u8"}
    ensures name[0] == 's' ==> !("audio" <= name)
    ensures name[|name| - 1] == 't' ==> !HasSuffix(name, ".m3u8")
    ensures name[|name| - 1] == 's' ==> name !in {".", "..", "playlist.m3u8", "video.m3u8"}
  {
  }

  // What Dispatch sees of a playlist or subtitle name with a number.
  lemma NumberedShape(prefix: string, mid: string, suffix: string)
    requires (prefix == "audio" || prefix == "sub") && (suffix == ".m3u8" || suffix == ".vtt")
    ensures var name := prefix + mid + suffix;
      && TrimSuffix(TrimPrefix(name, prefix), suffix) == mid
      && prefix <= name && HasSuffix(name, suffix)
      && (prefix == "sub" ==> !("audio" <= name))
      && (suffix == ".vtt" ==> !HasSuffix(name, ".m3u8"))
      && name !in {".", "..", "playlist.m3u8", "video.m3u8"}
  {
    hide TrimPrefix, TrimSuffix, HasSuffix;
    var name := prefix + mid + suffix;
    Trimmed(prefix, mid, suffix);
    EndsOf(prefix, mid, suffix);
    FirstAndLast(name);
  }

  lemma EndsOf(prefix: string, mid: string, suffix: string)
    requires prefix != [] && suffix != []
    ensures var name := prefix + mid + suffix;
      name != [] && name[0] == prefix[0] && name[|name| - 1] == suffix[|suffix| - 1]
  {
  }

  // The playlists and subtitles of each track are found under its number, and no
  // other number is accepted.
  lemma PlaylistNames(x: Session, k: nat)
    requires x.audio <= MAX_INT && x.subtitles <= MAX_INT
    ensures Dispatch("playlist.m3u8", x) == Playlist
    ensures Dispatch("video.m3u8", x) == if x.multiAudio then VideoPlaylist else Refused(NotMultiAudio)
    ensures Dispatch("audio" + Digits(k) + ".m3u8", x) ==
      if k < x.audio then AudioPlaylist(k) else Refused(BadAudioPlaylist)
    ensures Dispatch("sub" + Digits(k) + ".m3u8", x) ==
      if k < x.subtitles then SubPlaylist(k) else Refused(BadSubPlaylist)
    ensures Dispatch("sub" + Digits(k) + ".vtt", x) ==
      if k < x.subtitles then SubTrack(k) else Refused(BadSubTrack)
  {
    hide Digits, Track, TrimPrefix, TrimSuffix, HasSuffix, Count, AudioSegment;
    NumberedShape("audio", Digits(k), ".m3u8");
    NumberedShape("sub", Digits(k), ".m3u8");
    NumberedShape("sub", Digits(k), ".vtt");
    TrackDigits(k, x.audio);
    TrackDigits(k, x.subtitles);
  }

  // And whatever name is accepted as one of these, that name means the same.
  lemma AcceptedPlaylists(x: Session, name: string)
    requires x.audio <= MAX_INT && x.subtitles <= MAX_INT
    ensures match Dispatch(name, x)
      case Playlist => name == "playlist.m3u8"
      case VideoPlaylist => name == "video.m3u8"
      case AudioPlaylist(k) => Dispatch(name, x) == Dispatch("audio" + Digits(k) + ".m3u8", x)
      case SubPlaylist(k) => Dispatch(name, x) == Dispatch("sub" + Digits(k) + ".m3u8", x)
      case SubTrack(k) => Dispatch(name, x) == Dispatch("sub" + Digits(k) + ".vtt", x)
      case _ => true
  {
    hide Digits, Atoi, TrimPrefix, TrimSuffix, HasSuffix, Count, Index, Dispatch;
    PlaylistRange(x, name);
    match Dispatch(name, x)
    case AudioPlaylist(k) => PlaylistNames(x, k);
    case SubPlaylist(k) => PlaylistNames(x, k);
    case SubTrack(k) => PlaylistNames(x, k);
    case _ =>
  }

  lemma PlaylistRange(x: Session, name: string)
    ensures match Dispatch(name, x)
      case Playlist => name == "playlist.m3u8"
      case VideoPlaylist => name == "video.m3u8"
      case AudioPlaylist(k) => k < x.audio
      case SubPlaylist(k) => k < x.subtitles
      case SubTrack(k) => k < x.subtitles
      case _ => true
  {
    hide Digits, TrimPrefix, TrimSuffix, HasSuffix, Count, Index, Atoi;
  }

  // ------------------------------------------------------- names of segments

  // Dispatch takes the name for one of a segment, whether or not it accepts it.
  predicate MeansSegment(r: Request) {
    r.Segment? || (r.Refused? && r.why in {BadSegment, BeyondDuration, BadAudioSegment, BadAudioNumber})
  }

  lemma SuffixesDiffer(name: string)
    ensures HasSuffix(name, ".ts") ==> !HasSuffix(name, ".m3u8") && !HasSuffix(name, ".vtt")
    ensures HasSuffix(name, ".ts") ==> name != [] && name[|name| - 1] == 's'
  {
    LastOf(name, ".ts");
    LastOf(name, ".m3u8");
    LastOf(name, ".vtt");
  }

  lemma LastOf(name: string, suffix: string)
    requires suffix != []
    ensures HasSuffix(name, suffix) ==> name != [] && name[|name| - 1] == suffix[|suffix| - 1]
  {
    if HasSuffix(name, suffix) {
      assert name[|name| - |suffix|..][|suffix| - 1] == name[|name| - 1];
    }
  }

  // A name means a segment exactly if it ends in .ts and starts with seg, or with
  // a and has seg after that.
  lemma WhichNamesMeanSegments(name: string, x: Session)
    ensures MeansSegment(Dispatch(name, x)) <==>
      && HasSuffix(name, ".ts")
      && ("seg" <= name || ("a" <= name && exists i :: 0 < i <= |name| && "seg" <= name[i..]))
  {
    hide Digits, Atoi, Count, Index, Track, HasSuffix;
    SuffixesDiffer(name);
    if HasSuffix(name, ".ts") {
      FirstAndLast(name);
    }
    if HasSuffix(name, ".ts") && !("seg" <= name) && "a" <= name {
      SegInRest(name);
      AudioMeans(TrimSuffix(TrimPrefix(name, "a"), ".ts"), x);
    }
  }

  lemma AudioMeans(rest: string, x: Session)
    ensures MeansSegment(AudioSegment(rest, x)) <==> exists j :: 0 <= j <= |rest| && "seg" <= rest[j..]
  {
    hide Digits, Atoi, Count, Track;
    var at := Index(rest, "seg");
    if at.Some? {
      assert rest[at.value..] == rest[at.value..at.value + 3] + rest[at.value + 3..];
    }
  }

  predicate HasSeg(s: string, from: nat) {
    exists i :: from <= i && i + 3 <= |s| && s[i] == 's' && s[i + 1] == 'e' && s[i + 2] == 'g'
  }

  lemma SegAt(s: string, i: nat)
    requires i <= |s|
    ensures "seg" <= s[i..] <==> i + 3 <= |s| && s[i] == 's' && s[i + 1] == 'e' && s[i + 2] == 'g'
  {
  }

  lemma HasSegIs(s: string, from: nat)
    ensures HasSeg(s, from) <==> exists i :: from <= i <= |s| && "seg" <= s[i..]
  {
    if i :| from <= i <= |s| && "seg" <= s[i..] {
      SegAt(s, i);
    }
    if HasSeg(s, from) {
      var i :| from <= i && i + 3 <= |s| && s[i] == 's' && s[i + 1] == 'e' && s[i + 2] == 'g';
      SegAt(s, i);
    }
  }

  // Between its first letter and its suffix, or not at all.
  lemma SegInRest(name: string)
    requires HasSuffix(name, ".ts") && "a" <= name
    ensures var rest := TrimSuffix(TrimPrefix(name, "a"), ".ts");
      (exists i :: 0 < i <= |name| && "seg" <= name[i..]) <==> exists j :: 0 <= j <= |rest| && "seg" <= rest[j..]
  {
    hide HasSuffix, TrimPrefix, TrimSuffix;
    var rest := RestOf(name);
    HasSegIs(name, 1);
    HasSegIs(rest, 0);
    SegMoves(name, rest);
  }

  lemma SegMoves(name: string, rest: string)
    requires |name| == |rest| + 4 && (forall i :: 0 <= i < |rest| ==> name[i + 1] == rest[i])
    requires name[|name| - 3] == '.' && name[|name| - 2] == 't' && name[|name| - 1] == 's'
    ensures HasSeg(name, 1) <==> HasSeg(rest, 0)
  {
    if HasSeg(name, 1) {
      var i :| 1 <= i && i + 3 <= |name| && name[i] == 's' && name[i + 1] == 'e' && name[i + 2] == 'g';
      assert rest[i - 1] == 's' && rest[i] == 'e' && rest[i + 1] == 'g';
    }
    if HasSeg(rest, 0) {
      var j :| 0 <= j && j + 3 <= |rest| && rest[j] == 's' && rest[j + 1] == 'e' && rest[j + 2] == 'g';
      assert name[j + 1] == 's' && name[j + 1 + 1] == 'e' && name[j + 1 + 2] == 'g';
    }
  }

  lemma RestOf(name: string) returns (rest: string)
    requires HasSuffix(name, ".ts") && "a" <= name
    ensures rest == TrimSuffix(TrimPrefix(name, "a"), ".ts") && |name| == |rest| + 4
    ensures forall i :: 0 <= i < |rest| ==> name[i + 1] == rest[i]
    ensures name[|name| - 3] == '.' && name[|name| - 2] == 't' && name[|name| - 1] == 's'
  {
    var tail := name[|name| - 3..];
    assert tail == ".ts" && tail[0] == '.' && tail[1] == 't' && tail[2] == 's';
    assert |name| > 3;
    rest := name[1..|name| - 3];
    assert name[1..][|name[1..]| - 3..] == tail;
  }

  lemma AcceptedRange(x: Session, name: string)
    requires 0.0 < x.duration && Dispatch(name, x).Segment?
    ensures var r := Dispatch(name, x);
      && r.n < Count(x.duration) && r.n <= MAX_INDEX
      && (if r.kind.AudioOnly? then r.k < x.audio else r.k == 0 && r.kind == if x.multiAudio then VideoOnly else Muxed)
  {
    hide Digits, TrimPrefix, TrimSuffix, HasSuffix, Count, Index, Atoi;
  }
}
