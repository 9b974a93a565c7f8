// The segment timeline of internal/media/hls.go: the playlist writer, the name
// dispatch of HLSFile and the interval that transcodeSegment encodes. Durations
// are exact: the float64 operations involved do not round.
module HlsTimeline {
  import opened Wrappers

  const SEGMENT := 4.0
  const MAX_INDEX := 262144
  const TARGET_DURATION := 5

  function Ceil(x: real): (n: int)
    ensures n as real - 1.0 < x <= n as real
  {
    -((-x).Floor)
  }

  // How many segments a media duration has.
  function Count(duration: real): (n: nat)
    ensures duration > 0.0 ==> n > 0 && (n as real - 1.0) * SEGMENT < duration <= n as real * SEGMENT
    ensures 0.0 < duration <= 1048576.0 ==> n <= MAX_INDEX
  {
    if duration > 0.0 then Ceil(duration / SEGMENT) else 0
  }

  // ------------------------------------------------------------ the playlist

  // One EXTINF with its URI.
  datatype Entry = Entry(length: real, uri: string)

  // The duration the playlist gives segment i.
  function Listed(duration: real, i: nat): real {
    var rem := duration - i as real * SEGMENT;
    if i + 1 == Count(duration) && rem > 0.0 then rem else SEGMENT
  }

  function Digits(n: nat): (s: string)
    ensures s != [] && forall c :: c in s ==> '0' <= c <= '9'
  {
    if n < 10 then [('0' as int + n) as char] else Digits(n / 10) + [('0' as int + n % 10) as char]
  }

  function Uri(prefix: string, i: nat): string {
    prefix + "seg" + Digits(i) + ".ts"
  }

  function Entries(duration: real, prefix: string, n: nat): (r: seq<Entry>)
    ensures |r| == n && forall i :: 0 <= i < n ==> r[i] == Entry(Listed(duration, i), Uri(prefix, i))
  {
    if n == 0 then [] else Entries(duration, prefix, n - 1) + [Entry(Listed(duration, n - 1), Uri(prefix, n - 1))]
  }

  // writePlaylist, without the file.
  method WritePlaylist(duration: real, prefix: string) returns (r: Option<seq<Entry>>)
    ensures r.None? <==> duration <= 0.0
    ensures r.Some? ==> r.value == Entries(duration, prefix, Count(duration))
  {
    var n := 0;
    if duration > 0.0 {
      n := Ceil(duration / SEGMENT);
    }
    if n == 0 {
      return None;
    }
    var b: seq<Entry> := [];
    for i := 0 to n
      invariant b == Entries(duration, prefix, i)
    {
      var d := SEGMENT;
      if i == n - 1 {
        var rem := duration - i as real * SEGMENT;
        if rem > 0.0 {
          d := rem;
        }
      }
      b := b + [Entry(d, Uri(prefix, i))];
    }
    r := Some(b);
  }

  // ------------------------------------------------------------ the timeline

  // What transcodeSegment encodes for segment n: start and length.
  function Interval(duration: real, n: nat): (real, real) {
    var start := n as real * SEGMENT;
    var rem := duration - start;
    (start, if duration > 0.0 && 0.0 < rem < SEGMENT then rem else SEGMENT)
  }

  function Sum(es: seq<Entry>): real {
    if es == [] then 0.0 else Sum(es[..|es| - 1]) + es[|es| - 1].length
  }

  // The listed length of a segment is the one transcodeSegment encodes; it is in
  // (0, 4] and, rounded, within the target duration.
  lemma ListedIsEncoded(duration: real, i: nat)
    requires duration > 0.0 && i < Count(duration)
    ensures Interval(duration, i) == (i as real * SEGMENT, Listed(duration, i))
    ensures 0.0 < Listed(duration, i) <= SEGMENT
    ensures (Listed(duration, i) + 0.5).Floor <= TARGET_DURATION
  {
    var n := Count(duration);
    assert i as real <= n as real - 1.0;
    if i + 1 < n {
      assert i as real + 1.0 <= n as real - 1.0;
    }
  }

  // Segment i ends where segment i + 1 starts, and the last ends with the media.
  lemma SegmentsTile(duration: real, i: nat)
    requires duration > 0.0 && i < Count(duration)
    ensures var (start, length) := Interval(duration, i);
      start + length == if i + 1 == Count(duration) then duration else Interval(duration, i + 1).0
  {
    ListedIsEncoded(duration, i);
    if i + 1 == Count(duration) {
      assert i as real == Count(duration) as real - 1.0;
    }
  }

  // Every instant of the media is in exactly one listed segment.
  lemma EveryInstantOnce(duration: real, t: real)
    requires 0.0 <= t < duration
    ensures var n := (t / SEGMENT).Floor;
      0 <= n < Count(duration) && forall i :: 0 <= i < Count(duration) ==>
        (Interval(duration, i).0 <= t < Interval(duration, i).0 + Interval(duration, i).1 <==> i == n)
  {
    var n := (t / SEGMENT).Floor;
    assert n as real * SEGMENT <= t < (n as real + 1.0) * SEGMENT;
    assert n < Count(duration) by {
      assert n as real < Count(duration) as real;
    }
    forall i | 0 <= i < Count(duration)
      ensures Interval(duration, i).0 <= t < Interval(duration, i).0 + Interval(duration, i).1 <==> i == n
    {
      SegmentsTile(duration, i);
      ListedIsEncoded(duration, i);
      if i < n {
        assert i as real + 1.0 <= n as real;
      } else if i > n {
        assert n as real + 1.0 <= i as real;
      }
    }
  }

  lemma {:induction false} SumSoFar(duration: real, prefix: string, n: nat)
    requires duration > 0.0 && n <= Count(duration)
    ensures Sum(Entries(duration, prefix, n)) == if n == Count(duration) then duration else n as real * SEGMENT
  {
    if n > 0 {
      var es := Entries(duration, prefix, n);
      SumSoFar(duration, prefix, n - 1);
      assert es[..n - 1] == Entries(duration, prefix, n - 1);
      SegmentsTile(duration, n - 1);
      ListedIsEncoded(duration, n - 1);
    }
  }

  // To the nearest integer, ties to even.
  function Round(y: real): int {
    var half := y - y.Floor as real;
    if half < 0.5 || (half == 0.5 && y.Floor % 2 == 0) then y.Floor else y.Floor + 1
  }

  // The thousandths that %.3f prints.
  function Millis(x: real): int {
    Round(x * 1000.0)
  }

  function MillisSum(es: seq<Entry>): int {
    if es == [] then 0 else MillisSum(es[..|es| - 1]) + Millis(es[|es| - 1].length)
  }

  lemma RoundShift(y: real, m: int)
    ensures Round(y + (2 * m) as real) == Round(y) + 2 * m
  {
    assert (y + (2 * m) as real).Floor == y.Floor + 2 * m;
  }

  lemma MillisShift(x: real, n: int)
    ensures Millis(x + n as real * SEGMENT) == Millis(x) + 4000 * n
  {
    hide Round;
    assert (x + n as real * SEGMENT) * 1000.0 == x * 1000.0 + (2 * (2000 * n)) as real;
    RoundShift(x * 1000.0, 2000 * n);
  }

  lemma FullSegment()
    ensures Millis(SEGMENT) == 4000
  {
  }

  lemma PrintedLength(duration: real, i: nat)
    requires duration > 0.0 && i < Count(duration)
    ensures Millis(Listed(duration, i)) == if i + 1 == Count(duration) then Millis(duration) - 4000 * i else 4000
  {
    hide Round, Millis;
    FullSegment();
    SegmentsTile(duration, i);
    ListedIsEncoded(duration, i);
    MillisShift(Listed(duration, i), i);
  }

  lemma {:induction false} MillisSoFar(duration: real, prefix: string, n: nat)
    requires duration > 0.0 && n <= Count(duration)
    ensures MillisSum(Entries(duration, prefix, n)) == if n == Count(duration) then Millis(duration) else 4000 * n
  {
    hide Round, Millis, Listed, Count, Uri;
    if n > 0 {
      MillisSoFar(duration, prefix, n - 1);
      MillisOfLast(duration, prefix, n);
      PrintedLength(duration, n - 1);
    } else {
      assert Count(duration) > 0 && Entries(duration, prefix, 0) == [] && MillisSum([]) == 0;
    }
  }

  lemma MillisOfLast(duration: real, prefix: string, n: nat)
    requires n > 0
    ensures MillisSum(Entries(duration, prefix, n))
         == MillisSum(Entries(duration, prefix, n - 1)) + Millis(Listed(duration, n - 1))
  {
    hide Millis, Listed, Uri;
    assert Entries(duration, prefix, n)[..n - 1] == Entries(duration, prefix, n - 1);
  }

  // The EXTINF values add up to the duration exactly, and what is printed adds up
  // to the duration rounded to the millisecond.
  lemma LengthsSumUp(duration: real, prefix: string)
    requires duration > 0.0
    ensures Sum(Entries(duration, prefix, Count(duration))) == duration
    ensures MillisSum(Entries(duration, prefix, Count(duration))) == Millis(duration)
  {
    SumSoFar(duration, prefix, Count(duration));
    MillisSoFar(duration, prefix, Count(duration));
  }
}
