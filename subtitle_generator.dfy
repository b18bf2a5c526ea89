/**
 * SRT rendering (core/subtitle_generator.py): the `HH:MM:SS,mmm` timestamp,
 * the cue lines of a monolingual and of a bilingual file, and the file
 * content, which is those lines joined with newlines.
 */
module SubtitleGenerator {
  import opened Text
  import opened Segments
  import opened Wrappers
  import Storage

  // ---------------------------------------------------------------------------
  // Timestamps
  // ---------------------------------------------------------------------------

  /**
   * Python's `x % m` on floats for a positive modulus: the floored
   * remainder, the one value in [0, m) that differs from `x` by a whole
   * multiple of `m`.
   */
  function PyMod(x: real, m: real): (r: real)
    requires m > 0.0
    ensures 0.0 <= r < m
    ensures ((x - r) / m).Floor as real == (x - r) / m
  {
    var q := (x / m).Floor;
    var r := (x / m - q as real) * m;
    RemainderFacts(x, m, q, r);
    r
  }

  /** The scaled fractional part of `x / m` lies in [0, m) and leaves exactly `q` multiples of `m` behind. */
  lemma RemainderFacts(x: real, m: real, q: int, r: real)
    requires m > 0.0 && q == (x / m).Floor && r == (x / m - q as real) * m
    ensures 0.0 <= r < m
    ensures ((x - r) / m).Floor as real == (x - r) / m
  {
    var f := x / m - q as real;
    assert 0.0 <= f < 1.0;
    MulMono(0.0, f, m);
    MulMono(f, 1.0, m);
    assert f * m < 1.0 * m;
    RemainderIsWhole(x, m, q);
  }

  /** Taking the fractional part of `x / m`, scaled back by `m`, leaves exactly `q` multiples of `m` behind. */
  lemma RemainderIsWhole(x: real, m: real, q: int)
    requires m > 0.0
    ensures var r := (x / m - q as real) * m; ((x - r) / m).Floor as real == (x - r) / m
  {
    var y := x / m;
    assert y * m == x;
    assert (y - q as real) * m == x - q as real * m;
    var r := (y - q as real) * m;
    assert x - r == q as real * m;
    assert (x - r) / m == q as real;
  }

  lemma MulMono(a: real, b: real, m: real)
    requires m > 0.0
    ensures a <= b ==> a * m <= b * m
    ensures a < b ==> a * m < b * m
  {
  }

  /** Python's `int(x)` on a float: truncation toward zero. */
  function Trunc(x: real): (n: int)
    ensures x >= 0.0 ==> n as real <= x < n as real + 1.0
  {
    if x >= 0.0 then x.Floor else -((-x).Floor)
  }

  /** The four numeric fields of a rendered timestamp. */
  datatype Clock = Clock(hours: int, minutes: int, seconds: int, millis: int)

  /**
   * The fields `format_timestamp` computes: `int(x // 3600)`,
   * `int((x % 3600) // 60)`, `int(x % 60)` and `int((x % 1) * 1000)`.
   * Minutes and seconds are in 0..59 and milliseconds in 0..999 for every
   * input; only the hours can be negative, and only for a negative input.
   */
  function ClockOf(x: real): (c: Clock)
    ensures 0 <= c.minutes < 60 && 0 <= c.seconds < 60 && 0 <= c.millis < 1000
    ensures c.hours >= 0 <==> x >= 0.0
  {
    Clock((x / 3600.0).Floor,
          Trunc(PyMod(x, 3600.0) / 60.0),
          Trunc(PyMod(x, 60.0)),
          Trunc(PyMod(x, 1.0) * 1000.0))
  }

  /** The time, in seconds, that a clock reading stands for. */
  function ClockSeconds(c: Clock): real {
    (c.hours * 3600 + c.minutes * 60 + c.seconds) as real + c.millis as real / 1000.0
  }

  lemma FloorShift(y: real, k: int)
    ensures (y + k as real).Floor == y.Floor + k
  {
  }

  /**
   * The rendered fields never round up: the time they stand for is at most
   * `x`, and `x` is less than one millisecond later.
   */
  lemma TimestampTruncates(x: real)
    ensures ClockSeconds(ClockOf(x)) <= x < ClockSeconds(ClockOf(x)) + 1.0 / 1000.0
  {
    var c := ClockOf(x);
    var h := c.hours;
    var r := x - h as real * 3600.0;
    assert PyMod(x, 3600.0) == r;
    assert 0.0 <= r < 3600.0;
    var m := c.minutes;
    assert m == (r / 60.0).Floor;
    FloorShift(r / 60.0, 60 * h);
    assert x / 60.0 == r / 60.0 + (60 * h) as real;
    assert (x / 60.0).Floor == 60 * h + m;
    assert PyMod(x, 60.0) == r - m as real * 60.0;
    var s := c.seconds;
    FloorShift(r - m as real * 60.0, 3600 * h + 60 * m);
    assert x.Floor == 3600 * h + 60 * m + s;
    assert PyMod(x, 1.0) == x - x.Floor as real;
  }

  /** `format_timestamp`: `f"{hours:02d}:{minutes:02d}:{secs:02d},{millis:03d}"`. */
  function FormatTimestamp(x: real): string {
    var c := ClockOf(x);
    ZeroPadInt(c.hours, 2) + ":" + ZeroPad(c.minutes, 2) + ":" + ZeroPad(c.seconds, 2)
      + "," + ZeroPad(c.millis, 3)
  }

  /**
   * Reads an `H:MM:SS,mmm` text back into its fields: at least one hour
   * digit, then exactly two, two and three digits behind `:`, `:` and `,`.
   */
  function ParseTimestamp(t: string): Option<Clock> {
    var n := |t|;
    if n < 11 then None
    else
      var hours, rest := t[..n - 10], t[n - 10..];
      if rest[0] != ':' || rest[3] != ':' || rest[6] != ',' then None
      else if !AllDigits(hours) || !AllDigits(rest[1..3]) || !AllDigits(rest[4..6]) || !AllDigits(rest[7..]) then None
      else Some(Clock(ParseDigits(hours), ParseDigits(rest[1..3]), ParseDigits(rest[4..6]), ParseDigits(rest[7..])))
  }

  /**
   * For a non-negative time the rendering has the fixed shape: hours zero
   * padded to at least two digits and never wrapped at 24 (so 100 hours and
   * more take more digits), then two-digit minutes and seconds and
   * three-digit milliseconds, separated by `:`, `:` and `,`; reading it back
   * gives exactly the fields of ClockOf.
   */
  lemma {:induction false} FormatTimestampParses(x: real)
    requires x >= 0.0
    ensures var h := NatToString(ClockOf(x).hours);
      |FormatTimestamp(x)| == 10 + (if |h| < 2 then 2 else |h|)
    ensures ParseTimestamp(FormatTimestamp(x)) == Some(ClockOf(x))
  {
    var c := ClockOf(x);
    var hh, mm, ss, ms := ZeroPad(c.hours, 2), ZeroPad(c.minutes, 2), ZeroPad(c.seconds, 2), ZeroPad(c.millis, 3);
    ZeroPadReadsBack(c.hours, 2);
    ZeroPadReadsBack(c.minutes, 2);
    ZeroPadReadsBack(c.seconds, 2);
    ZeroPadReadsBack(c.millis, 3);
    assert |mm| == 2 && |ss| == 2 && |ms| == 3 by {
      assert |NatToString(c.minutes)| <= 2 by { SmallNatDigits(c.minutes); }
      assert |NatToString(c.seconds)| <= 2 by { SmallNatDigits(c.seconds); }
      assert |NatToString(c.millis)| <= 3 by { SmallNatDigits(c.millis); }
    }
    assert FormatTimestamp(x) == hh + ":" + mm + ":" + ss + "," + ms;
    ParseFields(hh, mm, ss, ms);
  }

  /** Four digit fields of the right widths, joined with `:`, `:` and `,`, read back as themselves. */
  lemma ParseFields(hh: string, mm: string, ss: string, ms: string)
    requires |hh| >= 1 && |mm| == 2 && |ss| == 2 && |ms| == 3
    requires AllDigits(hh) && AllDigits(mm) && AllDigits(ss) && AllDigits(ms)
    ensures |hh + ":" + mm + ":" + ss + "," + ms| == |hh| + 10
    ensures ParseTimestamp(hh + ":" + mm + ":" + ss + "," + ms)
      == Some(Clock(ParseDigits(hh), ParseDigits(mm), ParseDigits(ss), ParseDigits(ms)))
  {
    var tail := [':'] + mm + [':'] + ss + [','] + ms;
    TailFields(mm, ss, ms, tail);
    assert hh + ":" + mm + ":" + ss + "," + ms == hh + tail;
    SplitHours(hh, tail);
  }

  /** The fixed ten characters after the hours. */
  lemma TailFields(mm: string, ss: string, ms: string, tail: string)
    requires |mm| == 2 && |ss| == 2 && |ms| == 3
    requires tail == [':'] + mm + [':'] + ss + [','] + ms
    ensures |tail| == 10 && tail[0] == ':' && tail[3] == ':' && tail[6] == ','
    ensures tail[1..3] == mm && tail[4..6] == ss && tail[7..] == ms
  {
  }

  /** The hours are everything before the last ten characters. */
  lemma SplitHours(hh: string, tail: string)
    requires |tail| == 10
    ensures var t := hh + tail;
      |t| == |hh| + 10 && t[..|t| - 10] == hh && t[|t| - 10..] == tail
  {
  }

  /** Numbers below 1000 take at most three digits, below 100 at most two. */
  lemma SmallNatDigits(n: nat)
    requires n < 1000
    ensures |NatToString(n)| <= (if n < 10 then 1 else if n < 100 then 2 else 3)
  {
    if n >= 10 {
      SmallNatDigits(n / 10);
    }
  }

  /** The rendering is the four padded fields of the clock reading. */
  lemma RenderClock(x: real, c: Clock)
    requires ClockOf(x) == c
    ensures FormatTimestamp(x)
      == ZeroPadInt(c.hours, 2) + ":" + ZeroPad(c.minutes, 2) + ":" + ZeroPad(c.seconds, 2) + "," + ZeroPad(c.millis, 3)
  {
  }

  /** Zero renders as two and three zeros. */
  lemma PaddedZeros()
    ensures ZeroPadInt(0, 2) == "00" && ZeroPad(0, 2) == "00" && ZeroPad(0, 3) == "000"
  {
    assert NatToString(0) == "0";
  }

  /** The start of a video renders as all zeros. */
  lemma TimestampOfZero()
    ensures FormatTimestamp(0.0) == "00:00:00,000"
  {
    RenderClock(0.0, Clock(0, 0, 0, 0));
    PaddedZeros();
  }

  /** 3725.4 s is one hour, two minutes, five seconds and 400 ms. */
  lemma TimestampOfHourAndMore()
    ensures FormatTimestamp(3725.4) == "01:02:05,400"
  {
    ClockOfHourAndMore();
    RenderClock(3725.4, Clock(1, 2, 5, 400));
    HourAndMoreText();
  }

  lemma ClockOfHourAndMore()
    ensures ClockOf(3725.4) == Clock(1, 2, 5, 400)
  {
  }

  lemma HourAndMoreText()
    ensures ZeroPadInt(1, 2) == "01" && ZeroPad(2, 2) == "02" && ZeroPad(5, 2) == "05" && ZeroPad(400, 3) == "400"
  {
    assert NatToString(400) == "400";
  }

  /** Milliseconds are cut, not rounded: 1.9996 s shows 999 ms, not 2 s. */
  lemma TimestampTruncatesMillis()
    ensures FormatTimestamp(1.9996) == "00:00:01,999"
  {
    ClockOfAlmostTwo();
    RenderClock(1.9996, Clock(0, 0, 1, 999));
    PaddedZeros();
    AlmostTwoText();
  }

  lemma ClockOfAlmostTwo()
    ensures ClockOf(1.9996) == Clock(0, 0, 1, 999)
  {
  }

  lemma AlmostTwoText()
    ensures ZeroPad(1, 2) == "01" && ZeroPad(999, 3) == "999"
  {
    assert NatToString(999) == "999";
  }

  /** Hours are not wrapped at 24 and take a third digit from 100 on. */
  lemma TimestampOfHundredHours()
    ensures FormatTimestamp(360000.0) == "100:00:00,000"
  {
    ClockOfHundredHours();
    RenderClock(360000.0, Clock(100, 0, 0, 0));
    PaddedZeros();
    HundredHoursText();
  }

  lemma ClockOfHundredHours()
    ensures ClockOf(360000.0) == Clock(100, 0, 0, 0)
  {
  }

  /** A three-digit hour count is not cut to two digits. */
  lemma HundredHoursText()
    ensures ZeroPadInt(100, 2) == "100"
  {
    assert NatToString(100) == "100";
  }

  // ---------------------------------------------------------------------------
  // Monolingual SRT
  // ---------------------------------------------------------------------------

  /**
   * `format_timestamp` is reached through `self`; the cue layout below is
   * stated for any timestamp renderer, and the files are written with
   * FormatTimestamp.
   */
  type Formatter = real -> string

  /** `f"{start_time} --> {end_time}"` */
  function TimingLine(seg: Segment, format: Formatter): string {
    format(seg.start) + " --> " + format(seg.end)
  }

  /** The four lines of cue number `index`: number, timing, text, blank. */
  function CueLines(index: nat, seg: Segment, format: Formatter): seq<string> {
    [NatToString(index), TimingLine(seg, format), seg.text, ""]
  }

  /** The line list `generate_srt` builds for `segments`, cue by cue. */
  function SrtLines(segments: seq<Segment>, format: Formatter): seq<string>
    decreases |segments|
  {
    if |segments| == 0 then []
    else
      SrtLines(segments[..|segments| - 1], format)
        + CueLines(|segments|, segments[|segments| - 1], format)
  }

  /** The text `generate_srt` writes: the lines joined with `\n`. */
  function SrtContent(segments: seq<Segment>): (content: string)
    ensures segments == [] ==> content == ""
  {
    JoinLines(SrtLines(segments, FormatTimestamp))
  }

  /**
   * N segments give 4N lines, and lines 4k..4k+3 are cue k+1 of segment k:
   * numbering is 1-based and contiguous, and the text is the segment's own.
   */
  lemma {:induction false} SrtLinesShape(segments: seq<Segment>, format: Formatter)
    ensures |SrtLines(segments, format)| == 4 * |segments|
    ensures forall k :: 0 <= k < |segments| ==>
      SrtLines(segments, format)[4 * k..4 * k + 4] == CueLines(k + 1, segments[k], format)
    decreases |segments|
  {
    if |segments| > 0 {
      var n := |segments|;
      var init := segments[..n - 1];
      SrtLinesShape(init, format);
      forall k | 0 <= k < n
        ensures SrtLines(segments, format)[4 * k..4 * k + 4] == CueLines(k + 1, segments[k], format)
      {
        if k < n - 1 {
          assert SrtLines(segments, format)[4 * k..4 * k + 4] == SrtLines(init, format)[4 * k..4 * k + 4];
          assert init[k] == segments[k];
        }
      }
    }
  }

  /**
   * `generate_srt`'s loop: appends number, timing, text and a blank line per
   * segment, in order.
   */
  method BuildSrtLines(segments: seq<Segment>, format: Formatter) returns (lines: seq<string>)
    ensures lines == SrtLines(segments, format)
    ensures |lines| == 4 * |segments|
    ensures forall k :: 0 <= k < |segments| ==> lines[4 * k..4 * k + 4] == CueLines(k + 1, segments[k], format)
  {
    lines := [];
    var i := 0;
    while i < |segments|
      invariant 0 <= i <= |segments|
      invariant lines == SrtLines(segments[..i], format)
    {
      var segment := segments[i];
      lines := lines + [NatToString(i + 1)];
      var startTime := format(segment.start);
      var endTime := format(segment.end);
      lines := lines + [startTime + " --> " + endTime];
      lines := lines + [segment.text];
      lines := lines + [""];
      assert segments[..i + 1][..i] == segments[..i];
      i := i + 1;
    }
    assert segments[..i] == segments;
    SrtLinesShape(segments, format);
  }

  /**
   * `generate_srt`: writes the joined lines to `outputPath` (replacing any
   * earlier content, leaving every other file alone) and returns the path.
   */
  method GenerateSrt(disk: Storage.Disk, segments: seq<Segment>, outputPath: string)
    returns (path: string)
    modifies disk
    ensures path == outputPath
    ensures disk.files == old(disk.files)[outputPath := SrtContent(segments)]
  {
    var lines := BuildSrtLines(segments, FormatTimestamp);
    disk.Write(outputPath, JoinLines(lines));
    path := outputPath;
  }

  // ---------------------------------------------------------------------------
  // Bilingual SRT
  // ---------------------------------------------------------------------------

  /** Cue `index` of the bilingual file: number, English timing, English text, Persian text, blank. */
  function BilingualCueLines(index: nat, en: Segment, fa: Segment, format: Formatter): seq<string> {
    [NatToString(index), TimingLine(en, format), en.text, fa.text, ""]
  }

  function Min(a: nat, b: nat): nat {
    if a <= b then a else b
  }

  /** The lines `create_bilingual_srt` builds: one cue per pair of `zip(segments_en, segments_fa)`. */
  function BilingualLines(en: seq<Segment>, fa: seq<Segment>, format: Formatter): seq<string>
    decreases |en|
  {
    var n := Min(|en|, |fa|);
    if n == 0 then []
    else
      BilingualLines(en[..n - 1], fa[..n - 1], format)
        + BilingualCueLines(n, en[n - 1], fa[n - 1], format)
  }

  /** The text `create_bilingual_srt` writes. */
  function BilingualContent(en: seq<Segment>, fa: seq<Segment>): (content: string)
    ensures en == [] || fa == [] ==> content == ""
  {
    JoinLines(BilingualLines(en, fa, FormatTimestamp))
  }

  /**
   * The bilingual file has min(|en|, |fa|) cues of five lines; cue k+1 takes
   * its timing from the English segment only, and the English text comes
   * before the Persian text, both verbatim.
   */
  lemma {:induction false} BilingualLinesShape(en: seq<Segment>, fa: seq<Segment>, format: Formatter)
    ensures |BilingualLines(en, fa, format)| == 5 * Min(|en|, |fa|)
    ensures forall k :: 0 <= k < Min(|en|, |fa|) ==>
      BilingualLines(en, fa, format)[5 * k..5 * k + 5] == BilingualCueLines(k + 1, en[k], fa[k], format)
    decreases |en|
  {
    var n := Min(|en|, |fa|);
    if n > 0 {
      var en', fa' := en[..n - 1], fa[..n - 1];
      BilingualLinesShape(en', fa', format);
      assert Min(|en'|, |fa'|) == n - 1;
      forall k | 0 <= k < n
        ensures BilingualLines(en, fa, format)[5 * k..5 * k + 5] == BilingualCueLines(k + 1, en[k], fa[k], format)
      {
        if k < n - 1 {
          assert BilingualLines(en, fa, format)[5 * k..5 * k + 5]
              == BilingualLines(en', fa', format)[5 * k..5 * k + 5];
          assert en'[k] == en[k] && fa'[k] == fa[k];
        }
      }
    }
  }

  /**
   * The Persian segments' timings never reach the bilingual file: two Persian
   * lists with the same texts give the same lines.
   */
  lemma {:induction false} BilingualIgnoresSecondaryTiming(en: seq<Segment>, fa: seq<Segment>, fa2: seq<Segment>,
                                                            format: Formatter)
    requires |fa| == |fa2|
    requires forall k :: 0 <= k < |fa| ==> fa[k].text == fa2[k].text
    ensures BilingualLines(en, fa, format) == BilingualLines(en, fa2, format)
    decreases |en|
  {
    var n := Min(|en|, |fa|);
    if n > 0 {
      BilingualIgnoresSecondaryTiming(en[..n - 1], fa[..n - 1], fa2[..n - 1], format);
    }
  }

  /** Only the first min(|en|, |fa|) segments of either list matter. */
  lemma {:induction false} BilingualPrefix(en: seq<Segment>, fa: seq<Segment>, format: Formatter)
    ensures var n := Min(|en|, |fa|);
      BilingualLines(en[..n], fa[..n], format) == BilingualLines(en, fa, format)
  {
    var n := Min(|en|, |fa|);
    if n > 0 {
      assert en[..n][..n - 1] == en[..n - 1] && fa[..n][..n - 1] == fa[..n - 1];
    }
  }

  /** `create_bilingual_srt`'s loop over `zip(segments_en, segments_fa)`. */
  method BuildBilingualLines(en: seq<Segment>, fa: seq<Segment>, format: Formatter) returns (lines: seq<string>)
    ensures lines == BilingualLines(en, fa, format)
    ensures |lines| == 5 * Min(|en|, |fa|)
    ensures forall k :: 0 <= k < Min(|en|, |fa|) ==>
      lines[5 * k..5 * k + 5] == BilingualCueLines(k + 1, en[k], fa[k], format)
  {
    lines := [];
    var i := 0;
    while i < |en| && i < |fa|
      invariant 0 <= i <= Min(|en|, |fa|)
      invariant lines == BilingualLines(en[..i], fa[..i], format)
    {
      ghost var before := lines;
      var segEn, segFa := en[i], fa[i];
      lines := lines + [NatToString(i + 1)];
      var startTime := format(segEn.start);
      var endTime := format(segEn.end);
      lines := lines + [startTime + " --> " + endTime];
      lines := lines + [segEn.text];
      lines := lines + [segFa.text];
      lines := lines + [""];
      assert lines == before + BilingualCueLines(i + 1, segEn, segFa, format);
      assert en[..i + 1][..i] == en[..i] && fa[..i + 1][..i] == fa[..i];
      i := i + 1;
    }
    BilingualPrefix(en, fa, format);
    BilingualLinesShape(en, fa, format);
  }

  /** `create_bilingual_srt`: writes the joined bilingual lines to `outputPath` and returns it. */
  method CreateBilingualSrt(disk: Storage.Disk, en: seq<Segment>, fa: seq<Segment>, outputPath: string)
    returns (path: string)
    modifies disk
    ensures path == outputPath
    ensures disk.files == old(disk.files)[outputPath := BilingualContent(en, fa)]
  {
    var lines := BuildBilingualLines(en, fa, FormatTimestamp);
    disk.Write(outputPath, JoinLines(lines));
    path := outputPath;
  }

  // ---------------------------------------------------------------------------
  // Reading a file back
  // ---------------------------------------------------------------------------

  lemma LineConcat(a: string, b: string)
    requires IsLine(a) && IsLine(b)
    ensures IsLine(a + b)
  {
    assert forall i :: 0 <= i < |a + b| ==> (a + b)[i] == if i < |a| then a[i] else b[i - |a|];
  }

  lemma DigitsAreLine(s: string)
    requires AllDigits(s)
    ensures IsLine(s)
  {
  }

  lemma TimestampIsLine(x: real)
    ensures IsLine(FormatTimestamp(x))
  {
    var c := ClockOf(x);
    var h := ZeroPadInt(c.hours, 2);
    assert IsLine(h) by {
      forall i | 0 <= i < |h| ensures h[i] != '\n' {
        if c.hours < 0 && i > 0 {
          assert h[i] == h[1..][i - 1];
        }
      }
    }
    var mm, ss, ms := ZeroPad(c.minutes, 2), ZeroPad(c.seconds, 2), ZeroPad(c.millis, 3);
    ZeroPadReadsBack(c.minutes, 2);
    ZeroPadReadsBack(c.seconds, 2);
    ZeroPadReadsBack(c.millis, 3);
    LineConcat(h, ":");
    LineConcat(h + ":", mm);
    LineConcat(h + ":" + mm, ":");
    LineConcat(h + ":" + mm + ":", ss);
    LineConcat(h + ":" + mm + ":" + ss, ",");
    LineConcat(h + ":" + mm + ":" + ss + ",", ms);
  }

  /**
   * When neither the renderer nor any segment text produces a newline,
   * splitting a non-empty file at newlines gives back exactly its lines:
   * 4 per cue, the cue number first.
   */
  lemma SrtContentSplitsWith(segments: seq<Segment>, format: Formatter)
    requires |segments| >= 1
    requires forall k :: 0 <= k < |segments| ==> IsLine(segments[k].text)
    requires forall x :: IsLine(format(x))
    ensures SplitLines(JoinLines(SrtLines(segments, format))) == SrtLines(segments, format)
  {
    SrtLinesAreLines(segments, format);
    SplitJoinLines(SrtLines(segments, format));
  }

  lemma {:induction false} SrtLinesAreLines(segments: seq<Segment>, format: Formatter)
    requires forall k :: 0 <= k < |segments| ==> IsLine(segments[k].text)
    requires forall x :: IsLine(format(x))
    ensures forall j :: 0 <= j < |SrtLines(segments, format)| ==> IsLine(SrtLines(segments, format)[j])
    decreases |segments|
  {
    if |segments| > 0 {
      var n := |segments|;
      SrtLinesAreLines(segments[..n - 1], format);
      CueIsLines(n, segments[n - 1], format);
    }
  }

  lemma CueIsLines(index: nat, seg: Segment, format: Formatter)
    requires IsLine(seg.text)
    requires IsLine(format(seg.start)) && IsLine(format(seg.end))
    ensures forall i :: 0 <= i < 4 ==> IsLine(CueLines(index, seg, format)[i])
  {
    DigitsAreLine(NatToString(index));
    LineConcat(format(seg.start), " --> ");
    LineConcat(format(seg.start) + " --> ", format(seg.end));
  }

  /** The written SRT text splits back into its 4N lines when no segment text holds a newline. */
  lemma SrtContentSplits(segments: seq<Segment>)
    requires |segments| >= 1
    requires forall k :: 0 <= k < |segments| ==> IsLine(segments[k].text)
    ensures SplitLines(SrtContent(segments)) == SrtLines(segments, FormatTimestamp)
    ensures |SplitLines(SrtContent(segments))| == 4 * |segments|
  {
    forall x ensures IsLine(FormatTimestamp(x)) {
      TimestampIsLine(x);
    }
    SrtContentSplitsWith(segments, FormatTimestamp);
    SrtLinesShape(segments, FormatTimestamp);
  }
}
