/**
 * Segment planning and the ffmpeg argument list built from it
 * (the first block of `cutVideo` in app.js). Durations are exact reals, so
 * `Math.ceil` is the mathematical ceiling and `Math.round((i + 1) * 60)` is
 * the identity on the integer it is given.
 */
module Planner {
  import opened Wrappers
  import opened Text

  /** `SEGMENTO_TEMPO`: the length of one clip, in seconds. */
  const SegmentSeconds: nat := 60

  /** The name the input is staged under in the engine's file system. */
  const InputName: string := "input.mp4"

  /** The output name template handed to the segment muxer. */
  const OutputPattern: string := "clipe_%03d.mp4"

  /** `Math.ceil` on an exact real: the least integer not below `x`. */
  function Ceil(x: real): (c: int)
    ensures (c - 1) as real < x <= c as real
  {
    if x.Floor as real == x then x.Floor else x.Floor + 1
  }

  /**
   * `numClipes = Math.ceil(duration / SEGMENTO_TEMPO)`: the number of whole
   * or partial 60-second windows that cover the duration. Nothing guards a
   * zero or negative duration; the count is then zero or negative.
   */
  function ClipCount(duration: real): (n: int)
    ensures ((n - 1) * SegmentSeconds) as real < duration <= (n * SegmentSeconds) as real
  {
    var q := duration / SegmentSeconds as real;
    var c := Ceil(q);
    assert (c - 1) as real * 60.0 < q * 60.0 <= c as real * 60.0;
    c
  }

  /**
   * The cut list `60, 120, ..., 60 * (n - 1)` that the push loop builds for a
   * clip count `n`; empty when `n <= 1`.
   */
  function SegmentTimes(n: int): (ts: seq<nat>)
    ensures |ts| == if n <= 1 then 0 else n - 1
  {
    if n <= 1 then [] else SegmentTimes(n - 1) + [(n - 1) * SegmentSeconds]
  }

  /** The k-th cut (counting from 1) is at `60 * k` seconds. */
  lemma {:induction false} SegmentTimesValues(n: int)
    ensures forall k :: 0 <= k < |SegmentTimes(n)| ==> SegmentTimes(n)[k] == (k + 1) * SegmentSeconds
    decreases n
  {
    if n > 1 {
      SegmentTimesValues(n - 1);
    }
  }

  /** The loop `for (i = 0; i < numClipes - 1; i++) segmentTimes.push(...)`. */
  method PlanSegmentTimes(numClipes: int) returns (segmentTimes: seq<nat>)
    ensures segmentTimes == SegmentTimes(numClipes)
  {
    segmentTimes := [];
    var i := 0;
    while i < numClipes - 1
      invariant 0 <= i <= if numClipes >= 1 then numClipes - 1 else 0
      invariant segmentTimes == SegmentTimes(i + 1)
    {
      segmentTimes := segmentTimes + [(i + 1) * SegmentSeconds];
      i := i + 1;
    }
  }

  /** What the planner decides for one measured duration. */
  datatype SegmentPlan = SegmentPlan(clipCount: int, cutTimes: seq<nat>)

  function Plan(duration: real): SegmentPlan
  {
    var n := ClipCount(duration);
    SegmentPlan(n, SegmentTimes(n))
  }

  /**
   * The cut list has one entry fewer than there are clips, is strictly
   * increasing, holds only multiples of the segment length, and every cut
   * lies strictly inside the video.
   */
  lemma {:induction false} PlanShape(duration: real)
    ensures var p := Plan(duration);
      && (p.clipCount >= 1 ==> |p.cutTimes| == p.clipCount - 1)
      && (p.clipCount <= 1 ==> p.cutTimes == [])
      && (forall i, j :: 0 <= i < j < |p.cutTimes| ==> p.cutTimes[i] < p.cutTimes[j])
      && (forall k :: 0 <= k < |p.cutTimes| ==> p.cutTimes[k] % SegmentSeconds == 0)
      && (forall k :: 0 <= k < |p.cutTimes| ==> 0.0 < p.cutTimes[k] as real < duration)
  {
    var p := Plan(duration);
    SegmentTimesValues(p.clipCount);
    forall k | 0 <= k < |p.cutTimes|
      ensures 0.0 < p.cutTimes[k] as real < duration
    {
      assert p.cutTimes[k] <= (p.clipCount - 1) * SegmentSeconds;
    }
  }

  /** A duration of exactly `k` segments gives `k` clips and `k - 1` cuts. */
  lemma {:induction false} ExactMultiple(k: int)
    ensures ClipCount((k * SegmentSeconds) as real) == k
    ensures k >= 1 ==> |SegmentTimes(ClipCount((k * SegmentSeconds) as real))| == k - 1
  {
    var n := ClipCount((k * SegmentSeconds) as real);
    assert (n - 1) * SegmentSeconds < k * SegmentSeconds <= n * SegmentSeconds;
  }

  /** Up to one segment long: one clip, no cut, an empty `-segment_times` value. */
  lemma {:induction false} ShortVideo(duration: real)
    requires 0.0 < duration <= SegmentSeconds as real
    ensures ClipCount(duration) == 1
    ensures SegmentTimes(ClipCount(duration)) == []
    ensures Join(SegmentTimes(ClipCount(duration))) == ""
  {
  }

  /** A duration in (120, 180], such as 150 or 120.5: three clips, cuts at 60 and 120. */
  lemma {:induction false} ThreeClips(duration: real)
    requires 2.0 * SegmentSeconds as real < duration <= 3.0 * SegmentSeconds as real
    ensures ClipCount(duration) == 3
    ensures SegmentTimes(ClipCount(duration)) == [60, 120]
    ensures Join(SegmentTimes(ClipCount(duration))) == "60,120"
  {
    var ts := SegmentTimes(ClipCount(duration));
    SegmentTimesValues(ClipCount(duration));
    assert ts == [60, 120];
    assert Decimal(60) == "60" && Decimal(120) == "120";
    assert Join(ts) == Decimal(60) + "," + Join([120]);
  }

  /**
   * The 13-element argument list passed to `ffmpeg.exec`: the input first,
   * the cut list as the tenth element, the output pattern last.
   */
  function Command(segmentList: string): (args: seq<string>)
    ensures |args| == 13 && args[..2] == ["-i", InputName]
    ensures args[8..10] == ["-segment_times", segmentList] && args[12] == OutputPattern
  {
    [ "-i", InputName,
      "-c", "copy",
      "-map", "0",
      "-f", "segment",
      "-segment_times", segmentList,
      "-reset_timestamps", "1",
      OutputPattern ]
  }

  /** The command for a measured duration, as `cutVideo` assembles it. */
  function CommandFor(duration: real): seq<string>
  {
    Command(Join(Plan(duration).cutTimes))
  }

  /**
   * Step 1 of `cutVideo`: the clip count, the cut list, its comma-separated
   * spelling and the argument list, computed in that order.
   */
  method PlanCommand(duration: real) returns (numClipes: int, command: seq<string>)
    ensures numClipes == ClipCount(duration) && command == CommandFor(duration)
  {
    numClipes := ClipCount(duration);
    var segmentTimes := PlanSegmentTimes(numClipes);
    var segmentListString := Join(segmentTimes);
    command := Command(segmentListString);
  }

  /**
   * The value given to option `flag` in an argument list read the way ffmpeg
   * reads it: options and their values in pairs, the output name last.
   */
  function OptionValue(args: seq<string>, flag: string): Option<string>
  {
    if |args| < 2 then None
    else if args[0] == flag then Some(args[1])
    else OptionValue(args[2..], flag)
  }

  /**
   * Whatever the cut list, the command reads `input.mp4`, copies every
   * stream without re-encoding, uses the segment muxer, resets timestamps in
   * each clip and names the clips by the fixed pattern.
   */
  lemma {:induction false} CommandOptions(segmentList: string)
    ensures var args := Command(segmentList);
      && OptionValue(args, "-i") == Some(InputName)
      && OptionValue(args, "-c") == Some("copy")
      && OptionValue(args, "-map") == Some("0")
      && OptionValue(args, "-f") == Some("segment")
      && OptionValue(args, "-segment_times") == Some(segmentList)
      && OptionValue(args, "-reset_timestamps") == Some("1")
      && |args| == 13 && args[|args| - 1] == OutputPattern
      && args[..2] == ["-i", InputName] && args[9] == segmentList
  {
    var args := Command(segmentList);
    var a1 := ["-c", "copy", "-map", "0", "-f", "segment", "-segment_times", segmentList, "-reset_timestamps", "1", OutputPattern];
    var a2 := ["-map", "0", "-f", "segment", "-segment_times", segmentList, "-reset_timestamps", "1", OutputPattern];
    var a3 := ["-f", "segment", "-segment_times", segmentList, "-reset_timestamps", "1", OutputPattern];
    var a4 := ["-segment_times", segmentList, "-reset_timestamps", "1", OutputPattern];
    var a5 := ["-reset_timestamps", "1", OutputPattern];
    assert args[2..] == a1 && a1[2..] == a2 && a2[2..] == a3 && a3[2..] == a4 && a4[2..] == a5;
    assert OptionValue(args, "-map") == OptionValue(a1, "-map") == OptionValue(a2, "-map");
    assert OptionValue(args, "-f") == OptionValue(a1, "-f") == OptionValue(a2, "-f") == OptionValue(a3, "-f");
    assert OptionValue(args, "-segment_times") == OptionValue(a1, "-segment_times") == OptionValue(a2, "-segment_times")
        == OptionValue(a3, "-segment_times") == OptionValue(a4, "-segment_times");
    assert OptionValue(args, "-reset_timestamps") == OptionValue(a1, "-reset_timestamps") == OptionValue(a2, "-reset_timestamps")
        == OptionValue(a3, "-reset_timestamps") == OptionValue(a4, "-reset_timestamps") == OptionValue(a5, "-reset_timestamps");
  }

  /** The engine is told exactly the planned cuts: `-segment_times` parses back to them. */
  lemma {:induction false} CommandCarriesPlan(duration: real)
    ensures OptionValue(CommandFor(duration), "-segment_times").Some?
    ensures ParseList(OptionValue(CommandFor(duration), "-segment_times").value) == Plan(duration).cutTimes
  {
    var s := Join(Plan(duration).cutTimes);
    CommandOptions(s);
    JoinRoundTrip(Plan(duration).cutTimes);
  }
}
