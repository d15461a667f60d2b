/** Pacing of the test-tone generator: audio frames are handed out as the video
    clock makes room for them. */
module AudioPace {
  import opened Core
  import Bits

  /** Samples due once video frame `i` (from 0) has been shown, rounded down. */
  function SamplesDue(rate: nat, fps: nat, i: nat): nat
    requires 0 < fps
  {
    (i + 1) * rate / fps
  }

  /** Whole audio frames due by then. */
  function FramesDue(rate: nat, fps: nat, size: nat, i: nat): nat
    requires 0 < fps && 0 < size
  {
    SamplesDue(rate, fps, i) / size
  }

  /** One more frame of `size` samples fits into `n` samples after `k` frames
      exactly when fewer than n / size frames have been taken. */
  lemma OneMoreFits(k: nat, size: nat, n: nat)
    requires 0 < size
    ensures k * size + size <= n <==> k < n / size
  {
    var q, r := n / size, n % size;
    assert n == size * q + r;
    assert (k + 1) * size == k * size + size;
    if k < q {
      Scale(k + 1, q, size);
    } else {
      Scale(q + 1, k + 1, size);
      assert (q + 1) * size == size * q + size;
    }
  }

  lemma Scale(a: nat, b: nat, c: nat)
    requires a <= b
    ensures a * c <= b * c
  {
    assert b * c == a * c + (b - a) * c;
  }

  lemma DueIsMonotone(rate: nat, fps: nat, size: nat, i: nat, j: nat)
    requires 0 < fps && 0 < size && i <= j
    ensures FramesDue(rate, fps, size, i) <= FramesDue(rate, fps, size, j)
  {
    Scale(i + 1, j + 1, rate);
    QuotientMonotone((i + 1) * rate, (j + 1) * rate, fps);
    QuotientMonotone(SamplesDue(rate, fps, i), SamplesDue(rate, fps, j), size);
  }

  /** A quotient rounded down reaches `k` exactly if the division does. */
  lemma QuotientAtLeast(a: nat, d: nat, k: nat)
    requires 0 < d
    ensures k <= a / d <==> k * d <= a
  {
    var q := a / d;
    assert a == d * q + a % d;
    if k <= q {
      Scale(k, q, d);
    } else {
      Scale(q + 1, k, d);
      assert (q + 1) * d == d * q + d;
    }
  }

  /** After the frames due in `n` video frames. */
  lemma InStep(rate: nat, fps: nat, size: nat, n: nat, k: nat, generated: nat)
    requires 0 < fps && 0 < size && 0 < n && k == FramesDue(rate, fps, size, n - 1) && generated == k * size
    ensures generated <= SamplesDue(rate, fps, n - 1) < generated + size
    ensures generated * fps <= n * rate < (generated + size) * fps
  {
    OneMoreFits(k, size, SamplesDue(rate, fps, n - 1));
    if k > 0 {
      OneMoreFits(k - 1, size, SamplesDue(rate, fps, n - 1));
      assert (k - 1) * size + size == k * size;
    }
    QuotientAtLeast(n * rate, fps, generated);
    QuotientAtLeast(n * rate, fps, generated + size);
  }

  lemma QuotientMonotone(a: nat, b: nat, d: nat)
    requires 0 < d && a <= b
    ensures a / d <= b / d
  {
    var p, q := a / d, b / d;
    assert a == d * p + a % d && b == d * q + b % d;
    assert d * (p - q) == d * p - d * q;
    if q < p {
      Bits.MultipleAtLeast(d, p - q);
    }
  }

  class AudioPace {
    const rate: nat
    const size: nat
    const fps: nat
    var generated: nat
    var produced: nat

    ghost predicate Valid()
      reads this
    {
      0 < size && 0 < fps && generated == produced * size
    }

    constructor (rate: nat, size: nat, fps: nat)
      requires 0 < size && 0 < fps
      ensures Valid() && produced == 0
      ensures this.rate == rate && this.size == size && this.fps == fps
    {
      this.rate, this.size, this.fps := rate, size, fps;
      generated, produced := 0, 0;
    }

    /** The index of the audio frame due within video frame `i`, if there is one. */
    method NextAudioFrame(i: nat) returns (frame: Option<nat>)
      requires Valid()
      modifies this
      ensures Valid()
      ensures frame.Some? <==> old(produced) < FramesDue(rate, fps, size, i)
      ensures frame.Some? ==> frame.value == old(produced) && produced == old(produced) + 1
      ensures frame.None? ==> produced == old(produced)
      ensures frame.Some? <==> (old(generated) + size) * fps <= (i + 1) * rate
    {
      var endSamples := (i + 1) * rate / fps;
      OneMoreFits(produced, size, endSamples);
      QuotientAtLeast((i + 1) * rate, fps, generated + size);
      if generated + size > endSamples {
        return None;
      }
      frame := Some(produced);
      generated := generated + size;
      produced := produced + 1;
    }

    /** The caller's loop for one video frame: take audio until none is due. */
    method DrainThrough(i: nat) returns (frames: seq<nat>)
      requires Valid()
      modifies this
      ensures Valid()
      ensures produced == if old(produced) <= FramesDue(rate, fps, size, i) then FramesDue(rate, fps, size, i) else old(produced)
      ensures frames == Indices(old(produced), produced)
    {
      frames := [];
      var frame := NextAudioFrame(i);
      while frame.Some?
        invariant Valid() && old(produced) <= produced
        invariant frame.Some? ==> frame.value == produced - 1 && old(produced) < produced
        invariant frame.Some? ==> produced <= FramesDue(rate, fps, size, i)
        invariant frame.None? ==> FramesDue(rate, fps, size, i) <= produced
        invariant old(produced) < produced ==> produced <= FramesDue(rate, fps, size, i)
        invariant frames == Indices(old(produced), if frame.Some? then produced - 1 else produced)
        decreases frame.Some?, FramesDue(rate, fps, size, i) - produced
      {
        frames := frames + [frame.value];
        frame := NextAudioFrame(i);
      }
    }

    /** A whole clip of `n` video frames: audio never drifts. After every video
        frame the number of audio frames is the closed form, so the samples lag
        the video clock by less than one frame, and the frame indices come out
        as 0, 1, 2, ... without gap or repeat. */
    method Pace(n: nat) returns (frames: seq<nat>)
      requires Valid() && produced == 0
      modifies this
      ensures Valid()
      ensures frames == Indices(0, produced)
      ensures n > 0 ==> produced == FramesDue(rate, fps, size, n - 1)
      ensures n > 0 ==> generated <= SamplesDue(rate, fps, n - 1) < generated + size
      // In exact time: the audio made is within the video shown, and one more frame
      // of it would not be.
      ensures n > 0 ==> generated * fps <= n * rate < (generated + size) * fps
      ensures n == 0 ==> produced == 0
    {
      frames := [];
      for i := 0 to n
        invariant Valid()
        invariant frames == Indices(0, produced)
        invariant produced == if i == 0 then 0 else FramesDue(rate, fps, size, i - 1)
      {
        if i > 0 {
          DueIsMonotone(rate, fps, size, i - 1, i);
        }
        var more := DrainThrough(i);
        frames := frames + more;
      }
      if n > 0 {
        InStep(rate, fps, size, n, produced, generated);
      }
    }
  }

  /** The frame indices from `a` up to but not including `b`. */
  function Indices(a: nat, b: nat): (r: seq<nat>)
    ensures a <= b ==> |r| == b - a
    ensures forall k :: 0 <= k < |r| ==> r[k] == a + k
  {
    if a <= b then seq(b - a, k => a + k) else []
  }
}
