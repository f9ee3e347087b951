/** What the microphone worklet is for (public/worklets/suits-mic-processor.js): resampling a stream of
    samples to 16 kHz by linear interpolation, converting to 16-bit PCM and cutting into 20 ms frames.

    Samples and positions are real numbers; rounding of the source's floating point is not modelled. */
module MicStream {

  const FRAME_SAMPLES: nat := 320
  const MAX_INPUT_CHANNELS: nat := 8
  const MAX_RENDER_QUANTUM_SAMPLES: nat := 4096
  const MAX_IN_FLIGHT_FRAMES: nat := 8

  // ---------------------------------------------------------------- samples to PCM

  /** `Math.round`: halves go up. */
  function Round(x: real): int {
    (x + 0.5).Floor
  }

  function Clamp(x: real): real {
    if x > 1.0 then 1.0 else if x < -1.0 then -1.0 else x
  }

  function PcmSample(value: real): int {
    if Clamp(value) < 0.0 then Round(Clamp(value) * 32768.0) else Round(Clamp(value) * 32767.0)
  }

  /** Every converted sample fits 16 bits, order is kept, and full scale maps to the ends of the range. */
  lemma PcmFitsAndIsMonotone(a: real, b: real)
    requires a <= b
    ensures -32768 <= PcmSample(a) <= PcmSample(b) <= 32767
    ensures b >= 1.0 ==> PcmSample(b) == 32767
    ensures a <= -1.0 ==> PcmSample(a) == -32768
  {
    assert Clamp(a) <= Clamp(b);
  }

  function Pcm(outputs: seq<real>): seq<int> {
    seq(|outputs|, k requires 0 <= k < |outputs| => PcmSample(outputs[k]))
  }

  // ---------------------------------------------------------------- interpolation

  function Lerp(a: real, b: real, fraction: real): real {
    a + (b - a) * fraction
  }

  /** Piecewise linear interpolation of the samples at a position. */
  function Interpolate(samples: seq<real>, position: real): real
    requires 0.0 <= position <= (|samples| - 1) as real
  {
    var i := position.Floor;
    if i + 1 < |samples| then Lerp(samples[i], samples[i + 1], position - i as real) else samples[i]
  }

  /** The segment ending at the newest sample, as the worklet computes it. */
  lemma LastSegment(samples: seq<real>, position: real)
    requires |samples| >= 2 && (|samples| - 2) as real <= position <= (|samples| - 1) as real
    ensures Lerp(samples[|samples| - 2], samples[|samples| - 1], position - (|samples| - 2) as real)
            == Interpolate(samples, position)
  {
    var c := |samples| - 1;
    if position == c as real {
      assert position.Floor == c;
      assert position - (c - 1) as real == 1.0;
    } else {
      assert position.Floor == c - 1;
    }
  }

  /** Later samples do not change an interpolant. */
  lemma InterpolateIsStable(samples: seq<real>, more: real, position: real)
    requires 0.0 <= position <= (|samples| - 1) as real
    ensures Interpolate(samples + [more], position) == Interpolate(samples, position)
  {
    var i := position.Floor;
    if i + 1 == |samples| {
      assert position - i as real == 0.0;
    }
  }

  // ---------------------------------------------------------------- the output stream

  /** Outputs due after `n` samples: none before the second, then one at every multiple of `ratio` so far. */
  function OutputCount(n: nat, ratio: real): nat
    requires ratio > 0.0
  {
    if n < 2 then 0
    else
      QuotientIsNonNegative((n - 1) as real, ratio);
      ((n - 1) as real / ratio).Floor + 1
  }

  lemma QuotientIsNonNegative(a: real, ratio: real)
    requires ratio > 0.0 && a >= 0.0
    ensures a / ratio >= 0.0
  {
  }

  lemma TimesIsMonotone(a: real, b: real, ratio: real)
    requires ratio > 0.0
    ensures a <= b <==> a * ratio <= b * ratio
    ensures a < b <==> a * ratio < b * ratio
  {
    assert (b - a) * ratio == b * ratio - a * ratio;
    if a < b {
      assert (b - a) * ratio > 0.0;
    } else if a > b {
      assert (a - b) * ratio > 0.0;
      assert (a - b) * ratio == a * ratio - b * ratio;
    }
  }

  predicate CountFits(n: nat, ratio: real, m: nat) {
    n >= 2 && m >= 1 && (m - 1) as real * ratio <= (n - 1) as real < m as real * ratio
  }

  /** The count is the one number of multiples that fit. */
  lemma CountExactly(n: nat, ratio: real, m: nat)
    requires ratio > 0.0 && n >= 2 && m >= 1
    ensures CountFits(n, ratio, m) <==> OutputCount(n, ratio) == m
  {
    var q := (n - 1) as real / ratio;
    assert q * ratio == (n - 1) as real;
    Compare((m - 1) as real, q, ratio, (n - 1) as real);
    Compare(m as real, q, ratio, (n - 1) as real);
    FloorIs(q, m);
  }

  lemma Compare(a: real, q: real, ratio: real, x: real)
    requires ratio > 0.0 && q * ratio == x
    ensures a <= q <==> a * ratio <= x
    ensures q < a <==> x < a * ratio
  {
    TimesIsMonotone(a, q, ratio);
    TimesIsMonotone(q, a, ratio);
  }

  lemma FloorIs(q: real, m: nat)
    requires m >= 1
    ensures q.Floor + 1 == m <==> (m - 1) as real <= q < m as real
  {
  }

  lemma CountGrows(n: nat, more: nat, ratio: real)
    requires ratio > 0.0 && n <= more
    ensures OutputCount(n, ratio) <= OutputCount(more, ratio)
  {
    if n >= 2 {
      var q, r := (n - 1) as real / ratio, (more - 1) as real / ratio;
      assert r * ratio == (more - 1) as real;
      assert q * ratio == (n - 1) as real;
      Compare(q, r, ratio, (more - 1) as real);
      assert q <= r;
      assert q.Floor <= r.Floor;
    }
  }

  /** The k-th output position is within the samples. */
  lemma PositionInRange(n: nat, ratio: real, k: nat)
    requires ratio > 0.0 && k < OutputCount(n, ratio)
    ensures 0.0 <= k as real * ratio <= (n - 1) as real
  {
    DueExactly(n, ratio, k);
    TimesIsMonotone(0.0, k as real, ratio);
    assert 0.0 * ratio == 0.0;
  }

  function OutputAt(samples: seq<real>, ratio: real, k: nat): real
    requires ratio > 0.0 && k < OutputCount(|samples|, ratio)
  {
    PositionInRange(|samples|, ratio, k);
    Interpolate(samples, k as real * ratio)
  }

  /** The whole output stream of a sample stream: the k-th output interpolates at `k * ratio`. */
  function Resampled(samples: seq<real>, ratio: real): seq<real>
    requires ratio > 0.0
  {
    seq(OutputCount(|samples|, ratio), k requires 0 <= k < OutputCount(|samples|, ratio) => OutputAt(samples, ratio, k))
  }

  // ---------------------------------------------------------------- frames

  /** A PCM stream cut into full frames, and what is left over. */
  datatype Framing = Framing(frames: seq<seq<int>>, partial: seq<int>)

  function Push(framing: Framing, value: int): Framing {
    var partial := framing.partial + [value];
    if |partial| == FRAME_SAMPLES then Framing(framing.frames + [partial], []) else framing.(partial := partial)
  }

  function Framed(pcm: seq<int>): Framing {
    if pcm == [] then Framing([], []) else Push(Framed(pcm[..|pcm| - 1]), pcm[|pcm| - 1])
  }

  function Concat(frames: seq<seq<int>>): seq<int> {
    if frames == [] then [] else Concat(frames[..|frames| - 1]) + frames[|frames| - 1]
  }

  /** Framing loses nothing: full frames and the remainder, in order, are the stream. */
  lemma {:induction false} FramingIsTheStream(pcm: seq<int>)
    ensures var f := Framed(pcm);
            && Concat(f.frames) + f.partial == pcm
            && (forall i :: 0 <= i < |f.frames| ==> |f.frames[i]| == FRAME_SAMPLES)
            && |f.partial| < FRAME_SAMPLES
            && |f.frames| * FRAME_SAMPLES + |f.partial| == |pcm|
  {
    if pcm != [] {
      var earlier, value := pcm[..|pcm| - 1], pcm[|pcm| - 1];
      FramingIsTheStream(earlier);
      var before := Framed(earlier);
      assert pcm == Concat(before.frames) + (before.partial + [value]);
      var after := Framed(pcm);
      if |before.partial| + 1 == FRAME_SAMPLES {
        assert after.frames[..|after.frames| - 1] == before.frames;
      }
    }
  }

  lemma OneMoreSample(pcm: seq<int>, value: int)
    ensures Framed(pcm + [value]) == Push(Framed(pcm), value)
  {
    assert (pcm + [value])[..|pcm|] == pcm;
  }

  /** A longer stream keeps the frames of a shorter one. */
  lemma {:induction false} FramesArePrefix(pcm: seq<int>, more: seq<int>)
    requires pcm <= more
    ensures Framed(pcm).frames <= Framed(more).frames
  {
    if pcm != more {
      FramesArePrefix(pcm, more[..|more| - 1]);
    }
  }

  // ---------------------------------------------------------------- mixing channels

  function Least(a: nat, b: nat): nat {
    if a < b then a else b
  }

  /** Sum and number of the channels that have a sample at `i`. */
  function Mix(channels: seq<seq<real>>, i: nat): (real, nat) {
    if channels == [] then (0.0, 0)
    else
      var (sum, count) := Mix(channels[..|channels| - 1], i);
      var channel := channels[|channels| - 1];
      if i < |channel| then (sum + channel[i], count + 1) else (sum, count)
  }

  lemma {:induction false} FirstChannelContributes(channels: seq<seq<real>>, i: nat)
    requires channels != [] && i < |channels[0]|
    ensures Mix(channels, i).1 >= 1
  {
    if |channels| > 1 {
      FirstChannelContributes(channels[..|channels| - 1], i);
    }
  }

  function Mono(channels: seq<seq<real>>, i: nat): real
    requires channels != [] && i < |channels[0]|
  {
    var used := channels[..Least(|channels|, MAX_INPUT_CHANNELS)];
    FirstChannelContributes(used, i);
    Mix(used, i).0 / Mix(used, i).1 as real
  }

  /** The mono samples of one render quantum. */
  function MonoStream(channels: seq<seq<real>>): seq<real>
    requires channels != []
  {
    seq(|channels[0]|, i requires 0 <= i < |channels[0]| => Mono(channels, i))
  }

  /** Samples `a` to `b` of every channel, as far as the channel goes. */
  function SliceChannels(channels: seq<seq<real>>, a: nat, b: nat): seq<seq<real>>
    requires a <= b
  {
    seq(|channels|, c requires 0 <= c < |channels| =>
      channels[c][Least(a, |channels[c]|)..Least(b, |channels[c]|)])
  }

  lemma {:induction false} MixOfSlice(channels: seq<seq<real>>, a: nat, b: nat, i: nat)
    requires a <= b && i < b - a
    ensures Mix(SliceChannels(channels, a, b), i) == Mix(channels, a + i)
  {
    if channels != [] {
      var earlier := channels[..|channels| - 1];
      MixOfSlice(earlier, a, b, i);
      var sliced := SliceChannels(channels, a, b);
      assert sliced[..|sliced| - 1] == SliceChannels(earlier, a, b);
    }
  }

  /** Cutting a render quantum in two anywhere gives the same mono samples, also when channels end early. */
  lemma SplittingQuantaChangesNothing(channels: seq<seq<real>>, k: nat)
    requires channels != [] && k <= |channels[0]|
    ensures MonoStream(channels)
            == MonoStream(SliceChannels(channels, 0, k)) + MonoStream(SliceChannels(channels, k, |channels[0]|))
  {
    var n := |channels[0]|;
    var left, right := SliceChannels(channels, 0, k), SliceChannels(channels, k, n);
    forall i | 0 <= i < n
      ensures MonoStream(channels)[i] == (MonoStream(left) + MonoStream(right))[i]
    {
      var used := Least(|channels|, MAX_INPUT_CHANNELS);
      if i < k {
        MixOfSlice(channels[..used], 0, k, i);
        assert left[..used] == SliceChannels(channels[..used], 0, k);
      } else {
        MixOfSlice(channels[..used], k, n, i - k);
        assert right[..used] == SliceChannels(channels[..used], k, n);
      }
    }
  }

  // ---------------------------------------------------------------- any cut of the input

  /** The mono samples of a quantum; one without channels has none. */
  function QuantumStream(input: seq<seq<real>>): seq<real> {
    if input == [] then [] else MonoStream(input)
  }

  /** The mono samples of several quanta. */
  function StreamOf(quanta: seq<seq<seq<real>>>): seq<real> {
    if quanta == [] then [] else QuantumStream(quanta[0]) + StreamOf(quanta[1..])
  }

  /** What feeding quanta leaves posted, and whether the processor is still alive. */
  datatype Played = Played(alive: bool, frames: seq<seq<int>>)

  /** Quantum by quantum, none too large, after `samples` and with credit for so many frames: the processor posts the
      frames due and stops at the quantum in which they outrun its credit. */
  function Play(samples: seq<real>, quanta: seq<seq<seq<real>>>, ratio: real, credit: nat): Played
    requires ratio > 0.0
    decreases |quanta|
  {
    if quanta == [] then Played(true, StreamFraming(samples, ratio).frames)
    else
      var stream := samples + QuantumStream(quanta[0]);
      var due := StreamFraming(stream, ratio).frames;
      if |due| <= credit then Play(stream, quanta[1..], ratio, credit) else Played(false, due[..credit])
  }

  /** However the input is cut, the processor ends as if it had been fed the whole stream at once. */
  lemma {:induction false} PlayIsTheStream(samples: seq<real>, quanta: seq<seq<seq<real>>>, ratio: real, credit: nat)
    requires ratio > 0.0 && |StreamFraming(samples, ratio).frames| <= credit
    ensures var due := StreamFraming(samples + StreamOf(quanta), ratio).frames;
            Play(samples, quanta, ratio, credit)
            == if |due| <= credit then Played(true, due) else Played(false, due[..credit])
    decreases |quanta|
  {
    var whole := samples + StreamOf(quanta);
    if quanta == [] {
      assert whole == samples;
    } else {
      var stream := samples + QuantumStream(quanta[0]);
      assert whole == stream + StreamOf(quanta[1..]);
      if |StreamFraming(stream, ratio).frames| <= credit {
        PlayIsTheStream(stream, quanta[1..], ratio, credit);
      } else {
        FramesGrow(stream, whole, ratio);
      }
    }
  }

  lemma FramesGrow(samples: seq<real>, more: seq<real>, ratio: real)
    requires ratio > 0.0 && samples <= more
    ensures StreamFraming(samples, ratio).frames <= StreamFraming(more, ratio).frames
  {
    ResampledIsPrefix(samples, more, ratio);
    StreamFramesArePrefix(Resampled(samples, ratio), more, ratio);
  }

  /** Two cuts of one stream make the same frames, and both stop or neither does. */
  lemma CutsPostTheSame(samples: seq<real>, a: seq<seq<seq<real>>>, b: seq<seq<seq<real>>>, ratio: real, credit: nat)
    requires ratio > 0.0 && |StreamFraming(samples, ratio).frames| <= credit && StreamOf(a) == StreamOf(b)
    ensures Play(samples, a, ratio, credit) == Play(samples, b, ratio, credit)
  {
    PlayIsTheStream(samples, a, ratio, credit);
    PlayIsTheStream(samples, b, ratio, credit);
  }

  // ---------------------------------------------------------------- growth of the stream

  /** When the next output is due. */
  lemma DueExactly(n: nat, ratio: real, m: nat)
    requires ratio > 0.0 && n >= 2
    ensures m as real * ratio <= (n - 1) as real <==> m < OutputCount(n, ratio)
  {
    var q := (n - 1) as real / ratio;
    assert q * ratio == (n - 1) as real;
    Compare(m as real, q, ratio, (n - 1) as real);
  }

  /** The next output is never behind the newest sample. */
  lemma NextIsAhead(n: nat, ratio: real, m: nat)
    requires ratio > 0.0 && n >= 1 && m >= OutputCount(n, ratio)
    ensures (n - 1) as real <= m as real * ratio
  {
    if n >= 2 {
      DueExactly(n, ratio, m);
    } else {
      TimesIsMonotone(0.0, m as real, ratio);
    }
  }

  lemma ResampledAt(samples: seq<real>, ratio: real, k: nat)
    requires ratio > 0.0 && k < OutputCount(|samples|, ratio)
    ensures 0.0 <= k as real * ratio <= (|samples| - 1) as real
    ensures Resampled(samples, ratio)[k] == Interpolate(samples, k as real * ratio)
  {
    PositionInRange(|samples|, ratio, k);
  }

  lemma ResampledGrows(samples: seq<real>, sample: real, ratio: real)
    requires ratio > 0.0
    ensures Resampled(samples, ratio) <= Resampled(samples + [sample], ratio)
  {
    CountGrows(|samples|, |samples| + 1, ratio);
    forall k | 0 <= k < OutputCount(|samples|, ratio)
      ensures Resampled(samples, ratio)[k] == Resampled(samples + [sample], ratio)[k]
    {
      ResampledAt(samples, ratio, k);
      ResampledAt(samples + [sample], ratio, k);
      InterpolateIsStable(samples, sample, k as real * ratio);
    }
  }

  lemma {:induction false} ResampledIsPrefix(samples: seq<real>, more: seq<real>, ratio: real)
    requires ratio > 0.0 && samples <= more
    ensures Resampled(samples, ratio) <= Resampled(more, ratio)
  {
    if samples != more {
      var earlier := more[..|more| - 1];
      ResampledIsPrefix(samples, earlier, ratio);
      ResampledGrows(earlier, more[|more| - 1], ratio);
      assert earlier + [more[|more| - 1]] == more;
    }
  }

  /** The output due next, as the worklet computes it on the segment that ends at the newest sample. */
  lemma NextOutput(samples: seq<real>, ratio: real, m: nat, position: real)
    requires ratio > 0.0 && |samples| >= 2 && position == m as real * ratio
    requires OutputCount(|samples| - 1, ratio) <= m < OutputCount(|samples|, ratio)
    ensures 0.0 <= position - (|samples| - 2) as real <= 1.0
    ensures Resampled(samples, ratio)[m]
            == Lerp(samples[|samples| - 2], samples[|samples| - 1], position - (|samples| - 2) as real)
  {
    ResampledAt(samples, ratio, m);
    NextIsAhead(|samples| - 1, ratio, m);
    LastSegment(samples, position);
  }

  // ---------------------------------------------------------------- the frames of a sample stream

  function StreamFraming(samples: seq<real>, ratio: real): Framing
    requires ratio > 0.0
  {
    Framed(Pcm(Resampled(samples, ratio)))
  }

  lemma PcmPrefix(outputs: seq<real>, more: seq<real>)
    requires outputs <= more
    ensures Pcm(outputs) <= Pcm(more)
  {
  }

  lemma StreamFramesArePrefix(outputs: seq<real>, samples: seq<real>, ratio: real)
    requires ratio > 0.0 && outputs <= Resampled(samples, ratio)
    ensures Framed(Pcm(outputs)).frames <= StreamFraming(samples, ratio).frames
  {
    PcmPrefix(outputs, Resampled(samples, ratio));
    FramesArePrefix(Pcm(outputs), Pcm(Resampled(samples, ratio)));
  }
}
