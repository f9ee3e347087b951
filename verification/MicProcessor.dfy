/** The microphone worklet (public/worklets/suits-mic-processor.js): a processor that is fed render quanta,
    posts 20 ms PCM frames, and stops when the main thread falls eight frames behind.

    Messages posted to the port are kept in order in a field. */
module MicProcessor {
  import opened MicStream

  const TARGET_SAMPLE_RATE_HZ: real := 16000.0

  datatype Posted =
    | WorkletReady(sourceSampleRateHz: real)
    | WorkletArmed
    | WorkletError(code: string)
    | PcmFrame(sequence: nat, pcm: seq<int>)

  datatype PortMessage = Stop | Arm(sequence: int) | AckFrame(sequence: int) | OtherMessage

  /** The frame messages of a framing, numbered from zero. */
  function FrameMessages(frames: seq<seq<int>>): seq<Posted> {
    seq(|frames|, i requires 0 <= i < |frames| => PcmFrame(i, frames[i]))
  }

  function OnlyFrames(posted: seq<Posted>): seq<Posted> {
    if posted == [] then []
    else
      var earlier, last := OnlyFrames(posted[..|posted| - 1]), posted[|posted| - 1];
      if last.PcmFrame? then earlier + [last] else earlier
  }

  lemma OnePosted(posted: seq<Posted>, message: Posted)
    ensures OnlyFrames(posted + [message])
            == if message.PcmFrame? then OnlyFrames(posted) + [message] else OnlyFrames(posted)
  {
    assert (posted + [message])[..|posted|] == posted;
  }

  ghost predicate FramesInOrder(frames: seq<seq<int>>, sequence: nat, sent: seq<Posted>) {
    sequence <= |frames| && sent == FrameMessages(frames[..sequence])
  }

  /** The outputs so far are those due, and the next one's position is known. */
  ghost predicate Summarises(samples: seq<real>, outputs: seq<real>, ratio: real, next: real)
    requires ratio > 0.0
  {
    outputs == Resampled(samples, ratio) && next == Multiple(|outputs|, ratio)
  }

  /** Highest number of frames a consumer that acknowledged up to `lastAcknowledged` can have been sent. */
  function Credit(lastAcknowledged: int): int {
    lastAcknowledged + 1 + MAX_IN_FLIGHT_FRAMES
  }

  lemma OneMoreFrame(frames: seq<seq<int>>, n: nat)
    requires |frames| == n + 1
    ensures frames[..n + 1] == frames
    ensures FrameMessages(frames) == FrameMessages(frames[..n]) + [PcmFrame(n, frames[n])]
  {
  }

  class Processor {
    var active: bool
    var armed: bool
    var hasPreviousSample: bool
    var previousSample: real
    var sourceSampleIndex: int
    var nextOutputPosition: real
    const sourceSamplesPerOutput: real
    var outputFrame: array<int>
    var outputFrameLength: nat
    var sequence: nat
    var inFlightFrames: nat
    var lastAcknowledgedSequence: int
    var posted: seq<Posted>

    /** The mono samples fed so far, and the outputs appended so far. */
    ghost var samples: seq<real>
    ghost var outputs: seq<real>

    /** Flow control: what was sent is what was acknowledged and what is in flight, at most eight. */
    predicate FlowControlled()
      reads this
    {
      && sequence == lastAcknowledgedSequence + 1 + inFlightFrames
      && inFlightFrames <= MAX_IN_FLIGHT_FRAMES && -1 <= lastAcknowledgedSequence
    }

    /** The frames posted are the first `sequence` frames of the outputs, numbered in order. */
    ghost predicate PostedInOrder()
      reads this
    {
      FramesInOrder(Framed(Pcm(outputs)).frames, sequence, OnlyFrames(posted))
    }

    /** While active every full frame has been posted, and the buffer holds the rest. */
    ghost predicate FramesPosted()
      reads this, outputFrame
    {
      var framing := Framed(Pcm(outputs));
      && outputFrame.Length == FRAME_SAMPLES && outputFrameLength < FRAME_SAMPLES
      && PostedInOrder()
      && (active ==> sequence == |framing.frames| && outputFrame[..outputFrameLength] == framing.partial)
    }

    /** While active, the resampler's registers summarise the samples fed so far. */
    ghost predicate Resampling()
      reads this
    {
      active ==>
        && sourceSamplesPerOutput > 0.0
        && Summarises(samples, outputs, sourceSamplesPerOutput, nextOutputPosition)
        && (hasPreviousSample <==> samples != [])
        && sourceSampleIndex == (if samples == [] then 0 else |samples| - 1)
        && (samples != [] ==> previousSample == samples[|samples| - 1])
    }

    ghost predicate Valid()
      reads this, outputFrame
    {
      && FlowControlled() && FramesPosted() && Resampling()
      && (active && !armed ==> samples == [])
    }

    constructor (sampleRate: real)
      ensures Valid() && fresh(outputFrame) && !armed && samples == []
      ensures sourceSamplesPerOutput == sampleRate / TARGET_SAMPLE_RATE_HZ
      ensures active <==> sampleRate > 0.0
      ensures posted == [if active then WorkletReady(sampleRate) else WorkletError("INVALID_SOURCE_SAMPLE_RATE")]
    {
      active, armed, hasPreviousSample, previousSample := true, false, false, 0.0;
      sourceSampleIndex, nextOutputPosition := 0, 0.0;
      sourceSamplesPerOutput := sampleRate / TARGET_SAMPLE_RATE_HZ;
      outputFrame := new int[FRAME_SAMPLES](_ => 0);
      outputFrameLength, sequence, inFlightFrames, lastAcknowledgedSequence := 0, 0, 0, -1;
      samples, outputs := [], [];
      if sampleRate / TARGET_SAMPLE_RATE_HZ <= 0.0 {
        active := false;
        posted := [WorkletError("INVALID_SOURCE_SAMPLE_RATE")];
      } else {
        posted := [WorkletReady(sampleRate)];
      }
      new;
      NothingYet(sourceSamplesPerOutput, posted[0]);
    }

    method Fail(code: string)
      requires FlowControlled() && PostedInOrder() && outputFrame.Length == FRAME_SAMPLES
      requires active || Valid()
      modifies `active, `armed, `outputFrameLength, `posted, outputFrame
      ensures Valid() && !active
      ensures old(active) ==> !armed && posted == old(posted) + [WorkletError(code)]
      ensures !old(active) ==> armed == old(armed) && posted == old(posted)
    {
      if !active {
        return;
      }
      Close();
      OnePosted(posted, WorkletError(code));
      posted := posted + [WorkletError(code)];
    }

    /** Stops capturing and wipes the buffer. */
    method Close()
      requires FlowControlled() && PostedInOrder() && outputFrame.Length == FRAME_SAMPLES
      modifies `active, `armed, `outputFrameLength, outputFrame
      ensures Valid() && !active && !armed
    {
      active := false;
      armed := false;
      forall i | 0 <= i < outputFrame.Length {
        outputFrame[i] := 0;
      }
      outputFrameLength := 0;
    }

    method OnStop()
      requires Valid()
      modifies `active, `armed, `outputFrameLength, outputFrame
      ensures Valid() && !active
    {
      Close();
    }

    /** Before it is armed a processor has consumed and sent nothing. */
    lemma UnarmedIsFresh()
      requires Valid() && active && !armed
      ensures sequence == 0 && inFlightFrames == 0
    {
      assert Resampled(samples, sourceSamplesPerOutput) == [];
      assert Pcm(outputs) == [];
    }

    method OnArm(requested: int)
      requires Valid() && active
      modifies `active, `armed, `outputFrameLength, `posted, outputFrame
      ensures Valid() && OnlyFrames(posted) == OnlyFrames(old(posted))
      ensures active <==> !old(armed) && requested == 0
      ensures active ==> armed && posted == old(posted) + [WorkletArmed]
      ensures !active ==> posted == old(posted) + [WorkletError("INVALID_CAPTURE_ARM")]
    {
      if !armed {
        UnarmedIsFresh();
      }
      if armed || requested != 0 || sequence != 0 || inFlightFrames != 0 {
        OnePosted(posted, WorkletError("INVALID_CAPTURE_ARM"));
        Fail("INVALID_CAPTURE_ARM");
      } else {
        AcceptArm();
      }
    }

    method AcceptArm()
      requires Valid() && active && !armed
      modifies `armed, `posted
      ensures Valid() && armed && OnlyFrames(posted) == OnlyFrames(old(posted))
      ensures posted == old(posted) + [WorkletArmed]
    {
      armed := true;
      OnePosted(posted, WorkletArmed);
      posted := posted + [WorkletArmed];
      assert OnlyFrames(posted) == OnlyFrames(old(posted));
      assert PostedInOrder();
    }

    method OnAck(acknowledged: int)
      requires Valid() && active && armed
      modifies `active, `armed, `outputFrameLength, `posted, `lastAcknowledgedSequence, `inFlightFrames, outputFrame
      ensures Valid() && OnlyFrames(posted) == OnlyFrames(old(posted))
      ensures active <==> acknowledged == old(lastAcknowledgedSequence) + 1 && old(inFlightFrames) > 0
      ensures active ==> armed && lastAcknowledgedSequence == acknowledged
                         && inFlightFrames == old(inFlightFrames) - 1 && posted == old(posted)
      ensures !active ==> posted == old(posted) + [WorkletError("INVALID_FRAME_ACK")]
    {
      if acknowledged != lastAcknowledgedSequence + 1 || acknowledged >= sequence || inFlightFrames <= 0 {
        OnePosted(posted, WorkletError("INVALID_FRAME_ACK"));
        Fail("INVALID_FRAME_ACK");
        return;
      }
      lastAcknowledgedSequence := acknowledged;
      inFlightFrames := inFlightFrames - 1;
    }

    /** The port's message handler: it neither consumes samples nor sends frames. */
    method OnMessage(message: PortMessage)
      requires Valid()
      modifies `active, `armed, `outputFrameLength, `posted, `lastAcknowledgedSequence, `inFlightFrames, outputFrame
      ensures Valid() && OnlyFrames(posted) == OnlyFrames(old(posted))
      ensures message.Stop? ==> !active
      ensures message.Arm? && old(active) ==> (active <==> !old(armed) && message.sequence == 0)
      ensures message.AckFrame? && old(active) && old(armed) ==>
                && (active <==> message.sequence == old(lastAcknowledgedSequence) + 1 && old(inFlightFrames) > 0)
                && (active ==> lastAcknowledgedSequence == message.sequence)
      ensures message.OtherMessage? || (!old(active) && !message.Stop?) || (message.AckFrame? && !old(armed)) ==>
                active == old(active) && armed == old(armed) && posted == old(posted)
    {
      if message.Stop? {
        OnStop();
        return;
      }
      if message.Arm? && active {
        OnArm(message.sequence);
        return;
      }
      if message.AckFrame? && active && armed {
        OnAck(message.sequence);
      }
    }

    // -------------------------------------------------------------- outputs

    /** Posts the completed buffer and starts a new one. */
    method SendFrame()
      requires FlowControlled() && Stored() && active && inFlightFrames < MAX_IN_FLIGHT_FRAMES
      requires outputFrameLength == FRAME_SAMPLES
      modifies `outputFrame, `outputFrameLength, `inFlightFrames, `sequence, `posted
      ensures FlowControlled() && FramesPosted() && fresh(outputFrame)
      ensures sequence == old(sequence) + 1
    {
      OneMoreFrame(Framed(Pcm(outputs)).frames, sequence);
      var pcm := outputFrame[..];
      outputFrame := new int[FRAME_SAMPLES];
      outputFrameLength := 0;
      inFlightFrames := inFlightFrames + 1;
      OnePosted(posted, PcmFrame(sequence, pcm));
      posted := posted + [PcmFrame(sequence, pcm)];
      sequence := sequence + 1;
      assert outputFrame[..outputFrameLength] == [];
    }

    /** The buffer after one more sample is the unfinished frame, or a finished one not yet sent. */
    ghost predicate Stored()
      reads this, outputFrame
    {
      var framing := Framed(Pcm(outputs));
      && outputFrame.Length == FRAME_SAMPLES && outputFrameLength <= FRAME_SAMPLES && PostedInOrder()
      && if outputFrameLength < FRAME_SAMPLES
         then sequence == |framing.frames| && outputFrame[..outputFrameLength] == framing.partial
         else |framing.frames| == sequence + 1 && framing.partial == [] && outputFrame[..] == framing.frames[sequence]
    }

    method StoreSample(sample: real)
      requires FramesPosted() && active
      modifies `outputFrameLength, `outputs, outputFrame
      ensures Stored() && outputs == old(outputs) + [sample]
    {
      ghost var before := Framed(Pcm(outputs));
      OneMoreOutput(outputs, sample);
      outputs := outputs + [sample];
      outputFrame[outputFrameLength] := PcmSample(sample);
      outputFrameLength := outputFrameLength + 1;
      assert outputFrame[..outputFrameLength] == before.partial + [PcmSample(sample)];
      if outputFrameLength == FRAME_SAMPLES {
        assert outputFrame[..] == outputFrame[..outputFrameLength];
        assert Framed(Pcm(outputs)).frames == before.frames + [outputFrame[..]];
        assert Framed(Pcm(outputs)).frames[..sequence] == before.frames[..sequence];
      }
    }

    /** Appends one output; a completed frame is sent, or fails the processor when eight are in flight. */
    method AppendOutput(sample: real) returns (ok: bool)
      requires FlowControlled() && FramesPosted() && active
      modifies `active, `armed, `outputFrame, `outputFrameLength, `inFlightFrames, `sequence, `posted, `outputs,
               outputFrame
      ensures FlowControlled() && FramesPosted() && outputs == old(outputs) + [sample]
      ensures outputFrame == old(outputFrame) || fresh(outputFrame)
      ensures ok == active && (ok ==> armed == old(armed))
      ensures ok <==> |Framed(Pcm(outputs)).frames| <= Credit(lastAcknowledgedSequence)
      ensures !ok ==> !armed && sequence == Credit(lastAcknowledgedSequence)
                      && posted == old(posted) + [WorkletError("FRAME_CREDIT_OVERRUN")]
    {
      StoreSample(sample);
      if outputFrameLength != FRAME_SAMPLES {
        return true;
      }
      if inFlightFrames >= MAX_IN_FLIGHT_FRAMES {
        Fail("FRAME_CREDIT_OVERRUN");
        return false;
      }
      SendFrame();
      ok := true;
    }

    // -------------------------------------------------------------- samples

    /** The first sample of a stream only primes the registers. */
    lemma FirstSampleHasNoOutput(sample: real)
      requires sourceSamplesPerOutput > 0.0
      ensures Resampled([sample], sourceSamplesPerOutput) == []
    {
    }

    /** Between two outputs of one sample. */
    ghost predicate Emitting(sample: real)
      reads this, outputFrame
    {
      && active && armed && FlowControlled() && FramesPosted()
      && sourceSamplesPerOutput > 0.0 && samples != []
      && sourceSampleIndex == |samples| - 1 && previousSample == samples[|samples| - 1]
      && Partway(samples, sample, sourceSamplesPerOutput, outputs, nextOutputPosition)
    }

    /** The loop body: one due output, and the position of the next. */
    method EmitOne(sample: real) returns (ok: bool)
      requires Emitting(sample) && nextOutputPosition <= |samples| as real
      modifies `active, `armed, `outputFrame, `outputFrameLength, `inFlightFrames, `sequence, `posted, `outputs,
               `nextOutputPosition, outputFrame
      ensures FlowControlled() && FramesPosted() && (outputFrame == old(outputFrame) || fresh(outputFrame))
      ensures |outputs| == |old(outputs)| + 1
      ensures Partway(samples, sample, sourceSamplesPerOutput, outputs,
                      old(nextOutputPosition) + sourceSamplesPerOutput)
      ensures ok == active && (ok ==> Emitting(sample))
      ensures !ok ==> |Framed(Pcm(outputs)).frames| > Credit(lastAcknowledgedSequence) == sequence
    {
      DueOutput(samples, sample, sourceSamplesPerOutput, outputs, nextOutputPosition);
      var fraction := nextOutputPosition - sourceSampleIndex as real;
      var interpolated := Lerp(previousSample, sample, fraction);
      ok := AppendOutput(interpolated);
      if ok {
        nextOutputPosition := nextOutputPosition + sourceSamplesPerOutput;
      }
    }

    /** The resampler's loop: every output due up to the newest sample. */
    method EmitDue(sample: real, currentSampleIndex: int) returns (ok: bool)
      requires Valid() && active && armed && samples != [] && currentSampleIndex == sourceSampleIndex + 1
      modifies `active, `armed, `outputFrame, `outputFrameLength, `inFlightFrames, `sequence, `posted, `outputs,
               `nextOutputPosition, outputFrame
      ensures FlowControlled() && FramesPosted() && (outputFrame == old(outputFrame) || fresh(outputFrame))
      ensures ok == active && (ok ==> armed)
      ensures outputs <= Resampled(samples + [sample], sourceSamplesPerOutput)
      ensures ok ==> Summarises(samples + [sample], outputs, sourceSamplesPerOutput, nextOutputPosition)
      ensures !ok ==> |Framed(Pcm(outputs)).frames| > Credit(lastAcknowledgedSequence) == sequence
    {
      ResampledGrows(samples, sample, sourceSamplesPerOutput);
      while nextOutputPosition <= currentSampleIndex as real
        invariant Emitting(sample)
        invariant outputFrame == old(outputFrame) || fresh(outputFrame)
        decreases OutputCount(|samples| + 1, sourceSamplesPerOutput) - |outputs|
      {
        var emitted := EmitOne(sample);
        if !emitted {
          return false;
        }
      }
      AllDue(samples, sample, sourceSamplesPerOutput, outputs, nextOutputPosition);
      ok := true;
    }

    method Prime(sample: real)
      requires Valid() && active && armed && !hasPreviousSample
      modifies `hasPreviousSample, `previousSample, `samples
      ensures Valid() && samples == [sample] && outputs == []
    {
      hasPreviousSample := true;
      previousSample := sample;
      samples := samples + [sample];
      FirstSampleHasNoOutput(sample);
    }

    /** `resample`. */
    method Resample(sample: real) returns (ok: bool)
      requires Valid() && active && armed
      modifies this, outputFrame
      ensures Valid() && samples == old(samples) + [sample]
      ensures outputFrame == old(outputFrame) || fresh(outputFrame)
      ensures lastAcknowledgedSequence == old(lastAcknowledgedSequence) && ok == active && (ok ==> armed)
      ensures outputs <= Resampled(samples, sourceSamplesPerOutput)
      ensures !ok ==> |Framed(Pcm(outputs)).frames| > Credit(lastAcknowledgedSequence) == sequence
    {
      if !hasPreviousSample {
        Prime(sample);
        return true;
      }
      var currentSampleIndex := sourceSampleIndex + 1;
      ok := EmitDue(sample, currentSampleIndex);
      samples := samples + [sample];
      if !ok {
        return false;
      }
      previousSample := sample;
      sourceSampleIndex := currentSampleIndex;
      assert FramesPosted() && Resampling();
    }

    // -------------------------------------------------------------- render quanta

    /** The channel loop: the average of the channels that have a sample here. */
    method MixDown(channels: seq<seq<real>>, sampleIndex: nat) returns (mono: real)
      requires channels != [] && sampleIndex < |channels[0]|
      ensures mono == Mono(channels, sampleIndex)
    {
      var channelCount := Least(|channels|, MAX_INPUT_CHANNELS);
      ghost var used := channels[..channelCount];
      var sum, contributingChannels := 0.0, 0;
      for channelIndex := 0 to channelCount
        invariant (sum, contributingChannels) == Mix(used[..channelIndex], sampleIndex)
      {
        assert used[..channelIndex + 1][..channelIndex] == used[..channelIndex];
        var channel := channels[channelIndex];
        if sampleIndex >= |channel| {
          continue;
        }
        sum := sum + channel[sampleIndex];
        contributingChannels := contributingChannels + 1;
      }
      assert used[..channelCount] == used;
      FirstChannelContributes(used, sampleIndex);
      mono := sum / contributingChannels as real;
    }

    /** The sample loop of `process`: feeds the quantum until its end or until a frame overruns the credit. */
    method Feed(channels: seq<seq<real>>) returns (ok: bool)
      requires Valid() && active && armed && channels != []
      modifies this, outputFrame
      ensures Valid() && ok == active
      ensures lastAcknowledgedSequence == old(lastAcknowledgedSequence)
      ensures samples <= old(samples) + MonoStream(channels)
      ensures outputs <= Resampled(samples, sourceSamplesPerOutput)
      ensures ok ==> armed && samples == old(samples) + MonoStream(channels)
      ensures !ok ==> |Framed(Pcm(outputs)).frames| > Credit(lastAcknowledgedSequence) == sequence
    {
      var sampleCount := |channels[0]|;
      for sampleIndex := 0 to sampleCount
        invariant Valid() && active && armed
        invariant outputFrame == old(outputFrame) || fresh(outputFrame)
        invariant lastAcknowledgedSequence == old(lastAcknowledgedSequence)
        invariant samples == old(samples) + MonoStream(channels)[..sampleIndex]
      {
        var mono := MixDown(channels, sampleIndex);
        OneMoreMono(old(samples), channels, sampleIndex);
        var resampled := Resample(mono);
        if !resampled {
          return false;
        }
      }
      ok := true;
    }

    /** `process`. Fed a quantum while armed, the processor has consumed exactly its mono samples and posted
        exactly the frames of everything fed so far, or those frames outran the acknowledgements by more
        than eight, and it has stopped after the last frame there was credit for. */
    method Process(input: seq<seq<real>>) returns (alive: bool)
      requires Valid()
      modifies this, outputFrame
      ensures Valid() && lastAcknowledgedSequence == old(lastAcknowledgedSequence)
      ensures alive == active
      ensures !old(active) || !old(armed) || input == [] ==>
                active == old(active) && posted == old(posted) && samples == old(samples)
      ensures old(active) && old(armed) && input != [] && |input[0]| > MAX_RENDER_QUANTUM_SAMPLES ==>
                !active && posted == old(posted) + [WorkletError("INPUT_QUANTUM_TOO_LARGE")]
      ensures old(active) && old(armed) && input != [] && |input[0]| <= MAX_RENDER_QUANTUM_SAMPLES ==>
                var stream := old(samples) + MonoStream(input);
                var due := StreamFraming(stream, sourceSamplesPerOutput).frames;
                && (alive <==> |due| <= Credit(lastAcknowledgedSequence))
                && (alive ==> armed && samples == stream)
                && sequence == (if alive then |due| else Credit(lastAcknowledgedSequence))
                && OnlyFrames(posted) == FrameMessages(due[..sequence])
                && OnlyFrames(posted)
                   == FrameMessages(Play(old(samples), [input], sourceSamplesPerOutput,
                                         Credit(lastAcknowledgedSequence)).frames)
    {
      if !active {
        return false;
      }
      if !armed {
        return true;
      }
      if |input| == 0 {
        return true;
      }
      if |input[0]| > MAX_RENDER_QUANTUM_SAMPLES {
        active := false;
        OnePosted(posted, WorkletError("INPUT_QUANTUM_TOO_LARGE"));
        posted := posted + [WorkletError("INPUT_QUANTUM_TOO_LARGE")];
        return false;
      }
      alive := Feed(input);
      QuantumEnds(old(samples), input, samples, outputs, sourceSamplesPerOutput, sequence, OnlyFrames(posted),
                  Credit(lastAcknowledgedSequence), alive);
    }
  }

  lemma OneMoreMono(before: seq<real>, channels: seq<seq<real>>, i: nat)
    requires channels != [] && i < |channels[0]|
    ensures (before + MonoStream(channels)[..i]) + [Mono(channels, i)] == before + MonoStream(channels)[..i + 1]
    ensures before + MonoStream(channels)[..i + 1] <= before + MonoStream(channels)
    ensures i + 1 == |channels[0]| ==> MonoStream(channels)[..i + 1] == MonoStream(channels)
  {
    assert MonoStream(channels)[..i + 1] == MonoStream(channels)[..i] + [Mono(channels, i)];
  }

  /** How a quantum ends: its samples are used up, and every frame due is sent; or the frames outran the credit. */
  lemma QuantumEnds(before: seq<real>, input: seq<seq<real>>, fed: seq<real>, outputs: seq<real>, ratio: real,
                    sequence: nat, sent: seq<Posted>, credit: nat, ok: bool)
    requires ratio > 0.0 && input != [] && fed <= before + MonoStream(input) && outputs <= Resampled(fed, ratio)
    requires FramesInOrder(Framed(Pcm(outputs)).frames, sequence, sent)
    requires ok ==> fed == before + MonoStream(input) && outputs == Resampled(fed, ratio)
                    && sequence == |Framed(Pcm(outputs)).frames| <= credit
    requires !ok ==> |Framed(Pcm(outputs)).frames| > credit == sequence
    ensures var due := StreamFraming(before + MonoStream(input), ratio).frames;
            && (ok <==> |due| <= credit) && sequence == (if ok then |due| else credit)
            && sequence <= |due| && sent == FrameMessages(due[..sequence])
            && sent == FrameMessages(Play(before, [input], ratio, credit).frames)
  {
    var stream := before + MonoStream(input);
    ResampledIsPrefix(fed, stream, ratio);
    StreamFramesArePrefix(outputs, stream, ratio);
    var frames, due := Framed(Pcm(outputs)).frames, StreamFraming(stream, ratio).frames;
    assert due[..sequence] == frames[..sequence];
    PlayOne(before, input, ratio, credit);
    assert ok ==> due[..sequence] == due;
  }

  /** Playing one quantum. */
  lemma PlayOne(samples: seq<real>, input: seq<seq<real>>, ratio: real, credit: nat)
    requires ratio > 0.0 && input != []
    ensures var due := StreamFraming(samples + MonoStream(input), ratio).frames;
            Play(samples, [input], ratio, credit)
            == if |due| <= credit then Played(true, due) else Played(false, due[..credit])
  {
    assert [input][1..] == [];
    assert Play(samples + MonoStream(input), [], ratio, credit)
        == Played(true, StreamFraming(samples + MonoStream(input), ratio).frames);
  }

  /** Between acknowledgements, what an active processor has posted and holds depends only on the samples it was fed. */
  lemma SameSamplesSameFrames(a: Processor, b: Processor)
    requires a.Valid() && b.Valid() && a.active && b.active
    requires a.sourceSamplesPerOutput == b.sourceSamplesPerOutput && a.samples == b.samples
    ensures a.sequence == b.sequence && OnlyFrames(a.posted) == OnlyFrames(b.posted)
    ensures a.outputFrame[..a.outputFrameLength] == b.outputFrame[..b.outputFrameLength]
    ensures a.nextOutputPosition == b.nextOutputPosition && a.sourceSampleIndex == b.sourceSampleIndex
  {
  }

  /** Before any sample there is nothing to post. */
  lemma NothingYet(ratio: real, message: Posted)
    ensures Framed(Pcm([])) == Framing([], [])
    ensures !message.PcmFrame? ==> OnlyFrames([message]) == FrameMessages([])
    ensures ratio > 0.0 ==> Resampled([], ratio) == []
  {
    OnePosted([], message);
    assert [] + [message] == [message];
  }

  /** The position of the m-th output, as the worklet reaches it by adding. */
  function Multiple(m: nat, ratio: real): real {
    if m == 0 then 0.0 else Multiple(m - 1, ratio) + ratio
  }

  lemma {:induction false} MultipleIsProduct(m: nat, ratio: real)
    ensures Multiple(m, ratio) == m as real * ratio
  {
    if m > 0 {
      MultipleIsProduct(m - 1, ratio);
      OneMoreTimes((m - 1) as real, m as real, ratio);
    }
  }

  lemma OneMoreTimes(x: real, y: real, ratio: real)
    requires y == x + 1.0
    ensures y * ratio == x * ratio + ratio
  {
    assert (x + 1.0) * ratio == x * ratio + 1.0 * ratio;
  }

  /** A position not past the newest sample is the next output's, and lies on the newest segment. */
  lemma DueNow(samples: seq<real>, sample: real, ratio: real, m: nat, position: real)
    requires ratio > 0.0 && samples != [] && OutputCount(|samples|, ratio) <= m
    requires position == Multiple(m, ratio) && position <= |samples| as real
    ensures m < OutputCount(|samples| + 1, ratio)
    ensures Resampled(samples + [sample], ratio)[m]
            == Lerp(samples[|samples| - 1], sample, position - (|samples| - 1) as real)
    ensures Multiple(m + 1, ratio) == position + ratio
  {
    MultipleIsProduct(m, ratio);
    DueExactly(|samples| + 1, ratio, m);
    NextOutput(samples + [sample], ratio, m, position);
  }

  /** In the middle of a sample: some outputs of the longer stream, all of the shorter one's among them. */
  ghost predicate Partway(samples: seq<real>, sample: real, ratio: real, outputs: seq<real>, next: real)
    requires ratio > 0.0
  {
    && outputs <= Resampled(samples + [sample], ratio) && OutputCount(|samples|, ratio) <= |outputs|
    && next == Multiple(|outputs|, ratio)
  }

  /** The output that is due now is the longer stream's next one. */
  lemma DueOutput(samples: seq<real>, sample: real, ratio: real, outputs: seq<real>, position: real)
    requires ratio > 0.0 && samples != [] && Partway(samples, sample, ratio, outputs, position)
    requires position <= |samples| as real
    ensures Partway(samples, sample, ratio,
                    outputs + [Lerp(samples[|samples| - 1], sample, position - (|samples| - 1) as real)],
                    position + ratio)
    ensures |outputs| < OutputCount(|samples| + 1, ratio)
  {
    DueNow(samples, sample, ratio, |outputs|, position);
  }

  lemma NotDueYet(samples: seq<real>, sample: real, ratio: real, m: nat, position: real)
    requires ratio > 0.0 && samples != [] && position == Multiple(m, ratio) && position > |samples| as real
    ensures OutputCount(|samples| + 1, ratio) <= m
  {
    MultipleIsProduct(m, ratio);
    DueExactly(|samples| + 1, ratio, m);
  }

  /** When no output is due any more, the outputs are those of the longer stream. */
  lemma AllDue(samples: seq<real>, sample: real, ratio: real, outputs: seq<real>, position: real)
    requires ratio > 0.0 && samples != [] && Partway(samples, sample, ratio, outputs, position)
    requires position > |samples| as real
    ensures Summarises(samples + [sample], outputs, ratio, position)
  {
    NotDueYet(samples, sample, ratio, |outputs|, position);
  }

  lemma OneMoreOutput(outputs: seq<real>, sample: real)
    ensures Framed(Pcm(outputs + [sample])) == Push(Framed(Pcm(outputs)), PcmSample(sample))
  {
    assert Pcm(outputs + [sample]) == Pcm(outputs) + [PcmSample(sample)];
    OneMoreSample(Pcm(outputs), PcmSample(sample));
  }
}
