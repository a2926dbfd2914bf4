/**
  `MyEffect::process` (EffectPlugin.cpp): maps the first three controls to
  an LFO rate, an LFO depth and a feedback gain, then runs two voices once
  per sample and writes the same mixed value to both output channels.

  As written, the code drives both voices with index 0, accumulates the
  voices' taps into a running sum `fDelSig` that is reset once per block
  (not per sample), and has no stereo routing, dry/wet control or voice-count
  selection; the model follows it in all of this.
 */
module Effect {
  import opened Numerics
  import Oscillators
  import Filters
  import Delays
  import Voices

  /** `fVoiceGain`: each voice's weight in the running sum. */
  const VOICE_GAIN: real := 0.5

  /** Control 0 (Rate) to LFO rate in Hz: a cubic curve onto [0.01, 0.1]. */
  function MapRate(p: real): (rate: real)
    ensures 0.0 <= p <= 1.0 ==> 0.01 <= rate <= 0.1
  {
    CubeUnit(p);
    p * p * p * 0.09 + 0.01
  }

  /** Control 1 (Depth) to LFO depth in seconds: a cubic curve onto [0.02, 0.05]. */
  function MapDepth(p: real): (depth: real)
    ensures 0.0 <= p <= 1.0 ==> 0.02 <= depth <= 0.05
  {
    CubeUnit(p);
    p * p * p * 0.03 + 0.02
  }

  /** Control 2 (Feedback) to feedback gain: linear onto [0, 0.5], 0 exactly at 0. */
  function MapFeedback(p: real): (gain: real)
    ensures 0.0 <= p <= 1.0 ==> 0.0 <= gain <= 0.5
    ensures gain == 0.0 <==> p == 0.0
  {
    p * 0.5
  }

  /** A control in [0, 1] has its cube in [0, 1]. */
  lemma CubeUnit(p: real)
    ensures 0.0 <= p <= 1.0 ==> 0.0 <= p * p * p <= 1.0
  {
    if 0.0 <= p <= 1.0 {
      MulNonNeg(p, p);
      MulNonNeg(p, 1.0 - p);
      MulNonNeg(p * p, p);
      MulNonNeg(p * p, 1.0 - p);
    }
  }

  /** The cube is monotone over all reals. */
  lemma CubeMonotone(p: real, q: real)
    requires p <= q
    ensures p * p * p <= q * q * q
  {
    var s := q * q + q * p + p * p;
    assert 2.0 * s == q * q + p * p + (q + p) * (q + p);
    SquareNonNeg(q);
    SquareNonNeg(p);
    SquareNonNeg(q + p);
    MulNonNeg(q - p, s);
    assert q * q * q - p * p * p == (q - p) * s;
  }

  /** Turning any of the three controls up never turns its mapped value down. */
  lemma MappingMonotone(p: real, q: real)
    requires p <= q
    ensures MapRate(p) <= MapRate(q)
    ensures MapDepth(p) <= MapDepth(q)
    ensures MapFeedback(p) <= MapFeedback(q)
  {
    CubeMonotone(p, q);
  }

  /** The mapped controls of one block. */
  datatype Controls = Controls(rate: real, depth: real, fbGain: real)

  /** The ranges the mapping produces from controls in [0, 1]. */
  predicate Tame(c: Controls) {
    && 0.01 <= c.rate <= 0.1
    && 0.02 <= c.depth <= 0.05
    && 0.0 <= c.fbGain <= 0.5
  }

  /**
    The control mapping at the top of `process`. The host supplies the
    controls in declaration order (Rate, Depth, Feedback, LPF Cutoff,
    Voices); control 3 is read into a voice count that is never used, so it
    has no counterpart here. Controls in [0, 1] map into the tame ranges.
   */
  function MapParameters(parameters: seq<real>): (c: Controls)
    requires |parameters| >= 4
    ensures c.rate == MapRate(parameters[0])
    ensures c.depth == MapDepth(parameters[1])
    ensures c.fbGain == MapFeedback(parameters[2])
    ensures (forall k :: 0 <= k < 3 ==> 0.0 <= parameters[k] <= 1.0) ==> Tame(c)
  {
    Controls(MapRate(parameters[0]), MapDepth(parameters[1]), MapFeedback(parameters[2]))
  }

  /**
    The longest delay time a voice can ask for with tame controls: twice the
    largest detuned depth, in seconds.
   */
  const MAX_DELAY: real := 2.0 * (0.05 + Voices.DETUNE)

  /** The fastest detuned LFO rate with tame controls, in Hz. */
  const MAX_LFO_RATE: real := 0.1 + Voices.DETUNE

  /**
    Sample rates at which the code never indexes outside a buffer: fast
    enough that the LFO moves less than a cycle per sample, and slow enough
    that `MAX_DELAY` seconds fit in the 384000-slot buffer (up to 3.2 MHz).
    This is sufficient for every control setting, not necessary. The code
    itself does not check the sample rate; outside `SafeRate`, some control
    settings can make reads leave the buffer, which is undefined behaviour.
   */
  predicate SafeRate(sampleRate: real) {
    MAX_LFO_RATE <= sampleRate && MAX_DELAY * sampleRate <= Delays.SIZE as real
  }

  /** The two voices the processing loop uses (`voice1`, `voice2`). */
  datatype Engine = Engine(voice1: Voices.Voice, voice2: Voices.Voice)

  /** Both voices ready, with smoothed delay times within `MAX_DELAY`. */
  predicate Ready(e: Engine) {
    Voices.Ready(e.voice1, MAX_DELAY) && Voices.Ready(e.voice2, MAX_DELAY)
  }

  /** The engine as constructed: two identical fresh voices, ready to run. */
  function New(): (e: Engine)
    ensures Ready(e) && e.voice1 == e.voice2
  {
    Engine(Voices.New(), Voices.New())
  }

  /** `fMix`: the mono average of the two input channels. */
  function Mix(x0: real, x1: real): (m: real)
    ensures Between(m, x0, x1)
    ensures 2.0 * m == x0 + x1
  {
    (x0 + x1) * 0.5
  }

  /**
    `after` is `before` one sample on: its cursor moved one slot and the
    output `out` was written into the slot reached, nothing else changing.
   */
  predicate Fed(before: Voices.Voice, after: Voices.Voice, out: real) {
    && Delays.Valid(before.delay)
    && after.delay.cursor == (before.delay.cursor + 1) % Delays.SIZE
    && after.delay.buffer == before.delay.buffer[after.delay.cursor := out]
  }

  /** The sample a voice read this sample: the slot it read, as it was BEFORE the write. */
  function Tap(before: Voices.Voice, after: Voices.Voice, sampleRate: real): real
    requires Delays.Valid(before.delay)
    requires 0 <= Delays.ReadSlot(after.delay, sampleRate) < Delays.SIZE
  {
    before.delay.buffer[Delays.ReadSlot(after.delay, sampleRate)]
  }

  /** One pass of the processing loop: the engine after it, the running sum, the output. */
  datatype Frame = Frame(engine: Engine, delSig: real, out: real)

  /**
    One pass of the processing loop, in the code's order: `voiceInit` on both
    voices (both with index 0), `process` on both, the running sum, the
    output, then `voiceFB(out)` on both.

    The contract says what that order means. Each voice read a slot inside
    its buffer, and it read the buffer as it was before this sample's write.
    The running sum grew by half of each voice's tap and was not reset. The
    output is the mono mix plus the running sum times the feedback gain. Both
    voices then received that same output in the slot their cursor moved to,
    and nothing else in their buffers changed. Each LFO advanced once with the
    same detuned rate and depth, and each smoother took that LFO output.
    Identical voices stay identical, and then the running sum grows by one
    whole tap.
   */
  function Step(e: Engine, c: Controls, x0: real, x1: real, delSig: real, sampleRate: real): (f: Frame)
    requires Ready(e) && Tame(c) && SafeRate(sampleRate)
    ensures Ready(f.engine)
    ensures Fed(e.voice1, f.engine.voice1, f.out) && Fed(e.voice2, f.engine.voice2, f.out)
    ensures 0 <= Delays.ReadSlot(f.engine.voice1.delay, sampleRate) < Delays.SIZE
    ensures 0 <= Delays.ReadSlot(f.engine.voice2.delay, sampleRate) < Delays.SIZE
    ensures f.delSig == delSig + VOICE_GAIN * Tap(e.voice1, f.engine.voice1, sampleRate)
                               + VOICE_GAIN * Tap(e.voice2, f.engine.voice2, sampleRate)
    ensures f.out == Mix(x0, x1) + f.delSig * c.fbGain
    ensures var g := Oscillators.Generate(e.voice1.osc, c.rate + Voices.Detune(0), c.depth + Voices.Detune(0), sampleRate);
      f.engine.voice1.osc == g.0 && f.engine.voice1.delTime == g.1
      && f.engine.voice1.delay.filter == Filters.Process(e.voice1.delay.filter, g.1).0
    ensures var g := Oscillators.Generate(e.voice2.osc, c.rate + Voices.Detune(0), c.depth + Voices.Detune(0), sampleRate);
      f.engine.voice2.osc == g.0 && f.engine.voice2.delTime == g.1
      && f.engine.voice2.delay.filter == Filters.Process(e.voice2.delay.filter, g.1).0
    ensures e.voice1 == e.voice2 ==>
      f.engine.voice1 == f.engine.voice2 && f.delSig == delSig + Tap(e.voice1, f.engine.voice1, sampleRate)
  {
    var mix := Mix(x0, x1);
    var i1 := Voices.Init(e.voice1, c.rate, c.depth, 0, sampleRate);
    var i2 := Voices.Init(e.voice2, c.rate, c.depth, 0, sampleRate);
    Voices.ProcessSafe(i1, sampleRate, MAX_DELAY);
    Voices.ProcessSafe(i2, sampleRate, MAX_DELAY);
    var (p1, y1) := Voices.Process(i1, sampleRate);
    var sum1 := delSig + y1 * VOICE_GAIN;
    var (p2, y2) := Voices.Process(i2, sampleRate);
    var sum2 := sum1 + y2 * VOICE_GAIN;
    var out := mix + sum2 * c.fbGain;
    Voices.FeedbackKeepsReady(p1, out, MAX_DELAY);
    Voices.FeedbackKeepsReady(p2, out, MAX_DELAY);
    Voices.FeedbackKeepsReadSlot(p1, out, sampleRate);
    Voices.FeedbackKeepsReadSlot(p2, out, sampleRate);
    Frame(Engine(Voices.Feedback(p1, out), Voices.Feedback(p2, out)), sum2, out)
  }

  /** The outcome of a block: final engine, final running sum, and both output channels. */
  datatype Run = Run(engine: Engine, delSig: real, out0: seq<real>, out1: seq<real>)

  /**
    The processing loop over two equally long input channels, one `Step` per
    sample, carrying the engine and the running sum from each sample to the
    next. Exactly one output sample per input sample is written to each
    channel, the two channels are identical, the engine stays ready, and
    identical voices stay identical for the whole block.
   */
  function Block(e: Engine, c: Controls, in0: seq<real>, in1: seq<real>, delSig: real, sampleRate: real): (r: Run)
    requires |in0| == |in1| && Ready(e) && Tame(c) && SafeRate(sampleRate)
    ensures Ready(r.engine)
    ensures |r.out0| == |in0| && r.out1 == r.out0
    ensures e.voice1 == e.voice2 ==> r.engine.voice1 == r.engine.voice2
    decreases |in0|
  {
    if |in0| == 0 then Run(e, delSig, [], [])
    else
      var f := Step(e, c, in0[0], in1[0], delSig, sampleRate);
      var rest := Block(f.engine, c, in0[1..], in1[1..], f.delSig, sampleRate);
      Run(rest.engine, rest.delSig, [f.out] + rest.out0, [f.out] + rest.out1)
  }

  /**
    `MyEffect::process` on `numSamples` samples: map the controls, start the
    running sum at 0, run the loop. With controls in [0, 1] and a safe sample
    rate every buffer access is in range; each channel receives exactly
    `numSamples` samples, the two channels carry the same values, and with the
    Feedback control at 0 every output sample is the mono mix of its inputs.
   */
  function Process(e: Engine, parameters: seq<real>, in0: seq<real>, in1: seq<real>,
                   numSamples: nat, sampleRate: real): (r: Run)
    requires |parameters| >= 4 && forall k :: 0 <= k < 3 ==> 0.0 <= parameters[k] <= 1.0
    requires numSamples <= |in0| && numSamples <= |in1|
    requires Ready(e) && SafeRate(sampleRate)
    ensures Ready(r.engine)
    ensures |r.out0| == numSamples && |r.out1| == numSamples
    ensures forall k :: 0 <= k < numSamples ==> r.out1[k] == r.out0[k]
    ensures e.voice1 == e.voice2 ==> r.engine.voice1 == r.engine.voice2
    ensures parameters[2] == 0.0 ==>
      forall k :: 0 <= k < numSamples ==> r.out0[k] == Mix(in0[k], in1[k])
  {
    var c := MapParameters(parameters);
    var r := Block(e, c, in0[..numSamples], in1[..numSamples], 0.0, sampleRate);
    assert parameters[2] == 0.0 ==> forall k :: 0 <= k < numSamples ==> r.out0[k] == Mix(in0[k], in1[k]) by {
      if parameters[2] == 0.0 {
        NoFeedbackIsMono(e, c, in0[..numSamples], in1[..numSamples], 0.0, sampleRate);
      }
    }
    r
  }

  /**
    With a feedback gain of 0 the running sum never reaches the output:
    every output sample is the mono mix of its two input samples.
   */
  lemma {:induction false} NoFeedbackIsMono(e: Engine, c: Controls, in0: seq<real>, in1: seq<real>,
                                            delSig: real, sampleRate: real)
    requires |in0| == |in1| && Ready(e) && Tame(c) && SafeRate(sampleRate)
    requires c.fbGain == 0.0
    ensures forall k :: 0 <= k < |in0| ==>
      Block(e, c, in0, in1, delSig, sampleRate).out0[k] == Mix(in0[k], in1[k])
    decreases |in0|
  {
    if |in0| > 0 {
      var f := Step(e, c, in0[0], in1[0], delSig, sampleRate);
      NoFeedbackIsMono(f.engine, c, in0[1..], in1[1..], f.delSig, sampleRate);
      var r := Block(e, c, in0, in1, delSig, sampleRate);
      forall k | 0 <= k < |in0|
        ensures r.out0[k] == Mix(in0[k], in1[k])
      {
        if k > 0 {
          assert in0[k] == in0[1..][k - 1] && in1[k] == in1[1..][k - 1];
        }
      }
    }
  }

  /**
    Over a block, each voice's buffer and cursor evolve exactly as if the
    block's outputs had been cycled into it one by one: every output sample
    is fed back, in order, into both voices, and nothing else is written.
    Together with `Delays.CyclesRecord` this says that the delay lines hold
    the most recent outputs, newest at the cursor.
   */
  lemma {:induction false} BlockFeedsOutputBack(e: Engine, c: Controls, in0: seq<real>, in1: seq<real>,
                                                delSig: real, sampleRate: real)
    requires |in0| == |in1| && Ready(e) && Tame(c) && SafeRate(sampleRate)
    ensures var r := Block(e, c, in0, in1, delSig, sampleRate);
      && r.engine.voice1.delay == Delays.Cycles(e.voice1.delay, r.out0).(filter := r.engine.voice1.delay.filter)
      && r.engine.voice2.delay == Delays.Cycles(e.voice2.delay, r.out0).(filter := r.engine.voice2.delay.filter)
    decreases |in0|
  {
    if |in0| > 0 {
      var f := Step(e, c, in0[0], in1[0], delSig, sampleRate);
      var rest := Block(f.engine, c, in0[1..], in1[1..], f.delSig, sampleRate);
      BlockFeedsOutputBack(f.engine, c, in0[1..], in1[1..], f.delSig, sampleRate);
      var r := Block(e, c, in0, in1, delSig, sampleRate);
      assert r.out0 == [f.out] + rest.out0;
      assert r.out0[1..] == rest.out0;
      FedIsCycle(e.voice1, f.engine.voice1, f.out);
      FedIsCycle(e.voice2, f.engine.voice2, f.out);
      Delays.CyclesIgnoreFilter(Delays.Cycle(e.voice1.delay, f.out), f.engine.voice1.delay.filter, rest.out0);
      Delays.CyclesIgnoreFilter(Delays.Cycle(e.voice2.delay, f.out), f.engine.voice2.delay.filter, rest.out0);
    }
  }

  /**
    A delay line whose smoothed delay is within `MAX_DELAY` seconds at a safe
    sample rate reads inside its buffer: the delay in samples lies in
    [0, SIZE].
   */
  lemma ReadInRange(d: Delays.Delay, sampleRate: real)
    requires Delays.Valid(d) && 0.0 <= d.filter.previous <= MAX_DELAY && SafeRate(sampleRate)
    ensures 0.0 <= d.filter.previous * sampleRate <= Delays.SIZE as real
    ensures 0 <= Delays.ReadSlot(d, sampleRate) < Delays.SIZE
  {
    var p := d.filter.previous;
    MulNonNeg(p, sampleRate);
    MulNonNeg(MAX_DELAY - p, sampleRate);
  }

  /**
    The tap `vNext` read on the sample after `outs` is the output `k`
    samples back, where `k` is how many slots behind its cursor it read
    (`Delays.ReadLag`: the smoothed delay in samples, rounded up, or rounded
    down while the read position wraps past slot 0).
   */
  predicate Recalls(vEnd: Voices.Voice, vNext: Voices.Voice, outs: seq<real>, sampleRate: real)
    requires Delays.Valid(vEnd.delay) && Delays.Valid(vNext.delay)
    requires 0 <= Delays.ReadSlot(vNext.delay, sampleRate) < Delays.SIZE
  {
    var k := Delays.Age(Delays.ReadSlot(vNext.delay, sampleRate), vNext.delay.cursor);
    1 <= k <= |outs| ==> Tap(vEnd, vNext, sampleRate) == outs[|outs| - k]
  }

  /** One ready voice after a block and one more sample recalls the block's outputs. */
  lemma VoiceTapRecalls(v0: Voices.Voice, vEnd: Voices.Voice, vNext: Voices.Voice, outs: seq<real>,
                        out: real, sampleRate: real)
    requires Delays.Valid(v0.delay) && |outs| < Delays.SIZE
    requires vEnd.delay == Delays.Cycles(v0.delay, outs).(filter := vEnd.delay.filter)
    requires Fed(vEnd, vNext, out)
    requires Voices.Ready(vNext, MAX_DELAY) && SafeRate(sampleRate)
    ensures 0 <= Delays.ReadSlot(vNext.delay, sampleRate) < Delays.SIZE
    ensures Recalls(vEnd, vNext, outs, sampleRate)
  {
    ReadInRange(vNext.delay, sampleRate);
    var i := Delays.ReadSlot(vNext.delay, sampleRate);
    if 1 <= Delays.Age(i, vNext.delay.cursor) <= |outs| {
      Delays.SlotRecalls(v0.delay, outs, i, vNext.delay.cursor);
    }
  }

  /**
    The effect delays its own output. After a block of fewer than `SIZE`
    samples, the tap each voice reads on the next sample is the block's
    output `k` samples back, where `k` is how far behind its cursor that
    voice read (see `Recalls`).
   */
  lemma TapRecallsOutput(e: Engine, c: Controls, in0: seq<real>, in1: seq<real>, delSig: real,
                         x0: real, x1: real, sampleRate: real)
    requires |in0| == |in1| < Delays.SIZE && Ready(e) && Tame(c) && SafeRate(sampleRate)
    ensures var r := Block(e, c, in0, in1, delSig, sampleRate);
      var f := Step(r.engine, c, x0, x1, r.delSig, sampleRate);
      && |r.out0| == |in0|
      && Recalls(r.engine.voice1, f.engine.voice1, r.out0, sampleRate)
      && Recalls(r.engine.voice2, f.engine.voice2, r.out0, sampleRate)
  {
    var r := Block(e, c, in0, in1, delSig, sampleRate);
    var f := Step(r.engine, c, x0, x1, r.delSig, sampleRate);
    BlockFeedsOutputBack(e, c, in0, in1, delSig, sampleRate);
    VoiceTapRecalls(e.voice1, r.engine.voice1, f.engine.voice1, r.out0, f.out, sampleRate);
    VoiceTapRecalls(e.voice2, r.engine.voice2, f.engine.voice2, r.out0, f.out, sampleRate);
  }

  /** A voice fed one sample has moved as one `Cycle`, apart from its smoother. */
  lemma FedIsCycle(before: Voices.Voice, after: Voices.Voice, out: real)
    requires Fed(before, after, out)
    ensures after.delay == Delays.Cycle(before.delay, out).(filter := after.delay.filter)
  {
  }
}
