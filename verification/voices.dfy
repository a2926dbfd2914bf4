/**
  `MyVoice` (EffectExtra.h): one triangle LFO driving one delay line. Per
  sample the caller runs `voiceInit` (detune, then ask the LFO for a delay
  time), `process` (read the delay line through its feedback path with gain
  1) and `voiceFB` (write the mixed output into the slot just reached).
 */
module Voices {
  import opened Numerics
  import Oscillators
  import Filters
  import Delays

  /** Per-voice detuning step: voice `i` adds `(i + 1) * DETUNE` to rate and depth. */
  const DETUNE: real := 0.01

  /**
    The LFO, the delay line, and the delay time chosen by the last
    `voiceInit` (0 after construction). The voice's unused gain and signal
    fields are left out.
   */
  datatype Voice = Voice(osc: Oscillators.Osc, delay: Delays.Delay, delTime: real)

  /** A newly constructed voice. */
  function New(): (v: Voice)
    ensures v.osc.phase == 0.0 && v.delTime == 0.0 && v.delay == Delays.New()
  {
    Voice(Oscillators.Start(), Delays.New(), 0.0)
  }

  /** The amount voice `i` adds to both rate and depth. */
  function Detune(i: int): real {
    (i + 1) as real * DETUNE
  }

  /**
    A voice whose delay line is intact, whose smoother has the constructor's
    coefficient and a memory in [0, maxDelay] seconds, and whose LFO phase
    lies within one cycle.
   */
  predicate Ready(v: Voice, maxDelay: real) {
    && Delays.Valid(v.delay)
    && v.delay.filter.a == Delays.SMOOTHING
    && Filters.Convex(v.delay.filter)
    && 0.0 <= v.delay.filter.previous <= maxDelay
    && Oscillators.InPhase(v.osc.phase)
  }

  /**
    `voiceInit(rate, depth, i)`: detunes rate and depth by `(i + 1) * 0.01`
    and stores the LFO's output as the delay time; the delay line is not
    touched. When the detuned rate is between 0 and the sample rate and the
    detuned depth is non-negative, a ready voice stays ready and the new delay
    time lies in [0, 2 * detuned depth].
   */
  function Init(v: Voice, rate: real, depth: real, i: int, sampleRate: real): (w: Voice)
    requires sampleRate > 0.0
    ensures w.delay == v.delay
    ensures (w.osc, w.delTime) ==
      Oscillators.Generate(v.osc, rate + Detune(i), depth + Detune(i), sampleRate)
    ensures forall m: real ::
      Ready(v, m) && 0.0 <= rate + Detune(i) <= sampleRate && 0.0 <= depth + Detune(i) ==>
        Ready(w, m) && 0.0 <= w.delTime <= 2.0 * (depth + Detune(i))
  {
    var r := rate + Detune(i);
    var g := Oscillators.Generate(v.osc, r, depth + Detune(i), sampleRate);
    v.(osc := g.0, delTime := g.1)
  }

  /**
    `process()`: reads the delay line through `processFeedback` with the
    stored delay time and gain 1. The LFO and delay time are untouched, the
    buffer is untouched, the cursor moves one slot, and the output is exactly
    the sample in the slot read, unscaled.
   */
  function Process(v: Voice, sampleRate: real): (r: (Voice, real))
    requires Delays.Valid(v.delay)
    requires 0 <= Delays.PendingSlot(v.delay, v.delTime, sampleRate) < Delays.SIZE
    ensures r.0.osc == v.osc && r.0.delTime == v.delTime
    ensures Delays.Valid(r.0.delay) && r.0.delay.buffer == v.delay.buffer
    ensures r.0.delay.cursor == (v.delay.cursor + 1) % Delays.SIZE
    ensures r.0.delay.filter == Filters.Process(v.delay.filter, v.delTime).0
    ensures Delays.ReadSlot(r.0.delay, sampleRate) == Delays.PendingSlot(v.delay, v.delTime, sampleRate)
    ensures r.1 == v.delay.buffer[Delays.PendingSlot(v.delay, v.delTime, sampleRate)]
  {
    var (d, y) := Delays.ProcessFeedback(v.delay, v.delTime, 1.0, sampleRate);
    (v.(delay := d), y)
  }

  /**
    When a ready voice's delay time is within [0, maxDelay] seconds and
    `maxDelay` seconds fit in the buffer at this sample rate, `process` reads
    inside the buffer and leaves the voice ready.
   */
  lemma ProcessSafe(v: Voice, sampleRate: real, maxDelay: real)
    requires Ready(v, maxDelay) && 0.0 <= v.delTime <= maxDelay
    requires sampleRate > 0.0 && maxDelay * sampleRate <= Delays.SIZE as real
    ensures 0 <= Delays.PendingSlot(v.delay, v.delTime, sampleRate) < Delays.SIZE
    ensures Ready(Process(v, sampleRate).0, maxDelay)
  {
    var f := v.delay.filter;
    Filters.Approach(f, v.delTime);
    var s := Filters.Process(f, v.delTime).1;
    assert 0.0 <= s <= maxDelay;
    MulNonNeg(s, sampleRate);
    MulNonNeg(maxDelay - s, sampleRate);
    Delays.PendingSlotInRange(v.delay, v.delTime, sampleRate);
  }

  /**
    `voiceFB(out)`: writes `out` into the delay line at the cursor. Only that
    slot changes; the LFO, the delay time, the cursor and the smoother stay.
   */
  function Feedback(v: Voice, out: real): (w: Voice)
    requires Delays.Valid(v.delay)
    ensures w.osc == v.osc && w.delTime == v.delTime
    ensures Delays.Valid(w.delay)
    ensures w.delay.cursor == v.delay.cursor && w.delay.filter == v.delay.filter
    ensures w.delay.buffer[v.delay.cursor] == out
    ensures forall i :: 0 <= i < Delays.SIZE && i != v.delay.cursor ==>
      w.delay.buffer[i] == v.delay.buffer[i]
  {
    v.(delay := Delays.Feedback(v.delay, out))
  }

  /** `voiceFB` leaves the slot the last `process` read where it was. */
  lemma FeedbackKeepsReadSlot(v: Voice, out: real, sampleRate: real)
    requires Delays.Valid(v.delay)
    ensures Delays.ReadSlot(Feedback(v, out).delay, sampleRate) == Delays.ReadSlot(v.delay, sampleRate)
  {
  }

  /** Ready is kept by `voiceFB`, which touches neither smoother nor LFO. */
  lemma FeedbackKeepsReady(v: Voice, out: real, maxDelay: real)
    requires Ready(v, maxDelay)
    ensures Ready(Feedback(v, out), maxDelay)
  {
  }

  /**
    One sample of a voice in the order the engine uses, `process` then
    `voiceFB(out)`, moves its delay line exactly as one `Cycle` with `out`
    does, apart from the smoother.
   */
  lemma ProcessThenFeedback(v: Voice, sampleRate: real, out: real)
    requires Delays.Valid(v.delay)
    requires 0 <= Delays.PendingSlot(v.delay, v.delTime, sampleRate) < Delays.SIZE
    ensures Feedback(Process(v, sampleRate).0, out).delay ==
      Delays.Cycle(v.delay, out).(filter := Process(v, sampleRate).0.delay.filter)
  {
  }
}
