/**
  The triangle LFO `MyOscillator` (EffectExtra.h). Each call advances the
  phase by `2*PI*rate/sampleRate`, wraps it back by one cycle at most, and
  returns a unipolar triangle `shape * depth + depth` of the new phase.
  The sample rate, a process-wide setting in the C++ code, is a parameter.
 */
module Oscillators {
  import opened Numerics

  /** The oscillator's only state: its phase, 0 after construction. */
  datatype Osc = Osc(phase: real)

  /** The phase lies within one cycle, ends included. */
  predicate InPhase(p: real) {
    0.0 <= p <= TWO_PI
  }

  /** The constructor: the phase starts at 0, the beginning of a cycle. */
  function Start(): (o: Osc)
    ensures o.phase == 0.0 && InPhase(o.phase)
  {
    Osc(0.0)
  }

  /**
    Phase advance per sample for an LFO `rate` in Hz: `sampleRate` advances
    add up to `rate` full cycles, and an LFO no faster than the sample rate
    advances the phase by at most one cycle per sample.
   */
  function Increment(rate: real, sampleRate: real): (inc: real)
    requires sampleRate > 0.0
    ensures inc * sampleRate == TWO_PI * rate
    ensures 0.0 <= rate <= sampleRate ==> 0.0 <= inc <= TWO_PI
  {
    var inc := TWO_PI * rate / sampleRate;
    assert inc * sampleRate == TWO_PI * rate;
    assert 0.0 <= rate <= sampleRate ==> 0.0 <= inc <= TWO_PI by {
      if 0.0 <= rate <= sampleRate {
        MulNonNeg(TWO_PI, rate);
        DivNonNeg(TWO_PI * rate, sampleRate);
        MulNonNeg(TWO_PI, sampleRate - rate);
        DivAtMost(TWO_PI * rate, sampleRate, TWO_PI);
      }
    }
    inc
  }

  /**
    The triangle before scaling, `fMod`: rising from -1 at phase 0 to 1 at
    PI, falling back to -1 at 2*PI. The last branch keeps the C++ code's
    second test; for real phases it is never taken (only a NaN phase would
    reach it in floating point).
   */
  function Shape(p: real): (m: real)
    ensures InPhase(p) ==> -1.0 <= m <= 1.0
  {
    if p < PI then -1.0 + 2.0 / PI * p
    else if p >= PI then 3.0 - 2.0 / PI * p
    else 0.0
  }

  /** The oscillator's output for phase `p`: `fMod * depth + depth`. */
  function Level(p: real, depth: real): (v: real)
    ensures 0.0 <= depth && InPhase(p) ==> 0.0 <= v <= 2.0 * depth
  {
    var m := Shape(p);
    assert 0.0 <= depth && InPhase(p) ==> 0.0 <= (m + 1.0) * depth && 0.0 <= (1.0 - m) * depth by {
      if 0.0 <= depth && InPhase(p) {
        MulNonNeg(m + 1.0, depth);
        MulNonNeg(1.0 - m, depth);
      }
    }
    m * depth + depth
  }

  /**
    `generate(rate, depth)`: the result pairs the advanced oscillator with its
    output. The new phase is the old phase plus the increment, less one cycle
    exactly when the sum is strictly beyond 2*PI; so a phase within one cycle
    stays within one cycle whenever the increment is at most one cycle. The
    output is the level of the NEW phase, within [0, 2*depth] for a
    non-negative depth.
   */
  function Generate(o: Osc, rate: real, depth: real, sampleRate: real): (r: (Osc, real))
    requires sampleRate > 0.0
    ensures var sum := o.phase + Increment(rate, sampleRate);
      && (sum > TWO_PI ==> r.0.phase == sum - TWO_PI)
      && (sum <= TWO_PI ==> r.0.phase == sum)
    ensures InPhase(o.phase) && 0.0 <= Increment(rate, sampleRate) <= TWO_PI ==>
      InPhase(r.0.phase)
    ensures r.1 == Level(r.0.phase, depth)
    ensures 0.0 <= depth && InPhase(r.0.phase) ==> 0.0 <= r.1 <= 2.0 * depth
  {
    var phase := o.phase + Increment(rate, sampleRate);
    var wrapped := if phase > TWO_PI then phase - TWO_PI else phase;
    (Osc(wrapped), Level(wrapped, depth))
  }

  /**
    The landmarks of the triangle: silent at the start and end of a cycle,
    peaking at `2*depth` half way, and nowhere in the cycle above that peak.
   */
  lemma Landmarks(depth: real)
    ensures Level(0.0, depth) == 0.0
    ensures Level(PI, depth) == 2.0 * depth
    ensures Level(TWO_PI, depth) == 0.0
    ensures forall p :: InPhase(p) ==> Shape(p) <= Shape(PI)
  {
  }

  /**
    The triangle is symmetric about PI, so the output at the end of a cycle
    meets the output at its start and the wrap causes no jump.
   */
  lemma Symmetric(p: real)
    requires InPhase(p)
    ensures Shape(TWO_PI - p) == Shape(p)
  {
  }

  /**
    The triangle is continuous: it changes by at most `2/PI` per radian
    anywhere in the cycle, across the peak included.
   */
  lemma Continuous(p: real, q: real)
    requires InPhase(p) && InPhase(q) && p <= q
    ensures -(2.0 / PI * (q - p)) <= Shape(q) - Shape(p) <= 2.0 / PI * (q - p)
  {
    if p < PI <= q {
      assert Shape(q) - Shape(p) == 4.0 - 2.0 / PI * (p + q);
    }
  }
}
