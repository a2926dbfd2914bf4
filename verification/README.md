# Chorus/delay plugin core in Dafny

A model of the DSP core of the `MyEffect` audio plugin. The model covers the
one-pole smoother `MyFilter` and the triangle LFO `MyOscillator`. It covers
the 384000-slot circular delay line `MyDelay` and the voice `MyVoice`, which
wires one LFO to one delay line. It also covers the per-block processing
routine `MyEffect::process`.

The model follows these conventions:

- Every stateful object is an immutable datatype.
- Every C++ member function is a pure function that returns the new state
  together with its output.
- The block loop is recursion over the input samples.
- Dafny `real` stands in for `float`.
- `PI` is the decimal value of `M_PI`.
- C's float-to-`int` conversion is `Numerics.Trunc`, which truncates toward
  zero.
- The sample rate is a global of the host library in the C++ code. Here it is
  an explicit positive parameter.

The C++ code reads its buffers without bounds checks, so a read outside the
buffer is undefined behaviour there. Here every read carries a precondition
that its slot is inside the buffer. Lemmas show that the precondition holds
whenever the smoothed delay, in samples, lies in [0, SIZE]. `Effect.SafeRate`
names the sample rates for which that holds for every control setting. These
are rates from 0.11 Hz up to 3.2 MHz. The C++ code assumes such a rate but
never checks it.

The model follows the code where it differs from a typical stereo
multi-voice chorus:

- The processing loop runs exactly two voices.
- Both voices get index 0, so both get the same detune. `Effect.Step` proves
  that two identical voices stay identical.
- The voices' taps go into a running sum `fDelSig`. It is reset once per
  block, not once per sample.
- The output is mono and goes to both channels.
- There is no dry/wet control and no voice-count selection. The voice count
  read from control 3 is never used.
- `TapPos` returns an `int`. As a result, `processSimple` never blends two
  slots.
- `processFeedback` truncates its read position and does not interpolate.
  For a smoothed delay of `s` samples it reads ⌈s⌉ slots behind the cursor
  while `s` does not exceed the cursor, but only ⌊s⌋ slots behind once the
  read position wraps past slot 0 (`Delays.FeedbackLag`, `Delays.FeedbackAge`).
  For a fractional delay, the effective delay therefore drops by one sample
  whenever the read position is wrapped. `TapPos` reads ⌈s⌉ behind at every
  cursor (`Delays.TapAge`, `Delays.IndexRounding`).
- The delay line does delay: the tap each voice reads is the effect's own
  output from as many samples earlier as the read slot is old, that is
  `FeedbackLag` samples (`Delays.SlotRecalls`, `Delays.ReadLag`,
  `Effect.TapRecallsOutput`).

## Model

| member | source | states |
|---|---|---|
| Filters.Initialise | MyEffect/src/EffectExtra.h:16-20 | sets `a` to the coefficient and `b` to its complement, so `a + b == 1`; the memory is kept; a coefficient in [0, 1] gives a convex smoother |
| Filters.Fresh | MyEffect/src/EffectExtra.h:16-29 | a newly initialised smoother has the given `a`, `a + b == 1`, and memory 0 |
| Filters.Process | MyEffect/src/EffectExtra.h:22-25 | the output becomes the new memory and nothing else in the smoother changes |
| Filters.Approach | MyEffect/src/EffectExtra.h:24 | with `a + b == 1` the output's distance to the input is `b` times the memory's distance; an input equal to the memory is a fixed point; a convex smoother's output lies between the memory and the input |
| Filters.SettleGeometric | MyEffect/src/EffectExtra.h:24 | after `n` calls with the same input, the distance to the input is `b^n` times the initial distance, and the coefficients are unchanged |
| Filters.SettleBetween | MyEffect/src/EffectExtra.h:24 | repeated calls with the same input keep a convex smoother's memory between its starting memory and the input |
| Filters.RunBounded | MyEffect/src/EffectExtra.h:24 | fed any inputs in [0, hi] from a memory in [0, hi], a convex smoother keeps its memory in [0, hi], so non-negative delay requests give a non-negative smoothed delay no larger than the largest request or the starting memory |
| Oscillators.Start | MyEffect/src/EffectExtra.h:35-38 | a new oscillator has phase 0, within one cycle |
| Oscillators.Increment | MyEffect/src/EffectExtra.h:43 | `sampleRate` increments add up to `rate` full cycles; a rate in [0, sample rate] advances the phase by an amount in [0, 2*PI] |
| Oscillators.Shape | MyEffect/src/EffectExtra.h:50-57 | the triangle lies in [-1, 1] for a phase within one cycle |
| Oscillators.Level | MyEffect/src/EffectExtra.h:58 | for a non-negative depth and a phase within one cycle, the unipolar output lies in [0, 2*depth] |
| Oscillators.Generate | MyEffect/src/EffectExtra.h:40-59 | the phase advances by the increment and loses exactly one cycle if and only if the sum exceeds 2*PI; a phase in [0, 2*PI] stays there when the increment is in [0, 2*PI]; the output is the level of the new phase, in [0, 2*depth] |
| Oscillators.Landmarks | MyEffect/src/EffectExtra.h:50-58 | the output is 0 at phase 0 and at 2*PI and is `2*depth` at PI; no phase in the cycle gives a higher triangle value than PI |
| Oscillators.Symmetric | MyEffect/src/EffectExtra.h:50-57 | the triangle is symmetric about PI, so the wrap from 2*PI to 0 causes no jump |
| Oscillators.Continuous | MyEffect/src/EffectExtra.h:50-57 | the triangle changes by at most `2/PI` per radian across the whole cycle, across the peak included |
| Delays.New | MyEffect/src/EffectExtra.h:69-82 | a new delay line has 384000 slots, every slot 0, the cursor at 0, and a convex smoother with coefficient 0.0005 and memory 0 |
| Delays.TapIndex | MyEffect/src/EffectExtra.h:90-97 | wrap-then-truncate read index: inside the buffer for a cursor inside it and a delay in [0, SIZE] samples |
| Delays.FeedbackIndex | MyEffect/src/EffectExtra.h:137-139 | truncate-then-wrap read index: inside the buffer for a cursor inside it and a delay in [0, SIZE] samples |
| Delays.IndexRounding | MyEffect/src/EffectExtra.h:90-97 | the two read indices agree unless the position behind the cursor is negative and fractional, and then the wrap-then-truncate index is one slot earlier, circularly |
| Delays.FeedbackAge | MyEffect/src/EffectExtra.h:137-139 | the slot `processFeedback` reads is `FeedbackLag` cycles old: ⌈s⌉ behind the cursor while the delay `s` does not exceed the cursor, ⌊s⌋ once the position wraps |
| Delays.TapAge | MyEffect/src/EffectExtra.h:90-97 | the slot `TapPos` reads is ⌈s⌉ cycles old at every cursor position, for delays up to `SIZE - 1` samples |
| Delays.TapPos | MyEffect/src/EffectExtra.h:88-98 | only the smoother changes; the returned `int` is the read index for the new smoothed delay, inside the buffer when that delay in samples is in [0, SIZE] |
| Delays.Neighbours | MyEffect/src/EffectExtra.h:105-108 | both interpolation slots are inside the buffer; the second is the first plus one, wrapping to 0 after the last slot |
| Delays.InterpolatedRead | MyEffect/src/EffectExtra.h:100-115 | at a whole position the result is exactly that slot's sample; from a non-negative position it lies between the two neighbours' samples |
| Delays.WriteAndStep | MyEffect/src/EffectExtra.h:119-124 | writes the input at the cursor, changing only that slot, and moves the cursor one slot on, modulo the size |
| Delays.ProcessSimple | MyEffect/src/EffectExtra.h:117-127 | the buffer gains the input at the old cursor; the cursor moves one slot modulo the size; the smoother takes the delay time; the result is exactly one stored sample times the gain, with no blend |
| Delays.Advance | MyEffect/src/EffectExtra.h:133-135 | the cursor moves one slot modulo the size and the buffer is untouched |
| Delays.ProcessFeedback | MyEffect/src/EffectExtra.h:129-142 | the buffer is unchanged; the cursor moves one slot modulo the size; the smoother takes the delay time; the result is the sample at the truncated read slot times the gain; that slot can be recovered from the new state |
| Delays.PendingSlotInRange | MyEffect/src/EffectExtra.h:137-141 | the slot `processFeedback` reads is inside the buffer when the new smoothed delay in samples is in [0, SIZE] |
| Delays.Feedback | MyEffect/src/EffectExtra.h:144-147 | the cursor slot receives the value; every other slot, the cursor and the smoother are unchanged |
| Delays.CyclesRecord | MyEffect/src/EffectExtra.h:129-147 | after up to SIZE cursor-step-then-write cycles, the cursor has moved once per value, and each slot holds the value written the matching number of cycles ago, or its old content if it was not reached |
| Delays.SlotRecalls | MyEffect/src/EffectExtra.h:133-146 | after values are cycled in, a slot `k` cycles old as seen from the next cursor position holds the value fed back `k` cycles earlier, for any `k` from 1 to the number cycled |
| Delays.ReadLag | MyEffect/src/EffectExtra.h:137-139 | the slot the last `processFeedback` read is in range and `FeedbackLag` cycles old as seen from the advanced cursor, for a smoothed delay below `SIZE` samples |
| Voices.New | MyEffect/src/EffectExtra.h:158-163 | a new voice has phase 0, delay time 0 and a new delay line |
| Voices.Init | MyEffect/src/EffectExtra.h:165-170 | the delay time is the LFO output for rate and depth each raised by `(i + 1) * 0.01`; the delay line is untouched; a ready voice stays ready, with a delay time in [0, 2 * detuned depth] |
| Voices.Process | MyEffect/src/EffectExtra.h:172-176 | delegates to `processFeedback` with gain 1: the LFO and buffer are untouched, the cursor moves one slot, and the output is the read slot's sample, unscaled |
| Voices.ProcessSafe | MyEffect/src/EffectExtra.h:172-176 | a ready voice whose delay time fits the buffer reads inside the buffer and stays ready |
| Voices.Feedback | MyEffect/src/EffectExtra.h:178-181 | delegates to `feedback`: only the cursor slot of the buffer changes |
| Voices.ProcessThenFeedback | MyEffect/src/EffectExtra.h:172-181 | `process` followed by `voiceFB(out)` moves the delay line as one cursor-step-then-write cycle |
| Effect.MapRate | MyEffect/src/EffectPlugin.cpp:89 | Rate control in [0, 1] gives an LFO rate in [0.01, 0.1] Hz |
| Effect.MapDepth | MyEffect/src/EffectPlugin.cpp:90 | Depth control in [0, 1] gives an LFO depth in [0.02, 0.05] s |
| Effect.MapFeedback | MyEffect/src/EffectPlugin.cpp:91 | Feedback control in [0, 1] gives a gain in [0, 0.5]; the gain is 0 exactly when the control is 0 |
| Effect.MappingMonotone | MyEffect/src/EffectPlugin.cpp:89-91 | each mapped value is monotone in its control |
| Effect.MapParameters | MyEffect/src/EffectPlugin.cpp:89-92 | maps controls 0 to 2 by their curves; controls in [0, 1] give values in the mapped ranges |
| Effect.New | MyEffect/src/EffectPlugin.h:37 | the two voices start identical and ready |
| Effect.Mix | MyEffect/src/EffectPlugin.cpp:105 | the mono mix is the average of the two inputs and lies between them |
| Effect.Step | MyEffect/src/EffectPlugin.cpp:100-120 | both voices read inside their buffers, reading the buffer as it was before this sample's write; the running sum grows by half of each tap, with no reset; the output is the mix plus the running sum times the feedback gain; both voices receive that output in the slot reached; both LFOs use detune index 0; identical voices stay identical |
| Effect.Block | MyEffect/src/EffectPlugin.cpp:98-121 | one output per input sample; both channels identical; the engine stays ready; identical voices stay identical |
| Effect.Process | MyEffect/src/EffectPlugin.cpp:82-122 | exactly `numSamples` samples per channel; the two channels are equal sample by sample; with the Feedback control at 0 every output is the mono mix of its inputs |
| Effect.NoFeedbackIsMono | MyEffect/src/EffectPlugin.cpp:105-113 | with feedback gain 0 every output sample of a block is the mono mix of its inputs |
| Effect.BlockFeedsOutputBack | MyEffect/src/EffectPlugin.cpp:113-116 | over a block, each voice's buffer and cursor evolve exactly as if the block's outputs were cycled into it in order |
| Effect.TapRecallsOutput | MyEffect/src/EffectPlugin.cpp:107-116 | after a block, the tap each voice reads on the next sample is the block's output `k` samples back, where `k` is the age of the slot it read (`FeedbackLag` samples by `Delays.ReadLag`) |

## Left out

- `createEffect`, the `CONTROLS`/`PRESETS` tables, and the plugin's constructor,
  destructor and event handlers are left out. They are host plumbing without
  signal behaviour.
- The `APDI::Effect` base class and the `stk` sample-rate global are left out.
  The sample rate is a parameter. The `LPF`/`HPF` members are not part of this
  model. They are foreign library types and are never used by `process`.
- The heap allocation and freeing of the delay buffer are left out. The buffer
  is a sequence of fixed length.
- IEEE `float` rounding, NaN, and the irrationality of `M_PI` are left out.
  Arithmetic is exact over `real`.
- The plugin's unused members (`osc`, `delay`, `voice3`, `voices`,
  `voiceGains`) are left out. So are `MyVoice`'s unused `fVoiceGain`/`fDelSig`
  fields and the unused voice count from control 3. None of them affects any
  output.
- The sample rate is not checked by the code. `Effect.SafeRate` (0.11 Hz to
  3.2 MHz) is sufficient for every control setting but not necessary.
  Outside it, some control settings can make reads leave the buffer, which
  is undefined behaviour.
  `Effect.Step`, `Effect.Block` and `Effect.Process` require
  `Effect.SafeRate` rather than model that behaviour.
- Filters.SettleGeometric: states the exact geometric decay `b^n`, but not a
  closed-form count of steps to reach a given tolerance, because that needs
  logarithms.
- Effect.Block: states the per-sample running-sum and output relations only
  through `Effect.Step`, not as a closed formula over the whole block, because
  the taps depend on the buffer contents the block itself writes.
- Effect.TapRecallsOutput: covers lags from 1 up to the length of the block
  that precedes the read, for blocks shorter than `SIZE`. A lag reaching into
  audio from before the block is not tied to that earlier audio, because the
  block starts from an arbitrary ready engine.
