/**
  The circular delay line `MyDelay` (EffectExtra.h): a fixed buffer of
  384000 samples, an integer write cursor, and a smoother that glides the
  requested delay time. The buffer is a sequence of fixed length; its heap
  allocation is not modelled.

  The C++ code indexes the buffer without any check. A read position that
  falls outside the buffer is undefined behaviour there, so the caller must
  keep the delay, in samples, within the buffer. Here
  that obligation is each reading operation's precondition, and the lemmas
  below show it holds whenever the smoothed delay in samples lies in
  [0, SIZE].
 */
module Delays {
  import opened Numerics
  import Filters

  /** `iBufferSize = 2 * 192000`: two seconds at 192 kHz. */
  const SIZE: nat := 2 * 192000

  /** The smoothing coefficient the constructor gives the delay-time filter. */
  const SMOOTHING: real := 0.0005

  datatype Delay = Delay(buffer: seq<real>, cursor: int, filter: Filters.Filter)

  /** The class invariant: a full buffer and a write cursor inside it. */
  predicate Valid(d: Delay) {
    |d.buffer| == SIZE && 0 <= d.cursor < SIZE
  }

  /**
    The constructor: every slot silent, the cursor at slot 0, and the
    delay-time smoother initialised with `SMOOTHING` and an empty memory.
   */
  function New(): (d: Delay)
    ensures Valid(d) && d.cursor == 0
    ensures forall i :: 0 <= i < |d.buffer| ==> d.buffer[i] == 0.0
    ensures Filters.Convex(d.filter) && d.filter.a == SMOOTHING && d.filter.previous == 0.0
  {
    Delay(seq(SIZE, _ => 0.0), 0, Filters.Fresh(SMOOTHING))
  }

  /**
    The read index of `TapPos`: the write cursor less the delay in samples,
    with one buffer length added to the floating position when it is negative,
    then truncated to `int`. For a cursor inside the buffer and a delay in
    [0, SIZE] samples the index is inside the buffer.
   */
  function TapIndex(cursor: int, samples: real): (i: int)
    ensures 0 <= cursor < SIZE && 0.0 <= samples <= SIZE as real ==> 0 <= i < SIZE
  {
    var pos := cursor as real - samples;
    Trunc(if pos < 0.0 then pos + SIZE as real else pos)
  }

  /**
    The read index of `processFeedback`: the same difference truncated to
    `int` FIRST, with one buffer length added afterwards when it is negative.
    For a cursor inside the buffer and a delay in [0, SIZE] samples the index
    is inside the buffer.
   */
  function FeedbackIndex(cursor: int, samples: real): (i: int)
    ensures 0 <= cursor < SIZE && 0.0 <= samples <= SIZE as real ==> 0 <= i < SIZE
  {
    var t := Trunc(cursor as real - samples);
    if t < 0 then t + SIZE else t
  }

  /**
    The two index computations differ: when the position behind the cursor is
    negative and not whole, `TapPos` lands one slot earlier (circularly) than
    `processFeedback`, because truncation toward zero rounds the two ways of
    wrapping in opposite directions. Otherwise they agree.
   */
  lemma IndexRounding(cursor: int, samples: real)
    requires 0 <= cursor < SIZE && 0.0 <= samples <= SIZE as real
    ensures var pos := cursor as real - samples;
      if pos < 0.0 && !IsWhole(pos)
      then TapIndex(cursor, samples) == (FeedbackIndex(cursor, samples) + SIZE - 1) % SIZE
      else TapIndex(cursor, samples) == FeedbackIndex(cursor, samples)
  {
    var pos := cursor as real - samples;
    if pos < 0.0 {
      var t := Trunc(pos);
      var u := Trunc(pos + SIZE as real);
      if IsWhole(pos) {
        TruncWhole(pos);
        TruncWhole(pos + SIZE as real);
      } else {
        assert pos.Floor as real < pos;
        assert t == pos.Floor + 1;
        assert (pos + SIZE as real).Floor == pos.Floor + SIZE;
      }
    }
  }

  /**
    How many slots behind the cursor `processFeedback` reads for a delay of
    `samples`: rounded UP while the delay stays behind the cursor, rounded
    DOWN once it reaches back past slot 0 and wraps. So the effective delay
    is one sample shorter while the read position is wrapped.
   */
  function FeedbackLag(cursor: int, samples: real): int {
    if cursor as real < samples then samples.Floor else Ceil(samples)
  }

  /** `processFeedback`'s read slot is `FeedbackLag` cycles old, seen from the cursor. */
  lemma FeedbackAge(cursor: int, samples: real)
    requires 0 <= cursor < SIZE && 0.0 <= samples < SIZE as real
    ensures Age(FeedbackIndex(cursor, samples), cursor) == FeedbackLag(cursor, samples)
  {
    var pos := cursor as real - samples;
    if cursor as real < samples {
      assert Trunc(pos) == cursor - samples.Floor;
    } else {
      assert Trunc(pos) == cursor - Ceil(samples);
    }
  }

  /**
    `TapPos` reads `samples` rounded UP behind the cursor at every cursor
    position, wrapped or not (for delays of at most `SIZE - 1` samples).
   */
  lemma TapAge(cursor: int, samples: real)
    requires 0 <= cursor < SIZE && 0.0 <= samples <= (SIZE - 1) as real
    ensures Age(TapIndex(cursor, samples), cursor) == Ceil(samples)
  {
    var pos := cursor as real - samples;
    if pos < 0.0 {
      assert Trunc(pos + SIZE as real) == cursor + SIZE - Ceil(samples);
    } else {
      assert Trunc(pos) == cursor - Ceil(samples);
    }
  }

  /**
    `TapPos(delTime)`: runs the delay time through the smoother and returns
    the read index for the smoothed delay, leaving buffer and cursor alone.
    The index is inside the buffer when the smoothed delay in samples lies
    in [0, SIZE].
   */
  function TapPos(d: Delay, delTime: real, sampleRate: real): (r: (Delay, int))
    requires Valid(d)
    ensures r.0 == d.(filter := Filters.Process(d.filter, delTime).0)
    ensures 0.0 <= r.0.filter.previous * sampleRate <= SIZE as real ==> 0 <= r.1 < SIZE
    ensures r.1 == TapIndex(d.cursor, r.0.filter.previous * sampleRate)
  {
    var s := Filters.Process(d.filter, delTime);
    (d.(filter := s.0), TapIndex(d.cursor, s.1 * sampleRate))
  }

  /**
    The two slots `InterpolatedRead` touches: the truncated position, and the
    next slot, which wraps to 0 after the last slot.
   */
  function Neighbours(pos: real): (r: (int, int))
    requires -1.0 < pos < SIZE as real
    ensures 0 <= r.0 < SIZE && 0 <= r.1 < SIZE
    ensures r.1 == (r.0 + 1) % SIZE
    ensures r.0 == SIZE - 1 ==> r.1 == 0
  {
    var i1 := Trunc(pos);
    (i1, if i1 + 1 == SIZE then 0 else i1 + 1)
  }

  /**
    `InterpolatedRead(pos)`: linear interpolation between the two neighbour
    slots by the fractional part of `pos`. The precondition is exactly that
    the truncated position is a slot of the buffer. At a whole position the
    result is that slot's sample, exactly; from a non-negative position the
    result lies between the two neighbours' samples.
   */
  function InterpolatedRead(d: Delay, pos: real): (v: real)
    requires Valid(d) && -1.0 < pos < SIZE as real
    ensures IsWhole(pos) ==> v == d.buffer[pos.Floor]
    ensures 0.0 <= pos ==>
      Between(v, d.buffer[Neighbours(pos).0], d.buffer[Neighbours(pos).1])
  {
    var (i1, i2) := Neighbours(pos);
    var frac := pos - i1 as real;
    assert IsWhole(pos) ==> i1 as real == pos by {
      if IsWhole(pos) { TruncWhole(pos); }
    }
    assert 0.0 <= pos ==> Between(d.buffer[i1] + (d.buffer[i2] - d.buffer[i1]) * frac, d.buffer[i1], d.buffer[i2]) by {
      if 0.0 <= pos { Lerp(d.buffer[i1], d.buffer[i2], frac); }
    }
    d.buffer[i1] + (d.buffer[i2] - d.buffer[i1]) * frac
  }

  /**
    The write half of `processSimple`: store the input at the cursor and step
    the cursor, back to 0 once it passes the last slot.
   */
  function WriteAndStep(d: Delay, x: real): (e: Delay)
    requires Valid(d)
    ensures Valid(e) && e.filter == d.filter
    ensures e.cursor == (d.cursor + 1) % SIZE
    ensures e.buffer == d.buffer[d.cursor := x]
  {
    var buffer := d.buffer[d.cursor := x];
    var next := d.cursor + 1;
    d.(buffer := buffer, cursor := if next > SIZE - 1 then 0 else next)
  }

  /** The slot `processSimple` would read for these arguments. */
  function SimpleSlot(d: Delay, x: real, delTime: real, sampleRate: real): int
    requires Valid(d)
  {
    TapPos(WriteAndStep(d, x), delTime, sampleRate).1
  }

  /**
    `processSimple(x, delTime, gain)`: writes `x` at the cursor, advances the
    cursor by one slot circularly, and reads behind the advanced cursor by the
    smoothed delay. Because `TapPos` hands back an `int`, the interpolated read
    always lands on a whole position: the result is one stored sample times
    the gain, never a blend of two.
   */
  function ProcessSimple(d: Delay, x: real, delTime: real, gain: real, sampleRate: real): (r: (Delay, real))
    requires Valid(d) && 0 <= SimpleSlot(d, x, delTime, sampleRate) < SIZE
    ensures Valid(r.0)
    ensures r.0.cursor == (d.cursor + 1) % SIZE
    ensures r.0.buffer == d.buffer[d.cursor := x]
    ensures r.0.filter == Filters.Process(d.filter, delTime).0
    ensures r.1 == r.0.buffer[SimpleSlot(d, x, delTime, sampleRate)] * gain
  {
    var w := WriteAndStep(d, x);
    var (t, pos) := TapPos(w, delTime, sampleRate);
    TruncOfWhole(pos);
    (t, InterpolatedRead(t, pos as real) * gain)
  }

  /**
    The cursor step of `processFeedback`: one slot forward, back to 0 when it
    reaches the buffer length. The buffer is not touched.
   */
  function Advance(d: Delay): (e: Delay)
    requires Valid(d)
    ensures Valid(e) && e.buffer == d.buffer && e.filter == d.filter
    ensures e.cursor == (d.cursor + 1) % SIZE
  {
    var next := d.cursor + 1;
    d.(cursor := if next == SIZE then 0 else next)
  }

  /**
    The slot a voice read on its last `processFeedback`, recovered from the
    state it left: the advanced cursor and the smoother's new output.
   */
  function ReadSlot(d: Delay, sampleRate: real): int {
    FeedbackIndex(d.cursor, d.filter.previous * sampleRate)
  }

  /** The slot `processFeedback` would read for these arguments. */
  function PendingSlot(d: Delay, delTime: real, sampleRate: real): int
    requires Valid(d)
  {
    var e := Advance(d);
    FeedbackIndex(e.cursor, Filters.Process(d.filter, delTime).1 * sampleRate)
  }

  /**
    `processFeedback(delTime, gain)`: advances the cursor by one slot
    circularly WITHOUT writing, smooths the delay time, and returns the sample
    that many slots behind the advanced cursor, times the gain, with no
    interpolation. The buffer is left exactly as it was.
   */
  function ProcessFeedback(d: Delay, delTime: real, gain: real, sampleRate: real): (r: (Delay, real))
    requires Valid(d) && 0 <= PendingSlot(d, delTime, sampleRate) < SIZE
    ensures Valid(r.0)
    ensures r.0.buffer == d.buffer
    ensures r.0.cursor == (d.cursor + 1) % SIZE
    ensures r.0.filter == Filters.Process(d.filter, delTime).0
    ensures ReadSlot(r.0, sampleRate) == PendingSlot(d, delTime, sampleRate)
    ensures r.1 == d.buffer[PendingSlot(d, delTime, sampleRate)] * gain
  {
    (Advance(d).(filter := Filters.Process(d.filter, delTime).0),
     d.buffer[PendingSlot(d, delTime, sampleRate)] * gain)
  }

  /**
    When the new smoothed delay in samples lies in [0, SIZE], the slot
    `processFeedback` reads is inside the buffer, so the call is defined.
   */
  lemma PendingSlotInRange(d: Delay, delTime: real, sampleRate: real)
    requires Valid(d)
    requires 0.0 <= Filters.Process(d.filter, delTime).1 * sampleRate <= SIZE as real
    ensures 0 <= PendingSlot(d, delTime, sampleRate) < SIZE
  {
  }

  /**
    `feedback(v)`: stores `v` at the cursor. That one slot changes; every
    other slot, the cursor and the smoother stay as they were.
   */
  function Feedback(d: Delay, v: real): (e: Delay)
    requires Valid(d)
    ensures Valid(e) && e.cursor == d.cursor && e.filter == d.filter
    ensures e.buffer[d.cursor] == v
    ensures forall i :: 0 <= i < SIZE && i != d.cursor ==> e.buffer[i] == d.buffer[i]
  {
    d.(buffer := d.buffer[d.cursor := v])
  }

  /**
    How the buffer sees one sample of a voice: `processFeedback` moves the
    cursor, then `feedback` fills the slot it moved to.
   */
  function Cycle(d: Delay, x: real): (e: Delay)
    requires Valid(d)
    ensures Valid(e) && e.filter == d.filter
  {
    Feedback(Advance(d), x)
  }

  /** The delay line after one `Cycle` per value of `xs`, in order. */
  function Cycles(d: Delay, xs: seq<real>): (e: Delay)
    requires Valid(d)
    ensures Valid(e) && e.filter == d.filter
    decreases |xs|
  {
    if |xs| == 0 then d else Cycles(Cycle(d, xs[0]), xs[1..])
  }

  /**
    How many cycles ago slot `i` was filled, seen from cursor `c`: the slot
    just after the cursor was filled `SIZE` cycles ago at the earliest, the
    cursor's own slot in the last cycle.
   */
  function Age(i: int, c: int): (k: int)
    requires 0 <= i < SIZE && 0 <= c < SIZE
    ensures 0 <= k < SIZE
    ensures (k == 0) == (i == c)
  {
    if i <= c then c - i else c - i + SIZE
  }

  /** The slot `n < SIZE` cycles ahead of `j` is `n` cycles old as seen from there. */
  lemma AgeAhead(j: int, n: int)
    requires 0 <= j < SIZE && 0 <= n < SIZE
    ensures Age(j, (j + n) % SIZE) == n
  {
    if j + n >= SIZE {
      assert (j + n) % SIZE == j + n - SIZE;
    }
  }

  /** Different slots have different ages. */
  lemma AgeInjective(i: int, j: int, c: int)
    requires 0 <= i < SIZE && 0 <= j < SIZE && 0 <= c < SIZE
    requires Age(i, c) == Age(j, c)
    ensures i == j
  {
  }

  /** One step then `n` more is `n + 1` steps. */
  lemma StepThenMore(c: int, n: int)
    requires 0 <= c < SIZE && 0 <= n
    ensures ((c + 1) % SIZE + n) % SIZE == (c + 1 + n) % SIZE
  {
    if c + 1 == SIZE {
      assert (c + 1) % SIZE == 0;
      assert (SIZE + n) % SIZE == n % SIZE;
    }
  }

  /**
    After `n <= SIZE` cycles the cursor has moved `n` slots, the last `n`
    values sit in the `n` slots ending at the cursor, newest at the cursor,
    and every other slot holds what it held before. In particular a value fed
    back survives `SIZE - 1` further samples before being overwritten.
   */
  lemma {:induction false} CyclesRecord(d: Delay, xs: seq<real>)
    requires Valid(d) && |xs| <= SIZE
    ensures Cycles(d, xs).cursor == (d.cursor + |xs|) % SIZE
    ensures forall i :: 0 <= i < SIZE ==>
      Cycles(d, xs).buffer[i] ==
        if Age(i, Cycles(d, xs).cursor) < |xs|
        then xs[|xs| - 1 - Age(i, Cycles(d, xs).cursor)]
        else d.buffer[i]
    decreases |xs|
  {
    if |xs| > 0 {
      var d1 := Cycle(d, xs[0]);
      var rest := xs[1..];
      CyclesRecord(d1, rest);
      var e := Cycles(d, xs);
      assert e == Cycles(d1, rest);
      StepThenMore(d.cursor, |rest|);
      assert d1.cursor == (d.cursor + 1) % SIZE;
      assert e.cursor == (d1.cursor + |rest|) % SIZE;
      AgeAhead(d1.cursor, |rest|);
      forall i | 0 <= i < SIZE
        ensures e.buffer[i] ==
          if Age(i, e.cursor) < |xs| then xs[|xs| - 1 - Age(i, e.cursor)] else d.buffer[i]
      {
        var k := Age(i, e.cursor);
        if k < |rest| {
          assert e.buffer[i] == rest[|rest| - 1 - k];
        } else if k == |rest| {
          AgeInjective(i, d1.cursor, e.cursor);
          assert e.buffer[i] == d1.buffer[i];
        } else {
          assert i != d1.cursor;
          assert e.buffer[i] == d1.buffer[i];
        }
      }
    }
  }

  /** Stepping the cursor makes every slot one cycle older, modulo `SIZE`. */
  lemma AgeStep(i: int, c: int)
    requires 0 <= i < SIZE && 0 <= c < SIZE
    ensures Age(i, (c + 1) % SIZE) == (Age(i, c) + 1) % SIZE
  {
    if c + 1 == SIZE {
      assert (c + 1) % SIZE == 0;
    }
  }

  /**
    The delay line delays. Once `xs` has been cycled in, a slot that is `k`
    cycles old as seen from the next cursor position, for `k` from 1 to
    `|xs|`, holds the value fed back `k` cycles earlier.
   */
  lemma SlotRecalls(d: Delay, xs: seq<real>, i: int, cursor: int)
    requires Valid(d) && |xs| <= SIZE
    requires cursor == (Cycles(d, xs).cursor + 1) % SIZE
    requires 0 <= i < SIZE && 1 <= Age(i, cursor) <= |xs|
    ensures Cycles(d, xs).buffer[i] == xs[|xs| - Age(i, cursor)]
  {
    CyclesSlot(d, xs, i);
    AgeBefore(i, Cycles(d, xs).cursor, Age(i, cursor));
  }

  /** `CyclesRecord` at the one slot `i`. */
  lemma CyclesSlot(d: Delay, xs: seq<real>, i: int)
    requires Valid(d) && |xs| <= SIZE && 0 <= i < SIZE
    ensures var e := Cycles(d, xs);
      e.buffer[i] == if Age(i, e.cursor) < |xs| then xs[|xs| - 1 - Age(i, e.cursor)] else d.buffer[i]
  {
    CyclesRecord(d, xs);
  }

  /**
    The slot a voice's last `processFeedback` read is `FeedbackLag` cycles
    old, seen from its advanced cursor, for a smoothed delay below `SIZE`
    samples.
   */
  lemma ReadLag(d: Delay, sampleRate: real)
    requires Valid(d) && 0.0 <= d.filter.previous * sampleRate < SIZE as real
    ensures 0 <= ReadSlot(d, sampleRate) < SIZE
    ensures Age(ReadSlot(d, sampleRate), d.cursor) == FeedbackLag(d.cursor, d.filter.previous * sampleRate)
  {
    FeedbackAge(d.cursor, d.filter.previous * sampleRate);
  }

  /** A slot `k >= 1` cycles old after a cursor step was `k - 1` cycles old before it. */
  lemma AgeBefore(i: int, c: int, k: int)
    requires 0 <= i < SIZE && 0 <= c < SIZE && 1 <= k
    requires Age(i, (c + 1) % SIZE) == k
    ensures Age(i, c) == k - 1
  {
    AgeStep(i, c);
  }

  /** Cycling ignores the smoother: two lines alike but for it stay alike. */
  lemma {:induction false} CyclesIgnoreFilter(d: Delay, g: Filters.Filter, xs: seq<real>)
    requires Valid(d)
    ensures Cycles(d.(filter := g), xs) == Cycles(d, xs).(filter := g)
    decreases |xs|
  {
    if |xs| > 0 {
      CyclesIgnoreFilter(Cycle(d, xs[0]), g, xs[1..]);
      assert Cycle(d.(filter := g), xs[0]) == Cycle(d, xs[0]).(filter := g);
    }
  }
}
