/**
  The one-pole smoother `MyFilter` (EffectExtra.h): each output is the blend
  `a * input + b * previous` with `b = 1 - a`, and becomes the new `previous`.
  The delay line runs its requested delay time through one of these so that
  the read position glides instead of jumping.
 */
module Filters {
  import opened Numerics

  /** Coefficient `a`, its complement `b`, and the last output `previous`. */
  datatype Filter = Filter(a: real, b: real, previous: real)

  /** `a` is a weight in [0, 1] and `b` its complement. */
  predicate Convex(f: Filter) {
    0.0 <= f.a <= 1.0 && f.a + f.b == 1.0
  }

  /** `initialise(coeff)`: sets `a` and its complement `b`; the memory is kept. */
  function Initialise(f: Filter, coeff: real): (g: Filter)
    ensures g.a == coeff && g.a + g.b == 1.0
    ensures g.previous == f.previous
    ensures 0.0 <= coeff <= 1.0 ==> Convex(g)
  {
    f.(a := coeff, b := 1.0 - coeff)
  }

  /**
    A filter as the delay line holds it after construction: the member
    initialiser sets `previous` to 0 and `initialise(coeff)` then sets the
    coefficients (the placeholder coefficients below are overwritten).
   */
  function Fresh(coeff: real): (g: Filter)
    ensures g.a == coeff && g.a + g.b == 1.0 && g.previous == 0.0
  {
    Initialise(Filter(0.0, 0.0, 0.0), coeff)
  }

  /**
    `process(x)`: the blend `a * x + b * previous`, which also becomes the new
    memory. The result pairs the updated filter with the output; only
    `previous` changes. What the output means is stated by `Approach`.
   */
  function Process(f: Filter, x: real): (r: (Filter, real))
    ensures r.0 == f.(previous := r.1)
  {
    var y := f.a * x + f.b * f.previous;
    (f.(previous := y), y)
  }

  /**
    With `a + b == 1` the output's distance to the input is the memory's
    distance shrunk by the factor `b`, so an input equal to the memory is a
    fixed point; with `a` in [0, 1] as well the output lies between the
    memory and the input.
   */
  lemma Approach(f: Filter, x: real)
    ensures f.a + f.b == 1.0 ==> Process(f, x).1 - x == f.b * (f.previous - x)
    ensures f.a + f.b == 1.0 && f.previous == x ==> Process(f, x).1 == x
    ensures Convex(f) ==> Between(Process(f, x).1, f.previous, x)
  {
    if f.a + f.b == 1.0 {
      assert f.a * x == x - f.b * x;
      if Convex(f) {
        Lerp(f.previous, x, f.a);
        assert f.b * f.previous == f.previous - f.a * f.previous;
      }
    }
  }

  /** `b` raised to the `n`-th power. */
  function Pow(b: real, n: nat): real {
    if n == 0 then 1.0 else b * Pow(b, n - 1)
  }

  /** The filter after `n` calls of `process` with the same input `x`. */
  function Repeat(f: Filter, x: real, n: nat): Filter
    decreases n
  {
    if n == 0 then f else Repeat(Process(f, x).0, x, n - 1)
  }

  /**
    Held at a constant input, the smoother converges geometrically: after `n`
    steps the distance to the input is `b^n` times the initial distance, and
    the coefficients never change.
   */
  lemma {:induction false} SettleGeometric(f: Filter, x: real, n: nat)
    requires f.a + f.b == 1.0
    ensures Repeat(f, x, n).a == f.a && Repeat(f, x, n).b == f.b
    ensures Repeat(f, x, n).previous - x == Pow(f.b, n) * (f.previous - x)
    decreases n
  {
    if n > 0 {
      var g := Process(f, x).0;
      var p := Pow(f.b, n - 1);
      assert Repeat(f, x, n) == Repeat(g, x, n - 1);
      Approach(f, x);
      SettleGeometric(g, x, n - 1);
      assert g.previous - x == f.b * (f.previous - x);
      assert p * (f.b * (f.previous - x)) == (f.b * p) * (f.previous - x);
    }
  }

  /**
    Held at a constant input, a convex smoother approaches it monotonically:
    every later output still lies between the starting memory and the input.
   */
  lemma {:induction false} SettleBetween(f: Filter, x: real, n: nat)
    requires Convex(f)
    ensures Convex(Repeat(f, x, n))
    ensures Between(Repeat(f, x, n).previous, f.previous, x)
    decreases n
  {
    if n > 0 {
      var g := Process(f, x).0;
      Approach(f, x);
      SettleBetween(g, x, n - 1);
    }
  }

  /** The filter after `process` has been called on each of `xs` in order. */
  function Run(f: Filter, xs: seq<real>): Filter
    decreases |xs|
  {
    if |xs| == 0 then f else Run(Process(f, xs[0]).0, xs[1..])
  }

  /**
    A convex smoother fed only values in [0, hi], starting from a memory in
    [0, hi], keeps its memory in [0, hi]: non-negative delay requests give a
    non-negative smoothed delay no larger than the largest request seen (or
    the starting memory).
   */
  lemma {:induction false} RunBounded(f: Filter, xs: seq<real>, hi: real)
    requires Convex(f) && 0.0 <= f.previous <= hi
    requires forall k :: 0 <= k < |xs| ==> 0.0 <= xs[k] <= hi
    ensures Convex(Run(f, xs))
    ensures 0.0 <= Run(f, xs).previous <= hi
    decreases |xs|
  {
    if |xs| > 0 {
      var g := Process(f, xs[0]).0;
      Approach(f, xs[0]);
      RunBounded(g, xs[1..], hi);
    }
  }
}
