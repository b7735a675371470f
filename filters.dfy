/** The one-dimensional Kalman filter that smooths each accelerometer axis
    (src/filters.hpp). Single-precision floats are modelled as reals. */
module Filters {

  /** Error covariance given to a freshly constructed or reset filter. */
  const InitialCovariance: real := 0.1

  /** The five fields of a filter: process noise Q, measurement noise R,
      error covariance P, estimate X and the last gain K. */
  datatype FilterState = FilterState(q: real, r: real, p: real, x: real, k: real)

  /** Tunings under which the recurrence is well behaved: positive covariance
      and measurement noise, non-negative process noise. Every filter of the
      firmware starts in such a state (Q = 0.01, R = 0.1, P = 0.1). */
  predicate Tuned(s: FilterState) {
    s.p > 0.0 && s.r > 0.0 && s.q >= 0.0
  }

  /** `next` is at least as close to `z` as `prev`, on the same side:
      strictly between the two when they differ, equal to both when they coincide. */
  predicate MovesToward(prev: real, next: real, z: real) {
    && (prev < z ==> prev < next < z)
    && (prev > z ==> z < next < prev)
    && (prev == z ==> next == z)
  }

  /** A factor strictly between zero and one shrinks a positive quantity. */
  lemma ScaleBelowOne(k: real, d: real)
    requires 0.0 < k < 1.0 && d > 0.0
    ensures 0.0 < k * d < d
  {
  }

  /** The Kalman gain P / (P + R) of positive P and R lies strictly in (0, 1). */
  lemma GainInUnitInterval(p: real, r: real)
    requires p > 0.0 && r > 0.0
    ensures 0.0 < p / (p + r) < 1.0
  {
    var n := p + r;
    assert p / n + r / n == 1.0;
  }

  /** Moving a fraction `k` in (0, 1) of the way from `x` to `z`. */
  lemma PartialMoveToward(x: real, z: real, k: real)
    requires 0.0 < k < 1.0
    ensures MovesToward(x, x + k * (z - x), z)
  {
    var d := z - x;
    var m := k * d;
    assert m == k * (z - x);
    if x < z {
      ScaleBelowOne(k, d);
    } else if x > z {
      ScaleBelowOne(k, -d);
      assert k * -d == -m;
    }
  }

  /** The covariance update keeps a positive share of P for a gain below one. */
  lemma CovarianceStaysPositive(k: real, p: real)
    requires k < 1.0 && p > 0.0
    ensures (1.0 - k) * p > 0.0
  {
    var c := 1.0 - k;
    assert c * p > 0.0;
    assert c * p == (1.0 - k) * p;
  }

  /** One call of `update(measurement)`: gain, estimate, covariance. */
  function Step(s: FilterState, z: real): (t: FilterState)
    requires s.p + s.r != 0.0
    ensures t.q == s.q && t.r == s.r
    ensures t.k * (s.p + s.r) == s.p
    ensures z == s.x ==> t.x == s.x
    ensures s.p > 0.0 && s.r > 0.0 ==> 0.0 < t.k < 1.0 && MovesToward(s.x, t.x, z)
    ensures Tuned(s) ==> Tuned(t)
  {
    var k := s.p / (s.p + s.r);
    var x := s.x + k * (z - s.x);
    var p := (1.0 - k) * s.p + s.q;
    assert k * (s.p + s.r) == s.p;
    if s.p > 0.0 && s.r > 0.0 then
      GainInUnitInterval(s.p, s.r);
      PartialMoveToward(s.x, z, k);
      CovarianceStaysPositive(k, s.p);
      FilterState(s.q, s.r, p, x, k)
    else
      FilterState(s.q, s.r, p, x, k)
  }

  /** The filter after `n` updates with the same measurement `z`. */
  function Iterate(s: FilterState, z: real, n: nat): (t: FilterState)
    requires Tuned(s)
    ensures Tuned(t) && t.q == s.q && t.r == s.r
    decreases n
  {
    if n == 0 then s else Iterate(Step(s, z), z, n - 1)
  }

  /** The (n+1)-th update is one more `Step` after the n-th. */
  lemma {:induction false} IterateLast(s: FilterState, z: real, n: nat)
    requires Tuned(s)
    ensures Iterate(s, z, n + 1) == Step(Iterate(s, z, n), z)
    decreases n
  {
    if n > 0 {
      IterateLast(Step(s, z), z, n - 1);
    }
  }

  /** Under a constant measurement the estimate approaches it monotonically:
      every update moves it toward the measurement without overshooting, and
      after at least one update it lies strictly between the starting
      estimate and the measurement. */
  lemma {:induction false} ConstantInputApproaches(s: FilterState, z: real, n: nat)
    requires Tuned(s)
    ensures MovesToward(Iterate(s, z, n).x, Iterate(s, z, n + 1).x, z)
    ensures n > 0 ==> MovesToward(s.x, Iterate(s, z, n).x, z)
    ensures s.x <= z ==> s.x <= Iterate(s, z, n).x <= z
    ensures s.x >= z ==> z <= Iterate(s, z, n).x <= s.x
    decreases n
  {
    IterateLast(s, z, n);
    if n > 0 {
      var s1 := Step(s, z);
      ConstantInputApproaches(s1, z, n - 1);
      assert Iterate(s, z, n) == Iterate(s1, z, n - 1);
    }
  }

  /** The source's `KalmanFilter` class: `update` overwrites K, X and P in place. */
  class KalmanFilter {
    var q: real  // process noise
    var r: real  // measurement noise
    var p: real  // estimation error covariance
    var x: real  // estimated value
    var k: real  // Kalman gain of the last update

    function State(): FilterState
      reads this
    {
      FilterState(q, r, p, x, k)
    }

    constructor (q0: real := 0.01, r0: real := 0.1, initial: real := 0.0)
      ensures State() == FilterState(q0, r0, InitialCovariance, initial, 0.0)
    {
      q, r, p, x, k := q0, r0, InitialCovariance, initial, 0.0;
    }

    /** Changes the noise parameters and nothing else. */
    method SetTuning(newQ: real, newR: real)
      modifies this
      ensures State() == old(State()).(q := newQ, r := newR)
    {
      q := newQ;
      r := newR;
    }

    /** The current estimate: what the last `Update` returned, or the
        initial value after construction or `Reset`. */
    function Value(): (v: real)
      reads this
      ensures v == State().x
    {
      x
    }

    /** Restarts the estimate at `initial` with the initial covariance; the
        tuning and the last gain are kept. */
    method Reset(initial: real := 0.0)
      modifies this
      ensures State() == old(State()).(x := initial, p := InitialCovariance)
    {
      x := initial;
      p := InitialCovariance;
    }

    method Update(measurement: real) returns (estimate: real)
      requires p + r != 0.0
      modifies this
      ensures State() == Step(old(State()), measurement)
      ensures estimate == Value()
    {
      k := p / (p + r);
      x := x + k * (measurement - x);
      p := (1.0 - k) * p + q;
      estimate := x;
    }
  }
}
