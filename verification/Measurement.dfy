/** Engineering values on a declared grid: a range guard before rounding, then rounding half to even. */
module Measurement {
  import opened Common

  datatype Policy = Policy(resolution: real, minimum: real, maximum: real, encodingError: real)

  predicate OnGrid(x: real, step: real)
    requires step != 0.0
  {
    (x / step).Floor as real == x / step
  }

  /** The checks a policy passes before it exists. */
  function CheckPolicy(p: Policy): Result<Policy> {
    if p.resolution <= 0.0 || p.encodingError < 0.0 then Failure("out of bounds")
    else if p.minimum >= p.maximum then Failure("minimum must be below maximum")
    else if p.encodingError >= p.resolution / 2.0 then Failure("encoding error must be below half a resolution step")
    else if !OnGrid(p.minimum, p.resolution) || !OnGrid(p.maximum, p.resolution) then
      Failure("range boundaries must lie on the resolution grid")
    else Success(p)
  }

  /** The part of a policy's validity that does not speak of the grid. */
  predicate Sane(p: Policy) {
    p.resolution > 0.0 && 0.0 <= p.encodingError < p.resolution / 2.0 && p.minimum < p.maximum
  }

  predicate LimitsOnGrid(p: Policy)
    requires Sane(p)
  {
    OnGrid(p.minimum, p.resolution) && OnGrid(p.maximum, p.resolution)
  }

  lemma PolicyIsChecked(p: Policy)
    ensures CheckPolicy(p).Success? <==> Sane(p) && LimitsOnGrid(p)
    ensures CheckPolicy(p).Success? ==> CheckPolicy(p).value == p
  {
  }

  function HalfEven(x: real): int {
    var below := x.Floor;
    var rest := x - below as real;
    if rest < 0.5 || (rest == 0.5 && below % 2 == 0) then below else below + 1
  }

  function Clamp(p: Policy, x: real): real {
    var raised := if x > p.minimum then x else p.minimum;
    if raised < p.maximum then raised else p.maximum
  }

  /** The grid point number k. */
  function Point(p: Policy, k: int): real {
    k as real * p.resolution
  }

  function Normalize(p: Policy, x: real): Result<real>
    requires Sane(p)
  {
    if x < p.minimum - p.encodingError || x > p.maximum + p.encodingError then
      Failure("engineering value outside declared range")
    else Success(Point(p, HalfEven(Clamp(p, x) / p.resolution)))
  }

  lemma Ratio(x: real, step: real)
    requires step > 0.0
    ensures x / step * step == x
  {
  }

  lemma Spread(a: real, b: real, step: real)
    ensures (a + b) * step == a * step + b * step
    ensures (a - b) * step == a * step - b * step
  {
  }

  lemma Signs(d: real, step: real)
    requires step > 0.0
    ensures d > 0.0 <==> d * step > 0.0
    ensures d == 0.0 <==> d * step == 0.0
  {
  }

  lemma Cancel(a: real, b: real, step: real)
    requires step > 0.0
    ensures a * step == b * step <==> a == b
    ensures a * step <= b * step <==> a <= b
  {
    Spread(a, b, step);
    Signs(a - b, step);
  }

  /** A ratio is within half of k exactly as the value is within half a step of the k-th point. */
  lemma HalfSteps(x: real, step: real, k: int)
    requires step > 0.0
    ensures -0.5 < x / step - k as real <==> -step / 2.0 < x - k as real * step
    ensures x / step - k as real < 0.5 <==> x - k as real * step < step / 2.0
    ensures x / step - k as real == 0.5 <==> x - k as real * step == step / 2.0
    ensures x / step - k as real == -0.5 <==> x - k as real * step == -step / 2.0
  {
    Ratio(x, step);
    var off := x / step - k as real;
    Spread(x / step, k as real, step);
    assert off * step == x - k as real * step;
    Spread(off, 0.5, step);
    Signs(off - 0.5, step);
    Signs(off + 0.5, step);
  }

  /** Comparing ratios is comparing values. */
  lemma Compare(x: real, y: real, step: real)
    requires step > 0.0
    ensures x / step <= y / step <==> x <= y
    ensures x / step == y / step <==> x == y
  {
    Ratio(x, step);
    Ratio(y, step);
    Cancel(x / step, y / step, step);
  }

  lemma PointsAreOnGrid(k: int, step: real, x: real)
    requires step > 0.0 && x == k as real * step
    ensures x / step == k as real && OnGrid(x, step)
  {
    Ratio(x, step);
    Cancel(x / step, k as real, step);
  }

  /** Rounding stays within a half, and rounds a halfway case to the even neighbour. */
  lemma HalfEvenIsNearest(x: real)
    ensures -0.5 <= x - HalfEven(x) as real <= 0.5
    ensures x - HalfEven(x) as real == 0.5 || x - HalfEven(x) as real == -0.5 ==> HalfEven(x) % 2 == 0
  {
  }

  lemma HalfEvenIsMonotone(x: real, y: real)
    requires x <= y
    ensures HalfEven(x) <= HalfEven(y)
  {
    HalfEvenIsNearest(x);
    HalfEvenIsNearest(y);
  }

  /** Anything strictly closer than half a step rounds to the point itself. */
  lemma HalfEvenCatches(x: real, k: int)
    requires -0.5 < x - k as real < 0.5
    ensures HalfEven(x) == k
  {
    HalfEvenIsNearest(x);
  }

  /** Rounding a ratio moves a value by at most half a step, onto the grid. */
  lemma RoundedIsClose(x: real, step: real, y: real)
    requires step > 0.0 && y == HalfEven(x / step) as real * step
    ensures -step / 2.0 <= x - y <= step / 2.0 && OnGrid(y, step)
  {
    var k := HalfEven(x / step);
    HalfEvenIsNearest(x / step);
    HalfSteps(x, step, k);
    PointsAreOnGrid(k, step, y);
  }

  /** A value closer than half a step to a grid point rounds to it. */
  lemma RoundedIsCaught(x: real, step: real, k: int)
    requires step > 0.0 && -step / 2.0 < x - k as real * step < step / 2.0
    ensures HalfEven(x / step) == k
  {
    HalfSteps(x, step, k);
    HalfEvenCatches(x / step, k);
  }

  lemma RoundedIsMonotone(x: real, y: real, step: real)
    requires step > 0.0 && x <= y
    ensures HalfEven(x / step) as real * step <= HalfEven(y / step) as real * step
  {
    Compare(x, y, step);
    HalfEvenIsMonotone(x / step, y / step);
    Cancel(HalfEven(x / step) as real, HalfEven(y / step) as real, step);
  }

  /** Rounding leaves grid points alone. */
  lemma GridPointsStay(x: real, step: real)
    requires step > 0.0 && OnGrid(x, step)
    ensures HalfEven(x / step) as real * step == x
  {
    Ratio(x, step);
    HalfEvenCatches(x / step, (x / step).Floor);
  }

  /** Between two grid points, rounding stays between them. */
  lemma RoundedStaysInside(low: real, x: real, high: real, step: real)
    requires step > 0.0 && OnGrid(low, step) && OnGrid(high, step) && low <= x <= high
    ensures low <= HalfEven(x / step) as real * step <= high
  {
    GridPointsStay(low, step);
    GridPointsStay(high, step);
    RoundedIsMonotone(low, x, step);
    RoundedIsMonotone(x, high, step);
  }

  /** A value is refused exactly when it is out of range by more than the encoding error; an accepted
      one lands on the grid, no further from the clamped value than half a step. */
  lemma NormalizeIsGuarded(p: Policy, x: real)
    requires Sane(p)
    ensures Normalize(p, x).Success? <==> p.minimum - p.encodingError <= x <= p.maximum + p.encodingError
    ensures Normalize(p, x).Success? ==>
              && OnGrid(Normalize(p, x).value, p.resolution)
              && -p.resolution / 2.0 <= Clamp(p, x) - Normalize(p, x).value <= p.resolution / 2.0
  {
    if Normalize(p, x).Success? {
      RoundedIsClose(Clamp(p, x), p.resolution, Normalize(p, x).value);
    }
  }

  lemma NormalizeStaysInRange(p: Policy, x: real)
    requires Sane(p) && LimitsOnGrid(p) && Normalize(p, x).Success?
    ensures p.minimum <= Normalize(p, x).value <= p.maximum
  {
    RoundedStaysInside(p.minimum, Clamp(p, x), p.maximum, p.resolution);
  }

  lemma NormalizeIsMonotone(p: Policy, x: real, y: real)
    requires Sane(p) && x <= y && Normalize(p, x).Success? && Normalize(p, y).Success?
    ensures Normalize(p, x).value <= Normalize(p, y).value
  {
    RoundedIsMonotone(Clamp(p, x), Clamp(p, y), p.resolution);
  }

  lemma ClampStaysNear(p: Policy, x: real, point: real)
    requires p.minimum <= point <= p.maximum && -p.encodingError <= x - point <= p.encodingError
    ensures -p.encodingError <= Clamp(p, x) - point <= p.encodingError
  {
  }

  /** Whatever an encoding did to a grid value, up to its declared error, normalising undoes it. */
  lemma EncodingErrorIsAbsorbed(p: Policy, k: int, x: real)
    requires Sane(p) && p.minimum <= Point(p, k) <= p.maximum
    requires -p.encodingError <= x - Point(p, k) <= p.encodingError
    ensures Normalize(p, x) == Success(Point(p, k))
  {
    var near := Clamp(p, x);
    ClampStaysNear(p, x, Point(p, k));
    assert -p.resolution / 2.0 < near - k as real * p.resolution < p.resolution / 2.0;
    RoundedIsCaught(near, p.resolution, k);
  }

  lemma NormalizeIsIdempotent(p: Policy, x: real)
    requires Sane(p) && LimitsOnGrid(p) && Normalize(p, x).Success?
    ensures Normalize(p, Normalize(p, x).value) == Normalize(p, x)
  {
    NormalizeStaysInRange(p, x);
    EncodingErrorIsAbsorbed(p, HalfEven(Clamp(p, x) / p.resolution), Normalize(p, x).value);
  }

  /** Two protocols that carry one grid value, each within the declared error, agree on it. */
  lemma EncodingsAgree(p: Policy, k: int, x: real, y: real)
    requires Sane(p) && p.minimum <= Point(p, k) <= p.maximum
    requires -p.encodingError <= x - Point(p, k) <= p.encodingError
    requires -p.encodingError <= y - Point(p, k) <= p.encodingError
    ensures Normalize(p, x) == Normalize(p, y) == Success(Point(p, k))
  {
    EncodingErrorIsAbsorbed(p, k, x);
    EncodingErrorIsAbsorbed(p, k, y);
  }

  /** Half a step is the limit: an error of exactly that much moves an odd grid value. */
  lemma HalfAStepIsTooMuch(step: real, k: int)
    requires step > 0.0 && k % 2 == 1
    ensures HalfEven((k as real * step + step / 2.0) / step) == k + 1
  {
    var x := k as real * step + step / 2.0;
    HalfSteps(x, step, k);
    assert (x / step).Floor == k;
  }
}
