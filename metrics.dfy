/** The metrics engine of `src/utils/helper.py`: relative overshoot, settling
    time by a backward scan, and the integral of squared error over the most
    recent part of a series. Samples are reals; float rounding is not modelled. */
module Metrics {
  import opened Common

  /** A float that may be `-inf`, the sentinel overshoot returns when the
      response never reaches the set point. */
  datatype ExtReal = NegInf | Finite(r: real)

  function Max(s: seq<real>): (m: real)
    requires |s| > 0
    ensures m in s
    ensures forall x :: x in s ==> x <= m
  {
    if |s| == 1 then s[0]
    else
      var rest := Max(s[1..]);
      assert forall x :: x in s ==> x == s[0] || x in s[1..];
      if s[0] >= rest then s[0] else rest
  }

  function Min(s: seq<real>): (m: real)
    requires |s| > 0
    ensures m in s
    ensures forall x :: x in s ==> m <= x
  {
    if |s| == 1 then s[0]
    else
      var rest := Min(s[1..]);
      assert forall x :: x in s ==> x == s[0] || x in s[1..];
      if s[0] <= rest then s[0] else rest
  }

  function Abs(x: real): real { if x < 0.0 then -x else x }

  // ---------------------------------------------------------------------------
  // Overshoot
  // ---------------------------------------------------------------------------

  /** `calculate_relative_overshoot(values, fv)`. `max` of an empty list raises
      ValueError; a set point of 0 reaches the division and raises
      ZeroDivisionError; a response that never reaches a non-zero set point
      gives `-inf`. */
  function Overshoot(values: seq<real>, fv: real): (r: Result<ExtReal>)
    ensures r == Err(ValueError) <==> values == []
    ensures r == Err(ZeroDivisionError) <==> values != [] && fv == 0.0
    ensures r == Ok(NegInf) <==>
              values != [] &&
              ((fv > 0.0 && forall x :: x in values ==> x < fv) ||
               (fv < 0.0 && forall x :: x in values ==> x > fv))
  {
    if values == [] then Err(ValueError)
    else
      var hi := Max(values);
      var lo := Min(values);
      if fv > 0.0 && hi < fv then Ok(NegInf)
      else if fv < 0.0 && lo > fv then Ok(NegInf)
      else
        var peak := if fv > 0.0 then hi
                    else if fv < 0.0 then lo
                    else (if Abs(hi) >= Abs(lo) then Abs(hi) else Abs(lo));
        if fv == 0.0 then Err(ZeroDivisionError)
        else Ok(Finite(Abs(peak - fv) / fv * 100.0))
  }

  /** For a positive set point that is reached, the overshoot is a non-negative
      percentage `o` such that the highest sample is exactly `fv * (1 + o/100)`. */
  lemma OvershootAbovePositiveSetPoint(values: seq<real>, fv: real)
    requires fv > 0.0
    requires exists x :: x in values && x >= fv
    ensures Overshoot(values, fv).Ok? && Overshoot(values, fv).value.Finite?
    ensures var o := Overshoot(values, fv).value.r;
            o >= 0.0 &&
            (forall x :: x in values ==> x <= fv + fv * o / 100.0) &&
            (exists x :: x in values && x == fv + fv * o / 100.0)
  {
    var hi := Max(values);
    var o := (hi - fv) / fv * 100.0;
    assert Overshoot(values, fv) == Ok(Finite(o));
    assert fv * o / 100.0 == hi - fv;
  }

  /** For a negative set point that is reached, the overshoot is a non-positive
      percentage `o` such that the lowest sample is exactly `fv * (1 - o/100)`. */
  lemma OvershootBelowNegativeSetPoint(values: seq<real>, fv: real)
    requires fv < 0.0
    requires exists x :: x in values && x <= fv
    ensures Overshoot(values, fv).Ok? && Overshoot(values, fv).value.Finite?
    ensures var o := Overshoot(values, fv).value.r;
            o <= 0.0 &&
            (forall x :: x in values ==> x >= fv - fv * o / 100.0) &&
            (exists x :: x in values && x == fv - fv * o / 100.0)
  {
    var lo := Min(values);
    var o := (fv - lo) / fv * 100.0;
    assert Abs(lo - fv) == fv - lo;
    assert Overshoot(values, fv) == Ok(Finite(o));
    assert fv * o / 100.0 == fv - lo;
  }

  /** The two documented examples: a peak of 120 over a set point of 100 is a
      20% overshoot; a response that stays below 100 never overshoots. */
  lemma OvershootExamples()
    ensures Overshoot([0.0, 50.0, 120.0, 100.0], 100.0) == Ok(Finite(20.0))
    ensures Overshoot([0.0, 10.0, 20.0], 100.0) == Ok(NegInf)
  {
    var s := [0.0, 50.0, 120.0, 100.0];
    assert Max(s) == 120.0 by {
      assert Max(s[3..]) == 100.0;
      assert s[2..][1..] == s[3..];
      assert Max(s[2..]) == 120.0;
      assert s[1..][1..] == s[2..];
    }
    var t := [0.0, 10.0, 20.0];
    assert forall x :: x in t ==> x < 100.0;
  }

  // ---------------------------------------------------------------------------
  // Settling time
  // ---------------------------------------------------------------------------

  /** The tolerance band test at line 101: `x >= lower and x <= upper`. */
  predicate InBand(x: real, lower: real, upper: real)
  {
    x >= lower && x <= upper
  }

  function LowerBound(fv: real, tol: real): real { fv * (1.0 - tol) }
  function UpperBound(fv: real, tol: real): real { fv * (1.0 + tol) }

  /** The index of the last sample outside the band, if there is one. */
  function LastOutside(s: seq<real>, lower: real, upper: real): (k: Option<nat>)
    ensures k.Some? ==> k.value < |s| && !InBand(s[k.value], lower, upper)
    ensures k.Some? ==> forall j :: k.value < j < |s| ==> InBand(s[j], lower, upper)
    ensures k.None? ==> forall j :: 0 <= j < |s| ==> InBand(s[j], lower, upper)
  {
    if |s| == 0 then None
    else if !InBand(s[|s| - 1], lower, upper) then Some(|s| - 1)
    else LastOutside(s[..|s| - 1], lower, upper)
  }

  /** What `calculate_settling_time` returns or raises: ValueError on an empty
      series; `per_value_time * (k + 1)` where k is the last sample outside
      `[fv(1 - tol), fv(1 + tol)]`; and, when every sample lies in the band,
      the IndexError that the wrapped-around negative index ends in. */
  function SettlingTimeOf(values: seq<real>, fv: real, tol: real, perValueTime: int): Result<int>
  {
    if values == [] then Err(ValueError)
    else match LastOutside(values, LowerBound(fv, tol), UpperBound(fv, tol))
      case Some(k) => Ok(perValueTime * (k + 1))
      case None => Err(IndexError)
  }

  /** `calculate_settling_time`, the backward scan as written: `i` starts at
      the last index and walks down past 0 into Python's negative indices,
      which read the list from its end again, until it drops below `-len`. */
  method SettlingTime(values: seq<real>, fv: real, tol: real, perValueTime: int) returns (r: Result<int>)
    ensures r == SettlingTimeOf(values, fv, tol, perValueTime)
  {
    if |values| == 0 {
      return Err(ValueError);
    }
    var upper := fv * (1.0 + tol);
    var lower := fv * (1.0 - tol);
    var n := |values|;
    var i: int := n - 1;
    var timing := perValueTime * n;
    while true
      invariant -n - 1 <= i <= n - 1
      invariant timing == perValueTime * (i + 1)
      invariant i >= 0 ==> forall j :: i < j < n ==> InBand(values[j], lower, upper)
      invariant i < 0 ==> forall j :: 0 <= j < n ==> InBand(values[j], lower, upper)
      decreases i + n + 1
    {
      if i < -n {
        return Err(IndexError);
      }
      var x := values[if i >= 0 then i else n + i];
      if x >= lower && x <= upper {
        i := i - 1;
        timing := timing - perValueTime;
      } else {
        break;
      }
    }
    return Ok(timing);
  }

  /** The scenario of a response `[50,60,70,85,90,91,90,89,90]` with set point
      90 and tolerance 0.05: the band is [85.5, 94.5], the last sample outside
      it is 85 at index 3, so the settling time is 400 ms. */
  lemma SettlingTimeExample()
    ensures SettlingTimeOf([50.0, 60.0, 70.0, 85.0, 90.0, 91.0, 90.0, 89.0, 90.0], 90.0, 0.05, 100) == Ok(400)
  {
    var s := [50.0, 60.0, 70.0, 85.0, 90.0, 91.0, 90.0, 89.0, 90.0];
    var lo, hi := LowerBound(90.0, 0.05), UpperBound(90.0, 0.05);
    assert lo == 85.5 && hi == 94.5;
    var k := LastOutside(s, lo, hi);
    assert !InBand(s[3], lo, hi);
    assert forall j :: 3 < j < |s| ==> InBand(s[j], lo, hi);
    assert k == Some(3);
  }

  /** A response entirely inside the band makes the scan wrap around and fail
      with IndexError instead of reporting a settling time. */
  lemma SettledThroughoutRaises(values: seq<real>, fv: real, tol: real, perValueTime: int)
    requires values != []
    requires forall j :: 0 <= j < |values| ==> InBand(values[j], LowerBound(fv, tol), UpperBound(fv, tol))
    ensures SettlingTimeOf(values, fv, tol, perValueTime) == Err(IndexError)
  {
  }

  /** With a positive set point, a smaller tolerance gives a band nested in
      the band of a larger one. */
  lemma BandNarrows(fv: real, tol: real, tol': real)
    requires fv > 0.0 && tol' <= tol
    ensures LowerBound(fv, tol) <= LowerBound(fv, tol') && UpperBound(fv, tol') <= UpperBound(fv, tol)
  {
    assert fv * (tol - tol') >= 0.0;
  }

  /** A band nested in another has its last outside sample no earlier. */
  lemma LastOutsideMonotone(s: seq<real>, lo: real, hi: real, lo': real, hi': real)
    requires lo <= lo' && hi' <= hi
    requires LastOutside(s, lo, hi).Some?
    ensures LastOutside(s, lo', hi').Some?
    ensures LastOutside(s, lo', hi').value >= LastOutside(s, lo, hi).value
  {
    var k := LastOutside(s, lo, hi).value;
    assert !InBand(s[k], lo', hi');
  }

  /** With a positive set point, narrowing the tolerance never shortens the
      settling time: the narrower band lies inside the wider one, so the last
      sample outside the wider band is outside the narrower one too. */
  lemma SettlingTimeMonotoneInTolerance(values: seq<real>, fv: real, tol: real, tol': real, perValueTime: int)
    requires fv > 0.0 && tol' <= tol && perValueTime >= 0
    requires SettlingTimeOf(values, fv, tol, perValueTime).Ok?
    ensures SettlingTimeOf(values, fv, tol', perValueTime).Ok?
    ensures SettlingTimeOf(values, fv, tol', perValueTime).value >= SettlingTimeOf(values, fv, tol, perValueTime).value
  {
    BandNarrows(fv, tol, tol');
    var lo, hi := LowerBound(fv, tol), UpperBound(fv, tol);
    var lo', hi' := LowerBound(fv, tol'), UpperBound(fv, tol');
    LastOutsideMonotone(values, lo, hi, lo', hi');
    var k := LastOutside(values, lo, hi).value;
    var k' := LastOutside(values, lo', hi').value;
    assert perValueTime * (k' + 1) >= perValueTime * (k + 1) by {
      assert perValueTime * (k' - k) >= 0;
    }
  }

  /** With a negative set point and a positive tolerance the upper bound lies
      below the lower bound, the band is empty, and the settling time is the
      whole run, `per_value_time * len(values)`. */
  lemma NegativeSetPointBandIsEmpty(values: seq<real>, fv: real, tol: real, perValueTime: int)
    requires fv < 0.0 && tol > 0.0 && values != []
    ensures UpperBound(fv, tol) < LowerBound(fv, tol)
    ensures SettlingTimeOf(values, fv, tol, perValueTime) == Ok(perValueTime * |values|)
  {
    assert fv * tol < 0.0;
    var lo, hi := LowerBound(fv, tol), UpperBound(fv, tol);
    assert !InBand(values[|values| - 1], lo, hi);
  }

  // ---------------------------------------------------------------------------
  // Integral of squared error
  // ---------------------------------------------------------------------------

  /** Python's `int(x)` on a float: truncation toward zero. */
  function Trunc(x: real): (n: int)
    ensures x >= 0.0 ==> n as real <= x < n as real + 1.0
    ensures x < 0.0 ==> n as real - 1.0 < x <= n as real
  {
    if x >= 0.0 then x.Floor else -((-x).Floor)
  }

  /** Where `s[start:]` begins for a list of length n: a negative start counts
      from the end, and the result is clamped to `0 .. n`. */
  function SliceStart(start: int, n: nat): (b: nat)
    ensures b <= n
    ensures 0 <= start <= n ==> b == start
    ensures -(n as int) <= start < 0 ==> b as int == n as int + start
  {
    if start < 0 then (if start + n < 0 then 0 else start + n)
    else if start > n then n
    else start
  }

  function SumOfSquares(s: seq<real>): (r: real)
    ensures r >= 0.0
  {
    if s == [] then 0.0 else s[0] * s[0] + SumOfSquares(s[1..])
  }

  /** `calculate_integral_of_squared_error`: the sum of squares over
      `errors[-int(len(errors) * p):]`. */
  function IntegralOfSquaredError(errors: seq<real>, p: real): real
  {
    var m := Trunc(|errors| as real * p);
    SumOfSquares(errors[SliceStart(-m, |errors|)..])
  }

  /** The result is never negative, and when `int(n * p)` is 0 the slice
      `[-0:]` is the whole list rather than an empty one. */
  lemma IntegralOfSquaredErrorBasics(errors: seq<real>, p: real)
    ensures IntegralOfSquaredError(errors, p) >= 0.0
    ensures Trunc(|errors| as real * p) == 0 ==> IntegralOfSquaredError(errors, p) == SumOfSquares(errors)
  {
    if Trunc(|errors| as real * p) == 0 {
      assert errors[SliceStart(0, |errors|)..] == errors;
    }
  }

  /** For a proportion between 0 and 1 that selects at least one element, the
      sum covers exactly the trailing `int(n * p)` errors. */
  lemma IntegralOfSquaredErrorIsTrailing(errors: seq<real>, p: real)
    requires 0.0 <= p <= 1.0
    ensures var m := Trunc(|errors| as real * p);
            0 <= m <= |errors| &&
            (m > 0 ==> IntegralOfSquaredError(errors, p) == SumOfSquares(errors[|errors| - m..]))
  {
    var n := |errors| as real;
    assert 0.0 <= n * p <= n by {
      assert n * (1.0 - p) >= 0.0;
    }
  }

  /** `[1,1,1,1,10,10]` with proportion 0.5 sums the last three: 1 + 100 + 100. */
  lemma IntegralOfSquaredErrorExample()
    ensures IntegralOfSquaredError([1.0, 1.0, 1.0, 1.0, 10.0, 10.0], 0.5) == 201.0
  {
    var e := [1.0, 1.0, 1.0, 1.0, 10.0, 10.0];
    assert Trunc(6.0 * 0.5) == 3;
    assert e[3..] == [1.0, 10.0, 10.0];
    assert SumOfSquares([10.0]) == 100.0;
    assert [1.0, 10.0, 10.0][1..] == [10.0, 10.0];
    assert [10.0, 10.0][1..] == [10.0];
  }
}
