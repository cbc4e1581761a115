/**
  `StairCurve(a, b)`: the stair function v(t) = a * ceil(t / b) as an
  ultimately pseudo-periodic curve whose base sequence is the first step
  and whose pseudo-period is (T = 0, d = b, c = a).
*/
module StairCurves {
  import opened Wrappers
  import opened Arithmetic
  import opened Curves

  /** `ArgumentException`, with the message the constructor throws. */
  datatype Error = ArgumentException(message: string)

  const NegativeHeightMessage := "a must be >= 0"
  const NonPositiveLengthMessage := "b must be > 0"

  /**
    `BuildSequence(a, b)`: the check on `a` comes first, then the check on
    `b`; a zero height gives the zero sequence, any other the origin followed
    by a constant segment of value `a` on (0, b).
  */
  function BuildSequence(a: real, b: real): (r: Result<seq<Element>, Error>)
    ensures a < 0.0 ==> r == Failure(ArgumentException(NegativeHeightMessage))
    ensures a >= 0.0 && b <= 0.0 ==> r == Failure(ArgumentException(NonPositiveLengthMessage))
    ensures r.Success? <==> a >= 0.0 && b > 0.0
    ensures r.Success? ==> IsSequenceOver(r.value, 0.0, b)
    ensures r.Success? ==>
      forall t :: 0.0 <= t < b ==> SequenceValueAt(r.value, t) == Some(if t == 0.0 then 0.0 else a)
  {
    if a < 0.0 then Failure(ArgumentException(NegativeHeightMessage))
    else if b <= 0.0 then Failure(ArgumentException(NonPositiveLengthMessage))
    else if a == 0.0 then Success(ZeroSequence(0.0, b))
    else Success([Origin(), Constant(0.0, b, a)])
  }

  /** `new StairCurve(a, b)`: the built sequence with pseudo-period start 0, length b and height a. */
  function StairCurve(a: real, b: real): (r: Result<Curve, Error>)
    ensures r.Success? <==> a >= 0.0 && b > 0.0
    ensures r.Failure? ==> r.error == BuildSequence(a, b).error
    ensures r.Success? ==> r.value.IsWellFormed()
    ensures r.Success? ==>
      r.value.pseudoPeriodStart == 0.0 && r.value.pseudoPeriodLength == b && r.value.pseudoPeriodHeight == a
  {
    var baseSequence :- BuildSequence(a, b);
    Success(Curve(baseSequence, 0.0, b, a))
  }

  /** The n-th step of the stair: {0} for n = 0, otherwise ((n - 1) b, n b]. */
  predicate OnStep(b: real, n: nat, t: real) {
    if n == 0 then t == 0.0 else Multiple(n - 1, b) < t <= Multiple(n, b)
  }

  /** On its n-th step the curve built for (a, b) has the value n a. */
  lemma {:induction false} StairCurveOnStep(a: real, b: real, n: nat, t: real)
    requires a >= 0.0 && b > 0.0 && OnStep(b, n, t)
    ensures ValueAt(StairCurve(a, b).value, t) == Some(Multiple(n, a))
  {
    var c := StairCurve(a, b).value;
    if n == 0 {
      assert SequenceValueAt(c.baseSequence, 0.0) == Some(0.0);
    } else if n == 1 && t < b {
      assert SequenceValueAt(c.baseSequence, t) == Some(a);
    } else {
      if n >= 2 {
        MultipleNonNegative(n - 2, b);
      }
      assert t >= b;
      MultipleNonNegative(n - 1, b);
      assert OnStep(b, n - 1, t - b) by {
        if n == 1 {
          assert t == b;
        } else {
          assert Multiple(n - 2, b) < t - b <= Multiple(n - 1, b);
        }
      }
      StairCurveOnStep(a, b, n - 1, t - b);
      assert ValueAt(c, t) == Some(ValueAt(c, t - b).value + a);
    }
  }

  /** Every t >= 0 lies on step ceil(t / b). */
  lemma CeilOnStep(b: real, t: real)
    requires b > 0.0 && t >= 0.0
    ensures Ceil(t / b) >= 0 && OnStep(b, Ceil(t / b), t)
  {
    var n := Ceil(t / b);
    QuotientNonNegative(t, b);
    MultipleIsProduct(n, b);
    if n == 0 {
      AtMostQuotient(t, 0.0, b);
    } else {
      MultipleIsProduct(n - 1, b);
      BelowQuotient(t, (n - 1) as real, b);
      AtMostQuotient(t, n as real, b);
    }
  }

  /** The curve built for (a, b) represents v(t) = ceil(t / b) * a at every t >= 0. */
  lemma StairCurveValue(a: real, b: real, t: real)
    requires a >= 0.0 && b > 0.0 && t >= 0.0
    ensures ValueAt(StairCurve(a, b).value, t).Some?
    ensures ValueAt(StairCurve(a, b).value, t).value == (Ceil(t / b) as real) * a
  {
    CeilOnStep(b, t);
    var n: nat := Ceil(t / b);
    StairCurveOnStep(a, b, n, t);
    MultipleIsProduct(n, a);
  }

  /** Since a >= 0, the stair curve never decreases. */
  lemma StairCurveNonDecreasing(a: real, b: real, s: real, t: real)
    requires a >= 0.0 && b > 0.0 && 0.0 <= s <= t
    ensures ValueAt(StairCurve(a, b).value, s).Some? && ValueAt(StairCurve(a, b).value, t).Some?
    ensures ValueAt(StairCurve(a, b).value, s).value <= ValueAt(StairCurve(a, b).value, t).value
  {
    CeilOnStep(b, s);
    CeilOnStep(b, t);
    CeilQuotientMonotone(s, t, b);
    StairCurveOnStep(a, b, Ceil(s / b), s);
    StairCurveOnStep(a, b, Ceil(t / b), t);
    MultipleMonotone(Ceil(s / b), Ceil(t / b), a);
  }

  /**
    The stair curve is left-continuous: every t > 0 lies on a step (n >= 1)
    whose whole interval ((n - 1) b, t] carries the value the curve has at t.
  */
  lemma StairCurveLeftContinuous(a: real, b: real, t: real)
    requires a >= 0.0 && b > 0.0 && t > 0.0
    ensures Ceil(t / b) >= 1 && Multiple(Ceil(t / b) - 1, b) < t
    ensures forall s :: Multiple(Ceil(t / b) - 1, b) < s <= t ==>
      ValueAt(StairCurve(a, b).value, s) == ValueAt(StairCurve(a, b).value, t)
  {
    var n := Ceil(t / b);
    CeilOnStep(b, t);
    StairCurveOnStep(a, b, n, t);
    forall s | Multiple(Ceil(t / b) - 1, b) < s <= t
      ensures ValueAt(StairCurve(a, b).value, s) == ValueAt(StairCurve(a, b).value, t)
    {
      StairCurveOnStep(a, b, n, s);
    }
  }
}
