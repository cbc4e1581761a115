/**
  The finite representation of an ultimately pseudo-periodic curve: a base
  sequence of points and open segments, and a pseudo-period (T, d, c) such
  that f(t) = f(t - d) + c for t >= T + d.  Only the parts needed to
  evaluate a curve are modelled; time and value coordinates are exact
  rationals, written here as `real`.
*/
module Curves {
  import opened Wrappers
  import opened Arithmetic

  /** An element of a sequence: the value at one instant, or an open interval. */
  datatype Element =
    | Point(time: real, value: real)
    | Segment(startTime: real, endTime: real, rightLimitAtStart: real, slope: real)

  /** `Point.Origin()`: the point (0, 0). */
  function Origin(): Element {
    Point(0.0, 0.0)
  }

  /** `Segment.Constant(start, end, value)`: a flat segment on (start, end). */
  function Constant(startTime: real, endTime: real, value: real): Element {
    Segment(startTime, endTime, value, 0.0)
  }

  /** Whether `e` defines the function at time `t`; a segment does not own its endpoints. */
  predicate Owns(e: Element, t: real) {
    match e
    case Point(time, _) => t == time
    case Segment(startTime, endTime, _, _) => startTime < t < endTime
  }

  function ElementValueAt(e: Element, t: real): real
    requires Owns(e, t)
  {
    match e
    case Point(_, value) => value
    case Segment(startTime, _, rightLimitAtStart, slope) => rightLimitAtStart + slope * (t - startTime)
  }

  /**
    A well-formed sequence over [from, to): Point, Segment, Point, Segment, ...
    with no gap and no overlap, starting with a point at `from` and ending
    with a segment whose end is `to`.
  */
  predicate IsSequenceOver(s: seq<Element>, from: real, to: real)
    decreases |s|
  {
    && |s| >= 2
    && s[0].Point? && s[0].time == from
    && s[1].Segment? && s[1].startTime == from && from < s[1].endTime
    && (if |s| == 2 then s[1].endTime == to else IsSequenceOver(s[2..], s[1].endTime, to))
  }

  /** The value of the sequence at `t`, taken from the first element that owns `t`. */
  function SequenceValueAt(s: seq<Element>, t: real): Option<real>
    decreases |s|
  {
    if s == [] then None
    else if Owns(s[0], t) then Some(ElementValueAt(s[0], t))
    else SequenceValueAt(s[1..], t)
  }

  /** A well-formed sequence defines the function everywhere on its interval, and nowhere else. */
  lemma {:induction false} SequenceDefinedExactlyOnItsInterval(s: seq<Element>, from: real, to: real, t: real)
    requires IsSequenceOver(s, from, to)
    ensures from < to
    ensures SequenceValueAt(s, t).Some? <==> from <= t < to
    decreases |s|
  {
    assert s[1..][0] == s[1] && s[1..][1..] == s[2..];
    assert SequenceValueAt(s, t) == (
      if t == from then Some(s[0].value)
      else if from < t < s[1].endTime then Some(ElementValueAt(s[1], t))
      else SequenceValueAt(s[2..], t));
    if |s| > 2 {
      SequenceDefinedExactlyOnItsInterval(s[2..], s[1].endTime, to, t);
    }
  }

  /** `Sequence.Zero(from, to)`: the constant zero function on [from, to). */
  function ZeroSequence(from: real, to: real): (s: seq<Element>)
    requires from < to
    ensures IsSequenceOver(s, from, to)
    ensures forall t :: from <= t < to ==> SequenceValueAt(s, t) == Some(0.0)
  {
    [Point(from, 0.0), Constant(from, to, 0.0)]
  }

  /**
    A curve: `baseSequence` describes f on [0, T + d); beyond that the
    function repeats every `pseudoPeriodLength` time units, each time raised
    by `pseudoPeriodHeight`.
  */
  datatype Curve = Curve(
    baseSequence: seq<Element>,
    pseudoPeriodStart: real,
    pseudoPeriodLength: real,
    pseudoPeriodHeight: real)
  {
    predicate IsWellFormed() {
      && pseudoPeriodStart >= 0.0
      && pseudoPeriodLength > 0.0
      && IsSequenceOver(baseSequence, 0.0, pseudoPeriodStart + pseudoPeriodLength)
    }
  }

  /** The number of whole pseudo-periods between T and t: the depth of the evaluation below. */
  function PeriodCount(c: Curve, t: real): nat
    requires c.pseudoPeriodLength > 0.0
  {
    if t < c.pseudoPeriodStart then 0
    else
      QuotientNonNegative(t - c.pseudoPeriodStart, c.pseudoPeriodLength);
      ((t - c.pseudoPeriodStart) / c.pseudoPeriodLength).Floor
  }

  /** From T + d on, stepping back one period lowers the period count by one. */
  lemma PeriodCountStep(c: Curve, t: real)
    requires c.pseudoPeriodLength > 0.0 && t >= c.pseudoPeriodStart + c.pseudoPeriodLength
    ensures PeriodCount(c, t - c.pseudoPeriodLength) == PeriodCount(c, t) - 1
  {
    var T, d := c.pseudoPeriodStart, c.pseudoPeriodLength;
    QuotientStep(t - T, d);
    assert t - d - T == (t - T) - d;
  }

  /**
    `Curve.ValueAt(t)`: the base sequence on [0, T + d); beyond it,
    f(t) = f(t - d) + c.
  */
  function ValueAt(c: Curve, t: real): Option<real>
    requires c.pseudoPeriodLength > 0.0
    decreases PeriodCount(c, t)
  {
    if t < 0.0 then None
    else if t < c.pseudoPeriodStart + c.pseudoPeriodLength then SequenceValueAt(c.baseSequence, t)
    else
      PeriodCountStep(c, t);
      match ValueAt(c, t - c.pseudoPeriodLength)
      case None => None
      case Some(v) => Some(v + c.pseudoPeriodHeight)
  }

  /** A well-formed curve is defined at every t >= 0. */
  lemma {:induction false} ValueAtDefined(c: Curve, t: real)
    requires c.IsWellFormed() && t >= 0.0
    ensures ValueAt(c, t).Some?
    decreases PeriodCount(c, t)
  {
    var T, d := c.pseudoPeriodStart, c.pseudoPeriodLength;
    if t < T + d {
      SequenceDefinedExactlyOnItsInterval(c.baseSequence, 0.0, T + d, t);
    } else {
      PeriodCountStep(c, t);
      ValueAtDefined(c, t - d);
    }
  }
}
