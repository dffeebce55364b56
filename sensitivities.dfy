/** Point sensitivities: the derivative of a measure with respect to one
    market risk factor, and the ordered lists they are collected in. */
module Sensitivities {
  import opened Basics

  /** One point sensitivity, keyed by its risk factor. */
  datatype PointSensitivity =
    /** Sensitivity to the rate of an Ibor index fixing on a date. */
    | IborRateSensitivity(index: Index, fixingDate: Date, sensitivity: real)
      /** Sensitivity to the continuously compounded zero rate of a discount curve at a date. */
    | ZeroRateSensitivity(currency: Currency, date: Date, sensitivity: real)
  {
    /** The same risk factor with its sensitivity scaled by `factor`. */
    function Scaled(factor: real): (r: PointSensitivity)
      ensures r.IborRateSensitivity? == IborRateSensitivity?
      ensures SameKey(r, this)
      ensures r.sensitivity == factor * sensitivity
    {
      match this
      case IborRateSensitivity(i, d, s) => IborRateSensitivity(i, d, factor * s)
      case ZeroRateSensitivity(c, d, s) => ZeroRateSensitivity(c, d, factor * s)
    }
  }

  /** Two sensitivities are keyed by the same risk factor. */
  predicate SameKey(a: PointSensitivity, b: PointSensitivity) {
    match a
    case IborRateSensitivity(i, d, _) => b.IborRateSensitivity? && b.index == i && b.fixingDate == d
    case ZeroRateSensitivity(c, d, _) => b.ZeroRateSensitivity? && b.currency == c && b.date == d
  }

  /** An ordered collection of point sensitivities (a built `PointSensitivityBuilder`). */
  type PointSensitivities = seq<PointSensitivity>

  /** `multipliedBy`: every entry scaled by `factor`, order and keys kept. */
  function MultipliedBy(s: PointSensitivities, factor: real): (r: PointSensitivities)
    ensures |r| == |s|
    ensures forall k :: 0 <= k < |s| ==> r[k] == s[k].Scaled(factor)
  {
    seq(|s|, k requires 0 <= k < |s| => s[k].Scaled(factor))
  }

  /** `combinedWith`: the entries of `a` followed by those of `b`. */
  function CombinedWith(a: PointSensitivities, b: PointSensitivities): (r: PointSensitivities)
    ensures |r| == |a| + |b|
    ensures r[..|a|] == a && r[|a|..] == b
  {
    a + b
  }

  /** The unit sensitivity of an Ibor index rate at its fixing date. */
  function UnitIborSensitivity(index: Index, fixingDate: Date): (r: PointSensitivities)
    ensures |r| == 1 && r[0].IborRateSensitivity?
    ensures r[0].index == index && r[0].fixingDate == fixingDate && r[0].sensitivity == 1.0
  {
    [IborRateSensitivity(index, fixingDate, 1.0)]
  }

  /** Scaling twice is scaling by the product of the factors. */
  lemma {:induction false} MultipliedByTwice(s: PointSensitivities, a: real, b: real)
    ensures MultipliedBy(MultipliedBy(s, a), b) == MultipliedBy(s, a * b)
  {
    var lhs, rhs := MultipliedBy(MultipliedBy(s, a), b), MultipliedBy(s, a * b);
    forall k | 0 <= k < |s| ensures lhs[k] == rhs[k] {
      assert (a * s[k].sensitivity) * b == (a * b) * s[k].sensitivity;
    }
  }
}
