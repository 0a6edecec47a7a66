/** The put-call ratio and the moneyness classification of an option. */
module Ratios {

  /** `putCallRatio`: put volume over call volume, and 0 when there is no call volume. */
  function PutCallRatio(putVolume: real, callVolume: real): (r: real)
    ensures callVolume == 0.0 ==> r == 0.0
    ensures callVolume != 0.0 ==> r * callVolume == putVolume
  {
    if callVolume == 0.0 then 0.0 else putVolume / callVolume
  }

  /** With non-negative volumes the put-call ratio is never negative. */
  lemma PutCallRatioNonnegative(putVolume: real, callVolume: real)
    requires putVolume >= 0.0 && callVolume >= 0.0
    ensures PutCallRatio(putVolume, callVolume) >= 0.0
  {
  }

  datatype OptionType = CallOption | PutOption

  datatype Moneyness = ITM | ATM | OTM

  /**
   * The value of a floating-point division `x / y` in this model: a real quotient, or, for a
   * zero divisor, the infinity or NaN that JavaScript produces.
   */
  datatype Quotient = Finite(value: real) | PositiveInfinity | NegativeInfinity | NotANumber

  function Divide(x: real, y: real): (q: Quotient)
    ensures q.Finite? <==> y != 0.0
    ensures q.Finite? ==> q.value * y == x
    ensures q == NotANumber <==> x == 0.0 && y == 0.0
  {
    if y != 0.0 then Finite(x / y)
    else if x > 0.0 then PositiveInfinity
    else if x < 0.0 then NegativeInfinity
    else NotANumber
  }

  /** The comparison `q > bound`; false for NaN. */
  predicate Above(q: Quotient, bound: real)
  {
    match q
    case Finite(v) => v > bound
    case PositiveInfinity => true
    case NegativeInfinity => false
    case NotANumber => false
  }

  /** The comparison `q < bound`; false for NaN. */
  predicate Below(q: Quotient, bound: real)
  {
    match q
    case Finite(v) => v < bound
    case PositiveInfinity => false
    case NegativeInfinity => true
    case NotANumber => false
  }

  const UpperBand := 1.02
  const LowerBand := 0.98

  /**
   * `moneyness`: a ±2% band around spot / strike == 1 is at the money; a call is in the money
   * above the band and a put below it, and each is out of the money on the other side.
   */
  function Classify(spot: real, strike: real, kind: OptionType): (m: Moneyness)
    ensures strike != 0.0 ==>
      (m == ITM <==> if kind == CallOption then spot / strike > UpperBand else spot / strike < LowerBand)
    ensures strike != 0.0 ==>
      (m == OTM <==> if kind == CallOption then spot / strike < LowerBand else spot / strike > UpperBand)
  {
    var ratio := Divide(spot, strike);
    match kind
    case CallOption =>
      if Above(ratio, UpperBand) then ITM
      else if Below(ratio, LowerBand) then OTM
      else ATM
    case PutOption =>
      if Below(ratio, LowerBand) then ITM
      else if Above(ratio, UpperBand) then OTM
      else ATM
  }

  /** The classification an option of the other type gets at the same spot and strike. */
  function Mirror(m: Moneyness): Moneyness
  {
    match m
    case ITM => OTM
    case ATM => ATM
    case OTM => ITM
  }

  /** A quotient above the upper band is never below the lower one, so the two tests never compete. */
  lemma BandsDisjoint(q: Quotient)
    ensures !(Above(q, UpperBand) && Below(q, LowerBand))
  {
  }

  /** For every spot and strike, a put is classified as the mirror image of the call. */
  lemma PutMirrorsCall(spot: real, strike: real)
    ensures Classify(spot, strike, PutOption) == Mirror(Classify(spot, strike, CallOption))
    ensures Classify(spot, strike, CallOption) == ITM <==> Classify(spot, strike, PutOption) == OTM
    ensures Classify(spot, strike, CallOption) == OTM <==> Classify(spot, strike, PutOption) == ITM
  {
    var ratio := Divide(spot, strike);
    assert !(Above(ratio, UpperBand) && Below(ratio, LowerBand));
  }

  /** With a non-zero strike, both types are at the money exactly inside the closed band [0.98, 1.02]. */
  lemma AtTheMoneyBand(spot: real, strike: real, kind: OptionType)
    requires strike != 0.0
    ensures Classify(spot, strike, kind) == ATM <==> LowerBand <= spot / strike <= UpperBand
  {
  }

  /**
   * With a positive strike, a call is in the money exactly when the spot exceeds the strike
   * by more than 2%, and out of the money exactly when it is more than 2% below it.
   */
  lemma CallThresholds(spot: real, strike: real)
    requires strike > 0.0
    ensures Classify(spot, strike, CallOption) == ITM <==> spot > UpperBand * strike
    ensures Classify(spot, strike, CallOption) == OTM <==> spot < LowerBand * strike
  {
    QuotientComparison(spot, strike, UpperBand);
    QuotientComparison(spot, strike, LowerBand);
  }

  /** Comparing x / k with a bound is comparing x with the bound times k, for k > 0. */
  lemma QuotientComparison(x: real, k: real, b: real)
    requires k > 0.0
    ensures x / k > b <==> x > b * k
    ensures x / k < b <==> x < b * k
  {
    var r := x / k;
    assert r * k == x;
    assert x - b * k == (r - b) * k;
    if r > b { assert (r - b) * k > 0.0; }
    if r < b { assert (b - r) * k > 0.0; }
  }

  /**
   * With a zero strike the ratio is infinite or NaN: a call is in the money for a positive
   * spot, out of the money for a negative one, and at the money for a zero spot.
   */
  lemma ZeroStrike(spot: real)
    ensures Classify(spot, 0.0, CallOption) == (if spot > 0.0 then ITM else if spot < 0.0 then OTM else ATM)
  {
  }

  /** Calls and puts at strike 100: inside the band, on both of its edges, and 3% above and below it. */
  lemma ClassifyExamples()
    ensures Classify(100.0, 100.0, CallOption) == ATM
    ensures Classify(102.0, 100.0, CallOption) == ATM
    ensures Classify(98.0, 100.0, CallOption) == ATM
    ensures Classify(103.0, 100.0, CallOption) == ITM
    ensures Classify(97.0, 100.0, CallOption) == OTM
    ensures Classify(100.0, 100.0, PutOption) == ATM
    ensures Classify(98.0, 100.0, PutOption) == ATM
    ensures Classify(102.0, 100.0, PutOption) == ATM
    ensures Classify(103.0, 100.0, PutOption) == OTM
    ensures Classify(97.0, 100.0, PutOption) == ITM
  {
  }
}
