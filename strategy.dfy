/** Profit and loss of a multi-leg option strategy over a grid of spot prices. */
module Strategy {
  import opened Results

  datatype Action = Buy | Sell

  datatype Instrument = Call | Put | Stock

  /** One leg of a strategy; `strike` is optional, as it is for stock legs. */
  datatype Leg = Leg(instrument: Instrument, action: Action, strike: Option<real>, quantity: real, premium: real)

  /** +1 for a purchase, -1 for a sale. */
  function Multiplier(action: Action): real
  {
    if action == Buy then 1.0 else -1.0
  }

  /** The premium as a cash flow: paid when buying, received when selling. */
  function NetPremium(leg: Leg): real
  {
    if leg.action == Buy then -leg.premium else leg.premium
  }

  /** The truthiness test `leg.strike`: a strike is present and is not 0. */
  predicate HasStrike(leg: Leg)
  {
    leg.strike.Some? && leg.strike.value != 0.0
  }

  /** `Math.max(a, b)`. */
  function Max(a: real, b: real): real
  {
    if a >= b then a else b
  }

  /**
   * The contribution of one leg at one spot price. An option without a usable strike
   * contributes nothing; any other leg contributes the position's sign times the quantity
   * times what the instrument is worth at expiry less the premium paid for it.
   */
  function LegPayoff(leg: Leg, spot: real): (r: real)
    ensures leg.instrument != Stock && !HasStrike(leg) ==> r == 0.0
    ensures leg.instrument == Stock || HasStrike(leg) ==>
      r == Multiplier(leg.action) * leg.quantity * (ExpiryValue(leg, spot) - leg.premium)
  {
    var multiplier := Multiplier(leg.action);
    var netPremium := NetPremium(leg);
    match leg.instrument
    case Stock => spot * multiplier * leg.quantity + netPremium * leg.quantity
    case Call =>
      if HasStrike(leg) then (Max(0.0, spot - leg.strike.value) * multiplier + netPremium) * leg.quantity
      else 0.0
    case Put =>
      if HasStrike(leg) then (Max(0.0, leg.strike.value - spot) * multiplier + netPremium) * leg.quantity
      else 0.0
  }

  /**
   * The fold `legs.reduce((total, leg) => total + legPayoff, 0)` at one spot price: no legs
   * pay nothing, and a single leg pays exactly its own contribution.
   */
  function TotalPayoff(legs: seq<Leg>, spot: real): (r: real)
    ensures |legs| == 0 ==> r == 0.0
    ensures |legs| == 1 ==> r == LegPayoff(legs[0], spot)
  {
    if |legs| == 0 then 0.0 else TotalPayoff(legs[..|legs| - 1], spot) + LegPayoff(legs[|legs| - 1], spot)
  }

  /** `strategyPayoff`: one total payoff per spot price, in the order of the spot prices. */
  function StrategyPayoff(legs: seq<Leg>, spotPrices: seq<real>): (r: seq<real>)
    ensures |r| == |spotPrices|
    ensures forall i :: 0 <= i < |r| ==> r[i] == TotalPayoff(legs, spotPrices[i])
  {
    seq(|spotPrices|, i requires 0 <= i < |spotPrices| => TotalPayoff(legs, spotPrices[i]))
  }

  /** What the leg's instrument is worth at expiry for the holder at a given spot price. */
  function ExpiryValue(leg: Leg, spot: real): real
    requires leg.instrument == Stock || leg.strike.Some?
  {
    match leg.instrument
    case Stock => spot
    case Call => Max(0.0, spot - leg.strike.value)
    case Put => Max(0.0, leg.strike.value - spot)
  }

  /** The same leg with the opposite action. */
  function Flipped(leg: Leg): Leg
  {
    leg.(action := if leg.action == Buy then Sell else Buy)
  }

  /** Every leg flipped, in the same order. */
  function FlippedAll(legs: seq<Leg>): (r: seq<Leg>)
    ensures |r| == |legs|
    ensures forall i :: 0 <= i < |legs| ==> r[i] == Flipped(legs[i])
  {
    seq(|legs|, i requires 0 <= i < |legs| => Flipped(legs[i]))
  }

  /** A strategy whose every leg gains at a spot price gains there; one whose every leg loses, loses. */
  lemma {:induction false} TotalPayoffSign(legs: seq<Leg>, spot: real)
    ensures (forall i :: 0 <= i < |legs| ==> LegPayoff(legs[i], spot) >= 0.0) ==> TotalPayoff(legs, spot) >= 0.0
    ensures (forall i :: 0 <= i < |legs| ==> LegPayoff(legs[i], spot) <= 0.0) ==> TotalPayoff(legs, spot) <= 0.0
  {
    if |legs| > 0 {
      var init := legs[..|legs| - 1];
      TotalPayoffSign(init, spot);
      assert forall i :: 0 <= i < |init| ==> init[i] == legs[i];
    }
  }

  /** Selling instead of buying negates a leg's contribution at every spot price. */
  lemma FlipNegatesLeg(leg: Leg, spot: real)
    ensures LegPayoff(Flipped(leg), spot) == -LegPayoff(leg, spot)
  {
    var m, q := Multiplier(leg.action), leg.quantity;
    assert Multiplier(Flipped(leg).action) == -m;
    assert NetPremium(Flipped(leg)) == -NetPremium(leg);
    assert HasStrike(Flipped(leg)) == HasStrike(leg);
    var n := NetPremium(leg);
    match leg.instrument
    case Stock =>
      assert spot * -m * q + -n * q == -(spot * m * q + n * q);
    case Call =>
      if HasStrike(leg) {
        var i := Max(0.0, spot - leg.strike.value);
        assert (i * -m + -n) * q == -((i * m + n) * q);
      }
    case Put =>
      if HasStrike(leg) {
        var i := Max(0.0, leg.strike.value - spot);
        assert (i * -m + -n) * q == -((i * m + n) * q);
      }
  }

  /** The payoff of a concatenation of strategies is the sum of their payoffs. */
  lemma {:induction false} TotalPayoffAppend(legs1: seq<Leg>, legs2: seq<Leg>, spot: real)
    ensures TotalPayoff(legs1 + legs2, spot) == TotalPayoff(legs1, spot) + TotalPayoff(legs2, spot)
  {
    if |legs2| == 0 {
      assert legs1 + legs2 == legs1;
    } else {
      var n := |legs2| - 1;
      assert (legs1 + legs2)[..|legs1 + legs2| - 1] == legs1 + legs2[..n];
      TotalPayoffAppend(legs1, legs2[..n], spot);
    }
  }

  /** Flipping every leg negates the total payoff. */
  lemma {:induction false} FlipNegatesTotal(legs: seq<Leg>, spot: real)
    ensures TotalPayoff(FlippedAll(legs), spot) == -TotalPayoff(legs, spot)
  {
    if |legs| > 0 {
      var n := |legs| - 1;
      assert FlippedAll(legs)[..n] == FlippedAll(legs[..n]);
      FlipNegatesTotal(legs[..n], spot);
      FlipNegatesLeg(legs[n], spot);
    }
  }

  /** With no legs, every spot price pays 0. */
  lemma EmptyStrategyPaysNothing(spotPrices: seq<real>)
    ensures |StrategyPayoff([], spotPrices)| == |spotPrices|
    ensures forall i :: 0 <= i < |spotPrices| ==> StrategyPayoff([], spotPrices)[i] == 0.0
  {
  }

  /** `strategyPayoff` is additive over the legs, spot price by spot price. */
  lemma StrategyPayoffAdditive(legs1: seq<Leg>, legs2: seq<Leg>, spotPrices: seq<real>)
    ensures forall i :: 0 <= i < |spotPrices| ==>
      StrategyPayoff(legs1 + legs2, spotPrices)[i]
        == StrategyPayoff(legs1, spotPrices)[i] + StrategyPayoff(legs2, spotPrices)[i]
  {
    forall i | 0 <= i < |spotPrices|
      ensures StrategyPayoff(legs1 + legs2, spotPrices)[i]
           == StrategyPayoff(legs1, spotPrices)[i] + StrategyPayoff(legs2, spotPrices)[i]
    {
      TotalPayoffAppend(legs1, legs2, spotPrices[i]);
    }
  }

  /** `strategyPayoff` of the flipped strategy is the negation, spot price by spot price. */
  lemma StrategyPayoffFlipped(legs: seq<Leg>, spotPrices: seq<real>)
    ensures forall i :: 0 <= i < |spotPrices| ==>
      StrategyPayoff(FlippedAll(legs), spotPrices)[i] == -StrategyPayoff(legs, spotPrices)[i]
  {
    forall i | 0 <= i < |spotPrices|
      ensures StrategyPayoff(FlippedAll(legs), spotPrices)[i] == -StrategyPayoff(legs, spotPrices)[i]
    {
      FlipNegatesTotal(legs, spotPrices[i]);
    }
  }

  /**
   * A call leg is flat below its strike and moves one-for-one with the spot (times the
   * signed quantity) above it; a put leg is the mirror image.
   */
  lemma OptionLegPiecewiseLinear(leg: Leg, spot: real)
    requires leg.instrument != Stock && HasStrike(leg)
    ensures var k, slope := leg.strike.value, Multiplier(leg.action) * leg.quantity;
      if leg.instrument == Call then
        (spot <= k ==> LegPayoff(leg, spot) == LegPayoff(leg, k)) &&
        (spot >= k ==> LegPayoff(leg, spot) == LegPayoff(leg, k) + slope * (spot - k))
      else
        (spot >= k ==> LegPayoff(leg, spot) == LegPayoff(leg, k)) &&
        (spot <= k ==> LegPayoff(leg, spot) == LegPayoff(leg, k) + slope * (k - spot))
  {
    var k, m, q := leg.strike.value, Multiplier(leg.action), leg.quantity;
    var v := ExpiryValue(leg, spot);
    assert ExpiryValue(leg, k) == 0.0;
    assert m * q * (v - leg.premium) == m * q * (0.0 - leg.premium) + m * q * v;
  }

  /** A stock leg moves one-for-one with the spot, times the signed quantity. */
  lemma StockLegLinear(leg: Leg, spot: real)
    requires leg.instrument == Stock
    ensures LegPayoff(leg, spot) == LegPayoff(leg, 0.0) + Multiplier(leg.action) * leg.quantity * spot
  {
    var m, q := Multiplier(leg.action), leg.quantity;
    assert m * q * (spot - leg.premium) == m * q * (0.0 - leg.premium) + m * q * spot;
  }

  /** A bought option with a non-negative quantity never loses more than the premium paid. */
  lemma LongOptionLossBounded(leg: Leg, spot: real)
    requires leg.instrument != Stock && HasStrike(leg)
    requires leg.action == Buy && leg.quantity >= 0.0
    ensures LegPayoff(leg, spot) >= -leg.premium * leg.quantity
  {
    var v, q := ExpiryValue(leg, spot), leg.quantity;
    assert v * q >= 0.0;
    assert 1.0 * q * (v - leg.premium) == v * q - leg.premium * q;
  }

  /** The payoff of a two-leg strategy is the sum of its two legs' payoffs. */
  lemma TwoLegs(legs: seq<Leg>, spot: real)
    requires |legs| == 2
    ensures TotalPayoff(legs, spot) == LegPayoff(legs[0], spot) + LegPayoff(legs[1], spot)
  {
    assert legs[..1][..0] == [] && legs[..1] == [legs[0]];
    assert TotalPayoff(legs[..1], spot) == LegPayoff(legs[0], spot);
  }

  /** A bought leg pays its quantity times its value at expiry less its premium. */
  lemma BoughtLeg(leg: Leg, spot: real)
    requires leg.action == Buy && (leg.instrument == Stock || HasStrike(leg))
    ensures LegPayoff(leg, spot) == (ExpiryValue(leg, spot) - leg.premium) * leg.quantity
  {
  }

  /** A long straddle: buy a call and a put at the same strike, premium and quantity. */
  function LongStraddle(strike: real, premium: real, quantity: real): seq<Leg>
  {
    [Leg(Call, Buy, Some(strike), quantity, premium), Leg(Put, Buy, Some(strike), quantity, premium)]
  }

  /**
   * A long straddle loses both premiums at the strike and gains the distance from the
   * strike on either side, so it grows without bound as the spot moves away.
   */
  lemma LongStraddlePayoff(strike: real, premium: real, quantity: real, distance: real)
    requires strike != 0.0 && distance >= 0.0
    ensures TotalPayoff(LongStraddle(strike, premium, quantity), strike) == -2.0 * premium * quantity
    ensures TotalPayoff(LongStraddle(strike, premium, quantity), strike + distance)
         == quantity * distance - 2.0 * premium * quantity
    ensures TotalPayoff(LongStraddle(strike, premium, quantity), strike - distance)
         == quantity * distance - 2.0 * premium * quantity
  {
    var legs := LongStraddle(strike, premium, quantity);
    TwoLegs(legs, strike);
    TwoLegs(legs, strike + distance);
    TwoLegs(legs, strike - distance);
    var q, p := quantity, premium;
    var call, put := legs[0], legs[1];
    assert (0.0 - p) * q == -p * q;
    assert (distance - p) * q == q * distance - p * q;
    BoughtLeg(call, strike);
    BoughtLeg(put, strike);
    BoughtLeg(call, strike + distance);
    BoughtLeg(put, strike + distance);
    BoughtLeg(call, strike - distance);
    BoughtLeg(put, strike - distance);
  }
}
