/** Fractional Kelly sizing of a binary bet. */
module Sizing {
  import opened Trading
  import opened RealFacts

  datatype KellyParams = KellyParams(kellyFraction: real, maxStakeFraction: real)

  function ImpliedFairPrice(price: real, edge: real, side: Side): (fair: real)
    ensures 0.0 <= fair <= 1.0
  {
    Max(0.0, Min(1.0, if side.Buy? then price + edge else price - edge))
  }

  /** The share of bankroll that full Kelly stakes; zero without an edge on that side. */
  function FullKelly(price: real, fair: real, side: Side): real {
    if side.Buy? then
      if price >= 1.0 || fair <= price then 0.0 else (fair - price) / (1.0 - price)
    else
      if price <= 0.0 || fair >= price then 0.0 else (price - fair) / price
  }

  function StakeFraction(price: real, fair: real, side: Side, confidence: real, params: KellyParams): real {
    if FullKelly(price, fair, side) == 0.0 then 0.0
    else Max(0.0, Min(Scaled(FullKelly(price, fair, side), confidence, params), params.maxStakeFraction))
  }

  /** The part of full Kelly that confidence and the configured fraction leave. */
  function Scaled(fullKelly: real, confidence: real, params: KellyParams): real {
    fullKelly * confidence * params.kellyFraction
  }

  function PositionSizeUsd(price: real, edge: real, side: Side, confidence: real, bankroll: real,
                           params: KellyParams): real {
    if price <= 0.0 || price >= 1.0 || bankroll <= 0.0 then 0.0
    else StakeFraction(price, ImpliedFairPrice(price, edge, side), side, confidence, params) * bankroll
  }

  // ---- growth optimality ----------------------------------------------------------------

  /** The bankroll after a win and after a loss, per dollar, when a fraction f buys f / price
      shares that pay 1. */
  function AfterWin(price: real, f: real): real
    requires price > 0.0
  {
    1.0 - f + f / price
  }

  function AfterLoss(f: real): real { 1.0 - f }

  /** Gain per staked dollar if won, weighted with its probability. */
  function WinWeight(price: real, fair: real): real
    requires price > 0.0
  {
    fair * (1.0 / price - 1.0)
  }

  lemma BothPositive(price: real, f: real)
    requires 0.0 < price < 1.0 && 0.0 <= f < 1.0
    ensures AfterWin(price, f) > 0.0 && AfterLoss(f) > 0.0
  {
    QuotientMonotone(0.0, f, price);
  }

  /** Derivative in f of the expected log bankroll,
      fair * log(AfterWin) + (1 - fair) * log(AfterLoss). */
  function MarginalGrowth(price: real, fair: real, f: real): real
    requires 0.0 < price < 1.0 && 0.0 <= f < 1.0
  {
    BothPositive(price, f);
    WinWeight(price, fair) / AfterWin(price, f) - (1.0 - fair) / AfterLoss(f)
  }

  /** Cleared of its fractions, marginal growth is the distance to the Kelly fraction. */
  lemma ClearedGrowth(price: real, fair: real, f: real)
    requires 0.0 < price < 1.0
    ensures WinWeight(price, fair) * AfterLoss(f) - (1.0 - fair) * AfterWin(price, f)
         == (fair - price - f * (1.0 - price)) / price
  {
    var r := 1.0 / price;
    assert r * price == 1.0;
    assert f / price == f * r;
    assert (fair - price - f * (1.0 - price)) / price == (fair - price - f * (1.0 - price)) * r;
    calc {
      (fair - price - f * (1.0 - price)) * r;
      fair * r - price * r - f * r + f * (price * r);
      fair * r - 1.0 - f * r + f;
    }
    calc {
      fair * (r - 1.0) * (1.0 - f) - (1.0 - fair) * (1.0 - f + f * r);
      fair * r - 1.0 + f - f * r;
    }
  }

  lemma GrowthSign(price: real, fair: real, f: real)
    requires 0.0 < price < 1.0 && 0.0 <= f < 1.0
    ensures MarginalGrowth(price, fair, f) > 0.0 <==> fair - price - f * (1.0 - price) > 0.0
    ensures MarginalGrowth(price, fair, f) == 0.0 <==> fair - price - f * (1.0 - price) == 0.0
  {
    ClearedGrowth(price, fair, f);
    BothPositive(price, f);
    hide WinWeight, AfterWin, AfterLoss;
    FractionsCompare(WinWeight(price, fair), AfterWin(price, f), 1.0 - fair, AfterLoss(f));
    QuotientSign(fair - price - f * (1.0 - price), price);
  }

  /** For a price below fair value the Kelly fraction is where expected log growth peaks: its
      derivative is positive before, zero at, and negative after it. */
  lemma KellyIsGrowthOptimal(price: real, fair: real, f: real)
    requires 0.0 < price < fair < 1.0 && 0.0 <= f < 1.0
    ensures 0.0 < FullKelly(price, fair, Buy) < 1.0
    ensures MarginalGrowth(price, fair, f) > 0.0 <==> f < FullKelly(price, fair, Buy)
    ensures MarginalGrowth(price, fair, f) == 0.0 <==> f == FullKelly(price, fair, Buy)
  {
    GrowthSign(price, fair, f);
    hide MarginalGrowth;
    var k := FullKelly(price, fair, Buy);
    QuotientBelowOne(fair - price, 1.0 - price);
    QuotientSign(fair - price - f * (1.0 - price), 1.0 - price);
    assert (fair - price - f * (1.0 - price)) / (1.0 - price) == k - f;
  }

  // ---- the sized stake ------------------------------------------------------------------

  /** Selling at `price` is buying the other outcome at `1 - price`. */
  lemma SidesMirror(price: real, edge: real, confidence: real, bankroll: real, params: KellyParams)
    ensures PositionSizeUsd(price, edge, Sell, confidence, bankroll, params)
         == PositionSizeUsd(1.0 - price, edge, Buy, confidence, bankroll, params)
  {
    if 0.0 < price < 1.0 {
      var fair := ImpliedFairPrice(price, edge, Sell);
      assert ImpliedFairPrice(1.0 - price, edge, Buy) == 1.0 - fair;
      assert 1.0 - fair - (1.0 - price) == price - fair && 1.0 - (1.0 - price) == price;
    }
  }

  ghost predicate Sane(confidence: real, params: KellyParams) {
    0.0 <= confidence <= 1.0 && params.kellyFraction >= 0.0 && params.maxStakeFraction >= 0.0
  }

  lemma FullKellyRange(price: real, fair: real, side: Side)
    requires 0.0 < price < 1.0 && 0.0 <= fair <= 1.0
    ensures 0.0 <= FullKelly(price, fair, side) <= 1.0
  {
    if side.Buy? && price < fair < 1.0 { QuotientBelowOne(fair - price, 1.0 - price); }
    if side.Sell? && 0.0 < fair < price { QuotientBelowOne(price - fair, price); }
    if side.Sell? && fair == 0.0 { QuotientIs(price - fair, price, 1.0); }
  }

  /** The stake lies between nothing and the configured share of the bankroll. */
  lemma StakeBounded(price: real, edge: real, side: Side, confidence: real, bankroll: real, params: KellyParams)
    requires Sane(confidence, params)
    ensures 0.0 <= PositionSizeUsd(price, edge, side, confidence, bankroll, params)
    ensures bankroll >= 0.0 ==>
      PositionSizeUsd(price, edge, side, confidence, bankroll, params) <= params.maxStakeFraction * bankroll
  {
    if 0.0 < price < 1.0 && bankroll > 0.0 {
      var fraction := StakeFraction(price, ImpliedFairPrice(price, edge, side), side, confidence, params);
      assert 0.0 <= fraction <= params.maxStakeFraction;
      hide StakeFraction, ImpliedFairPrice;
      MulMonotone(0.0, fraction, bankroll);
      MulMonotone(fraction, params.maxStakeFraction, bankroll);
    } else if bankroll >= 0.0 {
      MulMonotone(0.0, params.maxStakeFraction, bankroll);
    }
  }

  /** What would be staked with full confidence, full Kelly and no cap below the bankroll. */
  function FullStake(price: real, edge: real, side: Side, bankroll: real): real {
    PositionSizeUsd(price, edge, side, 1.0, bankroll, KellyParams(1.0, 1.0))
  }

  lemma FullStakeIs(price: real, edge: real, side: Side, bankroll: real)
    requires 0.0 < price < 1.0 && bankroll > 0.0
    ensures FullStake(price, edge, side, bankroll)
         == FullKelly(price, ImpliedFairPrice(price, edge, side), side) * bankroll
  {
    hide FullKelly, ImpliedFairPrice;
    var fair := ImpliedFairPrice(price, edge, side);
    FullKellyRange(price, fair, side);
    assert Scaled(FullKelly(price, fair, side), 1.0, KellyParams(1.0, 1.0)) == FullKelly(price, fair, side);
  }

  /** The full stake on a bought edge is where expected log growth peaks, the fair price being price plus
      edge; a certain win stakes everything, and no edge nothing. */
  lemma FullStakeIsOptimal(price: real, edge: real, bankroll: real)
    requires 0.0 < price < 1.0 && bankroll > 0.0
    ensures edge <= 0.0 ==> FullStake(price, edge, Buy, bankroll) == 0.0
    ensures price + edge >= 1.0 ==> FullStake(price, edge, Buy, bankroll) == bankroll
    ensures edge > 0.0 && price + edge < 1.0 ==>
      var f := FullStake(price, edge, Buy, bankroll) / bankroll;
      0.0 < f < 1.0 && MarginalGrowth(price, price + edge, f) == 0.0
  {
    hide MarginalGrowth, FullStake, FullKelly, ImpliedFairPrice;
    BuyingKelly(price, edge);
    var k := ShareStaked(price, edge, bankroll);
    if edge > 0.0 && price + edge < 1.0 {
      KellyIsGrowthOptimal(price, price + edge, k);
    }
  }

  lemma ShareStaked(price: real, edge: real, bankroll: real) returns (k: real)
    requires 0.0 < price < 1.0 && bankroll > 0.0
    ensures k == FullKelly(price, ImpliedFairPrice(price, edge, Buy), Buy)
    ensures FullStake(price, edge, Buy, bankroll) / bankroll == k
    ensures k == 0.0 ==> FullStake(price, edge, Buy, bankroll) == 0.0
    ensures k == 1.0 ==> FullStake(price, edge, Buy, bankroll) == bankroll
  {
    hide FullStake, FullKelly, ImpliedFairPrice;
    k := FullKelly(price, ImpliedFairPrice(price, edge, Buy), Buy);
    FullStakeIs(price, edge, Buy, bankroll);
    QuotientIs(FullStake(price, edge, Buy, bankroll), bankroll, k);
  }

  lemma BuyingKelly(price: real, edge: real)
    requires 0.0 < price < 1.0
    ensures var fair := ImpliedFairPrice(price, edge, Buy);
      && (edge <= 0.0 ==> FullKelly(price, fair, Buy) == 0.0)
      && (price + edge >= 1.0 ==> FullKelly(price, fair, Buy) == 1.0)
      && (edge > 0.0 && price + edge < 1.0 ==> fair == price + edge && 0.0 < FullKelly(price, fair, Buy) < 1.0)
  {
    if edge > 0.0 && price + edge < 1.0 {
      QuotientBelowOne(edge, 1.0 - price);
    }
    QuotientIs(1.0 - price, 1.0 - price, 1.0);
  }

  /** The stake is the full one in proportion to confidence and to the Kelly fraction, cut at the configured
      share of the bankroll. */
  lemma StakeInProportion(price: real, edge: real, side: Side, confidence: real, bankroll: real, params: KellyParams)
    requires Sane(confidence, params) && 0.0 < price < 1.0 && bankroll > 0.0
    ensures PositionSizeUsd(price, edge, side, confidence, bankroll, params)
         == Min(FullStake(price, edge, side, bankroll) * confidence * params.kellyFraction,
                params.maxStakeFraction * bankroll)
  {
    hide FullKelly, ImpliedFairPrice, FullStake;
    FullStakeIs(price, edge, side, bankroll);
    var fair := ImpliedFairPrice(price, edge, side);
    var k, scaled := FullKelly(price, fair, side), Scaled(FullKelly(price, fair, side), confidence, params);
    FullKellyRange(price, fair, side);
    ScaledMonotone(k, k, confidence, confidence, params);
    ScaledStake(k, confidence, params.kellyFraction, bankroll);
    assert scaled == k * confidence * params.kellyFraction;
    MinTimes(scaled, params.maxStakeFraction, bankroll);
    assert StakeFraction(price, fair, side, confidence, params) == Min(scaled, params.maxStakeFraction);
  }

  lemma ScaledStake(k: real, confidence: real, fraction: real, bankroll: real)
    ensures k * bankroll * confidence * fraction == k * confidence * fraction * bankroll
  {
  }

  lemma MinTimes(x: real, y: real, factor: real)
    requires factor > 0.0
    ensures Min(x, y) * factor == Min(x * factor, y * factor)
  {
    if x <= y { MulMonotone(x, y, factor); } else { MulMonotone(y, x, factor); }
  }

  /** A larger edge never stakes less on full Kelly. */
  lemma FullKellyMonotone(price: real, edge: real, edge': real, side: Side)
    requires 0.0 < price < 1.0 && edge <= edge'
    ensures FullKelly(price, ImpliedFairPrice(price, edge, side), side)
         <= FullKelly(price, ImpliedFairPrice(price, edge', side), side)
  {
    var fair, fair' := ImpliedFairPrice(price, edge, side), ImpliedFairPrice(price, edge', side);
    FullKellyRange(price, fair', side);
    if side.Buy? {
      QuotientMonotone(fair - price, fair' - price, 1.0 - price);
    } else {
      QuotientMonotone(price - fair, price - fair', price);
    }
  }

  /** The stake never shrinks when the edge or the confidence grows. */
  lemma StakeMonotone(price: real, edge: real, edge': real, side: Side, confidence: real, confidence': real,
                      bankroll: real, params: KellyParams)
    requires Sane(confidence, params) && Sane(confidence', params)
    requires edge <= edge' && confidence <= confidence'
    ensures PositionSizeUsd(price, edge, side, confidence, bankroll, params)
         <= PositionSizeUsd(price, edge', side, confidence', bankroll, params)
  {
    hide StakeFraction, FullKelly, ImpliedFairPrice;
    if 0.0 < price < 1.0 && bankroll > 0.0 {
      var fair, fair' := ImpliedFairPrice(price, edge, side), ImpliedFairPrice(price, edge', side);
      FullKellyRange(price, fair, side);
      FullKellyMonotone(price, edge, edge', side);
      StakeGrows(price, fair, fair', side, confidence, confidence', params);
      MulMonotone(StakeFraction(price, fair, side, confidence, params),
                  StakeFraction(price, fair', side, confidence', params), bankroll);
    }
  }

  lemma StakeGrows(price: real, fair: real, fair': real, side: Side, confidence: real, confidence': real,
                   params: KellyParams)
    requires Sane(confidence, params) && Sane(confidence', params) && confidence <= confidence'
    requires 0.0 <= FullKelly(price, fair, side) <= FullKelly(price, fair', side)
    ensures StakeFraction(price, fair, side, confidence, params)
         <= StakeFraction(price, fair', side, confidence', params)
  {
    hide FullKelly, Scaled;
    ScaledMonotone(FullKelly(price, fair, side), FullKelly(price, fair', side), confidence, confidence', params);
  }

  lemma ScaledMonotone(k: real, k': real, confidence: real, confidence': real, params: KellyParams)
    requires 0.0 <= k <= k' && 0.0 <= confidence <= confidence' && params.kellyFraction >= 0.0
    ensures 0.0 <= Scaled(k, confidence, params) <= Scaled(k', confidence', params)
  {
    MulMonotone3(k, k', confidence, confidence', params.kellyFraction);
    MulMonotone3(0.0, k, 0.0, confidence, params.kellyFraction);
  }
}
