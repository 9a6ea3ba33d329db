/** A filled complete set pays exactly its edge, whichever outcome wins. */
module Payoff {
  import opened Trading
  import opened Markets
  import opened Portfolio
  import CompleteSet
  import Resolution

  /** The fill of one leg of `n` sets, at the fee the strategy charges for that price. */
  function LegFill(leg: Leg, n: real, market: Market, time: real, strategy: string): Fill {
    Fill(leg.token, market.conditionId, leg.side, leg.price, n, time, strategy)
  }

  function FillBasket(a: Account, config: CompleteSet.Config, legs: seq<Leg>, n: real, market: Market,
                      time: real, strategy: string): Account {
    if legs == [] then a
    else
      var last := legs[|legs| - 1];
      AfterFill(FillBasket(a, config, legs[..|legs| - 1], n, market, time, strategy),
                LegFill(last, n, market, time, strategy), CompleteSet.FeeRateFor(config, last.price, market))
  }

  function PayoutsOf(legs: seq<Leg>, resolutions: map<string, real>): seq<real>
    requires forall l | l in legs :: l.token in resolutions
  {
    seq(|legs|, i requires 0 <= i < |legs| => resolutions[legs[i].token])
  }

  lemma TradeRedemption(a: Account, b: Account, token: string, q: real, paid: real, resolutions: map<string, real>)
    requires token in resolutions && b.cash == a.cash - paid
    requires forall t :: Shares(b, t) == if t == token then Shares(a, t) + q else Shares(a, t)
    ensures Redemption(b, resolutions) == Redemption(a, resolutions) + Amount(resolutions[token], q) - paid
  {
    hide Amount;
    AmountOfMore(resolutions[token], Shares(a, token), q);
    SumOfWithout(resolutions, Payouts(a), token);
    SumOfWithout(resolutions, Payouts(b), token);
    SumOfSame(resolutions - {token}, Payouts(a), Payouts(b));
  }

  /** One leg's fill of `n` shares changes what the account will hold after settlement by `n`
      times what it earns per share. */
  lemma LegRedemption(a: Account, config: CompleteSet.Config, leg: Leg, n: real, market: Market,
                      time: real, strategy: string, resolutions: map<string, real>)
    requires n > 0.0 && leg.price > 0.0 && leg.token in resolutions
    ensures
      var b := AfterFill(a, LegFill(leg, n, market, time, strategy), CompleteSet.FeeRateFor(config, leg.price, market));
      Redemption(b, resolutions) == Redemption(a, resolutions)
        + n * Earned(config, leg, market, resolutions[leg.token])
  {
    var f, feeRate := LegFill(leg, n, market, time, strategy), CompleteSet.FeeRateFor(config, leg.price, market);
    hide CompleteSet.FeePerShare, CompleteSet.FeeRateFor, Earned, EffectivePrice, Amount;
    FillMoves(a, f, feeRate);
    hide AfterFill, Redemption;
    var paid := EffectivePrice(f, feeRate) * SignedSize(f);
    TradeRedemption(a, AfterFill(a, f, feeRate), leg.token, SignedSize(f), paid, resolutions);
    EarnedTimes(config, leg, n, market, resolutions[leg.token], time, strategy);
  }

  /** Payout less price and fee for a bought share, price less payout and fee for a sold one. */
  function Earned(config: CompleteSet.Config, leg: Leg, market: Market, payout: real): real {
    Direction(leg.side) * (payout - leg.price) - CompleteSet.FeePerShare(config, leg.price, market)
  }

  lemma EarnedTimes(config: CompleteSet.Config, leg: Leg, n: real, market: Market, payout: real,
                    time: real, strategy: string)
    requires leg.price > 0.0
    ensures
      var f, feeRate := LegFill(leg, n, market, time, strategy), CompleteSet.FeeRateFor(config, leg.price, market);
      Amount(payout, SignedSize(f)) - EffectivePrice(f, feeRate) * SignedSize(f)
      == n * Earned(config, leg, market, payout)
  {
    CompleteSet.FeeIsNotional(config, leg.price, market);
    hide CompleteSet.FeePerShare, CompleteSet.FeeRateFor;
  }

  function Direction(side: Side): real {
    if side.Buy? then 1.0 else -1.0
  }

  function EarnedPerSet(config: CompleteSet.Config, legs: seq<Leg>, market: Market,
                        resolutions: map<string, real>): real
    requires forall l | l in legs :: l.token in resolutions
  {
    if legs == [] then 0.0
    else
      var last := legs[|legs| - 1];
      EarnedPerSet(config, legs[..|legs| - 1], market, resolutions)
      + Earned(config, last, market, resolutions[last.token])
  }

  lemma {:induction false} BasketRedemption(a: Account, config: CompleteSet.Config, legs: seq<Leg>,
      n: real, market: Market, time: real, strategy: string, resolutions: map<string, real>)
    requires n > 0.0
    requires forall l | l in legs :: l.token in resolutions && l.price > 0.0
    ensures Redemption(FillBasket(a, config, legs, n, market, time, strategy), resolutions)
         == Redemption(a, resolutions) + n * EarnedPerSet(config, legs, market, resolutions)
  {
    hide Earned, AfterFill, Redemption;
    if legs != [] {
      var last, rest := legs[|legs| - 1], legs[..|legs| - 1];
      assert last in legs && forall l | l in rest :: l in legs;
      BasketRedemption(a, config, rest, n, market, time, strategy, resolutions);
      LegRedemption(FillBasket(a, config, rest, n, market, time, strategy),
                    config, last, n, market, time, strategy, resolutions);
    }
  }

  lemma EarnedOnSide(config: CompleteSet.Config, leg: Leg, market: Market, payout: real)
    ensures Earned(config, leg, market, payout)
         == (if leg.side.Buy? then payout - leg.price else leg.price - payout)
            - CompleteSet.FeePerShare(config, leg.price, market)
  {
    hide CompleteSet.FeePerShare;
  }

  /** A set earns the difference between its payout and its price, less its fees. */
  lemma {:induction false} SetEarnings(config: CompleteSet.Config, side: Side, legs: seq<Leg>, market: Market,
                                       resolutions: map<string, real>)
    requires forall l | l in legs :: l.token in resolutions && l.side == side
    ensures EarnedPerSet(config, legs, market, resolutions)
         == (if side.Buy? then Sum(PayoutsOf(legs, resolutions)) - Sum(Prices(legs))
             else Sum(Prices(legs)) - Sum(PayoutsOf(legs, resolutions)))
            - Sum(CompleteSet.LegFees(config, legs, market))
  {
    hide CompleteSet.FeePerShare, Earned;
    if legs != [] {
      var k := |legs| - 1;
      var last, rest := legs[k], legs[..k];
      assert last in legs && forall l | l in rest :: l in legs;
      EarnedOnSide(config, last, market, resolutions[last.token]);
      SetEarnings(config, side, rest, market, resolutions);
      assert Prices(legs)[..k] == Prices(rest);
      assert PayoutsOf(legs, resolutions)[..k] == PayoutsOf(rest, resolutions);
      assert CompleteSet.LegFees(config, legs, market)[..k] == CompleteSet.LegFees(config, rest, market);
    }
  }

  /** A basket on one side whose stated fee is its legs' and whose edge is what prices and fee
      leave of a dollar. */
  ghost predicate NetOfFees(config: CompleteSet.Config, market: Market, s: Signal) {
    && (forall l | l in s.legs :: l.side == s.side)
    && s.feeCost == Sum(CompleteSet.LegFees(config, s.legs, market))
    && s.edge == (if s.side.Buy? then 1.0 - Sum(Prices(s.legs)) else Sum(Prices(s.legs)) - 1.0) - s.feeCost
  }

  /** Filling `n` sets of such a basket, bought or sold, raises the cash left after settlement by
      exactly `n` times the edge, from any account, whenever the legs pay one dollar in all. */
  lemma BasketPaysEdge(a: Account, config: CompleteSet.Config, market: Market, s: Signal, n: real, time: real,
                       strategy: string, resolutions: map<string, real>)
    requires NetOfFees(config, market, s) && n > 0.0
    requires forall l | l in s.legs :: l.price > 0.0 && l.token in resolutions
    requires Sum(PayoutsOf(s.legs, resolutions)) == 1.0
    ensures AfterSettle(FillBasket(a, config, s.legs, n, market, time, strategy), resolutions).cash
         == AfterSettle(a, resolutions).cash + n * s.edge
  {
    hide AfterSettle, FillBasket, EarnedPerSet;
    SetEarnings(config, s.side, s.legs, market, resolutions);
    BasketRedemption(a, config, s.legs, n, market, time, strategy, resolutions);
    SettledCash(a, resolutions);
    SettledCash(FillBasket(a, config, s.legs, n, market, time, strategy), resolutions);
  }

  /** The edge of any quotes, fired on or not, is what a set of them earns: filling `n` sets at those prices,
      fees included, raises settled cash by `n` times it whenever the outcomes pay one dollar in all. */
  lemma EdgeIsProfit(a: Account, config: CompleteSet.Config, market: Market, quotes: seq<CompleteSet.TopOfBook>,
                     side: Side, n: real, time: real, strategy: string, resolutions: map<string, real>)
    requires n > 0.0 && forall q | q in quotes :: q.price > 0.0 && q.token in resolutions
    requires forall l | l in CompleteSet.LegsOf(quotes, side) :: l.token in resolutions
    requires Sum(PayoutsOf(CompleteSet.LegsOf(quotes, side), resolutions)) == 1.0
    ensures var legs := CompleteSet.LegsOf(quotes, side);
      AfterSettle(FillBasket(a, config, legs, n, market, time, strategy), resolutions).cash
      == AfterSettle(a, resolutions).cash + n * CompleteSet.EdgeOf(config, market, quotes, side)
  {
    var legs := CompleteSet.LegsOf(quotes, side);
    var s := Signal(CompleteSet.EdgeOf(config, market, quotes, side), 0.0, side, None,
                    Sum(CompleteSet.LegFees(config, legs, market)), None, legs);
    hide CompleteSet.FeePerShare, AfterSettle, FillBasket, Sum;
    assert Prices(legs) == CompleteSet.QuotedPrices(quotes);
    assert CompleteSet.LegFees(config, legs, market) == CompleteSet.QuotedFees(config, quotes, market);
    forall l | l in legs ensures l.price > 0.0 && l.side == side {
      var i :| 0 <= i < |legs| && legs[i] == l;
      assert quotes[i] in quotes;
    }
    BasketPaysEdge(a, config, market, s, n, time, strategy, resolutions);
  }

  lemma FiredNetOfFees(config: CompleteSet.Config, market: Market, books: map<string, OrderBook>)
    requires CompleteSet.Evaluated(config, market, books).Some?
    ensures NetOfFees(config, market, CompleteSet.Evaluated(config, market, books).value)
    ensures CompleteSet.Evaluated(config, market, books).value.edge > config.minEdgeRate
  {
    hide CompleteSet.Evaluated;
    CompleteSet.SignalLegs(config, market, books);
    CompleteSet.SignalEdge(config, market, books);
  }

  /** Buying or selling `n` complete sets on a fired signal earns exactly `n` times its edge, which
      exceeds the configured minimum, whenever the resolution pays one dollar per set. */
  lemma GuaranteedPayoff(a: Account, config: CompleteSet.Config, market: Market, books: map<string, OrderBook>,
      n: real, time: real, strategy: string, resolutions: map<string, real>)
    requires CompleteSet.Evaluated(config, market, books).Some? && n > 0.0
    requires var legs := CompleteSet.Evaluated(config, market, books).value.legs;
      && (forall l | l in legs :: l.price > 0.0 && l.token in resolutions)
      && Sum(PayoutsOf(legs, resolutions)) == 1.0
    ensures var s := CompleteSet.Evaluated(config, market, books).value;
      && AfterSettle(FillBasket(a, config, s.legs, n, market, time, strategy), resolutions).cash
         == AfterSettle(a, resolutions).cash + n * s.edge
      && s.edge > config.minEdgeRate
  {
    hide CompleteSet.Evaluated, AfterSettle, FillBasket, NetOfFees, Sum;
    FiredNetOfFees(config, market, books);
    BasketPaysEdge(a, config, market, CompleteSet.Evaluated(config, market, books).value, n, time, strategy,
                   resolutions);
  }

  lemma {:induction false} OneHot(xs: seq<real>, w: nat)
    requires forall i | 0 <= i < |xs| :: xs[i] == if i == w then 1.0 else 0.0
    ensures Sum(xs) == if w < |xs| then 1.0 else 0.0
  {
    if xs != [] {
      OneHot(xs[..|xs| - 1], w);
    }
  }

  /** From signal to settlement: with distinct tokens and final prices that resolve, the
      inferred resolution pays the basket its edge, whichever outcome won. */
  lemma ResolvedPayoff(a: Account, config: CompleteSet.Config, market: Market, books: map<string, OrderBook>,
      n: real, time: real, strategy: string, final: Market)
    requires CompleteSet.Evaluated(config, market, books).Some? && n > 0.0
    requires forall l | l in CompleteSet.Evaluated(config, market, books).value.legs :: l.price > 0.0
    requires Distinct(market.tokenIds) && final.tokenIds == market.tokenIds
    requires Resolution.InferResolution(final).Some? && Resolution.Bounded(final)
    ensures var s, resolutions := CompleteSet.Evaluated(config, market, books).value,
                                  Resolution.InferResolution(final).value;
      AfterSettle(FillBasket(a, config, s.legs, n, market, time, strategy), resolutions).cash
      == AfterSettle(a, resolutions).cash + n * s.edge
  {
    PaysOnce(config, market, books, final);
    var resolutions := Resolution.InferResolution(final).value;
    hide CompleteSet.Evaluated, Resolution.InferResolution, AfterSettle, FillBasket, PayoutsOf;
    GuaranteedPayoff(a, config, market, books, n, time, strategy, resolutions);
  }

  lemma PaysOnce(config: CompleteSet.Config, market: Market, books: map<string, OrderBook>, final: Market)
    requires CompleteSet.Evaluated(config, market, books).Some?
    requires Distinct(market.tokenIds) && final.tokenIds == market.tokenIds
    requires Resolution.InferResolution(final).Some? && Resolution.Bounded(final)
    ensures var legs, resolutions := CompleteSet.Evaluated(config, market, books).value.legs,
                                     Resolution.InferResolution(final).value;
      (forall l | l in legs :: l.token in resolutions) && Sum(PayoutsOf(legs, resolutions)) == 1.0
  {
    hide CompleteSet.Evaluated, Resolution.InferResolution, Resolution.Bounded;
    hide CompleteSet.Unrepeated, BestAsk, BestBid, Sum;
    CompleteSet.SignalLegs(config, market, books);
    CompleteSet.UnrepeatedDistinct(market.tokenIds);
    var w := Resolution.BoundedPricesPayOnce(final);
    var legs, resolutions := CompleteSet.Evaluated(config, market, books).value.legs,
                             Resolution.InferResolution(final).value;
    assert forall l | l in legs :: l.token in resolutions;
    OneHot(PayoutsOf(legs, resolutions), w);
  }
}
