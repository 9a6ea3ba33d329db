/** Inferring which outcome won from the last prices of a closed market. */
module Resolution {
  import opened Trading
  import opened Markets

  predicate Extreme(price: real) { price <= 0.01 || price >= 0.99 }

  function Winners(prices: seq<real>): nat {
    if prices == [] then 0
    else Winners(prices[..|prices| - 1]) + if prices[|prices| - 1] >= 0.99 then 1 else 0
  }

  /** Rounded prices by token; a repeated token keeps its last price. */
  function RoundedPrices(tokens: seq<string>, prices: seq<real>): map<string, real>
    requires |tokens| == |prices|
  {
    if tokens == [] then map[]
    else
      var n := |tokens| - 1;
      RoundedPrices(tokens[..n], prices[..n])[tokens[n] := Round(prices[n]) as real]
  }

  function InferResolution(market: Market): Option<map<string, real>> {
    if !market.closed then None
    else if |market.outcomePrices| != |market.tokenIds| || market.outcomePrices == [] then None
    else if exists p | p in market.outcomePrices :: !Extreme(p) then None
    else if Winners(market.outcomePrices) != 1 then None
    else Some(RoundedPrices(market.tokenIds, market.outcomePrices))
  }

  /** One of the tokens pays 1, every other one 0. */
  ghost predicate SingleWinner(payouts: map<string, real>, tokens: seq<string>, winner: nat)
    requires forall t | t in tokens :: t in payouts
  {
    winner < |tokens| && forall i | 0 <= i < |tokens| :: payouts[tokens[i]] == if i == winner then 1.0 else 0.0
  }

  /** A token's payout is its last listed price, rounded to the nearest whole dollar. */
  lemma {:induction false} LastPriceRounded(tokens: seq<string>, prices: seq<real>, i: nat)
    requires |tokens| == |prices| && i < |tokens| && forall j | i < j < |tokens| :: tokens[j] != tokens[i]
    ensures tokens[i] in RoundedPrices(tokens, prices)
    ensures RoundedPrices(tokens, prices)[tokens[i]] == Round(prices[i]) as real
    ensures -0.5 <= prices[i] - RoundedPrices(tokens, prices)[tokens[i]] <= 0.5
  {
    hide Round;
    var n := |tokens| - 1;
    if i < n {
      LastPriceRounded(tokens[..n], prices[..n], i);
    }
  }

  lemma {:induction false} OnlyListed(tokens: seq<string>, prices: seq<real>)
    requires |tokens| == |prices|
    ensures RoundedPrices(tokens, prices).Keys == set t | t in tokens
  {
    hide Round;
    if tokens != [] {
      var n := |tokens| - 1;
      OnlyListed(tokens[..n], prices[..n]);
      assert forall t | t in tokens :: t in tokens[..n] || t == tokens[n];
    }
  }

  lemma RoundedByPosition(tokens: seq<string>, prices: seq<real>)
    requires |tokens| == |prices| && Distinct(tokens)
    ensures RoundedPrices(tokens, prices).Keys == set t | t in tokens
    ensures forall i | 0 <= i < |tokens| :: RoundedPrices(tokens, prices)[tokens[i]] == Round(prices[i]) as real
  {
    hide Round, RoundedPrices;
    OnlyListed(tokens, prices);
    forall i | 0 <= i < |tokens| ensures RoundedPrices(tokens, prices)[tokens[i]] == Round(prices[i]) as real {
      LastPriceRounded(tokens, prices, i);
    }
  }

  /** Position `w` holds the only price at or above 0.99. */
  ghost predicate OnlyHigh(prices: seq<real>, w: nat) {
    w < |prices| && forall i | 0 <= i < |prices| :: prices[i] >= 0.99 <==> i == w
  }

  lemma {:induction false} TheWinner(prices: seq<real>) returns (winner: nat)
    requires Winners(prices) == 1
    ensures OnlyHigh(prices, winner)
  {
    var n := |prices| - 1;
    if prices[n] >= 0.99 {
      winner := n;
      NoWinner(prices[..n]);
      assert forall i | 0 <= i < n :: prices[i] == prices[..n][i];
    } else {
      winner := TheWinner(prices[..n]);
      assert forall i | 0 <= i < n :: prices[i] == prices[..n][i];
    }
  }

  lemma {:induction false} NoWinner(prices: seq<real>)
    ensures Winners(prices) == 0 <==> forall i | 0 <= i < |prices| :: prices[i] < 0.99
  {
    if prices != [] {
      var n := |prices| - 1;
      NoWinner(prices[..n]);
      assert forall i | 0 <= i < n :: prices[i] == prices[..n][i];
    }
  }

  lemma {:induction false} OneWinner(prices: seq<real>, w: nat)
    requires OnlyHigh(prices, w)
    ensures Winners(prices) == 1
  {
    var n := |prices| - 1;
    if w == n {
      NoWinner(prices[..n]);
    } else {
      OneWinner(prices[..n], w);
    }
  }

  /** A resolution is inferred exactly for a closed market with one price per token, all of
      them extreme and exactly one of them high. */
  lemma ResolvesExactly(market: Market)
    ensures InferResolution(market).Some? <==>
      && market.closed
      && |market.outcomePrices| == |market.tokenIds|
      && (forall p | p in market.outcomePrices :: p <= 0.01 || p >= 0.99)
      && (exists w :: OnlyHigh(market.outcomePrices, w))
  {
    var prices := market.outcomePrices;
    if Winners(prices) == 1 {
      var w := TheWinner(prices);
    }
    if w :| OnlyHigh(prices, w) {
      OneWinner(prices, w);
    }
  }

  lemma RoundExtreme(price: real)
    requires Extreme(price)
    ensures (Round(price) == if price >= 0.99 then 1 else 0) <==> -0.5 <= price < 1.5
  {
  }

  lemma RoundBit(price: real)
    requires Round(price) == 0 || Round(price) == 1
    ensures -0.5 <= price < 1.5
  {
  }

  /** Every price rounds to 0 or 1. */
  ghost predicate Bounded(market: Market) {
    forall p | p in market.outcomePrices :: -0.5 <= p < 1.5
  }

  lemma BoundedPricesPayOnce(market: Market) returns (winner: nat)
    requires InferResolution(market).Some? && Distinct(market.tokenIds) && Bounded(market)
    ensures InferResolution(market).value.Keys == set t | t in market.tokenIds
    ensures SingleWinner(InferResolution(market).value, market.tokenIds, winner)
    ensures OnlyHigh(market.outcomePrices, winner)
  {
    var prices, tokens := market.outcomePrices, market.tokenIds;
    RoundedByPosition(tokens, prices);
    winner := TheWinner(prices);
    hide Round;
    forall i | 0 <= i < |tokens|
      ensures InferResolution(market).value[tokens[i]] == if i == winner then 1.0 else 0.0 {
      assert prices[i] in prices && Extreme(prices[i]);
      RoundExtreme(prices[i]);
    }
  }

  /** The inferred payouts are one 1 and otherwise 0 if and only if every price lies in
      [-0.5, 1.5), as all prices in [0, 1] do. */
  lemma SingleWinnerPayouts(market: Market)
    requires InferResolution(market).Some? && Distinct(market.tokenIds)
    ensures InferResolution(market).value.Keys == set t | t in market.tokenIds
    ensures (exists w :: SingleWinner(InferResolution(market).value, market.tokenIds, w)) <==> Bounded(market)
    ensures Bounded(market) ==> exists w ::
      SingleWinner(InferResolution(market).value, market.tokenIds, w) && OnlyHigh(market.outcomePrices, w)
  {
    var prices, tokens := market.outcomePrices, market.tokenIds;
    RoundedByPosition(tokens, prices);
    if Bounded(market) {
      var w := BoundedPricesPayOnce(market);
    }
    hide Round;
    if v :| SingleWinner(InferResolution(market).value, tokens, v) {
      forall p | p in prices ensures -0.5 <= p < 1.5 {
        var i :| 0 <= i < |prices| && prices[i] == p;
        assert Round(p) as real == InferResolution(market).value[tokens[i]];
        RoundBit(p);
      }
    }
  }
}
