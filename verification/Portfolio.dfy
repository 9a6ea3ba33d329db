/** Weighted-average-cost accounting of fills and settlements. */
module Portfolio {
  import opened Trading

  /** `conditionId` is "" where the program holds None. */
  datatype Position = Position(conditionId: string, shares: real, avgCost: real)

  datatype Fill = Fill(token: string, conditionId: string, side: Side, price: real, size: real,
                       timestamp: real, strategy: string)

  /** What the accounting remembers, as a value. */
  datatype Account = Account(cash: real, realized: real, positions: map<string, Position>)

  datatype Event =
    | Filled(fill: Fill, feeRate: real)
    | Settled(resolutions: map<string, real>)

  datatype Outcome = Done | ValueError

  /** The dollars in some shares at a price. */
  function Amount(price: real, shares: real): real {
    price * shares
  }

  lemma NoShares(price: real)
    ensures Amount(price, 0.0) == 0.0
  {
  }

  lemma AmountOfMore(price: real, shares: real, q: real)
    ensures Amount(price, shares + q) == Amount(price, shares) + Amount(price, q)
  {
  }

  // ---- one fill, as a specification -------------------------------------------------

  function SignedSize(f: Fill): real {
    if f.side.Buy? then f.size else -f.size
  }

  /** Price after the fee: a buyer pays it on top, a seller receives less. */
  function EffectivePrice(f: Fill, feeRate: real): real {
    if f.side.Buy? then f.price + f.price * feeRate else f.price - f.price * feeRate
  }

  /** Average of two prices weighted by share counts. */
  function Mean(s: real, x: real, q: real, y: real): real
    requires s + q != 0.0
  {
    (x * s + y * q) / (s + q)
  }

  /** The position after trading `q` signed shares at `eff`, and the profit this realizes:
      shares closed are valued against their average cost, shares opened carry `eff`. */
  function Trade(p: Position, q: real, eff: real): (r: (Position, real))
    requires q != 0.0
  {
    var shares := p.shares + q;
    if p.shares == 0.0 || (p.shares > 0.0) == (q > 0.0) then
      (p.(shares := shares, avgCost := Mean(p.shares, p.avgCost, q, eff)), 0.0)
    else if Abs(q) < Abs(p.shares) then
      (p.(shares := shares), (p.avgCost - eff) * q)
    else if Abs(q) == Abs(p.shares) then
      (p.(shares := 0.0, avgCost := 0.0), (p.avgCost - eff) * q)
    else
      (p.(shares := shares, avgCost := eff), (eff - p.avgCost) * p.shares)
  }

  function PositionOf(a: Account, f: Fill): Position {
    if f.token in a.positions then a.positions[f.token] else Position(f.conditionId, 0.0, 0.0)
  }

  /** A fill of non-positive size is refused and leaves no trace. */
  function AfterFill(a: Account, f: Fill, feeRate: real): Account {
    if f.size <= 0.0 then a
    else
      Traded(a, f.token, PositionOf(a, f), SignedSize(f), EffectivePrice(f, feeRate))
  }

  function Traded(a: Account, token: string, p: Position, q: real, eff: real): Account
    requires q != 0.0
  {
    var (position, gain) := Trade(p, q, eff);
    Account(a.cash - eff * q, a.realized + gain, a.positions[token := position])
  }

  // ---- settlement, as a specification -----------------------------------------------

  function Shares(a: Account, token: string): real {
    if token in a.positions then a.positions[token].shares else 0.0
  }

  function AfterPayout(a: Account, token: string, payout: real): Account {
    if Shares(a, token) == 0.0 then a
    else
      var p := a.positions[token];
      Account(a.cash + Amount(payout, p.shares), a.realized + Amount(payout - p.avgCost, p.shares),
              a.positions[token := p.(shares := 0.0, avgCost := 0.0)])
  }

  ghost function AfterSettle(a: Account, resolutions: map<string, real>): Account
    decreases |resolutions|
  {
    if resolutions == map[] then a
    else
      var token :| token in resolutions;
      AfterSettle(AfterPayout(a, token, resolutions[token]), resolutions - {token})
  }

  lemma PayoutsCommute(a: Account, s: string, x: real, t: string, y: real)
    requires s != t
    ensures AfterPayout(AfterPayout(a, s, x), t, y) == AfterPayout(AfterPayout(a, t, y), s, x)
  {
    if Shares(a, s) != 0.0 && Shares(a, t) != 0.0 {
      var p, r := a.positions[s], a.positions[t];
      var p', r' := p.(shares := 0.0, avgCost := 0.0), r.(shares := 0.0, avgCost := 0.0);
      assert a.positions[s := p'][t := r'] == a.positions[t := r'][s := p'];
    }
  }

  /** The order in which the resolutions are visited does not matter. */
  lemma {:induction false} SettleInAnyOrder(a: Account, resolutions: map<string, real>, token: string)
    requires token in resolutions
    ensures AfterSettle(a, resolutions)
         == AfterSettle(AfterPayout(a, token, resolutions[token]), resolutions - {token})
    decreases |resolutions|
  {
    var first :| first in resolutions && AfterSettle(a, resolutions)
      == AfterSettle(AfterPayout(a, first, resolutions[first]), resolutions - {first});
    if first != token {
      var x, y := resolutions[first], resolutions[token];
      SettleInAnyOrder(AfterPayout(a, first, x), resolutions - {first}, token);
      SettleInAnyOrder(AfterPayout(a, token, y), resolutions - {token}, first);
      PayoutsCommute(a, first, x, token, y);
      assert resolutions - {first} - {token} == resolutions - {token} - {first};
    }
  }

  /** A position once its token has been paid out. */
  function Flattened(p: Position): Position {
    if p.shares == 0.0 then p else p.(shares := 0.0, avgCost := 0.0)
  }

  lemma {:induction false} SettledPosition(a: Account, resolutions: map<string, real>, token: string)
    ensures token in AfterSettle(a, resolutions).positions <==> token in a.positions
    ensures token in a.positions ==>
      AfterSettle(a, resolutions).positions[token]
      == if token in resolutions then Flattened(a.positions[token]) else a.positions[token]
    decreases |resolutions|
  {
    if resolutions != map[] {
      var t :| t in resolutions;
      SettleInAnyOrder(a, resolutions, t);
      var b := AfterPayout(a, t, resolutions[t]);
      SettledPosition(b, resolutions - {t}, token);
      assert token in b.positions <==> token in a.positions;
      assert token in a.positions ==>
        b.positions[token] == if token == t then Flattened(a.positions[token]) else a.positions[token];
    }
  }

  /** Settling flattens exactly the resolved open positions; every position stays on file. */
  lemma SettledPositions(a: Account, resolutions: map<string, real>)
    ensures AfterSettle(a, resolutions).positions == map t | t in a.positions ::
      if t in resolutions then Flattened(a.positions[t]) else a.positions[t]
  {
    hide AfterSettle, Flattened;
    forall t
      ensures t in AfterSettle(a, resolutions).positions <==> t in a.positions
      ensures t in a.positions ==>
        AfterSettle(a, resolutions).positions[t]
        == if t in resolutions then Flattened(a.positions[t]) else a.positions[t] {
      SettledPosition(a, resolutions, t);
    }
  }

  /** What each resolved token pays the holder of `a`. */
  function Payouts(a: Account): (string, real) -> real {
    (token, payout) => Amount(payout, Shares(a, token))
  }

  /** Cash plus what the resolved positions pay out. */
  ghost function Redemption(a: Account, resolutions: map<string, real>): real {
    a.cash + SumOf(resolutions, Payouts(a))
  }

  /** Settling pays every resolved share its payout, and nothing else moves cash or shares. */
  lemma {:induction false} SettledCash(a: Account, resolutions: map<string, real>)
    ensures AfterSettle(a, resolutions).cash == Redemption(a, resolutions)
    ensures forall t :: Shares(AfterSettle(a, resolutions), t)
                     == if t in resolutions then 0.0 else Shares(a, t)
    decreases |resolutions|
  {
    hide Amount;
    if resolutions != map[] {
      var t :| t in resolutions;
      NoShares(resolutions[t]);
      var b := AfterPayout(a, t, resolutions[t]);
      SettleInAnyOrder(a, resolutions, t);
      SettledCash(b, resolutions - {t});
      SumOfWithout(resolutions, Payouts(a), t);
      assert forall s | s != t :: Shares(a, s) == Shares(b, s);
      SumOfSame(resolutions - {t}, Payouts(a), Payouts(b));
    }
  }

  // ---- runs and their valuation -----------------------------------------------------

  ghost function Step(a: Account, e: Event): Account {
    match e
    case Filled(f, feeRate) => AfterFill(a, f, feeRate)
    case Settled(resolutions) => AfterSettle(a, resolutions)
  }

  ghost function Run(a: Account, events: seq<Event>): Account
    decreases |events|
  {
    if |events| == 0 then a else Run(Step(a, events[0]), events[1..])
  }

  function Opening(initialCash: real): Account {
    Account(initialCash, 0.0, map[])
  }

  function Cost(token: string, p: Position): real {
    Amount(p.avgCost, p.shares)
  }

  /** Total cost of the open positions, shorts counting negatively. */
  ghost function CostBasis(a: Account): real {
    SumOf(a.positions, Cost)
  }

  /** A position is worth its latest price, or its own cost when it has none. */
  function Valuation(prices: map<string, real>): (string, Position) -> real {
    (token, p: Position) => Amount(if token in prices then prices[token] else p.avgCost, p.shares)
  }

  ghost function Equity(a: Account, prices: map<string, real>): real {
    a.cash + SumOf(a.positions, Valuation(prices))
  }

  /** A trade moves cost basis by the cash paid plus the profit realized. */
  lemma TradeBalances(token: string, p: Position, q: real, eff: real)
    requires q != 0.0
    ensures Trade(p, q, eff).0.shares == p.shares + q
    ensures Cost(token, Trade(p, q, eff).0) == Cost(token, p) + eff * q + Trade(p, q, eff).1
  {
    hide Mean;
    if p.shares == 0.0 || (p.shares > 0.0) == (q > 0.0) {
      MeanWeighs(p.shares, p.avgCost, q, eff);
    }
    Reweighed(p.shares, p.avgCost, q, eff);
  }

  lemma MeanWeighs(s: real, x: real, q: real, y: real)
    requires s + q != 0.0
    ensures Mean(s, x, q, y) * (s + q) == x * s + y * q
  {
  }

  lemma Reweighed(s: real, x: real, q: real, y: real)
    ensures y * (s + q) == x * s + y * q + (y - x) * s
    ensures x * (s + q) == x * s + y * q + (x - y) * q
    ensures s + q == 0.0 ==> x * (s + q) == 0.0
  {
  }

  /** Replacing one position, with the cost, cash and profit changes matching. */
  lemma ReplacementBalances(a: Account, token: string, p: Position, p': Position, paid: real, gain: real)
    requires if token in a.positions then p == a.positions[token] else p.shares == 0.0
    requires Cost(token, p') == Cost(token, p) + paid + gain
    ensures var b := Account(a.cash - paid, a.realized + gain, a.positions[token := p']);
      b.cash + CostBasis(b) - b.realized == a.cash + CostBasis(a) - a.realized
  {
    SumOfUpdated(a.positions, Cost, token, p');
  }

  lemma TradeKeepsBalance(a: Account, token: string, p: Position, q: real, eff: real)
    requires q != 0.0
    requires if token in a.positions then p == a.positions[token] else p.shares == 0.0
    ensures var b := Traded(a, token, p, q, eff);
      b.cash + CostBasis(b) - b.realized == a.cash + CostBasis(a) - a.realized
  {
    var (p', gain) := Trade(p, q, eff);
    hide Cost;
    TradeBalances(token, p, q, eff);
    hide Trade;
    ReplacementBalances(a, token, p, p', eff * q, gain);
  }

  lemma FillBalances(a: Account, f: Fill, feeRate: real)
    ensures var b := AfterFill(a, f, feeRate);
      b.cash + CostBasis(b) - b.realized == a.cash + CostBasis(a) - a.realized
  {
    if f.size > 0.0 {
      TradeKeepsBalance(a, f.token, PositionOf(a, f), SignedSize(f), EffectivePrice(f, feeRate));
    }
  }

  /** A fill moves cash by its effective cost and its own token by its signed size. */
  lemma FillMoves(a: Account, f: Fill, feeRate: real)
    requires f.size > 0.0
    ensures AfterFill(a, f, feeRate).cash == a.cash - EffectivePrice(f, feeRate) * SignedSize(f)
    ensures forall t :: Shares(AfterFill(a, f, feeRate), t)
                     == if t == f.token then Shares(a, t) + SignedSize(f) else Shares(a, t)
  {
    TradeBalances(f.token, PositionOf(a, f), SignedSize(f), EffectivePrice(f, feeRate));
    hide Trade, EffectivePrice;
  }

  /** The shares a trade closes, with their sign: those held that it trades away, no more than there are. */
  function ClosedShares(shares: real, q: real): real {
    if shares > 0.0 && q < 0.0 then Min(shares, -q)
    else if shares < 0.0 && q > 0.0 then -Min(-shares, q)
    else 0.0
  }

  /** Opening or extending a position realizes nothing; closing realizes the price less the average cost
      on the shares closed, also when the trade goes on through zero. */
  lemma TradeRealizes(p: Position, q: real, eff: real)
    requires q != 0.0
    ensures Trade(p, q, eff).1 == Amount(eff - p.avgCost, ClosedShares(p.shares, q))
    ensures Trade(p, q, eff).0.conditionId == p.conditionId
    ensures Trade(p, q, eff).0.shares == 0.0 ==> Trade(p, q, eff).0.avgCost == 0.0
  {
    NoShares(eff - p.avgCost);
    SoldIsNegative(p.avgCost, eff, q);
    assert (eff - p.avgCost) * p.shares == Amount(eff - p.avgCost, p.shares);
    assert ClosedShares(p.shares, q)
        == if p.shares == 0.0 || (p.shares > 0.0) == (q > 0.0) then 0.0
           else if Abs(q) <= Abs(p.shares) then -q else p.shares;
    hide Amount, ClosedShares, Mean;
  }

  lemma SoldIsNegative(cost: real, eff: real, q: real)
    ensures (cost - eff) * q == Amount(eff - cost, -q)
  {
  }

  /** A fill costs its price times its size, or brings it in, and its fee on top, or off. */
  lemma FillPays(a: Account, f: Fill, feeRate: real)
    requires f.size > 0.0
    ensures AfterFill(a, f, feeRate).cash
         == a.cash - f.price * (if f.side.Buy? then f.size else -f.size) - f.price * feeRate * f.size
  {
    CashPaid(f, feeRate);
    FillMoves(a, f, feeRate);
    hide AfterFill, EffectivePrice;
  }

  /** What a fill does besides: its own token's position moves by the size, a new one filed under the
      fill's market, and profit is realized on the shares closed. */
  lemma FillEffects(a: Account, f: Fill, feeRate: real)
    requires f.size > 0.0
    ensures var b, q := AfterFill(a, f, feeRate), if f.side.Buy? then f.size else -f.size;
      && b.positions.Keys == a.positions.Keys + {f.token}
      && (forall t | t in a.positions && t != f.token :: b.positions[t] == a.positions[t])
      && b.positions[f.token].shares == Shares(a, f.token) + q
      && b.positions[f.token].conditionId == (if f.token in a.positions then a.positions[f.token].conditionId
                                              else f.conditionId)
      && b.realized == a.realized + GainOn(a, f.token, q, EffectivePrice(f, feeRate))
  {
    hide Trade, EffectivePrice, Amount, ClosedShares;
    TradeRealizes(PositionOf(a, f), SignedSize(f), EffectivePrice(f, feeRate));
    TradeBalances(f.token, PositionOf(a, f), SignedSize(f), EffectivePrice(f, feeRate));
  }

  /** What trading `q` shares of a token at a price realizes: the price less the average cost on the
      shares closed. */
  function GainOn(a: Account, token: string, q: real, eff: real): real {
    Amount(eff - if token in a.positions then a.positions[token].avgCost else 0.0, ClosedShares(Shares(a, token), q))
  }

  lemma PayoutBalances(a: Account, token: string, payout: real)
    ensures var b := AfterPayout(a, token, payout);
      b.cash + CostBasis(b) - b.realized == a.cash + CostBasis(a) - a.realized
  {
    if Shares(a, token) != 0.0 {
      var p := a.positions[token];
      SumOfUpdated(a.positions, Cost, token, p.(shares := 0.0, avgCost := 0.0));
    }
  }

  lemma {:induction false} SettleBalances(a: Account, resolutions: map<string, real>)
    ensures var b := AfterSettle(a, resolutions);
      b.cash + CostBasis(b) - b.realized == a.cash + CostBasis(a) - a.realized
    decreases |resolutions|
  {
    if resolutions != map[] {
      var t :| t in resolutions;
      SettleInAnyOrder(a, resolutions, t);
      PayoutBalances(a, t, resolutions[t]);
      SettleBalances(AfterPayout(a, t, resolutions[t]), resolutions - {t});
    }
  }

  lemma {:induction false} RunBalances(a: Account, events: seq<Event>)
    ensures var b := Run(a, events);
      b.cash + CostBasis(b) - b.realized == a.cash + CostBasis(a) - a.realized
    decreases |events|
  {
    if |events| > 0 {
      match events[0] {
        case Filled(f, feeRate) => FillBalances(a, f, feeRate);
        case Settled(resolutions) => SettleBalances(a, resolutions);
      }
      RunBalances(Step(a, events[0]), events[1..]);
    }
  }

  /** The accounting identity, over every run: cash plus cost basis is the initial cash plus
      realized profit. */
  lemma AccountingIdentity(initialCash: real, events: seq<Event>)
    ensures var b := Run(Opening(initialCash), events);
      b.cash + CostBasis(b) == initialCash + b.realized
  {
    RunBalances(Opening(initialCash), events);
  }

  function Unrealized(prices: map<string, real>): (string, Position) -> real {
    (token, p: Position) => if token in prices then Amount(prices[token] - p.avgCost, p.shares) else 0.0
  }

  /** Equity, over every run, is initial cash plus realized profit plus the unrealized profit
      of the positions that have a price. */
  lemma EquityIsProfit(initialCash: real, events: seq<Event>, prices: map<string, real>)
    ensures var b := Run(Opening(initialCash), events);
      Equity(b, prices) == initialCash + b.realized + SumOf(b.positions, Unrealized(prices))
  {
    var b := Run(Opening(initialCash), events);
    AccountingIdentity(initialCash, events);
    hide Run, Amount;
    forall t | t in b.positions
      ensures Valuation(prices)(t, b.positions[t]) == Cost(t, b.positions[t]) + Unrealized(prices)(t, b.positions[t]) {
      if t in prices {
        WorthOverCost(prices[t], b.positions[t].avgCost, b.positions[t].shares);
      }
    }
    SumOfAdded(b.positions, Valuation(prices), Cost, Unrealized(prices));
  }

  /** Without prices everything is valued at its cost. */
  lemma EquityAtCost(a: Account)
    ensures Equity(a, map[]) == a.cash + CostBasis(a)
  {
    hide Amount;
    SumOfSame(a.positions, Valuation(map[]), Cost);
  }

  /** A price values its own token's shares, in place of their cost, and nothing else. */
  lemma EquityReprices(a: Account, prices: map<string, real>, token: string, price: real)
    requires token !in prices
    ensures Equity(a, prices[token := price]) == Equity(a, prices)
      + if token in a.positions then Amount(price, Shares(a, token)) - Cost(token, a.positions[token]) else 0.0
  {
    hide Amount;
    var more := prices[token := price];
    SumOfSame(a.positions - {token}, Valuation(more), Valuation(prices));
    if token in a.positions {
      SumOfWithout(a.positions, Valuation(more), token);
      SumOfWithout(a.positions, Valuation(prices), token);
    } else {
      assert a.positions - {token} == a.positions;
    }
  }

  lemma WorthOverCost(price: real, cost: real, shares: real)
    ensures Amount(price, shares) == Amount(cost, shares) + Amount(price - cost, shares)
  {
  }

  // ---- the object -------------------------------------------------------------------

  class Portfolio {
    const initialCash: real
    var cash: real
    var realizedPnl: real
    var positions: map<string, Position>
    var fills: seq<Fill>

    function State(): Account
      reads this
    {
      Account(cash, realizedPnl, positions)
    }

    constructor (initialCash: real)
      ensures this.initialCash == initialCash
      ensures State() == Opening(initialCash) && fills == []
    {
      this.initialCash := initialCash;
      cash := initialCash;
      realizedPnl := 0.0;
      positions := map[];
      fills := [];
    }

    method ApplyFill(fill: Fill, feeRate: real) returns (outcome: Outcome)
      modifies this
      ensures outcome == if fill.size <= 0.0 then ValueError else Done
      ensures State() == AfterFill(old(State()), fill, feeRate)
      ensures fills == if outcome.Done? then old(fills) + [fill] else old(fills)
    {
      if fill.size <= 0.0 {
        return ValueError;
      }
      CashPaid(fill, feeRate);
      hide Trade, EffectivePrice, SignedSize;
      var feePerShare := fill.price * feeRate;
      var effectivePrice := EffectivePrice(fill, feeRate);
      var signedSize := SignedSize(fill);
      cash := cash - fill.price * signedSize;
      cash := cash - feePerShare * fill.size;
      var position, gain := MovePosition(PositionOf(State(), fill), signedSize, effectivePrice);
      realizedPnl := realizedPnl + gain;
      positions := positions[fill.token := position];
      fills := fills + [fill];
      return Done;
    }

    /** The position arithmetic of a fill: extend, reduce, close or flip. */
    static method MovePosition(before: Position, signedSize: real, effectivePrice: real)
      returns (position: Position, gain: real)
      requires signedSize != 0.0
      ensures position == Trade(before, signedSize, effectivePrice).0
      ensures gain == Trade(before, signedSize, effectivePrice).1
    {
      position, gain := before, 0.0;
      var extending := position.shares == 0.0 || (position.shares > 0.0) == (signedSize > 0.0);
      if extending {
        var newShares := position.shares + signedSize;
        var totalCost := position.avgCost * position.shares + effectivePrice * signedSize;
        position := position.(avgCost := if newShares != 0.0 then totalCost / newShares else 0.0);
        position := position.(shares := newShares);
      } else {
        var closingSize := Min(Abs(signedSize), Abs(position.shares));
        var direction := if position.shares > 0.0 then 1.0 else -1.0;
        ClosingGain(position, signedSize, effectivePrice);
        gain := (effectivePrice - position.avgCost) * closingSize * direction;
        var remaining := Abs(signedSize) - closingSize;
        position := position.(shares := position.shares + signedSize);
        if remaining > 0.0 {
          position := position.(avgCost := effectivePrice); // flipped through zero
        } else if position.shares == 0.0 {
          position := position.(avgCost := 0.0);
        }
      }
    }

    method MarkToMarket(latestPrices: map<string, real>) returns (equity: real)
      ensures equity == Equity(State(), latestPrices)
    {
      equity := cash;
      var todo := positions;
      while todo != map[]
        invariant todo.Keys <= positions.Keys && forall t | t in todo :: todo[t] == positions[t]
        invariant equity + SumOf(todo, Valuation(latestPrices)) == Equity(State(), latestPrices)
        decreases |todo|
      {
        var token :| token in todo;
        var price := if token in latestPrices then latestPrices[token] else todo[token].avgCost;
        equity := equity + Amount(price, todo[token].shares);
        SumOfWithout(todo, Valuation(latestPrices), token);
        todo := todo - {token};
      }
    }

    method Settle(resolutions: map<string, real>)
      modifies this
      ensures State() == AfterSettle(old(State()), resolutions)
      ensures fills == old(fills)
    {
      var todo := resolutions;
      while todo != map[]
        invariant AfterSettle(State(), todo) == AfterSettle(old(State()), resolutions)
        invariant fills == old(fills)
        decreases |todo|
      {
        var token :| token in todo;
        var payout := todo[token];
        SettleInAnyOrder(State(), todo, token);
        ghost var paid := AfterPayout(State(), token, payout);
        if token in positions && positions[token].shares != 0.0 {
          var position := positions[token];
          cash := cash + payout * position.shares;
          realizedPnl := realizedPnl + (payout - position.avgCost) * position.shares;
          positions := positions[token := position.(shares := 0.0, avgCost := 0.0)];
        }
        assert State() == paid;
        todo := todo - {token};
      }
    }
  }

  /** Profit on the closed shares, computed by size and direction. */
  lemma ClosingGain(p: Position, q: real, eff: real)
    requires q != 0.0 && p.shares != 0.0 && (p.shares > 0.0) != (q > 0.0)
    ensures (eff - p.avgCost) * Min(Abs(q), Abs(p.shares)) * (if p.shares > 0.0 then 1.0 else -1.0)
         == Trade(p, q, eff).1
  {
  }

  lemma CashPaid(f: Fill, feeRate: real)
    requires f.size > 0.0
    ensures SignedSize(f) != 0.0
    ensures f.price * SignedSize(f) + f.price * feeRate * f.size
         == EffectivePrice(f, feeRate) * SignedSize(f)
  {
  }
}
