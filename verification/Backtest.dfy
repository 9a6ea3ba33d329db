/** Replaying recorded books through signal strategies: each accepted order becomes a fill, and
    the exposure ledger keeps the cash in bounds. */
module Backtest {
  import opened Trading
  import opened RealFacts
  import opened Markets
  import opened Portfolio
  import opened Risk
  import opened Sizing
  import Orders
  import LegPool
  import LegExecutor
  import CompleteSet
  import Payoff
  import Resolution
  import OM = OrderManager

  /** The complete-set arbitrage, or any fee-free strategy that signals single tokens. */
  datatype Strategy =
    | Arbitrage(config: CompleteSet.Config)
    | SingleToken(decide: (Market, OrderBook) -> Option<Signal>)

  ghost predicate Sensible(strategy: Strategy) {
    match strategy
    case Arbitrage(config) => config.fallbackFeeRate >= 0.0
    case SingleToken(decide) => forall m, b :: decide(m, b).Some? ==> decide(m, b).value.token.Some?
  }

  /** Prices are probabilities above zero. */
  ghost predicate Priced(book: OrderBook) {
    && (forall l | l in book.bids :: 0.0 < l.price <= 1.0)
    && (forall l | l in book.asks :: 0.0 < l.price <= 1.0)
  }

  ghost predicate Listed(market: Market) {
    market.conditionId != "" && (market.feeRate.Some? ==> market.feeRate.value >= 0.0)
  }

  function FeeRateOf(strategy: Strategy, price: real, market: Market): real {
    match strategy
    case Arbitrage(config) => CompleteSet.FeeRateFor(config, price, market)
    case SingleToken(_) => 0.0
  }

  // ---- accepted decisions become fills ----------------------------------------------------

  function FillOf(intent: OM.OrderIntent, time: real, name: string): Fill {
    Fill(intent.token, intent.conditionId, intent.side, intent.price, intent.size, time, name)
  }

  ghost function FillAccepted(a: Account, decisions: seq<OM.OrderDecision>, strategy: Strategy, market: Market,
                              time: real, name: string): Account {
    if decisions == [] then a
    else
      var last := decisions[|decisions| - 1];
      var before := FillAccepted(a, decisions[..|decisions| - 1], strategy, market, time, name);
      if OM.WasAccepted(last) && last.intent.Some? then
        AfterFill(before, FillOf(last.intent.value, time, name), FeeRateOf(strategy, last.intent.value.price, market))
      else before
  }

  method FillDecisions(decisions: seq<OM.OrderDecision>, strategy: Strategy, market: Market, time: real, name: string,
                       portfolio: Portfolio)
    modifies portfolio
    ensures portfolio.State() == FillAccepted(old(portfolio.State()), decisions, strategy, market, time, name)
  {
    hide AfterFill, FeeRateOf;
    for i := 0 to |decisions|
      invariant portfolio.State() == FillAccepted(old(portfolio.State()), decisions[..i], strategy, market, time, name)
    {
      var decision := decisions[i];
      assert decisions[..i + 1][..i] == decisions[..i];
      if OM.WasAccepted(decision) && decision.intent.Some? {
        var intent := decision.intent.value;
        var feeRate := FeeRateOf(strategy, intent.price, market);
        var outcome := portfolio.ApplyFill(FillOf(intent, time, name), feeRate);
      }
    }
    assert decisions[..|decisions|] == decisions;
  }

  lemma {:induction false} NothingFilled(a: Account, decisions: seq<OM.OrderDecision>, strategy: Strategy,
                                         market: Market, time: real, name: string)
    requires forall d | d in decisions :: d == OM.REJECTION
    ensures FillAccepted(a, decisions, strategy, market, time, name) == a
  {
    hide AfterFill, FeeRateOf;
    if decisions != [] {
      var k := |decisions| - 1;
      assert decisions[k] in decisions && forall d | d in decisions[..k] :: d in decisions;
      NothingFilled(a, decisions[..k], strategy, market, time, name);
    }
  }

  /** A basket accepted whole is filled whole, leg by leg. */
  lemma {:induction false} BasketFilled(a: Account, config: CompleteSet.Config, decisions: seq<OM.OrderDecision>,
      legs: seq<Leg>, n: real, market: Market, time: real, name: string, stages: seq<LegPool.Stage>)
    requires OM.DecidedAs(decisions, market.conditionId, legs, n, OM.MULTI_LEG, true, stages)
    requires forall d | d in decisions :: d.status.DRY_RUN?
    ensures FillAccepted(a, decisions, Arbitrage(config), market, time, name)
         == Payoff.FillBasket(a, config, legs, n, market, time, name)
  {
    hide AfterFill, CompleteSet.FeeRateFor;
    if decisions != [] {
      var k := |decisions| - 1;
      assert decisions[k] in decisions;
      BasketFilled(a, config, decisions[..k], legs[..k], n, market, time, name, stages[..k]);
    }
  }

  // ---- what a basket does to cash -----------------------------------------------------------

  function Worthless(legs: seq<Leg>): map<string, real> {
    map l | l in legs :: l.token := 0.0
  }

  lemma {:induction false} NothingRedeemed(a: Account, resolutions: map<string, real>)
    requires forall t | t in resolutions :: resolutions[t] == 0.0
    ensures SumOf(resolutions, Payouts(a)) == 0.0
    decreases |resolutions|
  {
    if resolutions != map[] {
      var t :| t in resolutions;
      assert Amount(0.0, Shares(a, t)) == 0.0;
      SumOfWithout(resolutions, Payouts(a), t);
      NothingRedeemed(a, resolutions - {t});
    }
  }

  lemma {:induction false} NoPayouts(xs: seq<real>)
    requires forall x | x in xs :: x == 0.0
    ensures Sum(xs) == 0.0
  {
    if xs != [] {
      var k := |xs| - 1;
      assert xs[k] in xs && forall x | x in xs[..k] :: x in xs;
      NoPayouts(xs[..k]);
    }
  }

  /** Filling a basket moves cash by `n` times what a set earns when nothing pays out. */
  lemma BasketCash(a: Account, config: CompleteSet.Config, legs: seq<Leg>, n: real, market: Market, time: real,
                   name: string)
    requires n > 0.0 && forall l | l in legs :: l.price > 0.0
    ensures Payoff.FillBasket(a, config, legs, n, market, time, name).cash
         == a.cash + n * Payoff.EarnedPerSet(config, legs, market, Worthless(legs))
  {
    hide Payoff.FillBasket, Payoff.EarnedPerSet;
    Payoff.BasketRedemption(a, config, legs, n, market, time, name, Worthless(legs));
    NothingRedeemed(a, Worthless(legs));
    NothingRedeemed(Payoff.FillBasket(a, config, legs, n, market, time, name), Worthless(legs));
  }

  /** A set earns, before any payout, minus its whole cost when bought, and more than that when
      sold. */
  lemma SetOutlay(config: CompleteSet.Config, signal: Signal, market: Market)
    requires forall l | l in signal.legs :: l.price > 0.0 && l.side == signal.side
    requires signal.feeCost == Sum(CompleteSet.LegFees(config, signal.legs, market))
    ensures var earned := Payoff.EarnedPerSet(config, signal.legs, market, Worthless(signal.legs));
      && (signal.side.Buy? ==> earned == -OM.CostPerSet(signal))
      && earned >= -OM.CostPerSet(signal)
  {
    hide CompleteSet.LegFees, Payoff.EarnedPerSet;
    Payoff.SetEarnings(config, signal.side, signal.legs, market, Worthless(signal.legs));
    NoPayouts(Payoff.PayoutsOf(signal.legs, Worthless(signal.legs)));
    PositivePrices(signal.legs);
  }

  lemma {:induction false} PositivePrices(legs: seq<Leg>)
    requires forall l | l in legs :: l.price > 0.0
    ensures Sum(Prices(legs)) >= 0.0
  {
    if legs != [] {
      var k := |legs| - 1;
      assert legs[k] in legs;
      assert Prices(legs)[..k] == Prices(legs[..k]);
      PositivePrices(legs[..k]);
    }
  }

  /** The cash a bought basket costs is exactly the exposure booked for it; a sold basket costs
      less cash than the exposure booked. */
  lemma BasketBacked(a: Account, config: CompleteSet.Config, signal: Signal, n: real, market: Market, time: real,
                     name: string)
    requires n > 0.0 && forall l | l in signal.legs :: l.price > 0.0 && l.side == signal.side
    requires signal.feeCost == Sum(CompleteSet.LegFees(config, signal.legs, market))
    ensures var b := Payoff.FillBasket(a, config, signal.legs, n, market, time, name);
      && (signal.side.Buy? ==> b.cash + OM.BasketCost(signal, n) == a.cash)
      && b.cash + OM.BasketCost(signal, n) >= a.cash
  {
    hide Payoff.FillBasket, Payoff.EarnedPerSet, CompleteSet.LegFees, OM.CostPerSet;
    BasketCash(a, config, signal.legs, n, market, time, name);
    SetOutlay(config, signal, market);
    var earned, cost := Payoff.EarnedPerSet(config, signal.legs, market, Worthless(signal.legs)), OM.CostPerSet(signal);
    MulMonotone(-cost, earned, n);
  }

  /** What the arbitrage signals is a well-formed basket of positive prices. */
  lemma ArbitrageSignal(config: CompleteSet.Config, market: Market, books: map<string, OrderBook>)
    requires CompleteSet.Evaluated(config, market, books).Some?
    requires config.fallbackFeeRate >= 0.0 && Listed(market) && forall t | t in books :: Priced(books[t])
    ensures var s := CompleteSet.Evaluated(config, market, books).value;
      && s.token.None? && OM.WellFormed(s)
      && s.feeCost == Sum(CompleteSet.LegFees(config, s.legs, market))
      && forall l | l in s.legs :: l.price > 0.0 && l.side == s.side
  {
    hide CompleteSet.Evaluated, CompleteSet.FeePerShare, CompleteSet.Unrepeated, CompleteSet.LegFees, Sum, Prices;
    var s, tokens := CompleteSet.Evaluated(config, market, books).value, CompleteSet.Unrepeated(market.tokenIds);
    CompleteSet.SignalLegs(config, market, books);
    CompleteSet.SignalEdge(config, market, books);
    CompleteSet.FiredQuotable(config, market, books);
    forall l | l in s.legs ensures 0.0 < l.price <= 1.0 && l.side == s.side {
      var i :| 0 <= i < |s.legs| && l == s.legs[i];
      var book := books[tokens[i]];
      if s.side.Buy? {
        assert BestAsk(book.asks).value in book.asks;
      } else {
        assert BestBid(book.bids).value in book.bids;
      }
    }
    FeesNonNegative(config, s.legs, market);
  }

  lemma {:induction false} FeesNonNegative(config: CompleteSet.Config, legs: seq<Leg>, market: Market)
    requires config.fallbackFeeRate >= 0.0 && Listed(market) && forall l | l in legs :: 0.0 < l.price <= 1.0
    ensures Sum(CompleteSet.LegFees(config, legs, market)) >= 0.0
  {
    hide CompleteSet.FeePerShare;
    if legs != [] {
      var k := |legs| - 1;
      assert legs[k] in legs;
      assert CompleteSet.LegFees(config, legs, market)[..k] == CompleteSet.LegFees(config, legs[..k], market);
      FeesNonNegative(config, legs[..k], market);
      CompleteSet.FeeNonNegative(config, legs[k].price, market);
    }
  }

  /** An accepted fee-free order costs no more cash than the exposure booked for it. */
  lemma OrderBacked(a: Account, intent: OM.OrderIntent, time: real, name: string)
    requires intent.size > 0.0 && OM.Worth(intent) >= 0.0
    ensures AfterFill(a, FillOf(intent, time, name), 0.0).cash + OM.Worth(intent) >= a.cash
    ensures intent.side.Buy? ==> AfterFill(a, FillOf(intent, time, name), 0.0).cash + OM.Worth(intent) == a.cash
  {
    FillMoves(a, FillOf(intent, time, name), 0.0);
    hide AfterFill;
  }

  // ---- one event, one strategy ---------------------------------------------------------------

  /** Nothing is sent, time stands still between events, and no wallet is consulted. */
  ghost predicate Ready(om: OM.OrderManager)
    reads om, om.clock
  {
    om.Valid() && om.dryRun && om.clock.simulated && !om.hasLiveBalance
  }

  /** Cash plus booked exposure. */
  function Backing(om: OM.OrderManager, portfolio: Portfolio): real
    reads om, portfolio
  {
    portfolio.cash + om.totalExposureUsd
  }

  /** What a replay's order manager is configured with. */
  function Replaying(limits: RiskLimits, kelly: KellyParams): OM.Setting {
    OM.Setting(limits, kelly, true, IDEMPOTENCY_TTL_SECONDS, false, 30.0, false)
  }

  /** A strategy's turn at an event, knowing the latest books. */
  datatype Occasion = Occasion(name: string, strategy: Strategy, event: ReplayEvent,
                               latestBooks: map<string, OrderBook>)

  /** The account and the order manager between turns. */
  datatype Standing = Standing(account: Account, view: OM.Snapshot)

  ghost function StandingOf(om: OM.OrderManager, portfolio: Portfolio): Standing
    reads om, om.clock, om.exchange, portfolio
  {
    Standing(portfolio.State(), om.View())
  }

  ghost predicate Unmoved(s: Standing, s': Standing) {
    s'.account == s.account && s'.view.books == s.view.books
  }

  /** A single-token signal, decided by the gate, booked and filled if accepted. */
  ghost predicate SingleTaken(d: OM.OrderDecision, setting: OM.Setting, o: Occasion, signal: Signal, s: Standing,
                              s': Standing)
    requires setting.limits.Valid()
  {
    var market, time := o.event.market, o.event.book.receivedAt;
    && OM.SignalDecided(d, signal, market.conditionId, o.event.book,
                        OM.GateView(s.view, s'.view, setting.limits, setting))
    && LegPool.Booked(s.view.books, s'.view.books, market.conditionId, OM.AmountAccepted(d))
    && s'.account == (if OM.WasAccepted(d) && d.intent.Some? then AfterOrder(s.account, d.intent.value, time, o.name)
                      else s.account)
  }

  /** An order filled whole at its price, without a fee. */
  function AfterOrder(a: Account, intent: OM.OrderIntent, time: real, name: string): Account {
    AfterFill(a, Fill(intent.token, intent.conditionId, intent.side, intent.price, intent.size, time, name), 0.0)
  }

  /** What a strategy's turn does. Without a signal nothing moves. A fired arbitrage is refused for a
      reason, and otherwise taken whole at the size allowed; a single-token signal goes as the gate
      decides. */
  ghost predicate Took(setting: OM.Setting, o: Occasion, s: Standing, s': Standing)
    requires setting.limits.Valid()
  {
    var market, book := o.event.market, o.event.book;
    match o.strategy
    case Arbitrage(config) =>
      var signal := CompleteSet.Evaluated(config, market, Context(market, o.latestBooks));
      if signal.None? then Unmoved(s, s')
      else if Refused(setting.limits, signal.value, market.conditionId, s.view.books, s.view.now, setting.ttl) then
        Unmoved(s, s')
      else
        exists n :: SetsTaken(n, setting.limits, config, signal.value, market, book.receivedAt, o.name, s.account,
                              s'.account, s.view.books, s'.view.books)
    case SingleToken(decide) =>
      var signal := decide(market, book);
      if signal.None? then Unmoved(s, s') else exists d :: SingleTaken(d, setting, o, signal.value, s, s')
  }

  /** Gives a strategy its turn. Cash plus booked exposure never falls. */
  method ProcessSignalStrategy(o: Occasion, om: OM.OrderManager, portfolio: Portfolio)
    requires Ready(om) && Sensible(o.strategy) && Listed(o.event.market)
    requires forall t | t in o.latestBooks :: Priced(o.latestBooks[t])
    modifies om, om.clock, om.exchange, om.wallet, portfolio
    ensures Ready(om) && om.clock.now == old(om.clock.now)
    ensures Backing(om, portfolio) >= old(Backing(om, portfolio))
    ensures Took(om.Settings(), o, old(StandingOf(om, portfolio)), StandingOf(om, portfolio))
  {
    hide Refused, SingleTaken, SetsTaken, OM.LedgerOk, LegPool.Spaced, LegPool.Recorded, LegPool.WithMarks;
    var market, book, latestBooks := o.event.market, o.event.book, o.latestBooks;
    match o.strategy {
      case Arbitrage(config) =>
        var signal := CompleteSet.Evaluate(config, market, Context(market, latestBooks));
        if signal.Some? {
          ArbitrageSignal(config, market, Context(market, latestBooks));
          ProcessBasket(o.name, config, signal.value, market, book.receivedAt, om, portfolio);
        }
      case SingleToken(decide) =>
        var signal := decide(market, book);
        if signal.Some? {
          ghost var d := ProcessSingle(o, signal.value, om, portfolio);
        }
    }
  }

  /** The books of the market's own outcomes, as far as they are known. */
  function Context(market: Market, latestBooks: map<string, OrderBook>): (books: map<string, OrderBook>)
    ensures forall t :: t in books <==> t in market.tokenIds && t in latestBooks
    ensures forall t | t in books :: books[t] == latestBooks[t]
  {
    map t | t in market.tokenIds && t in latestBooks :: latestBooks[t]
  }

  /** What the gate approves of an order as large as the order cap. */
  function ApprovedFor(limits: RiskLimits, conditionId: string, books: LegPool.Books): real
    requires limits.Valid()
  {
    CheckOrder(limits.maxOrderUsd, OM.ExposureIn(books, conditionId), books.total, limits).approvedSizeUsd
  }

  /** As many whole sets as are allowed were filled, every leg of them, and their whole cost booked. */
  ghost predicate SetsTaken(n: real, limits: RiskLimits, config: CompleteSet.Config, signal: Signal, market: Market,
                            time: real, name: string, a: Account, a': Account, b: LegPool.Books, b': LegPool.Books)
    requires limits.Valid()
  {
    && n > 0.0 && OM.SetsAllowed(signal, n, ApprovedFor(limits, market.conditionId, b))
    && a' == Payoff.FillBasket(a, config, signal.legs, n, market, time, name)
    && LegPool.Booked(b, b', market.conditionId, OM.BasketCost(signal, n))
  }

  /** A basket is refused only when there is nothing to size, or a leg of that size repeats a recent
      submission. */
  ghost predicate Refused(limits: RiskLimits, signal: Signal, conditionId: string, books: LegPool.Books, now: real,
                          ttl: real)
    requires limits.Valid()
  {
    var approved := ApprovedFor(limits, conditionId, books);
    OM.Unsized(signal, approved) || OM.Repeats(signal, approved, conditionId, true, ttl, books, now)
  }

  /** Of a basket sent whole in no time, no leg repeats a recent submission. */
  lemma TakenNotRefused(signal: Signal, sets: real, approved: real, conditionId: string, ttl: real,
                        decisions: seq<OM.OrderDecision>, stages: seq<LegPool.Stage>, before: OM.Snapshot,
                        after: OM.Snapshot, outcome: OM.Repair)
    requires OM.SetsAllowed(signal, sets, approved) && before.now == after.now
    requires OM.DecidedAs(decisions, conditionId, signal.legs, sets, OM.MULTI_LEG, true, stages)
    requires forall d | d in decisions :: d.status.DRY_RUN?
    requires OM.LegsSent(OM.BasketOf(conditionId, true, ttl, signal.legs, sets, OM.MULTI_LEG,
                                     OM.RecoveredFeeRate(signal)), stages, before, after, outcome)
    ensures !OM.Repeats(signal, approved, conditionId, true, ttl, before.books, before.now)
  {
    var basket := OM.BasketOf(conditionId, true, ttl, signal.legs, sets, OM.MULTI_LEG, OM.RecoveredFeeRate(signal));
    hide OM.BasketOf, OM.RecoveredFeeRate, OM.CostPerSet, OM.IntentOf, LegExecutor.GainsWithin, LegExecutor.Latched;
    hide LegExecutor.PostsAccounted, LegPool.Foreign;
    forall i | 0 <= i < |basket.tasks|
      ensures !LegPool.IsDuplicate(before.books.seen, basket.tasks[i].key, before.now, basket.ttl) {
      assert decisions[i] in decisions;
      assert LegExecutor.LegKept(basket, basket.tasks[i].key, before.books.seen, before.now, after.books.seen,
                                 after.now, stages[i]);
    }
    assert LegExecutor.NoDuplicates(basket, before.books, before.now);
  }

  method ProcessBasket(name: string, config: CompleteSet.Config, signal: Signal, market: Market, time: real,
                       om: OM.OrderManager, portfolio: Portfolio)
    requires Ready(om) && OM.WellFormed(signal) && Listed(market)
    requires signal.feeCost == Sum(CompleteSet.LegFees(config, signal.legs, market))
    requires forall l | l in signal.legs :: l.price > 0.0 && l.side == signal.side
    modifies om, om.clock, om.exchange, om.wallet, portfolio
    ensures Ready(om) && om.clock.now == old(om.clock.now)
    ensures Backing(om, portfolio) >= old(Backing(om, portfolio))
    ensures signal.side.Buy? ==> Backing(om, portfolio) == old(Backing(om, portfolio))
    ensures if Refused(om.riskLimits, signal, market.conditionId, old(om.State()), old(om.clock.now), om.ttl) then
        portfolio.State() == old(portfolio.State()) && om.State() == old(om.State())
      else exists n :: SetsTaken(n, om.riskLimits, config, signal, market, time, name,
        old(portfolio.State()), portfolio.State(), old(om.State()), om.State())
  {
    hide OM.WellFormed, OM.DecidedAs, OM.BookedAs, OM.BasketCost, OM.SetsAllowed, OM.LedgerOk, OM.Unsized, OM.Repeats;
    hide OM.Mended, OM.LegsSent, OM.MarksGrew, OM.LimitsFor, Payoff.FillBasket;
    hide FillAccepted;
    hide CompleteSet.LegFees, LegPool.Spaced, LegPool.Recorded, LegPool.WithMarks;
    ghost var sets, stages, used, outcome;
    var decisions;
    ghost var view := om.View();
    decisions, sets, stages, used, outcome := om.HandleMultiLegSignal(signal, market.conditionId);
    ghost var before := portfolio.State();
    FillDecisions(decisions, Arbitrage(config), market, time, name, portfolio);
    if sets == 0.0 {
      NothingFilled(before, decisions, Arbitrage(config), market, time, name);
    } else {
      BasketFilled(before, config, decisions, signal.legs, sets, market, time, name, stages);
      BasketBacked(before, config, signal, sets, market, time, name);
      TakenNotRefused(signal, sets, ApprovedFor(om.riskLimits, market.conditionId, old(om.State())), market.conditionId,
                      om.ttl, decisions, stages, view, om.View(), outcome);
      assert SetsTaken(sets, om.riskLimits, config, signal, market, time, name, before, portfolio.State(),
                       old(om.State()), om.State());
    }
  }

  method ProcessSingle(o: Occasion, signal: Signal, om: OM.OrderManager, portfolio: Portfolio)
    returns (ghost d: OM.OrderDecision)
    requires Ready(om) && o.strategy.SingleToken? && Listed(o.event.market)
    modifies om, om.clock, om.exchange, om.wallet, portfolio
    ensures Ready(om) && om.clock.now == old(om.clock.now)
    ensures Backing(om, portfolio) >= old(Backing(om, portfolio))
    ensures SingleTaken(d, om.Settings(), o, signal, old(StandingOf(om, portfolio)), StandingOf(om, portfolio))
  {
    hide OM.SignalDecided, OM.Worth, OM.LedgerOk, LegPool.Spaced, LegPool.Recorded, LegPool.WithMarks, AfterFill;
    hide PositionSizeUsd, CheckOrder, OM.MarksGrew, OM.LimitsFor, LegExecutor.Latched;
    var market, book := o.event.market, o.event.book;
    ghost var used;
    var decision;
    decision, used := om.HandleSignal(signal, market.conditionId, book);
    d := decision;
    ghost var before := portfolio.State();
    FillDecisions([decision], o.strategy, market, book.receivedAt, o.name, portfolio);
    OneFilled(before, decision, o.strategy, market, book.receivedAt, o.name);
  }

  lemma OneFilled(a: Account, d: OM.OrderDecision, strategy: Strategy, market: Market, time: real, name: string)
    requires strategy.SingleToken?
    requires d.intent.Some? ==> d.intent.value.price > 0.0 && d.intent.value.size > 0.0
    ensures FillAccepted(a, [d], strategy, market, time, name).cash + OM.AmountAccepted(d) >= a.cash
    ensures FillAccepted(a, [d], strategy, market, time, name)
         == if OM.WasAccepted(d) && d.intent.Some? then AfterOrder(a, d.intent.value, time, name) else a
  {
    assert [d][..0] == [];
    assert FillAccepted(a, [d][..0], strategy, market, time, name) == a;
    if d.intent.Some? {
      MulPositive(d.intent.value.price, d.intent.value.size);
      OrderBacked(a, d.intent.value, time, name);
    }
    hide AfterFill, OM.Worth;
  }

  // ---- a whole run -------------------------------------------------------------------------

  ghost predicate Replayable(events: seq<ReplayEvent>) {
    && (forall e | e in events :: Priced(e.book) && Listed(e.market) && e.book.receivedAt >= 0.0)
    && (forall i, j | 0 <= i < j < |events| :: events[i].book.receivedAt <= events[j].book.receivedAt)
  }

  /** Payouts of every market whose outcome can be inferred, later markets overriding. */
  function ResolveMarkets(markets: seq<Market>): map<string, real> {
    if markets == [] then map[]
    else
      var last := Resolution.InferResolution(markets[|markets| - 1]);
      var sofar := ResolveMarkets(markets[..|markets| - 1]);
      if last.Some? then sofar + last.value else sofar
  }

  /** Some of these markets resolves the token, and this is what the last such market pays. */
  ghost predicate LastPays(markets: seq<Market>, token: string, payout: real) {
    exists k | 0 <= k < |markets| ::
      && Pays(markets[k], token, payout)
      && forall j | k < j < |markets| :: !Resolves(markets[j], token)
  }

  ghost predicate Resolves(m: Market, token: string) {
    Resolution.InferResolution(m).Some? && token in Resolution.InferResolution(m).value
  }

  ghost predicate Pays(m: Market, token: string, payout: real) {
    Resolves(m, token) && Resolution.InferResolution(m).value[token] == payout
  }

  /** The payouts are those of the last market that resolves each token, and of no other token. */
  lemma {:induction false} LastMarketPays(markets: seq<Market>, token: string)
    ensures token in ResolveMarkets(markets) <==> exists m | m in markets :: Resolves(m, token)
    ensures token in ResolveMarkets(markets) ==> LastPays(markets, token, ResolveMarkets(markets)[token])
  {
    hide Resolution.InferResolution, LastPays;
    if markets != [] {
      var n := |markets| - 1;
      var fewer, m := markets[..n], markets[n];
      assert markets == fewer + [m] && m in markets && forall x | x in fewer :: x in markets;
      LastMarketPays(fewer, token);
      if Resolves(m, token) {
        PaysLast(fewer, m, token, ResolveMarkets(markets)[token]);
      } else if token in ResolveMarkets(fewer) {
        assert ResolveMarkets(markets)[token] == ResolveMarkets(fewer)[token];
        StillPays(fewer, m, token, ResolveMarkets(fewer)[token]);
      }
    }
  }

  lemma PaysLast(fewer: seq<Market>, m: Market, token: string, payout: real)
    requires Pays(m, token, payout)
    ensures LastPays(fewer + [m], token, payout)
  {
    assert (fewer + [m])[|fewer|] == m;
    hide Pays, Resolves;
  }

  lemma StillPays(fewer: seq<Market>, m: Market, token: string, payout: real)
    requires LastPays(fewer, token, payout) && !Resolves(m, token)
    ensures LastPays(fewer + [m], token, payout)
  {
    hide Pays, Resolves;
    var k :| 0 <= k < |fewer| && Pays(fewer[k], token, payout)
      && forall j | k < j < |fewer| :: !Resolves(fewer[j], token);
    assert (fewer + [m])[k] == fewer[k];
  }

  /** The last trusted price of each token: the mid of its latest book that had both sides. */
  function TrustedPrices(events: seq<ReplayEvent>): map<string, real> {
    if events == [] then map[] else Repriced(TrustedPrices(events[..|events| - 1]), events[|events| - 1].book)
  }

  function Repriced(prices: map<string, real>, book: OrderBook): map<string, real> {
    var bid, ask := BestBid(book.bids), BestAsk(book.asks);
    if bid.Some? && ask.Some? then prices[book.token := (bid.value.price + ask.value.price) / 2.0] else prices
  }

  /** A book of the token with both sides, no event after it having one: its mid is the trusted price. */
  ghost predicate LastTwoSided(events: seq<ReplayEvent>, k: int, token: string) {
    && 0 <= k < |events| && TwoSidedOf(events[k].book, token)
    && forall j | k < j < |events| :: !TwoSidedOf(events[j].book, token)
  }

  ghost predicate TwoSidedOf(book: OrderBook, token: string) {
    book.token == token && book.bids != [] && book.asks != []
  }

  /** Halfway between the dearest bid and the cheapest ask. */
  ghost predicate Midway(book: OrderBook, price: real) {
    exists bid, ask :: BestOffer(book, Sell, bid) && BestOffer(book, Buy, ask) && 2.0 * price == bid + ask
  }

  lemma OneRepriced(prices: map<string, real>, book: OrderBook, token: string)
    ensures TwoSidedOf(book, token) ==> token in Repriced(prices, book) && Midway(book, Repriced(prices, book)[token])
    ensures !TwoSidedOf(book, token) ==>
      && (token in Repriced(prices, book) <==> token in prices)
      && (token in prices ==> Repriced(prices, book)[token] == prices[token])
  {
    if TwoSidedOf(book, token) {
      var bid, ask := BestBid(book.bids).value.price, BestAsk(book.asks).value.price;
      assert BestOffer(book, Sell, bid) && BestOffer(book, Buy, ask);
      assert 2.0 * Repriced(prices, book)[token] == bid + ask;
    }
  }

  /** A token is priced exactly if some event showed a two-sided book of it, at the mid of the last one. */
  lemma {:induction false} TrustedIsLastMid(events: seq<ReplayEvent>, token: string)
    ensures token in TrustedPrices(events) <==> exists e | e in events :: TwoSidedOf(e.book, token)
    ensures token in TrustedPrices(events) ==>
      exists k | LastTwoSided(events, k, token) :: Midway(events[k].book, TrustedPrices(events)[token])
  {
    hide Midway, TwoSidedOf;
    if events != [] {
      var n := |events| - 1;
      var past, e := events[..n], events[n];
      assert events == past + [e] && e in events && forall x | x in past :: x in events;
      TrustedIsLastMid(past, token);
      OneRepriced(TrustedPrices(past), e.book, token);
      hide Repriced;
      assert TrustedPrices(events) == Repriced(TrustedPrices(past), e.book);
      if TwoSidedOf(e.book, token) {
        assert LastTwoSided(events, n, token);
      } else if token in TrustedPrices(past) {
        var k :| LastTwoSided(past, k, token) && Midway(past[k].book, TrustedPrices(past)[token]);
        assert past[k] == events[k] && forall j | k < j < n :: past[j] == events[j];
        assert LastTwoSided(events, k, token);
      }
    }
  }

  function Exposure(s: Standing): real {
    s.view.books.total
  }

  /** Cash never falls below the initial cash less the exposure, which the cap bounds. */
  ghost predicate InBounds(s: Standing, initialCash: real, limits: RiskLimits) {
    s.account.cash >= initialCash - Exposure(s) && Exposure(s) <= limits.maxPortfolioExposureUsd
  }

  /** In bounds before, between and after the turns of an event. */
  ghost predicate AllInBounds(turns: seq<Standing>, initialCash: real, limits: RiskLimits) {
    turns != [] && forall t | t in turns :: InBounds(t, initialCash, limits)
  }

  lemma StillInBounds(turns: seq<Standing>, backing: real, initialCash: real, limits: RiskLimits)
    requires AllInBounds(turns, backing, limits) && initialCash <= backing
    ensures AllInBounds(turns, initialCash, limits)
  {
  }

  /** The latest book of each token. */
  function LatestBooks(events: seq<ReplayEvent>): map<string, OrderBook> {
    if events == [] then map[]
    else
      var book := events[|events| - 1].book;
      LatestBooks(events[..|events| - 1])[book.token := book]
  }

  /** The book of the last event of the token. */
  ghost predicate LastShown(events: seq<ReplayEvent>, token: string, book: OrderBook) {
    exists k | 0 <= k < |events| ::
      && events[k].book == book && book.token == token
      && forall j | k < j < |events| :: events[j].book.token != token
  }

  lemma {:induction false} LatestIsLast(events: seq<ReplayEvent>, token: string)
    ensures token in LatestBooks(events) <==> exists e | e in events :: e.book.token == token
    ensures token in LatestBooks(events) ==> LastShown(events, token, LatestBooks(events)[token])
  {
    hide LastShown;
    if events != [] {
      var n := |events| - 1;
      var past, e := events[..n], events[n];
      assert events == past + [e] && e in events && forall x | x in past :: x in events;
      LatestIsLast(past, token);
      if e.book.token == token {
        JustShown(past, e);
      } else if token in LatestBooks(past) {
        StillLast(past, e, token, LatestBooks(past)[token]);
      }
    }
  }

  lemma JustShown(past: seq<ReplayEvent>, e: ReplayEvent)
    ensures LastShown(past + [e], e.book.token, e.book)
  {
    assert (past + [e])[|past|] == e;
  }

  lemma StillLast(past: seq<ReplayEvent>, e: ReplayEvent, token: string, book: OrderBook)
    requires LastShown(past, token, book) && e.book.token != token
    ensures LastShown(past + [e], token, book)
  {
    var k :| 0 <= k < |past| && past[k].book == book && book.token == token
      && forall j | k < j < |past| :: past[j].book.token != token;
    assert (past + [e])[k] == past[k];
  }

  /** What a strategy may look at after some events: for each outcome of the market the book of its last
      event, if it had one, and nothing else. */
  ghost predicate Shown(events: seq<ReplayEvent>, market: Market, books: map<string, OrderBook>) {
    && (forall t :: t in books <==> t in market.tokenIds && exists e | e in events :: e.book.token == t)
    && (forall t | t in books :: LastShown(events, t, books[t]))
  }

  lemma OnlyOneShown(events: seq<ReplayEvent>, token: string, x: OrderBook, y: OrderBook)
    requires LastShown(events, token, x) && LastShown(events, token, y)
    ensures x == y
  {
  }

  lemma ContextIsShown(events: seq<ReplayEvent>, market: Market, books: map<string, OrderBook>)
    requires Shown(events, market, books)
    ensures Context(market, LatestBooks(events)) == books
  {
    hide LastShown, LatestBooks;
    var context := Context(market, LatestBooks(events));
    forall t ensures (t in context <==> t in books) && (t in books ==> context[t] == books[t]) {
      LatestIsLast(events, t);
      if t in books {
        OnlyOneShown(events, t, context[t], books[t]);
      }
    }
  }

  /** With these books to look at: when all of the market's outcomes are there with both sides and a set
      clears the minimum edge on some side, exactly the sets allowed are taken, unless they are refused;
      otherwise nothing moves. */
  ghost predicate TakesSets(setting: OM.Setting, config: CompleteSet.Config, name: string, e: ReplayEvent,
                            books: map<string, OrderBook>, s: Standing, s': Standing)
    requires setting.limits.Valid()
  {
    var market, signal := e.market, CompleteSet.Evaluated(config, e.market, books);
    if CompleteSet.Quotable(market, books) && exists side ::
        CompleteSet.EdgeOf(config, market, CompleteSet.Quotes(market, books, side), side) > config.minEdgeRate
    then
      && signal.Some?
      && if Refused(setting.limits, signal.value, market.conditionId, s.view.books, s.view.now, setting.ttl)
         then Unmoved(s, s')
         else exists n :: SetsTaken(n, setting.limits, config, signal.value, market, e.book.receivedAt, name,
                                    s.account, s'.account, s.view.books, s'.view.books)
    else Unmoved(s, s')
  }

  /** The arbitrage's turn after these events goes by the last book of each of the market's outcomes. */
  lemma ArbitrageTurn(setting: OM.Setting, config: CompleteSet.Config, name: string, events: seq<ReplayEvent>,
                      books: map<string, OrderBook>, s: Standing, s': Standing)
    requires setting.limits.Valid() && events != []
    requires var e := events[|events| - 1];
      && Shown(events, e.market, books)
      && Took(setting, Occasion(name, Arbitrage(config), e, LatestBooks(events)), s, s')
    ensures TakesSets(setting, config, name, events[|events| - 1], books, s, s')
  {
    hide Refused, SetsTaken, CompleteSet.Evaluated, CompleteSet.EdgeOf, CompleteSet.Quotes, LatestBooks, Unmoved;
    var e := events[|events| - 1];
    ContextIsShown(events, e.market, books);
    CompleteSet.FiresExactly(config, e.market, books);
    hide Shown, CompleteSet.Quotable;
  }

  /** The strategies take their turns at an event, one after the other. */
  ghost predicate TookTurns(setting: OM.Setting, strategies: seq<(string, Strategy)>, event: ReplayEvent,
                            latestBooks: map<string, OrderBook>, turns: seq<Standing>)
    requires setting.limits.Valid()
  {
    && |turns| == |strategies| + 1 && turns[0].view.now == event.book.receivedAt
    && forall i | 0 <= i < |strategies| ::
         Took(setting, Occasion(strategies[i].0, strategies[i].1, event, latestBooks), turns[i], turns[i + 1])
  }

  /** At event `i` every strategy takes its turn, from the opening account and empty books or from
      where the event before, if there was one, has ended. */
  ghost predicate TurnsAt(setting: OM.Setting, strategies: seq<(string, Strategy)>, events: seq<ReplayEvent>,
                          initialCash: real, i: nat, previous: seq<Standing>, turns: seq<Standing>)
    requires setting.limits.Valid() && i < |events|
  {
    && TookTurns(setting, strategies, events[i], LatestBooks(events[..i + 1]), turns)
    && (if i == 0 then turns[0].account == Opening(initialCash) && turns[0].view.books == EMPTY_BOOKS
        else previous != [] && Unmoved(Last(previous), turns[0]))
  }

  /** The turns of every event, each event starting where the one before it ended. */
  ghost predicate Trail(setting: OM.Setting, strategies: seq<(string, Strategy)>, events: seq<ReplayEvent>,
                        initialCash: real, trail: seq<seq<Standing>>)
    requires setting.limits.Valid()
  {
    && |trail| <= |events|
    && forall i | 0 <= i < |trail| ::
         TurnsAt(setting, strategies, events, initialCash, i, Before(trail, i), trail[i])
  }

  function Before(trail: seq<seq<Standing>>, i: nat): seq<Standing>
    requires i <= |trail|
  {
    if i == 0 then [] else trail[i - 1]
  }

  const EMPTY_BOOKS := LegPool.Books(map[], 0.0, map[], false)

  function Last(turns: seq<Standing>): Standing
    requires turns != []
  {
    turns[|turns| - 1]
  }

  /** The curve shows the equity after each event at the prices trusted by then. */
  ghost predicate Charts(curve: seq<real>, trail: seq<seq<Standing>>, events: seq<ReplayEvent>) {
    && |curve| == |trail| <= |events|
    && forall i | 0 <= i < |curve| ::
         trail[i] != [] && curve[i] == Equity(Last(trail[i]).account, TrustedPrices(events[..i + 1]))
  }

  /** So it does at every event of a whole run. */
  lemma RunTakesSets(setting: OM.Setting, strategies: seq<(string, Strategy)>, events: seq<ReplayEvent>,
                     initialCash: real, trail: seq<seq<Standing>>, i: nat, j: nat, books: map<string, OrderBook>)
    requires setting.limits.Valid() && Trail(setting, strategies, events, initialCash, trail)
    requires i < |trail| && j < |strategies| && strategies[j].1.Arbitrage?
    requires Shown(events[..i + 1], events[i].market, books)
    ensures |trail[i]| == |strategies| + 1
    ensures TakesSets(setting, strategies[j].1.config, strategies[j].0, events[i], books, trail[i][j], trail[i][j + 1])
  {
    hide TakesSets, LatestBooks, Unmoved, Took, Shown;
    assert TurnsAt(setting, strategies, events, initialCash, i, Before(trail, i), trail[i]);
    assert events[..i + 1][i] == events[i];
    ArbitrageTurn(setting, strategies[j].1.config, strategies[j].0, events[..i + 1], books, trail[i][j],
                  trail[i][j + 1]);
  }

  lemma NothingCharted(setting: OM.Setting, strategies: seq<(string, Strategy)>, events: seq<ReplayEvent>,
                       initialCash: real)
    requires setting.limits.Valid()
    ensures Charts([], [], events) && Trail(setting, strategies, events, initialCash, [])
    ensures TrustedPrices(events[..0]) == map[] && LatestBooks(events[..0]) == map[]
  {
  }

  lemma OneMoreEvent(events: seq<ReplayEvent>, i: nat)
    requires i < |events|
    ensures TrustedPrices(events[..i + 1]) == Repriced(TrustedPrices(events[..i]), events[i].book)
    ensures LatestBooks(events[..i + 1]) == LatestBooks(events[..i])[events[i].book.token := events[i].book]
  {
    assert events[..i + 1][..i] == events[..i];
  }

  lemma ChartsOneMore(curve: seq<real>, trail: seq<seq<Standing>>, events: seq<ReplayEvent>, turns: seq<Standing>)
    requires Charts(curve, trail, events) && |curve| < |events| && turns != []
    ensures Charts(curve + [Equity(Last(turns).account, TrustedPrices(events[..|curve| + 1]))], trail + [turns], events)
  {
    hide Equity, TrustedPrices;
  }

  lemma TrailOneMore(setting: OM.Setting, strategies: seq<(string, Strategy)>, events: seq<ReplayEvent>,
                     initialCash: real, trail: seq<seq<Standing>>, turns: seq<Standing>)
    requires setting.limits.Valid() && Trail(setting, strategies, events, initialCash, trail) && |trail| < |events|
    requires TurnsAt(setting, strategies, events, initialCash, |trail|, Before(trail, |trail|), turns)
    ensures Trail(setting, strategies, events, initialCash, trail + [turns])
  {
    hide TurnsAt, Before;
    var longer := trail + [turns];
    forall i | 0 <= i < |longer|
      ensures TurnsAt(setting, strategies, events, initialCash, i, Before(longer, i), longer[i]) {
      BeforeSame(trail, turns, i);
    }
  }

  lemma BeforeSame(trail: seq<seq<Standing>>, turns: seq<Standing>, i: nat)
    requires i <= |trail|
    ensures Before(trail + [turns], i) == Before(trail, i)
  {
  }

  lemma SomeTurn(setting: OM.Setting, strategies: seq<(string, Strategy)>, event: ReplayEvent,
                 latestBooks: map<string, OrderBook>, turns: seq<Standing>)
    requires setting.limits.Valid() && TookTurns(setting, strategies, event, latestBooks, turns)
    ensures turns != []
  {
  }

  /** Replays the events through the strategies, then settles what has resolved. The trail shows every
      strategy's turn at every event. After every event cash is at least the initial cash less the
      booked exposure, so with an initial cash no smaller than the portfolio cap it never goes
      negative. */
  method RunSingle(strategies: seq<(string, Strategy)>, events: seq<ReplayEvent>, markets: seq<Market>,
                   limits: RiskLimits, kelly: KellyParams, initialCash: real)
    returns (portfolio: Portfolio, equityCurve: seq<real>, ghost trail: seq<seq<Standing>>, ghost unsettled: Account)
    requires limits.Valid() && Replayable(events)
    requires forall s | s in strategies :: Sensible(s.1)
    ensures |trail| == |events|
    ensures Trail(OM.Setting(limits, kelly, true, 60.0, false, 30.0, false), strategies, events, initialCash, trail)
    ensures forall turns | turns in trail :: AllInBounds(turns, initialCash, limits)
    ensures initialCash >= limits.maxPortfolioExposureUsd ==>
      forall turns, t | turns in trail && t in turns :: t.account.cash >= 0.0
    ensures EndsAt(trail, initialCash, unsettled)
    ensures portfolio.State() == AfterSettle(unsettled, ResolveMarkets(markets))
    ensures |equityCurve| == if events == [] then 0 else |events| + 1
    ensures events != [] ==>
      && Charts(equityCurve[..|events|], trail, events)
      && equityCurve[|events|] == Equity(portfolio.State(), TrustedPrices(events))
  {
    hide Equity, TrustedPrices, Charts, Trail, AfterSettle, EndsAt, LegPool.Spaced, LegPool.Recorded;
    portfolio := new Portfolio(initialCash);
    var clock := new OM.Clock(true, 0.0);
    var exchange := new Orders.Exchange(false);
    var wallet := new OM.Wallet();
    var om := new OM.OrderManager(limits, true, kelly, IDEMPOTENCY_TTL_SECONDS, clock, exchange, wallet, false, 30.0);
    var latestPrices;
    equityCurve, latestPrices, trail := ReplayAll(strategies, events, om, portfolio, initialCash);
    unsettled := portfolio.State();
    portfolio.Settle(ResolveMarkets(markets));
    if equityCurve != [] {
      var equity := portfolio.MarkToMarket(latestPrices);
      assert (equityCurve + [equity])[..|events|] == equityCurve;
      equityCurve := equityCurve + [equity];
    }
  }

  /** The account at the end of a trail. */
  ghost predicate EndsAt(trail: seq<seq<Standing>>, initialCash: real, a: Account) {
    if trail == [] then a == Opening(initialCash)
    else trail[|trail| - 1] != [] && a == Last(trail[|trail| - 1]).account
  }

  method ReplayAll(strategies: seq<(string, Strategy)>, events: seq<ReplayEvent>, om: OM.OrderManager,
                   portfolio: Portfolio, initialCash: real)
    returns (equityCurve: seq<real>, latestPrices: map<string, real>, ghost trail: seq<seq<Standing>>)
    requires Ready(om) && Replayable(events) && forall s | s in strategies :: Sensible(s.1)
    requires portfolio.State() == Opening(initialCash) && om.State() == EMPTY_BOOKS && om.clock.now == 0.0
    modifies om, om.clock, om.exchange, om.wallet, portfolio
    ensures om.riskLimits.Valid() && |trail| == |equityCurve| == |events|
    ensures Trail(om.Settings(), strategies, events, initialCash, trail)
    ensures EndsAt(trail, initialCash, portfolio.State())
    ensures forall turns | turns in trail :: AllInBounds(turns, initialCash, om.riskLimits)
    ensures Charts(equityCurve, trail, events) && latestPrices == TrustedPrices(events)
  {
    hide Equity, TrustedPrices, Repriced, LatestBooks, Priced, Charts, Trail, TookTurns;
    hide OM.LedgerOk, LegPool.Spaced, LegPool.Recorded, LegPool.WithMarks;
    var latestBooks: map<string, OrderBook> := map[];
    latestPrices, equityCurve, trail := map[], [], [];
    NothingCharted(om.Settings(), strategies, events, initialCash);
    for i := 0 to |events|
      invariant Ready(om) && om.clock.now == if i == 0 then 0.0 else events[i - 1].book.receivedAt
      invariant latestBooks == LatestBooks(events[..i]) && forall t | t in latestBooks :: Priced(latestBooks[t])
      invariant latestPrices == TrustedPrices(events[..i])
      invariant Backing(om, portfolio) >= initialCash
      invariant |trail| == |equityCurve| == i && Charts(equityCurve, trail, events)
      invariant Trail(om.Settings(), strategies, events, initialCash, trail)
      invariant EndsAt(trail, initialCash, portfolio.State())
      invariant om.State() == if i == 0 then EMPTY_BOOKS else Last(trail[i - 1]).view.books
      invariant forall turns | turns in trail :: AllInBounds(turns, initialCash, om.riskLimits)
    {
      assert events[i] in events;
      var equity;
      ghost var turns, backing := [], Backing(om, portfolio);
      latestBooks, latestPrices, equity, turns := ReplayOne(strategies, events[i], latestBooks, latestPrices, om,
                                                            portfolio);
      OneMoreEvent(events, i);
      TrailOneMore(om.Settings(), strategies, events, initialCash, trail, turns);
      ChartsOneMore(equityCurve, trail, events, turns);
      StillInBounds(turns, backing, initialCash, om.riskLimits);
      equityCurve, trail := equityCurve + [equity], trail + [turns];
    }
    assert events[..|events|] == events;
  }

  lemma CapHolds(om: OM.OrderManager)
    requires om.Valid()
    ensures om.totalExposureUsd <= om.riskLimits.maxPortfolioExposureUsd
  {
  }

  /** One event: the clock moves to its time, its book becomes the latest, a two-sided one also
      reprices its token, the strategies take their turns, and the portfolio is valued. */
  method ReplayOne(strategies: seq<(string, Strategy)>, event: ReplayEvent, books: map<string, OrderBook>,
                   prices: map<string, real>, om: OM.OrderManager, portfolio: Portfolio)
    returns (latestBooks: map<string, OrderBook>, latestPrices: map<string, real>, equity: real,
             ghost turns: seq<Standing>)
    requires Ready(om) && event.book.receivedAt >= om.clock.now && forall s | s in strategies :: Sensible(s.1)
    requires Priced(event.book) && Listed(event.market) && forall t | t in books :: Priced(books[t])
    modifies om, om.clock, om.exchange, om.wallet, portfolio
    ensures Ready(om) && om.clock.now == event.book.receivedAt
    ensures Backing(om, portfolio) >= old(Backing(om, portfolio))
    ensures latestBooks == books[event.book.token := event.book]
    ensures forall t | t in latestBooks :: Priced(latestBooks[t])
    ensures latestPrices == Repriced(prices, event.book)
    ensures TookTurns(om.Settings(), strategies, event, latestBooks, turns) && turns != []
    ensures turns[0].account == old(portfolio.State()) && turns[0].view.books == old(om.State())
    ensures Last(turns) == StandingOf(om, portfolio)
    ensures AllInBounds(turns, old(Backing(om, portfolio)), om.riskLimits)
    ensures equity == Equity(portfolio.State(), latestPrices)
  {
    hide Equity, OM.LedgerOk, LegPool.Spaced, LegPool.Recorded, LegPool.WithMarks, Priced, TookTurns;
    var book := event.book;
    AdvanceClock(om, book.receivedAt);
    latestBooks, latestPrices := books[book.token := book], prices;
    var bid, ask := BestBid(book.bids), BestAsk(book.asks);
    if bid.Some? && ask.Some? {
      latestPrices := latestPrices[book.token := (bid.value.price + ask.value.price) / 2.0];
    }
    turns := RunStrategies(strategies, event, latestBooks, om, portfolio);
    SomeTurn(om.Settings(), strategies, event, latestBooks, turns);
    equity := portfolio.MarkToMarket(latestPrices);
  }

  const IDEMPOTENCY_TTL_SECONDS := 60.0

  method AdvanceClock(om: OM.OrderManager, time: real)
    requires Ready(om) && time >= om.clock.now
    modifies om.clock
    ensures Ready(om) && om.clock.now == time
  {
    om.clock.Advance(time);
  }

  method RunStrategies(strategies: seq<(string, Strategy)>, event: ReplayEvent, latestBooks: map<string, OrderBook>,
                       om: OM.OrderManager, portfolio: Portfolio)
    returns (ghost turns: seq<Standing>)
    requires Ready(om) && Listed(event.market) && forall t | t in latestBooks :: Priced(latestBooks[t])
    requires om.clock.now == event.book.receivedAt && forall s | s in strategies :: Sensible(s.1)
    modifies om, om.clock, om.exchange, om.wallet, portfolio
    ensures Ready(om) && om.clock.now == old(om.clock.now)
    ensures Backing(om, portfolio) >= old(Backing(om, portfolio))
    ensures TookTurns(om.Settings(), strategies, event, latestBooks, turns)
    ensures turns[0] == old(StandingOf(om, portfolio)) && Last(turns) == StandingOf(om, portfolio)
    ensures AllInBounds(turns, old(Backing(om, portfolio)), om.riskLimits)
  {
    hide OM.LedgerOk, LegPool.Spaced, LegPool.Recorded, LegPool.WithMarks, Priced, Took;
    turns := [StandingOf(om, portfolio)];
    CapHolds(om);
    for i := 0 to |strategies|
      invariant Ready(om) && om.clock.now == old(om.clock.now)
      invariant Backing(om, portfolio) >= old(Backing(om, portfolio))
      invariant AllInBounds(turns, old(Backing(om, portfolio)), om.riskLimits)
      invariant |turns| == i + 1 && turns[0] == old(StandingOf(om, portfolio)) && turns[i] == StandingOf(om, portfolio)
      invariant forall j | 0 <= j < i ::
        Took(om.Settings(), Occasion(strategies[j].0, strategies[j].1, event, latestBooks), turns[j], turns[j + 1])
    {
      assert strategies[i] in strategies;
      ProcessSignalStrategy(Occasion(strategies[i].0, strategies[i].1, event, latestBooks), om, portfolio);
      CapHolds(om);
      turns := turns + [StandingOf(om, portfolio)];
    }
  }
}
