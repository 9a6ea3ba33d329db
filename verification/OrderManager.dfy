/** The single risk-gated entry point in front of the exchange: exposure ledger, idempotency
    table, live-balance cache, geoblock latch, and the repair of half-filled baskets. */
module OrderManager {
  import opened Trading
  import opened Markets
  import opened Risk
  import opened Sizing
  import opened Orders
  import opened LegPool
  import opened LegExecutor
  import opened Flattening
  import opened BasketRepair
  import opened RealFacts

  datatype OrderStatus = SUBMITTED | DRY_RUN | REJECTED | FAILED

  datatype OrderIntent = OrderIntent(token: string, conditionId: string, side: Side, price: real, size: real,
                                     strategy: string)

  datatype OrderDecision = OrderDecision(status: OrderStatus, intent: Option<OrderIntent>, orderId: Option<nat>)

  const REJECTION := OrderDecision(REJECTED, None, None)

  /** A clock that never runs backwards; a simulated one moves only when told to. */
  class Clock {
    const simulated: bool
    var now: real

    constructor (simulated: bool, now: real)
      ensures this.simulated == simulated && this.now == now
    {
      this.simulated := simulated;
      this.now := now;
    }

    method Read() returns (t: real)
      modifies this
      ensures t == now >= old(now)
      ensures simulated ==> now == old(now)
    {
      if !simulated {
        var elapsed: real :| elapsed >= 0.0;
        now := now + elapsed;
      }
      t := now;
    }

    method Advance(time: real)
      requires time >= now
      modifies this
      ensures now == time
    {
      now := time;
    }
  }

  /** The trading wallet: each request for its balance is answered, or fails. */
  class Wallet {
    ghost var answers: seq<Option<real>>

    constructor ()
      ensures answers == []
    {
      answers := [];
    }

    method Fetch() returns (balance: Option<real>)
      modifies this
      ensures answers == old(answers) + [balance]
    {
      balance := *;
      answers := answers + [balance];
    }
  }

  /** A cached balance younger than the cache time is used as it is. Otherwise the wallet was asked
      once, an answer was cached with its time, and a failure left the cache as it was. */
  ghost predicate Refreshed(before: Option<(real, real)>, after: Option<(real, real)>, asked: seq<Option<real>>,
                            answers: seq<Option<real>>, now: real, cacheSeconds: real) {
    if before.Some? && now - before.value.1 < cacheSeconds then after == before && answers == asked
    else
      && |answers| == |asked| + 1 && answers[..|asked|] == asked
      && after == (if answers[|asked|].Some? then Some((answers[|asked|].value, now)) else before)
  }

  /** What the order manager is configured with, and whether its exchange is truthful. */
  datatype Setting = Setting(limits: RiskLimits, kelly: KellyParams, dryRun: bool, ttl: real, hasLiveBalance: bool,
                             cacheSeconds: real, truthful: bool)

  /** The cached balance with its time, and the wallet's answers. */
  datatype Purse = Purse(cache: Option<(real, real)>, answers: seq<Option<real>>)

  /** The limits to use: the configured ones, lowered to the balance in the cache, which was refreshed
      at some moment in between if it was missing or too old. */
  ghost predicate LimitsFor(used: RiskLimits, s: Setting, before: Purse, after: Purse, began: real, ended: real)
    requires s.limits.Valid()
  {
    && used == EffectiveLimits(s.limits,
                               if s.hasLiveBalance && after.cache.Some? then Some(after.cache.value.0) else None)
    && if !s.hasLiveBalance then after == before
       else exists at | began <= at <= ended ::
         Refreshed(before.cache, after.cache, before.answers, after.answers, at, s.cacheSeconds)
  }

  lemma LimitsLater(used: RiskLimits, s: Setting, before: Purse, after: Purse, began: real, mid: real, ended: real)
    requires s.limits.Valid() && LimitsFor(used, s, before, after, began, mid) && mid <= ended
    ensures LimitsFor(used, s, before, after, began, ended)
  {
    hide Refreshed, EffectiveLimits;
  }

  // ---- the exposure ledger ------------------------------------------------------------

  /** Total and per-market exposure agree and respect the configured caps. */
  ghost predicate LedgerOk(limits: RiskLimits, market: map<string, real>, total: real) {
    && total == SumValues(market)
    && total <= limits.maxPortfolioExposureUsd
    && forall c | c in market :: market[c] <= limits.maxPositionUsd
  }

  lemma BookedKeepsLedger(limits: RiskLimits, before: Books, after: Books, conditionId: string, amount: real)
    requires LedgerOk(limits, before.market, before.total) && limits.Valid()
    requires Booked(before, after, conditionId, amount)
    requires conditionId != "" ==>
      && Lookup(before.market, conditionId) + amount <= limits.maxPositionUsd
      && before.total + amount <= limits.maxPortfolioExposureUsd
    ensures LedgerOk(limits, after.market, after.total)
  {
    if conditionId != "" {
      SumSplit(before.market, conditionId);
      SumSplit(after.market, conditionId);
      forall c | c in after.market ensures after.market[c] <= limits.maxPositionUsd {
        if c != conditionId {
          assert c in after.market - {conditionId};
          assert c in before.market - {conditionId};
          assert after.market[c] == (after.market - {conditionId})[c] == (before.market - {conditionId})[c];
        }
      }
    }
  }

  /** A market's exposure is what has been booked for it; none is known without a market. */
  lemma ExposureMoves(before: Books, after: Books, conditionId: string, amount: real, c: string)
    requires Booked(before, after, conditionId, amount)
    ensures ExposureIn(after, c) == ExposureIn(before, c) + if c == conditionId && c != "" then amount else 0.0
    ensures ExposureIn(Books(map[], 0.0, map[], false), c) == 0.0 && ExposureIn(before, "") == 0.0
  {
    if conditionId != "" && c != conditionId {
      assert c in after.market <==> c in after.market - {conditionId};
      assert c in before.market <==> c in before.market - {conditionId};
      assert c in after.market ==> after.market[c] == (after.market - {conditionId})[c];
    }
  }

  lemma BookedTwice(a: Books, b: Books, c: Books, conditionId: string, x: real, y: real)
    requires Booked(a, b, conditionId, x) && Booked(b, c, conditionId, y)
    ensures Booked(a, c, conditionId, x + y)
  {
  }

  // ---- submitting legs ------------------------------------------------------------------

  function Notional(price: real, size: real, feeRate: real): real {
    price * size * (1.0 + feeRate)
  }

  function TaskOf(leg: Leg, size: real, strategy: string, feeRate: real): Task {
    Task(IdempotencyKey(leg.token, leg.side, leg.price, size, strategy), leg.price, size,
         Notional(leg.price, size, feeRate))
  }

  function BasketOf(conditionId: string, dryRun: bool, ttl: real, legs: seq<Leg>, size: real, strategy: string,
                    feeRate: real): Basket {
    Basket(conditionId, dryRun, ttl,
           seq(|legs|, i requires 0 <= i < |legs| => TaskOf(legs[i], size, strategy, feeRate)))
  }

  function IntentOf(conditionId: string, leg: Leg, size: real, strategy: string): OrderIntent {
    OrderIntent(leg.token, conditionId, leg.side, leg.price, size, strategy)
  }

  function DecisionOf(dryRun: bool, intent: OrderIntent, result: Result): OrderDecision {
    match result
    case Duplicate => OrderDecision(REJECTED, Some(intent), None)
    case Refused => OrderDecision(FAILED, Some(intent), None)
    case Sent(id) => OrderDecision(if dryRun then DRY_RUN else SUBMITTED, Some(intent), id)
  }

  predicate WasAccepted(d: OrderDecision) {
    d.status.SUBMITTED? || d.status.DRY_RUN?
  }

  /** Leg by leg, the decision that tells what became of it. */
  ghost predicate DecidedAs(decisions: seq<OrderDecision>, conditionId: string, legs: seq<Leg>, size: real,
                            strategy: string, dryRun: bool, stages: seq<Stage>) {
    && |decisions| == |legs| == |stages|
    && forall i | 0 <= i < |legs| :: stages[i].Done? &&
         decisions[i] == DecisionOf(dryRun, IntentOf(conditionId, legs[i], size, strategy), stages[i].result)
  }

  lemma NotionalScaled(price: real, size: real, feeRate: real)
    ensures Notional(price, size, feeRate) == price * (size * (1.0 + feeRate))
  {
  }

  lemma {:induction false} SumNotionals(basket: Basket, legs: seq<Leg>, size: real, feeRate: real)
    requires |basket.tasks| == |legs|
    requires forall i | 0 <= i < |legs| :: basket.tasks[i].notional == Notional(legs[i].price, size, feeRate)
    ensures Sum(Notionals(basket)) == Sum(Prices(legs)) * (size * (1.0 + feeRate))
    decreases |legs|
  {
    var factor, all := size * (1.0 + feeRate), Notionals(basket);
    if legs != [] {
      var n := |legs| - 1;
      NotionalScaled(legs[n].price, size, feeRate);
      hide Notional;
      var fewer := basket.(tasks := basket.tasks[..n]);
      SumNotionals(fewer, legs[..n], size, feeRate);
      assert all[..n] == Notionals(fewer);
      assert Prices(legs)[..n] == Prices(legs[..n]);
      assert (Sum(Prices(legs[..n])) + legs[n].price) * factor
          == Sum(Prices(legs[..n])) * factor + legs[n].price * factor;
    }
  }

  lemma NotionalNonNegative(price: real, size: real, feeRate: real)
    requires price >= 0.0 && size >= 0.0 && feeRate >= 0.0
    ensures Notional(price, size, feeRate) >= 0.0
  {
    MulMonotone(0.0, price, size);
    MulMonotone(0.0, price * size, 1.0 + feeRate);
  }

  /** The rate that spreads a basket's fee over its legs' notionals: booking every leg of
      `sets` sets at this rate books the sets' whole cost. */
  lemma RecoveredRate(total: real, effective: real, sets: real)
    requires total > 0.0
    ensures total * (sets * (1.0 + (effective / total - 1.0))) == sets * effective
  {
    assert effective / total * total == effective;
  }

  // ---- the object -------------------------------------------------------------------------

  class OrderManager {
    const riskLimits: RiskLimits
    const dryRun: bool
    const kellyParams: KellyParams
    const ttl: real
    const clock: Clock
    const exchange: Exchange
    const wallet: Wallet
    const hasLiveBalance: bool
    const liveBalanceCacheSeconds: real

    /** Last fetched balance and when it was fetched. */
    var liveBalanceCache: Option<(real, real)>
    var marketExposureUsd: map<string, real>
    var totalExposureUsd: real
    var recentIntents: map<Key, real>
    var geoRestricted: bool
    /** Every submission recorded so far, with its time. */
    ghost var marks: seq<Mark>

    function State(): Books
      reads this
    {
      Books(marketExposureUsd, totalExposureUsd, recentIntents, geoRestricted)
    }

    ghost function View(): Snapshot
      reads this, clock, exchange
    {
      Snapshot(State(), clock.now, exchange.effort, exchange.tape)
    }

    /** The caps hold, the total is the sum over the markets, the table of recent intents is what the
        log of submissions says, and submissions of one key are a time-to-live apart. */
    ghost predicate Valid()
      reads this, clock
    {
      && riskLimits.Valid()
      && LedgerOk(riskLimits, marketExposureUsd, totalExposureUsd)
      && recentIntents == WithMarks(map[], marks)
      && Spaced(marks, ttl)
      && Recorded(marks, recentIntents, clock.now)
    }

    constructor (riskLimits: RiskLimits, dryRun: bool, kellyParams: KellyParams, ttl: real, clock: Clock,
                 exchange: Exchange, wallet: Wallet, hasLiveBalance: bool, liveBalanceCacheSeconds: real)
      requires riskLimits.Valid()
      ensures Valid() && State() == Books(map[], 0.0, map[], false) && marks == [] && liveBalanceCache.None?
      ensures this.riskLimits == riskLimits && this.dryRun == dryRun && this.ttl == ttl
      ensures this.kellyParams == kellyParams
      ensures this.clock == clock && this.exchange == exchange && this.wallet == wallet
      ensures this.hasLiveBalance == hasLiveBalance && this.liveBalanceCacheSeconds == liveBalanceCacheSeconds
    {
      this.riskLimits, this.dryRun, this.kellyParams, this.ttl := riskLimits, dryRun, kellyParams, ttl;
      this.clock, this.exchange, this.wallet := clock, exchange, wallet;
      this.hasLiveBalance, this.liveBalanceCacheSeconds := hasLiveBalance, liveBalanceCacheSeconds;
      liveBalanceCache := None;
      marketExposureUsd, totalExposureUsd, recentIntents, geoRestricted := map[], 0.0, map[], false;
      marks := [];
    }

    /** Everything but the live-balance cache is as before. */
    twostate predicate SameTables()
      reads this
    {
      State() == old(State()) && marks == old(marks)
    }

    /** The cached balance, and all the wallet has answered so far. */
    ghost function Funds(): Purse
      reads this, wallet
    {
      Purse(liveBalanceCache, wallet.answers)
    }

    function Settings(): Setting {
      Setting(riskLimits, kellyParams, dryRun, ttl, hasLiveBalance, liveBalanceCacheSeconds, exchange.truthful)
    }

    /** These limits are the ones to use, the wallet having been asked if need be. */
    twostate predicate LimitsAsked(used: RiskLimits)
      requires riskLimits.Valid()
      reads this, clock, wallet
    {
      LimitsFor(used, Settings(), old(Funds()), Funds(), old(clock.now), clock.now)
    }

    /** The wallet's balance: cached for a while, the last known value when the wallet cannot be
        reached, nothing when none was ever fetched. */
    method LiveBalanceUsd() returns (balance: Option<real>)
      requires Valid()
      modifies this, clock, wallet
      ensures Valid() && SameTables()
      ensures old(clock.now) <= clock.now && (clock.simulated ==> clock.now == old(clock.now))
      ensures !hasLiveBalance ==>
        balance.None? && liveBalanceCache == old(liveBalanceCache) && wallet.answers == old(wallet.answers)
      ensures hasLiveBalance ==>
        && Refreshed(old(liveBalanceCache), liveBalanceCache, old(wallet.answers), wallet.answers, clock.now,
                     liveBalanceCacheSeconds)
        && balance == if liveBalanceCache.Some? then Some(liveBalanceCache.value.0) else None
    {
      if !hasLiveBalance {
        return None;
      }
      var now := clock.Read();
      if liveBalanceCache.Some? && now - liveBalanceCache.value.1 < liveBalanceCacheSeconds {
        return Some(liveBalanceCache.value.0);
      }
      var fetched := wallet.Fetch();
      if !fetched.Some? {
        return if liveBalanceCache.Some? then Some(liveBalanceCache.value.0) else None;
      }
      liveBalanceCache := Some((fetched.value, now));
      return fetched;
    }

    /** The configured limits, capped to the balance in use. */
    function CurrentLimits(): RiskLimits
      requires riskLimits.Valid()
      reads this
    {
      EffectiveLimits(riskLimits,
                      if hasLiveBalance && liveBalanceCache.Some? then Some(liveBalanceCache.value.0) else None)
    }

    method EffectiveRiskLimits() returns (limits: RiskLimits)
      requires Valid()
      modifies this, clock, wallet
      ensures Valid() && SameTables()
      ensures old(clock.now) <= clock.now && (clock.simulated ==> clock.now == old(clock.now))
      ensures limits == CurrentLimits() && LimitsAsked(limits)
    {
      var liveBalance := LiveBalanceUsd();
      limits := EffectiveLimits(riskLimits, liveBalance);
    }

    function BasketFor(conditionId: string, legs: seq<Leg>, size: real, strategy: string,
                       feeRate: real): (basket: Basket)
      ensures basket.conditionId == conditionId && basket.dryRun == dryRun && basket.ttl == ttl
    {
      BasketOf(conditionId, dryRun, ttl, legs, size, strategy, feeRate)
    }

    /** Submits the legs concurrently: each passes the duplicate check, then is sent (or only
        logged), recorded and booked; exactly the accepted ones are booked. */
    method SubmitLegs(conditionId: string, legs: seq<Leg>, size: real, strategy: string, feeRate: real)
      returns (decisions: seq<OrderDecision>, ghost stages: seq<Stage>)
      requires Valid() && DistinctTokens(legs)
      requires forall l | l in legs :: Notional(l.price, size, feeRate) >= 0.0
      requires conditionId != "" ==>
        var all := Sum(Notionals(BasketFor(conditionId, legs, size, strategy, feeRate)));
        && Lookup(marketExposureUsd, conditionId) + all <= riskLimits.maxPositionUsd
        && totalExposureUsd + all <= riskLimits.maxPortfolioExposureUsd
      modifies this, clock, exchange
      ensures Valid() && old(clock.now) <= clock.now && (clock.simulated ==> clock.now == old(clock.now))
      ensures DecidedAs(decisions, conditionId, legs, size, strategy, dryRun, stages)
      ensures MarksGrew(old(marks), marks, decisions, old(clock.now), clock.now)
      ensures Dispatched(BasketFor(conditionId, legs, size, strategy, feeRate), stages, old(View()), View(),
                         exchange.truthful)
      ensures liveBalanceCache == old(liveBalanceCache)
    {
      hide Dispatched, BasketOf, Notional, DecidedAs, LedgerOk, Spaced, Recorded, WithMarks, DistinctTokens, MarksGrew;
      hide Notionals, Sum;
      var pool;
      pool, decisions := RunLegs(riskLimits, BasketFor(conditionId, legs, size, strategy, feeRate), legs, size,
                                 strategy, feeRate, State(), clock.now, clock.simulated, exchange, marks);
      stages := pool.stages;
      marketExposureUsd, totalExposureUsd := pool.books.market, pool.books.total;
      recentIntents, geoRestricted := pool.books.seen, pool.books.geoRestricted;
      marks := marks + pool.marks;
      clock.now := pool.now;
    }

    /** One order through the gate: nothing happens unless the gate approves an amount, and
        then an order of exactly that amount is submitted. */
    method EvaluateAndSubmit(conditionId: string, token: string, side: Side, price: real, requestedUsd: real,
                             strategy: string)
      returns (decision: OrderDecision, ghost used: RiskLimits, ghost approved: real)
      requires Valid() && (requestedUsd > 0.0 ==> price != 0.0)
      modifies this, clock, exchange, wallet
      ensures Valid() && old(clock.now) <= clock.now && (clock.simulated ==> clock.now == old(clock.now))
      ensures used == CurrentLimits() && LimitsAsked(used)
      ensures approved == CheckOrder(requestedUsd, old(MarketExposure(conditionId)), old(totalExposureUsd),
                                     used).approvedSizeUsd
      ensures Decided(decision, Ask(conditionId, token, side, price, requestedUsd, strategy),
                      GateView(old(View()), View(), used, Settings()))
      ensures MarksGrew(old(marks), marks, [decision], old(clock.now), clock.now)
      ensures Latched(dryRun, old(geoRestricted), geoRestricted, old(exchange.effort), exchange.effort)
      ensures Booked(old(State()), State(), conditionId, AmountAccepted(decision))
      ensures WasAccepted(decision) ==>
        AmountAccepted(decision) <= riskLimits.maxOrderUsd && totalExposureUsd <= used.maxPortfolioExposureUsd
      ensures dryRun ==> decision.status.DRY_RUN? || decision.status.REJECTED?
    {
      hide LedgerOk, Spaced, Recorded, WithMarks, Worth, IdempotencyKey, MarksGrew, Latched, LimitsFor, KeyDecided;
      var limits := EffectiveRiskLimits();
      used := limits;
      NothingBooked(State(), conditionId);
      var result := CheckOrder(requestedUsd, MarketExposure(conditionId), totalExposureUsd, limits);
      approved := result.approvedSizeUsd;
      if !result.Approved() {
        NothingAccepted(marks, [REJECTION], old(clock.now), clock.now);
        StartLatched(dryRun, geoRestricted, exchange.effort);
        return REJECTION, used, approved;
      }
      var size := result.approvedSizeUsd / price;
      SizedToWorth(IntentOf(conditionId, Leg(token, side, price), size, strategy), approved);
      ghost var mid, midCache, midAnswers := View(), liveBalanceCache, wallet.answers;
      decision := SubmitOne(conditionId, Leg(token, side, price), size, strategy, approved);
      MarksGrewEarlier(old(marks), marks, [decision], old(clock.now), mid.now, clock.now);
      KeyDecidedEarlier(decision, IdempotencyKey(token, side, price, size, strategy), Order(token, side, price, size),
                        old(View()), mid, View(), Settings());
      LimitsLater(used, Settings(), old(Funds()), Funds(), old(clock.now), mid.now, clock.now);
    }

    /** Submits one order worth `amount`. */
    method SubmitOne(conditionId: string, leg: Leg, size: real, strategy: string, ghost amount: real)
      returns (decision: OrderDecision)
      requires Valid() && Worth(IntentOf(conditionId, leg, size, strategy)) == amount > 0.0
      requires MarketExposure(conditionId) + amount <= riskLimits.maxPositionUsd
      requires totalExposureUsd + amount <= riskLimits.maxPortfolioExposureUsd
      modifies this, clock, exchange
      ensures Valid() && old(clock.now) <= clock.now && (clock.simulated ==> clock.now == old(clock.now))
      ensures decision.intent == Some(IntentOf(conditionId, leg, size, strategy))
      ensures KeyDecided(decision, IdempotencyKey(leg.token, leg.side, leg.price, size, strategy),
                         Order(leg.token, leg.side, leg.price, size), old(View()), View(), Settings())
      ensures MarksGrew(old(marks), marks, [decision], old(clock.now), clock.now)
      ensures Latched(dryRun, old(geoRestricted), geoRestricted, old(exchange.effort), exchange.effort)
      ensures Booked(old(State()), State(), conditionId, AmountAccepted(decision))
      ensures dryRun ==> decision.status.DRY_RUN? || decision.status.REJECTED?
      ensures liveBalanceCache == old(liveBalanceCache)
    {
      hide BasketOf, Notional, Traced, GainsWithin, LedgerOk, Spaced, Recorded, WithMarks, Worth, MarksGrew, Latched;
      hide IdempotencyKey, OrderOf, Dispatched, KeyDecided, Booked, Sum, Notionals;
      OneLegNotional(conditionId, dryRun, ttl, leg, size, strategy, amount);
      ghost var before := View();
      var decisions;
      ghost var stages;
      decisions, stages := SubmitLegs(conditionId, [leg], size, strategy, 0.0);
      OneLegOutcome(BasketFor(conditionId, [leg], size, strategy, 0.0), before, View(), stages, amount, Settings());
      decision := decisions[0];
      assert decisions == [decision];
    }

    function MarketExposure(conditionId: string): real
      reads this
    {
      if conditionId != "" then Lookup(marketExposureUsd, conditionId) else 0.0
    }

    // ---- the three entry points ----------------------------------------------------------

    /** A single-token signal is sized by Kelly on the configured portfolio cap and sent through
        the gate at the price it would trade at. */
    method HandleSignal(signal: Signal, conditionId: string, book: OrderBook)
      returns (decision: OrderDecision, ghost used: RiskLimits)
      requires Valid()
      modifies this, clock, exchange, wallet
      ensures Valid() && old(clock.now) <= clock.now && (clock.simulated ==> clock.now == old(clock.now))
      ensures used.Valid()
      ensures SignalDecided(decision, signal, conditionId, book, GateView(old(View()), View(), used, Settings()))
      ensures if Asks(signal, book, Settings()) then LimitsAsked(used)
        else used == riskLimits && Funds() == old(Funds())
      ensures !hasLiveBalance ==> used == riskLimits
      ensures MarksGrew(old(marks), marks, [decision], old(clock.now), clock.now)
      ensures Latched(dryRun, old(geoRestricted), geoRestricted, old(exchange.effort), exchange.effort)
      ensures decision.intent.Some? ==> decision.intent.value.price > 0.0 && decision.intent.value.size > 0.0
      ensures Booked(old(State()), State(), conditionId, AmountAccepted(decision))
      ensures WasAccepted(decision) ==>
        AmountAccepted(decision) <= riskLimits.maxOrderUsd && totalExposureUsd <= used.maxPortfolioExposureUsd
      ensures dryRun ==> decision.status.DRY_RUN? || decision.status.REJECTED?
    {
      used := EffectiveLimits(riskLimits, None);
      hide MarksGrew, Latched, KeyDecided, LimitsFor, WithMarks;
      NothingBooked(State(), conditionId);
      NothingAccepted(marks, [REJECTION], clock.now, clock.now);
      StartLatched(dryRun, geoRestricted, exchange.effort);
      var price := TransactingPrice(book, signal.side);
      if signal.token.None? || price.None? {
        return REJECTION, used;
      }
      assert BestOffer(book, signal.side, price.value);
      forall p | BestOffer(book, signal.side, p) ensures p == price.value {
        BestOfferIsOne(book, signal.side, p, price.value);
      }
      hide BestOffer;
      var requestedUsd := PositionSizeUsd(price.value, signal.edge, signal.side, signal.confidence,
                                          riskLimits.maxPortfolioExposureUsd, kellyParams);
      if requestedUsd <= 0.0 {
        return REJECTION, used;
      }
      OnlyInsidePrices(price.value, signal, riskLimits.maxPortfolioExposureUsd, kellyParams);
      hide PositionSizeUsd, LedgerOk, Spaced, Recorded, Worth, IdempotencyKey;
      ghost var approved;
      decision, used, approved :=
        EvaluateAndSubmit(conditionId, signal.token.value, signal.side, price.value, requestedUsd, "signal");
      if approved > 0.0 {
        PositiveSize(decision.intent.value);
      }
    }

    /** Both sides of a market maker's quote go through the gate, the bid first; `mid` is what the ask
        meets. */
    method HandleQuote(pair: QuotePair, conditionId: string)
      returns (decisions: seq<OrderDecision>, ghost limits: seq<RiskLimits>, ghost mid: Snapshot, ghost funds: Purse)
      requires Valid()
      modifies this, clock, exchange, wallet
      ensures Valid() && old(clock.now) <= clock.now && (clock.simulated ==> clock.now == old(clock.now))
      ensures QuoteDecisions(decisions, pair, dryRun)
      ensures QuotesDecided(decisions, pair, conditionId, limits, old(View()), mid, View(), Settings())
      ensures QuotesLimited(limits, pair, Settings(), old(Funds()), funds, Funds(), old(clock.now), mid.now, clock.now)
      ensures MarksGrew(old(marks), marks, decisions, old(clock.now), clock.now)
      ensures Latched(dryRun, old(geoRestricted), geoRestricted, old(exchange.effort), exchange.effort)
      ensures Booked(old(State()), State(), conditionId, SumAccepted(decisions))
      ensures forall d | d in decisions :: AmountAccepted(d) <= riskLimits.maxOrderUsd
      ensures decisions != [] && WasAccepted(decisions[|decisions| - 1]) ==>
        totalExposureUsd <= CurrentLimits().maxPortfolioExposureUsd
    {
      hide LedgerOk, Spaced, Recorded, WithMarks, Booked, QuoteDecision, AmountAccepted, SumAccepted, Decided;
      hide MarksGrew, Latched, LimitsFor;
      decisions, limits, mid, funds := [], [], View(), Funds();
      NoneAccepted();
      ghost var start, startMarks := View(), marks;
      NothingBooked(start.books, conditionId);
      NothingAccepted(marks, [], clock.now, clock.now);
      StartLatched(dryRun, geoRestricted, exchange.effort);
      if pair.bid.Some? {
        var decision;
        ghost var used;
        decision, used := QuoteSide(pair.token, conditionId, Buy, pair.bid.value);
        SumOfAccepted(decisions, decision);
        assert decisions + [decision] == [decision];
        decisions, limits, mid, funds := decisions + [decision], limits + [used], View(), Funds();
      }
      ghost var midMarks := marks;
      StartLatched(dryRun, geoRestricted, exchange.effort);
      if pair.ask.Some? {
        var decision;
        ghost var used;
        decision, used := QuoteSide(pair.token, conditionId, Sell, pair.ask.value);
        SumOfAccepted(decisions, decision);
        BookedTwice(start.books, mid.books, State(), conditionId, SumAccepted(decisions), AmountAccepted(decision));
        MarksGrewTwice(startMarks, midMarks, marks, decisions, [decision], start.now, mid.now, clock.now);
        LatchedTwice(dryRun, start, mid, View());
        decisions, limits := decisions + [decision], limits + [used];
      }
    }

    method QuoteSide(token: string, conditionId: string, side: Side, quote: Quote)
      returns (decision: OrderDecision, ghost used: RiskLimits)
      requires Valid()
      modifies this, clock, exchange, wallet
      ensures Valid() && old(clock.now) <= clock.now && (clock.simulated ==> clock.now == old(clock.now))
      ensures QuoteDecision(decision, token, side, quote, dryRun)
      ensures used == CurrentLimits() && LimitsAsked(used)
      ensures Decided(decision, QuoteAsk(conditionId, token, side, quote),
                      GateView(old(View()), View(), used, Settings()))
      ensures MarksGrew(old(marks), marks, [decision], old(clock.now), clock.now)
      ensures Latched(dryRun, old(geoRestricted), geoRestricted, old(exchange.effort), exchange.effort)
      ensures Booked(old(State()), State(), conditionId, AmountAccepted(decision))
      ensures AmountAccepted(decision) <= riskLimits.maxOrderUsd
      ensures WasAccepted(decision) ==> totalExposureUsd <= CurrentLimits().maxPortfolioExposureUsd
    {
      QuotedPrice(quote);
      RejectedIsNothing();
      hide LedgerOk, Spaced, Recorded, WithMarks, Booked, AmountAccepted, Worth, Requested, IdempotencyKey, KeyDecided;
      hide MarksGrew, Latched, LimitsFor;
      ghost var approved;
      decision, used, approved :=
        EvaluateAndSubmit(conditionId, token, side, quote.price, Requested(quote), "market_making");
    }

    /** A basket signal is sized once, for the whole complete set with its fees, then submitted
        leg by leg at one share count, and repaired if the legs filled unevenly. `sets` is that
        share count, zero when nothing was submitted. */
    method HandleMultiLegSignal(signal: Signal, conditionId: string)
      returns (decisions: seq<OrderDecision>, ghost sets: real, ghost stages: seq<Stage>, ghost used: RiskLimits,
               ghost outcome: Repair)
      requires Valid() && WellFormed(signal)
      modifies this, clock, exchange, wallet
      ensures Valid() && old(clock.now) <= clock.now && (clock.simulated ==> clock.now == old(clock.now))
      ensures MarksGrew(old(marks), marks, decisions, old(clock.now), clock.now)
      ensures sets == 0.0 ==>
        && (forall d | d in decisions :: d == REJECTION) && State() == old(State())
        && exchange.effort == old(exchange.effort) && exchange.tape == old(exchange.tape)
      ensures used.Valid() && (!hasLiveBalance ==> used == riskLimits)
      ensures if signal.legs == [] || Sum(Prices(signal.legs)) <= 0.0 then used == riskLimits && Funds() == old(Funds())
        else LimitsAsked(used)
      ensures sets == 0.0 ==>
        var approved := CheckOrder(riskLimits.maxOrderUsd, old(MarketExposure(conditionId)),
                                   old(totalExposureUsd), used).approvedSizeUsd;
        || (decisions == [REJECTION] && Unsized(signal, approved))
        || (|decisions| == |signal.legs|
            && Repeats(signal, approved, conditionId, dryRun, ttl, old(State()), old(clock.now)))
      ensures sets != 0.0 ==>
        && sets > 0.0
        && (var approved := CheckOrder(riskLimits.maxOrderUsd, old(MarketExposure(conditionId)), old(totalExposureUsd),
                                       used).approvedSizeUsd;
            SetsAllowed(signal, sets, approved) && !Unsized(signal, approved))
        && BasketCost(signal, sets) <= riskLimits.maxOrderUsd
        && totalExposureUsd <= used.maxPortfolioExposureUsd
      ensures sets != 0.0 ==>
        var basket := BasketFor(conditionId, signal.legs, sets, MULTI_LEG, RecoveredFeeRate(signal));
        && DecidedAs(decisions, conditionId, signal.legs, sets, MULTI_LEG, dryRun, stages)
        && BookedAs(basket, stages, BasketCost(signal, sets), Released(outcome.closings), old(State()), State())
        && LegsSent(basket, stages, old(View()), View(), outcome)
        && Mended(decisions, dryRun, exchange.truthful, old(exchange.tape), outcome, exchange.tape, exchange.effort)
      ensures sets != 0.0 && dryRun ==>
        && (forall d | d in decisions :: d.status.DRY_RUN?)
        && Booked(old(State()), State(), conditionId, BasketCost(signal, sets))
        && exchange.effort == old(exchange.effort) && exchange.tape == old(exchange.tape)
    {
      hide LedgerOk, Spaced, Recorded, WithMarks, BasketOf, SetsAllowed, WellFormed, BasketCost, BookedAs;
      hide RecoveredFeeRate;
      hide DecidedAs, Booked, EffectiveLimits, Unsized, NoDuplicates, Mended, LegsSent, Released;
      hide MarksGrew, LimitsFor;
      decisions, stages := [REJECTION], [];
      outcome := Repair([], [], exchange.tape, exchange.effort);
      ghost var start, startMarks, funds := View(), marks, Funds();
      ghost var asked := signal.legs != [] && Sum(Prices(signal.legs)) > 0.0;
      var numCompleteSets, feeRate;
      numCompleteSets, feeRate, used := SizeBasket(signal, conditionId);
      ghost var began := clock.now;
      sets := 0.0;
      if numCompleteSets <= 0.0 {
        NothingAccepted(marks, decisions, start.now, clock.now);
        return;
      }
      ghost var basket := BasketFor(conditionId, signal.legs, numCompleteSets, MULTI_LEG, feeRate);
      var duplicate := AnyDuplicate(signal.legs, numCompleteSets, basket);
      if duplicate {
        decisions := seq(|signal.legs|, _ => REJECTION);
        StillRepeats(basket, start.books, start.now, began);
        if asked {
          LimitsLater(used, Settings(), funds, Funds(), start.now, began, clock.now);
        }
        NothingAccepted(marks, decisions, start.now, clock.now);
        return;
      }
      sets := numCompleteSets;
      ghost var mid := View();
      decisions, stages, outcome := SubmitAndReconcile(signal, conditionId, numCompleteSets, feeRate);
      SumSentRoom(basket, stages, BasketCost(signal, sets), Released(outcome.closings), start.books, State());
      LegsSentEarlier(basket, stages, start, mid, View(), outcome);
      MarksGrewEarlier(startMarks, marks, decisions, start.now, mid.now, clock.now);
      if asked {
        LimitsLater(used, Settings(), funds, Funds(), start.now, began, clock.now);
      }
    }

    /** How many complete sets the gate and the book allow, zero for none, and the fee rate at
        which their legs are booked. */
    method SizeBasket(signal: Signal, conditionId: string) returns (sets: real, feeRate: real, ghost used: RiskLimits)
      requires Valid() && WellFormed(signal)
      modifies this, clock, wallet
      ensures Valid() && SameTables()
      ensures old(clock.now) <= clock.now && (clock.simulated ==> clock.now == old(clock.now))
      ensures used.Valid() && (!hasLiveBalance ==> used == riskLimits)
      ensures if signal.legs == [] || Sum(Prices(signal.legs)) <= 0.0 then used == riskLimits && Funds() == old(Funds())
        else LimitsAsked(used)
      ensures sets <= 0.0 <==> Unsized(signal, CheckOrder(riskLimits.maxOrderUsd, old(MarketExposure(conditionId)),
                                                          old(totalExposureUsd), used).approvedSizeUsd)
      ensures sets > 0.0 ==>
        && feeRate == RecoveredFeeRate(signal)
        && SetsAllowed(signal, sets, CheckOrder(riskLimits.maxOrderUsd, old(MarketExposure(conditionId)),
                                                old(totalExposureUsd), used).approvedSizeUsd)
        && Budgeted(BasketFor(conditionId, signal.legs, sets, MULTI_LEG, feeRate), signal, sets, feeRate)
        && BasketCost(signal, sets) <= riskLimits.maxOrderUsd
        && MarketExposure(conditionId) + BasketCost(signal, sets) <= riskLimits.maxPositionUsd
        && totalExposureUsd + BasketCost(signal, sets) <= used.maxPortfolioExposureUsd
             <= riskLimits.maxPortfolioExposureUsd
    {
      sets, feeRate, used := 0.0, 0.0, riskLimits;
      if signal.legs == [] {
        return;
      }
      var basketCostPerSet := Sum(Prices(signal.legs));
      if basketCostPerSet <= 0.0 {
        return;
      }
      var effectiveCostPerSet := basketCostPerSet + signal.feeCost;
      hide LedgerOk, Spaced, Recorded, WithMarks, LimitsFor, Sum, Prices, BasketOf;
      var limits := EffectiveRiskLimits();
      used := limits;
      var result := CheckOrder(riskLimits.maxOrderUsd, MarketExposure(conditionId), totalExposureUsd, limits);
      if !result.Approved() {
        return;
      }
      sets := result.approvedSizeUsd / effectiveCostPerSet;
      if signal.maxShares.Some? && signal.maxShares.value < sets {
        sets := signal.maxShares.value;
      }
      feeRate := effectiveCostPerSet / basketCostPerSet - 1.0;
      if sets > 0.0 {
        SetsWithinApproval(signal, sets, result.approvedSizeUsd);
        BasketBudget(conditionId, dryRun, ttl, signal, sets, feeRate);
        hide BasketCost;
      } else {
        assert SetsAllowed(signal, sets, result.approvedSizeUsd);
      }
    }

    /** Checks every leg's key up front. */
    method AnyDuplicate(legs: seq<Leg>, sets: real, ghost basket: Basket) returns (duplicate: bool)
      requires Valid() && |basket.tasks| == |legs| && basket.ttl == ttl
      requires forall i | 0 <= i < |legs| ::
        basket.tasks[i].key == IdempotencyKey(legs[i].token, legs[i].side, legs[i].price, sets, MULTI_LEG)
      modifies clock
      ensures Valid() && old(clock.now) <= clock.now && (clock.simulated ==> clock.now == old(clock.now))
      ensures !duplicate ==> NoDuplicates(basket, State(), clock.now)
      ensures duplicate ==> !NoDuplicates(basket, State(), old(clock.now))
    {
      hide LedgerOk, Spaced, IdempotencyKey;
      for i := 0 to |legs|
        invariant Valid() && old(clock.now) <= clock.now && (clock.simulated ==> clock.now == old(clock.now))
        invariant forall j | 0 <= j < i :: !IsDuplicate(recentIntents, basket.tasks[j].key, clock.now, ttl)
      {
        var now := clock.Read();
        if IsDuplicate(recentIntents, IdempotencyKey(legs[i].token, legs[i].side, legs[i].price, sets, MULTI_LEG), now,
                       ttl) {
          assert IsDuplicate(recentIntents, basket.tasks[i].key, old(clock.now), ttl);
          return true;
        }
      }
      return false;
    }

    /** Submits `sets` of every leg and repairs what filled unevenly. */
    method SubmitAndReconcile(signal: Signal, conditionId: string, sets: real, feeRate: real)
      returns (decisions: seq<OrderDecision>, ghost stages: seq<Stage>, ghost outcome: Repair)
      requires Valid() && WellFormed(signal)
      requires Budgeted(BasketFor(conditionId, signal.legs, sets, MULTI_LEG, feeRate), signal, sets, feeRate)
      requires MarketExposure(conditionId) + BasketCost(signal, sets) <= riskLimits.maxPositionUsd
      requires totalExposureUsd + BasketCost(signal, sets) <= riskLimits.maxPortfolioExposureUsd
      modifies this, clock, exchange
      ensures Valid() && old(clock.now) <= clock.now && (clock.simulated ==> clock.now == old(clock.now))
      ensures MarksGrew(old(marks), marks, decisions, old(clock.now), clock.now)
      ensures liveBalanceCache == old(liveBalanceCache)
      ensures DecidedAs(decisions, conditionId, signal.legs, sets, MULTI_LEG, dryRun, stages)
      ensures var basket := BasketFor(conditionId, signal.legs, sets, MULTI_LEG, feeRate);
        && BookedAs(basket, stages, BasketCost(signal, sets), Released(outcome.closings), old(State()), State())
        && LegsSent(basket, stages, old(View()), View(), outcome)
        && (dryRun && NoDuplicates(basket, old(State()), old(clock.now)) ==>
              && (forall d | d in decisions :: d.status.DRY_RUN?)
              && Booked(old(State()), State(), conditionId, BasketCost(signal, sets)))
      ensures dryRun ==> exchange.effort == old(exchange.effort) && exchange.tape == old(exchange.tape)
      ensures Mended(decisions, dryRun, exchange.truthful, old(exchange.tape), outcome, exchange.tape, exchange.effort)
    {
      hide LedgerOk, Spaced, Recorded, WithMarks, BasketCost, Notional, Traced, GainsWithin, IdsGiven, BasketOf;
      hide Submitted;
      hide DecidedAs, Booked, PostsAccounted, Mended, LegsFilled, TokensDiffer, KeysKept, MarksGrew, Released;
      hide Latched, NoLess, Dispatched, LegsSent;
      hide DistinctTokens, SumSent, Notionals, BookedAs, NoDuplicates, Indexed, Sum, IdempotencyKey, EffectiveLimits;
      ghost var before, base := View(), exchange.tape;
      ghost var basket := BasketFor(conditionId, signal.legs, sets, MULTI_LEG, feeRate);
      decisions, stages := SubmitLegs(conditionId, signal.legs, sets, MULTI_LEG, feeRate);
      ghost var mid, filled := View(), exchange.tape;
      DispatchedFacts(basket, stages, before, mid, exchange.truthful);
      DecisionsDiffer(decisions, conditionId, signal.legs, sets, MULTI_LEG, dryRun, stages);
      if !dryRun && exchange.truthful {
        LegsFilledBy(decisions, conditionId, signal.legs, sets, MULTI_LEG, ttl, feeRate, stages, base, filled);
      }
      outcome := ReconcileMultiLegFills(decisions, conditionId, base);
      EffortGrows(decisions, dryRun, exchange.truthful, base, outcome, exchange.tape, exchange.effort);
      SentThenMended(basket, stages, before, mid, View(), exchange.truthful, outcome);
      SubmittedThenReleased(basket, before.books, before.now, mid.books, State(), stages, BasketCost(signal, sets),
                            Released(outcome.closings));
      if dryRun && NoDuplicates(basket, before.books, before.now) {
        AllAccepted(basket, before.books, before.now, mid.books, decisions, conditionId, signal.legs, sets, MULTI_LEG,
                    stages);
      }
    }

    // ---- repairing half-filled baskets -------------------------------------------------

    /** Returns exposure of an order that closes a position. */
    method ReleaseExposure(conditionId: string, notionalUsd: real)
      requires Valid() && notionalUsd >= 0.0
      modifies this
      ensures Valid() && marks == old(marks) && liveBalanceCache == old(liveBalanceCache)
      ensures Booked(old(State()), State(), conditionId, -notionalUsd)
      ensures recentIntents == old(recentIntents) && geoRestricted == old(geoRestricted)
    {
      ghost var before := State();
      if conditionId != "" {
        marketExposureUsd := marketExposureUsd[conditionId := MarketExposure(conditionId) - notionalUsd];
        totalExposureUsd := totalExposureUsd - notionalUsd;
        assert marketExposureUsd - {conditionId} == before.market - {conditionId};
      }
      RoomBelowCaps(riskLimits, before, conditionId);
      BookedKeepsLedger(riskLimits, before, State(), conditionId, -notionalUsd);
    }

    /** Asks for the fill of an order, at most five times, until it is non-zero; None if a poll goes
        unanswered. */
    method PollOrderFill(orderId: nat) returns (sizeMatched: Option<real>, ghost polls: nat)
      modifies exchange`effort
      ensures 1 <= polls <= 5
      ensures exchange.effort == AfterPolls(old(exchange.effort), orderId, polls, sizeMatched.Some?)
      ensures sizeMatched.Some? && sizeMatched.value <= 0.0 ==> polls == 5
      ensures exchange.truthful && orderId in exchange.tape.matched && sizeMatched.Some? ==>
        sizeMatched.value == exchange.tape.matched[orderId]
    {
      var last := 0.0;
      polls := 0;
      ghost var start := exchange.effort;
      NothingPolled(start, orderId);
      hide AfterPolls;
      for attempt := 1 to FILL_POLL_ATTEMPTS + 1
        invariant polls == attempt - 1 && exchange.effort == AfterPolls(start, orderId, polls, true)
        invariant exchange.truthful && orderId in exchange.tape.matched && attempt > 1 ==>
          last == exchange.tape.matched[orderId]
      {
        ghost var mid := exchange.effort;
        var order := exchange.GetOrder(orderId);
        OnePollMore(start, orderId, polls, mid, exchange.effort, order.Some?);
        polls := polls + 1;
        if !order.Some? {
          return None, polls;
        }
        last := order.value;
        if last > 0.0 || attempt == FILL_POLL_ATTEMPTS {
          return Some(last), polls;
        }
      }
      return Some(last), polls;
    }

    /** Tries up to five times to place a closing order, each time signed anew, and releases its worth
        once it is placed. It is posted whether or not the geoblock latch is closed, and leaves the
        latch alone. Only an exchange that hides what it takes can fill it more than once. */
    method PlaceFlattenOrderWithRetry(conditionId: string, order: Order)
      returns (orderId: Option<nat>, ghost fill: real, ghost placed: bool, ghost posts: nat)
      requires Valid() && order.price >= 0.0 && order.size > 0.0
      modifies this, exchange
      ensures Valid() && marks == old(marks) && liveBalanceCache == old(liveBalanceCache)
      ensures Booked(old(State()), State(), conditionId, -(if placed then ValueAt(order.price, order.size) else 0.0))
      ensures recentIntents == old(recentIntents) && geoRestricted == old(geoRestricted)
      ensures (if placed then 1 else 5) <= posts <= 5 * 3
      ensures exists blocks | 0 <= blocks <= posts ::
        exchange.effort == AfterPosts(old(exchange.effort), order, posts, blocks)
      ensures orderId.Some? ==> placed
      ensures HeldChanged(old(exchange.tape), exchange.tape, order.token, Signed(order.side, fill))
      ensures 0.0 <= fill <= Times(FILL_POLL_ATTEMPTS, order.size)
      ensures exchange.truthful ==> fill <= order.size && (orderId.None? ==> fill == 0.0 && !placed)
      ensures exchange.truthful && orderId.Some? ==>
        orderId.value in exchange.tape.matched && exchange.tape.matched[orderId.value] == fill
    {
      hide AfterPosts, Records, HeldChanged, Times, Booked, LedgerOk, Spaced, Recorded, WithMarks;
      fill, placed, posts := 0.0, false, 0;
      ghost var start, startTape := exchange.effort, exchange.tape;
      ghost var blocks: nat := 0;
      NothingBooked(State(), conditionId);
      NothingTaken(startTape, order, start);
      for attempt := 1 to FILL_POLL_ATTEMPTS + 1
        invariant Valid() && State() == old(State()) && marks == old(marks)
        invariant liveBalanceCache == old(liveBalanceCache)
        invariant exchange.effort == AfterPosts(start, order, posts, blocks)
        invariant attempt - 1 <= posts <= (attempt - 1) * MAX_RETRIES && blocks <= posts
        invariant HeldChanged(startTape, exchange.tape, order.token, Signed(order.side, fill))
        invariant 0.0 <= fill <= Times(attempt - 1, order.size)
        invariant exchange.truthful ==> fill == 0.0
      {
        ghost var replies, taken, midTape := [], None, exchange.tape;
        var reply, slept;
        reply, slept, replies, taken := PlaceOrder(exchange, order);
        ghost var x := TakenChanges(midTape, exchange.tape, order, taken);
        HeldTwice(startTape, midTape, exchange.tape, order.token, order.side, fill, x);
        PostsAdd(start, order, posts, blocks, |replies|, Blocks(reply));
        TimesGrow(attempt - 1, FILL_POLL_ATTEMPTS, order.size);
        fill, posts, blocks := fill + x, posts + |replies|, blocks + Blocks(reply);
        if reply.Accepted? {
          MulMonotone(0.0, order.price, order.size);
          assert ValueAt(order.price, order.size) == order.price * order.size;
          ReleaseExposure(conditionId, order.price * order.size);
          placed := true;
          return reply.orderId, fill, placed, posts;
        }
      }
      return None, fill, placed, posts;
    }

    /** One round: a closing order, and the fill reported for it, zero when there is no order or
        no answer. */
    method FlattenOnce(conditionId: string, order: Order) returns (matched: real, ghost round: Attempt)
      requires Valid() && order.price >= 0.0 && order.size > 0.0
      modifies this, exchange
      ensures Valid() && marks == old(marks) && liveBalanceCache == old(liveBalanceCache)
      ensures round.size == order.size && round.matched == matched
      ensures Booked(old(State()), State(), conditionId,
                     -(if round.placed then ValueAt(order.price, order.size) else 0.0))
      ensures recentIntents == old(recentIntents) && geoRestricted == old(geoRestricted)
      ensures HeldChanged(old(exchange.tape), exchange.tape, order.token, Signed(order.side, round.fill))
      ensures 0.0 <= round.fill <= Times(FILL_POLL_ATTEMPTS, order.size)
      ensures !round.placed || !round.told ==> matched == 0.0
      ensures exchange.truthful ==> Honest(round)
      ensures Worked(old(exchange.effort), exchange.effort, order.(size := 0.0), [round])
    {
      hide Booked, HeldChanged, LedgerOk, Spaced, Recorded, WithMarks, Times, ValueAt;
      ghost var start, placed, posts, fill := exchange.effort, false, 0, 0.0;
      var orderId;
      orderId, fill, placed, posts := PlaceFlattenOrderWithRetry(conditionId, order);
      matched := 0.0;
      ghost var mid, told := exchange.effort, true;
      if orderId.Some? {
        var answer;
        ghost var polls;
        answer, polls := PollOrderFill(orderId.value);
        PollsCount(mid, orderId.value, polls, answer.Some?);
        if answer.Some? {
          matched := answer.value;
        } else {
          told := false;
        }
      }
      round := Attempt(order.size, placed, told, matched, fill);
      RoundWorked(start, mid, exchange.effort, order, posts, round);
    }

    /** Sells (or buys) back the order's size in rounds, each ordering what is still left, until it
        is gone to the cent or the rounds are used up. */
    method FlattenUntilClear(conditionId: string, order: Order) returns (cleared: bool, ghost rounds: seq<Attempt>)
      requires Valid() && order.price >= 0.0
      modifies this, exchange
      ensures Valid() && marks == old(marks) && liveBalanceCache == old(liveBalanceCache)
      ensures Flattened(order.size, rounds) && (cleared <==> NothingLeft(order.size, rounds))
      ensures Booked(old(State()), State(), conditionId, -Returned(order.price, rounds))
      ensures recentIntents == old(recentIntents) && geoRestricted == old(geoRestricted)
      ensures HeldChanged(old(exchange.tape), exchange.tape, order.token, Signed(order.side, Filled(rounds)))
      ensures exchange.truthful ==> forall r | r in rounds :: Honest(r)
      ensures Worked(old(exchange.effort), exchange.effort, order.(size := 0.0), rounds)
    {
      hide Booked, HeldChanged, LedgerOk, Spaced, Recorded, WithMarks, Lookup, Signed, RoundCents, Honest, Worked;
      hide Matched, Filled, Returned, Ordered, Times, ValueAt, Flattened;
      var remaining := order.size;
      cleared, rounds := false, [];
      ghost var template := order.(size := 0.0);
      ghost var before, start, effort := State(), exchange.tape, exchange.effort;
      NothingBooked(before, conditionId);
      NoRounds(start, effort, template, order.size);
      for round := 1 to FLATTEN_ROUNDS + 1
        invariant Valid() && marks == old(marks) && liveBalanceCache == old(liveBalanceCache)
        invariant |rounds| == round - 1 && Ordered(order.size, rounds) && remaining == Remaining(order.size, rounds)
        invariant round > 1 ==> RoundCents(remaining) > 0.0
        invariant Booked(before, State(), conditionId, -Returned(order.price, rounds))
        invariant recentIntents == old(recentIntents) && geoRestricted == old(geoRestricted)
        invariant HeldChanged(start, exchange.tape, order.token, Signed(order.side, Filled(rounds)))
        invariant exchange.truthful ==> forall r | r in rounds :: Honest(r)
        invariant Worked(effort, exchange.effort, template, rounds)
      {
        var attemptSize := RoundCents(remaining);
        if attemptSize <= 0.0 {
          EndsFlattened(order.size, rounds);
          return true, rounds;
        }
        var matched: real;
        ghost var r;
        ghost var mid, midTape, midEffort := State(), exchange.tape, exchange.effort;
        matched, r := FlattenOnce(conditionId, order.(size := attemptSize));
        OneMoreRound(order.size, rounds, r);
        OneRoundSums(order.price, rounds, r);
        BookedTwice(before, mid, State(), conditionId, -Returned(order.price, rounds),
                    -(if r.placed then ValueAt(order.price, attemptSize) else 0.0));
        HeldTwice(start, midTape, exchange.tape, order.token, order.side, Filled(rounds), r.fill);
        WorkedTwice(effort, midEffort, exchange.effort, template, rounds, r);
        rounds := rounds + [r];
        remaining := remaining - matched;
        if RoundCents(remaining) <= 0.0 {
          EndsFlattened(order.size, rounds);
          return true, rounds;
        }
      }
      EndsFlattened(order.size, rounds);
    }

    /** Each leg's matched shares: zero for a leg without an order, nothing for a leg whose poll
        went unanswered. */
    method CollectFills(decisions: seq<OrderDecision>, ghost base: Tape) returns (fills: seq<(nat, real)>)
      requires exchange.truthful ==> LegsFilled(decisions, base, exchange.tape)
      modifies exchange`effort
      ensures OnlyPolled(old(exchange.effort), exchange.effort)
      ensures Asked(decisions, fills, |decisions|, old(exchange.effort), exchange.effort)
      ensures Indexed(fills, decisions)
      ensures forall i | 0 <= i < |decisions| && !HasOrder(decisions[i]) :: (i, 0.0) in fills
      ensures exchange.truthful ==> TrueFills(decisions, fills, base, exchange.tape)
    {
      hide Net, Told, NoLess, Asked, AfterPolls;
      fills := [];
      ghost var start := exchange.effort;
      NothingAsked(decisions, start);
      for i := 0 to |decisions|
        invariant Indexed(fills, decisions) && forall k | 0 <= k < |fills| :: fills[k].0 < i
        invariant OnlyPolled(start, exchange.effort) && Asked(decisions, fills, i, start, exchange.effort)
        invariant forall j | 0 <= j < i && !HasOrder(decisions[j]) :: (j, 0.0) in fills
        invariant exchange.truthful ==> TrueFills(decisions, fills, base, exchange.tape)
      {
        if !HasOrder(decisions[i]) {
          AskedMore(decisions, fills, [(i, 0.0)], i, start, exchange.effort, exchange.effort);
          fills := fills + [(i, 0.0)];
        } else {
          var sizeMatched;
          ghost var polls, mid := 0, exchange.effort;
          sizeMatched, polls := PollOrderFill(decisions[i].orderId.value);
          PollsCount(mid, decisions[i].orderId.value, polls, sizeMatched.Some?);
          ghost var told := if sizeMatched.Some? then [(i, sizeMatched.value)] else [];
          AskedMore(decisions, fills, told, i, start, mid, exchange.effort);
          assert fills + [] == fills;
          if sizeMatched.Some? {
            fills := fills + [(i, sizeMatched.value)];
          }
        }
      }
    }

    /** Closes what one leg has in excess, if it is worth a cent of a share. */
    method FlattenExcess(conditionId: string, intent: OrderIntent, excess: real) returns (ghost c: Closing)
      requires Valid() && excess >= 0.0
      modifies this, exchange
      ensures Valid() && marks == old(marks) && liveBalanceCache == old(liveBalanceCache)
      ensures LegClosing(c, intent, excess)
      ensures Booked(old(State()), State(), conditionId, -Returned(ClosingPrice(c.side), c.rounds))
      ensures recentIntents == old(recentIntents) && geoRestricted == old(geoRestricted)
      ensures HeldChanged(old(exchange.tape), exchange.tape, c.token, Signed(Opposite(c.side), Filled(c.rounds)))
      ensures exchange.truthful ==> forall r | r in c.rounds :: Honest(r)
      ensures Worked(old(exchange.effort), exchange.effort, ClosingOrder(c), c.rounds)
    {
      hide Booked, HeldChanged, LedgerOk, Spaced, Recorded, WithMarks, Ordered, Remaining;
      var side := Opposite(intent.side);
      c := Closing(intent.token, intent.side, excess, []);
      NothingBooked(State(), conditionId);
      NoRounds(exchange.tape, exchange.effort, ClosingOrder(c), RoundCents(excess));
      if excess <= EPSILON {
        return;
      }
      var price := if side.Sell? then 0.01 else 0.99;
      var roundedExcess := RoundCents(excess);
      if roundedExcess <= 0.0 {
        return;
      }
      var cleared;
      ghost var rounds;
      cleared, rounds := FlattenUntilClear(conditionId, Order(intent.token, side, price, roundedExcess));
      c := c.(rounds := rounds);
    }

    /** Flattens every leg that is ahead of the smallest one. With a truthful exchange, and if
        every flatten cleared with its polls answered, each leg whose fill is known ends within a
        cent of a share of the smallest fill among them. */
    method ReconcileMultiLegFills(decisions: seq<OrderDecision>, conditionId: string, ghost base: Tape)
      returns (ghost outcome: Repair)
      requires Valid() && TokensDiffer(decisions) && forall d | d in decisions :: d.intent.Some?
      requires !dryRun && exchange.truthful ==> LegsFilled(decisions, base, exchange.tape)
      modifies this, exchange
      ensures Valid() && marks == old(marks) && liveBalanceCache == old(liveBalanceCache)
      ensures outcome.filled == old(exchange.tape) && outcome.effort == old(exchange.effort)
      ensures Released(outcome.closings) >= 0.0
      ensures Booked(old(State()), State(), conditionId, -Released(outcome.closings))
      ensures recentIntents == old(recentIntents) && geoRestricted == old(geoRestricted)
      ensures dryRun ==> State() == old(State())
      ensures Mended(decisions, dryRun, exchange.truthful, base, outcome, exchange.tape, exchange.effort)
    {
      hide Asked, Booked, LedgerOk, Spaced, Recorded, WithMarks, LegsFilled, TokensDiffer, TrueFills, Repaired;
      hide Reconciled, Earnest, OnlyPolled, Mended, Excesses, TapeMoved, EffortMoved, AllHonest, HasOrder, Released;
      outcome := Repair([], [], exchange.tape, exchange.effort);
      NothingBooked(State(), conditionId);
      DryRunMends(decisions, exchange.truthful, base, exchange.tape, exchange.effort);
      if dryRun {
        return;
      }
      var fills := CollectFills(decisions, base);
      ghost var polled := exchange.effort;
      outcome := outcome.(known := fills);
      if |fills| < 2 {
        FewFills(decisions, outcome, exchange.truthful, base, exchange.effort);
        return;
      }
      var minMatched := Smallest(fills);
      ghost var closings := FlattenLegs(decisions, fills, conditionId, minMatched);
      outcome := outcome.(closings := closings);
      NothingBookedBack(decisions, fills, minMatched, closings);
      AllMended(decisions, outcome, exchange.truthful, base, exchange.tape, polled, exchange.effort);
    }

    /** Flattens what each known leg has in excess of `minMatched`. */
    method FlattenLegs(decisions: seq<OrderDecision>, fills: seq<(nat, real)>, conditionId: string, minMatched: real)
      returns (ghost closings: seq<Closing>)
      requires Valid() && forall d | d in decisions :: d.intent.Some?
      requires Indexed(fills, decisions) && forall f | f in fills :: minMatched <= f.1
      modifies this, exchange
      ensures Valid() && marks == old(marks) && liveBalanceCache == old(liveBalanceCache)
      ensures Excesses(decisions, fills, minMatched, closings)
      ensures Booked(old(State()), State(), conditionId, -Released(closings))
      ensures recentIntents == old(recentIntents) && geoRestricted == old(geoRestricted)
      ensures TapeMoved(old(exchange.tape), exchange.tape, closings)
      ensures exchange.truthful ==> AllHonest(closings)
      ensures EffortMoved(old(exchange.effort), exchange.effort, closings)
    {
      hide Booked, HeldChanged, LedgerOk, Spaced, Recorded, WithMarks, TapeMoved, EffortMoved, Worked, LegClosing;
      hide Released, Returned, Filled, Honest;
      closings := [];
      ghost var before, tape, effort := State(), exchange.tape, exchange.effort;
      NothingBooked(before, conditionId);
      NothingClosed(tape, effort);
      for k := 0 to |fills|
        invariant Valid() && marks == old(marks) && liveBalanceCache == old(liveBalanceCache)
        invariant Excesses(decisions, fills[..k], minMatched, closings)
        invariant Booked(before, State(), conditionId, -Released(closings))
        invariant recentIntents == old(recentIntents) && geoRestricted == old(geoRestricted)
        invariant TapeMoved(tape, exchange.tape, closings)
        invariant exchange.truthful ==> AllHonest(closings)
        invariant EffortMoved(effort, exchange.effort, closings)
      {
        var i, sizeMatched := fills[k].0, fills[k].1;
        assert decisions[i] in decisions && fills[k] in fills;
        ghost var mid, midTape, midEffort := State(), exchange.tape, exchange.effort;
        ghost var c := FlattenExcess(conditionId, decisions[i].intent.value, sizeMatched - minMatched);
        OneMoreClosing(tape, midTape, exchange.tape, closings, c);
        OneMoreEffort(effort, midEffort, exchange.effort, closings, c);
        BookedTwice(before, mid, State(), conditionId, -Released(closings),
                    -Returned(ClosingPrice(c.side), c.rounds));
        assert fills[..k + 1] == fills[..k] + [fills[k]];
        closings := closings + [c];
      }
      assert fills[..|fills|] == fills;
    }
  }

  /** A leg's excess, closed out. */
  ghost predicate LegClosing(c: Closing, intent: OrderIntent, excess: real) {
    c.token == intent.token && c.side == intent.side && c.excess == excess && ClosedOut(c)
  }

  /** What each known leg has in excess of `least`, closed out leg by leg. */
  ghost predicate Excesses(decisions: seq<OrderDecision>, known: seq<(nat, real)>, least: real,
                           closings: seq<Closing>) {
    && |closings| == |known|
    && forall l | 0 <= l < |known| ::
         && known[l].0 < |decisions| && decisions[known[l].0].intent.Some?
         && LegClosing(closings[l], decisions[known[l].0].intent.value, known[l].1 - least)
  }

  ghost predicate AllHonest(closings: seq<Closing>) {
    forall c, r | c in closings && r in c.rounds :: Honest(r)
  }

  predicate Complete(closings: seq<Closing>) {
    forall c | c in closings :: Finished(c)
  }

  /** What the repair of a basket found and did: the known fills and the closings, and the exchange's
      tape and the effort spent before it. */
  datatype Repair = Repair(known: seq<(nat, real)>, closings: seq<Closing>, filled: Tape, effort: Effort)

  /** An order that closes some leg: its token on the other side, sold at one cent or bought at 99, for
      a positive whole number of cents of a share. */
  ghost predicate Closes(order: Order, decisions: seq<OrderDecision>) {
    && (exists d | d in decisions && d.intent.Some? ::
          order.token == d.intent.value.token && order.side != d.intent.value.side)
    && order.price == (if order.side.Sell? then 0.01 else 0.99)
    && order.size > 0.0 && WholeCents(order.size)
  }

  /** With two known fills or more, each leg's excess over the smallest was closed out. Holdings moved
      by what the closing orders filled, and no further; earlier orders kept their fills; only the
      closings' rounds posted anything, and every order closes some leg; a truthful exchange filled and
      reported each round honestly. */
  ghost predicate Repaired(decisions: seq<OrderDecision>, r: Repair, truthful: bool, tape: Tape, effort: Effort) {
    && (if |r.known| < 2 then r.closings == [] else Excesses(decisions, r.known, Smallest(r.known), r.closings))
    && TapeMoved(r.filled, tape, r.closings)
    && EffortMoved(r.effort, effort, r.closings)
    && (forall o | effort.posted[o] > r.effort.posted[o] :: Closes(o, decisions))
    && (truthful ==> AllHonest(r.closings))
  }

  /** All that the repair posts closes some leg. */
  lemma RepairCloses(decisions: seq<OrderDecision>, known: seq<(nat, real)>, least: real, closings: seq<Closing>,
                     before: Effort, after: Effort)
    requires EffortMoved(before, after, closings)
    requires closings == [] || Excesses(decisions, known, least, closings)
    ensures forall o | after.posted[o] > before.posted[o] :: Closes(o, decisions)
  {
    hide WholeCents;
    forall o | after.posted[o] > before.posted[o] ensures Closes(o, decisions) {
      var l := PostedCloses(closings, before, after, o);
      var d := decisions[known[l].0];
      assert d in decisions && LegClosing(closings[l], d.intent.value, known[l].1 - least);
    }
  }

  /** Every leg without an order is known to have matched nothing, the known fills are the true
      ones, and once everything cleared each known leg is hedged to the smallest of them. */
  ghost predicate Reconciled(decisions: seq<OrderDecision>, r: Repair, truthful: bool, base: Tape, after: Tape) {
    && Indexed(r.known, decisions)
    && (forall i | 0 <= i < |decisions| && !HasOrder(decisions[i]) :: (i, 0.0) in r.known)
    && (truthful ==> LegsFilled(decisions, base, r.filled) && TrueFills(decisions, r.known, base, r.filled))
    && (truthful && Complete(r.closings) && r.known != [] ==>
          AllHedged(decisions, r.known, base, after, Smallest(r.known)))
  }

  /** Some poll went unanswered, or some flatten used up its rounds. */
  ghost predicate Strained(r: Repair, effort: Effort) {
    Missed(r.effort, effort) || exists c | c in r.closings :: |c.rounds| == FLATTEN_ROUNDS
  }

  /** A leg's fill stays unknown, and the repair incomplete, only for cause. */
  ghost predicate Earnest(decisions: seq<OrderDecision>, r: Repair, effort: Effort) {
    Asked(decisions, r.known, |decisions|, r.effort, effort) && (!Complete(r.closings) ==> Strained(r, effort))
  }

  /** What the repair did. A dry run repairs nothing and leaves the exchange alone. */
  ghost predicate Mended(decisions: seq<OrderDecision>, dryRun: bool, truthful: bool, base: Tape, r: Repair, tape: Tape,
                         effort: Effort) {
    if dryRun then r == Repair([], [], tape, effort)
    else
      && Repaired(decisions, r, truthful, tape, effort)
      && Reconciled(decisions, r, truthful, base, tape)
      && Earnest(decisions, r, effort)
  }

  lemma EffortGrows(decisions: seq<OrderDecision>, dryRun: bool, truthful: bool, base: Tape, r: Repair, tape: Tape,
                    effort: Effort)
    requires Mended(decisions, dryRun, truthful, base, r, tape, effort)
    ensures NoLess(r.effort, effort)
    ensures dryRun ==> r == Repair([], [], tape, effort)
  {
    hide Reconciled, Earnest, Excesses, TapeMoved, AllHonest;
  }

  // ---- how hard the repair tried -----------------------------------------------------------

  ghost predicate Posted(order: Order, before: Effort, after: Effort) {
    after.posted[order] > before.posted[order]
  }

  lemma NothingPolled(effort: Effort, orderId: nat)
    ensures AfterPolls(effort, orderId, 0, true) == effort
  {
  }

  lemma OnePollMore(start: Effort, orderId: nat, n: nat, mid: Effort, after: Effort, told: bool)
    requires mid == AfterPolls(start, orderId, n, true)
    requires after.posted == mid.posted && after.geoblocks == mid.geoblocks
    requires after.polled == mid.polled + multiset{orderId}
    requires after.unanswered == mid.unanswered + if told then multiset{} else multiset{orderId}
    ensures after == AfterPolls(start, orderId, n + 1, told)
  {
    assert after.polled == AfterPolls(start, orderId, n + 1, told).polled;
    assert after.unanswered == AfterPolls(start, orderId, n + 1, told).unanswered;
  }

  lemma PollsCount(start: Effort, orderId: nat, n: nat, told: bool)
    ensures var after := AfterPolls(start, orderId, n, told);
      && NoLess(start, after) && after.posted == start.posted && after.geoblocks == start.geoblocks
      && (!told ==> after.unanswered[orderId] > start.unanswered[orderId])
  {
  }

  /** The effort of one round: the posts of its order, then the polls if it was placed. */
  lemma RoundWorked(start: Effort, mid: Effort, after: Effort, order: Order, posts: nat, r: Attempt)
    requires 1 <= posts <= FILL_POLL_ATTEMPTS * MAX_RETRIES && r.size == order.size
    requires exists blocks | 0 <= blocks <= posts :: mid == AfterPosts(start, order, posts, blocks)
    requires NoLess(mid, after) && after.posted == mid.posted && after.geoblocks == mid.geoblocks
    requires !r.told ==> Missed(mid, after)
    ensures Worked(start, after, order.(size := 0.0), [r])
  {
    assert forall id :: start.unanswered[id] <= mid.unanswered[id] <= after.unanswered[id];
    PostsCounted(start, order, posts, 0);
    forall o ensures PostsIn(start, after, o, RoundsOf(order.(size := 0.0), [r], o)) {
      assert mid.posted[o] == start.posted[o] + if o == order then posts else 0;
      assert [r][..0] == [] && order.(size := 0.0).(size := r.size) == order;
      assert RoundsOf(order.(size := 0.0), [r], o)
          == RoundsOf(order.(size := 0.0), [r][..0], o) + if order == o then 1 else 0;
    }
    assert !AllTold([r]) ==> !r.told;
  }

  /** Nothing was posted. */
  ghost predicate OnlyPolled(before: Effort, after: Effort) {
    NoLess(before, after) && after.posted == before.posted && after.geoblocks == before.geoblocks
  }

  lemma TimesGrow(n: nat, most: nat, size: real)
    requires n < most && size >= 0.0
    ensures Times(n, size) + size == Times(n + 1, size) <= Times(most, size)
    ensures Times(0, size) == 0.0
  {
    MulMonotone((n + 1) as real, most as real, size);
  }

  lemma NothingTaken(tape: Tape, order: Order, effort: Effort)
    ensures HeldChanged(tape, tape, order.token, Signed(order.side, 0.0))
    ensures Times(0, order.size) == 0.0
    ensures AfterPosts(effort, order, 0, 0) == effort
  {
  }

  /** What taking an order at most once does to the holdings. */
  lemma TakenChanges(before: Tape, after: Tape, order: Order, taken: Option<nat>) returns (fill: real)
    requires Records(before, after, order, taken) && order.size > 0.0
    ensures 0.0 <= fill <= order.size
    ensures HeldChanged(before, after, order.token, Signed(order.side, fill))
    ensures if taken.Some? then taken.value in after.matched && fill == after.matched[taken.value] else fill == 0.0
  {
    fill := if taken.Some? then after.matched[taken.value] else 0.0;
  }

  /** Up to the n-th leg, an order's fill is known unless its poll went unanswered. */
  ghost predicate Asked(decisions: seq<OrderDecision>, fills: seq<(nat, real)>, n: nat, before: Effort, after: Effort) {
    forall i | 0 <= i < n && i < |decisions| && HasOrder(decisions[i]) ::
      Told(fills, i)
      || after.unanswered[decisions[i].orderId.value] > before.unanswered[decisions[i].orderId.value]
  }

  ghost predicate Told(fills: seq<(nat, real)>, i: nat) {
    exists k | 0 <= k < |fills| :: fills[k].0 == i
  }

  lemma ToldMore(fills: seq<(nat, real)>, f: (nat, real))
    ensures Told(fills + [f], f.0)
    ensures forall i | Told(fills, i) :: Told(fills + [f], i)
  {
    assert (fills + [f])[|fills|] == f;
    forall i | Told(fills, i) ensures Told(fills + [f], i) {
      var k :| 0 <= k < |fills| && fills[k].0 == i;
      assert (fills + [f])[k] == fills[k];
    }
  }

  lemma NothingAsked(decisions: seq<OrderDecision>, effort: Effort)
    ensures NoLess(effort, effort) && Asked(decisions, [], 0, effort, effort)
  {
  }

  /** One leg more, its fill told or its poll unanswered. */
  lemma AskedMore(decisions: seq<OrderDecision>, fills: seq<(nat, real)>, told: seq<(nat, real)>, i: nat, start: Effort,
                  mid: Effort, after: Effort)
    requires i < |decisions| && Asked(decisions, fills, i, start, mid) && NoLess(start, mid)
    requires NoLess(mid, after) || after == mid
    requires |told| <= 1 && (|told| == 1 ==> told[0].0 == i)
    requires told == [] && HasOrder(decisions[i]) ==>
      after.unanswered[decisions[i].orderId.value] > mid.unanswered[decisions[i].orderId.value]
    ensures Asked(decisions, fills + told, i + 1, start, after) && NoLess(start, after)
  {
    if told == [] {
      assert fills + told == fills;
    } else {
      assert told == [told[0]];
      ToldMore(fills, told[0]);
    }
    hide Told, HasOrder;
    assert forall id :: start.unanswered[id] <= mid.unanswered[id] <= after.unanswered[id];
  }

  /** The listed fills are the legs' net positions. */
  ghost predicate TrueFills(decisions: seq<OrderDecision>, fills: seq<(nat, real)>, base: Tape, tape: Tape) {
    Indexed(fills, decisions) && forall l | 0 <= l < |fills| ::
      decisions[fills[l].0].intent.Some? && fills[l].1 == Net(decisions[fills[l].0].intent.value, base, tape)
  }

  ghost predicate AllHedged(decisions: seq<OrderDecision>, fills: seq<(nat, real)>, base: Tape, tape: Tape,
                            target: real) {
    Indexed(fills, decisions) && forall l | 0 <= l < |fills| :: Hedged(decisions[fills[l].0], base, tape, target)
  }

  /** With fewer than two known fills there is nothing to compare. */
  lemma FewFills(decisions: seq<OrderDecision>, r: Repair, truthful: bool, base: Tape, effort: Effort)
    requires |r.known| < 2 && r.closings == [] && Indexed(r.known, decisions) && OnlyPolled(r.effort, effort)
    requires forall i | 0 <= i < |decisions| && !HasOrder(decisions[i]) :: (i, 0.0) in r.known
    requires Asked(decisions, r.known, |decisions|, r.effort, effort)
    requires truthful ==> LegsFilled(decisions, base, r.filled) && TrueFills(decisions, r.known, base, r.filled)
    ensures Mended(decisions, false, truthful, base, r, r.filled, effort)
  {
    hide Net, Asked, LegsFilled, HasOrder;
    NothingClosed(r.filled, effort);
    PolledFirst(r.effort, effort, effort, []);
    RepairCloses(decisions, r.known, 0.0, r.closings, r.effort, effort);
  }

  lemma PolledFirst(a: Effort, b: Effort, c: Effort, closings: seq<Closing>)
    requires OnlyPolled(a, b) && EffortMoved(b, c, closings)
    ensures EffortMoved(a, c, closings)
  {
    assert forall id :: a.unanswered[id] <= b.unanswered[id] <= c.unanswered[id];
    forall o ensures PostsIn(a, c, o, RoundsFor(closings, o)) {
      assert PostsIn(b, c, o, RoundsFor(closings, o));
    }
  }

  lemma StillAsked(decisions: seq<OrderDecision>, fills: seq<(nat, real)>, a: Effort, b: Effort, c: Effort)
    requires Asked(decisions, fills, |decisions|, a, b) && NoLess(b, c)
    ensures Asked(decisions, fills, |decisions|, a, c)
  {
    hide Told, HasOrder;
    assert forall id :: b.unanswered[id] <= c.unanswered[id];
  }

  lemma ClosingsApart(decisions: seq<OrderDecision>, known: seq<(nat, real)>, least: real, closings: seq<Closing>)
    requires TokensDiffer(decisions) && Indexed(known, decisions) && Excesses(decisions, known, least, closings)
    ensures TokensApart(closings) && forall c | c in closings :: ClosedOut(c)
  {
  }

  lemma NothingBookedBack(decisions: seq<OrderDecision>, known: seq<(nat, real)>, least: real, closings: seq<Closing>)
    requires Excesses(decisions, known, least, closings)
    ensures Released(closings) >= 0.0
  {
    hide ClosedOut;
    NotNegative(closings);
  }

  lemma DryRunMends(decisions: seq<OrderDecision>, truthful: bool, base: Tape, tape: Tape, effort: Effort)
    ensures Mended(decisions, true, truthful, base, Repair([], [], tape, effort), tape, effort)
    ensures Released([]) == 0.0
  {
  }

  /** Every leg's excess over the smallest known fill was closed out. */
  lemma AllMended(decisions: seq<OrderDecision>, r: Repair, truthful: bool, base: Tape, tape: Tape, polled: Effort,
                  effort: Effort)
    requires |r.known| >= 2 && TokensDiffer(decisions) && Indexed(r.known, decisions) && OnlyPolled(r.effort, polled)
    requires forall i | 0 <= i < |decisions| && !HasOrder(decisions[i]) :: (i, 0.0) in r.known
    requires Asked(decisions, r.known, |decisions|, r.effort, polled)
    requires truthful ==> LegsFilled(decisions, base, r.filled) && TrueFills(decisions, r.known, base, r.filled)
    requires Excesses(decisions, r.known, Smallest(r.known), r.closings) && TapeMoved(r.filled, tape, r.closings)
    requires EffortMoved(polled, effort, r.closings) && (truthful ==> AllHonest(r.closings))
    ensures Mended(decisions, false, truthful, base, r, tape, effort)
  {
    AllEarnest(decisions, r, polled, effort);
    AllRepaired(decisions, r, truthful, tape, polled, effort);
    AllReconciled(decisions, r, truthful, base, tape);
    hide Repaired, Reconciled, Earnest;
  }

  lemma AllRepaired(decisions: seq<OrderDecision>, r: Repair, truthful: bool, tape: Tape, polled: Effort,
                    effort: Effort)
    requires |r.known| >= 2 && OnlyPolled(r.effort, polled)
    requires Excesses(decisions, r.known, Smallest(r.known), r.closings) && TapeMoved(r.filled, tape, r.closings)
    requires EffortMoved(polled, effort, r.closings) && (truthful ==> AllHonest(r.closings))
    ensures Repaired(decisions, r, truthful, tape, effort)
  {
    PolledFirst(r.effort, polled, effort, r.closings);
    RepairCloses(decisions, r.known, Smallest(r.known), r.closings, r.effort, effort);
    hide EffortMoved, TapeMoved, OnlyPolled, Excesses, AllHonest, Closes;
  }

  lemma AllReconciled(decisions: seq<OrderDecision>, r: Repair, truthful: bool, base: Tape, tape: Tape)
    requires |r.known| >= 2 && TokensDiffer(decisions) && Indexed(r.known, decisions)
    requires forall i | 0 <= i < |decisions| && !HasOrder(decisions[i]) :: (i, 0.0) in r.known
    requires truthful ==> LegsFilled(decisions, base, r.filled) && TrueFills(decisions, r.known, base, r.filled)
    requires Excesses(decisions, r.known, Smallest(r.known), r.closings) && TapeMoved(r.filled, tape, r.closings)
    requires truthful ==> AllHonest(r.closings)
    ensures Reconciled(decisions, r, truthful, base, tape)
  {
    if truthful && Complete(r.closings) {
      NowHedged(decisions, r, base, tape);
    }
    hide LegsFilled, HasOrder, TokensDiffer, TapeMoved, Complete, AllHedged, TrueFills, Excesses, AllHonest, Indexed;
  }

  lemma AllEarnest(decisions: seq<OrderDecision>, r: Repair, polled: Effort, effort: Effort)
    requires |r.known| >= 2 && TokensDiffer(decisions) && Indexed(r.known, decisions) && OnlyPolled(r.effort, polled)
    requires Asked(decisions, r.known, |decisions|, r.effort, polled)
    requires Excesses(decisions, r.known, Smallest(r.known), r.closings) && EffortMoved(polled, effort, r.closings)
    ensures Earnest(decisions, r, effort)
  {
    ClosingsApart(decisions, r.known, Smallest(r.known), r.closings);
    PolledFirst(r.effort, polled, effort, r.closings);
    assert NoLess(polled, effort);
    StillAsked(decisions, r.known, r.effort, polled, effort);
    hide Asked, HasOrder, TokensDiffer, EffortMoved, Missed, NoLess, TokensApart, OnlyPolled, Excesses, Indexed;
    if !Complete(r.closings) {
      var k :| 0 <= k < |r.closings| && !Finished(r.closings[k]);
      UnfinishedIsStrained(r.closings, r.effort, effort, r.closings[k]);
    }
  }

  lemma NowHedged(decisions: seq<OrderDecision>, r: Repair, base: Tape, tape: Tape)
    requires |r.known| >= 2 && TokensDiffer(decisions) && Indexed(r.known, decisions)
    requires TrueFills(decisions, r.known, base, r.filled) && TapeMoved(r.filled, tape, r.closings)
    requires Excesses(decisions, r.known, Smallest(r.known), r.closings)
    requires AllHonest(r.closings) && Complete(r.closings)
    ensures AllHedged(decisions, r.known, base, tape, Smallest(r.known))
  {
    ClosingsApart(decisions, r.known, Smallest(r.known), r.closings);
    hide TrueFills, TapeMoved, Excesses, AllHonest, Complete, TokensDiffer, TokensApart, Hedged, Smallest, ClosedOut;
    forall l | 0 <= l < |r.known| ensures Hedged(decisions[r.known[l].0], base, tape, Smallest(r.known)) {
      LegHedged(decisions, r, base, tape, l);
    }
  }

  lemma EqualFills(decisions: seq<OrderDecision>, known: seq<(nat, real)>, closings: seq<Closing>)
    requires known != [] && Excesses(decisions, known, Smallest(known), closings)
    requires forall f, g | f in known && g in known :: f.1 == g.1
    ensures forall c | c in closings :: c.excess == 0.0
  {
    hide ClosedOut;
    forall c | c in closings ensures c.excess == 0.0 {
      var l :| 0 <= l < |closings| && c == closings[l];
      assert known[l] in known && LegClosing(c, decisions[known[l].0].intent.value, known[l].1 - Smallest(known));
      var f :| f in known && Smallest(known) == f.1;
      assert known[l].1 == f.1;
    }
  }

  lemma AllClosedOut(decisions: seq<OrderDecision>, r: Repair, tape: Tape, effort: Effort)
    requires Repaired(decisions, r, true, tape, effort)
    ensures forall c | c in r.closings :: ClosedOut(c) && forall a | a in c.rounds :: Honest(a)
  {
    hide ClosedOut, Honest, TapeMoved, EffortMoved, Smallest;
  }

  /** With a truthful exchange a repair returns at most five times the worth of each leg's rounded
      excess, and nothing when all known fills are equal. */
  lemma RepairReleases(decisions: seq<OrderDecision>, r: Repair, tape: Tape, effort: Effort)
    requires Repaired(decisions, r, true, tape, effort)
    ensures 0.0 <= Released(r.closings) <= MostReleased(r.closings)
    ensures (forall f, g | f in r.known && g in r.known :: f.1 == g.1) ==> Released(r.closings) == 0.0
  {
    hide ClosedOut, Honest, TapeMoved, EffortMoved, MostReleased, Smallest, Released, Excesses, AllHonest;
    AllClosedOut(decisions, r, tape, effort);
    ReleasedWithin(r.closings);
    if |r.known| >= 2 && forall f, g | f in r.known && g in r.known :: f.1 == g.1 {
      EqualFills(decisions, r.known, r.closings);
    }
  }

  /** A leg whose excess was closed, with every fill told, ends at the smallest known fill. */
  lemma LegHedged(decisions: seq<OrderDecision>, r: Repair, base: Tape, tape: Tape, l: nat)
    requires l < |r.known| && Indexed(r.known, decisions) && TrueFills(decisions, r.known, base, r.filled)
    requires Excesses(decisions, r.known, Smallest(r.known), r.closings) && TokensApart(r.closings)
    requires TapeMoved(r.filled, tape, r.closings) && AllHonest(r.closings) && Complete(r.closings)
    ensures Hedged(decisions[r.known[l].0], base, tape, Smallest(r.known))
  {
    var c, intent := r.closings[l], decisions[r.known[l].0].intent.value;
    assert c in r.closings && r.known[l] in r.known;
    FinishedIsHedged(c);
    OwnMove(r.closings, l);
    hide Finished, ClosedOut, Moved, Filled, TokensApart, Smallest;
    assert Net(intent, base, tape) == r.known[l].1 - Filled(c.rounds);
  }

  /** Shares of the intent's token gained on the intent's side between two tapes. */
  function Net(intent: OrderIntent, before: Tape, after: Tape): real {
    Signed(intent.side, Lookup(after.held, intent.token) - Lookup(before.held, intent.token))
  }

  predicate HasOrder(d: OrderDecision) {
    d.status.SUBMITTED? && d.orderId.Some?
  }

  /** On this tape, each leg has gained what its order filled, or nothing without an order. */
  ghost predicate LegsFilled(decisions: seq<OrderDecision>, base: Tape, tape: Tape) {
    forall i | 0 <= i < |decisions| ::
      && decisions[i].intent.Some?
      && (HasOrder(decisions[i]) ==> decisions[i].orderId.value in tape.matched)
      && Net(decisions[i].intent.value, base, tape)
         == if HasOrder(decisions[i]) then tape.matched[decisions[i].orderId.value] else 0.0
  }

  ghost predicate TokensDiffer(decisions: seq<OrderDecision>) {
    forall i, j | 0 <= i < j < |decisions| && decisions[i].intent.Some? && decisions[j].intent.Some? ::
      decisions[i].intent.value.token != decisions[j].intent.value.token
  }

  /** Legs, in order, with the shares each has matched. */
  ghost predicate Indexed(fills: seq<(nat, real)>, decisions: seq<OrderDecision>) {
    && (forall k | 0 <= k < |fills| :: fills[k].0 < |decisions|)
    && (forall k, l | 0 <= k < l < |fills| :: fills[k].0 < fills[l].0)
  }

  function Smallest(fills: seq<(nat, real)>): (least: real)
    requires fills != []
    ensures forall f | f in fills :: least <= f.1
    ensures exists f | f in fills :: least == f.1
  {
    var last := fills[|fills| - 1];
    if |fills| == 1 then last.1
    else
      assert fills == fills[..|fills| - 1] + [last];
      Min(Smallest(fills[..|fills| - 1]), last.1)
  }

  /** The leg's net position is within a cent of a share of `target`. */
  ghost predicate Hedged(d: OrderDecision, base: Tape, tape: Tape, target: real) {
    d.intent.Some? && Abs(Net(d.intent.value, base, tape) - target) <= 0.01
  }

  lemma NothingBooked(books: Books, conditionId: string)
    ensures Booked(books, books, conditionId, -0.0)
  {
  }

  lemma RoomBelowCaps(limits: RiskLimits, books: Books, conditionId: string)
    requires LedgerOk(limits, books.market, books.total) && limits.Valid()
    ensures Lookup(books.market, conditionId) <= limits.maxPositionUsd
  {
  }

  /** What a fee-free order is worth. */
  function Worth(intent: OrderIntent): real {
    intent.price * intent.size
  }

  /** One order asked of the gate, and the tables, limits and time it meets there. */
  datatype Ask = Ask(conditionId: string, token: string, side: Side, price: real, requestedUsd: real, strategy: string)

  /** The tables, the time, what has been asked of the exchange, and what it really did. */
  datatype Snapshot = Snapshot(books: Books, now: real, effort: Effort, tape: Tape)

  datatype GateView = GateView(before: Snapshot, after: Snapshot, limits: RiskLimits, setting: Setting)

  function ExposureIn(books: Books, conditionId: string): real {
    if conditionId != "" then Lookup(books.market, conditionId) else 0.0
  }

  function KeyOf(intent: OrderIntent): Key {
    IdempotencyKey(intent.token, intent.side, intent.price, intent.size, intent.strategy)
  }

  function OrderFor(intent: OrderIntent): Order {
    Order(intent.token, intent.side, intent.price, intent.size)
  }

  /** A key is turned away if it still is a recent one at the end, and only if it was one at the
      start. An accepted one is in the table, at a time when it was none; any other leaves the table
      as it was. A failed one met the geoblock or was really posted, a live accepted one was posted, and
      nothing else was. */
  ghost predicate KeyDecided(d: OrderDecision, key: Key, order: Order, before: Snapshot, after: Snapshot, s: Setting) {
    var seen, seen', ttl := before.books.seen, after.books.seen, s.ttl;
    && (d.status.REJECTED? ==> IsDuplicate(seen, key, before.now, ttl) && after.effort.posted == before.effort.posted)
    && (IsDuplicate(seen, key, after.now, ttl) ==> d.status.REJECTED?)
    && (WasAccepted(d) ==> Admitted(seen, seen', key, before.now, after.now, ttl))
    && (!WasAccepted(d) ==> seen' == seen)
    && (d.status.FAILED? ==> after.books.geoRestricted || Posted(order, before.effort, after.effort))
    && (d.status.SUBMITTED? ==> Posted(order, before.effort, after.effort))
    && after.effort.posted[order] <= before.effort.posted[order] + MAX_RETRIES
    && (forall o | o != order :: after.effort.posted[o] == before.effort.posted[o])
    && OrderTaken(d, order, before.tape, after.tape, s.truthful)
  }

  /** What a decided order did on the exchange: its token gained at most its size on its side, nothing
      for a duplicate; a truthful exchange gave what it took an id, and filled nothing else. */
  ghost predicate OrderTaken(d: OrderDecision, order: Order, before: Tape, after: Tape, truthful: bool) {
    var gained := Signed(order.side, Lookup(after.held, order.token) - Lookup(before.held, order.token));
    && HeldChanged(before, after, order.token, Signed(order.side, gained))
    && 0.0 <= gained <= Max(0.0, order.size)
    && (d.status.REJECTED? ==> gained == 0.0)
    && (d.status.DRY_RUN? ==> after == before)
    && (truthful && d.status.SUBMITTED? ==> d.orderId.Some? && d.orderId.value in after.matched)
    && (truthful ==> gained == if HasOrder(d) then Lookup(after.matched, d.orderId.value) else 0.0)
  }

  lemma KeyDecidedEarlier(d: OrderDecision, key: Key, order: Order, start: Snapshot, before: Snapshot, after: Snapshot,
                          s: Setting)
    requires KeyDecided(d, key, order, before, after, s)
    requires start.now <= before.now && start == before.(now := start.now)
    ensures KeyDecided(d, key, order, start, after, s)
  {
    hide OrderTaken;
  }

  /** Rejected outright when the gate approves nothing; otherwise an order worth exactly what it
      approves, whose key decides the rest; once accepted the total is within the limits used. */
  ghost predicate Decided(d: OrderDecision, ask: Ask, view: GateView)
    requires view.limits.Valid()
  {
    var books := view.before.books;
    var approved :=
      CheckOrder(ask.requestedUsd, ExposureIn(books, ask.conditionId), books.total, view.limits).approvedSizeUsd;
    if approved <= 0.0 then d == REJECTION && view.after == view.before.(now := view.after.now)
    else
      && d.intent.Some?
      && var intent := d.intent.value;
      && intent == OrderIntent(ask.token, ask.conditionId, ask.side, ask.price, intent.size, ask.strategy)
      && Worth(intent) == approved
      && KeyDecided(d, KeyOf(intent), OrderFor(intent), view.before, view.after, view.setting)
      && (WasAccepted(d) ==> view.after.books.total <= view.limits.maxPortfolioExposureUsd)
  }

  /** A single-token signal is rejected when its side of the book is empty or Kelly asks for nothing at the
      best price offered, and otherwise decided by the gate at that price. */
  ghost predicate SignalDecided(d: OrderDecision, signal: Signal, conditionId: string, book: OrderBook, view: GateView)
    requires view.limits.Valid()
  {
    var offers := if signal.side.Buy? then book.asks else book.bids;
    if signal.token.None? || offers == [] then d == REJECTION && view.after == view.before
    else exists price | BestOffer(book, signal.side, price) ::
      var s := view.setting;
      var requested :=
        PositionSizeUsd(price, signal.edge, signal.side, signal.confidence, s.limits.maxPortfolioExposureUsd, s.kelly);
      if requested <= 0.0 then d == REJECTION && view.after == view.before
      else Decided(d, Ask(conditionId, signal.token.value, signal.side, price, requested, "signal"), view)
  }

  // ---- the log and the decisions -------------------------------------------------------------

  /** How many accepted decisions carry a key. */
  function AcceptedWith(decisions: seq<OrderDecision>, key: Key): nat {
    if decisions == [] then 0
    else AcceptedWith(decisions[..|decisions| - 1], key) + AcceptedAs(decisions[|decisions| - 1], key)
  }

  function AcceptedAs(d: OrderDecision, key: Key): nat {
    if WasAccepted(d) && d.intent.Some? && KeyOf(d.intent.value) == key then 1 else 0
  }

  /** The log has grown by exactly one mark for each accepted decision, made between the two times. */
  ghost predicate MarksGrew(before: seq<Mark>, after: seq<Mark>, decisions: seq<OrderDecision>, began: real,
                            ended: real) {
    && before <= after
    && MadeBetween(after[|before|..], began, ended)
    && forall k :: MarksOf(after[|before|..], k) == AcceptedWith(decisions, k)
  }

  lemma MarksGrewEarlier(before: seq<Mark>, after: seq<Mark>, decisions: seq<OrderDecision>, start: real, began: real,
                         ended: real)
    requires MarksGrew(before, after, decisions, began, ended) && start <= began
    ensures MarksGrew(before, after, decisions, start, ended)
  {
    hide MarksOf, AcceptedWith;
  }

  lemma {:induction false} NoneAcceptedWith(decisions: seq<OrderDecision>, key: Key)
    requires forall d | d in decisions :: !WasAccepted(d)
    ensures AcceptedWith(decisions, key) == 0
  {
    hide IdempotencyKey;
    if decisions != [] {
      var k := |decisions| - 1;
      assert decisions[k] in decisions && forall d | d in decisions[..k] :: d in decisions;
      NoneAcceptedWith(decisions[..k], key);
    }
  }

  lemma NothingAccepted(marks: seq<Mark>, decisions: seq<OrderDecision>, began: real, ended: real)
    requires forall d | d in decisions :: !WasAccepted(d)
    ensures MarksGrew(marks, marks, decisions, began, ended)
  {
    assert marks[|marks|..] == [];
    forall k ensures AcceptedWith(decisions, k) == 0 {
      NoneAcceptedWith(decisions, k);
    }
  }

  lemma {:induction false} AcceptedJoined(first: seq<OrderDecision>, second: seq<OrderDecision>, key: Key)
    ensures AcceptedWith(first + second, key) == AcceptedWith(first, key) + AcceptedWith(second, key)
  {
    hide AcceptedAs;
    if second == [] {
      assert first + second == first;
    } else {
      var k := |second| - 1;
      AcceptedJoined(first, second[..k], key);
      assert (first + second)[..|first| + k] == first + second[..k];
    }
  }

  lemma MarksGrewTwice(a: seq<Mark>, b: seq<Mark>, c: seq<Mark>, first: seq<OrderDecision>, second: seq<OrderDecision>,
                       start: real, mid: real, end: real)
    requires MarksGrew(a, b, first, start, mid) && MarksGrew(b, c, second, mid, end) && start <= mid <= end
    ensures MarksGrew(a, c, first + second, start, end)
  {
    var x, y := b[|a|..], c[|b|..];
    assert c[|a|..] == x + y;
    MarksJoined(map[], x, y);
    forall k ensures MarksOf(c[|a|..], k) == AcceptedWith(first + second, k) {
      AcceptedJoined(first, second, k);
    }
    hide MarksOf, AcceptedWith;
  }

  lemma LatchedTwice(dryRun: bool, a: Snapshot, b: Snapshot, c: Snapshot)
    requires Latched(dryRun, a.books.geoRestricted, b.books.geoRestricted, a.effort, b.effort)
    requires Latched(dryRun, b.books.geoRestricted, c.books.geoRestricted, b.effort, c.effort)
    ensures Latched(dryRun, a.books.geoRestricted, c.books.geoRestricted, a.effort, c.effort)
  {
  }

  /** Each leg decided as its stage says: recorded exactly if accepted. */
  ghost predicate SentAs(basket: Basket, stages: seq<Stage>, decisions: seq<OrderDecision>) {
    && |stages| == |decisions| == |basket.tasks|
    && forall i | 0 <= i < |stages| ::
         && stages[i].Done? && decisions[i].intent.Some? && KeyOf(decisions[i].intent.value) == basket.tasks[i].key
         && (WasAccepted(decisions[i]) <==> WasSent(stages[i]))
  }

  lemma {:induction false} LegsMarked(basket: Basket, stages: seq<Stage>, decisions: seq<OrderDecision>, n: nat,
                                      key: Key)
    requires SentAs(basket, stages, decisions) && n <= |stages|
    ensures RecordedLegs(basket, stages[..n], key) == AcceptedWith(decisions[..n], key)
  {
    hide IdempotencyKey;
    if n > 0 {
      LegsMarked(basket, stages, decisions, n - 1, key);
      assert stages[..n][..n - 1] == stages[..n - 1] && decisions[..n][..n - 1] == decisions[..n - 1];
    }
  }

  lemma DecidedSentAs(basket: Basket, decisions: seq<OrderDecision>, conditionId: string, legs: seq<Leg>, size: real,
                      strategy: string, dryRun: bool, stages: seq<Stage>)
    requires DecidedAs(decisions, conditionId, legs, size, strategy, dryRun, stages) && |basket.tasks| == |legs|
    requires forall i | 0 <= i < |legs| ::
      basket.tasks[i].key == IdempotencyKey(legs[i].token, legs[i].side, legs[i].price, size, strategy)
    ensures SentAs(basket, stages, decisions)
  {
    hide IdempotencyKey;
  }

  /** The legs' marks, added to the log, are the accepted decisions', and the table follows the log. */
  lemma LogGrew(basket: Basket, marks: seq<Mark>, began: real, pool: Pool, decisions: seq<OrderDecision>,
                conditionId: string, legs: seq<Leg>, size: real, strategy: string, dryRun: bool)
    requires Logged(basket, WithMarks(map[], marks), began, pool) && |basket.tasks| == |legs|
    requires DecidedAs(decisions, conditionId, legs, size, strategy, dryRun, pool.stages)
    requires forall i | 0 <= i < |legs| ::
      basket.tasks[i].key == IdempotencyKey(legs[i].token, legs[i].side, legs[i].price, size, strategy)
    ensures MarksGrew(marks, marks + pool.marks, decisions, began, pool.now)
    ensures pool.books.seen == WithMarks(map[], marks + pool.marks)
  {
    DecidedSentAs(basket, decisions, conditionId, legs, size, strategy, dryRun, pool.stages);
    MarksJoined(map[], marks, pool.marks);
    hide IdempotencyKey, SentAs, DecidedAs, MarksOf, AcceptedWith, RecordedLegs, WithMarks;
    assert (marks + pool.marks)[|marks|..] == pool.marks;
    var n := |pool.stages|;
    assert pool.stages[..n] == pool.stages && decisions[..|decisions|] == decisions;
    forall k ensures MarksOf(pool.marks, k) == AcceptedWith(decisions, k) {
      SameLength(basket, pool.stages, decisions);
      LegsMarked(basket, pool.stages, decisions, n, k);
    }
  }

  lemma SameLength(basket: Basket, stages: seq<Stage>, decisions: seq<OrderDecision>)
    requires SentAs(basket, stages, decisions)
    ensures |stages| == |decisions|
  {
  }

  /** What submitting the legs did: to the tables, to the table of keys, on the exchange, and why legs
      failed. */
  ghost predicate Dispatched(basket: Basket, stages: seq<Stage>, before: Snapshot, after: Snapshot, truthful: bool) {
    && Submitted(basket, before.books, before.now, after.books, stages)
    && KeysKept(basket, before.books.seen, before.now, after.books.seen, after.now, stages)
    && GainsWithin(basket, stages, before.tape, after.tape)
    && (basket.dryRun ==> after.tape == before.tape)
    && (truthful ==> Traced(basket, stages, before.tape, after.tape))
    && (truthful && !basket.dryRun ==> IdsGiven(stages))
    && PostsAccounted(basket, stages, after.books.geoRestricted, before.effort, after.effort)
    && Latched(basket.dryRun, before.books.geoRestricted, after.books.geoRestricted, before.effort, after.effort)
  }

  /** How a basket's submission treated its legs: their keys, their gains, their posts, the causes of
      failures and the latch; the repair that follows only adds to what was asked of the exchange. */
  ghost predicate LegsSent(basket: Basket, stages: seq<Stage>, before: Snapshot, after: Snapshot, outcome: Repair) {
    && KeysKept(basket, before.books.seen, before.now, after.books.seen, after.now, stages)
    && GainsWithin(basket, stages, before.tape, outcome.filled)
    && PostsAccounted(basket, stages, after.books.geoRestricted, before.effort, outcome.effort)
    && Latched(basket.dryRun, before.books.geoRestricted, after.books.geoRestricted, before.effort, outcome.effort)
    && NoLess(before.effort, outcome.effort) && NoLess(outcome.effort, after.effort)
  }

  lemma SentThenMended(basket: Basket, stages: seq<Stage>, before: Snapshot, mid: Snapshot, after: Snapshot,
                       truthful: bool, outcome: Repair)
    requires Dispatched(basket, stages, before, mid, truthful)
    requires outcome.effort == mid.effort && outcome.filled == mid.tape
    requires after.books.seen == mid.books.seen && after.books.geoRestricted == mid.books.geoRestricted
    requires after.now == mid.now && NoLess(outcome.effort, after.effort)
    ensures LegsSent(basket, stages, before, after, outcome)
  {
    hide Submitted, KeysKept, GainsWithin, Traced, IdsGiven, PostsAccounted;
  }

  /** What a submission tells those who submit a basket whole. */
  lemma DispatchedFacts(basket: Basket, stages: seq<Stage>, before: Snapshot, after: Snapshot, truthful: bool)
    requires Dispatched(basket, stages, before, after, truthful)
    ensures Submitted(basket, before.books, before.now, after.books, stages) && |stages| == |basket.tasks|
    ensures basket.dryRun ==> after.effort == before.effort && after.tape == before.tape
    ensures truthful ==> Traced(basket, stages, before.tape, after.tape)
    ensures truthful && !basket.dryRun ==> IdsGiven(stages)
  {
    hide KeysKept, GainsWithin, Traced, IdsGiven, PostsAccounted;
  }

  lemma LegsSentEarlier(basket: Basket, stages: seq<Stage>, start: Snapshot, before: Snapshot, after: Snapshot,
                        outcome: Repair)
    requires LegsSent(basket, stages, before, after, outcome)
    requires start.now <= before.now && start == before.(now := start.now)
    ensures LegsSent(basket, stages, start, after, outcome)
  {
    hide Foreign, GainsWithin, PostsAccounted, Latched;
    forall i | 0 <= i < |stages|
      ensures LegKept(basket, basket.tasks[i].key, start.books.seen, start.now, after.books.seen, after.now,
                      stages[i]) {
      assert LegKept(basket, basket.tasks[i].key, before.books.seen, before.now, after.books.seen, after.now,
                     stages[i]);
    }
  }

  /** A signal for a token that Kelly sizes at the best price offered. */
  ghost predicate Asks(signal: Signal, book: OrderBook, s: Setting) {
    signal.token.Some? && exists price | BestOffer(book, signal.side, price) ::
      PositionSizeUsd(price, signal.edge, signal.side, signal.confidence, s.limits.maxPortfolioExposureUsd, s.kelly)
      > 0.0
  }

  lemma BestOfferIsOne(book: OrderBook, side: Side, x: real, y: real)
    requires BestOffer(book, side, x) && BestOffer(book, side, y)
    ensures x == y
  {
  }

  /** The exposure an accepted fee-free order books. */
  function AmountAccepted(d: OrderDecision): real {
    if WasAccepted(d) && d.intent.Some? then Worth(d.intent.value) else 0.0
  }

  lemma RejectedIsNothing()
    ensures forall d | !WasAccepted(d) :: AmountAccepted(d) == 0.0
  {
  }

  const MULTI_LEG := "signal_multi_leg"

  /** The cost of one complete set with its fees. */
  function CostPerSet(signal: Signal): real {
    Sum(Prices(signal.legs)) + signal.feeCost
  }

  /** The uniform rate at which the legs are booked. */
  function RecoveredFeeRate(signal: Signal): real {
    if Sum(Prices(signal.legs)) == 0.0 then 0.0 else CostPerSet(signal) / Sum(Prices(signal.legs)) - 1.0
  }

  /** As many sets as the approved amount pays for, but no more than the book shows. */
  ghost predicate SetsAllowed(signal: Signal, sets: real, approved: real) {
    && CostPerSet(signal) > 0.0
    && sets == (if signal.maxShares.Some? then Min(approved / CostPerSet(signal), signal.maxShares.value)
                else approved / CostPerSet(signal))
  }

  /** Nothing to buy or sell: no legs, worthless ones, no room in the gate, or no size on the book. */
  ghost predicate Unsized(signal: Signal, approved: real) {
    || signal.legs == [] || Sum(Prices(signal.legs)) <= 0.0 || approved <= 0.0
    || exists n :: SetsAllowed(signal, n, approved) && n <= 0.0
  }

  /** At the size allowed, some leg repeats a recent submission. */
  ghost predicate Repeats(signal: Signal, approved: real, conditionId: string, dryRun: bool, ttl: real, books: Books,
                          now: real) {
    exists n :: SetsAllowed(signal, n, approved) &&
      !NoDuplicates(BasketOf(conditionId, dryRun, ttl, signal.legs, n, MULTI_LEG, RecoveredFeeRate(signal)), books, now)
  }

  /** What is a duplicate later was one before. */
  lemma StillRepeats(basket: Basket, books: Books, before: real, now: real)
    requires before <= now && !NoDuplicates(basket, books, now)
    ensures !NoDuplicates(basket, books, before)
  {
    var i :| 0 <= i < |basket.tasks| && IsDuplicate(books.seen, basket.tasks[i].key, now, basket.ttl);
    assert IsDuplicate(books.seen, basket.tasks[i].key, before, basket.ttl);
  }

  /** One leg per token, at non-negative prices and fees. */
  ghost predicate WellFormed(signal: Signal) {
    DistinctTokens(signal.legs) && signal.feeCost >= 0.0 && forall l | l in signal.legs :: l.price >= 0.0
  }

  /** What `sets` complete sets cost with their fees. */
  function BasketCost(signal: Signal, sets: real): real {
    sets * CostPerSet(signal)
  }

  lemma SetsWithinApproval(signal: Signal, sets: real, approved: real)
    requires SetsAllowed(signal, sets, approved)
    ensures BasketCost(signal, sets) <= approved
  {
    var cost := CostPerSet(signal);
    hide CostPerSet;
    assert approved / cost * cost == approved;
    MulMonotone(sets, approved / cost, cost);
  }

  /** Every leg's notional is non-negative, and together they are the sets' whole cost. */
  ghost predicate Budgeted(basket: Basket, signal: Signal, sets: real, feeRate: real) {
    && |basket.tasks| == |signal.legs|
    && (forall l | l in signal.legs :: Notional(l.price, sets, feeRate) >= 0.0)
    && Sum(Notionals(basket)) == BasketCost(signal, sets)
    && (forall i | 0 <= i < |signal.legs| ::
          basket.tasks[i].key == IdempotencyKey(signal.legs[i].token, signal.legs[i].side, signal.legs[i].price, sets,
                                                MULTI_LEG))
  }

  /** Booking every leg at the recovered rate books exactly the sets' whole cost. */
  lemma BasketBudget(conditionId: string, dryRun: bool, ttl: real, signal: Signal, sets: real, feeRate: real)
    requires WellFormed(signal) && sets > 0.0 && Sum(Prices(signal.legs)) > 0.0
    requires feeRate == RecoveredFeeRate(signal)
    ensures Budgeted(BasketOf(conditionId, dryRun, ttl, signal.legs, sets, MULTI_LEG, feeRate), signal, sets, feeRate)
  {
    hide Notional, Round, IdempotencyKey, BasketOf, Sum, Prices, Notionals;
    var total, cost := Sum(Prices(signal.legs)), CostPerSet(signal);
    QuotientAtLeastOne(cost, total);
    assert feeRate == cost / total - 1.0;
    RecoveredRate(total, cost, sets);
    forall l | l in signal.legs ensures Notional(l.price, sets, feeRate) >= 0.0 {
      NotionalNonNegative(l.price, sets, feeRate);
    }
    BasketFacts(conditionId, dryRun, ttl, signal.legs, sets, MULTI_LEG, feeRate);
    SumNotionals(BasketOf(conditionId, dryRun, ttl, signal.legs, sets, MULTI_LEG, feeRate), signal.legs, sets, feeRate);
  }

  /** The accepted legs' notionals are booked, less what the repair released. */
  ghost predicate BookedAs(basket: Basket, stages: seq<Stage>, all: real, released: real, before: Books, after: Books) {
    && |stages| == |basket.tasks|
    && released >= 0.0 && 0.0 <= SumSent(basket, stages) <= all
    && Booked(before, after, basket.conditionId, SumSent(basket, stages) - released)
  }

  lemma SumSentRoom(basket: Basket, stages: seq<Stage>, all: real, released: real, before: Books, after: Books)
    requires BookedAs(basket, stages, all, released, before, after)
    ensures after.total <= before.total + all
  {
  }

  lemma SubmittedThenReleased(basket: Basket, before: Books, began: real, mid: Books, after: Books,
                              stages: seq<Stage>, all: real, released: real)
    requires Submitted(basket, before, began, mid, stages) && Sum(Notionals(basket)) == all
    requires released >= 0.0 && Booked(mid, after, basket.conditionId, -released)
    ensures BookedAs(basket, stages, all, released, before, after)
  {
    BookedTwice(before, mid, after, basket.conditionId, SumSent(basket, stages), -released);
  }

  lemma DecisionsDiffer(decisions: seq<OrderDecision>, conditionId: string, legs: seq<Leg>, size: real,
                        strategy: string, dryRun: bool, stages: seq<Stage>)
    requires DecidedAs(decisions, conditionId, legs, size, strategy, dryRun, stages) && DistinctTokens(legs)
    ensures TokensDiffer(decisions) && forall d | d in decisions :: d.intent.Some?
  {
  }

  lemma AllAccepted(basket: Basket, before: Books, began: real, after: Books, decisions: seq<OrderDecision>,
                    conditionId: string, legs: seq<Leg>, size: real, strategy: string, stages: seq<Stage>)
    requires DecidedAs(decisions, conditionId, legs, size, strategy, true, stages)
    requires Submitted(basket, before, began, after, stages)
    requires basket.dryRun && NoDuplicates(basket, before, began)
    ensures forall d | d in decisions :: d.status.DRY_RUN?
    ensures Booked(before, after, basket.conditionId, Sum(Notionals(basket)))
  {
    hide Booked;
  }

  /** Right after the submission, each leg's token has gained what its order filled. */
  lemma LegsFilledBy(decisions: seq<OrderDecision>, conditionId: string, legs: seq<Leg>, size: real, strategy: string,
                     ttl: real, feeRate: real, stages: seq<Stage>, base: Tape, tape: Tape)
    requires DistinctTokens(legs) && forall l | l in legs :: Notional(l.price, size, feeRate) >= 0.0
    requires DecidedAs(decisions, conditionId, legs, size, strategy, false, stages)
    requires Traced(BasketOf(conditionId, false, ttl, legs, size, strategy, feeRate), stages, base, tape)
    requires IdsGiven(stages)
    ensures LegsFilled(decisions, base, tape)
  {
    BasketFacts(conditionId, false, ttl, legs, size, strategy, feeRate);
    var basket := BasketOf(conditionId, false, ttl, legs, size, strategy, feeRate);
    hide BasketOf, Notional;
    forall i | 0 <= i < |decisions|
      ensures decisions[i].intent.Some?
      ensures HasOrder(decisions[i]) ==> decisions[i].orderId.value in tape.matched
      ensures Net(decisions[i].intent.value, base, tape)
           == if HasOrder(decisions[i]) then tape.matched[decisions[i].orderId.value] else 0.0 {
      assert LegHeld(basket.tasks[i], stages[i], base, tape);
      assert OnTape(stages[i], basket.tasks[i].size, tape);
      assert Identified(stages[i]);
    }
  }

  ghost function SumAccepted(decisions: seq<OrderDecision>): real {
    if decisions == [] then 0.0
    else SumAccepted(decisions[..|decisions| - 1]) + AmountAccepted(decisions[|decisions| - 1])
  }

  lemma SumOfAccepted(decisions: seq<OrderDecision>, d: OrderDecision)
    ensures SumAccepted(decisions + [d]) == SumAccepted(decisions) + AmountAccepted(d)
  {
    hide Worth;
    assert (decisions + [d])[..|decisions|] == decisions;
  }

  lemma NoneAccepted()
    ensures SumAccepted([]) == 0.0
  {
  }

  function QuoteAsk(conditionId: string, token: string, side: Side, quote: Quote): Ask {
    Ask(conditionId, token, side, quote.price, Requested(quote), "market_making")
  }

  /** Each quoted side is decided by the gate, the ask on what the bid leaves behind. */
  ghost predicate QuotesDecided(decisions: seq<OrderDecision>, pair: QuotePair, conditionId: string,
                                limits: seq<RiskLimits>, before: Snapshot, mid: Snapshot, after: Snapshot,
                                s: Setting) {
    && |limits| == |decisions| == (if pair.bid.Some? then 1 else 0) + (if pair.ask.Some? then 1 else 0)
    && (forall l | l in limits :: l.Valid())
    && before.now <= mid.now <= after.now
    && Latched(s.dryRun, before.books.geoRestricted, mid.books.geoRestricted, before.effort, mid.effort)
    && Latched(s.dryRun, mid.books.geoRestricted, after.books.geoRestricted, mid.effort, after.effort)
    && (if pair.bid.Some? then
          && Decided(decisions[0], QuoteAsk(conditionId, pair.token, Buy, pair.bid.value),
                     GateView(before, mid, limits[0], s))
          && Booked(before.books, mid.books, conditionId, AmountAccepted(decisions[0]))
        else mid == before)
    && (if pair.ask.Some? then
          Decided(decisions[|decisions| - 1], QuoteAsk(conditionId, pair.token, Sell, pair.ask.value),
                  GateView(mid, after, limits[|limits| - 1], s))
        else after == mid)
  }

  /** Each quoted side with the limits to use at its turn. */
  ghost predicate QuotesLimited(limits: seq<RiskLimits>, pair: QuotePair, s: Setting, before: Purse, mid: Purse,
                                after: Purse, began: real, midway: real, ended: real)
    requires s.limits.Valid()
  {
    && |limits| == (if pair.bid.Some? then 1 else 0) + (if pair.ask.Some? then 1 else 0)
    && (if pair.bid.Some? then LimitsFor(limits[0], s, before, mid, began, midway) else mid == before)
    && (if pair.ask.Some? then LimitsFor(limits[|limits| - 1], s, mid, after, midway, ended) else after == mid)
  }

  function Requested(quote: Quote): real {
    quote.price * quote.size
  }

  /** A quoted side is ordered at no more than its size, and at exactly that size when its worth fits under
      every cap. */
  lemma QuotedSize(d: OrderDecision, conditionId: string, token: string, side: Side, quote: Quote, view: GateView)
    requires view.limits.Valid() && quote.size > 0.0
    requires Decided(d, QuoteAsk(conditionId, token, side, quote), view)
    ensures d.intent.Some? ==> d.intent.value.price == quote.price && 0.0 < d.intent.value.size <= quote.size
    ensures var usd, books := quote.price * quote.size, view.before.books;
      usd > 0.0 && Fits(usd, usd, ExposureIn(books, conditionId), books.total, view.limits) ==>
        d.intent.Some? && d.intent.value.size == quote.size
  {
    hide KeyDecided, ExposureIn, KeyOf, CheckOrder, Fits;
    var usd, books := quote.price * quote.size, view.before.books;
    assert usd == Requested(quote);
    AllThatFits(usd, ExposureIn(books, conditionId), books.total, view.limits);
    if d.intent.Some? {
      var intent := d.intent.value;
      assert intent.price == quote.price;
      SizeOfWorth(quote.price, intent.size, quote.size, Worth(intent), Requested(quote));
    }
  }

  lemma AllThatFits(usd: real, marketExposure: real, totalExposure: real, limits: RiskLimits)
    requires limits.Valid()
    ensures var approved := CheckOrder(usd, marketExposure, totalExposure, limits).approvedSizeUsd;
      && (usd > 0.0 && Fits(usd, usd, marketExposure, totalExposure, limits) ==> approved == usd)
      && (approved > 0.0 ==> approved <= usd)
  {
  }

  lemma SizeOfWorth(price: real, size: real, most: real, part: real, whole: real)
    requires part == price * size && whole == price * most && most > 0.0 && 0.0 < part <= whole
    ensures 0.0 < size <= most
    ensures part == whole ==> size == most
  {
    QuotientIs(whole, most, price);
    QuotientSign(whole, most);
    QuotientIs(whole, price, most);
    QuotientIs(part, price, size);
    QuotientSign(part, price);
    QuotientMonotone(part, whole, price);
  }

  lemma QuotedPrice(quote: Quote)
    ensures Requested(quote) > 0.0 ==> quote.price != 0.0
  {
  }

  /** One side of a quote: rejected outright, or an order at the quoted price worth at most
      what was quoted; in a dry run it is accepted or a duplicate. */
  ghost predicate QuoteDecision(d: OrderDecision, token: string, side: Side, quote: Quote, dryRun: bool) {
    && (d.intent.None? ==> d == REJECTION)
    && (d.intent.Some? ==>
          var intent := d.intent.value;
          && intent.token == token && intent.side == side && intent.price == quote.price
          && 0.0 < Worth(intent) <= Requested(quote))
    && (dryRun ==> d.status.DRY_RUN? || d.status.REJECTED?)
  }

  /** One decision for each side that is quoted. */
  ghost predicate QuoteDecisions(decisions: seq<OrderDecision>, pair: QuotePair, dryRun: bool) {
    && |decisions| == (if pair.bid.Some? then 1 else 0) + (if pair.ask.Some? then 1 else 0)
    && (pair.bid.Some? ==> QuoteDecision(decisions[0], pair.token, Buy, pair.bid.value, dryRun))
    && (pair.ask.Some? ==> QuoteDecision(decisions[|decisions| - 1], pair.token, Sell, pair.ask.value, dryRun))
  }

  lemma SizedToWorth(intent: OrderIntent, amount: real)
    requires intent.price != 0.0 && intent.size == amount / intent.price
    ensures Worth(intent) == amount
  {
  }

  /** A positive amount at a positive price is a positive size. */
  lemma PositiveSize(intent: OrderIntent)
    requires Worth(intent) > 0.0 && intent.price > 0.0
    ensures intent.size > 0.0
  {
    assert intent.size == Worth(intent) / intent.price;
    QuotientSign(Worth(intent), intent.price);
  }

  lemma OnlyInsidePrices(price: real, signal: Signal, bankroll: real, params: KellyParams)
    requires PositionSizeUsd(price, signal.edge, signal.side, signal.confidence, bankroll, params) > 0.0
    ensures price > 0.0
  {
  }

  lemma OneLegNotional(conditionId: string, dryRun: bool, ttl: real, leg: Leg, size: real, strategy: string,
                       amount: real)
    requires Worth(IntentOf(conditionId, leg, size, strategy)) == amount
    ensures Notional(leg.price, size, 0.0) == amount
    ensures var basket := BasketOf(conditionId, dryRun, ttl, [leg], size, strategy, 0.0);
      && |basket.tasks| == 1 && basket.conditionId == conditionId && basket.dryRun == dryRun
      && basket.tasks[0].notional == amount
      && basket.tasks[0].key == IdempotencyKey(leg.token, leg.side, leg.price, size, strategy)
      && OrderOf(basket.tasks[0]) == Order(leg.token, leg.side, leg.price, size)
      && Sum(Notionals(basket)) == amount
  {
    hide Round;
    var basket := BasketOf(conditionId, dryRun, ttl, [leg], size, strategy, 0.0);
    var all := Notionals(basket);
    assert basket.tasks[0] == TaskOf(leg, size, strategy, 0.0);
    assert all[..0] == [] && |all| == 1 && all[0] == amount;
    assert Sum(all) == Sum(all[..0]) + all[0];
  }

  lemma OneLegOutcome(basket: Basket, before: Snapshot, after: Snapshot, stages: seq<Stage>, amount: real, s: Setting)
    requires Dispatched(basket, stages, before, after, s.truthful)
    requires |basket.tasks| == 1 && basket.tasks[0].notional == amount
    requires basket.ttl == s.ttl && basket.dryRun == s.dryRun
    ensures |stages| == 1 && stages[0].Done?
    ensures Booked(before.books, after.books, basket.conditionId, if WasSent(stages[0]) then amount else 0.0)
    ensures forall d: OrderDecision | StatusOf(d, stages[0], s.dryRun) ::
      KeyDecided(d, basket.tasks[0].key, OrderOf(basket.tasks[0]), before, after, s)
    ensures basket.dryRun ==> stages[0] != Done(Refused)
    ensures Latched(basket.dryRun, before.books.geoRestricted, after.books.geoRestricted, before.effort, after.effort)
  {
    OneLegPosts(basket, before, after, stages);
    OneLegSeen(basket, before, after, stages);
    assert stages[..0] == [];
    assert SumSent(basket, stages) == SumSent(basket, stages[..0]) + if WasSent(stages[0]) then amount else 0.0;
    hide PostsAccounted, KeysKept, LegKept, PostsWithin, IsDuplicate, SumSent, Sum, Notionals;
    forall d: OrderDecision | StatusOf(d, stages[0], s.dryRun)
      ensures OrderTaken(d, OrderOf(basket.tasks[0]), before.tape, after.tape, s.truthful) {
      OneLegTaken(basket, before, after, stages, d, s);
    }
    hide OrderTaken, OrderOf, GainsWithin, Traced, IdsGiven, Latched;
  }

  lemma OneLegTaken(basket: Basket, before: Snapshot, after: Snapshot, stages: seq<Stage>, d: OrderDecision, s: Setting)
    requires |basket.tasks| == |stages| == 1 && basket.dryRun == s.dryRun && StatusOf(d, stages[0], s.dryRun)
    requires GainsWithin(basket, stages, before.tape, after.tape) && (s.dryRun ==> after.tape == before.tape)
    requires s.truthful ==> Traced(basket, stages, before.tape, after.tape)
    requires s.truthful && !s.dryRun ==> IdsGiven(stages)
    ensures OrderTaken(d, OrderOf(basket.tasks[0]), before.tape, after.tape, s.truthful)
  {
    var task, stage := basket.tasks[0], stages[0];
    assert TokensDistinct(basket) && GainWithin(task, stage, before.tape, after.tape);
    forall t | t != task.key.token ensures Lookup(after.tape.held, t) == Lookup(before.tape.held, t) {
      assert Elsewhere(basket, t);
    }
    if s.truthful {
      assert LegHeld(task, stage, before.tape, after.tape) && OnTape(stage, task.size, after.tape);
      if !s.dryRun {
        assert Identified(stage);
      }
    }
  }

  lemma OneLegPosts(basket: Basket, before: Snapshot, after: Snapshot, stages: seq<Stage>)
    requires |basket.tasks| == |stages| == 1 && stages[0].Done?
    requires PostsAccounted(basket, stages, after.books.geoRestricted, before.effort, after.effort)
    ensures var order := OrderOf(basket.tasks[0]);
      && (forall o | o != order :: after.effort.posted[o] == before.effort.posted[o])
      && before.effort.posted[order] <= after.effort.posted[order] <= before.effort.posted[order] + MAX_RETRIES
      && (stages[0] == Done(Duplicate) ==> after.effort.posted == before.effort.posted)
      && (stages[0] == Done(Refused) ==> after.books.geoRestricted || Posted(order, before.effort, after.effort))
      && (WasSent(stages[0]) && !basket.dryRun ==> Posted(order, before.effort, after.effort))
  {
    var order := OrderOf(basket.tasks[0]);
    assert PostsWithin(basket.tasks[0], stages[0], before.effort, after.effort);
    hide OrderOf;
    assert forall o | o != order :: NotOrdered(basket, o);
    assert stages[0] == Done(Duplicate) ==> forall o :: after.effort.posted[o] == before.effort.posted[o];
  }

  lemma OneLegSeen(basket: Basket, before: Snapshot, after: Snapshot, stages: seq<Stage>)
    requires |basket.tasks| == 1
    requires KeysKept(basket, before.books.seen, before.now, after.books.seen, after.now, stages)
    ensures LegKept(basket, basket.tasks[0].key, before.books.seen, before.now, after.books.seen, after.now, stages[0])
    ensures stages[0].Done? && !WasSent(stages[0]) ==> after.books.seen == before.books.seen
  {
    var key := basket.tasks[0].key;
    assert LegKept(basket, key, before.books.seen, before.now, after.books.seen, after.now, stages[0]);
    if stages[0].Done? && !WasSent(stages[0]) {
      forall k ensures (k in after.books.seen <==> k in before.books.seen)
        && (k in after.books.seen ==> after.books.seen[k] == before.books.seen[k]) {
        assert k != key ==> Foreign(basket, k);
        assert Agree(after.books.seen, before.books.seen, k);
      }
    }
  }

  /** A decision's status tells the stage its leg ended in. */
  predicate StatusOf(d: OrderDecision, stage: Stage, dryRun: bool) {
    && stage.Done?
    && (d.status.REJECTED? <==> stage == Done(Duplicate))
    && (WasAccepted(d) ==> stage == Done(Sent(d.orderId)))
    && (d.status.FAILED? <==> stage == Done(Refused))
    && (d.status.DRY_RUN? ==> dryRun) && (d.status.SUBMITTED? ==> !dryRun)
  }

  method RunLegs(limits: RiskLimits, basket: Basket, legs: seq<Leg>, size: real, strategy: string, feeRate: real,
                 books: Books, now: real, frozen: bool, exchange: Exchange, ghost history: seq<Mark>)
    returns (pool: Pool, decisions: seq<OrderDecision>)
    requires limits.Valid() && LedgerOk(limits, books.market, books.total) && DistinctTokens(legs)
    requires basket == BasketOf(basket.conditionId, basket.dryRun, basket.ttl, legs, size, strategy, feeRate)
    requires forall l | l in legs :: Notional(l.price, size, feeRate) >= 0.0
    requires books.seen == WithMarks(map[], history)
    requires Spaced(history, basket.ttl) && Recorded(history, books.seen, now)
    requires basket.conditionId != "" ==>
      && Lookup(books.market, basket.conditionId) + Sum(Notionals(basket)) <= limits.maxPositionUsd
      && books.total + Sum(Notionals(basket)) <= limits.maxPortfolioExposureUsd
    modifies exchange
    ensures DecidedAs(decisions, basket.conditionId, legs, size, strategy, basket.dryRun, pool.stages)
    ensures Dispatched(basket, pool.stages, Snapshot(books, now, old(exchange.effort), old(exchange.tape)),
                       Snapshot(pool.books, pool.now, exchange.effort, exchange.tape), exchange.truthful)
    ensures MarksGrew(history, history + pool.marks, decisions, now, pool.now)
    ensures pool.books.seen == WithMarks(map[], history + pool.marks)
    ensures LedgerOk(limits, pool.books.market, pool.books.total)
    ensures Spaced(history + pool.marks, basket.ttl) && Recorded(history + pool.marks, pool.books.seen, pool.now)
    ensures pool.now >= now && (frozen ==> pool.now == now)
  {
    BasketFacts(basket.conditionId, basket.dryRun, basket.ttl, legs, size, strategy, feeRate);
    hide BasketOf, Dispatched, Logged, Decisions, DecidedAs, IdempotencyKey, LedgerOk, Spaced, Recorded, WithMarks;
    hide MarksGrew;
    hide KeysDistinct, TokensDistinct, DistinctTokens, Notional, Notionals, Sum;
    pool := RunBasket(limits, basket, books, now, frozen, exchange, history);
    decisions := Decisions(basket.conditionId, basket.dryRun, legs, size, strategy, pool.stages);
    LogGrew(basket, history, now, pool, decisions, basket.conditionId, legs, size, strategy, basket.dryRun);
  }

  method RunBasket(limits: RiskLimits, basket: Basket, books: Books, now: real, frozen: bool, exchange: Exchange,
                 ghost history: seq<Mark>)
    returns (pool: Pool)
    requires limits.Valid() && LedgerOk(limits, books.market, books.total)
    requires Spaced(history, basket.ttl) && Recorded(history, books.seen, now)
    requires KeysDistinct(basket) && forall t | t in basket.tasks :: t.notional >= 0.0
    requires basket.conditionId != "" ==>
      && Lookup(books.market, basket.conditionId) + Sum(Notionals(basket)) <= limits.maxPositionUsd
      && books.total + Sum(Notionals(basket)) <= limits.maxPortfolioExposureUsd
    modifies exchange
    ensures |pool.stages| == |basket.tasks| && AllDone(pool)
    ensures Dispatched(basket, pool.stages, Snapshot(books, now, old(exchange.effort), old(exchange.tape)),
                       Snapshot(pool.books, pool.now, exchange.effort, exchange.tape), exchange.truthful)
    ensures Logged(basket, books.seen, now, pool)
    ensures LedgerOk(limits, pool.books.market, pool.books.total)
    ensures Spaced(history + pool.marks, basket.ttl) && Recorded(history + pool.marks, pool.books.seen, pool.now)
    ensures pool.now >= now && (frozen ==> pool.now == now)
  {
    hide Logged, Latched, GainsWithin, LedgerOk, Traced, PostsAccounted, IdsGiven, LegalRun, RunPicks, Spaced;
    hide Recorded, KeysDistinct, KeysKept, Booked;
    ghost var picks;
    pool, picks := RunPool(basket, books, now, frozen, exchange);
    RunSubmits(basket, books, now, history, picks);
    BookedKeepsLedger(limits, books, pool.books, basket.conditionId, SumSent(basket, pool.stages));
  }

  function Decisions(conditionId: string, dryRun: bool, legs: seq<Leg>, size: real, strategy: string,
                     stages: seq<Stage>): (decisions: seq<OrderDecision>)
    requires |stages| == |legs| && forall i | 0 <= i < |stages| :: stages[i].Done?
    ensures DecidedAs(decisions, conditionId, legs, size, strategy, dryRun, stages)
  {
    seq(|legs|, i requires 0 <= i < |legs| =>
      DecisionOf(dryRun, IntentOf(conditionId, legs[i], size, strategy), stages[i].result))
  }

  lemma BasketFacts(conditionId: string, dryRun: bool, ttl: real, legs: seq<Leg>, size: real, strategy: string,
                    feeRate: real)
    requires DistinctTokens(legs)
    requires forall l | l in legs :: Notional(l.price, size, feeRate) >= 0.0
    ensures var basket := BasketOf(conditionId, dryRun, ttl, legs, size, strategy, feeRate);
      && KeysDistinct(basket) && TokensDistinct(basket) && |basket.tasks| == |legs|
      && basket.conditionId == conditionId && basket.dryRun == dryRun && basket.ttl == ttl
      && (forall i | 0 <= i < |legs| ::
            && basket.tasks[i].key == IdempotencyKey(legs[i].token, legs[i].side, legs[i].price, size, strategy)
            && basket.tasks[i].size == size
            && basket.tasks[i].notional == Notional(legs[i].price, size, feeRate))
      && (forall t | t in basket.tasks :: t.notional >= 0.0)
  {
    hide Notional, Round;
    var basket := BasketOf(conditionId, dryRun, ttl, legs, size, strategy, feeRate);
    forall t | t in basket.tasks ensures t.notional >= 0.0 {
      var i :| 0 <= i < |legs| && t == basket.tasks[i];
      assert legs[i] in legs;
    }
  }
}
