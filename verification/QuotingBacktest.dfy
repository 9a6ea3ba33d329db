/** Replaying books through the market-making strategy: a resting quote fills when the next book
    crosses it, and the strategy's inventory and the portfolio move together. */
module QuotingBacktest {
  import opened Trading
  import opened Markets
  import opened Portfolio
  import opened MarketMaking
  import opened Risk
  import opened Sizing
  import Orders
  import LegPool
  import LegExecutor
  import Backtest
  import OM = OrderManager

  /** A recorded book with what the strategy is told besides: the hours its market has left and
      the volatility of the token's recent mid prices. */
  datatype QuoteEvent = QuoteEvent(book: OrderBook, market: Market, hoursRemaining: Option<real>, volatility: real)

  /** The strategy and the portfolio hold the same shares of every token. */
  ghost predicate InAgreement(strategy: MarketMakingStrategy, portfolio: Portfolio)
    reads strategy, portfolio
  {
    forall t :: strategy.Position(t) == Shares(portfolio.State(), t)
  }

  /** Open quotes are kept under their own token and have positive sizes. */
  ghost predicate QuotesOk(openQuotes: map<string, QuotePair>) {
    forall t | t in openQuotes :: openQuotes[t].token == t && SidesPositive(openQuotes[t])
  }

  /** One fill of a resting quote, in the portfolio and in the strategy. */
  method FillQuote(token: string, conditionId: string, side: Side, quote: Quote, time: real, name: string,
                   strategy: MarketMakingStrategy, portfolio: Portfolio)
    requires InAgreement(strategy, portfolio) && quote.size > 0.0
    modifies strategy, portfolio
    ensures InAgreement(strategy, portfolio)
    ensures portfolio.State() == AfterFill(old(portfolio.State()),
      Fill(token, conditionId, side, quote.price, quote.size, time, name), 0.0)
    ensures forall t ::
      strategy.Position(t) == old(strategy.Position(t)) + if t == token then Orders.Signed(side, quote.size) else 0.0
  {
    var fill := Fill(token, conditionId, side, quote.price, quote.size, time, name);
    FillMoves(portfolio.State(), fill, 0.0);
    hide AfterFill;
    var outcome := portfolio.ApplyFill(fill, 0.0);
    var accepted := strategy.RecordFill(token, side, quote.size);
  }

  /** Some bid is as high as the resting ask. */
  predicate AskCrossed(pair: QuotePair, book: OrderBook): (crossed: bool)
    ensures crossed <==> pair.ask.Some? && exists l | l in book.bids :: l.price >= pair.ask.value.price
  {
    var bid := BestBid(book.bids);
    pair.ask.Some? && bid.Some? && bid.value.price >= pair.ask.value.price
  }

  /** Some ask is as low as the resting bid. */
  predicate BidCrossed(pair: QuotePair, book: OrderBook): (crossed: bool)
    ensures crossed <==> pair.bid.Some? && exists l | l in book.asks :: l.price <= pair.bid.value.price
  {
    var ask := BestAsk(book.asks);
    pair.bid.Some? && ask.Some? && ask.value.price <= pair.bid.value.price
  }

  /** Shares gained when the book crosses the quotes: the bid's size in, the ask's size out. */
  function Crossed(pair: QuotePair, book: OrderBook): real {
    (if BidCrossed(pair, book) then pair.bid.value.size else 0.0)
    - if AskCrossed(pair, book) then pair.ask.value.size else 0.0
  }

  /** One side's resting quote filled whole at its own price, when the book arrives, without a fee. */
  function AfterQuote(a: Account, pair: QuotePair, side: Side, quote: Quote, book: OrderBook, name: string): Account {
    AfterFill(a, Fill(pair.token, book.conditionId, side, quote.price, quote.size, book.receivedAt, name), 0.0)
  }

  /** The crossed quotes filled, the ask first. */
  function AfterCrossing(a: Account, pair: QuotePair, book: OrderBook, name: string): Account {
    var sold := if AskCrossed(pair, book) then AfterQuote(a, pair, Sell, pair.ask.value, book, name) else a;
    if BidCrossed(pair, book) then AfterQuote(sold, pair, Buy, pair.bid.value, book, name) else sold
  }

  /** What the crossed quotes bring in: the ask's price times its size, less the bid's. */
  function Takings(pair: QuotePair, book: OrderBook): real {
    (if AskCrossed(pair, book) then pair.ask.value.price * pair.ask.value.size else 0.0)
    - if BidCrossed(pair, book) then pair.bid.value.price * pair.bid.value.size else 0.0
  }

  lemma CrossingPays(a: Account, pair: QuotePair, book: OrderBook, name: string)
    requires SidesPositive(pair)
    ensures var b := AfterCrossing(a, pair, book, name);
      && b.cash == a.cash + Takings(pair, book)
      && b.cash + CostBasis(b) - b.realized == a.cash + CostBasis(a) - a.realized
  {
    hide AfterFill, AskCrossed, BidCrossed, CostBasis;
    var sold := a;
    if AskCrossed(pair, book) {
      QuotePays(a, pair, Sell, pair.ask.value, book, name);
      sold := AfterQuote(a, pair, Sell, pair.ask.value, book, name);
    }
    if BidCrossed(pair, book) {
      QuotePays(sold, pair, Buy, pair.bid.value, book, name);
    }
    hide AfterQuote;
  }

  lemma QuotePays(a: Account, pair: QuotePair, side: Side, quote: Quote, book: OrderBook, name: string)
    requires quote.size > 0.0
    ensures var b := AfterQuote(a, pair, side, quote, book, name);
      && b.cash == a.cash + (if side.Sell? then quote.price * quote.size else -(quote.price * quote.size))
      && b.cash + CostBasis(b) - b.realized == a.cash + CostBasis(a) - a.realized
  {
    hide AfterFill, CostBasis;
    var fill := Fill(pair.token, book.conditionId, side, quote.price, quote.size, book.receivedAt, name);
    FillPays(a, fill, 0.0);
    FillBalances(a, fill, 0.0);
  }

  method FillCrossedQuote(name: string, pair: QuotePair, book: OrderBook, strategy: MarketMakingStrategy,
                          portfolio: Portfolio)
    requires InAgreement(strategy, portfolio) && SidesPositive(pair)
    modifies strategy, portfolio
    ensures InAgreement(strategy, portfolio)
    ensures portfolio.State() == AfterCrossing(old(portfolio.State()), pair, book, name)
    ensures forall t ::
      strategy.Position(t) == old(strategy.Position(t)) + if t == pair.token then Crossed(pair, book) else 0.0
  {
    hide InAgreement, AfterFill, AskCrossed, BidCrossed;
    if AskCrossed(pair, book) {
      FillQuote(pair.token, book.conditionId, Sell, pair.ask.value, book.receivedAt, name, strategy, portfolio);
    }
    if BidCrossed(pair, book) {
      FillQuote(pair.token, book.conditionId, Buy, pair.bid.value, book.receivedAt, name, strategy, portfolio);
    }
  }

  // ---- which quotes rest ---------------------------------------------------------------------

  /** What rests on one side after a decision: the approved order, the previous quote when the
      order was a duplicate of it, nothing after a hard rejection. */
  function Resting(d: OM.OrderDecision, previous: Option<Quote>): Option<Quote> {
    if d.intent.None? then None
    else if OM.WasAccepted(d) then Some(Quote(d.intent.value.price, d.intent.value.size))
    else previous
  }

  function SideOf(previous: Option<QuotePair>, side: Side): Option<Quote> {
    if previous.None? then None else if side.Buy? then previous.value.bid else previous.value.ask
  }

  /** One side after a decision: the approved order rests, a duplicate leaves the previous quote, and
      nothing rests after a hard rejection. */
  ghost predicate RestsFrom(resting: Option<Quote>, d: OM.OrderDecision, previous: Option<Quote>) {
    && (d.intent.None? ==> resting.None?)
    && (d.intent.Some? && OM.WasAccepted(d) ==> resting == Some(Quote(d.intent.value.price, d.intent.value.size)))
    && (d.intent.Some? && !OM.WasAccepted(d) ==> resting == previous)
  }

  /** The decisions, at most one a side, turned into what rests. */
  method ApprovedQuotePair(token: string, decisions: seq<OM.OrderDecision>, previous: Option<QuotePair>,
                           ghost requested: QuotePair)
    returns (pair: QuotePair)
    requires OM.QuoteDecisions(decisions, requested, true)
    ensures pair.token == token
    ensures if requested.bid.Some?
      then RestsFrom(pair.bid, decisions[0], if previous.Some? then previous.value.bid else None)
      else pair.bid.None?
    ensures if requested.ask.Some?
      then RestsFrom(pair.ask, decisions[|decisions| - 1], if previous.Some? then previous.value.ask else None)
      else pair.ask.None?
  {
    hide OM.Worth, OM.Requested;
    var bid: Option<Quote>, ask: Option<Quote> := None, None;
    for i := 0 to |decisions|
      invariant bid == if i > 0 && requested.bid.Some? then Resting(decisions[0], SideOf(previous, Buy)) else None
      invariant ask == if i == |decisions| && requested.ask.Some? then
          Resting(decisions[|decisions| - 1], SideOf(previous, Sell)) else None
    {
      var decision := decisions[i];
      if decision.intent.Some? {
        var intent := decision.intent.value;
        var quote := Resting(decision, SideOf(previous, intent.side));
        if intent.side.Buy? {
          bid := quote;
        } else {
          ask := quote;
        }
      }
    }
    return QuotePair(token, bid, ask);
  }

  /** Approved quotes have positive sizes: an approved order is worth something, so the quoted
      price was positive, and so is the size. */
  lemma RestingPositive(d: OM.OrderDecision, token: string, side: Side, quote: Quote, resting: Option<Quote>,
                        previous: Option<Quote>)
    requires OM.QuoteDecision(d, token, side, quote, true) && quote.size > 0.0 && RestsFrom(resting, d, previous)
    requires previous.Some? ==> previous.value.size > 0.0
    ensures resting.Some? ==> resting.value.size > 0.0
  {
    if d.intent.Some? {
      PositivePrice(quote);
      hide OM.Requested;
      OM.PositiveSize(d.intent.value);
    }
  }

  lemma PositivePrice(quote: Quote)
    requires OM.Requested(quote) > 0.0 && quote.size > 0.0
    ensures quote.price > 0.0
  {
  }

  /** What was quoted after an event and how the gate decided it, with the limits used and what the
      ask met. */
  datatype Requote = Requote(requested: QuotePair, decisions: seq<OM.OrderDecision>, limits: seq<RiskLimits>,
                             mid: OM.Snapshot)

  /** An event with the quotes open before it, and the order manager before and after it. */
  datatype Crossing = Crossing(before: map<string, QuotePair>, event: QuoteEvent, requote: Requote, view: OM.Snapshot,
                               after: OM.Snapshot)

  /** What the open quotes gain in a token when the event's book crosses them. */
  function GainAt(before: map<string, QuotePair>, book: OrderBook, token: string): real {
    if book.token == token && token in before then Crossed(before[token], book) else 0.0
  }

  /** What the open quotes bring in when the event's book crosses them. */
  function TakingsAt(before: map<string, QuotePair>, book: OrderBook): real {
    if book.token in before then Takings(before[book.token], book) else 0.0
  }

  function AfterBook(a: Account, before: map<string, QuotePair>, book: OrderBook, name: string): Account {
    if book.token in before then AfterCrossing(a, before[book.token], book, name) else a
  }

  lemma BookPays(a: Account, before: map<string, QuotePair>, book: OrderBook, name: string)
    requires QuotesOk(before)
    ensures var b := AfterBook(a, before, book, name);
      && b.cash == a.cash + TakingsAt(before, book)
      && b.cash + CostBasis(b) - b.realized == a.cash + CostBasis(a) - a.realized
  {
    if book.token in before {
      CrossingPays(a, before[book.token], book, name);
    }
    hide AfterCrossing, Takings, CostBasis;
  }

  /** What the strategy quotes at an event, holding this position. */
  ghost predicate AsksFor(pair: QuotePair, event: QuoteEvent, position: real, quoteSize: real, limits: PositionLimits,
                          params: SpreadParams)
    requires limits.Valid()
  {
    QuotesFor(pair, position, quoteSize, limits, MidPrice(event.book),
              HalfSpreadBps(event.hoursRemaining, InventorySkew(position, limits), event.volatility, params))
  }

  /** The new open quote, side by side, is what the decisions leave resting. */
  ghost predicate RestsAs(pair: QuotePair, r: Requote, previous: Option<QuotePair>)
    requires |r.decisions| == (if r.requested.bid.Some? then 1 else 0) + (if r.requested.ask.Some? then 1 else 0)
  {
    && (if r.requested.bid.Some?
        then RestsFrom(pair.bid, r.decisions[0], if previous.Some? then previous.value.bid else None)
        else pair.bid.None?)
    && (if r.requested.ask.Some?
        then RestsFrom(pair.ask, r.decisions[|r.decisions| - 1], if previous.Some? then previous.value.ask else None)
        else pair.ask.None?)
  }

  /** Only one token's open quote was replaced. */
  ghost predicate Requoted(before: map<string, QuotePair>, after: map<string, QuotePair>, token: string) {
    token in after && after == before[token := after[token]]
  }

  lemma AsManyDecisions(r: Requote, conditionId: string, before: OM.Snapshot, after: OM.Snapshot, s: OM.Setting)
    requires OM.QuotesDecided(r.decisions, r.requested, conditionId, r.limits, before, r.mid, after, s)
    ensures |r.decisions| == (if r.requested.bid.Some? then 1 else 0) + (if r.requested.ask.Some? then 1 else 0)
  {
  }

  /** Without a live balance the limits are the configured ones. */
  lemma ConfiguredLimits(limits: seq<RiskLimits>, pair: QuotePair, s: OM.Setting, before: OM.Purse, mid: OM.Purse,
                         after: OM.Purse, began: real, midway: real, ended: real)
    requires s.limits.Valid() && !s.hasLiveBalance
    requires OM.QuotesLimited(limits, pair, s, before, mid, after, began, midway, ended)
    ensures forall l | l in limits :: l == s.limits
  {
  }

  // ---- one event ------------------------------------------------------------------------------

  /** Fills what the book crossed, then quotes anew through the gate. */
  method ProcessMarketMaking(name: string, strategy: MarketMakingStrategy, event: QuoteEvent, om: OM.OrderManager,
                             portfolio: Portfolio, openQuotes: map<string, QuotePair>)
    returns (quotes: map<string, QuotePair>, ghost r: Requote)
    requires Backtest.Ready(om) && strategy.positionLimits.Valid()
    requires InAgreement(strategy, portfolio) && QuotesOk(openQuotes)
    modifies om, om.clock, om.exchange, om.wallet, portfolio, strategy
    ensures Backtest.Ready(om) && om.clock.now == old(om.clock.now)
    ensures InAgreement(strategy, portfolio) && QuotesOk(quotes)
    ensures var token := event.book.token;
      && Requoted(openQuotes, quotes, token)
      && forall t ::
           strategy.Position(t) == old(strategy.Position(t)) + GainAt(openQuotes, event.book, t)
    ensures AsksFor(r.requested, event, strategy.Position(event.book.token), strategy.quoteSize,
                    strategy.positionLimits, strategy.spreadParams)
    ensures OM.QuotesDecided(r.decisions, r.requested, event.market.conditionId, r.limits, old(om.View()), r.mid,
                             om.View(), om.Settings())
    ensures portfolio.State() == AfterBook(old(portfolio.State()), openQuotes, event.book, name)
    ensures forall l | l in r.limits :: l == om.riskLimits
    ensures RestsAs(quotes[event.book.token], r,
                    if event.book.token in openQuotes then Some(openQuotes[event.book.token]) else None)
  {
    hide OM.MarksGrew, LegExecutor.Latched, QuotesFor, OM.QuotesDecided, InAgreement, OM.LedgerOk, LegPool.Spaced;
    hide LegPool.Recorded, LegPool.Booked, OM.SumAccepted, OM.QuoteDecision, Crossed;
    hide HalfSpreadBps, BidPrice, AskPrice, OM.QuotesLimited, LegPool.WithMarks, OM.AmountAccepted, OM.Worth;
    hide AfterCrossing;
    hide OM.Requested, RestsFrom;
    var book := event.book;
    var previous := if book.token in openQuotes then Some(openQuotes[book.token]) else None;
    if previous.Some? {
      FillCrossedQuote(name, previous.value, book, strategy, portfolio);
    }
    var requested := strategy.Quote(book, event.hoursRemaining, event.volatility);
    var decisions;
    ghost var limits, mid, funds;
    decisions, limits, mid, funds := om.HandleQuote(requested, event.market.conditionId);
    r := Requote(requested, decisions, limits, mid);
    ConfiguredLimits(limits, requested, om.Settings(), old(om.Funds()), funds, om.Funds(), old(om.clock.now), mid.now,
                     om.clock.now);
    AsManyDecisions(r, event.market.conditionId, old(om.View()), om.View(), om.Settings());
    var approved := ApprovedQuotePair(book.token, decisions, previous, requested);
    if requested.bid.Some? {
      RestingPositive(decisions[0], book.token, Buy, requested.bid.value, approved.bid,
                      if previous.Some? then previous.value.bid else None);
    }
    if requested.ask.Some? {
      RestingPositive(decisions[|decisions| - 1], book.token, Sell, requested.ask.value, approved.ask,
                      if previous.Some? then previous.value.ask else None);
    }
    quotes := openQuotes[book.token := approved];
  }

  // ---- a whole run -----------------------------------------------------------------------------

  ghost function Gained(crossings: seq<Crossing>, token: string): real {
    if crossings == [] then 0.0
    else
      var last := crossings[|crossings| - 1];
      Gained(crossings[..|crossings| - 1], token) + GainAt(last.before, last.event.book, token)
  }

  /** What all the crossed quotes brought in. */
  ghost function Earned(crossings: seq<Crossing>): real {
    if crossings == [] then 0.0
    else
      var last := crossings[|crossings| - 1];
      Earned(crossings[..|crossings| - 1]) + TakingsAt(last.before, last.event.book)
  }

  /** How a run is configured. */
  datatype Quoting = Quoting(quoteSize: real, positionLimits: PositionLimits, spreadParams: SpreadParams,
                             setting: OM.Setting)

  /** At an event, holding this position, the strategy quotes anew, the gate decides, and what the
      decisions leave resting replaces the token's open quote. */
  ghost predicate Quoted(q: Quoting, c: Crossing, position: real, openQuotes: map<string, QuotePair>)
    requires q.positionLimits.Valid()
  {
    var event, r := c.event, c.requote;
    var token := event.book.token;
    && Requoted(c.before, openQuotes, token)
    && AsksFor(r.requested, event, position, q.quoteSize, q.positionLimits, q.spreadParams)
    && c.view.now == event.book.receivedAt && (forall l | l in r.limits :: l == q.setting.limits)
    && OM.QuotesDecided(r.decisions, r.requested, event.market.conditionId, r.limits, c.view, r.mid, c.after, q.setting)
    && RestsAs(openQuotes[token], r, if token in c.before then Some(c.before[token]) else None)
  }

  /** The tables after these events. */
  function BooksAfter(crossings: seq<Crossing>): LegPool.Books {
    if crossings == [] then Backtest.EMPTY_BOOKS else crossings[|crossings| - 1].after.books
  }

  /** Starting from no quotes and empty books, each event is quoted anew where the one before it left
      off. */
  ghost predicate Linked(q: Quoting, crossings: seq<Crossing>, openQuotes: map<string, QuotePair>)
    requires q.positionLimits.Valid()
  {
    if crossings == [] then openQuotes == map[]
    else
      var last, before := crossings[|crossings| - 1], crossings[..|crossings| - 1];
      && Linked(q, before, last.before) && last.view.books == BooksAfter(before)
      && Quoted(q, last, Gained(crossings, last.event.book.token), openQuotes)
  }

  lemma OneMoreCrossing(q: Quoting, crossings: seq<Crossing>, next: Crossing, openQuotes: map<string, QuotePair>)
    requires q.positionLimits.Valid() && Linked(q, crossings, next.before) && next.view.books == BooksAfter(crossings)
    requires var token := next.event.book.token;
      Quoted(q, next, Gained(crossings, token) + GainAt(next.before, next.event.book, token), openQuotes)
    ensures Linked(q, crossings + [next], openQuotes) && BooksAfter(crossings + [next]) == next.after.books
    ensures forall t :: Gained(crossings + [next], t) == Gained(crossings, t) + GainAt(next.before, next.event.book, t)
    ensures Earned(crossings + [next]) == Earned(crossings) + TakingsAt(next.before, next.event.book)
  {
    hide GainAt, TakingsAt, Quoted;
    assert (crossings + [next])[..|crossings|] == crossings;
  }

  function QuotingOf(strategy: MarketMakingStrategy, setting: OM.Setting): Quoting {
    Quoting(strategy.quoteSize, strategy.positionLimits, strategy.spreadParams, setting)
  }

  /** One event: the clock moves to its time, its book fills what it crosses, and its token is quoted
      anew. */
  method QuoteOne(name: string, strategy: MarketMakingStrategy, event: QuoteEvent, om: OM.OrderManager,
                  portfolio: Portfolio, openQuotes: map<string, QuotePair>)
    returns (quotes: map<string, QuotePair>, ghost c: Crossing)
    requires Backtest.Ready(om) && strategy.positionLimits.Valid() && event.book.receivedAt >= om.clock.now
    requires InAgreement(strategy, portfolio) && QuotesOk(openQuotes)
    modifies om, om.clock, om.exchange, om.wallet, portfolio, strategy
    ensures Backtest.Ready(om) && om.clock.now == event.book.receivedAt
    ensures InAgreement(strategy, portfolio) && QuotesOk(quotes)
    ensures c.before == openQuotes && c.event == event && c.view.books == old(om.State()) && c.after == om.View()
    ensures portfolio.cash == old(portfolio.cash) + TakingsAt(openQuotes, event.book)
    ensures portfolio.cash + CostBasis(portfolio.State()) - portfolio.realizedPnl
         == old(portfolio.cash + CostBasis(portfolio.State()) - portfolio.realizedPnl)
    ensures forall t :: strategy.Position(t) == old(strategy.Position(t)) + GainAt(openQuotes, event.book, t)
    ensures Quoted(QuotingOf(strategy, om.Settings()), c, strategy.Position(event.book.token), quotes)
  {
    hide OM.LedgerOk, LegPool.Spaced, LegPool.Recorded, LegPool.WithMarks, QuotesOk, GainAt, Requoted;
    hide OM.QuotesDecided, AsksFor, RestsAs, InAgreement, AfterBook, TakingsAt, CostBasis;
    BookPays(portfolio.State(), openQuotes, event.book, name);
    Backtest.AdvanceClock(om, event.book.receivedAt);
    ghost var r;
    ghost var view := om.View();
    quotes, r := ProcessMarketMaking(name, strategy, event, om, portfolio, openQuotes);
    c := Crossing(openQuotes, event, r, view, om.View());
  }

  /** In an isolated run with a fresh strategy, the strategy's inventory and the portfolio's
      shares agree after the events, however many there are, and are what the crossed quotes
      gained, carried-forward ones included; at every event the strategy quotes from the inventory it
      then holds, the gate decides, and what that leaves resting is what the next book may cross. */
  method RunQuoting(name: string, strategy: MarketMakingStrategy, events: seq<QuoteEvent>, limits: RiskLimits,
                    kelly: KellyParams, initialCash: real)
    returns (portfolio: Portfolio, openQuotes: map<string, QuotePair>, ghost crossings: seq<Crossing>)
    requires limits.Valid() && strategy.positionLimits.Valid() && strategy.inventories == map[]
    requires forall e | e in events :: e.book.receivedAt >= 0.0
    requires forall i, j | 0 <= i < j < |events| :: events[i].book.receivedAt <= events[j].book.receivedAt
    modifies strategy
    ensures fresh(portfolio) && InAgreement(strategy, portfolio) && QuotesOk(openQuotes)
    ensures |crossings| == |events| && forall i | 0 <= i < |events| :: crossings[i].event == events[i]
    ensures Linked(QuotingOf(strategy, Backtest.Replaying(limits, kelly)), crossings, openQuotes)
    ensures forall t :: Shares(portfolio.State(), t) == Gained(crossings, t)
    ensures portfolio.cash == initialCash + Earned(crossings)
    ensures portfolio.cash + CostBasis(portfolio.State()) == initialCash + portfolio.realizedPnl
  {
    hide Linked, Gained, QuotesOk, InAgreement, CostBasis, Earned;
    portfolio := new Portfolio(initialCash);
    StartsInAgreement(strategy, portfolio);
    NoCost(portfolio.State());
    var clock := new OM.Clock(true, 0.0);
    var exchange := new Orders.Exchange(false);
    var wallet := new OM.Wallet();
    var om := new OM.OrderManager(limits, true, kelly, Backtest.IDEMPOTENCY_TTL_SECONDS, clock, exchange, wallet,
                                  false, 30.0);
    openQuotes, crossings := ReplayQuotes(name, strategy, events, om, portfolio);
    AgreeingShares(strategy, portfolio);
  }

  method ReplayQuotes(name: string, strategy: MarketMakingStrategy, events: seq<QuoteEvent>, om: OM.OrderManager,
                      portfolio: Portfolio)
    returns (openQuotes: map<string, QuotePair>, ghost crossings: seq<Crossing>)
    requires Backtest.Ready(om) && strategy.positionLimits.Valid() && InAgreement(strategy, portfolio)
    requires om.State() == Backtest.EMPTY_BOOKS && om.clock.now == 0.0 && strategy.inventories == map[]
    requires forall e | e in events :: e.book.receivedAt >= 0.0
    requires forall i, j | 0 <= i < j < |events| :: events[i].book.receivedAt <= events[j].book.receivedAt
    modifies om, om.clock, om.exchange, om.wallet, portfolio, strategy
    ensures InAgreement(strategy, portfolio) && QuotesOk(openQuotes)
    ensures |crossings| == |events| && forall i | 0 <= i < |events| :: crossings[i].event == events[i]
    ensures Linked(QuotingOf(strategy, om.Settings()), crossings, openQuotes)
    ensures forall t :: strategy.Position(t) == Gained(crossings, t)
    ensures portfolio.cash == old(portfolio.cash) + Earned(crossings)
    ensures portfolio.cash + CostBasis(portfolio.State()) - portfolio.realizedPnl
         == old(portfolio.cash + CostBasis(portfolio.State()) - portfolio.realizedPnl)
  {
    hide TakingsAt, CostBasis, Earned;
    hide OM.LedgerOk, LegPool.Spaced, LegPool.Recorded, LegPool.WithMarks, QuotesOk, GainAt, Linked, Requoted, Gained;
    hide OM.QuotesDecided, AsksFor, RestsAs, AfterFill, InAgreement, Quoted;
    ghost var q := QuotingOf(strategy, om.Settings());
    openQuotes, crossings := map[], [];
    NoQuotes(q);
    for i := 0 to |events|
      invariant Backtest.Ready(om) && om.clock.now == if i == 0 then 0.0 else events[i - 1].book.receivedAt
      invariant InAgreement(strategy, portfolio) && QuotesOk(openQuotes)
      invariant |crossings| == i && forall j | 0 <= j < i :: crossings[j].event == events[j]
      invariant Linked(q, crossings, openQuotes) && om.State() == BooksAfter(crossings)
      invariant forall t :: strategy.Position(t) == Gained(crossings, t)
      invariant portfolio.cash == old(portfolio.cash) + Earned(crossings)
      invariant portfolio.cash + CostBasis(portfolio.State()) - portfolio.realizedPnl
             == old(portfolio.cash + CostBasis(portfolio.State()) - portfolio.realizedPnl)
    {
      assert events[i] in events;
      ghost var crossing;
      openQuotes, crossing := QuoteOne(name, strategy, events[i], om, portfolio, openQuotes);
      OneMoreCrossing(q, crossings, crossing, openQuotes);
      crossings := crossings + [crossing];
    }
  }

  lemma StartsInAgreement(strategy: MarketMakingStrategy, portfolio: Portfolio)
    requires strategy.inventories == map[] && portfolio.positions == map[]
    ensures InAgreement(strategy, portfolio)
  {
  }

  lemma NoCost(a: Account)
    requires a.positions == map[]
    ensures CostBasis(a) == 0.0
  {
    assert Applied(a.positions, Cost) == map[];
  }

  lemma AgreeingShares(strategy: MarketMakingStrategy, portfolio: Portfolio)
    requires InAgreement(strategy, portfolio)
    ensures forall t :: Shares(portfolio.State(), t) == strategy.Position(t)
  {
  }

  lemma NoQuotes(q: Quoting)
    requires q.positionLimits.Valid()
    ensures QuotesOk(map[]) && Linked(q, [], map[]) && Earned([]) == 0.0 && forall t :: Gained([], t) == 0.0
  {
  }
}
