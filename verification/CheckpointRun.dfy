/** One checkpointed run: restore the portfolio, replay what was recorded since, settle resolved
    markets, save, and prune. */
module CheckpointRun {
  import opened Trading
  import opened Markets
  import opened Portfolio
  import opened Checkpoint
  import opened Pruning
  import Backtest
  import CompleteSet
  import Payoff
  import Orders
  import OM = OrderManager
  import LegPool
  import Risk
  import Sizing

  class DataStore {
    var rows: seq<OrderBook>
    var metadata: map<string, Market>

    function State(): Log
      reads this
    {
      Log(rows, metadata)
    }

    method SaveOrderBook(book: OrderBook)
      modifies this
      ensures rows == old(rows) + [book] && metadata == old(metadata)
      ensures forall checkpoint, prune ::
        World(State(), checkpoint) == Next(World(old(State()), checkpoint), Recorded(book), prune)
    {
      rows := rows + [book];
    }

    method SaveMarketMetadata(market: Market)
      modifies this
      ensures rows == old(rows) && metadata == old(metadata)[market.conditionId := market]
      ensures forall checkpoint, prune ::
        World(State(), checkpoint) == Next(World(old(State()), checkpoint), Refreshed(market), prune)
    {
      metadata := metadata[market.conditionId := market];
    }

    method DeleteBefore(cutoff: real)
      modifies this
      ensures State() == Pruned(old(State()), cutoff)
      ensures rows == Since(old(rows), cutoff) && metadata == old(metadata)
    {
      var left := [];
      for i := 0 to |rows|
        invariant State() == old(State())
        invariant left == Since(rows[..i], cutoff)
      {
        assert rows[..i + 1][..i] == rows[..i];
        if rows[i].receivedAt >= cutoff {
          left := left + [rows[i]];
        }
      }
      assert rows[..|rows|] == rows;
      rows := left;
    }
  }

  // ---- the replay ------------------------------------------------------------------------------

  /** The books a replay sees, each with a loaded market that lists its token. */
  ghost predicate EventsOf(events: seq<ReplayEvent>, log: Log, start: real) {
    && |events| == |ReplayedBooks(log, start)|
    && forall i | 0 <= i < |events| :: events[i].book == ReplayedBooks(log, start)[i]
         && LoadedFor(log, events[i].book.token, events[i].market)
  }

  ghost predicate LoadedFor(log: Log, token: string, m: Market) {
    token in m.tokenIds && exists c :: c in Loaded(log) && log.metadata[c] == m
  }

  /** When each token has one market these are the events of the replay. */
  lemma CoherentEvents(market: string -> string, events: seq<ReplayEvent>, log: Log, start: real)
    requires Coherent(market, log) && EventsOf(events, log, start)
    ensures events == Replay(log, start)
  {
    ReplayedListed(log, start);
    hide ReplayedBooks, MarketOf;
    forall i | 0 <= i < |events| ensures events[i] == Replay(log, start)[i] {
      var book := events[i].book;
      assert ReplayedBooks(log, start)[i] in ReplayedBooks(log, start);
      ListedByOwnMarket(market, log, book);
      var c :| c in Loaded(log) && log.metadata[c] == events[i].market;
      assert MarketAs(market, log.metadata[c]) && RowOf(market, book);
    }
  }

  method ReplayEvents(store: DataStore, start: real) returns (events: seq<ReplayEvent>)
    ensures EventsOf(events, store.State(), start)
  {
    var log := store.State();
    var books := ReplayedBooks(log, start);
    ReplayedListed(log, start);
    hide ReplayedBooks;
    events := [];
    for i := 0 to |books|
      invariant |events| == i
      invariant forall j | 0 <= j < i :: events[j].book == books[j] && LoadedFor(log, books[j].token, events[j].market)
    {
      assert books[i] in books;
      var c :| c in Loaded(log) && books[i].token in log.metadata[c].tokenIds;
      events := events + [ReplayEvent(books[i], log.metadata[c])];
    }
  }

  /** Recorded prices are probabilities, times do not precede the clock's start, and metadata is
      stored under its own market's id. */
  ghost predicate Replayable(log: Log) {
    && (forall r | r in log.rows :: Backtest.Priced(r) && r.receivedAt >= 0.0)
    && (forall c | c in log.metadata :: log.metadata[c].conditionId == c && Backtest.Listed(log.metadata[c]))
  }

  lemma EventsReplayable(events: seq<ReplayEvent>, log: Log, start: real)
    requires Replayable(log) && EventsOf(events, log, start)
    ensures Backtest.Replayable(events)
  {
    ReplayedListed(log, start);
    hide ReplayedBooks, Backtest.Priced;
    forall e | e in events ensures Backtest.Priced(e.book) && Backtest.Listed(e.market) && e.book.receivedAt >= 0.0 {
      var i :| 0 <= i < |events| && e == events[i];
      assert ReplayedBooks(log, start)[i] in ReplayedBooks(log, start);
      assert LoadedFor(log, e.book.token, e.market);
    }
  }

  // ---- conservation ----------------------------------------------------------------------------

  /** Cash plus cost basis less realized profit: what was ever paid in. */
  ghost function PaidIn(a: Account): real {
    a.cash + CostBasis(a) - a.realized
  }

  lemma {:induction false} BasketKeepsPaidIn(a: Account, config: CompleteSet.Config, legs: seq<Leg>, n: real,
                                             market: Market, time: real, name: string)
    ensures PaidIn(Payoff.FillBasket(a, config, legs, n, market, time, name)) == PaidIn(a)
  {
    hide AfterFill, CostBasis, CompleteSet.FeeRateFor;
    if legs != [] {
      var k := |legs| - 1;
      var before := Payoff.FillBasket(a, config, legs[..k], n, market, time, name);
      BasketKeepsPaidIn(a, config, legs[..k], n, market, time, name);
      var fill := Payoff.LegFill(legs[k], n, market, time, name);
      var feeRate := CompleteSet.FeeRateFor(config, legs[k].price, market);
      FillBalances(before, fill, feeRate);
    }
  }

  // ---- settling resolved markets -----------------------------------------------------------------

  /** The token at some position of a closed market's list that also has a price. */
  ghost predicate PaysAt(m: Market, i: nat, token: string, payout: real) {
    i < |m.tokenIds| && i < |m.outcomePrices| && m.tokenIds[i] == token && m.outcomePrices[i] == payout
  }

  ghost predicate ClosedPays(metadata: map<string, Market>, c: string, token: string, payout: real) {
    c in metadata && metadata[c].closed && exists i: nat :: PaysAt(metadata[c], i, token, payout)
  }

  ghost predicate PaidBy(markets: set<string>, metadata: map<string, Market>, token: string, payout: real) {
    exists c :: c in markets && ClosedPays(metadata, c, token, payout)
  }

  /** The markets, named by their positions, in which shares are held. */
  function Held(a: Account): set<string> {
    set t | t in a.positions && a.positions[t].shares != 0.0 && a.positions[t].conditionId != ""
      :: a.positions[t].conditionId
  }

  /** Payouts only for open positions and as some held market states them, and for every open
      position that one of the markets `seen` so far pays. */
  ghost predicate PayoutsFor(resolutions: map<string, real>, a: Account, seen: set<string>,
                             metadata: map<string, Market>) {
    && (forall t | t in resolutions :: Shares(a, t) != 0.0 && PaidBy(seen, metadata, t, resolutions[t]))
    && (forall c, t, x | c in seen && ClosedPays(metadata, c, t, x) && Shares(a, t) != 0.0 :: t in resolutions)
  }

  method HeldResolutions(store: DataStore, portfolio: Portfolio) returns (resolutions: map<string, real>)
    ensures PayoutsFor(resolutions, portfolio.State(), Held(portfolio.State()), store.metadata)
  {
    resolutions := map[];
    var todo, seen := Held(portfolio.State()), {};
    while todo != {}
      invariant seen + todo == Held(portfolio.State())
      invariant PayoutsFor(resolutions, portfolio.State(), seen, store.metadata)
      decreases |todo|
    {
      var c :| c in todo;
      resolutions := AddPayouts(store, portfolio, resolutions, seen, c);
      seen, todo := seen + {c}, todo - {c};
    }
    assert seen == Held(portfolio.State());
  }

  method AddPayouts(store: DataStore, portfolio: Portfolio, before: map<string, real>, ghost seen: set<string>,
                    c: string)
    returns (resolutions: map<string, real>)
    requires PayoutsFor(before, portfolio.State(), seen, store.metadata)
    ensures PayoutsFor(resolutions, portfolio.State(), seen + {c}, store.metadata)
  {
    resolutions := before;
    if c !in store.metadata || !store.metadata[c].closed {
      return;
    }
    var m := store.metadata[c];
    var n := if |m.tokenIds| <= |m.outcomePrices| then |m.tokenIds| else |m.outcomePrices|;
    ghost var a := portfolio.State();
    for i := 0 to n
      invariant forall t | t in before :: t in resolutions
      invariant forall t | t in resolutions ::
        Shares(a, t) != 0.0 && PaidBy(seen + {c}, store.metadata, t, resolutions[t])
      invariant forall j | 0 <= j < i && Shares(a, m.tokenIds[j]) != 0.0 :: m.tokenIds[j] in resolutions
    {
      var token := m.tokenIds[i];
      if token in portfolio.positions && portfolio.positions[token].shares != 0.0 {
        assert PaysAt(m, i, token, m.outcomePrices[i]);
        assert c in seen + {c} && ClosedPays(store.metadata, c, token, m.outcomePrices[i]);
        resolutions := resolutions[token := m.outcomePrices[i]];
      }
    }
  }

  /** No open position is in a closed market that prices its token. */
  ghost predicate NothingUnsettled(a: Account, metadata: map<string, Market>) {
    forall t, x | t in a.positions && a.positions[t].shares != 0.0 && a.positions[t].conditionId != ""
      :: !ClosedPays(metadata, a.positions[t].conditionId, t, x)
  }

  lemma AllSettled(a: Account, resolutions: map<string, real>, metadata: map<string, Market>)
    requires PayoutsFor(resolutions, a, Held(a), metadata)
    ensures NothingUnsettled(AfterSettle(a, resolutions), metadata)
  {
    var b := AfterSettle(a, resolutions);
    SettledPositions(a, resolutions);
    hide AfterSettle, ClosedPays;
    forall t, x | t in b.positions && b.positions[t].shares != 0.0 && b.positions[t].conditionId != ""
      ensures !ClosedPays(metadata, b.positions[t].conditionId, t, x) {
      assert Shares(b, t) != 0.0;
      assert b.positions[t].conditionId in Held(a);
    }
  }

  // ---- the run -----------------------------------------------------------------------------------

  /** One event of a replay: the account and the order manager before and after the arbitrage's turn. */
  datatype Turn = Turn(before: Backtest.Standing, after: Backtest.Standing)

  function ArbitrageAt(config: CompleteSet.Config, events: seq<ReplayEvent>, i: nat): Backtest.Occasion
    requires i < |events|
  {
    Backtest.Occasion("arb", Backtest.Arbitrage(config), events[i], Backtest.LatestBooks(events[..i + 1]))
  }

  /** The arbitrage's turn at event `i`, taken where the turn before it ended, the first from `start`
      and empty books. */
  ghost predicate TurnAt(setting: OM.Setting, config: CompleteSet.Config, events: seq<ReplayEvent>,
                         start: Account, i: nat, previous: Option<Turn>, turn: Turn)
    requires setting.limits.Valid() && i < |events|
  {
    && Backtest.Took(setting, ArbitrageAt(config, events, i), turn.before, turn.after)
    && turn.before.view.now == events[i].book.receivedAt
    && (if previous.None? then turn.before.account == start && turn.before.view.books == Backtest.EMPTY_BOOKS
        else Backtest.Unmoved(previous.value.after, turn.before))
  }

  ghost predicate Turns(setting: OM.Setting, config: CompleteSet.Config, events: seq<ReplayEvent>, start: Account,
                        turns: seq<Turn>)
    requires setting.limits.Valid()
  {
    && |turns| <= |events|
    && forall i | 0 <= i < |turns| :: TurnAt(setting, config, events, start, i, Previous(turns, i), turns[i])
  }

  /** At every event of a run the arbitrage goes by the last book of each of the market's outcomes. */
  lemma RunTakesSets(setting: OM.Setting, config: CompleteSet.Config, events: seq<ReplayEvent>, start: Account,
                     turns: seq<Turn>, i: nat, books: map<string, OrderBook>)
    requires setting.limits.Valid() && Turns(setting, config, events, start, turns) && i < |turns|
    requires Backtest.Shown(events[..i + 1], events[i].market, books)
    ensures Backtest.TakesSets(setting, config, "arb", events[i], books, turns[i].before, turns[i].after)
  {
    hide Backtest.TakesSets, Backtest.LatestBooks, Backtest.Unmoved, Backtest.Took, Backtest.Shown;
    assert TurnAt(setting, config, events, start, i, Previous(turns, i), turns[i]);
    assert events[..i + 1][i] == events[i];
    Backtest.ArbitrageTurn(setting, config, "arb", events[..i + 1], books, turns[i].before, turns[i].after);
  }

  function Previous(turns: seq<Turn>, i: nat): Option<Turn>
    requires i <= |turns|
  {
    if i == 0 then None else Some(turns[i - 1])
  }

  function EndOf(turns: seq<Turn>, start: Account): Account {
    if turns == [] then start else turns[|turns| - 1].after.account
  }

  lemma NoTurns(setting: OM.Setting, config: CompleteSet.Config, events: seq<ReplayEvent>, start: Account)
    requires setting.limits.Valid()
    ensures Turns(setting, config, events, start, []) && Backtest.LatestBooks(events[..0]) == map[]
  {
  }

  lemma TurnsOneMore(setting: OM.Setting, config: CompleteSet.Config, events: seq<ReplayEvent>, start: Account,
                     turns: seq<Turn>, turn: Turn)
    requires setting.limits.Valid() && Turns(setting, config, events, start, turns) && |turns| < |events|
    requires TurnAt(setting, config, events, start, |turns|, Previous(turns, |turns|), turn)
    ensures Turns(setting, config, events, start, turns + [turn])
  {
    hide TurnAt;
    var longer := turns + [turn];
    forall i | 0 <= i < |longer| ensures TurnAt(setting, config, events, start, i, Previous(longer, i), longer[i]) {
      assert Previous(longer, i) == Previous(turns, i);
      if i < |turns| {
        assert longer[i] == turns[i];
      }
    }
  }

  /** What a run replays: the arbitrage's turn at every event since the checkpoint, from the restored
      account to the one that is then settled. */
  ghost predicate Replayed(setting: OM.Setting, config: CompleteSet.Config, log: Log, saved: Saved,
                           events: seq<ReplayEvent>, turns: seq<Turn>, unsettled: Account)
    requires setting.limits.Valid()
  {
    && EventsOf(events, log, saved.checkpointTime) && |turns| == |events|
    && Turns(setting, config, events, Restored(saved), turns)
    && unsettled == EndOf(turns, Restored(saved))
  }

  /** One run. The store and the checkpoint time move as the pruning model says; the arbitrage takes
      its turn at every event since the checkpoint; nothing paid in is lost, through fills, settlement,
      saving and the flat positions dropped on the way; trading spends at most the portfolio cap, after
      which cash changes only by what resolved positions pay; and no open position of a resolved market
      is saved. */
  method RunOnce(store: DataStore, saved: Saved, config: CompleteSet.Config, limits: Risk.RiskLimits,
                 kelly: Sizing.KellyParams, configuredCash: real)
    returns (next: Saved, ghost events: seq<ReplayEvent>, ghost turns: seq<Turn>, ghost unsettled: Account,
             ghost resolutions: map<string, real>)
    requires limits.Valid() && config.fallbackFeeRate >= 0.0 && Replayable(store.State())
    modifies store
    ensures World(store.State(), next.checkpointTime)
         == Next(World(old(store.State()), saved.checkpointTime), CheckpointRun, true)
    ensures store.rows == Since(old(store.rows), next.checkpointTime - 3600.0) && store.metadata == old(store.metadata)
    ensures next.checkpointTime == if events == [] then saved.checkpointTime else events[|events| - 1].book.receivedAt
    ensures Replayed(Backtest.Replaying(limits, kelly), config, old(store.State()),
                     saved, events, turns, unsettled)
    ensures next.cash + CostBasis(Restored(next)) - next.realizedPnl
         == saved.cash + CostBasis(Restored(saved)) - saved.realizedPnl
    ensures unsettled.cash >= saved.cash - limits.maxPortfolioExposureUsd
    ensures PayoutsFor(resolutions, unsettled, Held(unsettled), store.metadata)
    ensures next == SaveCheckpoint(AfterSettle(unsettled, resolutions), next.checkpointTime)
    ensures next.cash == Redemption(unsettled, resolutions)
    ensures NothingUnsettled(Restored(next), store.metadata)
  {
    hide AfterSettle, PayoutsFor, Held, CostBasis, Redemption, Replayable, NothingUnsettled, ReplayedBooks, Since;
    hide EventsOf, Turns;
    var portfolio := RestorePortfolio(saved, configuredCash);
    var last;
    last, events, turns := ReplayInto(portfolio, store, saved.checkpointTime, config, limits, kelly);
    unsettled := portfolio.State();
    var payouts := HeldResolutions(store, portfolio);
    resolutions := payouts;
    NothingToSettle(unsettled);
    if payouts != map[] {
      portfolio.Settle(payouts);
    }
    assert portfolio.State() == AfterSettle(unsettled, payouts);
    AllSettled(unsettled, payouts, store.metadata);
    SettleBalances(unsettled, payouts);
    SettledCash(unsettled, payouts);
    next := SaveCheckpoint(portfolio.State(), last);
    Saving(portfolio.State(), last, store.metadata);
    store.DeleteBefore(next.checkpointTime - PRUNE_SAFETY_MARGIN);
  }

  lemma NothingToSettle(a: Account)
    ensures AfterSettle(a, map[]) == a
  {
  }

  lemma Saving(a: Account, time: real, metadata: map<string, Market>)
    requires NothingUnsettled(a, metadata)
    ensures PaidIn(Restored(SaveCheckpoint(a, time))) == PaidIn(a)
    ensures NothingUnsettled(Restored(SaveCheckpoint(a, time)), metadata)
  {
    SumOfPart(a.positions, OpenPositions(a), Cost);
    hide ClosedPays;
  }

  /** Replays what was recorded since `start` through the arbitrage, and returns the time reached. */
  method ReplayInto(portfolio: Portfolio, store: DataStore, start: real, config: CompleteSet.Config,
                    limits: Risk.RiskLimits, kelly: Sizing.KellyParams)
    returns (lastEventTime: real, ghost events: seq<ReplayEvent>, ghost turns: seq<Turn>)
    requires limits.Valid() && config.fallbackFeeRate >= 0.0 && Replayable(store.State())
    modifies portfolio
    ensures lastEventTime == NextCheckpoint(store.State(), start)
    ensures lastEventTime == if events == [] then start else events[|events| - 1].book.receivedAt
    ensures EventsOf(events, store.State(), start) && |turns| == |events|
    ensures Turns(Backtest.Replaying(limits, kelly), config, events,
                  old(portfolio.State()), turns)
    ensures portfolio.State() == EndOf(turns, old(portfolio.State()))
    ensures PaidIn(portfolio.State()) == old(PaidIn(portfolio.State()))
    ensures portfolio.cash >= old(portfolio.cash) - limits.maxPortfolioExposureUsd
  {
    var clock := new OM.Clock(true, 0.0);
    var exchange := new Orders.Exchange(false);
    var wallet := new OM.Wallet();
    var om := new OM.OrderManager(limits, true, kelly, Backtest.IDEMPOTENCY_TTL_SECONDS, clock, exchange, wallet,
                                  false, 30.0);
    var replay := ReplayEvents(store, start);
    events := replay;
    EventsReplayable(events, store.State(), start);
    EventTimes(events, store.State(), start);
    hide ReplayedBooks, Replayable, CostBasis, EventsOf, Turns, Backtest.Replayable;
    turns := ReplayAll(replay, config, om, portfolio);
    Backtest.CapHolds(om);
    lastEventTime := if replay == [] then start else replay[|replay| - 1].book.receivedAt;
  }

  lemma EventTimes(events: seq<ReplayEvent>, log: Log, start: real)
    requires EventsOf(events, log, start)
    ensures NextCheckpoint(log, start) == if events == [] then start else events[|events| - 1].book.receivedAt
  {
    hide ReplayedBooks;
  }

  method ReplayAll(events: seq<ReplayEvent>, config: CompleteSet.Config, om: OM.OrderManager, portfolio: Portfolio)
    returns (ghost turns: seq<Turn>)
    requires Backtest.Ready(om) && om.State() == Backtest.EMPTY_BOOKS && om.clock.now == 0.0
    requires config.fallbackFeeRate >= 0.0 && Backtest.Replayable(events)
    modifies om, om.clock, om.exchange, om.wallet, portfolio
    ensures Backtest.Ready(om) && |turns| == |events|
    ensures Turns(om.Settings(), config, events, old(portfolio.State()), turns)
    ensures portfolio.State() == EndOf(turns, old(portfolio.State()))
    ensures PaidIn(portfolio.State()) == old(PaidIn(portfolio.State()))
    ensures Backtest.Backing(om, portfolio) >= old(portfolio.cash)
  {
    hide Turns, PaidIn, Backtest.Priced, Backtest.LatestBooks, Backtest.Took;
    hide OM.LedgerOk, LegPool.Spaced, LegPool.Recorded, LegPool.WithMarks;
    var latestBooks: map<string, OrderBook> := map[];
    ghost var start := portfolio.State();
    turns := [];
    NoTurns(om.Settings(), config, events, start);
    for i := 0 to |events|
      invariant Backtest.Ready(om) && om.clock.now == if i == 0 then 0.0 else events[i - 1].book.receivedAt
      invariant latestBooks == Backtest.LatestBooks(events[..i])
      invariant forall t | t in latestBooks :: Backtest.Priced(latestBooks[t])
      invariant |turns| == i && Turns(om.Settings(), config, events, start, turns)
      invariant portfolio.State() == EndOf(turns, start)
      invariant om.State() == if i == 0 then Backtest.EMPTY_BOOKS else turns[i - 1].after.view.books
      invariant Backtest.Backing(om, portfolio) >= old(portfolio.cash)
      invariant PaidIn(portfolio.State()) == old(PaidIn(portfolio.State()))
    {
      assert events[i] in events;
      Backtest.AdvanceClock(om, events[i].book.receivedAt);
      latestBooks := latestBooks[events[i].book.token := events[i].book];
      Backtest.OneMoreEvent(events, i);
      ghost var before := Backtest.StandingOf(om, portfolio);
      ProcessEvent(Backtest.Occasion("arb", Backtest.Arbitrage(config), events[i], latestBooks), om, portfolio);
      ghost var turn := Turn(before, Backtest.StandingOf(om, portfolio));
      TurnsOneMore(om.Settings(), config, events, start, turns, turn);
      turns := turns + [turn];
    }
  }

  method ProcessEvent(o: Backtest.Occasion, om: OM.OrderManager, portfolio: Portfolio)
    requires o.strategy.Arbitrage? && Backtest.Sensible(o.strategy) && Backtest.Ready(om)
    requires Backtest.Listed(o.event.market)
    requires forall t | t in o.latestBooks :: Backtest.Priced(o.latestBooks[t])
    modifies om, om.clock, om.exchange, om.wallet, portfolio
    ensures Backtest.Ready(om) && om.clock.now == old(om.clock.now)
    ensures Backtest.Backing(om, portfolio) >= old(Backtest.Backing(om, portfolio))
    ensures Backtest.Took(om.Settings(), o, old(Backtest.StandingOf(om, portfolio)),
                          Backtest.StandingOf(om, portfolio))
    ensures PaidIn(portfolio.State()) == old(PaidIn(portfolio.State()))
  {
    ghost var before := Backtest.StandingOf(om, portfolio);
    Backtest.ProcessSignalStrategy(o, om, portfolio);
    TurnKeepsPaidIn(om.Settings(), o, before, Backtest.StandingOf(om, portfolio));
    hide PaidIn, Backtest.Took;
  }

  /** Whatever the arbitrage does in its turn, nothing paid in is lost. */
  lemma TurnKeepsPaidIn(setting: OM.Setting, o: Backtest.Occasion, s: Backtest.Standing, s': Backtest.Standing)
    requires setting.limits.Valid() && o.strategy.Arbitrage? && Backtest.Took(setting, o, s, s')
    ensures PaidIn(s'.account) == PaidIn(s.account)
  {
    hide CompleteSet.Evaluated, CostBasis, Payoff.FillBasket, Backtest.Refused, LegPool.Booked, Backtest.Context;
    var config, market, time := o.strategy.config, o.event.market, o.event.book.receivedAt;
    var signal := CompleteSet.Evaluated(config, market, Backtest.Context(market, o.latestBooks));
    if s'.account != s.account {
      var n :| Backtest.SetsTaken(n, setting.limits, config, signal.value, market, time, o.name, s.account,
                                  s'.account, s.view.books, s'.view.books);
      BasketKeepsPaidIn(s.account, config, signal.value.legs, n, market, time, o.name);
    }
  }
}
