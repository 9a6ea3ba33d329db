# Verification model of the trading bot

A Dafny model of the bot's money path, with proofs. A strategy's signal goes
through the risk gate and the order manager to the exchange, comes back as
fills, and ends in portfolio accounting and settlement; the model follows it
there, module by module:

- `Risk`, `Sizing`, `Orders`, `LegPool`, `LegExecutor`, `Flattening`,
  `BasketRepair`, `OrderManager`, `Session`: the gate and everything behind it.
  The exchange is an oracle that answers each post and poll as it likes, may
  hide a taken order behind an error, and keeps a tape of what it really did; a
  truthful one takes exactly what it says it took. Every order posted and every
  poll is on record. The wallet may fail, and every answer it gave is on record;
  the clock never runs backwards. A basket's legs run as threads, one step at a
  time in any interleaving, the exposure update being separate reads and writes
  under a lock.
- `Portfolio`, `FillHistory`, `Checkpoint`, `Pruning`, `CheckpointRun`:
  accounting, and what checkpoints and deleted snapshots do to it.
- `CompleteSet`, `Payoff`, `Resolution`: the complete-set arbitrage from
  quotes to payout.
- `Backtest`, `QuotingBacktest`: the replay loop that ties order manager and
  portfolio together.
- `MarketMaking`, `BookClient`, `Metrics`: quoting, order-book reconstruction,
  drawdown.
- `Trading`, `RealFacts`, `Markets`: shared vocabulary.

Objects that the program updates in place are classes here (`Portfolio`,
`OrderManager`, `Clock`, `Wallet`, `Exchange`, `SignedOrder`,
`MarketMakingStrategy`, `BookState`, `ClobClient`, `DataStore`); each method is
proved against a function of the old state, and the laws are proved about those
functions and kept by every method. Money and shares are exact reals; rounding that the program does on
purpose (two-decimal order sizes, four-decimal idempotency keys, payouts
rounded to 0 or 1) is modelled as Python's round-half-even. An empty
`conditionId` stands for a missing one.

Where code and comments disagree the model follows the code. The pruning
script says that snapshots behind a checkpoint are never needed again;
`Pruning.PruneKeepsReplay` gives the exact condition, since a market whose last
row is deleted is no longer loaded. The order manager's introduction says that
exposure does not decrease; placing a flatten order does decrease it. The
geoblock latch stops entry orders only: a flatten order is posted whether or not
it is closed.

## Model

| member | source | states |
|---|---|---|
| `Portfolio.Portfolio.ApplyFill` | backtest/portfolio.py:40-88 | A fill of non-positive size is refused without a trace; any other moves cash, realized profit and its own position as `AfterFill` says, and is logged; `FillPays`, `FillEffects`, `TradeRealizes`, `TradeBalances` and `FillHistory.OneSidedCost` say what that is in prices, sizes and share counts. |
| `Portfolio.Portfolio.MovePosition` | backtest/portfolio.py:66-86 | The extend / reduce / close / flip arithmetic, written out by closing size and direction, is the signed-share specification `Trade`. |
| `Portfolio.Portfolio.MarkToMarket` | backtest/portfolio.py:90-98 | Equity is cash plus every position at its latest price, or at its own cost when it has none, in whatever order positions are visited. |
| `Portfolio.Portfolio.Settle` | backtest/portfolio.py:100-111 | The loop over resolutions computes `AfterSettle`; the fill log is untouched. |
| `Portfolio.SettleInAnyOrder` | backtest/portfolio.py:100-111 | Any resolution may be paid out first: settlement does not depend on dictionary order. |
| `Portfolio.SettledCash` | backtest/portfolio.py:100-111 | Settling pays every resolved share its payout and moves no other share and no other cash. |
| `Portfolio.SettledPositions` | backtest/portfolio.py:100-111 | Settling flattens exactly the resolved open positions and leaves every other position as it is, on file. |
| `Portfolio.TradeBalances` | backtest/portfolio.py:58-86 | Every branch of a trade moves cost basis by the cash paid plus the profit realized. |
| `Portfolio.TradeRealizes` | backtest/portfolio.py:66-86 | Opening or extending realizes nothing; closing or flipping realizes price less average cost on exactly the shares closed, told from share counts alone. |
| `Portfolio.FillPays` | backtest/portfolio.py:58-65 | A fill costs its price times its size, or brings it in, and its fee on top, or off. |
| `Portfolio.FillEffects` | backtest/portfolio.py:66-88 | Only the fill's own position moves, by its signed size, a new one filed under the fill's market; profit is realized on the shares closed. |
| `Portfolio.FillMoves` | backtest/portfolio.py:58-86 | A fill moves cash by its fee-inclusive cost and only its own token, by its signed size. |
| `Portfolio.AccountingIdentity` | backtest/portfolio.py:58-111 | Over every sequence of fills and settlements, any side, fee, flip or close: cash plus cost basis is initial cash plus realized profit. |
| `Portfolio.EquityIsProfit` | backtest/portfolio.py:90-98 | Over every run, equity is initial cash plus realized profit plus the unrealized profit of the positions that have a price. |
| `Portfolio.EquityAtCost` | backtest/portfolio.py:90-98 | Without prices the portfolio is valued at cash plus cost. |
| `Portfolio.EquityReprices` | backtest/portfolio.py:90-98 | A price values its own token's shares in place of their cost, and nothing else. |
| `FillHistory.TokensAreIndependent` | backtest/portfolio.py:66-86 | Two fill logs that agree token by token end in the same account, whatever the interleaving. |
| `FillHistory.TradeCost` | backtest/portfolio.py:66-86 | A trade leaves the average cost alone when reducing, sets it to the trade price when opening or flipping, and puts it between the two when extending. |
| `FillHistory.OneSidedCost` | backtest/portfolio.py:66-76 | Over every run of fills that keep to one side of a token, starting from none, average cost times shares is the sum of effective price times signed size, and none of them realizes anything. |
| `FillHistory.CostWithinOpeners` | backtest/portfolio.py:66-86 | Over every run, an open position's average cost lies between the least and greatest effective price of the fills that opened it, told from share counts alone. |
| `Checkpoint.RestorePortfolio` | scripts/checkpoint_and_prune.py:96-103 | The restored object is exactly what was saved, with an empty fill log. |
| `Checkpoint.FillPreserves` | scripts/checkpoint_and_prune.py:84-103 | A flat position dropped by a checkpoint has no influence on the fill that reopens it. |
| `Checkpoint.CheckpointTransparency` | scripts/checkpoint_and_prune.py:84-103 | Cutting any history of fills and settlements into any number of sessions gives the same cash, realized profit, open positions and valuation as the uninterrupted run. |
| `Checkpoint.SamePositions` | scripts/checkpoint_and_prune.py:84-103 | The open positions agree in every field, market id included, for every way of cutting every prefix, exactly when no fill reopens a closed position under another market. |
| `Pruning.ByTimeSorts` | data/store.py:172-197 | A replay is in time order and neither drops nor repeats a selected row. |
| `Pruning.ByTimeIsStable` | data/store.py:172-197 | Rows of one time come in the order in which they were recorded. |
| `Pruning.SelectedJoins` | data/store.py:172-197 | Row by row a replay selects those from its start on with a listed token, each as often as it was recorded and in that order. |
| `Pruning.ReplayedListed` | backtest/data_source.py:25-50 | A replay yields exactly the rows from its start on whose token some loaded market lists, oldest first. |
| `Pruning.ListedByRows` | backtest/data_source.py:25-42 | A token is listed exactly if some row belongs to a market whose metadata names it. |
| `Pruning.SinceJoins` | scripts/checkpoint_and_prune.py:167-172 | Row by row a deletion leaves those from the cutoff on, in their order. |
| `Pruning.PruneKeepsReplay` | scripts/checkpoint_and_prune.py:167-180 | Deleting rows behind a replay's start leaves the replay unchanged exactly when every listed token with a row from the start on is still listed by a market with a row left. |
| `Pruning.CheckpointAdvances` | scripts/checkpoint_and_prune.py:121-153 | The next checkpoint is never earlier than the old one nor than any replayed book, and is one of these times. |
| `Pruning.RunsCompose` | scripts/checkpoint_and_prune.py:106-180 | Runs of appends, refreshes and checkpoints are made of their steps, one after the other. |
| `Pruning.PruningIsInvisible` | scripts/checkpoint_and_prune.py:106-180 | Through any sequence of appends, metadata refreshes and checkpoint runs, with each token recorded under its one market (main.py:202-203), the checkpoint never moves back, is the one an unpruned log would have, and every replay from it sees the same books, markets and order. |
| `Pruning.StrayRowIsLost` | scripts/checkpoint_and_prune.py:113-127 | Without that recording rule pruning shows: a row filed under a market that does not list its token drops out of the replay. |
| `CheckpointRun.DataStore.SaveOrderBook` | data/store.py:92-111 | Appends the row and changes nothing else, as the step of the pruning model does. |
| `CheckpointRun.DataStore.SaveMarketMetadata` | data/store.py:113-156 | Replaces that market's metadata and changes nothing else, as the step of the pruning model does. |
| `CheckpointRun.DataStore.DeleteBefore` | scripts/checkpoint_and_prune.py:167-172 | Deletes exactly the rows before the cutoff and keeps the order of the rest. |
| `CheckpointRun.ReplayEvents` | backtest/data_source.py:35-50 | The replay's books, each with a loaded market that lists its token. |
| `CheckpointRun.CoherentEvents` | backtest/data_source.py:43-50 | When each token has one market, those events are determined: they are the replay. |
| `CheckpointRun.HeldResolutions` | scripts/checkpoint_and_prune.py:145-158 | Payouts are collected for exactly the open positions that a closed market among those held prices, each payout being one such market's. |
| `CheckpointRun.AllSettled` | scripts/checkpoint_and_prune.py:139-159 | After paying them no open position is left in a closed market that prices its token. |
| `CheckpointRun.RunOnce` | scripts/checkpoint_and_prune.py:106-180 | One run moves store and checkpoint as the pruning model says: the checkpoint is the last replayed time, and exactly the rows more than an hour behind it are deleted; the arbitrage takes its turn at every event since the checkpoint, from the restored account to the one settled, each turn starting where the last ended (what it does with the books it is shown: `CheckpointRun.RunTakesSets`); cash plus cost basis less realized profit is conserved through replay, settlement, saving and the dropping of flat positions; trading spends at most the portfolio cap; no open position of a resolved market is saved. |
| `CheckpointRun.RunTakesSets` | scripts/checkpoint_and_prune.py:113-137 | At every event of a run, with the last book of each of the market's outcomes at hand: if all are two-sided and a set clears the minimum edge, exactly the sets allowed are filled and booked unless refused; otherwise nothing moves. |
| `Resolution.ResolvesExactly` | backtest/data_source.py:53-72 | A resolution is inferred exactly for a closed market with one price per token, all extreme and exactly one of them high. |
| `Resolution.LastPriceRounded` | backtest/data_source.py:70-72 | A token's payout is its last listed price rounded to the nearest whole dollar. |
| `Resolution.SingleWinnerPayouts` | backtest/data_source.py:70-72 | The inferred payouts are one 1 and otherwise 0 if and only if every price lies in [-0.5, 1.5), and then the 1 is for the only price of at least 0.99. |
| `CompleteSet.Evaluate` | signals/complementary_outcomes.py:62-95 | The loop over the outcomes, with its early exits and its dictionaries keyed by token, computes the buy-first-then-sell evaluation. |
| `CompleteSet.Thinnest` | signals/complementary_outcomes.py:105-111 | The size limit is attained by one of the quotes and exceeds none. |
| `CompleteSet.FiresExactly` | signals/complementary_outcomes.py:62-153 | A signal fires exactly when at least two outcomes all have both sides in their books and buying or selling a set clears the minimum edge; it buys exactly when buying clears it. |
| `CompleteSet.CheapSetFires` | signals/complementary_outcomes.py:97-127 | It does fire: two outcomes asked at 40 and 50 cents leave an edge of 8.2 cents after a 2% fee. |
| `CompleteSet.SignalLegs` | signals/complementary_outcomes.py:97-153 | A fired signal has one leg per outcome, distinct tokens, all on one side, each at the best price of its book. |
| `CompleteSet.SignalEdge` | signals/complementary_outcomes.py:97-153 | Its edge is what those prices and their fees leave of the guaranteed dollar, and exceeds the configured minimum. |
| `CompleteSet.DepthLimit` | signals/complementary_outcomes.py:105-111 | The size limit never exceeds the size at the top of any outcome's book. |
| `CompleteSet.DepthAttained` | signals/complementary_outcomes.py:105-153 | It is attained at some outcome, and the confidence is that of the edge. |
| `CompleteSet.Confidence` | signals/complementary_outcomes.py:155-166 | None without an edge, full from four times the minimum edge on, in proportion between. |
| `CompleteSet.FeeIsNotional` | signals/complementary_outcomes.py:44-60 | The fee rate times the price is the fee per share, for both fee formulas. |
| `CompleteSet.ScheduledFee` | signals/complementary_outcomes.py:44-53 | A scheduled fee is the rate times a power of price times its complement, the first power without an exponent. |
| `CompleteSet.UnscheduledFee` | signals/complementary_outcomes.py:44-53 | Without a schedule it is the fallback rate on the price. |
| `CompleteSet.FeeNonNegative` | signals/complementary_outcomes.py:44-53 | No price in (0, 1] and no fee exponent gives a negative fee. |
| `Payoff.BasketPaysEdge` | backtest/engine.py:239-253 | Any one-sided basket whose edge is what prices and fees leave of a dollar raises settled cash by exactly n times that edge, from any account, whenever its legs pay one dollar in all. |
| `Payoff.EdgeIsProfit` | signals/complementary_outcomes.py:97-153 | The edge of any quotes, fired on or not, is what one set of them earns, fees included, whenever the outcomes pay one dollar in all. |
| `Payoff.GuaranteedPayoff` | signals/complementary_outcomes.py:97-153 | A basket of n sets filled on a fired signal, bought or sold, raises the cash left after settlement by exactly n times its edge, from any account, whenever the outcomes pay one dollar in all. |
| `Payoff.ResolvedPayoff` | backtest/data_source.py:53-72 | The same from signal to inferred resolution, whichever outcome won. |
| `Risk.CheckOrder` | execution/risk.py:75-110 | The approved amount fits all three caps and the request, no larger positive amount does; there is a reason exactly when it is not what was asked for, and each kind of reason exactly when its own cap or the request calls for it. |
| `Risk.EffectiveLimits` | execution/order_manager.py:160-175 | Only the portfolio cap moves: without a known balance it stays, with one it is exactly the smaller of the cap and the balance, but not below zero. |
| `Sizing.KellyIsGrowthOptimal` | execution/sizing.py:55-65 | For 0 < price < fair < 1 the full fraction is where the derivative of expected log growth changes sign, and its only zero. |
| `Sizing.FullStakeIsOptimal` | execution/sizing.py:24-83 | The full stake on a bought edge is where expected log growth peaks at a fair price of price plus edge; a certain win stakes the whole bankroll, no edge nothing. |
| `Sizing.StakeInProportion` | execution/sizing.py:44-83 | The stake is the full one times confidence times the Kelly fraction, cut at the configured share of the bankroll. |
| `Sizing.SidesMirror` | execution/sizing.py:34-83 | Selling at a price is sized as buying at one minus the price. |
| `Sizing.StakeBounded` | execution/sizing.py:44-83 | The stake lies between nothing and the configured share of the bankroll. |
| `Sizing.StakeMonotone` | execution/sizing.py:34-83 | The stake never shrinks when the edge or the confidence grows. |
| `Orders.PlaceOrder` | execution/orders.py:77-137 | One order, signed once: one to three posts, again only after a transient failure, the last reply deciding; no pause, one second, or three in all. The exchange takes it at most once, for at most its size, even if it took an order it answered with an error; a truthful exchange took it exactly under the id returned. |
| `Orders.TryAgain` | execution/orders.py:63-67 | Posted again exactly after an error without a status, a 429, or a server error. |
| `Orders.Verdict` | execution/orders.py:69-75 | Accepted exactly if not rejected, with the reply's id; geo-restricted exactly on a 403 that says so. |
| `LegPool.MoveTally` | execution/order_manager.py:126-131 | One step of one thread writes only what it accounts for, touches the exposure tables only inside the lock, and takes or frees the lock only for itself. |
| `LegPool.RunAccounted` | execution/order_manager.py:126-131 | Under every interleaving the lock protects what a thread has read, and the tables are the starting values plus what the threads have written. |
| `LegPool.NoLostUpdate` | execution/order_manager.py:126-131 | Whenever the lock is free, market and total exposure are the starting values plus the accepted legs' notionals, no other market has moved, and the total is the sum over the markets if it was at the start. |
| `LegPool.GeoblockLatches` | execution/order_manager.py:639-669 | The latch closes exactly when a post is answered with the geoblock, and never opens. |
| `LegPool.MarkSpaced` | execution/order_manager.py:684-691 | Recording a key that is no duplicate keeps submissions of one key a time-to-live apart. |
| `LegPool.DuplicateIsRecent` | execution/order_manager.py:684-691 | A key is a duplicate exactly when its last submission is less than the time-to-live ago. |
| `LegPool.KeyIsNearest` | execution/order_manager.py:694-697 | Price and size enter a key as the nearest whole number of ten-thousandths. |
| `LegPool.SameKeyIsClose` | execution/order_manager.py:694-697 | Orders with one key agree in token, side and strategy, and in price and size to a ten-thousandth. |
| `LegPool.RunFresh` | execution/order_manager.py:603-642 | Under every interleaving of distinct keys a leg's duplicate check still holds when it records its key, and only keys of the basket change. |
| `LegPool.TableIsLog` | execution/order_manager.py:603-691 | Under every interleaving the idempotency table is the starting one with the log written over it, and the log holds exactly one mark for each leg recorded so far, made during the run. |
| `LegExecutor.ExactBooking` | execution/order_manager.py:326-342 | When all threads have finished exactly the accepted legs' notionals are booked, in the basket's market and in the total. |
| `LegExecutor.SpacingKept` | execution/order_manager.py:684-691 | Submissions of one key, earlier ones included, stay a time-to-live apart under every interleaving. An accepted leg's key is in the table at a time of the run at which it was no duplicate; a leg turned away or failed changes nothing; a leg is turned away if its key still is a duplicate at the end, and only if it was one at the start. |
| `LegExecutor.SpacingNeedsDistinctKeys` | execution/order_manager.py:326-342 | For a positive time-to-live, every interleaving keeps the spacing exactly when the basket repeats no key (or nothing is sent because of the geoblock). |
| `LegExecutor.DryRunIsAtomic` | execution/order_manager.py:299-342 | In a dry run a basket of distinct keys that are no duplicates up front is submitted whole under every interleaving. |
| `LegExecutor.SomeoneCanMove` | execution/order_manager.py:126-131 | No deadlock: while a thread is unfinished some thread can move. |
| `LegExecutor.StepTraced` | execution/order_manager.py:574-682 | Every step keeps what each leg's token gained on the exchange equal to what that leg's order filled. |
| `LegExecutor.RunPool` | execution/order_manager.py:326-342 | The pool, its threads picked in any order, runs to the end along a legal run. Each leg's own order and nothing else is posted, one to three times if it was sent, never as a duplicate; a leg fails only because of the geoblock or after being posted. What each leg's token gained is within its size, and with a truthful exchange exactly its order's fill; other tokens and earlier orders stay as they were. The latch is closed exactly if it was or a geoblock was met since, and while it is closed, or in a dry run, nothing is posted. |
| `OrderManager.OrderManager.LiveBalanceUsd` | execution/order_manager.py:135-158 | A cached balance younger than the cache time is returned without asking. Otherwise the wallet is asked exactly once: an answer is returned and cached with its time, and only after a failure the last known value is returned, or none. |
| `OrderManager.OrderManager.EffectiveRiskLimits` | execution/order_manager.py:160-175 | The limits used are the configured ones lowered to the balance, the wallet having been asked if the cached balance was missing or too old. |
| `OrderManager.BookedKeepsLedger` | execution/order_manager.py:126-131 | Booking within the room left keeps every market and the total within the caps and the total equal to the sum over markets. |
| `OrderManager.ExposureMoves` | execution/order_manager.py:113-131 | A market's exposure is what has been booked for it, nothing at first and nothing without a market. |
| `OrderManager.OrderManager.SubmitLegs` | execution/order_manager.py:574-682 | Leg by leg the decision tells what became of it. Exactly the accepted legs are booked, and the submission log grows by exactly one mark for each, with the idempotency table following the log; a leg whose key is still a recent one is turned away, an accepted one was none; exactly the legs' own orders are posted, a live accepted one at least once, and none fails unposted unless geoblocked; a geoblock closes the latch; caps, ledger sum and key spacing are kept. |
| `OrderManager.OrderManager.EvaluateAndSubmit` | execution/order_manager.py:537-572 | Rejected outright, with nothing changed or asked of the exchange, exactly when the gate approves nothing; otherwise an order worth exactly the approved amount, and nothing else, is posted at most three times. A recent key is turned away and only a recent one is; an accepted key was none, is recorded in table and log and, live, was posted; any other decision records nothing, and a failed one was geoblocked or posted. Its token gains at most its size, with a truthful exchange exactly the fill of the id given. Once accepted the total is within the cap or balance used. |
| `OrderManager.OrderManager.HandleSignal` | execution/order_manager.py:179-219 | Rejected exactly when the signal names no token, its side of the book is empty, Kelly asks for nothing at the best price offered there, or the gate approves nothing; the wallet is not asked before the gate is. Otherwise an order at that price, for a buy an ask that none undercuts and for a sell a bid that none exceeds, worth exactly what the gate approves of the Kelly size within the limits of the refreshed balance; a recent key turned away, an accepted one booked, recorded and, live, posted and filled at most its size, a failed one geoblocked or posted. |
| `OrderManager.OrderManager.HandleQuote` | execution/order_manager.py:518-533 | One decision per quoted side, each worth exactly what the gate approves of the quote within the limits of the balance refreshed at its turn, the ask decided on tables, keys, time and wallet the bid leaves behind; recent keys are turned away, exactly the accepted ones booked and recorded, and only their orders posted. |
| `OrderManager.QuotedSize` | execution/order_manager.py:518-572 | A quoted side is ordered at its price and at no more than its size, and at exactly that size when its worth fits under every cap. |
| `OrderManager.OrderManager.HandleMultiLegSignal` | execution/order_manager.py:223-344 | Sized once for the whole set with its fees: every leg at one share count, the smaller of approved amount over cost per set and the size limit. Records exactly the accepted legs' keys, recent ones turned away; posts exactly the legs' orders and then the closing orders of the repair, failed legs being geoblocked or posted. Books the accepted legs less exactly the worth of the closing orders placed, at most the order cap and within the balance used. Earlier orders keep their fills, holdings move by the legs' fills and then by the closings'; with a truthful exchange what the legs' tokens gained is what their orders matched, and from there the repair hedges. In a dry run all legs or none, booking exactly the sets' cost, the exchange untouched. Refused whole only if there is nothing to size or a leg of the allowed size is a recent key. |
| `OrderManager.RecoveredRate` | execution/order_manager.py:285-285 | The recovered rate, applied to each leg's notional, adds up to the whole cost of the sets. |
| `OrderManager.BasketBudget` | execution/order_manager.py:246-285 | At that rate every leg's notional is non-negative and together they are exactly the sets' cost with fees. |
| `OrderManager.OrderManager.AnyDuplicate` | execution/order_manager.py:299-320 | Without a report no leg is a duplicate now; with one, some leg was one at the start. |
| `OrderManager.OrderManager.PollOrderFill` | execution/order_manager.py:349-381 | One to five polls; with a truthful exchange an answer is the true fill; None only after a poll really went unanswered, a zero fill only after five. |
| `OrderManager.OrderManager.PlaceFlattenOrderWithRetry` | execution/order_manager.py:482-514 | At most five placements of at most three posts each, whether or not the geoblock latch is closed, leaving latch and keys alone. Either one closing order is placed and exactly its worth is released, or five were refused and nothing is; with a truthful exchange the fill is that one order's and at most its size. |
| `OrderManager.OrderManager.FlattenUntilClear` | execution/order_manager.py:448-480 | At most five rounds, each ordering a positive whole number of cents of a share within half a cent of what the reported fills leave, at the given price, until that is zero or less (`cleared`) or five were run; nothing else is posted, each round one to fifteen times; exactly the worth of the orders placed is released; the holding moves by the rounds' fills; with a truthful exchange each fill is within its order and reported as it is unless a poll went unanswered. |
| `OrderManager.OrderManager.ReconcileMultiLegFills` | execution/order_manager.py:383-443 | A leg without an order counts as zero, a fill stays unknown only after an unanswered poll. Each known leg's excess over the smallest known fill, if above 1e-6, is closed in such rounds. Whatever is posted closes a leg, its token on the other side, sold at 0.01 or bought at 0.99, for a positive whole number of cents of a share; exactly the worth of the orders placed is released; holdings move by those fills only and earlier orders keep theirs. With a truthful exchange, once every flatten has cleared with its polls answered, each known leg ends within 0.01 share of the smallest known fill; incomplete only after an unanswered poll or five rounds. |
| `OrderManager.RepairReleases` | execution/order_manager.py:419-502 | With a truthful exchange a repair releases at most five times the worth of each leg's rounded excess, and nothing when all known fills are equal. |
| `Flattening.NeverOversold` | execution/order_manager.py:459-480 | However many rounds are run, rounding never sells more than half a cent of a share too much, and what is left never grows. |
| `Trading.RoundCents` | execution/order_manager.py:433-470 | The nearest whole number of cents, ties to the even one. |
| `Flattening.ClearedIsHedged` | execution/order_manager.py:419-443 | Clearing, with the rounding of the excess itself, leaves the leg within one cent of a share of its target. |
| `Flattening.ReturnedAsSold` | execution/order_manager.py:482-502 | A flatten releases at least the worth of what it sold, and exactly that if and only if every closing order placed was filled whole. |
| `BasketRepair.OwnMove` | execution/order_manager.py:414-443 | With one closing per token, each token's holding moves by its own closing's fills, on the closing side. |
| `BasketRepair.FinishedIsHedged` | execution/order_manager.py:414-443 | A finished closing has sold the excess to within 0.01 share, the excesses too small to order included. |
| `BasketRepair.PostedCloses` | execution/order_manager.py:419-443 | Every order posted on the way closes some leg at 0.01 or 0.99, for a positive whole number of cents of a share. |
| `Session.Serve` | main.py:249-299 | Over every run mixing the three entry points, whatever exchange, wallet and clock do: every request is handled as its entry point decides, from where the one before it left off, within the limits of the balance the wallet gave; live baskets are posted, filled and repaired as above; after each request all caps hold, the total is the sum over markets and, after an approval, within the limits used; no request books more than its orders' cap; and two accepted decisions of one key are at least a time-to-live apart on the clock. |
| `Session.AcceptancesSpaced` | execution/order_manager.py:684-691 | Whenever every request's accepted decisions, and only they, enter a spaced log, no key is accepted twice within a time-to-live. |
| `Backtest.BasketFilled` | backtest/engine.py:239-253 | A basket accepted whole is filled whole, leg by leg, at the fee its strategy charges for each price. |
| `Backtest.BasketBacked` | backtest/engine.py:239-253 | The cash a bought basket costs, per-leg fees included, is exactly the exposure booked for it; a sold one costs no more. |
| `Backtest.OrderBacked` | backtest/engine.py:239-253 | A fee-free order costs no more cash than the exposure booked for it, a bought one exactly that. |
| `Backtest.ArbitrageSignal` | backtest/engine.py:222-231 | What the arbitrage signals is always a basket the order manager can size: distinct tokens, positive prices, its fees the sum of its legs'. |
| `Backtest.ProcessSignalStrategy` | backtest/engine.py:210-253 | One turn never lowers cash plus booked exposure. Without a signal nothing moves; a fired basket is refused exactly when there is nothing to size or a leg of the allowed size repeats, and otherwise filled and booked as exactly the whole sets allowed (on which books: `Backtest.ArbitrageTurn`); a single-token signal is decided by the gate, and filled exactly if accepted, whole, at its price, without a fee. |
| `Backtest.LatestIsLast` | backtest/engine.py:155-155 | The latest book of a token is that of its last event so far, and there is one exactly if it had an event. |
| `Backtest.ArbitrageTurn` | backtest/engine.py:210-253 | Shown for each listed outcome exactly the book of its last event: if all are two-sided and a set clears the minimum edge on some side, the turn fills and books exactly the sets allowed, unless refused; otherwise nothing moves. |
| `Backtest.ReplayOne` | backtest/engine.py:150-174 | The clock moves to the event, only a two-sided book reprices its token, every strategy takes its turn, one after the other, and the portfolio is valued at the trusted prices. |
| `Backtest.RunSingle` | backtest/engine.py:128-181 | In every signal-strategy run the trail shows every strategy's turn at every event, each starting where the one before ended; before, between and after the turns cash is at least initial cash less booked exposure and exposure is within the cap, so cash is never negative when the initial cash is no less than the cap; the equity curve shows each standing at the prices trusted by then; at the end exactly the inferred resolutions are settled. |
| `Backtest.RunTakesSets` | backtest/engine.py:128-174 | So it is at every arbitrage turn of every event of a whole run. |
| `Backtest.TrustedIsLastMid` | backtest/engine.py:156-167 | A token is priced exactly if it had a two-sided book, halfway between dearest bid and cheapest ask of the last one. |
| `Backtest.LastMarketPays` | backtest/engine.py:198-204 | The payouts are those of the last market that resolves each token, and of no other token. |
| `QuotingBacktest.FillCrossedQuote` | backtest/engine.py:314-348 | A resting ask fills exactly if some bid is as high, then a resting bid exactly if some ask is as low, each whole, at its own price, in the book's market at its time, without a fee; strategy and portfolio move alike. |
| `QuotingBacktest.CrossingPays` | backtest/engine.py:314-348 | Cash moves by the crossed ask's price times size, less the crossed bid's; cash plus cost basis less realized profit does not move. |
| `QuotingBacktest.ApprovedQuotePair` | backtest/engine.py:282-311 | Each side rests as approved, as before when the order was a duplicate, and not at all after a hard rejection. |
| `QuotingBacktest.RestingPositive` | backtest/engine.py:300-310 | Whatever rests has a positive size, carried-forward quotes included. |
| `QuotingBacktest.ProcessMarketMaking` | backtest/engine.py:264-279 | One event fills what the book crossed, as `FillCrossedQuote` does and nothing else, quotes anew from the resulting inventory, has the gate decide each side exactly, and leaves resting what the decisions say; no other token's quote changes. |
| `QuotingBacktest.RunQuoting` | backtest/engine.py:264-348 | In an isolated run with a fresh strategy, at every event the strategy quotes from the inventory it then holds, the gate decides each side on the tables the event before left, and what the decisions leave resting is what the next book may cross; after any events the inventory equals the portfolio's shares for every token, and both are what the crossed quotes gained; cash is the initial cash plus crossed asks' price times size less crossed bids', and cash plus cost basis is initial cash plus realized profit. |
| `MarketMaking.SpreadWidens` | signals/market_making/spread.py:38-81 | The half-spread never narrows as time runs out, inventory skews or volatility rises, and stays between the base (if below the ceiling) and the ceiling. |
| `MarketMaking.TimeEffect` | signals/market_making/spread.py:38-81 | At the resolution alone the base spread widens by the time factor's maximum. |
| `MarketMaking.SkewEffect` | signals/market_making/spread.py:52-81 | Skew alone widens it in proportion, up to its maximum at full skew on either side, not at all without skew. |
| `MarketMaking.VolatilityEffect` | signals/market_making/spread.py:61-81 | Volatility alone widens it in proportion. |
| `MarketMaking.EffectsMultiply` | signals/market_making/spread.py:68-81 | Below the ceiling all three together widen it by the product of what each does alone. |
| `MarketMaking.TimeFactorMonotone` | signals/market_making/spread.py:38-49 | The time factor is at least one, never falls as time runs out, and peaks at its configured maximum. |
| `MarketMaking.TimeFactorLinear` | signals/market_making/spread.py:38-49 | It is one up to the horizon and falls on a straight line from its maximum at the resolution. |
| `MarketMaking.CappedQuoteSizes` | signals/market_making/strategy.py:96-106 | Each side is quoted at the largest size within the room left to the cap, the quote size and the order cap. |
| `MarketMaking.InventorySkew` | signals/market_making/strategy.py:108-109 | The position as a share of the cap, at most all of it on either side. |
| `MarketMaking.MidPrice` | data/models.py:33-43 | Halfway between dearest bid and cheapest ask, the best of the only side, none without any. |
| `MarketMaking.InventoryCapped` | signals/market_making/strategy.py:96-106 | Over every run of rounds, fills in either order, the position never leaves the cap, not even between the two fills of a round. |
| `MarketMaking.QuotesStraddleMid` | signals/market_making/strategy.py:88-93 | A positive spread straddles a positive mid; the bid is positive exactly when the spread is below one hundred percent. |
| `MarketMaking.QuotesCentred` | signals/market_making/strategy.py:82-93 | The quotes lie evenly around the mid, each so many basis points of it away. |
| `MarketMaking.SpreadStraddles` | signals/market_making/strategy.py:82-93 | With widening factors and a ceiling below one hundred percent every computed spread straddles every positive mid. |
| `MarketMaking.MarketMakingStrategy.RecordFill` | signals/market_making/models.py:31-37 | Only the filled token's inventory moves, by the signed size; a negative size is refused. |
| `MarketMaking.MarketMakingStrategy.Quote` | signals/market_making/strategy.py:59-94 | A side is quoted exactly when it has room, at the mid plus or minus the half-spread; no mid, no quotes. |
| `MarketMaking.RunRounds` | signals/market_making/strategy.py:53-106 | Over every run of the strategy itself, every tick quoted as the formula says at the position held then, quotes filled up to their size in either order: the inventory moves by exactly those fills and stays within the cap at every moment, other tokens do not move, and every quote on a positive mid has 0 < bid < mid < ask. |
| `Markets.TransactingPrice` | execution/order_manager.py:699-706 | A buy trades at the price of an ask that no ask undercuts, a sell at that of a bid that no bid exceeds, and at none exactly when its side is empty. |
| `Markets.FirstAmongEquals` | data/models.py:25-31 | The best level, and the size offered with it, is the first listed at its price. |
| `BookClient.LastWriterWins` | data/ws_client.py:177-210 | After any log a token is tracked exactly if it was snapshotted, and each level's size is its last writer's: the last change since the token's last snapshot, else that snapshot; none if that change was zero, and changes before a snapshot do not count. |
| `BookClient.TokensAreIndependent` | data/ws_client.py:177-210 | A token's levels depend only on its own writes. |
| `BookClient.SortedLevels` | data/ws_client.py:52-58 | The list shows exactly the table's levels, strictly sorted. |
| `BookClient.BookState.ToOrderBook` | data/ws_client.py:52-60 | Bids are listed dearest first, asks cheapest first, exactly the tables' levels. |
| `BookClient.FirstIsBest` | data/ws_client.py:52-58 | The first level of an emitted book is its best. |
| `BookClient.ClobClient.HandleEvent` | data/ws_client.py:153-175 | The per-token book objects, never shared, hold after each message what the message specification says; a book is emitted exactly for a snapshot's token or for that of the last change to a tracked token, and shows that token's tables. |
| `BookClient.LastTracked` | data/ws_client.py:192-210 | The token of the last change that names a tracked token. |
| `BookClient.ClobClient.ApplySnapshot` | data/ws_client.py:177-190 | Replaces both tables of the token and of no other, and shows them. |
| `BookClient.ClobClient.ApplyDelta` | data/ws_client.py:192-210 | Applies the changes one by one, ignoring tokens never snapshotted, and shows the book of the last one applied. |
| `Metrics.MaxDrawdown` | backtest/metrics.py:57-69 | The one pass finds the greatest decline from the running peak, zero for a curve that never declines. |
| `Metrics.WorstOverAllPairs` | backtest/metrics.py:57-69 | For a non-negative curve that is the worst decline over all pairs of an earlier positive value and a later value, and at most one. |
| `Metrics.PeakIsWorst` | backtest/metrics.py:65-68 | At one point the decline from the running peak is the worst of all pairs ending there exactly when the value is not negative or every positive value so far is as high as the peak. |
| `Metrics.CoversAllPairs` | backtest/metrics.py:57-69 | For a whole curve, negative values included, the reported drawdown covers every pair exactly when no pair declines or some worst pair starts at the running peak of its end. |
| `Metrics.NegativeCurveDiffers` | backtest/metrics.py:57-69 | For a curve that goes below zero the pairwise maximum can be larger. |

## Left out

- Floating point: all arithmetic is on exact reals, so float noise below the explicit roundings is not modelled.
- OrderManager.OrderManager.HandleMultiLegSignal: requires one leg per token, non-negative prices and a non-negative fee, which every complete-set signal satisfies (`Backtest.ArbitrageSignal`); `LegExecutor.SpacingNeedsDistinctKeys` shows why a repeated leg must be excluded.
- OrderManager.OrderManager.ReconcileMultiLegFills: hedging is stated for a truthful exchange, one that takes exactly the orders it reports as taken and never misreports a fill; its polls may still go unanswered, and unknown legs are not claimed to be hedged. Behind an order hidden by an error no code without the id can hedge; what it can fill is bounded (`LegExecutor.RunPool`).
- OrderManager.OrderManager.PlaceFlattenOrderWithRetry: with an exchange that hides taken orders behind errors each of the five separately signed orders may be filled, so the fill is bounded by five sizes only. It releases the whole size of a closing order that then fills only in part, as the code does (`Flattening.ReturnedAsSold`), so exposure may fall below what is really held, and below zero.
- QuotingBacktest.RunQuoting: no inventory cap is claimed, because a quote carried forward from a duplicate may be larger than the room left now.
- Metrics.WorstOverAllPairs: stated for non-negative curves; `Metrics.PeakIsWorst` and `Metrics.CoversAllPairs` say when it holds below zero, point by point and for whole curves.
- Pruning.PruningIsInvisible: speaks of the books a replay yields, not of the fresh order manager each run starts with, whose empty ledger is the code's own behaviour; rows with equal times come in insertion order.
- Backtest.RunSingle: covers the complete-set arbitrage and fee-free strategies of one token; a market maker in the same run can short and so is modelled by itself in `QuotingBacktest`.
- CheckpointRun.RunOnce: takes recorded prices to lie in (0, 1], fee rates to be non-negative and metadata to sit under its own market id, as the recorder writes them; so do the backtest runs.
- MarketMaking.RunRounds: takes spread factors that widen and a ceiling below one hundred percent, as the defaults are; `MarketMaking.QuotesStraddleMid` says what happens beyond.
- Idempotency keys are compared as tuples; the truncated hash is taken to be collision-free.
- In the leg threads a table access and its clock reading are one step; lock waits are fair to no one.
- Live mode without a client, which raises an error, cannot be expressed.
- Portfolio positions are values in a map; aliasing of one position object from outside is not modelled.
- Signing, order types (GTC, FOK, FAK), geoblock and account checks at startup, and order cancellation.
- Rejection texts and logging; reasons are kept only as the kinds of cut that were applied.
- Predictions, Brier score, log loss and Sharpe ratio: sums over lists, or square roots and logarithms.
- The volatility window and the hours to resolution are inputs to the market maker; the standard deviation and the calendar arithmetic are not modelled.
- Exchange timestamps and book hashes, WebSocket connection handling, JSON and SQLite plumbing, and rows that fail to parse.
- News signals, the language-model assessor, the market screener, reports and the command line.
- A checkpoint run that fails half-way and is retried, and the first run's bounded start window.
