/** The table of recorded snapshots: replaying it from a checkpoint, and deleting the rows that
    lie behind one. */
module Pruning {
  import opened Trading
  import opened Markets

  /** The recorded snapshots in the order they were written, and each market's latest metadata. */
  datatype Log = Log(rows: seq<OrderBook>, metadata: map<string, Market>)

  // ---- what a replay sees --------------------------------------------------------------------

  /** Markets are found through the snapshots: one without a row left is not loaded. */
  function Loaded(log: Log): set<string> {
    set r | r in log.rows && r.conditionId in log.metadata :: r.conditionId
  }

  function ListedTokens(log: Log): set<string> {
    set c, t | c in Loaded(log) && t in log.metadata[c].tokenIds :: t
  }

  /** The rows of some tokens received at `start` or later. */
  function Selected(rows: seq<OrderBook>, start: real, tokens: set<string>): seq<OrderBook> {
    if rows == [] then []
    else
      var last := rows[|rows| - 1];
      Selected(rows[..|rows| - 1], start,
               tokens) + if last.receivedAt >= start && last.token in tokens then [last] else []
  }

  /** Inserted after every row that is not later. */
  function Insert(sorted: seq<OrderBook>, book: OrderBook): seq<OrderBook> {
    if sorted == [] || sorted[|sorted| - 1].receivedAt <= book.receivedAt then sorted + [book]
    else Insert(sorted[..|sorted| - 1], book) + [sorted[|sorted| - 1]]
  }

  function ByTime(rows: seq<OrderBook>): seq<OrderBook> {
    if rows == [] then [] else Insert(ByTime(rows[..|rows| - 1]), rows[|rows| - 1])
  }

  /** The market a listed token belongs to. */
  ghost function MarketOf(log: Log, token: string): Market
    requires token in ListedTokens(log)
  {
    var c :| c in Loaded(log) && token in log.metadata[c].tokenIds;
    log.metadata[c]
  }

  /** The books a replay from `start` yields, oldest first. */
  function ReplayedBooks(log: Log, start: real): seq<OrderBook> {
    ByTime(Selected(log.rows, start, ListedTokens(log)))
  }

  /** The same with the market of each book. */
  ghost function Replay(log: Log, start: real): seq<ReplayEvent> {
    var books := ReplayedBooks(log, start);
    ReplayedListed(log, start);
    seq(|books|, i requires 0 <= i < |books| => ReplayEvent(books[i], MarketOf(log, books[i].token)))
  }

  lemma {:induction false} SelectedRows(rows: seq<OrderBook>, start: real, tokens: set<string>)
    ensures forall r :: r in Selected(rows, start, tokens) <==> r in rows && r.receivedAt >= start && r.token in tokens
  {
    if rows != [] {
      var k := |rows| - 1;
      SelectedRows(rows[..k], start, tokens);
      assert rows == rows[..k] + [rows[k]];
    }
  }

  ghost predicate InTimeOrder(rows: seq<OrderBook>) {
    forall i, j | 0 <= i < j < |rows| :: rows[i].receivedAt <= rows[j].receivedAt
  }

  lemma {:induction false} InsertKeepsRows(sorted: seq<OrderBook>, book: OrderBook)
    ensures multiset(Insert(sorted, book)) == multiset(sorted) + multiset{book}
  {
    if sorted != [] && sorted[|sorted| - 1].receivedAt > book.receivedAt {
      var k := |sorted| - 1;
      InsertKeepsRows(sorted[..k], book);
      assert sorted == sorted[..k] + [sorted[k]];
    }
  }

  lemma AppendLatest(rows: seq<OrderBook>, latest: OrderBook)
    requires InTimeOrder(rows) && forall r | r in rows :: r.receivedAt <= latest.receivedAt
    ensures InTimeOrder(rows + [latest])
  {
  }

  lemma {:induction false} InsertSorts(sorted: seq<OrderBook>, book: OrderBook)
    requires InTimeOrder(sorted)
    ensures InTimeOrder(Insert(sorted, book))
  {
    if sorted != [] && sorted[|sorted| - 1].receivedAt > book.receivedAt {
      var k := |sorted| - 1;
      var rest := Insert(sorted[..k], book);
      InsertSorts(sorted[..k], book);
      InsertKeepsRows(sorted[..k], book);
      hide InTimeOrder, Insert;
      forall r | r in rest ensures r.receivedAt <= sorted[k].receivedAt {
        assert r in multiset(rest);
        if r != book {
          NotLater(sorted, r);
        }
      }
      AppendLatest(rest, sorted[k]);
      InsertEarlier(sorted, book);
    }
  }

  lemma NotLater(sorted: seq<OrderBook>, row: OrderBook)
    requires InTimeOrder(sorted) && sorted != [] && row in sorted[..|sorted| - 1]
    ensures row.receivedAt <= sorted[|sorted| - 1].receivedAt
  {
  }

  lemma InsertEarlier(sorted: seq<OrderBook>, book: OrderBook)
    requires sorted != [] && sorted[|sorted| - 1].receivedAt > book.receivedAt
    ensures Insert(sorted, book) == Insert(sorted[..|sorted| - 1], book) + [sorted[|sorted| - 1]]
  {
  }

  /** A replay is in time order and neither drops nor repeats a selected row. */
  lemma {:induction false} ByTimeSorts(rows: seq<OrderBook>)
    ensures InTimeOrder(ByTime(rows)) && multiset(ByTime(rows)) == multiset(rows)
  {
    if rows != [] {
      var k := |rows| - 1;
      assert rows == rows[..k] + [rows[k]];
      ByTimeSorts(rows[..k]);
      InsertSorts(ByTime(rows[..k]), rows[k]);
      InsertKeepsRows(ByTime(rows[..k]), rows[k]);
    }
  }

  /** The rows of one time, in the order in which they stand. */
  function RowsAt(rows: seq<OrderBook>, time: real): seq<OrderBook> {
    if rows == [] then []
    else
      var last := rows[|rows| - 1];
      RowsAt(rows[..|rows| - 1], time) + if last.receivedAt == time then [last] else []
  }

  lemma RowsAtJoin(rows: seq<OrderBook>, last: OrderBook, time: real)
    ensures RowsAt(rows + [last], time) == RowsAt(rows, time) + IfAt(last, time)
  {
    assert (rows + [last])[..|rows|] == rows;
  }

  /** A row if it is of this time. */
  function IfAt(row: OrderBook, time: real): seq<OrderBook> {
    if row.receivedAt == time then [row] else []
  }

  lemma {:induction false} InsertedLast(sorted: seq<OrderBook>, book: OrderBook, time: real)
    ensures RowsAt(Insert(sorted, book), time) == RowsAt(sorted, time) + IfAt(book, time)
  {
    hide RowsAt;
    if sorted == [] || sorted[|sorted| - 1].receivedAt <= book.receivedAt {
      RowsAtJoin(sorted, book, time);
    } else {
      var k := |sorted| - 1;
      var last := sorted[k];
      InsertedLast(sorted[..k], book, time);
      RowsAtJoin(Insert(sorted[..k], book), last, time);
      RowsAtJoin(sorted[..k], last, time);
      assert sorted == sorted[..k] + [last];
      assert IfAt(book, time) + IfAt(last, time) == IfAt(last, time) + IfAt(book, time);
    }
  }

  /** Rows of one time come in the order in which they were recorded. */
  lemma {:induction false} ByTimeIsStable(rows: seq<OrderBook>, time: real)
    ensures RowsAt(ByTime(rows), time) == RowsAt(rows, time)
  {
    if rows != [] {
      var k := |rows| - 1;
      var sorted := ByTime(rows[..k]);
      ByTimeIsStable(rows[..k], time);
      InsertedLast(sorted, rows[k], time);
    }
  }

  /** What is selected row by row: those from the start on whose token is listed, each as often as it was
      recorded and in that order. */
  lemma SelectedJoins(rows: seq<OrderBook>, row: OrderBook, start: real, tokens: set<string>)
    ensures Selected([], start, tokens) == []
    ensures Selected(rows + [row], start, tokens)
         == Selected(rows, start, tokens) + if row.receivedAt >= start && row.token in tokens then [row] else []
  {
    assert (rows + [row])[..|rows|] == rows;
  }

  /** A token is listed if some row belongs to a market whose metadata names the token. */
  lemma ListedByRows(log: Log, token: string)
    ensures token in ListedTokens(log) <==>
      exists r | r in log.rows :: r.conditionId in log.metadata && token in log.metadata[r.conditionId].tokenIds
  {
    if r :| r in log.rows && r.conditionId in log.metadata && token in log.metadata[r.conditionId].tokenIds {
      assert r.conditionId in Loaded(log);
    }
  }

  lemma ReplayedListed(log: Log, start: real)
    ensures InTimeOrder(ReplayedBooks(log, start))
    ensures forall b :: b in ReplayedBooks(log, start) <==>
      b in log.rows && b.receivedAt >= start && b.token in ListedTokens(log)
  {
    var rows := Selected(log.rows, start, ListedTokens(log));
    SelectedRows(log.rows, start, ListedTokens(log));
    ByTimeSorts(rows);
    forall b ensures b in ByTime(rows) <==> b in rows {
      assert b in ByTime(rows) <==> b in multiset(ByTime(rows));
    }
  }

  // ---- deleting rows -----------------------------------------------------------------------------

  /** The rows left after deleting those received before `cutoff`. */
  function Since(rows: seq<OrderBook>, cutoff: real): seq<OrderBook> {
    if rows == [] then []
    else
      var last := rows[|rows| - 1];
      Since(rows[..|rows| - 1], cutoff) + if last.receivedAt >= cutoff then [last] else []
  }

  function Pruned(log: Log, cutoff: real): Log {
    log.(rows := Since(log.rows, cutoff))
  }

  lemma {:induction false} SinceKeeps(rows: seq<OrderBook>, cutoff: real)
    ensures forall r :: r in Since(rows, cutoff) <==> r in rows && r.receivedAt >= cutoff
  {
    if rows != [] {
      var k := |rows| - 1;
      SinceKeeps(rows[..k], cutoff);
      assert rows == rows[..k] + [rows[k]];
    }
  }

  /** Row by row: those from the cutoff on stay, in their order. */
  lemma SinceJoins(rows: seq<OrderBook>, row: OrderBook, cutoff: real)
    ensures Since([], cutoff) == []
    ensures Since(rows + [row], cutoff) == Since(rows, cutoff) + if row.receivedAt >= cutoff then [row] else []
  {
    assert (rows + [row])[..|rows|] == rows;
  }

  /** Tables that agree from some time on are selected from alike at any later time. */
  lemma {:induction false} SelectedSince(rows: seq<OrderBook>, cutoff: real, start: real, tokens: set<string>)
    requires cutoff <= start
    ensures Selected(Since(rows, cutoff), start, tokens) == Selected(rows, start, tokens)
  {
    if rows != [] {
      var k := |rows| - 1;
      var last, rest := rows[k], Since(rows[..k], cutoff);
      SelectedSince(rows[..k], cutoff, start, tokens);
      if last.receivedAt >= cutoff {
        assert (rest + [last])[..|rest|] == rest;
      } else {
        assert rest + [] == rest;
      }
    }
  }

  lemma {:induction false} SelectedAlike(rows: seq<OrderBook>, start: real, tokens: set<string>, others: set<string>)
    requires forall r | r in rows && r.receivedAt >= start :: r.token in tokens <==> r.token in others
    ensures Selected(rows, start, tokens) == Selected(rows, start, others)
  {
    if rows != [] {
      var k := |rows| - 1;
      assert rows[k] in rows && forall r | r in rows[..k] :: r in rows;
      SelectedAlike(rows[..k], start, tokens, others);
    }
  }

  lemma PrunedListsLess(log: Log, cutoff: real)
    ensures ListedTokens(Pruned(log, cutoff)) <= ListedTokens(log)
  {
    SinceKeeps(log.rows, cutoff);
    forall t | t in ListedTokens(Pruned(log, cutoff)) ensures t in ListedTokens(log) {
      var c :| c in Loaded(Pruned(log, cutoff)) && t in log.metadata[c].tokenIds;
      assert c in Loaded(log);
    }
  }

  /** Deleting rows behind the start of a replay leaves it unchanged exactly when every token that
      has a row from the start on, and was listed, is still listed by a market with a row left. */
  lemma PruneKeepsReplay(log: Log, cutoff: real, start: real)
    requires cutoff <= start
    ensures ReplayedBooks(Pruned(log, cutoff), start) == ReplayedBooks(log, start)
      <==> forall r | r in log.rows && r.receivedAt >= start && r.token in ListedTokens(log) ::
             r.token in ListedTokens(Pruned(log, cutoff))
  {
    var pruned := Pruned(log, cutoff);
    SelectedSince(log.rows, cutoff, start, ListedTokens(pruned));
    PrunedListsLess(log, cutoff);
    var all, few := ListedTokens(log), ListedTokens(pruned);
    if forall r | r in log.rows && r.receivedAt >= start && r.token in all :: r.token in few {
      SelectedAlike(log.rows, start, all, few);
    } else {
      ReplayedListed(log, start);
      ReplayedListed(pruned, start);
    }
  }

  // ---- runs of appends, metadata refreshes, checkpoints and prunes ---------------------------------

  datatype Op = Recorded(book: OrderBook) | Refreshed(market: Market) | CheckpointRun

  datatype World = World(log: Log, checkpoint: real)

  const PRUNE_SAFETY_MARGIN := 3600.0

  /** The time of the last replayed book, or the old checkpoint when there was none. */
  function NextCheckpoint(log: Log, checkpoint: real): real {
    var books := ReplayedBooks(log, checkpoint);
    if books == [] then checkpoint else books[|books| - 1].receivedAt
  }

  function Next(w: World, op: Op, prune: bool): World {
    match op
    case Recorded(book) => w.(log := w.log.(rows := w.log.rows + [book]))
    case Refreshed(market) => w.(log := w.log.(metadata := w.log.metadata[market.conditionId := market]))
    case CheckpointRun =>
      var checkpoint := NextCheckpoint(w.log, w.checkpoint);
      World(if prune then Pruned(w.log, checkpoint - PRUNE_SAFETY_MARGIN) else w.log, checkpoint)
  }

  function After(w: World, ops: seq<Op>, prune: bool): World {
    if ops == [] then w else Next(After(w, ops[..|ops| - 1], prune), ops[|ops| - 1], prune)
  }

  /** Runs are made of steps, one after the other. */
  lemma {:induction false} RunsCompose(w: World, first: seq<Op>, second: seq<Op>, prune: bool)
    ensures After(w, first + second, prune) == After(After(w, first, prune), second, prune)
    ensures forall op :: After(w, [op], prune) == Next(w, op, prune)
  {
    hide Next;
    forall op ensures After(w, [op], prune) == Next(w, op, prune) {
      assert [op][..0] == [];
    }
    if second == [] {
      assert first + second == first;
    } else {
      var k := |second| - 1;
      RunsCompose(w, first, second[..k], prune);
      assert (first + second)[..|first| + k] == first + second[..k];
    }
  }

  lemma CheckpointAdvances(log: Log, checkpoint: real)
    ensures NextCheckpoint(log, checkpoint) >= checkpoint
    ensures forall b | b in ReplayedBooks(log, checkpoint) :: b.receivedAt <= NextCheckpoint(log, checkpoint)
    ensures NextCheckpoint(log, checkpoint) == checkpoint
      || exists b | b in ReplayedBooks(log, checkpoint) :: b.receivedAt == NextCheckpoint(log, checkpoint)
  {
    ReplayedListed(log, checkpoint);
    var books := ReplayedBooks(log, checkpoint);
    if books != [] {
      assert books[|books| - 1] in books;
    }
  }

  /** The recorder's rule: each token has one market, whose id every snapshot of the token carries
      and which alone lists it. */
  ghost predicate RowOf(market: string -> string, row: OrderBook) {
    row.conditionId == market(row.token)
  }

  ghost predicate MarketAs(market: string -> string, m: Market) {
    forall t | t in m.tokenIds :: market(t) == m.conditionId
  }

  ghost predicate Coherent(market: string -> string, log: Log) {
    && (forall r | r in log.rows :: RowOf(market, r))
    && (forall c | c in log.metadata :: log.metadata[c].conditionId == c && MarketAs(market, log.metadata[c]))
  }

  ghost predicate CoherentOps(market: string -> string, ops: seq<Op>) {
    && (forall op | op in ops && op.Recorded? :: RowOf(market, op.book))
    && (forall op | op in ops && op.Refreshed? :: MarketAs(market, op.market))
  }

  /** The pruned and the complete log agree on everything not behind the safety margin. */
  ghost predicate Matches(pruned: World, whole: World) {
    && pruned.checkpoint == whole.checkpoint
    && pruned.log.metadata == whole.log.metadata
    && Since(pruned.log.rows, whole.checkpoint - PRUNE_SAFETY_MARGIN)
         == Since(whole.log.rows, whole.checkpoint - PRUNE_SAFETY_MARGIN)
    && (forall r | r in pruned.log.rows :: r in whole.log.rows)
  }

  /** In a coherent log a token is listed when its own market has its metadata and some row. */
  lemma ListedByOwnMarket(market: string -> string, log: Log, row: OrderBook)
    requires Coherent(market, log) && row in log.rows
    ensures row.token in ListedTokens(log) <==>
      row.conditionId in log.metadata && row.token in log.metadata[row.conditionId].tokenIds
    ensures row.token in ListedTokens(log) ==> MarketOf(log, row.token) == log.metadata[row.conditionId]
  {
    assert RowOf(market, row);
    forall c | c in Loaded(log) && row.token in log.metadata[c].tokenIds ensures c == row.conditionId {
      assert MarketAs(market, log.metadata[c]);
    }
    if row.conditionId in log.metadata {
      assert row.conditionId in Loaded(log);
    }
  }

  /** A recent row is listed by the pruned log when it is by the whole one, and under the same
      market: it is itself the row that keeps its market loaded. */
  lemma AgreeingTokens(market: string -> string, pruned: World, whole: World, r: OrderBook)
    requires Matches(pruned, whole) && Coherent(market, whole.log)
    requires r in whole.log.rows && r.receivedAt >= whole.checkpoint
    ensures r in pruned.log.rows
    ensures r.token in ListedTokens(pruned.log) <==> r.token in ListedTokens(whole.log)
    ensures r.token in ListedTokens(whole.log) ==> MarketOf(pruned.log, r.token) == MarketOf(whole.log, r.token)
  {
    SinceKeeps(pruned.log.rows, whole.checkpoint - PRUNE_SAFETY_MARGIN);
    SinceKeeps(whole.log.rows, whole.checkpoint - PRUNE_SAFETY_MARGIN);
    assert r in Since(whole.log.rows, whole.checkpoint - PRUNE_SAFETY_MARGIN);
    hide Since, ListedTokens, MarketOf;
    assert Coherent(market, pruned.log);
    ListedByOwnMarket(market, pruned.log, r);
    ListedByOwnMarket(market, whole.log, r);
  }

  lemma AgreeingBooks(market: string -> string, pruned: World, whole: World)
    requires Matches(pruned, whole) && Coherent(market, whole.log)
    ensures ReplayedBooks(pruned.log, pruned.checkpoint) == ReplayedBooks(whole.log, whole.checkpoint)
  {
    var start, cutoff := whole.checkpoint, whole.checkpoint - PRUNE_SAFETY_MARGIN;
    var few, all := ListedTokens(pruned.log), ListedTokens(whole.log);
    SelectedSince(pruned.log.rows, cutoff, start, few);
    SelectedSince(whole.log.rows, cutoff, start, few);
    hide Coherent, ListedTokens, Selected, ByTime;
    forall r | r in whole.log.rows && r.receivedAt >= start ensures r.token in few <==> r.token in all {
      AgreeingTokens(market, pruned, whole, r);
    }
    SelectedAlike(whole.log.rows, start, few, all);
  }

  lemma AgreeingReplays(market: string -> string, pruned: World, whole: World)
    requires Matches(pruned, whole) && Coherent(market, whole.log)
    ensures Replay(pruned.log, pruned.checkpoint) == Replay(whole.log, whole.checkpoint)
  {
    var start := whole.checkpoint;
    AgreeingBooks(market, pruned, whole);
    ReplayedListed(whole.log, start);
    ReplayedListed(pruned.log, start);
    hide Coherent, ListedTokens, ReplayedBooks, MarketOf;
    var books := ReplayedBooks(whole.log, start);
    forall i | 0 <= i < |books| ensures Replay(pruned.log, start)[i] == Replay(whole.log, start)[i] {
      assert books[i] in books;
      AgreeingTokens(market, pruned, whole, books[i]);
    }
  }

  lemma {:induction false} SinceLater(rows: seq<OrderBook>, cutoff: real, later: real)
    requires cutoff <= later
    ensures Since(Since(rows, cutoff), later) == Since(rows, later)
  {
    if rows != [] {
      var k := |rows| - 1;
      var rest := Since(rows[..k], cutoff);
      SinceLater(rows[..k], cutoff, later);
      if rows[k].receivedAt >= cutoff {
        assert (rest + [rows[k]])[..|rest|] == rest;
      } else {
        assert rest + [] == rest;
      }
    }
  }

  lemma AppendsAgree(pruned: World, whole: World, book: OrderBook)
    requires Matches(pruned, whole)
    ensures Matches(Next(pruned, Recorded(book), true), Next(whole, Recorded(book), false))
  {
    assert (pruned.log.rows + [book])[..|pruned.log.rows|] == pruned.log.rows;
    assert (whole.log.rows + [book])[..|whole.log.rows|] == whole.log.rows;
  }

  lemma PrunesAgree(pruned: World, whole: World, checkpoint: real)
    requires Matches(pruned, whole) && checkpoint >= whole.checkpoint
    ensures Matches(World(Pruned(pruned.log, checkpoint - PRUNE_SAFETY_MARGIN), checkpoint),
                    World(whole.log, checkpoint))
  {
    var cutoff, later := whole.checkpoint - PRUNE_SAFETY_MARGIN, checkpoint - PRUNE_SAFETY_MARGIN;
    hide Since;
    SinceLater(pruned.log.rows, cutoff, later);
    SinceLater(whole.log.rows, cutoff, later);
    assert Since(pruned.log.rows, later) == Since(whole.log.rows, later);
    SinceLater(pruned.log.rows, later, later);
    SinceKeeps(pruned.log.rows, later);
  }

  lemma RunsAgree(market: string -> string, pruned: World, whole: World)
    requires Matches(pruned, whole) && Coherent(market, whole.log)
    ensures Matches(Next(pruned, CheckpointRun, true), Next(whole, CheckpointRun, false))
  {
    AgreeingReplays(market, pruned, whole);
    SameCheckpoint(pruned.log, whole.log, whole.checkpoint);
    CheckpointAdvances(whole.log, whole.checkpoint);
    PrunesAgree(pruned, whole, NextCheckpoint(whole.log, whole.checkpoint));
    hide Replay, NextCheckpoint, Coherent, Matches, Pruned;
    assert pruned.checkpoint == whole.checkpoint by { AgreedCheckpoint(pruned, whole); }
  }

  lemma AgreedCheckpoint(pruned: World, whole: World)
    requires Matches(pruned, whole)
    ensures pruned.checkpoint == whole.checkpoint
  {
  }

  lemma StepsAgree(market: string -> string, pruned: World, whole: World, op: Op)
    requires Matches(pruned, whole) && Coherent(market, whole.log) && CoherentOps(market, [op])
    ensures Matches(Next(pruned, op, true), Next(whole, op, false)) && Coherent(market, Next(whole, op, false).log)
  {
    assert op in [op];
    hide Since, ReplayedBooks, NextCheckpoint;
    match op {
      case Recorded(book) => AppendsAgree(pruned, whole, book);
      case Refreshed(m) =>
      case CheckpointRun => RunsAgree(market, pruned, whole);
    }
  }

  lemma SameCheckpoint(log: Log, other: Log, start: real)
    requires Replay(log, start) == Replay(other, start)
    ensures NextCheckpoint(log, start) == NextCheckpoint(other, start)
  {
    var books := ReplayedBooks(log, start);
    assert |Replay(log, start)| == |books| && |Replay(other, start)| == |ReplayedBooks(other, start)|;
    if books != [] {
      assert Replay(log, start)[|books| - 1] == Replay(other, start)[|books| - 1];
    }
  }

  /** Pruning is invisible: through any sequence of appends, metadata refreshes and checkpoint
      runs, the checkpoint never moves back, it is the one a log that is never pruned would have,
      and every replay from it sees the same books with the same markets in the same order. */
  lemma PruningIsInvisible(market: string -> string, w: World, ops: seq<Op>)
    requires Coherent(market, w.log) && CoherentOps(market, ops)
    ensures var pruned, whole := After(w, ops, true), After(w, ops, false);
      && pruned.checkpoint == whole.checkpoint >= w.checkpoint
      && Replay(pruned.log, pruned.checkpoint) == Replay(whole.log, whole.checkpoint)
  {
    AgreeAlways(market, w, ops);
    AgreeingReplays(market, After(w, ops, true), After(w, ops, false));
  }

  lemma {:induction false} AgreeAlways(market: string -> string, w: World, ops: seq<Op>)
    requires Coherent(market, w.log) && CoherentOps(market, ops)
    ensures Matches(After(w, ops, true), After(w, ops, false)) && Coherent(market, After(w, ops, false).log)
    ensures After(w, ops, false).checkpoint >= w.checkpoint
  {
    if ops != [] {
      var k := |ops| - 1;
      var before := After(w, ops[..k], false);
      assert ops[k] in ops && forall op | op in ops[..k] :: op in ops;
      AgreeAlways(market, w, ops[..k]);
      StepsAgree(market, After(w, ops[..k], true), before, ops[k]);
      CheckpointAdvances(before.log, before.checkpoint);
    }
  }

  // ---- without the recorder's rule -------------------------------------------------------------------

  const OLD_ROW := OrderBook("u", "m", [], [], 0.0)
  const STRAY_ROW := OrderBook("t", "elsewhere", [], [], 7200.0)
  const STRAY_LOG := Log([OLD_ROW, STRAY_ROW], map["m" := Market("m", false, [], ["t", "u"], None, None)])

  /** A snapshot filed under another market than the one that lists its token is lost to replays
      once the last row of its own market has been pruned. */
  lemma StrayRowIsLost()
    ensures STRAY_ROW in ReplayedBooks(STRAY_LOG, 7200.0)
    ensures ReplayedBooks(Pruned(STRAY_LOG, 7200.0 - PRUNE_SAFETY_MARGIN), 7200.0) == []
  {
    assert OLD_ROW in STRAY_LOG.rows && STRAY_ROW in STRAY_LOG.rows;
    assert OLD_ROW.conditionId in Loaded(STRAY_LOG) && "t" in STRAY_LOG.metadata["m"].tokenIds;
    ReplayedListed(STRAY_LOG, 7200.0);
    var pruned := Pruned(STRAY_LOG, 7200.0 - PRUNE_SAFETY_MARGIN);
    SinceKeeps(STRAY_LOG.rows, 7200.0 - PRUNE_SAFETY_MARGIN);
    assert OLD_ROW !in pruned.rows;
    assert "elsewhere" !in pruned.metadata;
    assert Loaded(pruned) == {};
    ReplayedListed(pruned, 7200.0);
    if ReplayedBooks(pruned, 7200.0) != [] {
      SomeMember(ReplayedBooks(pruned, 7200.0));
    }
  }

  lemma SomeMember<T>(xs: seq<T>)
    requires xs != []
    ensures exists x :: x in xs
  {
    assert xs[0] in xs;
  }
}
