/** Saving a portfolio between runs and restoring it: flat positions are dropped, and nobody
    downstream can tell. */
module Checkpoint {
  import opened Trading
  import opened Portfolio

  /** The contents of the checkpoint file. */
  datatype Saved = Saved(checkpointTime: real, cash: real, realizedPnl: real, positions: map<string, Position>)

  function SaveCheckpoint(a: Account, checkpointTime: real): Saved {
    Saved(checkpointTime, a.cash, a.realized, OpenPositions(a))
  }

  function OpenPositions(a: Account): map<string, Position> {
    map t | t in a.positions && a.positions[t].shares != 0.0 :: a.positions[t]
  }

  method RestorePortfolio(saved: Saved, configuredCash: real) returns (portfolio: Portfolio)
    ensures fresh(portfolio) && portfolio.initialCash == configuredCash
    ensures portfolio.State() == Restored(saved)
    ensures portfolio.fills == []
  {
    portfolio := new Portfolio(configuredCash);
    portfolio.cash := saved.cash;
    portfolio.realizedPnl := saved.realizedPnl;
    portfolio.positions := saved.positions;
  }

  function Restored(saved: Saved): Account {
    Account(saved.cash, saved.realizedPnl, saved.positions)
  }

  // ---- what a cut preserves ---------------------------------------------------------

  /** Shares and average cost of an open position. */
  function Holding(a: Account, token: string): Option<(real, real)> {
    if Shares(a, token) == 0.0 then None
    else Some((a.positions[token].shares, a.positions[token].avgCost))
  }

  /** Same cash, same realized profit, same open positions. */
  ghost predicate Indistinguishable(a: Account, b: Account) {
    && a.cash == b.cash
    && a.realized == b.realized
    && forall t :: Holding(a, t) == Holding(b, t)
  }

  lemma CutIsInvisible(a: Account, time: real)
    ensures Indistinguishable(a, Restored(SaveCheckpoint(a, time)))
  {
  }

  lemma FillPreserves(a: Account, b: Account, f: Fill, feeRate: real)
    requires Indistinguishable(a, b)
    ensures Indistinguishable(AfterFill(a, f, feeRate), AfterFill(b, f, feeRate))
  {
    if f.size > 0.0 {
      var q, eff := SignedSize(f), EffectivePrice(f, feeRate);
      var p, r := PositionOf(a, f), PositionOf(b, f);
      assert Holding(a, f.token) == Holding(b, f.token);
      SameTrade(p, r, q, eff);
      hide Trade, EffectivePrice, SignedSize;
      var a', b' := AfterFill(a, f, feeRate), AfterFill(b, f, feeRate);
      forall t ensures Holding(a', t) == Holding(b', t) {
        assert Holding(a, t) == Holding(b, t);
        if t != f.token {
          assert Holding(a', t) == Holding(a, t) && Holding(b', t) == Holding(b, t);
        }
      }
    }
  }

  /** What is left of a flat position has no influence on the trade that reopens it. */
  lemma SameTrade(p: Position, r: Position, q: real, eff: real)
    requires q != 0.0 && p.shares == r.shares
    requires p.shares != 0.0 ==> p.avgCost == r.avgCost
    ensures var (p', x), (r', y) := Trade(p, q, eff), Trade(r, q, eff);
      p'.shares == r'.shares && p'.avgCost == r'.avgCost && x == y
  {
  }

  lemma PayoutPreserves(a: Account, b: Account, token: string, payout: real)
    requires Indistinguishable(a, b)
    ensures Indistinguishable(AfterPayout(a, token, payout), AfterPayout(b, token, payout))
  {
    hide Amount;
    assert Holding(a, token) == Holding(b, token);
    var a', b' := AfterPayout(a, token, payout), AfterPayout(b, token, payout);
    forall t ensures Holding(a', t) == Holding(b', t) {
      assert Holding(a, t) == Holding(b, t);
    }
  }

  lemma {:induction false} SettlePreserves(a: Account, b: Account, resolutions: map<string, real>)
    requires Indistinguishable(a, b)
    ensures Indistinguishable(AfterSettle(a, resolutions), AfterSettle(b, resolutions))
    decreases |resolutions|
  {
    hide AfterPayout, Indistinguishable;
    if resolutions != map[] {
      var t :| t in resolutions;
      SettleInAnyOrder(a, resolutions, t);
      SettleInAnyOrder(b, resolutions, t);
      PayoutPreserves(a, b, t, resolutions[t]);
      SettlePreserves(AfterPayout(a, t, resolutions[t]), AfterPayout(b, t, resolutions[t]), resolutions - {t});
    }
  }

  lemma {:induction false} RunPreserves(a: Account, b: Account, events: seq<Event>)
    requires Indistinguishable(a, b)
    ensures Indistinguishable(Run(a, events), Run(b, events))
    decreases |events|
  {
    if |events| > 0 {
      match events[0] {
        case Filled(f, feeRate) => FillPreserves(a, b, f, feeRate);
        case Settled(resolutions) => SettlePreserves(a, b, resolutions);
      }
      RunPreserves(Step(a, events[0]), Step(b, events[0]), events[1..]);
    }
  }

  // ---- any number of cuts -----------------------------------------------------------

  /** A session: some events, then a checkpoint from which the next session restarts. */
  datatype Session = Session(events: seq<Event>, checkpointTime: real)

  ghost function RunWithCuts(a: Account, sessions: seq<Session>): Account
    decreases |sessions|
  {
    if |sessions| == 0 then a
    else
      var s := sessions[0];
      RunWithCuts(Restored(SaveCheckpoint(Run(a, s.events), s.checkpointTime)), sessions[1..])
  }

  ghost function AllEvents(sessions: seq<Session>): seq<Event> {
    if |sessions| == 0 then [] else sessions[0].events + AllEvents(sessions[1..])
  }

  lemma {:induction false} RunSplit(a: Account, first: seq<Event>, second: seq<Event>)
    ensures Run(a, first + second) == Run(Run(a, first), second)
    decreases |first|
  {
    if |first| == 0 {
      assert first + second == second;
    } else {
      assert (first + second)[1..] == first[1..] + second;
      RunSplit(Step(a, first[0]), first[1..], second);
    }
  }

  lemma {:induction false} CutsAreInvisible(a: Account, b: Account, sessions: seq<Session>)
    requires Indistinguishable(a, b)
    ensures Indistinguishable(RunWithCuts(a, sessions), Run(b, AllEvents(sessions)))
    decreases |sessions|
  {
    if |sessions| > 0 {
      var s, later := sessions[0], sessions[1..];
      RunPreserves(a, b, s.events);
      CutIsInvisible(Run(a, s.events), s.checkpointTime);
      var restarted := Restored(SaveCheckpoint(Run(a, s.events), s.checkpointTime));
      CutsAreInvisible(restarted, Run(b, s.events), later);
      RunSplit(b, s.events, AllEvents(later));
    }
  }

  /** Cutting any history of fills and settlements into any number of sessions gives the same
      cash, realized profit, open positions and valuation as the uninterrupted run. */
  lemma CheckpointTransparency(a: Account, sessions: seq<Session>, prices: map<string, real>)
    ensures var cut, whole := RunWithCuts(a, sessions), Run(a, AllEvents(sessions));
      && Indistinguishable(cut, whole)
      && Equity(cut, prices) == Equity(whole, prices)
  {
    CutsAreInvisible(a, a, sessions);
    SameEquity(RunWithCuts(a, sessions), Run(a, AllEvents(sessions)), prices);
  }

  lemma SameEquity(a: Account, b: Account, prices: map<string, real>)
    requires Indistinguishable(a, b)
    ensures Equity(a, prices) == Equity(b, prices)
  {
    OnlyOpenCounts(a, prices);
    OnlyOpenCounts(b, prices);
    var x, y := Applied(OpenPositions(a), Valuation(prices)), Applied(OpenPositions(b), Valuation(prices));
    forall t ensures (t in x <==> t in y) && (t in x ==> x[t] == y[t]) {
      assert Holding(a, t) == Holding(b, t);
    }
    assert x == y;
  }

  lemma OnlyOpenCounts(a: Account, prices: map<string, real>)
    ensures SumOf(a.positions, Valuation(prices)) == SumOf(OpenPositions(a), Valuation(prices))
  {
    SumOfPart(a.positions, OpenPositions(a), Valuation(prices));
  }

  // ---- the market a position belongs to ---------------------------------------------

  /** A fill that reopens a closed position names the market the position was first opened in. */
  ghost predicate KeepsMarket(a: Account, e: Event) {
    e.Filled? && e.fill.size > 0.0 && e.fill.token in a.positions && a.positions[e.fill.token].shares == 0.0
    ==> a.positions[e.fill.token].conditionId == e.fill.conditionId
  }

  ghost predicate NeverRelabelled(a: Account, events: seq<Event>)
    decreases |events|
  {
    |events| == 0 || (KeepsMarket(a, events[0]) && NeverRelabelled(Step(a, events[0]), events[1..]))
  }

  /** The cut account looks like the whole one and files every position it has under the same
      market. */
  ghost predicate Shadows(cut: Account, whole: Account) {
    && Indistinguishable(cut, whole)
    && forall t | t in cut.positions ::
         t in whole.positions && cut.positions[t].conditionId == whole.positions[t].conditionId
  }

  lemma StepShadows(cut: Account, whole: Account, e: Event)
    requires Shadows(cut, whole) && KeepsMarket(whole, e)
    ensures Shadows(Step(cut, e), Step(whole, e))
  {
    match e {
      case Filled(f, feeRate) =>
        FillPreserves(cut, whole, f, feeRate);
        assert Holding(cut, f.token) == Holding(whole, f.token);
        hide EffectivePrice, SignedSize;
      case Settled(resolutions) =>
        SettlePreserves(cut, whole, resolutions);
        SettledPositions(cut, resolutions);
        SettledPositions(whole, resolutions);
    }
  }

  lemma {:induction false} RunShadows(cut: Account, whole: Account, events: seq<Event>)
    requires Shadows(cut, whole) && NeverRelabelled(whole, events)
    ensures Shadows(Run(cut, events), Run(whole, events))
    decreases |events|
  {
    if |events| > 0 {
      StepShadows(cut, whole, events[0]);
      RunShadows(Step(cut, events[0]), Step(whole, events[0]), events[1..]);
    }
  }

  lemma {:induction false} RelabelSplit(a: Account, first: seq<Event>, second: seq<Event>)
    ensures NeverRelabelled(a, first + second) <==> NeverRelabelled(a, first) && NeverRelabelled(Run(a, first), second)
    decreases |first|
  {
    if |first| == 0 {
      assert first + second == second;
    } else {
      assert (first + second)[1..] == first[1..] + second;
      RelabelSplit(Step(a, first[0]), first[1..], second);
    }
  }

  lemma {:induction false} CutsShadow(cut: Account, whole: Account, sessions: seq<Session>)
    requires Shadows(cut, whole) && NeverRelabelled(whole, AllEvents(sessions))
    ensures Shadows(RunWithCuts(cut, sessions), Run(whole, AllEvents(sessions)))
    decreases |sessions|
  {
    if |sessions| > 0 {
      var s, later := sessions[0], sessions[1..];
      RelabelSplit(whole, s.events, AllEvents(later));
      RunShadows(cut, whole, s.events);
      CutIsInvisible(Run(cut, s.events), s.checkpointTime);
      CutsShadow(Restored(SaveCheckpoint(Run(cut, s.events), s.checkpointTime)), Run(whole, s.events), later);
      RunSplit(whole, s.events, AllEvents(later));
    }
  }

  lemma ShadowsHoldTheSame(cut: Account, whole: Account)
    requires Shadows(cut, whole)
    ensures OpenPositions(cut) == OpenPositions(whole)
  {
    forall t ensures (t in OpenPositions(cut) <==> t in OpenPositions(whole))
      && (t in OpenPositions(cut) ==> OpenPositions(cut)[t] == OpenPositions(whole)[t]) {
      assert Holding(cut, t) == Holding(whole, t);
    }
  }

  /** The open positions are the same in every field, however and wherever a history is cut,
      exactly when no fill reopens a closed position under another market. */
  lemma SamePositions(a: Account, events: seq<Event>)
    ensures (forall sessions | AllEvents(sessions) <= events ::
               OpenPositions(RunWithCuts(a, sessions)) == OpenPositions(Run(a, AllEvents(sessions))))
      <==> NeverRelabelled(a, events)
  {
    if NeverRelabelled(a, events) {
      forall sessions | AllEvents(sessions) <= events
        ensures OpenPositions(RunWithCuts(a, sessions)) == OpenPositions(Run(a, AllEvents(sessions))) {
        var n := |AllEvents(sessions)|;
        assert events == AllEvents(sessions) + events[n..];
        RelabelSplit(a, AllEvents(sessions), events[n..]);
        CutsShadow(a, a, sessions);
        ShadowsHoldTheSame(RunWithCuts(a, sessions), Run(a, AllEvents(sessions)));
      }
    } else {
      var k := FirstRelabel(a, events);
      CutBefore(a, events[..k], events[k]);
      assert events[..k] + [events[k]] <= events;
    }
  }

  lemma {:induction false} FirstRelabel(a: Account, events: seq<Event>) returns (k: nat)
    requires !NeverRelabelled(a, events)
    ensures k < |events| && !KeepsMarket(Run(a, events[..k]), events[k])
    decreases |events|
  {
    if KeepsMarket(a, events[0]) {
      var j := FirstRelabel(Step(a, events[0]), events[1..]);
      k := j + 1;
      assert events[..k][1..] == events[1..][..j];
    } else {
      k := 0;
    }
  }

  /** A checkpoint just before such a fill shows: the uninterrupted run keeps the old market, the
      restarted one takes the new fill's. */
  lemma CutBefore(a: Account, past: seq<Event>, e: Event)
    requires !KeepsMarket(Run(a, past), e)
    ensures exists sessions | AllEvents(sessions) == past + [e] ::
      OpenPositions(RunWithCuts(a, sessions)) != OpenPositions(Run(a, AllEvents(sessions)))
  {
    var sessions, last := [Session(past, 0.0), Session([e], 0.0)], [Session([e], 0.0)];
    var flat := Run(a, past);
    var restarted := Restored(SaveCheckpoint(flat, 0.0));
    Relabelled(flat, e);
    hide AfterFill;
    assert sessions[1..] == last && last[1..] == [] && [e][1..] == [];
    assert AllEvents(last) == [e] + AllEvents([]) == [e];
    RunSplit(a, past, [e]);
    assert Run(flat, [e]) == Step(flat, e) && Run(restarted, [e]) == Step(restarted, e);
    assert RunWithCuts(restarted, last) == Restored(SaveCheckpoint(Step(restarted, e), 0.0));
    assert RunWithCuts(a, sessions) == RunWithCuts(restarted, last);
  }

  lemma Relabelled(flat: Account, e: Event)
    requires !KeepsMarket(flat, e)
    ensures OpenPositions(Restored(SaveCheckpoint(Step(Restored(SaveCheckpoint(flat, 0.0)), e), 0.0)))
         != OpenPositions(Step(flat, e))
  {
    var token := e.fill.token;
    var whole, cut := Step(flat, e), Step(Restored(SaveCheckpoint(flat, 0.0)), e);
    assert whole.positions[token].shares == SignedSize(e.fill) == cut.positions[token].shares;
    assert OpenPositions(whole)[token].conditionId != OpenPositions(cut)[token].conditionId;
    hide Trade;
    assert OpenPositions(Restored(SaveCheckpoint(cut, 0.0))) == OpenPositions(cut);
  }
}
