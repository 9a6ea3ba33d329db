/** Whole runs of the order manager, its three entry points mixed in any order. */
module Session {
  import opened Trading
  import opened Markets
  import opened Orders
  import opened Risk
  import opened Sizing
  import opened LegPool
  import opened LegExecutor
  import opened BasketRepair
  import opened OrderManager

  /** What a strategy hands over for a market. */
  datatype Request =
    | Single(signal: Signal, conditionId: string, book: OrderBook)
    | Basket(signal: Signal, conditionId: string)
    | Quotes(pair: QuotePair, conditionId: string)

  /** What a decision was based on: the limits used, and for a basket its size and what became of it. */
  datatype Detail =
    | ForSingle(used: RiskLimits)
    | ForQuotes(limits: seq<RiskLimits>, mid: Snapshot, funds: Purse)
    | ForBasket(used: RiskLimits, sets: real, stages: seq<Stage>, outcome: Repair)

  /** The order manager and the exchange between requests, the log of submissions, and what is known of
      the wallet. */
  datatype Moment = Moment(view: Snapshot, marks: seq<Mark>, funds: Purse)

  ghost function MomentOf(om: OrderManager): Moment
    reads om, om.clock, om.exchange, om.wallet
  {
    Moment(om.View(), om.marks, om.Funds())
  }

  ghost predicate SingleHandled(s: Setting, request: Request, d: OrderDecision, used: RiskLimits, m: Moment,
                                m': Moment)
    requires s.limits.Valid() && request.Single?
  {
    && used.Valid()
    && (if Asks(request.signal, request.book, s) then LimitsFor(used, s, m.funds, m'.funds, m.view.now, m'.view.now)
        else used == s.limits && m'.funds == m.funds)
    && SignalDecided(d, request.signal, request.conditionId, request.book, GateView(m.view, m'.view, used, s))
    && Booked(m.view.books, m'.view.books, request.conditionId, AmountAccepted(d))
    && Latched(s.dryRun, m.view.books.geoRestricted, m'.view.books.geoRestricted, m.view.effort, m'.view.effort)
  }

  ghost predicate QuotesHandled(s: Setting, request: Request, decisions: seq<OrderDecision>, d: Detail, m: Moment,
                                m': Moment)
    requires s.limits.Valid() && request.Quotes? && d.ForQuotes?
  {
    && QuotesDecided(decisions, request.pair, request.conditionId, d.limits, m.view, d.mid, m'.view, s)
    && QuotesLimited(d.limits, request.pair, s, m.funds, d.funds, m'.funds, m.view.now, d.mid.now, m'.view.now)
    && Booked(m.view.books, m'.view.books, request.conditionId, SumAccepted(decisions))
    && Latched(s.dryRun, m.view.books.geoRestricted, m'.view.books.geoRestricted, m.view.effort, m'.view.effort)
  }

  /** A basket is refused whole for a reason, or all its legs are submitted at the size allowed and
      what filled unevenly is repaired. */
  ghost predicate BasketHandled(s: Setting, request: Request, decisions: seq<OrderDecision>, d: Detail,
                                m: Moment, m': Moment)
    requires s.limits.Valid() && request.Basket? && d.ForBasket?
  {
    var signal, conditionId, before, after := request.signal, request.conditionId, m.view, m'.view;
    && d.used.Valid()
    && (if signal.legs == [] || Sum(Prices(signal.legs)) <= 0.0 then d.used == s.limits && m'.funds == m.funds
        else LimitsFor(d.used, s, m.funds, m'.funds, before.now, after.now))
    && var approved := CheckOrder(s.limits.maxOrderUsd, ExposureIn(before.books, conditionId), before.books.total,
                                  d.used).approvedSizeUsd;
    if d.sets == 0.0 then
      && (forall e | e in decisions :: e == REJECTION)
      && after == before.(now := after.now)
      && (|| (decisions == [REJECTION] && Unsized(signal, approved))
          || (|decisions| == |signal.legs|
              && Repeats(signal, approved, conditionId, s.dryRun, s.ttl, before.books, before.now)))
    else
      var basket := BasketOf(conditionId, s.dryRun, s.ttl, signal.legs, d.sets, MULTI_LEG, RecoveredFeeRate(signal));
      && d.sets > 0.0 && SetsAllowed(signal, d.sets, approved) && !Unsized(signal, approved)
      && DecidedAs(decisions, conditionId, signal.legs, d.sets, MULTI_LEG, s.dryRun, d.stages)
      && BookedAs(basket, d.stages, BasketCost(signal, d.sets), Released(d.outcome.closings), before.books, after.books)
      && after.books.total <= d.used.maxPortfolioExposureUsd
      && LegsSent(basket, d.stages, before, after, d.outcome)
      && Mended(decisions, s.dryRun, s.truthful, before.tape, d.outcome, after.tape, after.effort)
  }

  /** One request handled: decided as its entry point decides, the log grown by what was accepted. */
  ghost predicate Handled(s: Setting, request: Request, decisions: seq<OrderDecision>, d: Detail,
                          m: Moment, m': Moment)
    requires s.limits.Valid()
  {
    && m.view.now <= m'.view.now
    && MarksGrew(m.marks, m'.marks, decisions, m.view.now, m'.view.now)
    && match request
       case Single(_, _, _) =>
         |decisions| == 1 && d.ForSingle? && SingleHandled(s, request, decisions[0], d.used, m, m')
       case Basket(_, _) => d.ForBasket? && BasketHandled(s, request, decisions, d, m, m')
       case Quotes(_, _) => d.ForQuotes? && QuotesHandled(s, request, decisions, d, m, m')
  }

  /** Every request handled, each where the one before it left off. */
  ghost predicate AllHandled(s: Setting, requests: seq<Request>, decisions: seq<seq<OrderDecision>>,
                             details: seq<Detail>, trail: seq<Moment>)
    requires s.limits.Valid()
  {
    && |decisions| == |details| == |trail| - 1 <= |requests|
    && forall i | 0 <= i < |decisions| ::
         Handled(s, requests[i], decisions[i], details[i], trail[i], trail[i + 1])
  }

  /** Some decision with this key was accepted. */
  ghost predicate AcceptedIn(decisions: seq<OrderDecision>, key: Key) {
    exists d | d in decisions :: WasAccepted(d) && d.intent.Some? && KeyOf(d.intent.value) == key
  }

  lemma {:induction false} AcceptedCounts(decisions: seq<OrderDecision>, key: Key)
    ensures AcceptedIn(decisions, key) <==> AcceptedWith(decisions, key) > 0
  {
    hide IdempotencyKey;
    if decisions != [] {
      var k := |decisions| - 1;
      assert decisions[k] in decisions && decisions == decisions[..k] + [decisions[k]];
      AcceptedCounts(decisions[..k], key);
    }
  }

  /** Dispatches the requests and returns their decisions; the trail shows how each was handled.
      Whatever the exchange, the wallet and the clock do, after every one of them each market's and the
      total exposure are within the configured caps and the total is the sum over the markets; no
      request books more than its orders' cap; and between two acceptances of one key at least the
      time-to-live passes on the clock. */
  method Serve(om: OrderManager, requests: seq<Request>)
    returns (decisions: seq<seq<OrderDecision>>, ghost details: seq<Detail>, ghost trail: seq<Moment>)
    requires om.Valid() && forall r | r in requests && r.Basket? :: WellFormed(r.signal)
    modifies om, om.clock, om.exchange, om.wallet
    ensures om.Valid() && |decisions| == |requests|
    ensures AllHandled(om.Settings(), requests, decisions, details, trail)
    ensures trail[0] == old(MomentOf(om)) && trail[|requests|] == MomentOf(om)
    ensures forall t | t in trail :: LedgerOk(om.riskLimits, t.view.books.market, t.view.books.total)
    ensures forall i | 0 <= i < |requests| ::
      trail[i + 1].view.books.total <= trail[i].view.books.total
        + (if requests[i].Quotes? then 2.0 else 1.0) * om.riskLimits.maxOrderUsd
    ensures forall i, j, key | 0 <= i < j < |requests| && AcceptedIn(decisions[i], key) && AcceptedIn(decisions[j], key)
      :: trail[j + 1].view.now - trail[i].view.now >= om.ttl
  {
    hide LedgerOk, Spaced, Recorded, WithMarks, WellFormed, Handled, MarksGrew;
    decisions, details, trail := [], [], [MomentOf(om)];
    for i := 0 to |requests|
      invariant om.Valid() && |decisions| == i
      invariant AllHandled(om.Settings(), requests, decisions, details, trail)
      invariant trail[0] == old(MomentOf(om)) && trail[i] == MomentOf(om)
      invariant forall t | t in trail :: LedgerOk(om.riskLimits, t.view.books.market, t.view.books.total)
      invariant forall j | 0 <= j < i ::
        trail[j + 1].view.books.total <= trail[j].view.books.total
          + (if requests[j].Quotes? then 2.0 else 1.0) * om.riskLimits.maxOrderUsd
    {
      assert requests[i] in requests;
      var made;
      ghost var detail;
      made, detail := Dispatch(om, requests[i]);
      decisions, details, trail := decisions + [made], details + [detail], trail + [MomentOf(om)];
    }
    AcceptancesSpaced(om.Settings(), requests, decisions, details, trail);
  }

  method Dispatch(om: OrderManager, request: Request) returns (decisions: seq<OrderDecision>, ghost detail: Detail)
    requires om.Valid() && (request.Basket? ==> WellFormed(request.signal))
    modifies om, om.clock, om.exchange, om.wallet
    ensures om.Valid()
    ensures Handled(om.Settings(), request, decisions, detail, old(MomentOf(om)), MomentOf(om))
    ensures om.totalExposureUsd
         <= old(om.totalExposureUsd) + (if request.Quotes? then 2.0 else 1.0) * om.riskLimits.maxOrderUsd
  {
    hide LedgerOk, Spaced, Recorded, WithMarks, WellFormed, AmountAccepted, SumAccepted, BookedAs, QuoteDecisions;
    hide SetsAllowed;
    hide BasketCost, BasketOf, Worth, DecidedAs, Mended, QuotesDecided, QuotesLimited, SignalDecided, Unsized, Repeats;
    hide MarksGrew, LimitsFor, LegsSent, Booked, RecoveredFeeRate, Latched, Released, Asks;
    ghost var before := om.View();
    RejectedIsNothing();
    match request {
      case Single(signal, conditionId, book) =>
        var decision;
        ghost var used;
        decision, used := om.HandleSignal(signal, conditionId, book);
        decisions, detail := [decision], ForSingle(used);
        BookedAtMost(before.books, om.State(), conditionId, AmountAccepted(decision), om.riskLimits.maxOrderUsd);
      case Basket(signal, conditionId) =>
        ghost var sets, stages, used, outcome;
        decisions, sets, stages, used, outcome := om.HandleMultiLegSignal(signal, conditionId);
        detail := ForBasket(used, sets, stages, outcome);
        if sets != 0.0 {
          SumSentRoom(om.BasketFor(conditionId, signal.legs, sets, MULTI_LEG, RecoveredFeeRate(signal)), stages,
                      BasketCost(signal, sets), Released(outcome.closings), before.books, om.State());
        }
      case Quotes(pair, conditionId) =>
        ghost var limits, mid, funds;
        decisions, limits, mid, funds := om.HandleQuote(pair, conditionId);
        detail := ForQuotes(limits, mid, funds);
        QuotesAtMost(decisions, pair, om.dryRun, om.riskLimits.maxOrderUsd);
        BookedAtMost(before.books, om.State(), conditionId, SumAccepted(decisions), 2.0 * om.riskLimits.maxOrderUsd);
    }
  }

  lemma BookedAtMost(before: Books, after: Books, conditionId: string, amount: real, cap: real)
    requires Booked(before, after, conditionId, amount) && amount <= cap && cap >= 0.0
    ensures after.total <= before.total + cap
  {
  }

  lemma QuotesAtMost(decisions: seq<OrderDecision>, pair: QuotePair, dryRun: bool, cap: real)
    requires QuoteDecisions(decisions, pair, dryRun) && cap >= 0.0
    requires forall d | d in decisions :: AmountAccepted(d) <= cap
    ensures SumAccepted(decisions) <= 2.0 * cap
  {
    hide AmountAccepted, QuoteDecision;
    AcceptedAtMost(decisions, cap);
  }

  lemma {:induction false} AcceptedAtMost(decisions: seq<OrderDecision>, cap: real)
    requires cap >= 0.0 && forall d | d in decisions :: AmountAccepted(d) <= cap
    ensures SumAccepted(decisions) <= |decisions| as real * cap
  {
    hide AmountAccepted;
    if decisions != [] {
      var k := |decisions| - 1;
      assert decisions[k] in decisions && forall d | d in decisions[..k] :: d in decisions;
      AcceptedAtMost(decisions[..k], cap);
    }
  }

  // ---- spacing of acceptances ------------------------------------------------------------------

  lemma {:induction false} SomeMark(marks: seq<Mark>, key: Key) returns (i: nat)
    requires MarksOf(marks, key) > 0
    ensures i < |marks| && marks[i].key == key
  {
    var k := |marks| - 1;
    if marks[k].key == key {
      i := k;
    } else {
      i := SomeMark(marks[..k], key);
    }
  }

  /** An accepted decision's mark in the log, made while its request was handled. */
  lemma MarkOf(s: Setting, request: Request, decisions: seq<OrderDecision>, d: Detail, t: Moment,
               t': Moment, key: Key)
    returns (i: nat)
    requires s.limits.Valid() && Handled(s, request, decisions, d, t, t') && AcceptedIn(decisions, key)
    ensures t.marks <= t'.marks
    ensures |t.marks| <= i < |t'.marks| && t'.marks[i].key == key && t.view.now <= t'.marks[i].time <= t'.view.now
  {
    hide SingleHandled, QuotesHandled, BasketHandled, WasAccepted, IdempotencyKey;
    AcceptedCounts(decisions, key);
    var added := t'.marks[|t.marks|..];
    assert MarksOf(added, key) == AcceptedWith(decisions, key);
    var k := SomeMark(added, key);
    assert added[k] in added;
    i := |t.marks| + k;
    assert t'.marks[i] == added[k];
  }

  lemma LogGrows(s: Setting, request: Request, decisions: seq<OrderDecision>, d: Detail, m: Moment, m': Moment)
    requires s.limits.Valid() && Handled(s, request, decisions, d, m, m')
    ensures m.marks <= m'.marks
  {
    hide SingleHandled, QuotesHandled, BasketHandled;
  }

  lemma {:induction false} LogOnlyGrows(s: Setting, requests: seq<Request>,
                                        decisions: seq<seq<OrderDecision>>, details: seq<Detail>, trail: seq<Moment>,
                                        i: nat, j: nat)
    requires s.limits.Valid() && AllHandled(s, requests, decisions, details, trail) && i <= j < |trail|
    ensures trail[i].marks <= trail[j].marks
    decreases j
  {
    hide Handled;
    if i < j {
      LogOnlyGrows(s, requests, decisions, details, trail, i, j - 1);
      assert Handled(s, requests[j - 1], decisions[j - 1], details[j - 1], trail[j - 1], trail[j]);
      LogGrows(s, requests[j - 1], decisions[j - 1], details[j - 1], trail[j - 1], trail[j]);
    }
  }

  /** In a spaced log, two acceptances of one key lie at least the time-to-live apart. */
  lemma TwoAcceptances(s: Setting, requests: seq<Request>, decisions: seq<seq<OrderDecision>>,
                       details: seq<Detail>, trail: seq<Moment>, i: nat, j: nat, key: Key)
    requires s.limits.Valid() && AllHandled(s, requests, decisions, details, trail)
    requires Spaced(trail[|trail| - 1].marks, s.ttl)
    requires i < j < |decisions| && AcceptedIn(decisions[i], key) && AcceptedIn(decisions[j], key)
    ensures trail[j + 1].view.now - trail[i].view.now >= s.ttl
  {
    hide Handled, AcceptedIn;
    var marks := trail[|trail| - 1].marks;
    var p := MarkOf(s, requests[i], decisions[i], details[i], trail[i], trail[i + 1], key);
    var q := MarkOf(s, requests[j], decisions[j], details[j], trail[j], trail[j + 1], key);
    LogOnlyGrows(s, requests, decisions, details, trail, i + 1, j);
    LogOnlyGrows(s, requests, decisions, details, trail, i + 1, |trail| - 1);
    LogOnlyGrows(s, requests, decisions, details, trail, j + 1, |trail| - 1);
    assert marks[p] == trail[i + 1].marks[p] && marks[q] == trail[j + 1].marks[q] && p < q;
  }

  lemma AcceptancesSpaced(s: Setting, requests: seq<Request>, decisions: seq<seq<OrderDecision>>,
                          details: seq<Detail>, trail: seq<Moment>)
    requires s.limits.Valid() && AllHandled(s, requests, decisions, details, trail)
    requires Spaced(trail[|trail| - 1].marks, s.ttl)
    ensures forall i, j, key |
      0 <= i < j < |decisions| && AcceptedIn(decisions[i], key) && AcceptedIn(decisions[j], key)
      :: trail[j + 1].view.now - trail[i].view.now >= s.ttl
  {
    forall i, j, key | 0 <= i < j < |decisions| && AcceptedIn(decisions[i], key) && AcceptedIn(decisions[j], key)
      ensures trail[j + 1].view.now - trail[i].view.now >= s.ttl {
      hide AcceptedIn, Spaced, Handled;
      TwoAcceptances(s, requests, decisions, details, trail, i, j, key);
    }
  }
}
