/** What a whole sequence of fills determines: tokens do not interfere, and a position's
    average cost comes from the fills that opened it. */
module FillHistory {
  import opened Trading
  import opened RealFacts
  import opened Portfolio

  // ---- tokens do not interfere ------------------------------------------------------

  ghost predicate FillsOnly(events: seq<Event>) {
    forall e | e in events :: e.Filled?
  }

  /** One token's own subsequence. */
  ghost function Of(events: seq<Event>, token: string): seq<Event>
    requires FillsOnly(events)
  {
    if |events| == 0 then []
    else (if events[0].fill.token == token then [events[0]] else []) + Of(events[1..], token)
  }

  lemma TradesCommute(a: Account, s: string, p: Position, q: real, x: real,
                      t: string, r: Position, u: real, y: real)
    requires s != t && q != 0.0 && u != 0.0
    ensures Traded(Traded(a, s, p, q, x), t, r, u, y) == Traded(Traded(a, t, r, u, y), s, p, q, x)
  {
    var p', r' := Trade(p, q, x).0, Trade(r, u, y).0;
    hide Trade;
    assert a.positions[s := p'][t := r'] == a.positions[t := r'][s := p'];
  }

  lemma FillsCommute(a: Account, e: Event, e': Event)
    requires e.Filled? && e'.Filled? && e.fill.token != e'.fill.token
    ensures Step(Step(a, e), e') == Step(Step(a, e'), e)
  {
    var f, g := e.fill, e'.fill;
    if f.size > 0.0 && g.size > 0.0 {
      TradesCommute(a, f.token, PositionOf(a, f), SignedSize(f), EffectivePrice(f, e.feeRate),
                    g.token, PositionOf(a, g), SignedSize(g), EffectivePrice(g, e'.feeRate));
    }
  }

  /** A fill moves ahead of the other tokens' fills before it. */
  lemma {:induction false} MoveToFront(a: Account, before: seq<Event>, e: Event, after: seq<Event>)
    requires FillsOnly(before) && e.Filled?
    requires forall b | b in before :: b.fill.token != e.fill.token
    ensures Run(a, before + [e] + after) == Run(a, [e] + before + after)
    decreases |before|
  {
    if |before| > 0 {
      var b, rest := before[0], before[1..];
      assert (before + [e] + after)[1..] == rest + [e] + after;
      MoveToFront(Step(a, b), rest, e, after);
      assert ([e] + rest + after)[1..] == rest + after;
      FillsCommute(a, b, e);
      assert ([e] + before + after)[1..] == before + after;
      assert (before + after)[1..] == rest + after;
    } else {
      assert before + [e] + after == [e] + before + after;
    }
  }

  lemma OfFirst(e: Event, rest: seq<Event>, token: string)
    requires FillsOnly([e] + rest) && FillsOnly(rest)
    ensures Of([e] + rest, token) == (if e.fill.token == token then [e] else []) + Of(rest, token)
  {
    assert ([e] + rest)[1..] == rest;
  }

  lemma FrontJoins(first: Event, before: seq<Event>, e: Event, after: seq<Event>)
    ensures [first] + before + [e] + after == [first] + (before + [e] + after)
    ensures [first] + before + after == [first] + (before + after)
  {
  }

  lemma FillsFront(first: Event, rest: seq<Event>)
    ensures FillsOnly([first] + rest) <==> first.Filled? && FillsOnly(rest)
  {
    assert forall e | e in [first] + rest :: e == first || e in rest;
    assert first in [first] + rest && forall e | e in rest :: e in [first] + rest;
  }

  /** The first fill of a token, and the log without it. */
  lemma {:induction false} SplitFirst(events: seq<Event>, token: string)
    returns (before: seq<Event>, e: Event, after: seq<Event>)
    requires FillsOnly(events) && Of(events, token) != []
    ensures events == before + [e] + after && FillsOnly(before) && FillsOnly(before + after)
    ensures e == Of(events, token)[0] && e.fill.token == token
    ensures forall b | b in before :: b.fill.token != token
    ensures forall t :: Of(before + after, t) == if t == token then Of(events, t)[1..] else Of(events, t)
    decreases |events|
  {
    var first, rest := events[0], events[1..];
    assert events == [first] + rest;
    FillsFront(first, rest);
    forall t ensures Of(events, t) == (if first.fill.token == t then [first] else []) + Of(rest, t) {
      OfFirst(first, rest, t);
    }
    hide Of;
    if first.fill.token == token {
      before, e, after := [], first, rest;
      assert before + after == rest;
    } else {
      var before';
      before', e, after := SplitFirst(rest, token);
      before := [first] + before';
      FillsFront(first, before');
      FillsFront(first, before' + after);
      hide FillsOnly;
      FrontJoins(first, before', e, after);
      forall t ensures Of(before + after, t) == if t == token then Of(events, t)[1..] else Of(events, t) {
        OfFirst(first, before' + after, t);
      }
    }
  }

  lemma SomeToken(events: seq<Event>)
    requires FillsOnly(events) && events != []
    ensures exists t :: Of(events, t) != []
  {
    assert Of(events, events[0].fill.token) == [events[0]] + Of(events[1..], events[0].fill.token);
  }

  lemma RunFrom(a: Account, e: Event, rest: seq<Event>, events: seq<Event>)
    requires events == [e] + rest
    ensures Run(a, events) == Run(Step(a, e), rest)
  {
    assert events[1..] == rest;
  }

  /** The log's first event, found in another log that agrees token by token. */
  lemma FindFirst(events: seq<Event>, other: seq<Event>) returns (before: seq<Event>, after: seq<Event>)
    requires FillsOnly(events) && FillsOnly(other) && events != []
    requires forall t :: Of(events, t) == Of(other, t)
    ensures other == before + [events[0]] + after && FillsOnly(before) && FillsOnly(before + after)
    ensures forall b | b in before :: b.fill.token != events[0].fill.token
    ensures forall t :: Of(events[1..], t) == Of(before + after, t)
  {
    var first, rest := events[0], events[1..];
    assert events == [first] + rest;
    forall t ensures Of(events, t) == (if first.fill.token == t then [first] else []) + Of(rest, t) {
      OfFirst(first, rest, t);
    }
    hide Of;
    assert Of(other, first.fill.token) == Of(events, first.fill.token);
    var e;
    before, e, after := SplitFirst(other, first.fill.token);
    forall t ensures Of(rest, t) == Of(before + after, t) {
      assert Of(other, t) == Of(events, t);
    }
  }

  /** Cash, realized profit and every position depend only on each token's own subsequence:
      two logs that agree token by token end in the same account. */
  lemma {:induction false} TokensAreIndependent(a: Account, events: seq<Event>, other: seq<Event>)
    requires FillsOnly(events) && FillsOnly(other)
    requires forall t :: Of(events, t) == Of(other, t)
    ensures Run(a, events) == Run(a, other)
    decreases |events|
  {
    if |events| == 0 {
      if |other| > 0 {
        SomeToken(other);
      }
    } else {
      var e, rest := events[0], events[1..];
      var before, after := FindFirst(events, other);
      hide Of, Step, Run;
      TokensAreIndependent(Step(a, e), rest, before + after);
      MoveToFront(a, before, e, after);
      RunFrom(a, e, before + after, [e] + before + after);
      RunFrom(a, e, rest, events);
    }
  }

  // ---- average cost ------------------------------------------------------------------

  lemma {:induction false} RunAppend(a: Account, events: seq<Event>, e: Event)
    ensures Run(a, events + [e]) == Step(Run(a, events), e)
    decreases |events|
  {
    if |events| > 0 {
      assert (events + [e])[1..] == events[1..] + [e];
      RunAppend(Step(a, events[0]), events[1..], e);
    } else {
      assert [e][1..] == [];
    }
  }

  /** Effective prices of the fills that opened the token's current position, told from the
      share counts alone: those that grew it since it was last flat or on the other side. */
  ghost function Openers(initialCash: real, events: seq<Event>, token: string): seq<real>
    decreases |events|
  {
    if |events| == 0 then []
    else
      var e, past := events[|events| - 1], events[..|events| - 1];
      var was := Shares(Run(Opening(initialCash), past), token);
      var now := Shares(Run(Opening(initialCash), events), token);
      if now == 0.0 then []
      else if e.Settled? || e.fill.token != token then Openers(initialCash, past, token)
      else if (was <= 0.0 && now > 0.0) || (was >= 0.0 && now < 0.0) then
        [EffectivePrice(e.fill, e.feeRate)]
      else if Abs(now) > Abs(was) then
        Openers(initialCash, past, token) + [EffectivePrice(e.fill, e.feeRate)]
      else Openers(initialCash, past, token)
  }

  ghost predicate Within(x: real, prices: seq<real>) {
    exists i, j | 0 <= i < |prices| && 0 <= j < |prices| :: prices[i] <= x <= prices[j]
  }

  lemma WeightedBetween(s: real, x: real, q: real, y: real, z: real)
    requires s > 0.0 && q > 0.0
    ensures z <= x && z <= y ==> z * (s + q) <= x * s + y * q
    ensures x <= z && y <= z ==> x * s + y * q <= z * (s + q)
  {
    var dx, dy := (x - z) * s, (y - z) * q;
    assert x * s + y * q - z * (s + q) == dx + dy;
    if z <= x && z <= y { assert dx >= 0.0 && dy >= 0.0; }
    if x <= z && y <= z { assert dx <= 0.0 && dy <= 0.0; }
  }

  lemma MeanOfPositive(s: real, x: real, q: real, y: real)
    requires s > 0.0 && q > 0.0
    ensures Min(x, y) <= Mean(s, x, q, y) <= Max(x, y)
  {
    WeightedBetween(s, x, q, y, Min(x, y));
    WeightedBetween(s, x, q, y, Max(x, y));
    QuotientBounds(x * s + y * q, s + q, Min(x, y));
    QuotientBounds(x * s + y * q, s + q, Max(x, y));
  }

  /** Shorts average as the same amounts held long. */
  lemma MeanOfShorts(s: real, x: real, q: real, y: real)
    requires s + q != 0.0
    ensures Mean(s, x, q, y) == Mean(-s, x, -q, y)
  {
    var m := Mean(s, x, q, y);
    assert m * (s + q) == x * s + y * q;
    assert m * (-s + -q) == x * -s + y * -q;
    QuotientIs(x * -s + y * -q, -s + -q, m);
  }

  lemma MeanBetween(s: real, x: real, q: real, y: real)
    requires q != 0.0 && (s == 0.0 || (s > 0.0) == (q > 0.0))
    ensures if s == 0.0 then Mean(s, x, q, y) == y
            else Min(x, y) <= Mean(s, x, q, y) <= Max(x, y)
  {
    if s == 0.0 {
      assert x * s == 0.0;
      QuotientIs(y * q, q, y);
    } else if s > 0.0 {
      MeanOfPositive(s, x, q, y);
    } else {
      MeanOfShorts(s, x, q, y);
      hide Mean;
      MeanOfPositive(-s, x, -q, y);
    }
  }

  /** One trade: the average cost stays, becomes the trade's price, or lies between the two. */
  lemma TradeCost(p: Position, q: real, eff: real)
    requires q != 0.0
    ensures var p' := Trade(p, q, eff).0;
      && p'.shares == p.shares + q
      && (p'.shares != 0.0 ==>
        if (p.shares <= 0.0 && p'.shares > 0.0) || (p.shares >= 0.0 && p'.shares < 0.0) then
          p'.avgCost == eff
        else if Abs(p'.shares) > Abs(p.shares) then
          Min(p.avgCost, eff) <= p'.avgCost <= Max(p.avgCost, eff)
        else p'.avgCost == p.avgCost)
  {
    if p.shares == 0.0 || (p.shares > 0.0) == (q > 0.0) {
      MeanBetween(p.shares, p.avgCost, q, eff);
    }
    hide Mean;
  }

  /** Fills of one token that are all on one side. */
  ghost predicate OneSided(events: seq<Event>, token: string, side: Side) {
    forall e | e in events :: e.Filled? && (e.fill.token == token ==> e.fill.side == side)
  }

  /** What a fill of the token came to, its fee included: effective price times signed size. */
  ghost function OutlayOf(e: Event, token: string): real {
    if e.Filled? && e.fill.token == token && e.fill.size > 0.0 then
      Amount(if e.fill.side.Buy? then e.fill.price + e.fill.price * e.feeRate
             else e.fill.price - e.fill.price * e.feeRate,
             if e.fill.side.Buy? then e.fill.size else -e.fill.size)
    else 0.0
  }

  ghost function Outlay(events: seq<Event>, token: string): real {
    if events == [] then 0.0
    else Outlay(events[..|events| - 1], token) + OutlayOf(events[|events| - 1], token)
  }

  /** What a position has cost, nothing for a flat one. */
  function CostOf(a: Account, token: string): real {
    if Shares(a, token) == 0.0 then 0.0 else Cost(token, a.positions[token])
  }

  ghost predicate OnSide(shares: real, side: Side) {
    if side.Buy? then shares >= 0.0 else shares <= 0.0
  }

  lemma OneSidedFill(a: Account, e: Event, token: string, side: Side)
    requires e.Filled? && e.fill.token == token && e.fill.side == side && e.fill.size > 0.0
    requires OnSide(Shares(a, token), side)
    ensures var b := Step(a, e);
      && OnSide(Shares(b, token), side) && b.realized == a.realized
      && CostOf(b, token) == CostOf(a, token) + OutlayOf(e, token)
  {
    hide Trade, Amount, EffectivePrice, SignedSize, OutlayOf;
    var p, q, eff := PositionOf(a, e.fill), SignedSize(e.fill), EffectivePrice(e.fill, e.feeRate);
    OutlayIs(e, token);
    CashPaid(e.fill, e.feeRate);
    TradeBalances(token, p, q, eff);
    TradeRealizes(p, q, eff);
    NoShares(eff - p.avgCost);
    NoShares(p.avgCost);
    assert Cost(token, p) == CostOf(a, token);
  }

  lemma OutlayIs(e: Event, token: string)
    requires e.Filled? && e.fill.token == token && e.fill.size > 0.0
    ensures OutlayOf(e, token) == EffectivePrice(e.fill, e.feeRate) * SignedSize(e.fill)
    ensures e.fill.side.Buy? <==> SignedSize(e.fill) > 0.0
  {
  }

  lemma OtherFill(a: Account, e: Event, token: string)
    requires e.Filled? && (e.fill.token != token || e.fill.size <= 0.0)
    ensures var b := Step(a, e);
      && Shares(b, token) == Shares(a, token) && CostOf(b, token) == CostOf(a, token)
      && (e.fill.size <= 0.0 ==> b == a)
    ensures OutlayOf(e, token) == 0.0
  {
    hide Trade;
  }

  /** Over every run of fills that keep to one side of a token, from none of it, the token's average cost
      times its shares is what those fills came to, and none of them realizes anything. */
  lemma {:induction false} OneSidedCost(a: Account, events: seq<Event>, token: string, side: Side)
    requires Shares(a, token) == 0.0 && OneSided(events, token, side)
    ensures var b := Run(a, events);
      && OnSide(Shares(b, token), side) && CostOf(b, token) == Outlay(events, token)
      && ((forall e | e in events :: e.fill.token == token) ==> b.realized == a.realized)
    decreases |events|
  {
    hide Step, CostOf, OutlayOf, Shares;
    if events == [] {
      NothingHeld(a, token);
    } else {
      var e, past := events[|events| - 1], events[..|events| - 1];
      assert events == past + [e] && e in events && forall x | x in past :: x in events;
      OneSidedCost(a, past, token, side);
      var before := Run(a, past);
      RunAppend(a, past, e);
      if e.fill.token == token && e.fill.size > 0.0 {
        OneSidedFill(before, e, token, side);
      } else {
        OtherFill(before, e, token);
      }
    }
  }

  lemma NothingHeld(a: Account, token: string)
    requires Shares(a, token) == 0.0
    ensures CostOf(a, token) == 0.0
  {
  }

  lemma WithinExtended(x: real, prices: seq<real>, y: real, z: real)
    requires Within(x, prices) && Min(x, y) <= z <= Max(x, y)
    ensures Within(z, prices + [y])
  {
    var i, j :| 0 <= i < |prices| && 0 <= j < |prices| && prices[i] <= x <= prices[j];
    var longer := prices + [y];
    assert longer[|prices|] == y && longer[i] == prices[i] && longer[j] == prices[j];
    if y <= x {
      assert longer[|prices|] <= z <= longer[j];
    } else {
      assert longer[i] <= z <= longer[|prices|];
    }
  }

  /** Over every run, an open position's average cost lies between the least and the greatest
      effective price of the fills that opened it. */
  lemma {:induction false} CostWithinOpeners(initialCash: real, events: seq<Event>, token: string)
    ensures var a := Run(Opening(initialCash), events);
      Shares(a, token) != 0.0 ==>
        Within(a.positions[token].avgCost, Openers(initialCash, events, token))
    decreases |events|
  {
    if |events| > 0 {
      var e, past := events[|events| - 1], events[..|events| - 1];
      assert events == past + [e];
      RunAppend(Opening(initialCash), past, e);
      CostWithinOpeners(initialCash, past, token);
      var before, after := Run(Opening(initialCash), past), Run(Opening(initialCash), events);
      if Shares(after, token) != 0.0 {
        if e.Settled? {
          SettledPositions(before, e.resolutions);
        } else if e.fill.token == token && e.fill.size > 0.0 {
          var eff := EffectivePrice(e.fill, e.feeRate);
          var p, p' := PositionOf(before, e.fill), after.positions[token];
          TradeCost(p, SignedSize(e.fill), eff);
          hide Trade, EffectivePrice;
          var prices := Openers(initialCash, past, token);
          if (p.shares <= 0.0 && p'.shares > 0.0) || (p.shares >= 0.0 && p'.shares < 0.0) {
            assert [eff][0] <= p'.avgCost <= [eff][0];
          } else if Abs(p'.shares) > Abs(p.shares) {
            WithinExtended(p.avgCost, prices, eff, p'.avgCost);
          }
        }
      }
    }
  }
}
