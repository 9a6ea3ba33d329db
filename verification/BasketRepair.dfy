/** What the repair of a half-filled basket does: leg by leg, the rounds in which it closes what the
    leg has in excess, and what they come to on the exchange. */
module BasketRepair {
  import opened Trading
  import opened Orders
  import opened Flattening

  const EPSILON := 0.000001
  const FILL_POLL_ATTEMPTS := 5

  /** A leg, what it has in excess of the others, and the rounds in which that was closed. */
  datatype Closing = Closing(token: string, side: Side, excess: real, rounds: seq<Attempt>)

  /** Closing orders sell at the lowest price and buy at the highest. */
  function ClosingPrice(side: Side): real {
    if side.Buy? then 0.01 else 0.99
  }

  /** An excess to speak of is flattened, rounded to cents. */
  ghost predicate ClosedOut(c: Closing) {
    if c.excess <= 0.000001 then c.rounds == [] else Flattened(RoundCents(c.excess), c.rounds)
  }

  /** There was nothing to close, or it cleared with every fill told. */
  predicate Finished(c: Closing) {
    c.excess <= EPSILON || (NothingLeft(RoundCents(c.excess), c.rounds) && AllTold(c.rounds))
  }

  /** The exposure that the closing orders return. */
  function Released(closings: seq<Closing>): real {
    if closings == [] then 0.0
    else
      var last := closings[|closings| - 1];
      Released(closings[..|closings| - 1]) + Returned(ClosingPrice(last.side), last.rounds)
  }

  /** What the closing orders gained of a token. */
  function Moved(closings: seq<Closing>, token: string): real {
    if closings == [] then 0.0
    else
      var last := closings[|closings| - 1];
      Moved(closings[..|closings| - 1], token)
      + if last.token == token then Signed(Opposite(last.side), Filled(last.rounds)) else 0.0
  }

  /** The closing order, but for its size. */
  function ClosingOrder(c: Closing): Order {
    Order(c.token, Opposite(c.side), ClosingPrice(c.side), 0.0)
  }

  /** How many rounds ordered exactly this. */
  function RoundsOf(template: Order, rounds: seq<Attempt>, order: Order): nat {
    if rounds == [] then 0
    else
      RoundsOf(template, rounds[..|rounds| - 1], order)
      + if template.(size := rounds[|rounds| - 1].size) == order then 1 else 0
  }

  function RoundsFor(closings: seq<Closing>, order: Order): nat {
    if closings == [] then 0
    else
      var last := closings[|closings| - 1];
      RoundsFor(closings[..|closings| - 1], order) + RoundsOf(ClosingOrder(last), last.rounds, order)
  }

  // ---- on the exchange ----------------------------------------------------------------------

  /** One token's net holding has moved by `change`, and no other's. */
  ghost predicate HeldChanged(before: Tape, after: Tape, token: string, change: real) {
    FillsKept(before, after)
    && forall t :: Lookup(after.held, t) == Lookup(before.held, t) + if t == token then change else 0.0
  }

  /** Every token's net holding has moved by what the closing orders gained. */
  ghost predicate TapeMoved(before: Tape, after: Tape, closings: seq<Closing>) {
    FillsKept(before, after)
    && forall t :: Lookup(after.held, t) == Lookup(before.held, t) + Moved(closings, t)
  }

  /** Some poll went unanswered. */
  ghost predicate Missed(before: Effort, after: Effort) {
    exists id :: after.unanswered[id] > before.unanswered[id]
  }

  /** So many rounds post an order: at least once each, and at most five times three. */
  ghost predicate PostsIn(before: Effort, after: Effort, order: Order, rounds: nat) {
    before.posted[order] + rounds <= after.posted[order]
      <= before.posted[order] + rounds * FILL_POLL_ATTEMPTS * MAX_RETRIES
  }

  /** The rounds posted their own orders and nothing else, met the geoblock only by posting, and a fill
      stayed untold only for want of an answer. */
  ghost predicate Worked(before: Effort, after: Effort, template: Order, rounds: seq<Attempt>) {
    && NoLess(before, after)
    && (forall o :: PostsIn(before, after, o, RoundsOf(template, rounds, o)))
    && after.geoblocks - before.geoblocks <= |after.posted| - |before.posted|
    && (!AllTold(rounds) ==> Missed(before, after))
  }

  ghost predicate EffortMoved(before: Effort, after: Effort, closings: seq<Closing>) {
    && NoLess(before, after)
    && (forall o :: PostsIn(before, after, o, RoundsFor(closings, o)))
    && after.geoblocks - before.geoblocks <= |after.posted| - |before.posted|
    && ((exists c | c in closings :: !AllTold(c.rounds)) ==> Missed(before, after))
  }

  lemma HeldTwice(a: Tape, b: Tape, c: Tape, token: string, side: Side, x: real, y: real)
    requires HeldChanged(a, b, token, Signed(side, x)) && HeldChanged(b, c, token, Signed(side, y))
    ensures HeldChanged(a, c, token, Signed(side, x + y))
  {
  }

  lemma WorkedTwice(a: Effort, b: Effort, c: Effort, template: Order, rounds: seq<Attempt>, r: Attempt)
    requires Worked(a, b, template, rounds) && Worked(b, c, template, [r])
    ensures Worked(a, c, template, rounds + [r])
  {
    var longer := rounds + [r];
    assert longer[..|rounds|] == rounds && [r][..0] == [];
    forall o ensures PostsIn(a, c, o, RoundsOf(template, longer, o)) {
      assert PostsIn(a, b, o, RoundsOf(template, rounds, o)) && PostsIn(b, c, o, RoundsOf(template, [r], o));
      assert RoundsOf(template, [r], o)
          == RoundsOf(template, [r][..0], o) + if template.(size := r.size) == o then 1 else 0;
    }
    assert forall id :: a.unanswered[id] <= b.unanswered[id] <= c.unanswered[id];
    if !AllTold(longer) && AllTold(rounds) {
      assert !AllTold([r]);
    }
  }

  lemma NothingClosed(tape: Tape, effort: Effort)
    ensures TapeMoved(tape, tape, []) && EffortMoved(effort, effort, []) && Released([]) == 0.0
  {
  }

  lemma NoRounds(tape: Tape, effort: Effort, template: Order, size: real)
    ensures HeldChanged(tape, tape, template.token, Signed(template.side, Filled([])))
    ensures Worked(effort, effort, template, []) && Ordered(size, []) && Remaining(size, []) == size
    ensures Returned(template.price, []) == 0.0
  {
  }

  /** Closing one more leg. */
  lemma OneMoreClosing(start: Tape, before: Tape, after: Tape, closings: seq<Closing>, c: Closing)
    requires TapeMoved(start, before, closings)
    requires HeldChanged(before, after, c.token, Signed(Opposite(c.side), Filled(c.rounds)))
    ensures TapeMoved(start, after, closings + [c])
    ensures Released(closings + [c]) == Released(closings) + Returned(ClosingPrice(c.side), c.rounds)
  {
    var longer := closings + [c];
    assert longer[..|closings|] == closings;
    hide Filled, Returned;
    forall t ensures Lookup(after.held, t) == Lookup(start.held, t) + Moved(longer, t) {
      assert Moved(longer, t) == Moved(closings, t)
        + if c.token == t then Signed(Opposite(c.side), Filled(c.rounds)) else 0.0;
    }
  }

  lemma OneMoreEffort(start: Effort, before: Effort, after: Effort, closings: seq<Closing>, c: Closing)
    requires EffortMoved(start, before, closings) && Worked(before, after, ClosingOrder(c), c.rounds)
    ensures EffortMoved(start, after, closings + [c])
  {
    var longer := closings + [c];
    assert longer[..|closings|] == closings;
    forall o ensures PostsIn(start, after, o, RoundsFor(longer, o)) {
      assert PostsIn(start, before, o, RoundsFor(closings, o));
      assert PostsIn(before, after, o, RoundsOf(ClosingOrder(c), c.rounds, o));
    }
    assert forall id :: start.unanswered[id] <= before.unanswered[id] <= after.unanswered[id];
    hide PostsIn, AllTold;
  }

  lemma {:induction false} RoundOrdering(template: Order, rounds: seq<Attempt>, order: Order) returns (k: nat)
    requires RoundsOf(template, rounds, order) > 0
    ensures k < |rounds| && order == template.(size := rounds[k].size)
  {
    var n := |rounds| - 1;
    if template.(size := rounds[n].size) == order {
      k := n;
    } else {
      k := RoundOrdering(template, rounds[..n], order);
    }
  }

  lemma {:induction false} ClosingOrdering(closings: seq<Closing>, order: Order) returns (l: nat)
    requires RoundsFor(closings, order) > 0
    ensures l < |closings| && RoundsOf(ClosingOrder(closings[l]), closings[l].rounds, order) > 0
  {
    var n := |closings| - 1;
    if RoundsOf(ClosingOrder(closings[n]), closings[n].rounds, order) > 0 {
      l := n;
    } else {
      l := ClosingOrdering(closings[..n], order);
    }
  }

  /** Whatever was posted on the way closes one of the legs: a whole number of cents of a share, sold
      at one cent or bought at 99. */
  lemma PostedCloses(closings: seq<Closing>, before: Effort, after: Effort, order: Order) returns (l: nat)
    requires EffortMoved(before, after, closings) && after.posted[order] > before.posted[order]
    requires forall c | c in closings :: ClosedOut(c)
    ensures l < |closings| && order.token == closings[l].token && order.side != closings[l].side
    ensures order.price == if order.side.Sell? then 0.01 else 0.99
    ensures order.size > 0.0 && WholeCents(order.size)
  {
    hide RoundCents, WholeCents, Matched, NothingLeft;
    assert PostsIn(before, after, order, RoundsFor(closings, order));
    l := ClosingOrdering(closings, order);
    var c := closings[l];
    var k := RoundOrdering(ClosingOrder(c), c.rounds, order);
    assert c in closings;
    OrderedInCents(RoundCents(c.excess), c.rounds, k);
  }

  // ---- what it comes to ---------------------------------------------------------------------------

  predicate TokensApart(closings: seq<Closing>) {
    forall i, j | 0 <= i < j < |closings| :: closings[i].token != closings[j].token
  }

  lemma {:induction false} OthersMove(closings: seq<Closing>, token: string)
    requires forall c | c in closings :: c.token != token
    ensures Moved(closings, token) == 0.0
  {
    if closings != [] {
      var n := |closings| - 1;
      assert closings[n] in closings && forall c | c in closings[..n] :: c in closings;
      OthersMove(closings[..n], token);
    }
  }

  /** With one closing a token, a token moves by its own closing's fills. */
  lemma {:induction false} OwnMove(closings: seq<Closing>, k: nat)
    requires TokensApart(closings) && k < |closings|
    ensures Moved(closings, closings[k].token) == Signed(Opposite(closings[k].side), Filled(closings[k].rounds))
  {
    var n := |closings| - 1;
    hide Filled;
    if k < n {
      OwnMove(closings[..n], k);
    } else {
      OthersMove(closings[..n], closings[n].token);
    }
  }

  /** When everything finished with an honest exchange, each leg has sold its excess to within a cent
      of a share. */
  lemma FinishedIsHedged(c: Closing)
    requires ClosedOut(c) && Finished(c) && c.excess >= 0.0 && forall r | r in c.rounds :: Honest(r)
    ensures -0.01 <= c.excess - Filled(c.rounds) <= 0.01
  {
    if c.excess > EPSILON {
      ClearedIsHedged(c.excess, c.rounds);
    }
  }

  /** A closing stays unfinished only after a poll without an answer, or after five rounds. */
  lemma UnfinishedIsStrained(closings: seq<Closing>, before: Effort, after: Effort, c: Closing)
    requires EffortMoved(before, after, closings) && c in closings && ClosedOut(c) && !Finished(c)
    ensures Missed(before, after) || |c.rounds| == FLATTEN_ROUNDS
  {
  }

  lemma {:induction false} ReturnsSomething(size: real, price: real, rounds: seq<Attempt>)
    requires price >= 0.0 && Ordered(size, rounds)
    ensures Returned(price, rounds) >= 0.0
  {
    if rounds != [] {
      AllButLast(size, rounds);
      ReturnsSomething(size, price, rounds[..|rounds| - 1]);
      PositiveValue(price, rounds[|rounds| - 1].size);
      hide RoundCents, Remaining, ValueAt;
    }
  }

  lemma PositiveValue(price: real, size: real)
    requires price >= 0.0
    ensures size > 0.0 ==> ValueAt(price, size) >= 0.0
  {
  }

  /** Closing never books exposure, whatever the exchange reports. */
  lemma {:induction false} NotNegative(closings: seq<Closing>)
    requires forall c | c in closings :: ClosedOut(c)
    ensures Released(closings) >= 0.0
  {
    if closings != [] {
      var n := |closings| - 1;
      assert closings[n] in closings && forall c | c in closings[..n] :: c in closings;
      NotNegative(closings[..n]);
      var c := closings[n];
      if c.excess > EPSILON {
        ReturnsSomething(RoundCents(c.excess), ClosingPrice(c.side), c.rounds);
      }
    }
  }

  /** Five times the worth of a rounded excess above a millionth of a share, added up. */
  lemma MostReleasedAdds(closings: seq<Closing>, c: Closing)
    ensures MostReleased([]) == 0.0
    ensures MostReleased(closings + [c]) == MostReleased(closings)
      + if c.excess <= 0.000001 then 0.0
        else 5.0 * ((if c.side.Buy? then 0.01 else 0.99) * RoundCents(c.excess))
  {
    assert (closings + [c])[..|closings|] == closings;
  }

  /** The most that can be returned: five times the worth of each leg's rounded excess. */
  function MostReleased(closings: seq<Closing>): real {
    if closings == [] then 0.0
    else
      var last := closings[|closings| - 1];
      MostReleased(closings[..|closings| - 1])
      + if last.excess <= EPSILON then 0.0
        else Times(FLATTEN_ROUNDS, ValueAt(ClosingPrice(last.side), RoundCents(last.excess)))
  }

  /** With an honest exchange the repair returns no more than that; nothing when no leg is ahead. */
  lemma {:induction false} ReleasedWithin(closings: seq<Closing>)
    requires forall c | c in closings :: ClosedOut(c) && forall r | r in c.rounds :: Honest(r)
    ensures 0.0 <= Released(closings) <= MostReleased(closings)
    ensures (forall c | c in closings :: c.excess <= EPSILON) ==> Released(closings) == 0.0
  {
    if closings != [] {
      var n := |closings| - 1;
      assert closings[n] in closings && forall c | c in closings[..n] :: c in closings;
      ReleasedWithin(closings[..n]);
      OneReleasedWithin(closings[n]);
      hide ClosedOut, Returned, Times, ValueAt, RoundCents;
    }
  }

  lemma OneReleasedWithin(c: Closing)
    requires ClosedOut(c) && forall r | r in c.rounds :: Honest(r)
    ensures 0.0 <= Returned(ClosingPrice(c.side), c.rounds)
    ensures c.excess <= EPSILON ==> Returned(ClosingPrice(c.side), c.rounds) == 0.0
    ensures c.excess > EPSILON ==>
      Returned(ClosingPrice(c.side), c.rounds)
      <= Times(FLATTEN_ROUNDS, ValueAt(ClosingPrice(c.side), RoundCents(c.excess)))
  {
    if c.excess > EPSILON {
      var size, price := RoundCents(c.excess), ClosingPrice(c.side);
      RoundCentsTwice(c.excess);
      ReturnedWithin(size, price, c.rounds);
      FewerTimes(|c.rounds|, price, size);
    }
  }

  lemma FewerTimes(n: nat, price: real, size: real)
    requires n <= FLATTEN_ROUNDS && price >= 0.0 && size >= 0.0
    ensures Times(n, ValueAt(price, size)) <= Times(FLATTEN_ROUNDS, ValueAt(price, size))
  {
    assert ValueAt(price, size) >= 0.0;
  }
}
