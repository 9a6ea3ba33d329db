/** Selling off an unhedged excess in two-decimal orders that may each fill only partly. */
module Flattening {
  import opened Trading
  import opened RealFacts

  const FLATTEN_ROUNDS := 5

  /** One round of a flatten: the size ordered, whether a closing order was placed, whether its fill
      was told, the fill reported, zero when there is none, and what really filled. */
  datatype Attempt = Attempt(size: real, placed: bool, told: bool, matched: real, fill: real)

  function Matched(rounds: seq<Attempt>): real {
    if rounds == [] then 0.0 else Matched(rounds[..|rounds| - 1]) + rounds[|rounds| - 1].matched
  }

  function Filled(rounds: seq<Attempt>): real {
    if rounds == [] then 0.0 else Filled(rounds[..|rounds| - 1]) + rounds[|rounds| - 1].fill
  }

  /** What is left of `size` as far as the reported fills tell. */
  function Remaining(size: real, rounds: seq<Attempt>): real {
    size - Matched(rounds)
  }

  /** Nothing is left to the cent. */
  predicate NothingLeft(size: real, rounds: seq<Attempt>) {
    RoundCents(Remaining(size, rounds)) <= 0.0
  }

  /** Every round orders what is left, rounded to cents, and there is something left to order. */
  ghost predicate Ordered(size: real, rounds: seq<Attempt>) {
    forall k | 0 <= k < |rounds| :: rounds[k].size == RoundCents(Remaining(size, rounds[..k])) > 0.0
  }

  /** Whatever a round orders is a size the exchange takes: a positive whole number of cents of a share, as
      near as that comes to what is left. */
  lemma OrderedInCents(size: real, rounds: seq<Attempt>, k: nat)
    requires Ordered(size, rounds) && k < |rounds|
    ensures rounds[k].size > 0.0 && WholeCents(rounds[k].size)
    ensures -0.005 <= rounds[k].size - (size - Matched(rounds[..k])) <= 0.005
  {
    hide RoundCents;
  }

  /** Rounds go on until nothing is left, or five were run; each orders a positive whole number of cents of
      a share, within half a cent of what is left. */
  ghost predicate Flattened(size: real, rounds: seq<Attempt>) {
    && Ordered(size, rounds) && |rounds| <= 5
    && (|rounds| < 5 ==> NothingLeft(size, rounds))
    && forall k | 0 <= k < |rounds| ::
         && rounds[k].size > 0.0 && WholeCents(rounds[k].size)
         && -0.005 <= rounds[k].size - (size - Matched(rounds[..k])) <= 0.005
  }

  lemma EndsFlattened(size: real, rounds: seq<Attempt>)
    requires Ordered(size, rounds) && |rounds| <= FLATTEN_ROUNDS
    requires |rounds| < FLATTEN_ROUNDS ==> NothingLeft(size, rounds)
    ensures Flattened(size, rounds)
  {
    hide RoundCents, WholeCents, NothingLeft;
    forall k | 0 <= k < |rounds|
      ensures rounds[k].size > 0.0 && WholeCents(rounds[k].size)
      ensures -0.005 <= rounds[k].size - (size - Matched(rounds[..k])) <= 0.005 {
      OrderedInCents(size, rounds, k);
    }
  }

  /** A fill is within the order's size and reported as it is, or not at all; without an order
      nothing fills. */
  predicate Honest(r: Attempt) {
    && 0.0 <= r.fill <= r.size
    && r.matched == (if r.told then r.fill else 0.0)
    && (!r.placed ==> r.fill == 0.0)
  }

  /** Every fill was told. */
  predicate AllTold(rounds: seq<Attempt>) {
    forall r | r in rounds :: r.told
  }

  function ValueAt(price: real, size: real): real {
    price * size
  }

  /** The exposure returned: the worth of every closing order placed. */
  function Returned(price: real, rounds: seq<Attempt>): real {
    if rounds == [] then 0.0
    else
      var last := rounds[|rounds| - 1];
      Returned(price, rounds[..|rounds| - 1]) + if last.placed then ValueAt(price, last.size) else 0.0
  }

  lemma OneMoreRound(size: real, rounds: seq<Attempt>, r: Attempt)
    requires Ordered(size, rounds) && r.size == RoundCents(Remaining(size, rounds)) > 0.0
    ensures Ordered(size, rounds + [r])
  {
    hide Remaining, RoundCents;
    var longer := rounds + [r];
    assert longer[..|rounds|] == rounds;
    forall k | 0 <= k < |longer| ensures longer[k].size == RoundCents(Remaining(size, longer[..k])) > 0.0 {
      if k < |rounds| {
        assert longer[..k] == rounds[..k];
      }
    }
  }

  lemma OneRoundSums(price: real, rounds: seq<Attempt>, r: Attempt)
    ensures Matched(rounds + [r]) == Matched(rounds) + r.matched
    ensures Filled(rounds + [r]) == Filled(rounds) + r.fill
    ensures Returned(price, rounds + [r]) == Returned(price, rounds) + if r.placed then ValueAt(price, r.size) else 0.0
  {
    assert (rounds + [r])[..|rounds|] == rounds;
  }

  lemma AllButLast(size: real, rounds: seq<Attempt>)
    requires Ordered(size, rounds) && rounds != []
    ensures Ordered(size, rounds[..|rounds| - 1])
    ensures forall r | r in rounds[..|rounds| - 1] :: r in rounds
    ensures rounds[|rounds| - 1] in rounds
  {
    hide RoundCents, Matched;
    var n := |rounds| - 1;
    assert forall k | 0 <= k < n :: rounds[..n][..k] == rounds[..k];
  }

  /** Rounding up can sell more than was left, but never by more than half a cent of a share,
      however many rounds are run. */
  lemma {:induction false} NeverOversold(size: real, rounds: seq<Attempt>)
    requires size >= 0.0 && Ordered(size, rounds) && forall r | r in rounds :: Honest(r)
    ensures -0.005 <= Remaining(size, rounds) <= size
  {
    if rounds != [] {
      AllButLast(size, rounds);
      NeverOversold(size, rounds[..|rounds| - 1]);
    }
  }

  /** Reported in full, the fills are the real ones. */
  lemma {:induction false} ToldInFull(rounds: seq<Attempt>)
    requires AllTold(rounds) && forall r | r in rounds :: Honest(r)
    ensures Matched(rounds) == Filled(rounds)
  {
    if rounds != [] {
      var n := |rounds| - 1;
      assert rounds[n] in rounds && forall r | r in rounds[..n] :: r in rounds;
      ToldInFull(rounds[..n]);
    }
  }

  /** Cleared means at most half a cent is left, so with the rounding of the excess itself the
      leg ends within one cent of a share of where it should be. */
  lemma ClearedIsHedged(excess: real, rounds: seq<Attempt>)
    requires excess >= 0.0 && Ordered(RoundCents(excess), rounds) && forall r | r in rounds :: Honest(r)
    requires AllTold(rounds) && NothingLeft(RoundCents(excess), rounds)
    ensures -0.01 <= excess - Filled(rounds) <= 0.01
  {
    NeverOversold(RoundCents(excess), rounds);
    ToldInFull(rounds);
  }

  /** No round orders more than the first one. */
  lemma NoLargerRound(size: real, rounds: seq<Attempt>, k: nat)
    requires size >= 0.0 && RoundCents(size) == size && k < |rounds|
    requires Ordered(size, rounds) && forall r | r in rounds :: Honest(r)
    ensures rounds[k].size <= size
  {
    assert Ordered(size, rounds[..k]) by {
      assert forall j | 0 <= j < k :: rounds[..k][..j] == rounds[..j];
      hide RoundCents, Matched;
    }
    NeverOversold(size, rounds[..k]);
    RoundCentsMonotone(Remaining(size, rounds[..k]), size);
  }

  /** So many times an amount. */
  function Times(n: nat, amount: real): real {
    n as real * amount
  }

  /** What a flatten returns of the exposure: at most the worth of its first order in every round. */
  lemma {:induction false} ReturnedWithin(size: real, price: real, rounds: seq<Attempt>)
    requires size >= 0.0 && RoundCents(size) == size && price >= 0.0
    requires Ordered(size, rounds) && forall r | r in rounds :: Honest(r)
    ensures 0.0 <= Returned(price, rounds) <= Times(|rounds|, ValueAt(price, size))
  {
    if rounds != [] {
      var n := |rounds| - 1;
      AllButLast(size, rounds);
      ReturnedWithin(size, price, rounds[..n]);
      NoLargerRound(size, rounds, n);
      OneRoundWithin(size, price, rounds[n], n);
      hide RoundCents, Ordered, ValueAt, Times;
    }
  }

  lemma OneRoundWithin(size: real, price: real, r: Attempt, n: nat)
    requires price >= 0.0 && Honest(r) && r.size <= size
    ensures 0.0 <= ValueAt(price, r.size) <= ValueAt(price, size)
    ensures Times(n + 1, ValueAt(price, size)) == Times(n, ValueAt(price, size)) + ValueAt(price, size)
  {
    MulMonotone(0.0, r.size, price);
    MulMonotone(r.size, size, price);
  }

  lemma ValuesAdd(price: real, x: real, y: real)
    ensures ValueAt(price, x + y) == ValueAt(price, x) + ValueAt(price, y)
    ensures ValueAt(price, 0.0) == 0.0
  {
  }

  /** Exactly the worth of what was sold is returned if and only if every closing order placed was
      filled whole; otherwise more. */
  lemma {:induction false} ReturnedAsSold(price: real, rounds: seq<Attempt>)
    requires price > 0.0 && forall r | r in rounds :: Honest(r)
    ensures Returned(price, rounds) >= ValueAt(price, Filled(rounds))
    ensures Returned(price, rounds) == ValueAt(price, Filled(rounds))
      <==> forall r | r in rounds && r.placed :: r.fill == r.size
  {
    ValuesAdd(price, 0.0, 0.0);
    if rounds != [] {
      var n := |rounds| - 1;
      var last, before := rounds[n], rounds[..n];
      assert rounds == before + [last];
      ReturnedAsSold(price, before);
      ValuesAdd(price, Filled(before), last.fill);
      WholeOrPart(price, last);
      hide Honest, ValueAt;
    }
  }

  lemma WholeOrPart(price: real, r: Attempt)
    requires price > 0.0 && Honest(r)
    ensures ValueAt(price, r.fill) <= ValueAt(price, r.size)
    ensures !r.placed ==> ValueAt(price, r.fill) == 0.0
    ensures ValueAt(price, r.fill) == ValueAt(price, r.size) <==> r.fill == r.size
  {
    MulMonotone(r.fill, r.size, price);
    if r.fill < r.size {
      MulPositive(price, r.size - r.fill);
      ValuesAdd(price, r.fill, r.size - r.fill);
    }
  }
}
