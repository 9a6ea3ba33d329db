/** Placing one signed order: the exchange as an oracle, and the bounded retry around it. */
module Orders {
  import opened Trading

  datatype ApiReply =
    | Response(rejected: bool, orderId: Option<nat>)
    | ApiError(status: Option<int>, geoText: bool)

  datatype Reply = Accepted(orderId: Option<nat>) | GeoRestricted | PlacementFailed

  /** What is asked of the exchange. */
  datatype Order = Order(token: string, side: Side, price: real, size: real)

  function Signed(side: Side, shares: real): real {
    if side.Buy? then shares else -shares
  }

  /** What the exchange really did: shares matched by order id, net shares traded by token. */
  datatype Tape = Tape(matched: map<nat, real>, held: map<string, real>)

  /** What was asked of the exchange: how often each order was posted, how often each order id was
      polled and how often without an answer, and how many posts met the geoblock. */
  datatype Effort = Effort(posted: multiset<Order>, polled: multiset<nat>, unanswered: multiset<nat>, geoblocks: nat)

  ghost predicate NoLess(before: Effort, after: Effort) {
    && before.posted <= after.posted && before.polled <= after.polled
    && before.unanswered <= after.unanswered && before.geoblocks <= after.geoblocks
  }

  /** An order signed once, under a salt of its own: however often it is posted, the exchange takes
      it at most once. */
  class SignedOrder {
    const order: Order
    var live: bool

    constructor (order: Order)
      ensures this.order == order && !live
    {
      this.order, live := order, false;
    }
  }

  /** The exchange answers as it likes. An error, or a reply without an id, may hide an order that
      was taken, and a reported fill may be wrong. A `truthful` one takes exactly the orders it
      reports as taken, with their ids, and never misreports a fill; its polls may still fail. */
  class Exchange {
    const truthful: bool
    var tape: Tape
    ghost var effort: Effort

    constructor (truthful: bool)
      ensures this.truthful == truthful && tape == Tape(map[], map[])
    {
      this.truthful := truthful;
      tape := Tape(map[], map[]);
      effort := Effort(multiset{}, multiset{}, multiset{}, 0);
    }

    /** `taken` is the id under which the order went onto the tape, if it did. */
    method PostOrder(signed: SignedOrder) returns (reply: ApiReply, ghost taken: Option<nat>)
      modifies this, signed`live
      ensures Records(old(tape), tape, signed.order, taken)
      ensures old(signed.live) ==> taken.None?
      ensures signed.live <==> old(signed.live) || taken.Some?
      ensures truthful ==> taken == TakenAs(reply) && (Taken(reply) ==> reply.orderId.Some?)
      ensures effort == AfterPosts(old(effort), signed.order, 1, if MeetsGeoblock(reply) then 1 else 0)
    {
      var id: nat, shares: real, takes: bool := *, *, *;
      taken := None;
      reply := *;
      if takes && !signed.live && id !in tape.matched && 0.0 <= shares <= Max(0.0, signed.order.size) {
        tape := Record(tape, signed.order, id, shares);
        signed.live, taken := true, Some(id);
        if truthful {
          reply := Response(false, Some(id));
        }
      } else if truthful && Taken(reply) {
        reply := ApiError(None, false);
      }
      effort := effort.(posted := effort.posted + multiset{signed.order},
                        geoblocks := effort.geoblocks + if MeetsGeoblock(reply) then 1 else 0);
    }

    method GetOrder(orderId: nat) returns (sizeMatched: Option<real>)
      modifies this`effort
      ensures effort.posted == old(effort.posted) && effort.geoblocks == old(effort.geoblocks)
      ensures effort.polled == old(effort.polled) + multiset{orderId}
      ensures effort.unanswered
           == old(effort.unanswered) + if sizeMatched.None? then multiset{orderId} else multiset{}
      ensures truthful && orderId in tape.matched && sizeMatched.Some? ==> sizeMatched.value == tape.matched[orderId]
    {
      sizeMatched := *;
      if truthful && orderId in tape.matched && sizeMatched.Some? {
        sizeMatched := Some(tape.matched[orderId]);
      }
      effort := effort.(polled := effort.polled + multiset{orderId});
      if sizeMatched.None? {
        effort := effort.(unanswered := effort.unanswered + multiset{orderId});
      }
    }
  }

  predicate Taken(reply: ApiReply) {
    reply.Response? && !reply.rejected
  }

  function TakenAs(reply: ApiReply): Option<nat> {
    if Taken(reply) then reply.orderId else None
  }

  function Record(tape: Tape, order: Order, id: nat, shares: real): Tape {
    Tape(tape.matched[id := shares],
         tape.held[order.token := Lookup(tape.held, order.token) + Signed(order.side, shares)])
  }

  /** The tape after an order was taken under a new `orderId`, filling at most its size, or not
      taken. */
  ghost predicate Records(before: Tape, after: Tape, order: Order, orderId: Option<nat>) {
    if orderId.Some? then
      && orderId.value !in before.matched && orderId.value in after.matched
      && 0.0 <= after.matched[orderId.value] <= Max(0.0, order.size)
      && after == Record(before, order, orderId.value, after.matched[orderId.value])
    else after == before
  }

  /** Every order on the tape stays there, its fill as it was. */
  ghost predicate FillsKept(before: Tape, after: Tape) {
    forall id | id in before.matched :: id in after.matched && after.matched[id] == before.matched[id]
  }

  const MAX_RETRIES := 3
  const INITIAL_BACKOFF_SECONDS := 1.0
  const MAX_BACKOFF_SECONDS := 10.0

  predicate IsRetryable(reply: ApiReply)
    requires reply.ApiError?
  {
    reply.status.None? || reply.status.value == 429 || reply.status.value >= 500
  }

  predicate IsGeoRestricted(reply: ApiReply)
    requires reply.ApiError?
  {
    reply.status == Some(403) && reply.geoText
  }

  predicate MeetsGeoblock(reply: ApiReply) {
    reply.ApiError? && IsGeoRestricted(reply)
  }

  /** The order id a reply carries. */
  function IdIn(reply: Reply): Option<nat> {
    if reply.Accepted? then reply.orderId else None
  }

  /** `n` more posts of an order, so many of them met by the geoblock. */
  ghost function AfterPosts(effort: Effort, order: Order, n: nat, blocks: nat): Effort {
    effort.(posted := effort.posted[order := effort.posted[order] + n], geoblocks := effort.geoblocks + blocks)
  }

  function Blocks(reply: Reply): nat {
    if reply.GeoRestricted? then 1 else 0
  }

  /** `n` more polls of an order, the last one unanswered unless the fill was told. */
  ghost function AfterPolls(effort: Effort, orderId: nat, n: nat, told: bool): Effort {
    effort.(polled := effort.polled[orderId := effort.polled[orderId] + n],
            unanswered := if told then effort.unanswered
                          else effort.unanswered[orderId := effort.unanswered[orderId] + 1])
  }

  /** Whether to post the same signed order again. */
  predicate TryAgain(reply: ApiReply): (again: bool)
    ensures again <==>
      reply.ApiError? && (reply.status.None? || reply.status.value == 429 || reply.status.value >= 500)
  {
    reply.ApiError? && !IsGeoRestricted(reply) && IsRetryable(reply)
  }

  /** What a final reply means to the caller. */
  function Verdict(reply: ApiReply): (verdict: Reply)
    ensures verdict.Accepted? <==> reply.Response? && !reply.rejected
    ensures verdict.Accepted? ==> verdict.orderId == reply.orderId
    ensures verdict.GeoRestricted? <==> reply.ApiError? && reply.status == Some(403) && reply.geoText
  {
    if reply.ApiError? then (if IsGeoRestricted(reply) then GeoRestricted else PlacementFailed)
    else if reply.rejected then PlacementFailed
    else Accepted(reply.orderId)
  }

  /** Total pause after `n` posts, the pause doubling each time up to its cap. */
  function Pauses(n: nat): real {
    if n <= 1 then 0.0 else Pauses(n - 1) + Backoff(n - 2)
  }

  function Backoff(n: nat): real {
    if n == 0 then INITIAL_BACKOFF_SECONDS else Min(Backoff(n - 1) * 2.0, MAX_BACKOFF_SECONDS)
  }

  /** No pause before the first post, one second before the second, two more before the third. */
  lemma ThreePauses()
    ensures Pauses(1) == 0.0 && Pauses(2) == 1.0 && Pauses(3) == 3.0
  {
    assert Backoff(1) == Min(Backoff(0) * 2.0, MAX_BACKOFF_SECONDS);
  }

  lemma NothingYet(effort: Effort, tape: Tape, order: Order)
    ensures AfterPosts(effort, order, 0, 0) == effort && Records(tape, tape, order, None)
    ensures Pauses(1) == 0.0 && Backoff(0) == INITIAL_BACKOFF_SECONDS
  {
  }

  lemma PostsAdd(start: Effort, order: Order, n: nat, blocks: nat, m: nat, more: nat)
    ensures AfterPosts(AfterPosts(start, order, n, blocks), order, m, more)
            == AfterPosts(start, order, n + m, blocks + more)
  {
  }

  lemma PostsCounted(effort: Effort, order: Order, n: nat, blocks: nat)
    ensures |AfterPosts(effort, order, n, blocks).posted| == |effort.posted| + n
  {
  }

  /** Of two posts of one signed order at most one is taken. */
  lemma TakenOnce(a: Tape, b: Tape, c: Tape, order: Order, first: Option<nat>, second: Option<nat>)
    requires Records(a, b, order, first) && Records(b, c, order, second)
    requires first.None? || second.None?
    ensures Records(a, c, order, if second.Some? then second else first)
  {
  }

  lemma OnePauseMore(n: nat)
    requires n > 0
    ensures Pauses(n + 1) == Pauses(n) + Backoff(n - 1)
    ensures Backoff(n) == Min(Backoff(n - 1) * 2.0, MAX_BACKOFF_SECONDS)
  {
  }

  /** One order is signed once and posted at most three times, again only after a transient failure,
      and the last reply decides; `slept` is the time spent between posts. Whatever the exchange hides
      behind its replies, it takes the order at most once. */
  method PlaceOrder(exchange: Exchange, order: Order)
    returns (reply: Reply, slept: real, ghost replies: seq<ApiReply>, ghost taken: Option<nat>)
    modifies exchange
    ensures 1 <= |replies| <= 3
    ensures forall i | 0 <= i < |replies| - 1 :: TryAgain(replies[i])
    ensures |replies| < 3 ==> !TryAgain(replies[|replies| - 1])
    ensures reply == Verdict(replies[|replies| - 1])
    ensures slept == if |replies| == 1 then 0.0 else if |replies| == 2 then 1.0 else 3.0
    ensures Records(old(exchange.tape), exchange.tape, order, taken)
    ensures exchange.truthful ==> taken == IdIn(reply) && (reply.Accepted? ==> reply.orderId.Some?)
    ensures exchange.effort == AfterPosts(old(exchange.effort), order, |replies|, Blocks(reply))
  {
    hide AfterPosts, Records, Pauses, Backoff;
    ThreePauses();
    var signed := new SignedOrder(order);
    NothingYet(exchange.effort, exchange.tape, order);
    var backoff := INITIAL_BACKOFF_SECONDS;
    slept, replies, taken := 0.0, [], None;
    ghost var start := exchange.effort;
    var attempt := 1;
    while attempt <= MAX_RETRIES
      invariant 1 <= attempt <= MAX_RETRIES + 1 && |replies| == attempt - 1
      invariant forall r | r in replies :: TryAgain(r)
      invariant Records(old(exchange.tape), exchange.tape, order, taken) && (signed.live <==> taken.Some?)
      invariant exchange.truthful ==> taken.None?
      invariant exchange.effort == AfterPosts(start, order, |replies|, 0)
      invariant attempt <= MAX_RETRIES ==> backoff == Backoff(attempt - 1)
      invariant slept == Pauses(if attempt <= MAX_RETRIES then attempt else MAX_RETRIES)
      decreases MAX_RETRIES + 1 - attempt
    {
      var response;
      ghost var now, mid := None, exchange.tape;
      response, now := exchange.PostOrder(signed);
      TakenOnce(old(exchange.tape), mid, exchange.tape, order, taken, now);
      PostsAdd(start, order, |replies|, 0, 1, if MeetsGeoblock(response) then 1 else 0);
      OnePauseMore(attempt);
      taken := if now.Some? then now else taken;
      replies := replies + [response];
      if response.ApiError? {
        if IsGeoRestricted(response) {
          return GeoRestricted, slept, replies, taken;
        }
        if !IsRetryable(response) {
          return PlacementFailed, slept, replies, taken;
        }
        if attempt < MAX_RETRIES {
          slept := slept + backoff;
          backoff := Min(backoff * 2.0, MAX_BACKOFF_SECONDS);
        }
        attempt := attempt + 1;
      } else if response.rejected {
        return PlacementFailed, slept, replies, taken;
      } else {
        return Accepted(response.orderId), slept, replies, taken;
      }
    }
    assert replies[|replies| - 1] in replies;
    return PlacementFailed, slept, replies, taken;
  }
}
