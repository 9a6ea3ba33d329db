/** The legs of a basket on a thread pool: one thread a leg, all sharing the order manager's
    tables, each running the submission path step by step in any interleaving. The exposure
    update is four separate reads and writes under a lock. */
module LegPool {
  import opened Trading
  import opened Orders

  /** Price and size are rounded to four decimals, in units of 0.0001. */
  datatype Key = Key(token: string, side: Side, price: int, size: int, strategy: string)

  function IdempotencyKey(token: string, side: Side, price: real, size: real, strategy: string): Key {
    Key(token, side, Round(price * 10000.0), Round(size * 10000.0), strategy)
  }

  /** Price and size enter a key as the nearest whole number of ten-thousandths. */
  lemma KeyIsNearest(token: string, side: Side, price: real, size: real, strategy: string, p: int, q: int)
    requires -0.5 < price * 10000.0 - p as real < 0.5 && -0.5 < size * 10000.0 - q as real < 0.5
    ensures IdempotencyKey(token, side, price, size, strategy) == Key(token, side, p, q, strategy)
  {
  }

  /** Orders with one key agree in token, side and strategy, and in price and size to a ten-thousandth. */
  lemma SameKeyIsClose(token: string, side: Side, price: real, size: real, strategy: string, token': string,
                       side': Side, price': real, size': real, strategy': string)
    requires IdempotencyKey(token, side, price, size, strategy)
          == IdempotencyKey(token', side', price', size', strategy')
    ensures token == token' && side == side' && strategy == strategy'
    ensures -0.0001 <= price - price' <= 0.0001 && -0.0001 <= size - size' <= 0.0001
  {
  }

  /** The tables the legs share. */
  datatype Books = Books(market: map<string, real>, total: real, seen: map<Key, real>, geoRestricted: bool)

  datatype Task = Task(key: Key, price: real, size: real, notional: real)

  /** What all the legs have in common, and what each has to submit. */
  datatype Basket = Basket(conditionId: string, dryRun: bool, ttl: real, tasks: seq<Task>)

  datatype Result = Duplicate | Refused | Sent(orderId: Option<nat>)

  /** Where a thread stands in submitting its leg. */
  datatype Stage =
    | Checking
    | Cleared
    | Posting
    | Marking(orderId: Option<nat>)
    | WaitingForLock(orderId: Option<nat>)
    | Holding(orderId: Option<nat>)
    | MarketRead(orderId: Option<nat>, market: real)
    | MarketWritten(orderId: Option<nat>)
    | TotalRead(orderId: Option<nat>, total: real)
    | TotalWritten(orderId: Option<nat>)
    | Done(result: Result)

  /** A key and the time it was recorded as submitted. */
  datatype Mark = Mark(key: Key, time: real)

  datatype Pool = Pool(books: Books, now: real, lock: Option<nat>, stages: seq<Stage>, marks: seq<Mark>)

  /** Which leg moves, how much time passes first, and what the exchange replies if asked. */
  datatype Pick = Pick(leg: nat, elapsed: real, reply: Reply)

  predicate IsDuplicate(seen: map<Key, real>, key: Key, now: real, ttl: real) {
    key in seen && now - seen[key] < ttl
  }

  function Start(basket: Basket, books: Books, now: real): Pool {
    Pool(books, now, None, seq(|basket.tasks|, _ => Checking), [])
  }

  predicate Legal(basket: Basket, pool: Pool, pick: Pick) {
    |pool.stages| == |basket.tasks| && pick.leg < |pool.stages| && pick.elapsed >= 0.0
  }

  /** What one step makes of the thread's own stage, the shared tables and the lock. */
  datatype Effect = Effect(stage: Stage, books: Books, lock: Option<nat>, marked: bool)

  /** One step of one thread; a finished thread, or one waiting for a taken lock, stands still. */
  function Move(basket: Basket, leg: nat, stage: Stage, b: Books, lock: Option<nat>, now: real, reply: Reply): Effect
    requires leg < |basket.tasks|
  {
    var task, market := basket.tasks[leg], basket.conditionId;
    match stage
    case Checking =>
      var duplicate := IsDuplicate(b.seen, task.key, now, basket.ttl);
      Effect(if duplicate then Done(Duplicate) else Cleared, b, lock, false)
    case Cleared =>
      Effect(if basket.dryRun then Marking(None) else if b.geoRestricted then Done(Refused) else Posting,
             b, lock, false)
    case Posting =>
      (match reply
       case Accepted(orderId) => Effect(Marking(orderId), b, lock, false)
       case GeoRestricted => Effect(Done(Refused), b.(geoRestricted := true), lock, false)
       case PlacementFailed => Effect(Done(Refused), b, lock, false))
    case Marking(id) =>
      Effect(if market == "" then Done(Sent(id)) else WaitingForLock(id), b.(seen := b.seen[task.key := now]),
             lock, true)
    case WaitingForLock(id) =>
      if lock.Some? then Effect(stage, b, lock, false) else Effect(Holding(id), b, Some(leg), false)
    case Holding(id) => Effect(MarketRead(id, Lookup(b.market, market)), b, lock, false)
    case MarketRead(id, m) =>
      Effect(MarketWritten(id), b.(market := b.market[market := m + task.notional]), lock, false)
    case MarketWritten(id) => Effect(TotalRead(id, b.total), b, lock, false)
    case TotalRead(id, t) => Effect(TotalWritten(id), b.(total := t + task.notional), lock, false)
    case TotalWritten(id) => Effect(Done(Sent(id)), b, None, false)
    case Done(_) => Effect(stage, b, lock, false)
  }

  function Step(basket: Basket, pool: Pool, pick: Pick): Pool
    requires Legal(basket, pool, pick)
  {
    var i, now := pick.leg, pool.now + pick.elapsed;
    var e := Move(basket, i, pool.stages[i], pool.books, pool.lock, now, pick.reply);
    Pool(e.books, now, e.lock, pool.stages[i := e.stage],
         if e.marked then pool.marks + [Mark(basket.tasks[i].key, now)] else pool.marks)
  }

  ghost predicate LegalRun(basket: Basket, pool: Pool, picks: seq<Pick>)
    decreases |picks|
  {
    |picks| == 0 || (Legal(basket, pool, picks[0]) && LegalRun(basket, Step(basket, pool, picks[0]), picks[1..]))
  }

  ghost function RunPicks(basket: Basket, pool: Pool, picks: seq<Pick>): Pool
    requires LegalRun(basket, pool, picks)
    decreases |picks|
  {
    if |picks| == 0 then pool else RunPicks(basket, Step(basket, pool, picks[0]), picks[1..])
  }

  predicate AllDone(pool: Pool) {
    forall i | 0 <= i < |pool.stages| :: pool.stages[i].Done?
  }

  // ---- exposure under every interleaving --------------------------------------------

  predicate InsideLock(stage: Stage) {
    stage.Holding? || stage.MarketRead? || stage.MarketWritten? || stage.TotalRead? || stage.TotalWritten?
  }

  predicate WasSent(stage: Stage) {
    stage.Done? && stage.result.Sent?
  }

  /** The leg's notional once the thread has written it to the market's entry (or, with
      `inTotal`, to the total). */
  function Written(basket: Basket, leg: nat, stage: Stage, inTotal: bool): real
    requires leg < |basket.tasks|
  {
    if basket.conditionId != "" &&
       (WasSent(stage) || stage.TotalWritten? || (!inTotal && (stage.MarketWritten? || stage.TotalRead?)))
    then basket.tasks[leg].notional else 0.0
  }

  ghost function SumWritten(basket: Basket, stages: seq<Stage>, inTotal: bool): real
    requires |stages| <= |basket.tasks|
  {
    if |stages| == 0 then 0.0
    else
      var n := |stages| - 1;
      SumWritten(basket, stages[..n], inTotal) + Written(basket, n, stages[n], inTotal)
  }

  lemma {:induction false} SumWrittenMoved(basket: Basket, stages: seq<Stage>, leg: nat, stage: Stage, inTotal: bool)
    requires leg < |stages| <= |basket.tasks|
    ensures SumWritten(basket, stages[leg := stage], inTotal)
         == SumWritten(basket, stages, inTotal)
            - Written(basket, leg, stages[leg], inTotal) + Written(basket, leg, stage, inTotal)
  {
    var n := |stages| - 1;
    if leg == n {
      assert stages[leg := stage][..n] == stages[..n];
    } else {
      assert stages[leg := stage][..n] == stages[..n][leg := stage];
      SumWrittenMoved(basket, stages[..n], leg, stage, inTotal);
    }
  }

  /** Only the lock holder is between its reads and its writes, and what it has read is current. */
  ghost predicate Guarded(basket: Basket, pool: Pool) {
    && |pool.stages| == |basket.tasks|
    && (pool.lock.Some? ==> pool.lock.value < |pool.stages|)
    && forall i | 0 <= i < |pool.stages| :: Current(basket, i, pool.stages[i], pool.books, pool.lock)
  }

  /** The tables hold the starting values plus what the threads have written. */
  ghost predicate Tallied(basket: Basket, start: Books, pool: Pool)
    requires |pool.stages| == |basket.tasks|
  {
    && Lookup(pool.books.market, basket.conditionId)
       == Lookup(start.market, basket.conditionId) + SumWritten(basket, pool.stages, false)
    && pool.books.total == start.total + SumWritten(basket, pool.stages, true)
    && (if basket.conditionId == "" then pool.books.market == start.market
        else pool.books.market - {basket.conditionId} == start.market - {basket.conditionId})
    && (start.geoRestricted ==> pool.books.geoRestricted)
  }

  ghost predicate Accounted(basket: Basket, start: Books, pool: Pool) {
    Guarded(basket, pool) && Tallied(basket, start, pool)
  }

  lemma {:induction false} NothingWritten(basket: Basket, n: nat, inTotal: bool)
    requires n <= |basket.tasks|
    ensures SumWritten(basket, seq(n, _ => Checking), inTotal) == 0.0
  {
    if n > 0 {
      assert seq(n, _ => Checking)[..n - 1] == seq(n - 1, _ => Checking);
      NothingWritten(basket, n - 1, inTotal);
    }
  }

  lemma StartAccounted(basket: Basket, books: Books, now: real)
    ensures Accounted(basket, books, Start(basket, books, now))
  {
    NothingWritten(basket, |basket.tasks|, false);
    NothingWritten(basket, |basket.tasks|, true);
  }

  /** What a thread at this stage may rely on. */
  ghost predicate Current(basket: Basket, leg: nat, stage: Stage, b: Books, lock: Option<nat>) {
    && (InsideLock(stage) <==> lock == Some(leg))
    && (InsideLock(stage) || stage.WaitingForLock? ==> basket.conditionId != "")
    && (stage.MarketRead? ==> stage.market == Lookup(b.market, basket.conditionId))
    && (stage.TotalRead? ==> stage.total == b.total)
  }

  /** A step writes only what it accounts for, touches the exposure tables only inside the
      lock, and takes or frees the lock only for itself. */
  lemma MoveTally(basket: Basket, leg: nat, stage: Stage, b: Books, lock: Option<nat>, now: real, reply: Reply)
    requires leg < |basket.tasks| && Current(basket, leg, stage, b, lock)
    ensures var e, c := Move(basket, leg, stage, b, lock, now, reply), basket.conditionId;
      && Current(basket, leg, e.stage, e.books, e.lock)
      && Lookup(e.books.market, c) - Written(basket, leg, e.stage, false)
         == Lookup(b.market, c) - Written(basket, leg, stage, false)
      && e.books.total - Written(basket, leg, e.stage, true) == b.total - Written(basket, leg, stage, true)
      && (if c == "" then e.books.market == b.market else e.books.market - {c} == b.market - {c})
      && (b.geoRestricted ==> e.books.geoRestricted)
      && (!InsideLock(stage) ==> e.books.market == b.market && e.books.total == b.total)
      && (e.lock == lock || (lock == None && e.lock == Some(leg)) || (lock == Some(leg) && e.lock == None))
  {
  }

  lemma StepGuarded(basket: Basket, pool: Pool, pick: Pick)
    requires Guarded(basket, pool) && Legal(basket, pool, pick)
    ensures Guarded(basket, Step(basket, pool, pick))
  {
    var i, next := pick.leg, Step(basket, pool, pick);
    MoveTally(basket, i, pool.stages[i], pool.books, pool.lock, next.now, pick.reply);
    hide Move, Written, InsideLock;
    forall j | 0 <= j < |next.stages| ensures Current(basket, j, next.stages[j], next.books, next.lock) {
      assert Current(basket, j, pool.stages[j], pool.books, pool.lock);
    }
  }

  lemma CurrentAt(basket: Basket, pool: Pool, leg: nat)
    requires Guarded(basket, pool) && leg < |pool.stages|
    ensures Current(basket, leg, pool.stages[leg], pool.books, pool.lock)
  {
  }

  lemma StepAccounted(basket: Basket, start: Books, pool: Pool, pick: Pick)
    requires Accounted(basket, start, pool) && Legal(basket, pool, pick)
    ensures Accounted(basket, start, Step(basket, pool, pick))
  {
    hide Move, SumWritten, Written, InsideLock, Guarded, Current;
    var i, next := pick.leg, Step(basket, pool, pick);
    StepGuarded(basket, pool, pick);
    CurrentAt(basket, pool, i);
    MoveTally(basket, i, pool.stages[i], pool.books, pool.lock, next.now, pick.reply);
    SumWrittenMoved(basket, pool.stages, i, next.stages[i], false);
    SumWrittenMoved(basket, pool.stages, i, next.stages[i], true);
  }

  lemma {:induction false} RunAccounted(basket: Basket, start: Books, pool: Pool, picks: seq<Pick>)
    requires Accounted(basket, start, pool) && LegalRun(basket, pool, picks)
    ensures Accounted(basket, start, RunPicks(basket, pool, picks))
    decreases |picks|
  {
    if |picks| > 0 {
      StepAccounted(basket, start, pool, picks[0]);
      RunAccounted(basket, start, Step(basket, pool, picks[0]), picks[1..]);
    }
  }

  /** The notionals of the legs that were accepted. */
  ghost function SumSent(basket: Basket, stages: seq<Stage>): real
    requires |stages| <= |basket.tasks|
  {
    if |stages| == 0 then 0.0
    else
      var n := |stages| - 1;
      SumSent(basket, stages[..n]) + if WasSent(stages[n]) then basket.tasks[n].notional else 0.0
  }

  lemma {:induction false} WrittenIsSent(basket: Basket, stages: seq<Stage>, inTotal: bool)
    requires |stages| <= |basket.tasks| && basket.conditionId != ""
    requires forall i | 0 <= i < |stages| :: !InsideLock(stages[i])
    ensures SumWritten(basket, stages, inTotal) == SumSent(basket, stages)
  {
    if |stages| > 0 {
      WrittenIsSent(basket, stages[..|stages| - 1], inTotal);
    }
  }

  lemma {:induction false} NoMarketNothingWritten(basket: Basket, stages: seq<Stage>, inTotal: bool)
    requires |stages| <= |basket.tasks| && basket.conditionId == ""
    ensures SumWritten(basket, stages, inTotal) == 0.0
  {
    if |stages| > 0 {
      NoMarketNothingWritten(basket, stages[..|stages| - 1], inTotal);
    }
  }

  /** One market and the total have `amount` more exposure; without a market none is booked. */
  ghost predicate Booked(before: Books, after: Books, conditionId: string, amount: real) {
    if conditionId == "" then after.market == before.market && after.total == before.total
    else
      && after.market - {conditionId} == before.market - {conditionId}
      && Lookup(after.market, conditionId) == Lookup(before.market, conditionId) + amount
      && after.total == before.total + amount
  }

  /** Under every interleaving, whichever legs the exchange takes: whenever the lock is free
      the market's entry and the total are both the starting values plus the notionals of the
      legs accepted so far, no other market has moved, and the total is still the sum over the
      markets if it was at the start. */
  lemma NoLostUpdate(basket: Basket, books: Books, now: real, picks: seq<Pick>)
    requires LegalRun(basket, Start(basket, books, now), picks)
    ensures var pool := RunPicks(basket, Start(basket, books, now), picks);
      && |pool.stages| == |basket.tasks|
      && (pool.lock.None? ==>
            var amount := SumSent(basket, pool.stages);
            && pool.books.total == books.total + (if basket.conditionId == "" then 0.0 else amount)
            && Lookup(pool.books.market, basket.conditionId)
               == Lookup(books.market, basket.conditionId) + (if basket.conditionId == "" then 0.0 else amount)
            && (forall c | c != basket.conditionId :: Lookup(pool.books.market, c) == Lookup(books.market, c))
            && (books.total == SumValues(books.market) ==> pool.books.total == SumValues(pool.books.market)))
  {
    StartAccounted(basket, books, now);
    RunAccounted(basket, books, Start(basket, books, now), picks);
    var pool := RunPicks(basket, Start(basket, books, now), picks);
    if pool.lock.None? {
      SettledSums(basket, pool.stages);
      forall c | c != basket.conditionId ensures Lookup(pool.books.market, c) == Lookup(books.market, c) {
        assert Lookup(pool.books.market - {basket.conditionId}, c) == Lookup(books.market - {basket.conditionId}, c);
      }
      SumSplit(books.market, basket.conditionId);
      SumSplit(pool.books.market, basket.conditionId);
    }
  }

  lemma SettledSums(basket: Basket, stages: seq<Stage>)
    requires |stages| <= |basket.tasks|
    requires forall i | 0 <= i < |stages| :: !InsideLock(stages[i])
    ensures forall inTotal: bool ::
      SumWritten(basket, stages, inTotal) == if basket.conditionId == "" then 0.0 else SumSent(basket, stages)
  {
    forall inTotal: bool ensures SumWritten(basket, stages, inTotal)
      == if basket.conditionId == "" then 0.0 else SumSent(basket, stages) {
      if basket.conditionId == "" {
        NoMarketNothingWritten(basket, stages, inTotal);
      } else {
        WrittenIsSent(basket, stages, inTotal);
      }
    }
  }

  // ---- the geoblock latch --------------------------------------------------------------

  /** The latch closes exactly when a post is answered with the geoblock, and never opens. */
  lemma GeoblockLatches(basket: Basket, pool: Pool, pick: Pick)
    requires Legal(basket, pool, pick)
    ensures Step(basket, pool, pick).books.geoRestricted
      <==> pool.books.geoRestricted || (pool.stages[pick.leg].Posting? && pick.reply.GeoRestricted?)
  {
  }

  // ---- idempotency under every interleaving -------------------------------------------

  ghost predicate KeysDistinct(basket: Basket) {
    forall i, j | 0 <= i < j < |basket.tasks| :: basket.tasks[i].key != basket.tasks[j].key
  }

  /** Two tables agree on a key. */
  ghost predicate Agree(a: map<Key, real>, b: map<Key, real>, key: Key) {
    (key in a <==> key in b) && (key in a ==> a[key] == b[key])
  }

  /** The thread has passed its duplicate check and not yet recorded its key. */
  predicate PastCheck(stage: Stage) {
    stage.Cleared? || stage.Posting? || stage.Marking?
  }

  predicate Unrecorded(stage: Stage) {
    stage.Checking? || PastCheck(stage) || (stage.Done? && !stage.result.Sent?)
  }

  /** The key was recorded at a time when it was no duplicate. */
  ghost predicate Admitted(before: map<Key, real>, after: map<Key, real>, key: Key, began: real, ended: real,
                           ttl: real) {
    key in after && began <= after[key] <= ended && !IsDuplicate(before, key, after[key], ttl)
  }

  /** A leg's own key is as it was until the leg records it, the check it passed still holds, a leg
      is a duplicate only if its key was one at the start, and it is refused or recorded only if its
      key is none by then. */
  ghost predicate Untouched(basket: Basket, start: Books, began: real, leg: nat, stage: Stage,
                            seen: map<Key, real>, now: real)
    requires leg < |basket.tasks|
  {
    var key := basket.tasks[leg].key;
    && (Unrecorded(stage) ==> Agree(seen, start.seen, key))
    && (PastCheck(stage) ==> !IsDuplicate(seen, key, now, basket.ttl))
    && (stage == Done(Duplicate) ==> IsDuplicate(start.seen, key, began, basket.ttl))
    && (stage == Done(Refused) ==> !IsDuplicate(start.seen, key, now, basket.ttl))
    && (!Unrecorded(stage) ==> Admitted(start.seen, seen, key, began, now, basket.ttl))
    && (basket.dryRun ==> !stage.Posting? && stage != Done(Refused) && IdOf(stage).None?)
  }

  /** The order id the thread carries, if any. */
  function IdOf(stage: Stage): Option<nat> {
    match stage
    case Marking(id) => id
    case WaitingForLock(id) => id
    case Holding(id) => id
    case MarketRead(id, _) => id
    case MarketWritten(id) => id
    case TotalRead(id, _) => id
    case TotalWritten(id) => id
    case Done(Sent(id)) => id
    case _ => None
  }

  ghost predicate Foreign(basket: Basket, key: Key) {
    forall i | 0 <= i < |basket.tasks| :: key != basket.tasks[i].key
  }

  /** Submissions of one key lie at least the time-to-live apart. */
  ghost predicate Spaced(marks: seq<Mark>, ttl: real) {
    forall i, j | 0 <= i < j < |marks| && marks[i].key == marks[j].key :: marks[j].time - marks[i].time >= ttl
  }

  /** The table holds, for every recorded key, no earlier time than any of its marks. */
  ghost predicate Recorded(marks: seq<Mark>, seen: map<Key, real>, now: real) {
    && (forall m | m in marks :: m.key in seen && m.time <= seen[m.key])
    && (forall k | k in seen :: seen[k] <= now)
  }

  ghost predicate Fresh(basket: Basket, start: Books, began: real, history: seq<Mark>, pool: Pool) {
    && |pool.stages| == |basket.tasks| && began <= pool.now
    && (forall i | 0 <= i < |pool.stages| ::
          Untouched(basket, start, began, i, pool.stages[i], pool.books.seen, pool.now))
    && (forall k | Foreign(basket, k) :: Agree(pool.books.seen, start.seen, k))
    && Spaced(history + pool.marks, basket.ttl)
    && Recorded(history + pool.marks, pool.books.seen, pool.now)
  }

  lemma StartFresh(basket: Basket, books: Books, now: real, history: seq<Mark>)
    requires Spaced(history, basket.ttl) && Recorded(history, books.seen, now)
    ensures Fresh(basket, books, now, history, Start(basket, books, now))
  {
    assert history + [] == history;
  }

  /** Recording a key that is no duplicate keeps the spacing. */
  lemma MarkSpaced(marks: seq<Mark>, seen: map<Key, real>, before: real, key: Key, now: real, ttl: real)
    requires Spaced(marks, ttl) && Recorded(marks, seen, before) && before <= now
    requires !IsDuplicate(seen, key, now, ttl)
    ensures Spaced(marks + [Mark(key, now)], ttl)
    ensures Recorded(marks + [Mark(key, now)], seen[key := now], now)
  {
    var longer := marks + [Mark(key, now)];
    forall i, j | 0 <= i < j < |longer| && longer[i].key == longer[j].key
      ensures longer[j].time - longer[i].time >= ttl {
      if j == |marks| {
        assert marks[i] in marks;
      }
    }
  }

  lemma MoveFresh(basket: Basket, start: Books, began: real, leg: nat, stage: Stage, b: Books,
                  lock: Option<nat>, before: real, now: real, reply: Reply)
    requires leg < |basket.tasks| && began <= before <= now
    requires Untouched(basket, start, began, leg, stage, b.seen, before)
    ensures var e, key := Move(basket, leg, stage, b, lock, now, reply), basket.tasks[leg].key;
      && Untouched(basket, start, began, leg, e.stage, e.books.seen, now)
      && e.books.seen == (if e.marked then b.seen[key := now] else b.seen)
      && (e.marked ==> stage.Marking? && !IsDuplicate(b.seen, key, now, basket.ttl))
  {
  }

  lemma StepFresh(basket: Basket, start: Books, began: real, history: seq<Mark>, pool: Pool, pick: Pick)
    requires KeysDistinct(basket)
    requires Fresh(basket, start, began, history, pool) && Legal(basket, pool, pick)
    ensures Fresh(basket, start, began, history, Step(basket, pool, pick))
  {
    var i, next, key := pick.leg, Step(basket, pool, pick), basket.tasks[pick.leg].key;
    MoveFresh(basket, start, began, i, pool.stages[i], pool.books, pool.lock, pool.now, next.now, pick.reply);
    if next.marks != pool.marks {
      MarkSpaced(history + pool.marks, pool.books.seen, pool.now, key, next.now, basket.ttl);
      assert history + next.marks == history + pool.marks + [Mark(key, next.now)];
    }
    hide Move, Spaced, Unrecorded, PastCheck;
    forall j | 0 <= j < |next.stages|
      ensures Untouched(basket, start, began, j, next.stages[j], next.books.seen, next.now) {
      assert Untouched(basket, start, began, j, pool.stages[j], pool.books.seen, pool.now);
    }
    forall k | Foreign(basket, k) ensures Agree(next.books.seen, start.seen, k) {
      assert Agree(pool.books.seen, start.seen, k);
    }
  }

  lemma {:induction false} RunFresh(basket: Basket, start: Books, began: real, history: seq<Mark>,
                                    pool: Pool, picks: seq<Pick>)
    requires KeysDistinct(basket)
    requires Fresh(basket, start, began, history, pool) && LegalRun(basket, pool, picks)
    ensures Fresh(basket, start, began, history, RunPicks(basket, pool, picks))
    decreases |picks|
  {
    if |picks| > 0 {
      StepFresh(basket, start, began, history, pool, picks[0]);
      RunFresh(basket, start, began, history, Step(basket, pool, picks[0]), picks[1..]);
    }
  }

  // ---- the table is the log -------------------------------------------------------------

  /** A table after recording some submissions. */
  function WithMarks(seen: map<Key, real>, marks: seq<Mark>): map<Key, real> {
    if marks == [] then seen
    else
      var last := marks[|marks| - 1];
      WithMarks(seen, marks[..|marks| - 1])[last.key := last.time]
  }

  /** A key's last mark. */
  ghost predicate LastMark(marks: seq<Mark>, i: int, key: Key) {
    && 0 <= i < |marks| && marks[i].key == key
    && forall j | i < j < |marks| :: marks[j].key != key
  }

  lemma {:induction false} TableHasLastMark(marks: seq<Mark>, key: Key)
    ensures key in WithMarks(map[], marks) <==> exists i :: LastMark(marks, i, key)
    ensures forall i | LastMark(marks, i, key) ::
      key in WithMarks(map[], marks) && WithMarks(map[], marks)[key] == marks[i].time
  {
    if marks != [] {
      var n := |marks| - 1;
      var past := marks[..n];
      TableHasLastMark(past, key);
      if marks[n].key == key {
        assert LastMark(marks, n, key);
      } else {
        assert forall i :: LastMark(past, i, key) <==> LastMark(marks, i, key);
      }
    }
  }

  /** A key is a duplicate exactly when its last submission is less than the time-to-live ago. */
  lemma DuplicateIsRecent(marks: seq<Mark>, key: Key, now: real, ttl: real)
    ensures IsDuplicate(WithMarks(map[], marks), key, now, ttl)
      <==> exists i :: LastMark(marks, i, key) && now - marks[i].time < ttl
  {
    TableHasLastMark(marks, key);
    hide WithMarks;
  }

  /** How often a key is marked. */
  function MarksOf(marks: seq<Mark>, key: Key): nat {
    if marks == [] then 0
    else MarksOf(marks[..|marks| - 1], key) + if marks[|marks| - 1].key == key then 1 else 0
  }

  /** How many of the legs with a key have been recorded. */
  function RecordedLegs(basket: Basket, stages: seq<Stage>, key: Key): nat
    requires |stages| <= |basket.tasks|
  {
    if |stages| == 0 then 0
    else
      var n := |stages| - 1;
      RecordedLegs(basket, stages[..n], key) + RecordedLeg(basket, n, stages[n], key)
  }

  function RecordedLeg(basket: Basket, leg: nat, stage: Stage, key: Key): nat
    requires leg < |basket.tasks|
  {
    if !Unrecorded(stage) && basket.tasks[leg].key == key then 1 else 0
  }

  /** The table is the starting one with the log written over it, the log holds exactly one mark
      for each recorded leg, and every mark falls within the run. */
  ghost predicate Logged(basket: Basket, start: map<Key, real>, began: real, pool: Pool) {
    && |pool.stages| == |basket.tasks| && began <= pool.now
    && pool.books.seen == WithMarks(start, pool.marks)
    && (forall k :: MarksOf(pool.marks, k) == RecordedLegs(basket, pool.stages, k))
    && MadeBetween(pool.marks, began, pool.now)
  }

  ghost predicate MadeBetween(marks: seq<Mark>, began: real, ended: real) {
    forall m | m in marks :: began <= m.time <= ended
  }

  lemma {:induction false} MarksJoined(seen: map<Key, real>, first: seq<Mark>, second: seq<Mark>)
    ensures WithMarks(seen, first + second) == WithMarks(WithMarks(seen, first), second)
    ensures forall k :: MarksOf(first + second, k) == MarksOf(first, k) + MarksOf(second, k)
  {
    if second == [] {
      assert first + second == first;
    } else {
      var k := |second| - 1;
      MarksJoined(seen, first, second[..k]);
      assert (first + second)[..|first| + k] == first + second[..k];
    }
  }

  lemma OneMoreMark(seen: map<Key, real>, marks: seq<Mark>, m: Mark)
    ensures WithMarks(seen, marks + [m]) == WithMarks(seen, marks)[m.key := m.time]
    ensures forall k :: MarksOf(marks + [m], k) == MarksOf(marks, k) + if k == m.key then 1 else 0
  {
    assert (marks + [m])[..|marks|] == marks;
  }

  lemma {:induction false} RecordedLegsMoved(basket: Basket, stages: seq<Stage>, leg: nat, stage: Stage, key: Key)
    requires leg < |stages| <= |basket.tasks|
    ensures RecordedLegs(basket, stages[leg := stage], key) + RecordedLeg(basket, leg, stages[leg], key)
         == RecordedLegs(basket, stages, key) + RecordedLeg(basket, leg, stage, key)
  {
    hide RecordedLeg;
    var n := |stages| - 1;
    if leg == n {
      assert stages[leg := stage][..n] == stages[..n];
    } else {
      assert stages[leg := stage][..n] == stages[..n][leg := stage];
      RecordedLegsMoved(basket, stages[..n], leg, stage, key);
    }
  }

  lemma {:induction false} NothingRecorded(basket: Basket, n: nat, key: Key)
    requires n <= |basket.tasks|
    ensures RecordedLegs(basket, seq(n, _ => Checking), key) == 0
  {
    if n > 0 {
      assert seq(n, _ => Checking)[..n - 1] == seq(n - 1, _ => Checking);
      NothingRecorded(basket, n - 1, key);
    }
  }

  lemma MoveLogged(basket: Basket, leg: nat, stage: Stage, b: Books, lock: Option<nat>, now: real, reply: Reply)
    requires leg < |basket.tasks|
    ensures var e, key := Move(basket, leg, stage, b, lock, now, reply), basket.tasks[leg].key;
      && e.books.seen == (if e.marked then b.seen[key := now] else b.seen)
      && forall k ::
           RecordedLeg(basket, leg, e.stage, k)
           == RecordedLeg(basket, leg, stage, k) + if e.marked && k == key then 1 else 0
  {
  }

  lemma StepLogged(basket: Basket, start: map<Key, real>, began: real, pool: Pool, pick: Pick)
    requires Logged(basket, start, began, pool) && Legal(basket, pool, pick)
    ensures Logged(basket, start, began, Step(basket, pool, pick))
  {
    hide Move, RecordedLegs, RecordedLeg, MarksOf, WithMarks;
    var i, next, key := pick.leg, Step(basket, pool, pick), basket.tasks[pick.leg].key;
    MoveLogged(basket, i, pool.stages[i], pool.books, pool.lock, next.now, pick.reply);
    OneMoreMark(start, pool.marks, Mark(key, next.now));
    forall k ensures MarksOf(next.marks, k) == RecordedLegs(basket, next.stages, k) {
      RecordedLegsMoved(basket, pool.stages, i, next.stages[i], k);
    }
  }

  lemma {:induction false} RunLogged(basket: Basket, start: map<Key, real>, began: real, pool: Pool, picks: seq<Pick>)
    requires Logged(basket, start, began, pool) && LegalRun(basket, pool, picks)
    ensures Logged(basket, start, began, RunPicks(basket, pool, picks))
    decreases |picks|
  {
    if |picks| > 0 {
      StepLogged(basket, start, began, pool, picks[0]);
      RunLogged(basket, start, began, Step(basket, pool, picks[0]), picks[1..]);
    }
  }

  /** Under every interleaving the table of recent intents is the starting one with the log written
      over it, and the log holds one mark for each leg recorded so far, made during the run. */
  lemma TableIsLog(basket: Basket, books: Books, now: real, picks: seq<Pick>)
    requires LegalRun(basket, Start(basket, books, now), picks)
    ensures Logged(basket, books.seen, now, RunPicks(basket, Start(basket, books, now), picks))
  {
    var start := Start(basket, books, now);
    forall k ensures RecordedLegs(basket, start.stages, k) == 0 {
      NothingRecorded(basket, |basket.tasks|, k);
    }
    RunLogged(basket, books.seen, now, start, picks);
  }
}
