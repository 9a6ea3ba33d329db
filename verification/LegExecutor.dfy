/** Running a basket's legs to the end, and what every such run guarantees. */
module LegExecutor {
  import opened Trading
  import opened Orders
  import opened LegPool

  /** No leg duplicates a recent submission. */
  ghost predicate NoDuplicates(basket: Basket, books: Books, now: real) {
    forall i | 0 <= i < |basket.tasks| :: !IsDuplicate(books.seen, basket.tasks[i].key, now, basket.ttl)
  }

  function Notionals(basket: Basket): seq<real> {
    seq(|basket.tasks|, i requires 0 <= i < |basket.tasks| => basket.tasks[i].notional)
  }

  lemma {:induction false} AllSent(basket: Basket, stages: seq<Stage>)
    requires |stages| <= |basket.tasks|
    requires forall i | 0 <= i < |stages| :: WasSent(stages[i])
    ensures SumSent(basket, stages) == Sum(Notionals(basket)[..|stages|])
  {
    if |stages| > 0 {
      var n := |stages| - 1;
      AllSent(basket, stages[..n]);
      assert Notionals(basket)[..n + 1][..n] == Notionals(basket)[..n];
    }
  }

  lemma HolderInside(basket: Basket, pool: Pool)
    requires Guarded(basket, pool) && pool.lock.Some?
    ensures InsideLock(pool.stages[pool.lock.value])
  {
    assert Current(basket, pool.lock.value, pool.stages[pool.lock.value], pool.books, pool.lock);
  }

  /** Once every thread has finished, exactly the accepted legs' notionals are booked, all of
      them in the basket's market. */
  lemma ExactBooking(basket: Basket, books: Books, now: real, picks: seq<Pick>)
    requires LegalRun(basket, Start(basket, books, now), picks)
    requires AllDone(RunPicks(basket, Start(basket, books, now), picks))
    ensures var pool := RunPicks(basket, Start(basket, books, now), picks);
      && |pool.stages| == |basket.tasks|
      && Booked(books, pool.books, basket.conditionId, SumSent(basket, pool.stages))
      && (books.geoRestricted ==> pool.books.geoRestricted)
  {
    var start := Start(basket, books, now);
    StartAccounted(basket, books, now);
    RunAccounted(basket, books, start, picks);
    var pool := RunPicks(basket, start, picks);
    if pool.lock.Some? {
      HolderInside(basket, pool);
    }
    SettledSums(basket, pool.stages);
  }

  /** An accepted leg's key is in the table with a time in the run at which it was no duplicate, and
      nothing else in the table has changed; a leg is turned away as a duplicate if its key still is
      one at the end, and only if it was one at the start. */
  ghost predicate KeysKept(basket: Basket, before: map<Key, real>, began: real, after: map<Key, real>, ended: real,
                           stages: seq<Stage>) {
    && |stages| == |basket.tasks|
    && (forall i | 0 <= i < |stages| :: LegKept(basket, basket.tasks[i].key, before, began, after, ended, stages[i]))
    && (forall k | Foreign(basket, k) :: Agree(after, before, k))
  }

  ghost predicate LegKept(basket: Basket, key: Key, before: map<Key, real>, began: real, after: map<Key, real>,
                          ended: real, stage: Stage) {
    && (stage == Done(Duplicate) ==> IsDuplicate(before, key, began, basket.ttl))
    && (stage.Done? && IsDuplicate(before, key, ended, basket.ttl) ==> stage == Done(Duplicate))
    && (stage.Done? && !WasSent(stage) ==> Agree(after, before, key))
    && (WasSent(stage) ==> Admitted(before, after, key, began, ended, basket.ttl))
  }

  /** Submissions of one key stay a time-to-live apart, under every interleaving, also counting
      everything submitted before. */
  lemma SpacingKept(basket: Basket, books: Books, now: real, history: seq<Mark>, picks: seq<Pick>)
    requires KeysDistinct(basket)
    requires Spaced(history, basket.ttl) && Recorded(history, books.seen, now)
    requires LegalRun(basket, Start(basket, books, now), picks)
    ensures var pool := RunPicks(basket, Start(basket, books, now), picks);
      && Spaced(history + pool.marks, basket.ttl)
      && Recorded(history + pool.marks, pool.books.seen, pool.now)
      && KeysKept(basket, books.seen, now, pool.books.seen, pool.now, pool.stages)
  {
    StartFresh(basket, books, now, history);
    RunFresh(basket, books, now, history, Start(basket, books, now), picks);
    var pool := RunPicks(basket, Start(basket, books, now), picks);
    hide RunPicks, LegalRun, Spaced, Recorded;
    forall i | 0 <= i < |pool.stages|
      ensures LegKept(basket, basket.tasks[i].key, books.seen, now, pool.books.seen, pool.now, pool.stages[i]) {
      assert Untouched(basket, books, now, i, pool.stages[i], pool.books.seen, pool.now);
    }
  }

  /** With non-negative notionals, accepting some legs books at most what all would. */
  lemma {:induction false} SentAtMostAll(basket: Basket, stages: seq<Stage>)
    requires |stages| <= |basket.tasks|
    requires forall t | t in basket.tasks :: t.notional >= 0.0
    ensures 0.0 <= SumSent(basket, stages) <= Sum(Notionals(basket)[..|stages|])
  {
    if |stages| > 0 {
      var n := |stages| - 1;
      SentAtMostAll(basket, stages[..n]);
      assert Notionals(basket)[..n + 1][..n] == Notionals(basket)[..n];
      assert basket.tasks[n] in basket.tasks;
    }
  }

  /** What a finished submission has done: exactly the accepted legs are booked; a dry run
      refuses nothing, and without a duplicate at the start it accepts everything. */
  ghost predicate Submitted(basket: Basket, before: Books, began: real, after: Books, stages: seq<Stage>) {
    && |stages| == |basket.tasks|
    && (forall i | 0 <= i < |stages| :: stages[i].Done?)
    && Booked(before, after, basket.conditionId, SumSent(basket, stages))
    && 0.0 <= SumSent(basket, stages) <= Sum(Notionals(basket))
    && (before.geoRestricted ==> after.geoRestricted)
    && (basket.dryRun ==> forall i | 0 <= i < |stages| :: stages[i] != Done(Refused))
    && (basket.dryRun && NoDuplicates(basket, before, began) ==>
          && (forall i | 0 <= i < |stages| :: stages[i] == Done(Sent(None)))
          && SumSent(basket, stages) == Sum(Notionals(basket)))
  }

  /** A dry run refuses nothing, and what was no duplicate at the start is accepted. */
  lemma DryRunAccepts(basket: Basket, books: Books, now: real, history: seq<Mark>, picks: seq<Pick>)
    requires KeysDistinct(basket) && basket.dryRun
    requires Spaced(history, basket.ttl) && Recorded(history, books.seen, now)
    requires LegalRun(basket, Start(basket, books, now), picks)
    requires AllDone(RunPicks(basket, Start(basket, books, now), picks))
    ensures var stages := RunPicks(basket, Start(basket, books, now), picks).stages;
      && |stages| == |basket.tasks|
      && (forall i | 0 <= i < |stages| :: stages[i] != Done(Refused))
      && (NoDuplicates(basket, books, now) ==> forall i | 0 <= i < |stages| :: stages[i] == Done(Sent(None)))
  {
    StartFresh(basket, books, now, history);
    RunFresh(basket, books, now, history, Start(basket, books, now), picks);
    var pool := RunPicks(basket, Start(basket, books, now), picks);
    hide RunPicks, LegalRun, Spaced, Recorded, Foreign;
    forall i | 0 <= i < |pool.stages|
      ensures pool.stages[i] != Done(Refused)
      ensures NoDuplicates(basket, books, now) ==> pool.stages[i] == Done(Sent(None)) {
      assert Untouched(basket, books, now, i, pool.stages[i], pool.books.seen, pool.now);
    }
  }

  lemma RunSubmits(basket: Basket, books: Books, now: real, history: seq<Mark>, picks: seq<Pick>)
    requires KeysDistinct(basket) && forall t | t in basket.tasks :: t.notional >= 0.0
    requires Spaced(history, basket.ttl) && Recorded(history, books.seen, now)
    requires LegalRun(basket, Start(basket, books, now), picks)
    requires AllDone(RunPicks(basket, Start(basket, books, now), picks))
    ensures var pool := RunPicks(basket, Start(basket, books, now), picks);
      && Submitted(basket, books, now, pool.books, pool.stages)
      && KeysKept(basket, books.seen, now, pool.books.seen, pool.now, pool.stages)
      && Spaced(history + pool.marks, basket.ttl)
      && Recorded(history + pool.marks, pool.books.seen, pool.now)
      && Logged(basket, books.seen, now, pool)
  {
    hide LegalRun, RunPicks, Spaced, Recorded, KeysKept, Logged, Booked, IsDuplicate;
    TableIsLog(basket, books, now, picks);
    SpacingKept(basket, books, now, history, picks);
    ExactBooking(basket, books, now, picks);
    var pool := RunPicks(basket, Start(basket, books, now), picks);
    if basket.dryRun {
      DryRunAccepts(basket, books, now, history, picks);
      if NoDuplicates(basket, books, now) {
        AllSent(basket, pool.stages);
      }
    }
    SentAtMostAll(basket, pool.stages);
    assert Notionals(basket)[..|basket.tasks|] == Notionals(basket);
  }

  /** In dry-run mode a basket of distinct keys, none of them a duplicate at the start, is
      submitted whole under every interleaving: every leg is accepted and the exposure booked
      is the sum of all the notionals. */
  lemma DryRunIsAtomic(basket: Basket, books: Books, now: real, picks: seq<Pick>)
    requires basket.dryRun && KeysDistinct(basket) && NoDuplicates(basket, books, now)
    requires forall t | t in basket.tasks :: t.notional >= 0.0
    requires Recorded([], books.seen, now)
    requires LegalRun(basket, Start(basket, books, now), picks)
    requires AllDone(RunPicks(basket, Start(basket, books, now), picks))
    ensures var pool := RunPicks(basket, Start(basket, books, now), picks);
      && |pool.stages| == |basket.tasks|
      && (forall i | 0 <= i < |pool.stages| :: pool.stages[i] == Done(Sent(None)))
      && Booked(books, pool.books, basket.conditionId, Sum(Notionals(basket)))
  {
    hide RunPicks, LegalRun, Booked;
    RunSubmits(basket, books, now, [], picks);
  }

  // ---- why the keys must be distinct -------------------------------------------------

  ghost predicate AlwaysSpaced(basket: Basket, books: Books, now: real, history: seq<Mark>) {
    forall picks | LegalRun(basket, Start(basket, books, now), picks) ::
      Spaced(history + RunPicks(basket, Start(basket, books, now), picks).marks, basket.ttl)
  }

  /** Every interleaving keeps submissions of one key a time-to-live apart exactly when the
      basket repeats no key, or nothing is sent at all because the exchange is geo-blocked: two
      legs with one key can both pass the check before either records it. */
  lemma SpacingNeedsDistinctKeys(basket: Basket, books: Books, now: real, history: seq<Mark>)
    requires basket.ttl > 0.0 && Spaced(history, basket.ttl) && Recorded(history, books.seen, now)
    ensures AlwaysSpaced(basket, books, now, history)
      <==> KeysDistinct(basket) || (!basket.dryRun && books.geoRestricted)
  {
    if KeysDistinct(basket) {
      forall picks | LegalRun(basket, Start(basket, books, now), picks)
        ensures Spaced(history + RunPicks(basket, Start(basket, books, now), picks).marks, basket.ttl) {
        SpacingKept(basket, books, now, history, picks);
      }
    } else if !basket.dryRun && books.geoRestricted {
      forall picks | LegalRun(basket, Start(basket, books, now), picks)
        ensures Spaced(history + RunPicks(basket, Start(basket, books, now), picks).marks, basket.ttl) {
        NothingSent(basket, Start(basket, books, now), picks);
        assert history + [] == history;
      }
    } else {
      var i: nat, j: nat :| i < j < |basket.tasks| && basket.tasks[i].key == basket.tasks[j].key;
      RepeatedKeyRace(basket, books, now, history, i, j);
    }
  }

  /** While geo-blocked, no thread of a live basket gets as far as posting. */
  lemma {:induction false} NothingSent(basket: Basket, pool: Pool, picks: seq<Pick>)
    requires LegalRun(basket, pool, picks) && !basket.dryRun && pool.books.geoRestricted && pool.marks == []
    requires forall s | s in pool.stages :: s.Checking? || s.Cleared? || s.Done?
    ensures RunPicks(basket, pool, picks).marks == []
    decreases |picks|
  {
    if |picks| > 0 {
      var next := Step(basket, pool, picks[0]);
      assert pool.stages[picks[0].leg] in pool.stages;
      NothingSent(basket, next, picks[1..]);
    }
  }

  function Pass(leg: nat, elapsed: real): Pick { Pick(leg, elapsed, Accepted(None)) }

  lemma RunOfOne(basket: Basket, pool: Pool, pick: Pick, rest: seq<Pick>)
    requires Legal(basket, pool, pick) && LegalRun(basket, Step(basket, pool, pick), rest)
    ensures LegalRun(basket, pool, [pick] + rest)
    ensures RunPicks(basket, pool, [pick] + rest) == RunPicks(basket, Step(basket, pool, pick), rest)
  {
    assert ([pick] + rest)[1..] == rest;
  }

  /** Both legs take one step, one right after the other. */
  function Both(basket: Basket, pool: Pool, i: nat, j: nat, elapsed: real): Pool
    requires |pool.stages| == |basket.tasks| && i < j < |basket.tasks| && elapsed >= 0.0
  {
    Step(basket, Step(basket, pool, Pass(i, elapsed)), Pass(j, 0.0))
  }

  lemma RunOfBoth(basket: Basket, pool: Pool, i: nat, j: nat, elapsed: real, rest: seq<Pick>) returns (picks: seq<Pick>)
    requires |pool.stages| == |basket.tasks| && i < j < |basket.tasks| && elapsed >= 0.0
    requires LegalRun(basket, Both(basket, pool, i, j, elapsed), rest)
    ensures LegalRun(basket, pool, picks)
    ensures RunPicks(basket, pool, picks) == RunPicks(basket, Both(basket, pool, i, j, elapsed), rest)
  {
    var mid := Step(basket, pool, Pass(i, elapsed));
    assert |mid.stages| == |pool.stages|;
    hide Step;
    RunOfOne(basket, mid, Pass(j, 0.0), rest);
    RunOfOne(basket, pool, Pass(i, elapsed), [Pass(j, 0.0)] + rest);
    picks := [Pass(i, elapsed)] + ([Pass(j, 0.0)] + rest);
  }

  /** A pool in which both legs stand at `stage`, and the tables are as at the start. */
  ghost predicate Abreast(basket: Basket, pool: Pool, i: nat, j: nat, stage: Stage, books: Books, now: real) {
    && |pool.stages| == |basket.tasks| && i < j < |basket.tasks|
    && pool.stages[i] == pool.stages[j] == stage
    && pool.books == books && pool.now == now && pool.marks == []
  }

  /** If each leg alone would move from `stage` to `next` without touching the tables, both do. */
  lemma BothMove(basket: Basket, pool: Pool, i: nat, j: nat, stage: Stage, next: Stage, elapsed: real)
    requires Abreast(basket, pool, i, j, stage, pool.books, pool.now) && elapsed >= 0.0
    requires Move(basket, i, stage, pool.books, pool.lock, pool.now + elapsed, Accepted(None))
          == Effect(next, pool.books, pool.lock, false)
    requires Move(basket, j, stage, pool.books, pool.lock, pool.now + elapsed, Accepted(None))
          == Effect(next, pool.books, pool.lock, false)
    ensures Abreast(basket, Both(basket, pool, i, j, elapsed), i, j, next, pool.books, pool.now + elapsed)
  {
  }

  lemma BothMark(basket: Basket, pool: Pool, i: nat, j: nat)
    requires Abreast(basket, pool, i, j, Marking(None), pool.books, pool.now)
    requires basket.tasks[i].key == basket.tasks[j].key
    ensures Both(basket, pool, i, j, 0.0).marks
         == [Mark(basket.tasks[i].key, pool.now), Mark(basket.tasks[i].key, pool.now)]
  {
  }

  lemma RepeatedKeyRace(basket: Basket, books: Books, now: real, history: seq<Mark>, i: nat, j: nat)
    requires i < j < |basket.tasks| && basket.tasks[i].key == basket.tasks[j].key
    requires basket.ttl > 0.0 && Recorded(history, books.seen, now) && (basket.dryRun || !books.geoRestricted)
    ensures !AlwaysSpaced(basket, books, now, history)
  {
    var later, key := now + basket.ttl, basket.tasks[i].key;
    var start := Start(basket, books, now);
    BothMove(basket, start, i, j, Checking, Cleared, basket.ttl);
    var cleared := Both(basket, start, i, j, basket.ttl);
    hide Both;
    var posting := if basket.dryRun then cleared else Both(basket, cleared, i, j, 0.0);
    if !basket.dryRun {
      BothMove(basket, cleared, i, j, Cleared, Posting, 0.0);
    }
    BothMove(basket, posting, i, j, if basket.dryRun then Cleared else Posting, Marking(None), 0.0);
    var marking := Both(basket, posting, i, j, 0.0);
    BothMark(basket, marking, i, j);
    hide Move, Start;
    var marked := Both(basket, marking, i, j, 0.0);
    var picks := RunOfBoth(basket, marking, i, j, 0.0, []);
    picks := RunOfBoth(basket, posting, i, j, 0.0, picks);
    if !basket.dryRun {
      picks := RunOfBoth(basket, cleared, i, j, 0.0, picks);
    }
    picks := RunOfBoth(basket, start, i, j, basket.ttl, picks);
    assert RunPicks(basket, start, picks) == marked;
    var marks := history + marked.marks;
    assert marks[|history|].key == marks[|history| + 1].key && marks[|history| + 1].time - marks[|history|].time == 0.0;
    assert !Spaced(marks, basket.ttl);
  }

  // ---- running the pool ------------------------------------------------------------------

  function Rank(stage: Stage): nat {
    match stage
    case Checking => 10
    case Cleared => 9
    case Posting => 8
    case Marking(_) => 7
    case WaitingForLock(_) => 6
    case Holding(_) => 5
    case MarketRead(_, _) => 4
    case MarketWritten(_) => 3
    case TotalRead(_, _) => 2
    case TotalWritten(_) => 1
    case Done(_) => 0
  }

  ghost function TotalRank(stages: seq<Stage>): nat {
    if |stages| == 0 then 0 else TotalRank(stages[..|stages| - 1]) + Rank(stages[|stages| - 1])
  }

  lemma {:induction false} RankMoved(stages: seq<Stage>, leg: nat, stage: Stage)
    requires leg < |stages|
    ensures TotalRank(stages[leg := stage]) == TotalRank(stages) - Rank(stages[leg]) + Rank(stage)
  {
    var n := |stages| - 1;
    if leg == n {
      assert stages[leg := stage][..n] == stages[..n];
    } else {
      assert stages[leg := stage][..n] == stages[..n][leg := stage];
      RankMoved(stages[..n], leg, stage);
    }
  }

  predicate CanMove(pool: Pool, leg: nat)
    requires leg < |pool.stages|
  {
    !pool.stages[leg].Done? && (pool.stages[leg].WaitingForLock? ==> pool.lock.None?)
  }

  /** No deadlock: while a thread is unfinished, some thread can move, the lock holder if there
      is one. */
  lemma SomeoneCanMove(basket: Basket, pool: Pool)
    requires Guarded(basket, pool) && !AllDone(pool)
    ensures exists i: nat :: i < |pool.stages| && CanMove(pool, i)
  {
    if pool.lock.Some? {
      HolderInside(basket, pool);
      assert CanMove(pool, pool.lock.value);
    } else {
      var i: nat :| i < |pool.stages| && !pool.stages[i].Done?;
      assert CanMove(pool, i);
    }
  }

  lemma MoveLowersRank(basket: Basket, pool: Pool, pick: Pick)
    requires Legal(basket, pool, pick) && CanMove(pool, pick.leg)
    ensures TotalRank(Step(basket, pool, pick).stages) < TotalRank(pool.stages)
    ensures Step(basket, pool, pick).now == pool.now + pick.elapsed
  {
    RankMoved(pool.stages, pick.leg, Step(basket, pool, pick).stages[pick.leg]);
  }

  lemma {:induction false} RunExtended(basket: Basket, pool: Pool, picks: seq<Pick>, pick: Pick)
    requires LegalRun(basket, pool, picks) && Legal(basket, RunPicks(basket, pool, picks), pick)
    ensures LegalRun(basket, pool, picks + [pick])
    ensures RunPicks(basket, pool, picks + [pick]) == Step(basket, RunPicks(basket, pool, picks), pick)
    decreases |picks|
  {
    if |picks| == 0 {
      assert picks + [pick] == [pick] && [pick][1..] == [];
    } else {
      assert (picks + [pick])[1..] == picks[1..] + [pick];
      RunExtended(basket, Step(basket, pool, picks[0]), picks[1..], pick);
    }
  }

  // ---- what the exchange really filled -------------------------------------------------

  function OrderOf(task: Task): Order {
    Order(task.key.token, task.key.side, task.price, task.size)
  }

  /** The shares really filled under the order id that a thread carries. */
  function FilledShares(stage: Stage, tape: Tape): real {
    if IdOf(stage).Some? then Lookup(tape.matched, IdOf(stage).value) else 0.0
  }

  /** A carried order id is on the tape, filled within the leg's size. */
  ghost predicate OnTape(stage: Stage, size: real, tape: Tape) {
    IdOf(stage).Some? ==> IdOf(stage).value in tape.matched && 0.0 <= FilledShares(stage, tape) <= Max(0.0, size)
  }

  /** With distinct tokens, what each leg's token gained is what that leg's order filled. */
  ghost predicate Traced(basket: Basket, stages: seq<Stage>, before: Tape, after: Tape)
    requires |stages| == |basket.tasks|
  {
    && (forall i | 0 <= i < |stages| :: OnTape(stages[i], basket.tasks[i].size, after))
    && (TokensDistinct(basket) ==> forall i | 0 <= i < |stages| :: LegHeld(basket.tasks[i], stages[i], before, after))
  }

  ghost predicate TokensDistinct(basket: Basket) {
    forall i, j | 0 <= i < j < |basket.tasks| :: basket.tasks[i].key.token != basket.tasks[j].key.token
  }

  ghost predicate LegHeld(task: Task, stage: Stage, before: Tape, after: Tape) {
    Lookup(after.held, task.key.token)
    == Lookup(before.held, task.key.token) + Signed(task.key.side, FilledShares(stage, after))
  }

  /** A truthful exchange gives every leg it accepts an order id. */
  predicate Identified(stage: Stage) {
    PastPosting(stage) ==> IdOf(stage).Some?
  }

  ghost predicate IdsGiven(stages: seq<Stage>) {
    forall i | 0 <= i < |stages| :: Identified(stages[i])
  }

  lemma StartTraced(basket: Basket, pool: Pool, tape: Tape)
    requires |pool.stages| == |basket.tasks| && forall i | 0 <= i < |pool.stages| :: pool.stages[i].Checking?
    ensures Traced(basket, pool.stages, tape, tape) && IdsGiven(pool.stages)
  {
  }

  /** Only the posting step takes on an order id; every other step keeps the one it has. */
  lemma MoveId(basket: Basket, leg: nat, stage: Stage, b: Books, lock: Option<nat>, now: real, reply: Reply)
    requires leg < |basket.tasks|
    ensures var e := Move(basket, leg, stage, b, lock, now, reply);
      && IdOf(e.stage) == (if stage.Posting? && reply.Accepted? then reply.orderId else IdOf(stage))
      && (stage.Posting? ==> IdOf(stage).None?)
      && (!basket.dryRun && Identified(stage) && (reply.Accepted? ==> reply.orderId.Some?) ==> Identified(e.stage))
  {
  }

  /** A post may put its leg's order on the tape, once; no other step touches the tape. */
  ghost predicate Replied(basket: Basket, pool: Pool, pick: Pick, before: Tape, after: Tape, taken: Option<nat>)
    requires Legal(basket, pool, pick)
  {
    if pool.stages[pick.leg].Posting? then Records(before, after, OrderOf(basket.tasks[pick.leg]), taken)
    else after == before
  }

  lemma StepTraced(basket: Basket, pool: Pool, pick: Pick, start: Tape, before: Tape, after: Tape)
    requires Legal(basket, pool, pick) && Traced(basket, pool.stages, start, before)
    requires Replied(basket, pool, pick, before, after, IdIn(pick.reply))
    ensures Traced(basket, Step(basket, pool, pick).stages, start, after)
  {
    var i, next := pick.leg, Step(basket, pool, pick);
    MoveId(basket, i, pool.stages[i], pool.books, pool.lock, next.now, pick.reply);
    hide Move, IdOf;
    forall j | 0 <= j < |next.stages|
      ensures OnTape(next.stages[j], basket.tasks[j].size, after)
      ensures TokensDistinct(basket) ==> LegHeld(basket.tasks[j], next.stages[j], start, after) {
      assert OnTape(pool.stages[j], basket.tasks[j].size, before);
      assert TokensDistinct(basket) ==> LegHeld(basket.tasks[j], pool.stages[j], start, before);
    }
  }

  /** What a leg's token gained on the leg's side: nothing before the leg is posted, and never more
      than the leg's size. */
  ghost predicate GainWithin(task: Task, stage: Stage, before: Tape, after: Tape) {
    var gained := Signed(task.key.side, Lookup(after.held, task.key.token) - Lookup(before.held, task.key.token));
    && 0.0 <= gained <= Max(0.0, task.size)
    && (stage.Checking? || stage.Cleared? || stage.Posting? || stage == Done(Duplicate) ==> gained == 0.0)
  }

  /** Orders already taken keep their fills, other tokens their holdings, and with distinct tokens each
      leg's gain is its own. */
  ghost predicate GainsWithin(basket: Basket, stages: seq<Stage>, before: Tape, after: Tape)
    requires |stages| == |basket.tasks|
  {
    && FillsKept(before, after)
    && (forall t | Elsewhere(basket, t) :: Lookup(after.held, t) == Lookup(before.held, t))
    && (TokensDistinct(basket) ==>
          forall i | 0 <= i < |stages| :: GainWithin(basket.tasks[i], stages[i], before, after))
  }

  /** A token of no leg. */
  ghost predicate Elsewhere(basket: Basket, token: string) {
    forall i | 0 <= i < |basket.tasks| :: basket.tasks[i].key.token != token
  }

  lemma StartGains(basket: Basket, pool: Pool, tape: Tape)
    requires |pool.stages| == |basket.tasks|
    ensures GainsWithin(basket, pool.stages, tape, tape)
  {
  }

  lemma MovePosts(basket: Basket, leg: nat, stage: Stage, b: Books, lock: Option<nat>, now: real, reply: Reply)
    requires leg < |basket.tasks|
    ensures var next := Move(basket, leg, stage, b, lock, now, reply).stage;
      next.Checking? || next.Cleared? || next.Posting? || next == Done(Duplicate) ==>
        stage.Checking? || stage.Cleared? || stage == Done(Duplicate)
  {
  }

  lemma StepGains(basket: Basket, pool: Pool, pick: Pick, start: Tape, before: Tape, after: Tape, taken: Option<nat>)
    requires Legal(basket, pool, pick) && GainsWithin(basket, pool.stages, start, before)
    requires Replied(basket, pool, pick, before, after, taken)
    ensures GainsWithin(basket, Step(basket, pool, pick).stages, start, after)
  {
    var i, next := pick.leg, Step(basket, pool, pick);
    MovePosts(basket, i, pool.stages[i], pool.books, pool.lock, next.now, pick.reply);
    hide Move;
    forall j | 0 <= j < |next.stages| && TokensDistinct(basket)
      ensures GainWithin(basket.tasks[j], next.stages[j], start, after) {
      assert GainWithin(basket.tasks[j], pool.stages[j], start, before);
    }
  }

  lemma StepIds(basket: Basket, pool: Pool, pick: Pick)
    requires Legal(basket, pool, pick) && IdsGiven(pool.stages)
    requires !basket.dryRun && (pick.reply.Accepted? ==> pick.reply.orderId.Some?)
    ensures IdsGiven(Step(basket, pool, pick).stages)
  {
    var i, next := pick.leg, Step(basket, pool, pick);
    assert Identified(pool.stages[i]);
    MoveId(basket, i, pool.stages[i], pool.books, pool.lock, next.now, pick.reply);
  }

  /** Past its post, with the order taken. */
  predicate PastPosting(stage: Stage) {
    Rank(stage) <= 7 && stage != Done(Duplicate) && stage != Done(Refused)
  }

  /** How often a leg's order was posted: never before its turn or as a duplicate, at most three times
      in all. */
  ghost predicate PostsWithin(task: Task, stage: Stage, before: Effort, after: Effort) {
    var order := OrderOf(task);
    && before.posted[order] <= after.posted[order] <= before.posted[order] + MAX_RETRIES
    && (stage.Checking? || stage.Cleared? || stage.Posting? || stage == Done(Duplicate) ==>
          after.posted[order] == before.posted[order])
  }

  /** No leg's order. */
  ghost predicate NotOrdered(basket: Basket, order: Order) {
    forall i | 0 <= i < |basket.tasks| :: OrderOf(basket.tasks[i]) != order
  }

  /** A leg fails only because the exchange is geo-blocked or its order was really posted, and a live
      one is sent only by posting it. */
  ghost predicate PostedForCause(basket: Basket, stages: seq<Stage>, geoRestricted: bool, before: Effort,
                                 after: Effort)
    requires |stages| == |basket.tasks|
  {
    forall i | 0 <= i < |stages| ::
      (stages[i] == Done(Refused) && !geoRestricted) || (!basket.dryRun && PastPosting(stages[i])) ==>
        after.posted[OrderOf(basket.tasks[i])] > before.posted[OrderOf(basket.tasks[i])]
  }

  /** Nothing but the legs' orders is posted, and with distinct tokens each leg's posts are its own. */
  ghost predicate PostsKept(basket: Basket, stages: seq<Stage>, before: Effort, after: Effort)
    requires |stages| == |basket.tasks|
  {
    && (forall o | NotOrdered(basket, o) :: after.posted[o] == before.posted[o])
    && (TokensDistinct(basket) ==>
          forall i | 0 <= i < |stages| :: PostsWithin(basket.tasks[i], stages[i], before, after))
  }

  ghost predicate PostsAccounted(basket: Basket, stages: seq<Stage>, geoRestricted: bool, before: Effort,
                                 after: Effort)
    requires |stages| == |basket.tasks|
  {
    PostedForCause(basket, stages, geoRestricted, before, after) && PostsKept(basket, stages, before, after)
  }

  /** The latch is closed exactly if it was before or a post has met the geoblock since; a dry run,
      and a live one while the latch is closed, asks nothing of the exchange. */
  ghost predicate Latched(dryRun: bool, geoBefore: bool, geoAfter: bool, before: Effort, after: Effort) {
    && NoLess(before, after)
    && (geoAfter <==> geoBefore || after.geoblocks > before.geoblocks)
    && (dryRun || geoBefore ==> after == before)
  }

  ghost predicate NonePosting(stages: seq<Stage>) {
    forall s | s in stages :: !s.Posting?
  }

  lemma NoneRefused(basket: Basket, pool: Pool, effort: Effort)
    requires |pool.stages| == |basket.tasks| && forall i | 0 <= i < |pool.stages| :: pool.stages[i].Checking?
    ensures PostsAccounted(basket, pool.stages, pool.books.geoRestricted, effort, effort)
    ensures NonePosting(pool.stages)
  {
  }

  lemma MovePast(basket: Basket, leg: nat, stage: Stage, b: Books, lock: Option<nat>, now: real, reply: Reply)
    requires leg < |basket.tasks| && !basket.dryRun
    ensures PastPosting(Move(basket, leg, stage, b, lock, now, reply).stage) ==> stage.Posting? || PastPosting(stage)
  {
  }

  /** What a thread in its turn posts: its leg's order when it is posting, nothing otherwise. */
  ghost predicate PostsItsLeg(basket: Basket, pool: Pool, pick: Pick, posts: nat, before: Effort, after: Effort)
    requires Legal(basket, pool, pick)
  {
    if pool.stages[pick.leg].Posting? then
      && 1 <= posts <= MAX_RETRIES
      && after == AfterPosts(before, OrderOf(basket.tasks[pick.leg]), posts, Blocks(pick.reply))
    else after == before
  }

  lemma StepPosts(basket: Basket, pool: Pool, pick: Pick, start: Effort, before: Effort, after: Effort, posts: nat)
    requires Legal(basket, pool, pick)
    requires PostsAccounted(basket, pool.stages, pool.books.geoRestricted, start, before)
    requires NoLess(start, before) && PostsItsLeg(basket, pool, pick, posts, before, after)
    ensures var next := Step(basket, pool, pick);
      PostsAccounted(basket, next.stages, next.books.geoRestricted, start, after)
  {
    StepCaused(basket, pool, pick, start, before, after, posts);
    StepPostsKept(basket, pool, pick, start, before, after, posts);
    hide PostedForCause, PostsKept, PostsItsLeg, Step;
  }

  lemma StepCaused(basket: Basket, pool: Pool, pick: Pick, start: Effort, before: Effort, after: Effort, posts: nat)
    requires Legal(basket, pool, pick)
    requires PostedForCause(basket, pool.stages, pool.books.geoRestricted, start, before)
    requires NoLess(start, before) && PostsItsLeg(basket, pool, pick, posts, before, after)
    ensures var next := Step(basket, pool, pick);
      PostedForCause(basket, next.stages, next.books.geoRestricted, start, after)
  {
    var i, next := pick.leg, Step(basket, pool, pick);
    var stage, stage' := pool.stages[i], next.stages[i];
    GeoblockLatches(basket, pool, pick);
    assert stage' == Done(Refused) && !next.books.geoRestricted ==> stage.Posting? || stage == Done(Refused);
    if !basket.dryRun {
      MovePast(basket, i, stage, pool.books, pool.lock, next.now, pick.reply);
    }
    PostsGrow(OrderOf(basket.tasks[i]), start, before, after, if stage.Posting? then posts else 0, Blocks(pick.reply));
    assert next.stages == pool.stages[i := stage'];
    hide Move, Step, Rank, PastPosting, AfterPosts, NoLess;
  }

  lemma StepPostsKept(basket: Basket, pool: Pool, pick: Pick, start: Effort, before: Effort, after: Effort, posts: nat)
    requires Legal(basket, pool, pick) && PostsKept(basket, pool.stages, start, before)
    requires NoLess(start, before) && PostsItsLeg(basket, pool, pick, posts, before, after)
    ensures PostsKept(basket, Step(basket, pool, pick).stages, start, after)
  {
    var i, next := pick.leg, Step(basket, pool, pick);
    var stage, stage' := pool.stages[i], next.stages[i];
    MovePosts(basket, i, stage, pool.books, pool.lock, next.now, pick.reply);
    PostsGrow(OrderOf(basket.tasks[i]), start, before, after, if stage.Posting? then posts else 0, Blocks(pick.reply));
    assert next.stages == pool.stages[i := stage'];
    hide Move, Step, AfterPosts, NoLess;
    forall j | 0 <= j < |next.stages| && TokensDistinct(basket)
      ensures PostsWithin(basket.tasks[j], next.stages[j], start, after) {
      assert PostsWithin(basket.tasks[j], pool.stages[j], start, before);
    }
  }

  lemma PostsGrow(order: Order, start: Effort, before: Effort, after: Effort, posts: nat, blocks: nat)
    requires NoLess(start, before)
    requires if posts > 0 then after == AfterPosts(before, order, posts, blocks) else after == before
    ensures forall o :: start.posted[o] <= before.posted[o]
    ensures forall o :: after.posted[o] == before.posted[o] + if o == order then posts else 0
  {
  }

  lemma StepStaysQuiet(basket: Basket, pool: Pool, pick: Pick)
    requires Legal(basket, pool, pick) && NonePosting(pool.stages) && (basket.dryRun || pool.books.geoRestricted)
    ensures NonePosting(Step(basket, pool, pick).stages) && !pool.stages[pick.leg].Posting?
  {
    var i, next := pick.leg, Step(basket, pool, pick);
    assert pool.stages[i] in pool.stages;
    assert !next.stages[i].Posting?;
    hide Move;
    forall s | s in next.stages ensures !s.Posting? {
      var j :| 0 <= j < |next.stages| && s == next.stages[j];
      assert pool.stages[j] in pool.stages;
    }
  }

  lemma StepLatched(basket: Basket, pool: Pool, pick: Pick, geoBefore: bool, start: Effort, before: Effort,
                    after: Effort, posts: nat)
    requires Legal(basket, pool, pick) && Latched(basket.dryRun, geoBefore, pool.books.geoRestricted, start, before)
    requires PostsItsLeg(basket, pool, pick, posts, before, after)
    requires basket.dryRun || geoBefore ==> NonePosting(pool.stages)
    ensures Latched(basket.dryRun, geoBefore, Step(basket, pool, pick).books.geoRestricted, start, after)
  {
    GeoblockLatches(basket, pool, pick);
    assert pool.stages[pick.leg] in pool.stages;
    hide Step;
  }

  /** Runs every leg to its end, the scheduler choosing freely among the threads that can move
      and the exchange answering each post as it likes. With a `frozen` clock no time passes. */
  method RunPool(basket: Basket, books: Books, now: real, frozen: bool, exchange: Exchange)
    returns (pool: Pool, ghost picks: seq<Pick>)
    modifies exchange
    ensures LegalRun(basket, Start(basket, books, now), picks)
    ensures pool == RunPicks(basket, Start(basket, books, now), picks)
    ensures |pool.stages| == |basket.tasks| && AllDone(pool)
    ensures pool.now >= now && (frozen ==> pool.now == now)
    ensures GainsWithin(basket, pool.stages, old(exchange.tape), exchange.tape)
    ensures basket.dryRun || books.geoRestricted ==> exchange.tape == old(exchange.tape)
    ensures exchange.truthful ==> Traced(basket, pool.stages, old(exchange.tape), exchange.tape)
    ensures exchange.truthful && !basket.dryRun ==> IdsGiven(pool.stages)
    ensures PostsAccounted(basket, pool.stages, pool.books.geoRestricted, old(exchange.effort), exchange.effort)
    ensures Latched(basket.dryRun, books.geoRestricted, pool.books.geoRestricted, old(exchange.effort), exchange.effort)
  {
    hide Step, Move, IdOf, Rank, Identified, Traced, GainsWithin, PostsAccounted, Latched, NonePosting, AfterPosts;
    pool, picks := Start(basket, books, now), [];
    StartAccounted(basket, books, now);
    StartTraced(basket, pool, exchange.tape);
    StartGains(basket, pool, exchange.tape);
    NoneRefused(basket, pool, exchange.effort);
    StartLatched(basket.dryRun, books.geoRestricted, exchange.effort);
    while !AllDone(pool)
      invariant LegalRun(basket, Start(basket, books, now), picks)
      invariant pool == RunPicks(basket, Start(basket, books, now), picks)
      invariant Guarded(basket, pool) && pool.now >= now && (frozen ==> pool.now == now)
      invariant GainsWithin(basket, pool.stages, old(exchange.tape), exchange.tape)
      invariant exchange.truthful ==> Traced(basket, pool.stages, old(exchange.tape), exchange.tape)
      invariant exchange.truthful && !basket.dryRun ==> IdsGiven(pool.stages)
      invariant PostsAccounted(basket, pool.stages, pool.books.geoRestricted, old(exchange.effort), exchange.effort)
      invariant Latched(basket.dryRun, books.geoRestricted, pool.books.geoRestricted, old(exchange.effort),
                        exchange.effort)
      invariant basket.dryRun || books.geoRestricted ==>
        NonePosting(pool.stages) && exchange.tape == old(exchange.tape)
      decreases TotalRank(pool.stages)
    {
      SomeoneCanMove(basket, pool);
      var i: nat :| i < |pool.stages| && CanMove(pool, i);
      var elapsed: real :| elapsed >= 0.0 && (frozen ==> elapsed == 0.0);
      var pick;
      ghost var before, effort := exchange.tape, exchange.effort;
      ghost var taken, posts;
      pick, taken, posts := TakeTurn(basket, pool, i, elapsed, exchange);
      LatchGrows(basket.dryRun, books.geoRestricted, pool.books.geoRestricted, old(exchange.effort), effort);
      StepGains(basket, pool, pick, old(exchange.tape), before, exchange.tape, taken);
      StepPosts(basket, pool, pick, old(exchange.effort), effort, exchange.effort, posts);
      StepLatched(basket, pool, pick, books.geoRestricted, old(exchange.effort), effort, exchange.effort, posts);
      if exchange.truthful {
        StepTraced(basket, pool, pick, old(exchange.tape), before, exchange.tape);
        if !basket.dryRun {
          StepIds(basket, pool, pick);
        }
      }
      if basket.dryRun || books.geoRestricted {
        StepStaysQuiet(basket, pool, pick);
      }
      MoveLowersRank(basket, pool, pick);
      StepGuarded(basket, pool, pick);
      RunExtended(basket, Start(basket, books, now), picks, pick);
      picks := picks + [pick];
      pool := Step(basket, pool, pick);
    }
  }

  lemma StartLatched(dryRun: bool, geoRestricted: bool, effort: Effort)
    ensures Latched(dryRun, geoRestricted, geoRestricted, effort, effort)
  {
  }

  lemma LatchGrows(dryRun: bool, geoBefore: bool, geoAfter: bool, before: Effort, after: Effort)
    requires Latched(dryRun, geoBefore, geoAfter, before, after)
    ensures NoLess(before, after) && (geoBefore ==> geoAfter)
  {
  }

  /** What the thread asks of the exchange in its turn: nothing unless it is posting. */
  method TakeTurn(basket: Basket, pool: Pool, i: nat, elapsed: real, exchange: Exchange)
    returns (pick: Pick, ghost taken: Option<nat>, ghost posts: nat)
    requires |pool.stages| == |basket.tasks| && i < |pool.stages| && elapsed >= 0.0
    modifies exchange
    ensures pick.leg == i && pick.elapsed == elapsed && Legal(basket, pool, pick)
    ensures Replied(basket, pool, pick, old(exchange.tape), exchange.tape, taken)
    ensures exchange.truthful ==> taken == IdIn(pick.reply) && (pick.reply.Accepted? ==> pick.reply.orderId.Some?)
    ensures PostsItsLeg(basket, pool, pick, posts, old(exchange.effort), exchange.effort)
  {
    var reply := PlacementFailed;
    taken, posts := None, 0;
    if pool.stages[i].Posting? {
      var slept;
      ghost var replies;
      reply, slept, replies, taken := PlaceOrder(exchange, OrderOf(basket.tasks[i]));
      posts := |replies|;
    }
    pick := Pick(i, elapsed, reply);
  }
}
