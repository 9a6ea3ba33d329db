/** Rebuilding order books from full snapshots and level-by-level changes. */
module BookClient {
  import opened Trading
  import opened Markets

  /** A token's two price-to-size tables. */
  datatype Contents = Contents(bids: map<real, real>, asks: map<real, real>)

  /** A change names a token, or none. */
  datatype Change = Change(assetId: Option<string>, side: Side, price: real, size: real)

  datatype Message =
    | Snapshot(assetId: Option<string>, bids: seq<PriceLevel>, asks: seq<PriceLevel>)
    | PriceChange(changes: seq<Change>)
    | Other

  /** A table built from a list of levels, a later level replacing an earlier one. */
  function TableOf(levels: seq<PriceLevel>): map<real, real> {
    if levels == [] then map[]
    else TableOf(levels[..|levels| - 1])[levels[|levels| - 1].price := levels[|levels| - 1].size]
  }

  /** A size of zero removes the level. */
  function WithLevel(table: map<real, real>, price: real, size: real): map<real, real> {
    if size == 0.0 then table - {price} else table[price := size]
  }

  function Changed(c: Contents, side: Side, price: real, size: real): Contents {
    if side.Buy? then c.(bids := WithLevel(c.bids, price, size)) else c.(asks := WithLevel(c.asks, price, size))
  }

  /** Changes without a token, or for a token never snapshotted, are ignored. */
  predicate Tracked(tokens: set<string>, change: Change) {
    change.assetId.Some? && change.assetId.value != "" && change.assetId.value in tokens
  }

  /** The token of the last change that is not ignored. */
  function LastTracked(tokens: set<string>, changes: seq<Change>): (token: Option<string>)
    ensures token.Some? <==>
      exists c | c in changes :: c.assetId.Some? && c.assetId.value != "" && c.assetId.value in tokens
    ensures token.Some? ==> exists k | 0 <= k < |changes| ::
      && changes[k].assetId == token && token.value != "" && token.value in tokens
      && forall j | k < j < |changes| :: !Tracked(tokens, changes[j])
  {
    if changes == [] then None
    else if Tracked(tokens, changes[|changes| - 1]) then changes[|changes| - 1].assetId
    else LastTracked(tokens, changes[..|changes| - 1])
  }

  /** The token whose book a message makes the client emit: the snapshot's, or that of the last change
      that is not ignored. */
  function Emitted(tokens: set<string>, message: Message): Option<string> {
    match message
    case Snapshot(assetId, _, _) => assetId
    case PriceChange(changes) => LastTracked(tokens, changes)
    case Other => None
  }

  // ---- the tables as a function of the messages ----------------------------------------------

  function AfterChange(view: map<string, Contents>, change: Change): map<string, Contents> {
    if !Tracked(view.Keys, change) then view
    else view[change.assetId.value := Changed(view[change.assetId.value], change.side, change.price, change.size)]
  }

  function AfterChanges(view: map<string, Contents>, changes: seq<Change>): map<string, Contents> {
    if changes == [] then view
    else AfterChange(AfterChanges(view, changes[..|changes| - 1]), changes[|changes| - 1])
  }

  function AfterMessage(view: map<string, Contents>, message: Message): map<string, Contents> {
    match message
    case Snapshot(assetId, bids, asks) =>
      if assetId.None? then view else view[assetId.value := Contents(TableOf(bids), TableOf(asks))]
    case PriceChange(changes) => AfterChanges(view, changes)
    case Other => view
  }

  function AfterLog(log: seq<Message>): map<string, Contents> {
    if log == [] then map[] else AfterMessage(AfterLog(log[..|log| - 1]), log[|log| - 1])
  }

  // ---- the last writer ---------------------------------------------------------------------------

  /** One write to the books: a token's whole book, or one of its levels. */
  datatype Write =
    | Replaced(token: string, bids: seq<PriceLevel>, asks: seq<PriceLevel>)
    | Set(token: string, side: Side, price: real, size: real)

  function ChangeWrites(changes: seq<Change>): seq<Write> {
    if changes == [] then []
    else
      var last := changes[|changes| - 1];
      ChangeWrites(changes[..|changes| - 1])
      + if last.assetId.Some? && last.assetId.value != "" then
          [Set(last.assetId.value, last.side, last.price, last.size)] else []
  }

  function MessageWrites(message: Message): seq<Write> {
    match message
    case Snapshot(assetId, bids, asks) => if assetId.None? then [] else [Replaced(assetId.value, bids, asks)]
    case PriceChange(changes) => ChangeWrites(changes)
    case Other => []
  }

  /** All the writes of a log, in order. */
  function Writes(log: seq<Message>): seq<Write> {
    if log == [] then [] else Writes(log[..|log| - 1]) + MessageWrites(log[|log| - 1])
  }

  predicate HasSnapshot(writes: seq<Write>, token: string) {
    exists w | w in writes :: w.Replaced? && w.token == token
  }

  /** The size of the last level listed at a price. */
  function LastListed(levels: seq<PriceLevel>, price: real): Option<real> {
    if levels == [] then None
    else if levels[|levels| - 1].price == price then Some(levels[|levels| - 1].size)
    else LastListed(levels[..|levels| - 1], price)
  }

  /** Who wrote a level last: a change since the token's last snapshot, or that snapshot; before
      any snapshot nothing counts. */
  function LastWritten(writes: seq<Write>, token: string, side: Side, price: real): Option<real> {
    if writes == [] then None
    else
      var w, before := writes[|writes| - 1], writes[..|writes| - 1];
      if w.token != token then LastWritten(before, token, side, price)
      else match w
        case Replaced(_, bids, asks) => LastListed(if side.Buy? then bids else asks, price)
        case Set(_, s, p, size) =>
          if s != side || p != price then LastWritten(before, token, side, price)
          else if HasSnapshot(before, token) && size != 0.0 then Some(size)
          else None
  }

  /** The size that the tables hold for a level. */
  function LevelAt(view: map<string, Contents>, token: string, side: Side, price: real): Option<real> {
    if token !in view then None
    else
      var table := if side.Buy? then view[token].bids else view[token].asks;
      if price in table then Some(table[price]) else None
  }

  lemma {:induction false} TableIsLastListed(levels: seq<PriceLevel>, price: real)
    ensures price in TableOf(levels) <==> LastListed(levels, price).Some?
    ensures price in TableOf(levels) ==> LastListed(levels, price) == Some(TableOf(levels)[price])
  {
    if levels != [] {
      TableIsLastListed(levels[..|levels| - 1], price);
    }
  }

  /** The tables agree with the writes on which tokens are tracked and on every level. */
  ghost predicate Agrees(view: map<string, Contents>, writes: seq<Write>) {
    && (forall t :: t in view <==> HasSnapshot(writes, t))
    && (forall t, side, price :: LevelAt(view, t, side, price) == LastWritten(writes, t, side, price))
  }

  lemma SnapshotGrows(writes: seq<Write>, w: Write)
    ensures forall t :: HasSnapshot(writes + [w], t) <==> HasSnapshot(writes, t) || (w.Replaced? && w.token == t)
  {
    forall t | HasSnapshot(writes, t) ensures HasSnapshot(writes + [w], t) {
      var v :| v in writes && v.Replaced? && v.token == t;
      assert v in writes + [w];
    }
    assert w in writes + [w];
  }

  lemma ReplacedAgrees(view: map<string, Contents>, writes: seq<Write>, token: string, bids: seq<PriceLevel>,
                       asks: seq<PriceLevel>)
    requires Agrees(view, writes)
    ensures Agrees(view[token := Contents(TableOf(bids), TableOf(asks))], writes + [Replaced(token, bids, asks)])
  {
    var w := Replaced(token, bids, asks);
    var view', writes' := view[token := Contents(TableOf(bids), TableOf(asks))], writes + [w];
    SnapshotGrows(writes, w);
    assert writes'[..|writes|] == writes;
    forall t, side: Side, price ensures LevelAt(view', t, side, price) == LastWritten(writes', t, side, price) {
      TableIsLastListed(if side.Buy? then bids else asks, price);
      assert LevelAt(view, t, side, price) == LastWritten(writes, t, side, price);
    }
  }

  lemma SetAgrees(view: map<string, Contents>, writes: seq<Write>, token: string, side: Side, price: real, size: real)
    requires Agrees(view, writes)
    ensures Agrees(if token in view then view[token := Changed(view[token], side, price, size)] else view,
                   writes + [Set(token, side, price, size)])
  {
    var w := Set(token, side, price, size);
    var view' := if token in view then view[token := Changed(view[token], side, price, size)] else view;
    var writes' := writes + [w];
    SnapshotGrows(writes, w);
    assert writes'[..|writes|] == writes;
    forall t, s: Side, p ensures LevelAt(view', t, s, p) == LastWritten(writes', t, s, p) {
      assert LevelAt(view, t, s, p) == LastWritten(writes, t, s, p);
    }
  }

  lemma {:induction false} ChangesAgree(view: map<string, Contents>, writes: seq<Write>, changes: seq<Change>)
    requires Agrees(view, writes)
    ensures Agrees(AfterChanges(view, changes), writes + ChangeWrites(changes))
  {
    if changes == [] {
      assert writes + [] == writes;
    } else {
      var last, rest := changes[|changes| - 1], changes[..|changes| - 1];
      ChangesAgree(view, writes, rest);
      var sofar := writes + ChangeWrites(rest);
      if last.assetId.Some? && last.assetId.value != "" {
        SetAgrees(AfterChanges(view, rest), sofar, last.assetId.value, last.side, last.price, last.size);
        assert writes + ChangeWrites(changes) == sofar + [Set(last.assetId.value, last.side, last.price, last.size)];
      } else {
        assert writes + ChangeWrites(changes) == sofar;
      }
    }
  }

  lemma {:induction false} ReplayAgrees(log: seq<Message>)
    ensures Agrees(AfterLog(log), Writes(log))
  {
    if log != [] {
      var last, rest := log[|log| - 1], log[..|log| - 1];
      ReplayAgrees(rest);
      match last {
        case Snapshot(assetId, bids, asks) =>
          if assetId.Some? {
            ReplacedAgrees(AfterLog(rest), Writes(rest), assetId.value, bids, asks);
          } else {
            assert Writes(log) == Writes(rest);
          }
        case PriceChange(changes) => ChangesAgree(AfterLog(rest), Writes(rest), changes);
        case Other => assert Writes(log) == Writes(rest);
      }
    }
  }

  /** After any log, a token is tracked exactly if it was snapshotted, and the size of every
      level is that of its last writer. */
  lemma LastWriterWins(log: seq<Message>, token: string, side: Side, price: real)
    ensures token in AfterLog(log) <==> HasSnapshot(Writes(log), token)
    ensures LevelAt(AfterLog(log), token, side, price) == LastWritten(Writes(log), token, side, price)
  {
    ReplayAgrees(log);
  }

  function WritesOf(writes: seq<Write>, token: string): seq<Write> {
    if writes == [] then []
    else
      var last := writes[|writes| - 1];
      WritesOf(writes[..|writes| - 1], token) + if last.token == token then [last] else []
  }

  lemma OneMoreWrite(writes: seq<Write>, w: Write, token: string, side: Side, price: real)
    requires w.token == token
    ensures LastWritten(writes + [w], token, side, price)
         == match w
            case Replaced(_, bids, asks) => LastListed(if side.Buy? then bids else asks, price)
            case Set(_, s, p, size) =>
              if s != side || p != price then LastWritten(writes, token, side, price)
              else if HasSnapshot(writes, token) && size != 0.0 then Some(size)
              else None
  {
    assert (writes + [w])[..|writes|] == writes;
  }

  lemma {:induction false} OwnWritesOnly(writes: seq<Write>, token: string, side: Side, price: real)
    ensures HasSnapshot(writes, token) <==> HasSnapshot(WritesOf(writes, token), token)
    ensures LastWritten(writes, token, side, price) == LastWritten(WritesOf(writes, token), token, side, price)
  {
    if writes != [] {
      var w, before := writes[|writes| - 1], writes[..|writes| - 1];
      OwnWritesOnly(before, token, side, price);
      assert writes == before + [w];
      SnapshotGrows(before, w);
      if w.token == token {
        var own := WritesOf(before, token);
        SnapshotGrows(own, w);
        OneMoreWrite(before, w, token, side, price);
        OneMoreWrite(own, w, token, side, price);
        assert WritesOf(writes, token) == own + [w];
      } else {
        assert WritesOf(writes, token) == WritesOf(before, token);
      }
    }
  }

  /** A token's levels depend only on its own writes. */
  lemma TokensAreIndependent(log: seq<Message>, other: seq<Message>, token: string, side: Side, price: real)
    requires WritesOf(Writes(log), token) == WritesOf(Writes(other), token)
    ensures LevelAt(AfterLog(log), token, side, price) == LevelAt(AfterLog(other), token, side, price)
  {
    LastWriterWins(log, token, side, price);
    LastWriterWins(other, token, side, price);
    OwnWritesOnly(Writes(log), token, side, price);
    OwnWritesOnly(Writes(other), token, side, price);
  }

  // ---- the objects ---------------------------------------------------------------------------------

  /** Strictly in order of price, dearest first when descending. */
  ghost predicate InOrder(levels: seq<PriceLevel>, descending: bool) {
    forall i, j | 0 <= i < j < |levels| ::
      if descending then levels[i].price > levels[j].price else levels[i].price < levels[j].price
  }

  /** The list shows exactly the table's levels. */
  ghost predicate Lists(levels: seq<PriceLevel>, table: map<real, real>) {
    && (forall l | l in levels :: l.price in table && l.size == table[l.price])
    && (forall p | p in table :: PriceLevel(p, table[p]) in levels)
  }

  /** `p` comes first among the prices. */
  ghost predicate First(p: real, prices: set<real>, descending: bool) {
    p in prices && forall q | q in prices :: if descending then q <= p else p <= q
  }

  lemma Member<T>(s: set<T>) returns (x: T)
    requires |s| > 0
    ensures x in s
  {
    x :| x in s;
  }

  lemma SomeFirst(prices: set<real>, descending: bool)
    requires |prices| > 0
    ensures exists p :: First(p, prices, descending)
  {
    var p := Member(prices);
    var rest := prices - {p};
    var first := p;
    if |rest| > 0 {
      SomeFirst(rest, descending);
      var r :| First(r, rest, descending);
      first := if descending then Max(p, r) else Min(p, r);
    }
    forall q | q in prices ensures if descending then q <= first else first <= q {
      assert q == p || q in rest;
    }
    assert First(first, prices, descending);
  }

  /** A table's levels, sorted. */
  method SortedLevels(table: map<real, real>, descending: bool) returns (levels: seq<PriceLevel>)
    ensures InOrder(levels, descending) && Lists(levels, table)
  {
    levels := [];
    var todo := table.Keys;
    while |todo| > 0
      invariant todo <= table.Keys
      invariant InOrder(levels, descending)
      invariant forall l | l in levels :: l.price in table && l.price !in todo && l.size == table[l.price]
      invariant forall p | p in table && p !in todo :: PriceLevel(p, table[p]) in levels
      invariant forall l, q | l in levels && q in todo :: if descending then l.price > q else l.price < q
      decreases |todo|
    {
      SomeFirst(todo, descending);
      var p :| p in todo && forall q | q in todo :: if descending then q <= p else p <= q;
      levels := levels + [PriceLevel(p, table[p])];
      todo := todo - {p};
    }
  }

  class BookState {
    var bids: map<real, real>
    var asks: map<real, real>

    constructor ()
      ensures bids == map[] && asks == map[]
    {
      bids, asks := map[], map[];
    }

    function State(): Contents
      reads this
    {
      Contents(bids, asks)
    }

    /** The book as the rest of the program sees it: bids dearest first, asks cheapest first. */
    method ToOrderBook(token: string, receivedAt: real) returns (book: OrderBook)
      ensures book.token == token && book.conditionId == "" && book.receivedAt == receivedAt
      ensures Shows(book, State())
    {
      var b := SortedLevels(bids, true);
      var a := SortedLevels(asks, false);
      book := OrderBook(token, "", b, a, receivedAt);
    }
  }

  /** A book lists exactly these tables, each side sorted from its best price. */
  ghost predicate Shows(book: OrderBook, c: Contents) {
    && InOrder(book.bids, true) && Lists(book.bids, c.bids)
    && InOrder(book.asks, false) && Lists(book.asks, c.asks)
  }

  /** The first level of a shown book is its best. */
  lemma FirstIsBest(book: OrderBook, c: Contents)
    requires Shows(book, c)
    ensures BestBid(book.bids) == if book.bids == [] then None else Some(book.bids[0])
    ensures BestAsk(book.asks) == if book.asks == [] then None else Some(book.asks[0])
  {
    var bid, ask := BestBid(book.bids), BestAsk(book.asks);
    if bid.Some? {
      var i :| 0 <= i < |book.bids| && book.bids[i] == bid.value;
      assert book.bids[0] in book.bids;
    }
    if ask.Some? {
      var i :| 0 <= i < |book.asks| && book.asks[i] == ask.value;
      assert book.asks[0] in book.asks;
    }
  }

  /** The market channel's client: one book object per token. */
  class ClobClient {
    var books: map<string, BookState>

    /** No two tokens share a book object. */
    ghost predicate Valid()
      reads this
    {
      forall s, t | s in books && t in books && s != t :: books[s] != books[t]
    }

    ghost function View(): map<string, Contents>
      reads this, books.Values
    {
      map t | t in books :: books[t].State()
    }

    constructor ()
      ensures Valid() && View() == map[] && books == map[]
    {
      books := map[];
    }

    method HandleEvent(message: Message, receivedAt: real) returns (book: Option<OrderBook>)
      requires Valid()
      modifies this, books.Values
      ensures Valid() && fresh(books.Values - old(books.Values))
      ensures View() == AfterMessage(old(View()), message)
      ensures (if book.Some? then Some(book.value.token) else None) == Emitted(old(View()).Keys, message)
      ensures book.Some? ==> book.value.token in View() && Shows(book.value, View()[book.value.token])
    {
      assert View().Keys == books.Keys;
      match message {
        case Snapshot(assetId, bids, asks) => book := ApplySnapshot(assetId, bids, asks, receivedAt);
        case PriceChange(changes) => book := ApplyDelta(changes, receivedAt);
        case Other => return None;
      }
    }

    method ApplySnapshot(assetId: Option<string>, bids: seq<PriceLevel>, asks: seq<PriceLevel>, receivedAt: real)
      returns (book: Option<OrderBook>)
      requires Valid()
      modifies this, books.Values
      ensures Valid() && fresh(books.Values - old(books.Values))
      ensures View() == AfterMessage(old(View()), Snapshot(assetId, bids, asks))
      ensures (if book.Some? then Some(book.value.token) else None) == assetId
      ensures book.Some? ==> assetId.value in View() && Shows(book.value, View()[assetId.value])
    {
      hide Shows, TableOf;
      if assetId.None? {
        return None;
      }
      var token := assetId.value;
      if token !in books {
        var created := new BookState();
        books := books[token := created];
      }
      var state := books[token];
      state.bids := TableOf(bids);
      state.asks := TableOf(asks);
      var shown := state.ToOrderBook(token, receivedAt);
      return Some(shown);
    }

    /** Writes one level of a tracked token and shows the token's book. */
    method ApplyChange(change: Change, receivedAt: real) returns (book: OrderBook)
      requires Valid() && Tracked(books.Keys, change)
      modifies books.Values
      ensures Valid() && books == old(books)
      ensures View() == AfterChange(old(View()), change)
      ensures book.token == change.assetId.value && Shows(book, View()[change.assetId.value])
    {
      var state := books[change.assetId.value];
      if change.side.Buy? {
        state.bids := WithLevel(state.bids, change.price, change.size);
      } else {
        state.asks := WithLevel(state.asks, change.price, change.size);
      }
      book := state.ToOrderBook(change.assetId.value, receivedAt);
    }

    /** Applies the changes one by one; the book returned is that of the last token changed. */
    method ApplyDelta(changes: seq<Change>, receivedAt: real) returns (book: Option<OrderBook>)
      requires Valid()
      modifies books.Values
      ensures Valid() && books == old(books)
      ensures View() == AfterChanges(old(View()), changes)
      ensures (if book.Some? then Some(book.value.token) else None) == LastTracked(books.Keys, changes)
      ensures book.Some? ==> book.value.token in View() && Shows(book.value, View()[book.value.token])
    {
      hide Changed, Shows;
      book := None;
      for i := 0 to |changes|
        invariant Valid() && View().Keys == books.Keys
        invariant books == old(books)
        invariant View() == AfterChanges(old(View()), changes[..i])
        invariant (if book.Some? then Some(book.value.token) else None) == LastTracked(books.Keys, changes[..i])
        invariant book.Some? ==> book.value.token in View() && Shows(book.value, View()[book.value.token])
      {
        var change := changes[i];
        assert changes[..i + 1] == changes[..i] + [change];
        assert changes[..i + 1][..i] == changes[..i];
        if Tracked(books.Keys, change) {
          var shown := ApplyChange(change, receivedAt);
          book := Some(shown);
        }
      }
      assert changes[..|changes|] == changes;
    }
  }
}
