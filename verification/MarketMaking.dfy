/** Two-sided quoting around the mid price: a spread that widens with time, inventory and
    volatility, and sizes that keep the inventory inside a hard cap. */
module MarketMaking {
  import opened Trading
  import opened RealFacts
  import opened Markets

  // ---- the spread -------------------------------------------------------------------------

  datatype SpreadParams = SpreadParams(baseHalfSpreadBps: real, maxHalfSpreadBps: real, timeWidenHorizonHours: real,
                                       timeWidenMaxMultiplier: real, inventoryWidenMaxMultiplier: real,
                                       volatilityWidenSensitivity: real) {
    /** Factors that widen and never narrow. */
    predicate Widening() {
      && baseHalfSpreadBps > 0.0 && maxHalfSpreadBps > 0.0
      && timeWidenMaxMultiplier >= 1.0 && inventoryWidenMaxMultiplier >= 1.0 && volatilityWidenSensitivity >= 0.0
    }
  }

  /** A factor of one, widened by a share `m` of `extra`. */
  function Widened(m: real, extra: real): real { 1.0 + m * extra }

  lemma WidenedMonotone(m: real, m': real, extra: real)
    requires 0.0 <= m <= m' && extra >= 0.0
    ensures 1.0 <= Widened(m, extra) <= Widened(m', extra)
  {
    MulMonotone(0.0, m, extra);
    MulMonotone(m, m', extra);
  }

  /** Share of the widening horizon that has elapsed. */
  function Elapsed(hours: real, horizon: real): real
    requires horizon > 0.0
  {
    1.0 - hours / horizon
  }

  function TimeToResolutionFactor(hoursRemaining: Option<real>, params: SpreadParams): real {
    if hoursRemaining.None? then 1.0
    else if hoursRemaining.value <= 0.0 then params.timeWidenMaxMultiplier
    else if hoursRemaining.value >= params.timeWidenHorizonHours then 1.0
    else Widened(Elapsed(hoursRemaining.value, params.timeWidenHorizonHours), params.timeWidenMaxMultiplier - 1.0)
  }

  function InventorySkewFactor(skew: real, params: SpreadParams): real {
    Widened(Min(Abs(skew), 1.0), params.inventoryWidenMaxMultiplier - 1.0)
  }

  function VolatilityFactor(volatility: real, params: SpreadParams): real {
    Widened(Max(volatility, 0.0), params.volatilityWidenSensitivity)
  }

  function HalfSpreadBps(hoursRemaining: Option<real>, skew: real, volatility: real, params: SpreadParams): real {
    Min(Multiplied(params.baseHalfSpreadBps, Multiplier(hoursRemaining, skew, volatility, params)),
        params.maxHalfSpreadBps)
  }

  function Multiplied(base: real, multiplier: real): real { base * multiplier }

  lemma MultipliedMonotone(base: real, x: real, y: real)
    requires base > 0.0 && 1.0 <= x <= y
    ensures base <= Multiplied(base, x) <= Multiplied(base, y)
  {
    MulMonotone(1.0, x, base);
    MulMonotone(x, y, base);
  }

  function Multiplier(hoursRemaining: Option<real>, skew: real, volatility: real, params: SpreadParams): real {
    Product(TimeToResolutionFactor(hoursRemaining, params), InventorySkewFactor(skew, params),
            VolatilityFactor(volatility, params))
  }

  function Product(x: real, y: real, z: real): real { x * y * z }

  lemma ElapsedMonotone(hours: real, fewer: real, horizon: real)
    requires 0.0 < fewer <= hours < horizon
    ensures 0.0 <= Elapsed(hours, horizon) <= Elapsed(fewer, horizon) <= 1.0
  {
    QuotientBelowOne(hours, horizon);
    QuotientMonotone(fewer, hours, horizon);
    QuotientSign(fewer, horizon);
  }

  /** Less time left, or a known instead of an unknown end, never narrows the time factor. */
  lemma TimeFactorMonotone(later: Option<real>, sooner: Option<real>, params: SpreadParams)
    requires params.Widening()
    requires later.None? || (sooner.Some? && sooner.value <= later.value)
    ensures 1.0 <= TimeToResolutionFactor(later, params) <= TimeToResolutionFactor(sooner, params)
                <= params.timeWidenMaxMultiplier
  {
    var extra, horizon := params.timeWidenMaxMultiplier - 1.0, params.timeWidenHorizonHours;
    assert Widened(1.0, extra) == params.timeWidenMaxMultiplier;
    hide Widened, Elapsed;
    if sooner.Some? && 0.0 < sooner.value < horizon {
      var fewer := Elapsed(sooner.value, horizon);
      ElapsedMonotone(sooner.value, sooner.value, horizon);
      WidenedMonotone(fewer, 1.0, extra);
      if later.Some? && later.value < horizon {
        ElapsedMonotone(later.value, sooner.value, horizon);
        WidenedMonotone(Elapsed(later.value, horizon), fewer, extra);
      }
    } else if later.Some? && 0.0 < later.value < horizon {
      ElapsedMonotone(later.value, later.value, horizon);
      WidenedMonotone(Elapsed(later.value, horizon), 1.0, extra);
    }
  }

  lemma SkewFactorMonotone(skew: real, skew': real, params: SpreadParams)
    requires params.Widening() && Abs(skew) <= Abs(skew')
    ensures 1.0 <= InventorySkewFactor(skew, params) <= InventorySkewFactor(skew', params)
  {
    hide Widened;
    WidenedMonotone(Min(Abs(skew), 1.0), Min(Abs(skew'), 1.0), params.inventoryWidenMaxMultiplier - 1.0);
  }

  lemma VolatilityFactorMonotone(volatility: real, volatility': real, params: SpreadParams)
    requires params.Widening() && volatility <= volatility'
    ensures 1.0 <= VolatilityFactor(volatility, params) <= VolatilityFactor(volatility', params)
  {
    hide Widened;
    WidenedMonotone(Max(volatility, 0.0), Max(volatility', 0.0), params.volatilityWidenSensitivity);
  }

  /** The half-spread never narrows when time runs out, the inventory skews further or the
      volatility rises, and stays between the base (if below the ceiling) and the ceiling. */
  lemma SpreadWidens(later: Option<real>, sooner: Option<real>, skew: real, skew': real, volatility: real,
                     volatility': real, params: SpreadParams)
    requires params.Widening()
    requires later.None? || (sooner.Some? && sooner.value <= later.value)
    requires Abs(skew) <= Abs(skew') && volatility <= volatility'
    ensures Min(params.baseHalfSpreadBps, params.maxHalfSpreadBps)
         <= HalfSpreadBps(later, skew, volatility, params)
         <= HalfSpreadBps(sooner, skew', volatility', params)
         <= params.maxHalfSpreadBps
  {
    hide Multiplier, Multiplied;
    MultiplierMonotone(later, sooner, skew, skew', volatility, volatility', params);
    MultipliedMonotone(params.baseHalfSpreadBps, Multiplier(later, skew, volatility, params),
                       Multiplier(sooner, skew', volatility', params));
  }

  lemma MultiplierMonotone(later: Option<real>, sooner: Option<real>, skew: real, skew': real, volatility: real,
                           volatility': real, params: SpreadParams)
    requires params.Widening()
    requires later.None? || (sooner.Some? && sooner.value <= later.value)
    requires Abs(skew) <= Abs(skew') && volatility <= volatility'
    ensures 1.0 <= Multiplier(later, skew, volatility, params) <= Multiplier(sooner, skew', volatility', params)
  {
    TimeFactorMonotone(later, sooner, params);
    SkewFactorMonotone(skew, skew', params);
    VolatilityFactorMonotone(volatility, volatility', params);
    hide TimeToResolutionFactor, InventorySkewFactor, VolatilityFactor, Product;
    var t, t' := TimeToResolutionFactor(later, params), TimeToResolutionFactor(sooner, params);
    var s, s' := InventorySkewFactor(skew, params), InventorySkewFactor(skew', params);
    var v, v' := VolatilityFactor(volatility, params), VolatilityFactor(volatility', params);
    ProductMonotone(t, t', s, s', v, v');
  }

  lemma ProductMonotone(x: real, x': real, y: real, y': real, z: real, z': real)
    requires 1.0 <= x <= x' && 1.0 <= y <= y' && 1.0 <= z <= z'
    ensures 1.0 <= Product(x, y, z) <= Product(x', y', z')
  {
    MulMonotone(1.0, x, y);
    MulMonotone(1.0, x * y, z);
    MulMonotone3(x, x', y, y', z);
    MulMonotone(0.0, x', y');
    MulMonotone(z, z', x' * y');
  }

  /** The time factor is one up to the horizon and falls on a straight line from its maximum at the
      resolution. */
  lemma TimeFactorLinear(hours: real, params: SpreadParams)
    ensures TimeToResolutionFactor(None, params) == 1.0
    ensures hours <= 0.0 ==> TimeToResolutionFactor(Some(hours), params) == params.timeWidenMaxMultiplier
    ensures hours > 0.0 && hours >= params.timeWidenHorizonHours ==> TimeToResolutionFactor(Some(hours), params) == 1.0
    ensures 0.0 < hours < params.timeWidenHorizonHours ==>
      (TimeToResolutionFactor(Some(hours), params) - 1.0) * params.timeWidenHorizonHours
      == (params.timeWidenMaxMultiplier - 1.0) * (params.timeWidenHorizonHours - hours)
  {
    if 0.0 < hours < params.timeWidenHorizonHours {
      var h, extra := params.timeWidenHorizonHours, params.timeWidenMaxMultiplier - 1.0;
      var m := Elapsed(hours, h);
      assert m * h == h - hours;
      assert m * extra * h == extra * (m * h);
    }
  }

  lemma NeutralFactors(params: SpreadParams)
    ensures TimeToResolutionFactor(None, params) == 1.0
    ensures InventorySkewFactor(0.0, params) == 1.0
    ensures VolatilityFactor(0.0, params) == 1.0
  {
    assert 0.0 * (params.inventoryWidenMaxMultiplier - 1.0) == 0.0;
    assert 0.0 * params.volatilityWidenSensitivity == 0.0;
  }

  lemma SpreadAlone(hours: Option<real>, skew: real, volatility: real, params: SpreadParams)
    ensures var base, most := params.baseHalfSpreadBps, params.maxHalfSpreadBps;
      && HalfSpreadBps(hours, 0.0, 0.0, params) == Min(Multiplied(base, TimeToResolutionFactor(hours, params)), most)
      && HalfSpreadBps(None, skew, 0.0, params) == Min(Multiplied(base, InventorySkewFactor(skew, params)), most)
      && HalfSpreadBps(None, 0.0, volatility, params)
         == Min(Multiplied(base, VolatilityFactor(volatility, params)), most)
  {
    hide TimeToResolutionFactor, InventorySkewFactor, VolatilityFactor, Multiplied;
    NeutralFactors(params);
  }

  /** At the resolution alone the base spread widens by the time factor's maximum; without anything else the
      ceiling is all that cuts it. */
  lemma TimeEffect(params: SpreadParams)
    ensures HalfSpreadBps(Some(0.0), 0.0, 0.0, params)
         == Min(params.baseHalfSpreadBps * params.timeWidenMaxMultiplier, params.maxHalfSpreadBps)
  {
    hide HalfSpreadBps;
    SpreadAlone(Some(0.0), 0.0, 0.0, params);
  }

  /** Skew alone widens it in proportion, up to its maximum at full skew on either side; without skew
      nothing does. */
  lemma SkewEffect(skew: real, params: SpreadParams)
    ensures var share := if -1.0 <= skew <= 1.0 then Abs(skew) else 1.0;
      HalfSpreadBps(None, skew, 0.0, params)
      == Min(params.baseHalfSpreadBps * (1.0 + share * (params.inventoryWidenMaxMultiplier - 1.0)),
             params.maxHalfSpreadBps)
  {
    hide HalfSpreadBps;
    SpreadAlone(None, skew, 0.0, params);
  }

  /** Volatility alone widens it in proportion. */
  lemma VolatilityEffect(volatility: real, params: SpreadParams)
    ensures var v := if volatility >= 0.0 then volatility else 0.0;
      HalfSpreadBps(None, 0.0, volatility, params)
      == Min(params.baseHalfSpreadBps * (1.0 + v * params.volatilityWidenSensitivity), params.maxHalfSpreadBps)
  {
    hide HalfSpreadBps;
    SpreadAlone(None, 0.0, volatility, params);
  }

  /** The effects multiply: below the ceiling, all three together widen the base spread by the product of
      what each does alone. */
  lemma EffectsMultiply(hours: Option<real>, skew: real, volatility: real, params: SpreadParams)
    requires params.Widening() && HalfSpreadBps(hours, skew, volatility, params) < params.maxHalfSpreadBps
    ensures var base := params.baseHalfSpreadBps;
      HalfSpreadBps(hours, skew, volatility, params) * base * base
      == HalfSpreadBps(hours, 0.0, 0.0, params) * HalfSpreadBps(None, skew, 0.0, params)
         * HalfSpreadBps(None, 0.0, volatility, params)
  {
    hide HalfSpreadBps, TimeToResolutionFactor, InventorySkewFactor, VolatilityFactor, Multiplied, Product;
    var t, s, v :=
      TimeToResolutionFactor(hours, params), InventorySkewFactor(skew, params), VolatilityFactor(volatility, params);
    AllUncut(hours, skew, volatility, params);
    Cubed(params.baseHalfSpreadBps, t, s, v, HalfSpreadBps(hours, skew, volatility, params),
          HalfSpreadBps(hours, 0.0, 0.0, params), HalfSpreadBps(None, skew, 0.0, params),
          HalfSpreadBps(None, 0.0, volatility, params));
  }

  /** Below the ceiling no effect alone is cut either. */
  lemma AllUncut(hours: Option<real>, skew: real, volatility: real, params: SpreadParams)
    requires params.Widening() && HalfSpreadBps(hours, skew, volatility, params) < params.maxHalfSpreadBps
    ensures var base, t, s, v := params.baseHalfSpreadBps, TimeToResolutionFactor(hours, params),
        InventorySkewFactor(skew, params), VolatilityFactor(volatility, params);
      && HalfSpreadBps(hours, skew, volatility, params) == Multiplied(base, Product(t, s, v))
      && HalfSpreadBps(hours, 0.0, 0.0, params) == Multiplied(base, t)
      && HalfSpreadBps(None, skew, 0.0, params) == Multiplied(base, s)
      && HalfSpreadBps(None, 0.0, volatility, params) == Multiplied(base, v)
  {
    hide TimeToResolutionFactor, InventorySkewFactor, VolatilityFactor, Multiplied, Product;
    TimeFactorMonotone(hours, hours, params);
    SkewFactorMonotone(skew, skew, params);
    VolatilityFactorMonotone(volatility, volatility, params);
    SpreadAlone(hours, skew, volatility, params);
    EachBelow(params.baseHalfSpreadBps, TimeToResolutionFactor(hours, params), InventorySkewFactor(skew, params),
              VolatilityFactor(volatility, params));
  }

  lemma EachBelow(base: real, t: real, s: real, v: real)
    requires base > 0.0 && t >= 1.0 && s >= 1.0 && v >= 1.0
    ensures Multiplied(base, t) <= Multiplied(base, Product(t, s, v))
    ensures Multiplied(base, s) <= Multiplied(base, Product(t, s, v))
    ensures Multiplied(base, v) <= Multiplied(base, Product(t, s, v))
  {
    hide Multiplied;
    ProductMonotone(t, t, 1.0, s, 1.0, v);
    ProductMonotone(1.0, t, s, s, 1.0, v);
    ProductMonotone(1.0, t, 1.0, s, v, v);
    assert Product(t, 1.0, 1.0) == t && Product(1.0, s, 1.0) == s && Product(1.0, 1.0, v) == v;
    MultipliedMonotone(base, t, Product(t, s, v));
    MultipliedMonotone(base, s, Product(t, s, v));
    MultipliedMonotone(base, v, Product(t, s, v));
  }

  lemma Cubed(base: real, t: real, s: real, v: real, all: real, x: real, y: real, z: real)
    requires all == Multiplied(base, Product(t, s, v))
    requires x == Multiplied(base, t) && y == Multiplied(base, s) && z == Multiplied(base, v)
    ensures all * base * base == x * y * z
  {
    calc {
      x * y * z;
      (base * t) * (base * s) * (base * v);
      base * (t * (base * s)) * (base * v);
      base * (base * (t * s)) * (base * v);
      base * base * (t * s) * base * v;
      base * (t * s * v) * base * base;
      all * base * base;
    }
  }

  // ---- sizes -------------------------------------------------------------------------------

  datatype PositionLimits = PositionLimits(maxPosition: real, maxOrderSize: real) {
    predicate Valid() { maxPosition > 0.0 && maxOrderSize > 0.0 }
  }

  /** The sizes quoted on both sides at a position: the largest within the room left to the cap, the quote
      size and the order cap. */
  function CappedQuoteSizes(position: real, quoteSize: real, limits: PositionLimits): (sizes: (real, real))
    ensures sizes.0 <= Max(0.0, limits.maxPosition - position) && sizes.0 <= quoteSize && sizes.0 <= limits.maxOrderSize
    ensures sizes.1 <= Max(0.0, limits.maxPosition + position) && sizes.1 <= quoteSize && sizes.1 <= limits.maxOrderSize
    ensures sizes.0 == Max(0.0, limits.maxPosition - position) || sizes.0 == quoteSize || sizes.0 == limits.maxOrderSize
    ensures sizes.1 == Max(0.0, limits.maxPosition + position) || sizes.1 == quoteSize || sizes.1 == limits.maxOrderSize
  {
    var roomToBuy := Max(0.0, limits.maxPosition - position);
    var roomToSell := Max(0.0, limits.maxPosition + position);
    (Min(quoteSize, Min(roomToBuy, limits.maxOrderSize)), Min(quoteSize, Min(roomToSell, limits.maxOrderSize)))
  }

  /** One round: the quotes are filled by some shares on each side, the bid or the ask first. */
  datatype Round = Round(bought: real, sold: real, bidFirst: bool)

  ghost predicate LegalRound(position: real, round: Round, quoteSize: real, limits: PositionLimits) {
    var (bid, ask) := CappedQuoteSizes(position, quoteSize, limits);
    0.0 <= round.bought <= Max(0.0, bid) && 0.0 <= round.sold <= Max(0.0, ask)
  }

  ghost predicate LegalRounds(position: real, rounds: seq<Round>, quoteSize: real, limits: PositionLimits)
    decreases |rounds|
  {
    |rounds| == 0 || (LegalRound(position, rounds[0], quoteSize, limits)
                      && LegalRounds(position + rounds[0].bought - rounds[0].sold, rounds[1..], quoteSize, limits))
  }

  /** Every position passed through, in order. */
  function Path(position: real, rounds: seq<Round>): seq<real>
    decreases |rounds|
  {
    if |rounds| == 0 then [position]
    else
      var first := rounds[0];
      [position, if first.bidFirst then position + first.bought else position - first.sold]
      + Path(position + first.bought - first.sold, rounds[1..])
  }

  /** Over every run of rounds, fills in either order, the position never leaves the cap, not
      even between the two fills of a round. */
  lemma {:induction false} InventoryCapped(position: real, rounds: seq<Round>, quoteSize: real, limits: PositionLimits)
    requires limits.Valid() && Abs(position) <= limits.maxPosition
    requires LegalRounds(position, rounds, quoteSize, limits)
    ensures forall x | x in Path(position, rounds) :: Abs(x) <= limits.maxPosition
    decreases |rounds|
  {
    if |rounds| > 0 {
      InventoryCapped(position + rounds[0].bought - rounds[0].sold, rounds[1..], quoteSize, limits);
    }
  }

  // ---- the strategy -----------------------------------------------------------------------

  /** Mid price, or the only side's best price. */
  function MidPrice(book: OrderBook): (mid: Option<real>)
    ensures mid.None? <==> book.bids == [] && book.asks == []
    ensures book.bids != [] && book.asks == [] ==> BestOffer(book, Sell, mid.value)
    ensures book.bids == [] && book.asks != [] ==> BestOffer(book, Buy, mid.value)
    ensures book.bids != [] && book.asks != [] ==>
      exists bid, ask :: BestOffer(book, Sell, bid) && BestOffer(book, Buy, ask) && 2.0 * mid.value == bid + ask
  {
    assert book.bids != [] ==> BestOffer(book, Sell, BestBid(book.bids).value.price);
    assert book.asks != [] ==> BestOffer(book, Buy, BestAsk(book.asks).value.price);
    var bid, ask := BestBid(book.bids), BestAsk(book.asks);
    if bid.Some? && ask.Some? then Some((bid.value.price + ask.value.price) / 2.0)
    else if bid.Some? then Some(bid.value.price)
    else if ask.Some? then Some(ask.value.price)
    else None
  }

  lemma SkewRange(position: real, most: real)
    requires most > 0.0
    ensures position / most * most == position
    ensures position >= most <==> position / most >= 1.0
    ensures position <= -most <==> position / most <= -1.0
  {
    QuotientIs(most, most, 1.0);
    QuotientIs(-most, most, -1.0);
    QuotientBounds(position, most, 1.0);
    QuotientBounds(position, most, -1.0);
    var q := position / most;
    assert q * most == position;
    if q >= 1.0 { MulMonotone(1.0, q, most); }
    if q <= -1.0 { MulMonotone(q, -1.0, most); }
  }

  /** The position as a share of the cap, at most all of it. */
  function InventorySkew(position: real, limits: PositionLimits): (skew: real)
    requires limits.Valid()
    ensures Abs(position) <= limits.maxPosition ==> skew * limits.maxPosition == position
    ensures position >= limits.maxPosition ==> skew == 1.0
    ensures position <= -limits.maxPosition ==> skew == -1.0
  {
    SkewRange(position, limits.maxPosition);
    Max(-1.0, Min(1.0, position / limits.maxPosition))
  }

  /** Price of a quote, so many basis points of the mid away from it. */
  function HalfSpread(mid: real, bps: real): real { mid * (bps / 10000.0) }

  function BidPrice(mid: real, bps: real): real { mid - HalfSpread(mid, bps) }

  function AskPrice(mid: real, bps: real): real { mid + HalfSpread(mid, bps) }

  /** The quotes lie evenly around the mid, each so many basis points of it away. */
  lemma QuotesCentred(mid: real, bps: real)
    ensures BidPrice(mid, bps) + AskPrice(mid, bps) == 2.0 * mid
    ensures (AskPrice(mid, bps) - mid) * 10000.0 == mid * bps
  {
    var share := bps / 10000.0;
    assert share * 10000.0 == bps;
    assert mid * share * 10000.0 == mid * (share * 10000.0);
  }

  /** A positive spread straddles a positive mid; the bid is a positive price exactly when the
      spread is below one hundred percent. */
  lemma QuotesStraddleMid(mid: real, bps: real)
    requires mid > 0.0 && bps > 0.0
    ensures BidPrice(mid, bps) < mid < AskPrice(mid, bps)
    ensures BidPrice(mid, bps) > 0.0 <==> bps < 10000.0
  {
    var f := bps / 10000.0;
    MulPositive(mid, f);
    assert BidPrice(mid, bps) == mid * (1.0 - f);
    if f < 1.0 { MulPositive(mid, 1.0 - f); } else { MulMonotone(1.0 - f, 0.0, mid); }
  }

  /** Each side with room is quoted at its capped size, the half-spread away from the mid; without a
      mid nothing is. */
  ghost predicate QuotesFor(pair: QuotePair, position: real, quoteSize: real, limits: PositionLimits, mid: Option<real>,
                            bps: real) {
    if mid.None? then pair.bid.None? && pair.ask.None?
    else
      var (bidSize, askSize) := CappedQuoteSizes(position, quoteSize, limits);
      && pair.bid == (if bidSize > 0.0 then Some(Markets.Quote(BidPrice(mid.value, bps), bidSize)) else None)
      && pair.ask == (if askSize > 0.0 then Some(Markets.Quote(AskPrice(mid.value, bps), askSize)) else None)
  }

  class MarketMakingStrategy {
    const positionLimits: PositionLimits
    const spreadParams: SpreadParams
    const quoteSize: real
    var inventories: map<string, real>

    constructor (positionLimits: PositionLimits, spreadParams: SpreadParams, quoteSize: real)
      ensures this.positionLimits == positionLimits && this.spreadParams == spreadParams && this.quoteSize == quoteSize
      ensures inventories == map[]
    {
      this.positionLimits, this.spreadParams, this.quoteSize := positionLimits, spreadParams, quoteSize;
      inventories := map[];
    }

    function Position(token: string): real
      reads this
    {
      Lookup(inventories, token)
    }

    /** Only the filled token's inventory moves, by the filled size; a negative size is refused. */
    method RecordFill(token: string, side: Side, size: real) returns (accepted: bool)
      modifies this
      ensures accepted <==> size >= 0.0
      ensures forall t ::
        Position(t) == old(Position(t)) + if t == token && accepted then (if side.Buy? then size else -size) else 0.0
    {
      if size < 0.0 {
        return false;
      }
      var change := if side.Buy? then size else -size;
      inventories := inventories[token := Position(token) + change];
      return true;
    }

    /** Quotes each side that has room, around the mid of the book. */
    method Quote(book: OrderBook, hoursRemaining: Option<real>, volatility: real) returns (pair: QuotePair)
      requires positionLimits.Valid()
      ensures pair.token == book.token
      ensures QuotesFor(pair, Position(book.token), quoteSize, positionLimits, MidPrice(book),
                        HalfSpreadBps(hoursRemaining, InventorySkew(Position(book.token), positionLimits), volatility,
                                      spreadParams))
      ensures SidesPositive(pair)
    {
      hide HalfSpreadBps, HalfSpread;
      var mid := MidPrice(book);
      if mid.None? {
        return QuotePair(book.token, None, None);
      }
      var position := Position(book.token);
      var bps := HalfSpreadBps(hoursRemaining, InventorySkew(position, positionLimits), volatility, spreadParams);
      var halfSpread := HalfSpread(mid.value, bps);
      var (bidSize, askSize) := CappedQuoteSizes(position, quoteSize, positionLimits);
      var bid := if bidSize > 0.0 then Some(Markets.Quote(mid.value - halfSpread, bidSize)) else None;
      var ask := if askSize > 0.0 then Some(Markets.Quote(mid.value + halfSpread, askSize)) else None;
      return QuotePair(book.token, bid, ask);
    }
  }

  /** Whatever is quoted has a positive size. */
  predicate SidesPositive(pair: QuotePair) {
    (pair.bid.Some? ==> pair.bid.value.size > 0.0) && (pair.ask.Some? ==> pair.ask.value.size > 0.0)
  }

  /** Whatever is quoted lies on its own side of the mid, at a positive price. */
  ghost predicate Straddles(pair: QuotePair, mid: real) {
    && (pair.bid.Some? ==> 0.0 < pair.bid.value.price < mid)
    && (pair.ask.Some? ==> pair.ask.value.price > mid)
  }

  /** With widening factors and a ceiling below one hundred percent, every spread the formula
      gives straddles every positive mid. */
  lemma SpreadStraddles(hoursRemaining: Option<real>, skew: real, volatility: real, params: SpreadParams, mid: real)
    requires params.Widening() && params.maxHalfSpreadBps < 10000.0 && mid > 0.0
    ensures var bps := HalfSpreadBps(hoursRemaining, skew, volatility, params);
      0.0 < BidPrice(mid, bps) < mid < AskPrice(mid, bps)
  {
    SpreadWidens(hoursRemaining, hoursRemaining, skew, skew, volatility, volatility, params);
    hide HalfSpreadBps, BidPrice, AskPrice;
    QuotesStraddleMid(mid, HalfSpreadBps(hoursRemaining, skew, volatility, params));
  }

  // ---- whole runs of the strategy ----------------------------------------------------------------

  /** A book to quote on, and how many shares the market would then buy and sell. */
  datatype Tick = Tick(book: OrderBook, hoursRemaining: Option<real>, volatility: real,
                       offered: real, wanted: real, bidFirst: bool)

  /** What a resting quote fills: no more than its size. */
  function Taken(quote: Option<Quote>, shares: real): (taken: real)
    ensures quote.None? || shares <= 0.0 || quote.value.size <= 0.0 ==> taken == 0.0
    ensures quote.Some? && 0.0 <= shares <= quote.value.size ==> taken == shares
    ensures quote.Some? && 0.0 <= quote.value.size <= shares ==> taken == quote.value.size
  {
    if quote.None? then 0.0 else Max(0.0, Min(shares, quote.value.size))
  }

  /** What the strategy quotes on a book at a position. */
  ghost predicate QuotesOn(pair: QuotePair, tick: Tick, position: real, quoteSize: real, limits: PositionLimits,
                           params: SpreadParams)
    requires limits.Valid()
  {
    QuotesFor(pair, position, quoteSize, limits, MidPrice(tick.book),
              HalfSpreadBps(tick.hoursRemaining, InventorySkew(position, limits), tick.volatility, params))
  }

  /** The positions before, between and after the fills of a tick, the bid or the ask filled first. */
  ghost predicate Fills(pair: QuotePair, tick: Tick, before: real, midway: real, after: real) {
    var bought, sold := Taken(pair.bid, tick.offered), Taken(pair.ask, tick.wanted);
    && midway == (if tick.bidFirst then before + bought else before - sold)
    && after == before + bought - sold
  }

  /** Quotes and records fills up to the quoted sizes, in either order. The inventory never leaves
      the cap, not even between two fills; other tokens' inventories do not move; and each quote on
      a positive mid straddles it. */
  method RunRounds(strategy: MarketMakingStrategy, token: string, ticks: seq<Tick>)
    returns (ghost positions: seq<real>, ghost quotes: seq<QuotePair>)
    requires strategy.positionLimits.Valid()
    requires strategy.spreadParams.Widening() && strategy.spreadParams.maxHalfSpreadBps < 10000.0
    requires Abs(strategy.Position(token)) <= strategy.positionLimits.maxPosition
    requires forall t | t in ticks :: t.book.token == token
    modifies strategy
    ensures forall x | x in positions :: Abs(x) <= strategy.positionLimits.maxPosition
    ensures |positions| == 2 * |ticks| + 1 && positions[2 * |ticks|] == strategy.Position(token)
    ensures forall t | t != token :: strategy.Position(t) == old(strategy.Position(t))
    ensures |quotes| == |ticks| && forall i | 0 <= i < |ticks| ::
      && QuotesOn(quotes[i], ticks[i], positions[2 * i], strategy.quoteSize, strategy.positionLimits,
                  strategy.spreadParams)
      && Fills(quotes[i], ticks[i], positions[2 * i], positions[2 * i + 1], positions[2 * i + 2])
    ensures forall i | 0 <= i < |ticks| ::
      MidPrice(ticks[i].book).Some? && MidPrice(ticks[i].book).value > 0.0 ==>
        Straddles(quotes[i], MidPrice(ticks[i].book).value)
  {
    hide HalfSpreadBps, BidPrice, AskPrice, CappedQuoteSizes, MidPrice, QuotesOn, Fills, Straddles;
    positions, quotes := [strategy.Position(token)], [];
    for i := 0 to |ticks|
      invariant |positions| == 2 * i + 1 && positions[2 * i] == strategy.Position(token)
      invariant forall x | x in positions :: Abs(x) <= strategy.positionLimits.maxPosition
      invariant forall t | t != token :: strategy.Position(t) == old(strategy.Position(t))
      invariant |quotes| == i && forall j | 0 <= j < i ::
        && QuotesOn(quotes[j], ticks[j], positions[2 * j], strategy.quoteSize, strategy.positionLimits,
                    strategy.spreadParams)
        && Fills(quotes[j], ticks[j], positions[2 * j], positions[2 * j + 1], positions[2 * j + 2])
      invariant forall j | 0 <= j < i ::
        MidPrice(ticks[j].book).Some? && MidPrice(ticks[j].book).value > 0.0 ==>
          Straddles(quotes[j], MidPrice(ticks[j].book).value)
    {
      assert ticks[i] in ticks;
      ghost var position, midway, pair := strategy.Position(token), 0.0, QuotePair(token, None, None);
      midway, pair := QuoteAndFill(strategy, ticks[i]);
      positions, quotes := positions + [midway, strategy.Position(token)], quotes + [pair];
    }
  }

  lemma OneRound(position: real, round: Round, quoteSize: real, limits: PositionLimits)
    requires limits.Valid() && Abs(position) <= limits.maxPosition && LegalRound(position, round, quoteSize, limits)
    ensures Abs(if round.bidFirst then position + round.bought else position - round.sold) <= limits.maxPosition
    ensures Abs(position + round.bought - round.sold) <= limits.maxPosition
  {
    var midway, after :=
      if round.bidFirst then position + round.bought else position - round.sold, position + round.bought - round.sold;
    assert [round][1..] == [];
    InventoryCapped(position, [round], quoteSize, limits);
    var path := Path(position, [round]);
    assert Path(after, []) == [after];
    assert path == [position, midway] + Path(after, [round][1..]);
    assert path[1] in path && path[2] in path;
  }

  method QuoteAndFill(strategy: MarketMakingStrategy, tick: Tick) returns (ghost midway: real, ghost pair: QuotePair)
    requires strategy.positionLimits.Valid()
    requires strategy.spreadParams.Widening() && strategy.spreadParams.maxHalfSpreadBps < 10000.0
    requires Abs(strategy.Position(tick.book.token)) <= strategy.positionLimits.maxPosition
    modifies strategy
    ensures Abs(midway) <= strategy.positionLimits.maxPosition
    ensures Abs(strategy.Position(tick.book.token)) <= strategy.positionLimits.maxPosition
    ensures forall t | t != tick.book.token :: strategy.Position(t) == old(strategy.Position(t))
    ensures MidPrice(tick.book).Some? && MidPrice(tick.book).value > 0.0 ==> Straddles(pair, MidPrice(tick.book).value)
    ensures QuotesOn(pair, tick, old(strategy.Position(tick.book.token)), strategy.quoteSize, strategy.positionLimits,
                     strategy.spreadParams)
    ensures Fills(pair, tick, old(strategy.Position(tick.book.token)), midway, strategy.Position(tick.book.token))
  {
    hide HalfSpreadBps, BidPrice, AskPrice, MidPrice;
    var token, position, limits := tick.book.token, strategy.Position(tick.book.token), strategy.positionLimits;
    var quoted := strategy.Quote(tick.book, tick.hoursRemaining, tick.volatility);
    pair := quoted;
    if MidPrice(tick.book).Some? && MidPrice(tick.book).value > 0.0 {
      SpreadStraddles(tick.hoursRemaining, InventorySkew(position, limits), tick.volatility, strategy.spreadParams,
                      MidPrice(tick.book).value);
    }
    hide InventorySkew;
    var bought, sold := Taken(quoted.bid, tick.offered), Taken(quoted.ask, tick.wanted);
    ghost var round := Round(bought, sold, tick.bidFirst);
    assert LegalRound(position, round, strategy.quoteSize, limits);
    hide CappedQuoteSizes, Taken, LegalRound;
    OneRound(position, round, strategy.quoteSize, limits);
    midway := if round.bidFirst then position + round.bought else position - round.sold;
    var first, second := (if tick.bidFirst then Buy else Sell), (if tick.bidFirst then Sell else Buy);
    var accepted := strategy.RecordFill(token, first, if tick.bidFirst then bought else sold);
    accepted := strategy.RecordFill(token, second, if tick.bidFirst then sold else bought);
  }
}
