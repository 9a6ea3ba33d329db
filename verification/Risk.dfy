/** The pre-trade gate: approve, shrink or reject one proposed amount against three caps. */
module Risk {
  import opened Trading

  datatype RiskLimits = RiskLimits(maxPositionUsd: real, maxOrderUsd: real, maxPortfolioExposureUsd: real) {
    /** What the constructor accepts; a zero portfolio cap means no room at all. */
    predicate Valid() {
      maxPositionUsd > 0.0 && maxOrderUsd > 0.0 && maxPortfolioExposureUsd >= 0.0
    }
  }

  datatype Reason = NothingRequested | CutToOrderCap | CutToMarketRoom | CutToPortfolioRoom | NoRoomLeft

  datatype RiskCheckResult = RiskCheckResult(approvedSizeUsd: real, reasons: seq<Reason>) {
    predicate Approved() { approvedSizeUsd > 0.0 }
  }

  /** An amount no cap objects to. */
  predicate Fits(amount: real, requested: real, marketExposure: real, totalExposure: real, limits: RiskLimits) {
    && amount <= requested
    && amount <= limits.maxOrderUsd
    && marketExposure + amount <= limits.maxPositionUsd
    && totalExposure + amount <= limits.maxPortfolioExposureUsd
  }

  /** The approved amount is the largest positive one that fits, and zero when none does;
      there is a reason exactly when it is not what was asked for. */
  function CheckOrder(requested: real, marketExposure: real, totalExposure: real,
                      limits: RiskLimits): (r: RiskCheckResult)
    requires limits.Valid()
    ensures r.approvedSizeUsd >= 0.0
    ensures r.Approved() ==> Fits(r.approvedSizeUsd, requested, marketExposure, totalExposure, limits)
    ensures forall x :: x > 0.0 && Fits(x, requested, marketExposure, totalExposure, limits) ==> x <= r.approvedSizeUsd
    ensures r.reasons == [] <==> r.approvedSizeUsd == requested && requested > 0.0
    ensures NothingRequested in r.reasons <==> requested <= 0.0
    ensures CutToOrderCap in r.reasons <==> requested > limits.maxOrderUsd
    ensures CutToMarketRoom in r.reasons <==>
      requested > 0.0 && marketExposure + Min(requested, limits.maxOrderUsd) > limits.maxPositionUsd
    ensures NoRoomLeft in r.reasons <==> requested > 0.0 && r.approvedSizeUsd == 0.0
  {
    if requested <= 0.0 then RiskCheckResult(0.0, [NothingRequested])
    else
      var overOrder := requested > limits.maxOrderUsd;
      var size1 := if overOrder then limits.maxOrderUsd else requested;
      var reasons1 := if overOrder then [CutToOrderCap] else [];
      var marketRoom := Max(0.0, limits.maxPositionUsd - marketExposure);
      var size2 := if size1 > marketRoom then marketRoom else size1;
      var reasons2 := if size1 > marketRoom then reasons1 + [CutToMarketRoom] else reasons1;
      var portfolioRoom := Max(0.0, limits.maxPortfolioExposureUsd - totalExposure);
      var size3 := if size2 > portfolioRoom then portfolioRoom else size2;
      var reasons3 := if size2 > portfolioRoom then reasons2 + [CutToPortfolioRoom] else reasons2;
      if size3 <= 0.0 then RiskCheckResult(0.0, reasons3 + [NoRoomLeft])
      else RiskCheckResult(size3, reasons3)
  }

  /** The portfolio cap is lowered to the live balance when that is known and smaller. */
  function EffectiveLimits(limits: RiskLimits, balance: Option<real>): (r: RiskLimits)
    requires limits.Valid()
    ensures r.Valid()
    ensures r.maxPositionUsd == limits.maxPositionUsd && r.maxOrderUsd == limits.maxOrderUsd
    ensures balance.Some? ==>
      r.maxPortfolioExposureUsd == Min(limits.maxPortfolioExposureUsd, Max(0.0, balance.value))
    ensures balance.None? ==> r == limits
  {
    if balance.None? || balance.value >= limits.maxPortfolioExposureUsd then limits
    else limits.(maxPortfolioExposureUsd := Max(0.0, balance.value))
  }
}
