/** The valuation engine of valuation/dcf_calculator.py: a dynamic growth
    rate, a dynamic WACC, P/E and P/FCF multiple valuations, a two-stage
    discounted-cash-flow valuation and the margin of safety. The text
    fields (`reasoning`, `breakdown`) only print the numbers below and are
    not modelled. */
module DcfCalculator {
  import opened Text

  // ---------------------------------------------------------------------
  // Dynamic growth rate
  // ---------------------------------------------------------------------

  /** Growth adjustment per company stage; an unknown stage keeps 1.0. */
  function StageMultiplier(stage: string): (m: real)
    ensures 0.5 <= m <= 1.2
    ensures stage !in {"startup", "growth", "mature", "declining"} ==> m == 1.0
  {
    if stage == "startup" then 1.2
    else if stage == "growth" then 1.0
    else if stage == "mature" then 0.8
    else if stage == "declining" then 0.5
    else 1.0
  }

  const Billion: real := 1000000000.0

  /** The most a company of this market capitalisation is allowed to grow. */
  function SizeCap(marketCap: real): (cap: real)
    ensures 0.10 <= cap <= 0.30
  {
    var b := marketCap / Billion;
    if b > 500.0 then 0.10
    else if b > 200.0 then 0.12
    else if b > 50.0 then 0.15
    else if b > 10.0 then 0.20
    else 0.30
  }

  /** A larger company never gets a larger size cap. */
  lemma SizeCapAntitone(small: real, large: real)
    requires small <= large
    ensures SizeCap(large) <= SizeCap(small)
  {
    assert small / Billion <= large / Billion;
  }

  datatype GrowthEstimate = GrowthEstimate(
    growthRate: real, historicalAvg: real, stageAdjusted: real, sizeCap: real)

  /** Weighted historical CAGRs (FCF counts most), adjusted for the stage,
      capped by size and clamped to [0, 0.30]. */
  function DynamicGrowthRate(revenueCagr: real, earningsCagr: real, fcfCagr: real,
                             marketCap: real, stage: string): (e: GrowthEstimate)
    ensures 0.0 <= e.growthRate <= e.sizeCap <= 0.30
    ensures e.sizeCap == SizeCap(marketCap)
    ensures e.historicalAvg == revenueCagr * 0.3 + earningsCagr * 0.3 + fcfCagr * 0.4
    ensures e.stageAdjusted == e.historicalAvg * StageMultiplier(stage)
    ensures 0.0 <= e.stageAdjusted <= e.sizeCap ==> e.growthRate == e.stageAdjusted
    ensures e.stageAdjusted <= 0.0 ==> e.growthRate == 0.0
    ensures e.stageAdjusted >= e.sizeCap ==> e.growthRate == e.sizeCap
  {
    var avg := revenueCagr * 0.3 + earningsCagr * 0.3 + fcfCagr * 0.4;
    var adjusted := avg * StageMultiplier(stage);
    var cap := SizeCap(marketCap);
    var finalGrowth := MaxR(0.0, MinR(MinR(adjusted, cap), 0.30));
    GrowthEstimate(finalGrowth, avg, adjusted, cap)
  }

  /** Better history never lowers the growth rate, and a larger company
      never gets a higher one. */
  lemma DynamicGrowthMonotone(rev: real, earn: real, fcf: real, fcf2: real,
                              cap: real, cap2: real, stage: string)
    requires fcf <= fcf2 && cap2 <= cap
    ensures DynamicGrowthRate(rev, earn, fcf, cap, stage).growthRate
         <= DynamicGrowthRate(rev, earn, fcf2, cap2, stage).growthRate
  {
    SizeCapAntitone(cap2, cap);
    var m := StageMultiplier(stage);
    assert (rev * 0.3 + earn * 0.3 + fcf * 0.4) * m <= (rev * 0.3 + earn * 0.3 + fcf2 * 0.4) * m;
  }

  // ---------------------------------------------------------------------
  // Dynamic WACC
  // ---------------------------------------------------------------------

  /** Premium for small companies, by market capitalisation. */
  function SizePremium(marketCap: real): (p: real)
    ensures 0.0 <= p <= 0.035
  {
    var b := marketCap / Billion;
    if b < 2.0 then 0.035
    else if b < 10.0 then 0.025
    else if b < 50.0 then 0.015
    else if b < 200.0 then 0.008
    else 0.0
  }

  /** Premium for financial risk, by debt-to-equity ratio. */
  function LeveragePremium(debtToEquity: real): (p: real)
    ensures 0.0 <= p <= 0.025
  {
    if debtToEquity > 2.0 then 0.025
    else if debtToEquity > 1.0 then 0.015
    else if debtToEquity > 0.5 then 0.008
    else 0.0
  }

  datatype WaccBreakdown = WaccBreakdown(
    wacc: real, costOfEquity: real, sizePremium: real, riskPremium: real)

  /** CAPM cost of equity plus size and leverage premiums; the WACC is the
      cost of equity (all-equity financing). */
  function DynamicWacc(riskFree: real, beta: real, marketCap: real,
                       debtToEquity: real, equityRiskPremium: real): (w: WaccBreakdown)
    ensures w.sizePremium == SizePremium(marketCap)
    ensures w.riskPremium == LeveragePremium(debtToEquity)
    ensures w.wacc == w.costOfEquity
    ensures w.costOfEquity == riskFree + beta * equityRiskPremium + w.sizePremium + w.riskPremium
    ensures riskFree + beta * equityRiskPremium <= w.wacc <= riskFree + beta * equityRiskPremium + 0.06
  {
    var size := SizePremium(marketCap);
    var risk := LeveragePremium(debtToEquity);
    var coe := riskFree + beta * equityRiskPremium + size + risk;
    WaccBreakdown(coe, coe, size, risk)
  }

  /** More leverage and a smaller company never lower the WACC. */
  lemma DynamicWaccMonotone(rf: real, beta: real, cap: real, cap2: real,
                            de: real, de2: real, erp: real)
    requires cap2 <= cap && de <= de2
    ensures DynamicWacc(rf, beta, cap, de, erp).wacc <= DynamicWacc(rf, beta, cap2, de2, erp).wacc
  {
    assert cap2 / Billion <= cap / Billion;
  }

  // ---------------------------------------------------------------------
  // Multiple valuations
  // ---------------------------------------------------------------------

  /** Growth band of a growth rate given as a fraction: 3 above 15%, 2 above
      10%, 1 above 5%, 0 otherwise. */
  function GrowthBand(growthRate: real): (b: nat)
    ensures b <= 3
  {
    var pct := growthRate * 100.0;
    if pct > 15.0 then 3 else if pct > 10.0 then 2 else if pct > 5.0 then 1 else 0
  }

  lemma GrowthBandMonotone(g: real, g2: real)
    requires g <= g2
    ensures GrowthBand(g) <= GrowthBand(g2)
  {
    assert g * 100.0 <= g2 * 100.0;
  }

  /** Multiple discount for lower financial quality (score out of 10). */
  function QualityMultiplier(quality: int): (m: real)
    ensures 0.55 <= m <= 1.0
    ensures quality >= 8 <==> m == 1.0
  {
    if quality >= 8 then 1.0
    else if quality >= 6 then 0.85
    else if quality >= 4 then 0.70
    else 0.55
  }

  lemma QualityMultiplierMonotone(q: int, q2: int)
    requires q <= q2
    ensures QualityMultiplier(q) <= QualityMultiplier(q2)
  {
  }

  function BasePe(band: nat): real
    requires band <= 3
  {
    [12.0, 15.0, 20.0, 28.0][band]
  }

  function BasePfcf(band: nat): real
    requires band <= 3
  {
    [12.0, 16.0, 22.0, 30.0][band]
  }

  datatype MultipleValuation = MultipleValuation(
    intrinsicValuePerShare: real, justifiedMultiple: real, base: real, historical: real)

  /** P/E valuation: forward EPS when positive, else trailing, times a
      justified P/E from the growth and quality bands. */
  function PeValuation(trailingEps: real, forwardEps: real, historicalPe: real,
                       quality: int, growthRate: real): (v: MultipleValuation)
    ensures v.justifiedMultiple == BasePe(GrowthBand(growthRate)) * QualityMultiplier(quality)
    ensures 6.6 <= v.justifiedMultiple <= 28.0
    ensures v.intrinsicValuePerShare ==
      v.justifiedMultiple * (if forwardEps > 0.0 then forwardEps else trailingEps)
    ensures v.historical == historicalPe
  {
    var eps := if forwardEps > 0.0 then forwardEps else trailingEps;
    var justified := BasePe(GrowthBand(growthRate)) * QualityMultiplier(quality);
    MultipleValuation(justified * eps, justified, eps, historicalPe)
  }

  /** P/FCF valuation with the same band scheme and higher bases. */
  function PfcfValuation(fcfPerShare: real, historicalPfcf: real,
                         quality: int, growthRate: real): (v: MultipleValuation)
    ensures v.justifiedMultiple == BasePfcf(GrowthBand(growthRate)) * QualityMultiplier(quality)
    ensures 6.6 <= v.justifiedMultiple <= 30.0
    ensures v.intrinsicValuePerShare == v.justifiedMultiple * fcfPerShare
    ensures v.historical == historicalPfcf
  {
    var justified := BasePfcf(GrowthBand(growthRate)) * QualityMultiplier(quality);
    MultipleValuation(justified * fcfPerShare, justified, fcfPerShare, historicalPfcf)
  }

  /** Higher growth and higher quality never lower a justified multiple,
      and the P/FCF multiple is never below the P/E multiple. */
  lemma JustifiedMultiplesMonotone(g: real, g2: real, q: int, q2: int)
    requires g <= g2 && q <= q2
    ensures PeValuation(0.0, 0.0, 0.0, q, g).justifiedMultiple
         <= PeValuation(0.0, 0.0, 0.0, q2, g2).justifiedMultiple
    ensures PfcfValuation(0.0, 0.0, q, g).justifiedMultiple
         <= PfcfValuation(0.0, 0.0, q2, g2).justifiedMultiple
    ensures PeValuation(0.0, 0.0, 0.0, q, g).justifiedMultiple
         <= PfcfValuation(0.0, 0.0, q, g).justifiedMultiple
  {
    GrowthBandMonotone(g, g2);
    QualityMultiplierMonotone(q, q2);
    var b, b2 := GrowthBand(g), GrowthBand(g2);
    var m, m2 := QualityMultiplier(q), QualityMultiplier(q2);
    assert BasePe(b) <= BasePe(b2) && BasePfcf(b) <= BasePfcf(b2);
    assert BasePe(b) * m <= BasePe(b2) * m <= BasePe(b2) * m2;
    assert BasePfcf(b) * m <= BasePfcf(b2) * m <= BasePfcf(b2) * m2;
  }

  // ---------------------------------------------------------------------
  // Two-stage DCF
  // ---------------------------------------------------------------------

  /** `x ** n` for a whole exponent. */
  function Pow(x: real, n: nat): real {
    if n == 0 then 1.0 else x * Pow(x, n - 1)
  }

  lemma {:induction false} PowPositive(x: real, n: nat)
    requires x > 0.0
    ensures Pow(x, n) > 0.0
  {
    if n > 0 {
      PowPositive(x, n - 1);
    }
  }

  lemma {:induction false} PowZero(n: nat)
    requires n >= 1
    ensures Pow(0.0, n) == 0.0
  {
  }

  lemma {:induction false} PowNonZero(x: real, n: nat)
    requires x != 0.0
    ensures Pow(x, n) != 0.0
  {
    if n > 0 {
      PowNonZero(x, n - 1);
    }
  }

  /** A stage-1 growth rate outside (0, 1] is replaced by 10%. */
  function EffectiveGrowth(g: real): (r: real)
    ensures 0.0 < r <= 1.0
    ensures 0.0 < g <= 1.0 ==> r == g
  {
    if g <= 0.0 || g > 1.0 then 0.10 else g
  }

  /** A discount rate not above terminal growth is replaced by terminal
      growth plus 5%. */
  function EffectiveDiscount(d: real, terminal: real): (r: real)
    ensures r > terminal
    ensures d > terminal ==> r == d
  {
    if d <= terminal then terminal + 0.05 else d
  }

  /** The cash flow of year `k`: `fcf` grown at `g` for `k` years. */
  function Projected(fcf: real, g: real, k: nat): real {
    fcf * Pow(1.0 + g, k)
  }

  /** The present value of the year-`k` cash flow at discount rate `d`. */
  function PresentValue(fcf: real, g: real, d: real, k: nat): real
    requires 1.0 + d != 0.0
  {
    PowNonZero(1.0 + d, k);
    Projected(fcf, g, k) / Pow(1.0 + d, k)
  }

  /** The stage-1 value: the present values of years 1..k, summed. */
  function StageOneValue(fcf: real, g: real, d: real, k: nat): real
    requires 1.0 + d != 0.0
  {
    if k == 0 then 0.0 else StageOneValue(fcf, g, d, k - 1) + PresentValue(fcf, g, d, k)
  }

  /** The Gordon-growth value, at the end of the last high-growth year, of
      the cash flows that follow it. */
  function TerminalValue(fcf: real, g: real, d: real, t: real, years: nat): real
    requires d != t
  {
    Projected(fcf, g, years + 1) / (d - t)
  }

  /** The terminal value discounted to today. */
  function TerminalPresentValue(fcf: real, g: real, d: real, t: real, years: nat): real
    requires d != t && 1.0 + d != 0.0
  {
    PowNonZero(1.0 + d, years);
    TerminalValue(fcf, g, d, t, years) / Pow(1.0 + d, years)
  }

  datatype DcfResult =
    /** The error entry for a non-positive FCF: intrinsic value, total
        present value and terminal value all reported as 0. */
    | NonPositiveFcf
    /** `ZeroDivisionError`: a discount rate of exactly -100% with at least
        one projected year. */
    | ZeroDivision
    | Valuation(
        perShare: Option<real>, totalPresentValue: real, stage1Value: real,
        terminalValue: real, terminalValueUndiscounted: real, projected: seq<real>,
        discountRate: real, growthRate: real, terminalGrowthRate: real)

  function Sum(xs: seq<real>): real {
    if xs == [] then 0.0 else Sum(xs[..|xs| - 1]) + xs[|xs| - 1]
  }

  /** `years` years of growth at `g`, discounted at the WACC, plus a
      Gordon-growth terminal value discounted from the last year. The
      per-share value needs a positive share count. */
  method CalculateDcf(fcf: real, growthRate: real, discountRate: real, terminalGrowth: real,
                      years: nat, shares: Option<real>) returns (r: DcfResult)
    ensures fcf <= 0.0 <==> r == NonPositiveFcf
    ensures r == ZeroDivision <==>
      fcf > 0.0 && years >= 1 && 1.0 + EffectiveDiscount(discountRate, terminalGrowth) == 0.0
    ensures r.Valuation? ==>
      var g, d := EffectiveGrowth(growthRate), EffectiveDiscount(discountRate, terminalGrowth);
      && r.growthRate == g && r.discountRate == d && r.terminalGrowthRate == terminalGrowth
      && |r.projected| == years
      && (forall i :: 0 <= i < years ==> r.projected[i] == Projected(fcf, g, i + 1))
      && r.terminalValueUndiscounted == TerminalValue(fcf, g, d, terminalGrowth, years)
      && (1.0 + d != 0.0 ==>
            && r.stage1Value == StageOneValue(fcf, g, d, years)
            && r.terminalValue == TerminalPresentValue(fcf, g, d, terminalGrowth, years))
      && r.totalPresentValue == r.stage1Value + r.terminalValue
      && (r.perShare.Some? <==> shares.Some? && shares.value > 0.0)
      && (r.perShare.Some? ==> r.perShare.value * shares.value == r.totalPresentValue)
  {
    if fcf <= 0.0 {
      return NonPositiveFcf;
    }
    var g := EffectiveGrowth(growthRate);
    var d := EffectiveDiscount(discountRate, terminalGrowth);
    if 1.0 + d == 0.0 && years >= 1 {
      return ZeroDivision;
    }
    var projected: seq<real> := [];
    var presentValues: seq<real> := [];
    for year := 1 to years + 1
      invariant |projected| == |presentValues| == year - 1
      invariant forall i :: 0 <= i < year - 1 ==> projected[i] == Projected(fcf, g, i + 1)
      invariant years >= 1 ==> Sum(presentValues) == StageOneValue(fcf, g, d, year - 1)
    {
      var fcfYear := Projected(fcf, g, year);
      projected := projected + [fcfYear];
      var pv := PresentValue(fcf, g, d, year);
      assert (presentValues + [pv])[..|presentValues|] == presentValues;
      presentValues := presentValues + [pv];
    }
    var stage1 := Sum(presentValues);
    var terminal := TerminalValue(fcf, g, d, terminalGrowth, years);
    var pvTerminal;
    if years == 0 {
      assert Pow(1.0 + d, 0) == 1.0;
      pvTerminal := terminal / 1.0;
    } else {
      pvTerminal := TerminalPresentValue(fcf, g, d, terminalGrowth, years);
    }
    var total := stage1 + pvTerminal;
    var perShare: Option<real> := None;
    if shares.Some? && shares.value > 0.0 {
      perShare := Some(total / shares.value);
    }
    r := Valuation(perShare, total, stage1, pvTerminal, terminal, projected, d, g, terminalGrowth);
  }

  /** Each year's cash flow is the previous one grown by `g`. */
  lemma ProjectedGeometric(fcf: real, g: real, k: nat)
    ensures Projected(fcf, g, k + 1) == Projected(fcf, g, k) * (1.0 + g)
  {
    assert Pow(1.0 + g, k + 1) == (1.0 + g) * Pow(1.0 + g, k);
  }

  lemma {:induction false} StageOnePositive(fcf: real, g: real, d: real, k: nat)
    requires fcf > 0.0 && 1.0 + g > 0.0 && 1.0 + d > 0.0
    ensures StageOneValue(fcf, g, d, k) >= 0.0
    ensures k >= 1 ==> StageOneValue(fcf, g, d, k) > 0.0
  {
    if k > 0 {
      StageOnePositive(fcf, g, d, k - 1);
      PowPositive(1.0 + g, k);
      PowPositive(1.0 + d, k);
      PositiveQuotient(fcf, Pow(1.0 + g, k), Pow(1.0 + d, k));
    }
  }

  lemma PositiveQuotient(a: real, b: real, c: real)
    requires a > 0.0 && b > 0.0 && c > 0.0
    ensures a * b / c > 0.0
  {
    assert a * b > 0.0;
  }

  /** With a positive cash flow, growth above -100% and a discount rate
      above both -100% and terminal growth, the stage-1 value is
      non-negative and the terminal value and enterprise value are
      positive. */
  lemma {:induction false} EnterpriseValuePositive(fcf: real, g: real, d: real, t: real, years: nat)
    requires fcf > 0.0 && 1.0 + g > 0.0 && 1.0 + d > 0.0 && d > t
    ensures TerminalPresentValue(fcf, g, d, t, years) > 0.0
    ensures StageOneValue(fcf, g, d, years) + TerminalPresentValue(fcf, g, d, t, years) > 0.0
  {
    StageOnePositive(fcf, g, d, years);
    PowPositive(1.0 + g, years + 1);
    PowPositive(1.0 + d, years);
    PositiveQuotient(fcf, Pow(1.0 + g, years + 1), d - t);
    var tv := TerminalValue(fcf, g, d, t, years);
    assert tv / Pow(1.0 + d, years) > 0.0;
  }

  // ---------------------------------------------------------------------
  // Margin of safety
  // ---------------------------------------------------------------------

  /** The assessment bands, best first. */
  datatype Assessment = StrongBuy | Buy | Fair | Caution | Avoid {
    function Rank(): nat {
      match this
      case StrongBuy => 0
      case Buy => 1
      case Fair => 2
      case Caution => 3
      case Avoid => 4
    }
  }

  function AssessMos(mos: real): (a: Assessment)
    ensures a == StrongBuy <==> mos > 25.0
    ensures a == Buy <==> 10.0 < mos <= 25.0
    ensures a == Fair <==> -10.0 < mos <= 10.0
    ensures a == Caution <==> -25.0 < mos <= -10.0
    ensures a == Avoid <==> mos <= -25.0
  {
    if mos > 25.0 then StrongBuy
    else if mos > 10.0 then Buy
    else if mos > -10.0 then Fair
    else if mos > -25.0 then Caution
    else Avoid
  }

  datatype SafetyMargin = SafetyMargin(marginPct: real, assessment: Assessment, priceToValue: real)

  /** `None` stands for the "cannot calculate" entry of a non-positive
      intrinsic value. */
  function MarginOfSafety(intrinsicValue: real, price: real): (r: Option<SafetyMargin>)
    ensures r.None? <==> intrinsicValue <= 0.0
    ensures r.Some? ==> price == intrinsicValue * (1.0 - r.value.marginPct / 100.0)
    ensures r.Some? ==> r.value.priceToValue * intrinsicValue == price
    ensures r.Some? ==> r.value.assessment == AssessMos(r.value.marginPct)
  {
    if intrinsicValue <= 0.0 then None
    else
      var mos := (intrinsicValue - price) / intrinsicValue * 100.0;
      Some(SafetyMargin(mos, AssessMos(mos), price / intrinsicValue))
  }

  /** A lower price never gives a worse assessment. */
  lemma MarginOfSafetyMonotone(iv: real, price: real, price2: real)
    requires iv > 0.0 && price2 <= price
    ensures MarginOfSafety(iv, price2).value.assessment.Rank()
         <= MarginOfSafety(iv, price).value.assessment.Rank()
  {
    assert (iv - price) / iv <= (iv - price2) / iv;
  }

  /** Buying at three quarters of the intrinsic value is a 25% margin, just
      short of the strong-buy band. */
  lemma MarginOfSafetyExample()
    ensures MarginOfSafety(100.0, 75.0) == Some(SafetyMargin(25.0, Buy, 0.75))
  {
  }
}
