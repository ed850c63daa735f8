/** The value analyst's report extractor and its supplementary valuation
    (agents/value_hunter.py). */
module ValueHunter {
  import opened Text
  import opened Extraction
  import Dcf = DcfCalculator

  // ---------------------------------------------------------------------
  // get_analysis_summary
  // ---------------------------------------------------------------------

  /** What a recommendation pattern yields when it matches: the captured
      word, or nothing for the two patterns written without a capture group,
      whose `group(1)` raises `IndexError`. */
  datatype RecCapture = Captured(word: string) | GroupMissing

  /** The pattern lists of `get_analysis_summary`, each in source order. */
  datatype ValuePatterns = ValuePatterns(
    quality: seq<Matcher<nat>>,
    moat: seq<Matcher<string>>,
    recommendation: seq<Matcher<RecCapture>>,
    conviction: seq<Matcher<nat>>,
    marginOfSafety: seq<Matcher<real>>,
    intrinsicValue: seq<Matcher<real>>,
    currentPrice: seq<Matcher<real>>)

  /** All seven fields start as `None`. */
  datatype ValueSummary = ValueSummary(
    qualityScore: Option<nat>, moatRating: Option<string>, recommendation: Option<string>,
    conviction: Option<nat>, marginOfSafety: Option<real>, intrinsicValue: Option<real>,
    currentPrice: Option<real>)

  const NoValueSummary := ValueSummary(None, None, None, None, None, None, None)

  /** Moat normalisation of the upper-cased capture; a capture holding
      none of the four words leaves the field unset. */
  function NormaliseMoat(captured: string): (r: Option<string>)
    ensures r.Some? ==> r.value in {"Strong", "Medium", "Weak", "None"}
  {
    var moat := Upper(captured);
    if Contains(moat, "STRONG") then Some("Strong")
    else if Contains(moat, "MEDIUM") || Contains(moat, "MODERATE") then Some("Medium")
    else if Contains(moat, "WEAK") then Some("Weak")
    else if Contains(moat, "NONE") then Some("None")
    else None
  }

  /** Recommendation normalisation of the upper-cased capture: AVOID is
      reported as REDUCE. */
  function NormaliseRecommendation(captured: string): (r: Option<string>)
    ensures r.Some? ==> r.value in {"STRONG BUY", "BUY", "HOLD", "REDUCE", "SELL"}
  {
    var rec := Upper(captured);
    if Contains(rec, "STRONG BUY") then Some("STRONG BUY")
    else if Contains(rec, "BUY") then Some("BUY")
    else if Contains(rec, "HOLD") then Some("HOLD")
    else if Contains(rec, "REDUCE") || Contains(rec, "AVOID") then Some("REDUCE")
    else if Contains(rec, "SELL") then Some("SELL")
    else None
  }

  lemma ContainsItself(s: string)
    ensures Contains(s, s)
  {
    assert s[..|s|] == s;
  }

  /** A capture reading STRONG, in any letter case, is 'Strong'. */
  lemma MoatStrong(c: string)
    ensures Upper(c) == "STRONG" ==> NormaliseMoat(c) == Some("Strong")
  {
    ContainsItself("STRONG");
  }

  /** MODERATE, in any letter case, is reported as 'Medium'. */
  lemma MoatModerate(c: string)
    ensures Upper(c) == "MODERATE" ==> NormaliseMoat(c) == Some("Medium")
  {
    ContainsItself("MODERATE");
    MissingCharNotContained("MODERATE", "STRONG", 'S');
    MissingCharNotContained("MODERATE", "MEDIUM", 'I');
  }

  /** MEDIUM, in any letter case, is reported as 'Medium'. */
  lemma MoatMedium(c: string)
    ensures Upper(c) == "MEDIUM" ==> NormaliseMoat(c) == Some("Medium")
  {
    ContainsItself("MEDIUM");
    MissingCharNotContained("MEDIUM", "STRONG", 'S');
  }

  /** WEAK, in any letter case, is reported as 'Weak'. */
  lemma MoatWeak(c: string)
    ensures Upper(c) == "WEAK" ==> NormaliseMoat(c) == Some("Weak")
  {
    ContainsItself("WEAK");
    MissingCharNotContained("WEAK", "STRONG", 'S');
    MissingCharNotContained("WEAK", "MEDIUM", 'M');
    MissingCharNotContained("WEAK", "MODERATE", 'M');
  }

  /** NONE, in any letter case, is reported as 'None'. */
  lemma MoatNone(c: string)
    ensures Upper(c) == "NONE" ==> NormaliseMoat(c) == Some("None")
  {
    ContainsItself("NONE");
    MissingCharNotContained("NONE", "STRONG", 'S');
    MissingCharNotContained("NONE", "MEDIUM", 'M');
    MissingCharNotContained("NONE", "MODERATE", 'M');
    MissingCharNotContained("NONE", "WEAK", 'W');
  }

  /** Each of the five words the moat patterns capture, whatever its
      letter case, normalises as documented. */
  lemma MoatTable(c: string)
    ensures Upper(c) == "STRONG" ==> NormaliseMoat(c) == Some("Strong")
    ensures Upper(c) == "MEDIUM" || Upper(c) == "MODERATE" ==> NormaliseMoat(c) == Some("Medium")
    ensures Upper(c) == "WEAK" ==> NormaliseMoat(c) == Some("Weak")
    ensures Upper(c) == "NONE" ==> NormaliseMoat(c) == Some("None")
  {
    MoatStrong(c);
    MoatModerate(c);
    MoatMedium(c);
    MoatWeak(c);
    MoatNone(c);
  }

  /** STRONG BUY, in any letter case, stays STRONG BUY (not BUY). */
  lemma RecommendationStrongBuy(c: string)
    ensures Upper(c) == "STRONG BUY" ==> NormaliseRecommendation(c) == Some("STRONG BUY")
  {
    ContainsItself("STRONG BUY");
  }

  lemma RecommendationBuy(c: string)
    ensures Upper(c) == "BUY" ==> NormaliseRecommendation(c) == Some("BUY")
  {
    ContainsItself("BUY");
    MissingCharNotContained("BUY", "STRONG BUY", 'S');
  }

  lemma RecommendationHold(c: string)
    ensures Upper(c) == "HOLD" ==> NormaliseRecommendation(c) == Some("HOLD")
  {
    ContainsItself("HOLD");
    MissingCharNotContained("HOLD", "STRONG BUY", 'S');
    MissingCharNotContained("HOLD", "BUY", 'B');
  }

  lemma RecommendationReduce(c: string)
    ensures Upper(c) == "REDUCE" ==> NormaliseRecommendation(c) == Some("REDUCE")
  {
    ContainsItself("REDUCE");
    MissingCharNotContained("REDUCE", "STRONG BUY", 'S');
    MissingCharNotContained("REDUCE", "BUY", 'B');
    MissingCharNotContained("REDUCE", "HOLD", 'H');
  }

  /** AVOID, in any letter case, is reported as REDUCE. */
  lemma RecommendationAvoid(c: string)
    ensures Upper(c) == "AVOID" ==> NormaliseRecommendation(c) == Some("REDUCE")
  {
    ContainsItself("AVOID");
    MissingCharNotContained("AVOID", "STRONG BUY", 'S');
    MissingCharNotContained("AVOID", "BUY", 'B');
    MissingCharNotContained("AVOID", "HOLD", 'H');
    MissingCharNotContained("AVOID", "REDUCE", 'R');
  }

  lemma RecommendationSell(c: string)
    ensures Upper(c) == "SELL" ==> NormaliseRecommendation(c) == Some("SELL")
  {
    ContainsItself("SELL");
    MissingCharNotContained("SELL", "STRONG BUY", 'T');
    MissingCharNotContained("SELL", "BUY", 'B');
    MissingCharNotContained("SELL", "HOLD", 'H');
    MissingCharNotContained("SELL", "REDUCE", 'R');
    MissingCharNotContained("SELL", "AVOID", 'A');
  }

  /** Of the six words the recommendation patterns capture, in any letter
      case, AVOID is reported as REDUCE and the other five keep their
      upper-cased name. */
  lemma RecommendationTable(c: string)
    ensures Upper(c) in {"STRONG BUY", "BUY", "HOLD", "REDUCE", "SELL"} ==> NormaliseRecommendation(c) == Some(Upper(c))
    ensures Upper(c) == "AVOID" ==> NormaliseRecommendation(c) == Some("REDUCE")
  {
    RecommendationStrongBuy(c);
    RecommendationBuy(c);
    RecommendationHold(c);
    RecommendationReduce(c);
    RecommendationSell(c);
    RecommendationAvoid(c);
  }

  /** The first capture of a list with its normalisation, unset when no
      pattern matches. */
  function Normalised(found: Option<string>, normalise: string -> Option<string>): Option<string> {
    if found.Some? then normalise(found.value) else None
  }

  /** The normalised recommendation of a capture, unset without one. */
  function RecommendationOf(found: Option<RecCapture>): Option<string> {
    if found.Some? && found.value.Captured? then NormaliseRecommendation(found.value.word) else None
  }

  /** The recommendation search aborts the whole extraction when the first
      matching pattern has no capture group. */
  predicate RecommendationAborts(p: ValuePatterns, text: string) {
    FirstMatch(p.recommendation, text) == Some(GroupMissing)
  }

  /** `get_analysis_summary`: each list is searched in order and its first
      match stops the search. All fields share one `try`, so the
      recommendation patterns without a capture group abort the fields from
      the recommendation on. */
  method AnalysisSummary(p: ValuePatterns, text: string) returns (s: ValueSummary)
    ensures s.qualityScore == FirstMatch(p.quality, text)
    ensures s.moatRating == Normalised(FirstMatch(p.moat, text), NormaliseMoat)
    ensures s.moatRating.Some? ==> s.moatRating.value in {"Strong", "Medium", "Weak", "None"}
    ensures s.recommendation.Some? ==>
      s.recommendation.value in {"STRONG BUY", "BUY", "HOLD", "REDUCE", "SELL"}
    ensures RecommendationAborts(p, text) ==>
      s == NoValueSummary.(qualityScore := s.qualityScore, moatRating := s.moatRating)
    ensures !RecommendationAborts(p, text) ==>
      && s.recommendation == RecommendationOf(FirstMatch(p.recommendation, text))
      && s.conviction == FirstMatch(p.conviction, text)
      && s.marginOfSafety == FirstMatch(p.marginOfSafety, text)
      && s.intrinsicValue == FirstMatch(p.intrinsicValue, text)
      && s.currentPrice == FirstMatch(p.currentPrice, text)
  {
    s := NoValueSummary;
    var quality := SearchPatterns(p.quality, text);
    s := s.(qualityScore := quality);

    var moat := SearchPatterns(p.moat, text);
    if moat.Some? {
      s := s.(moatRating := NormaliseMoat(moat.value));
    }

    var rec := SearchPatterns(p.recommendation, text);
    if rec.Some? {
      match rec.value
      case GroupMissing =>
        // `IndexError: no such group`, caught by the function's single `except`
        return;
      case Captured(w) =>
        s := s.(recommendation := NormaliseRecommendation(w));
    }

    var conviction := SearchPatterns(p.conviction, text);
    var mos := SearchPatterns(p.marginOfSafety, text);
    var iv := SearchPatterns(p.intrinsicValue, text);
    var price := SearchPatterns(p.currentPrice, text);
    s := s.(conviction := conviction, marginOfSafety := mos, intrinsicValue := iv, currentPrice := price);
  }

  // ---------------------------------------------------------------------
  // calculate_supplementary_valuation
  // ---------------------------------------------------------------------

  /** The fields of the most recent `cashflow_5y` row it reads; a missing
      key is `None` and reads as 0. */
  datatype CashflowEntry = CashflowEntry(
    freeCashFlow: Option<real>, operatingCashFlow: Option<real>, capex: Option<real>)

  /** The keys of `info` it reads; a missing key is `None`. */
  datatype CompanyInfo = CompanyInfo(
    currentPrice: Option<real>, sharesOutstanding: Option<real>,
    trailingEps: Option<real>, forwardEps: Option<real>, trailingPe: Option<real>)

  /** The latest FCF: `None` without cash-flow rows; a reported 0 is
      recomputed as OCF - |capex| when both are non-zero. */
  function LatestFcf(cashflow: seq<CashflowEntry>): (r: Option<real>)
    ensures cashflow == [] <==> r.None?
    ensures r.Some? && cashflow[0].freeCashFlow.GetOr(0.0) != 0.0 ==>
      r.value == cashflow[0].freeCashFlow.GetOr(0.0)
    ensures r.Some? && cashflow[0].freeCashFlow.GetOr(0.0) == 0.0 ==>
      var ocf, capex := cashflow[0].operatingCashFlow.GetOr(0.0), cashflow[0].capex.GetOr(0.0);
      r.value == if ocf != 0.0 && capex != 0.0 then ocf - AbsR(capex) else 0.0
  {
    if cashflow == [] then None
    else
      var latest := cashflow[0];
      var fcf := latest.freeCashFlow.GetOr(0.0);
      if fcf == 0.0 then
        var ocf, capex := latest.operatingCashFlow.GetOr(0.0), latest.capex.GetOr(0.0);
        if ocf != 0.0 && capex != 0.0 then Some(ocf - AbsR(capex)) else Some(0.0)
      else Some(fcf)
  }

  /** A valuation, or the error entry stored in its place. */
  datatype Outcome<T> = Computed(value: T) | Unavailable(reason: string)

  datatype Supplementary = Supplementary(
    currentPrice: real,
    dcf: Outcome<Dcf.DcfResult>,
    pe: Outcome<Dcf.MultipleValuation>,
    pfcf: Outcome<Dcf.MultipleValuation>)

  /** DCF (5 years, 3% terminal growth, discounted at the WACC) only for a
      positive latest FCF; P/E when either EPS is non-zero, with a
      historical P/E of 20 when the trailing P/E is missing; P/FCF for a
      positive FCF and share count. */
  method SupplementaryValuation(cashflow: seq<CashflowEntry>, info: CompanyInfo,
                                quality: int, growthRate: real, wacc: real)
    returns (r: Supplementary)
    ensures r.currentPrice == info.currentPrice.GetOr(0.0)
    ensures var fcf := LatestFcf(cashflow);
      r.dcf.Computed? <==> fcf.Some? && fcf.value > 0.0
    ensures r.dcf.Computed? ==>
      var fcf, shares := LatestFcf(cashflow).value, info.sharesOutstanding.GetOr(0.0);
      var g, d := Dcf.EffectiveGrowth(growthRate), Dcf.EffectiveDiscount(wacc, 0.03);
      var v := r.dcf.value;
      && v.Valuation? && v.terminalGrowthRate == 0.03 && |v.projected| == 5
      && v.growthRate == g && v.discountRate == d
      && v.projected[0] == Dcf.Projected(fcf, g, 1)
      && v.totalPresentValue
         == Dcf.StageOneValue(fcf, g, d, 5) + Dcf.TerminalPresentValue(fcf, g, d, 0.03, 5)
      && (v.perShare.Some? <==> shares > 0.0)
      && (v.perShare.Some? ==> v.perShare.value * shares == v.totalPresentValue)
    ensures var t, f := info.trailingEps.GetOr(0.0), info.forwardEps.GetOr(0.0);
      && (r.pe.Computed? <==> t != 0.0 || f != 0.0)
      && (r.pe.Computed? ==>
            r.pe.value == Dcf.PeValuation(t, f, if info.trailingPe.GetOr(0.0) != 0.0
                                                then info.trailingPe.GetOr(0.0) else 20.0,
                                          quality, growthRate))
    ensures var fcf, shares := LatestFcf(cashflow), info.sharesOutstanding.GetOr(0.0);
      && (r.pfcf.Computed? <==> fcf.Some? && fcf.value > 0.0 && shares > 0.0)
      && (r.pfcf.Computed? ==>
            r.pfcf.value == Dcf.PfcfValuation(fcf.value / shares, 20.0, quality, growthRate))
  {
    var price := info.currentPrice.GetOr(0.0);
    var latestFcf := LatestFcf(cashflow);
    var shares := info.sharesOutstanding.GetOr(0.0);

    var dcf: Outcome<Dcf.DcfResult>;
    if latestFcf.Some? && latestFcf.value > 0.0 {
      var result := Dcf.CalculateDcf(latestFcf.value, growthRate, wacc, 0.03, 5, Some(shares));
      dcf := Computed(result);
    } else {
      dcf := Unavailable("FCF not available or negative");
    }

    var trailingEps := info.trailingEps.GetOr(0.0);
    var forwardEps := info.forwardEps.GetOr(0.0);
    var trailingPe := info.trailingPe.GetOr(0.0);
    var pe: Outcome<Dcf.MultipleValuation>;
    if trailingEps != 0.0 || forwardEps != 0.0 {
      pe := Computed(Dcf.PeValuation(trailingEps, forwardEps,
                                     if trailingPe != 0.0 then trailingPe else 20.0,
                                     quality, growthRate));
    } else {
      pe := Unavailable("EPS data not available");
    }

    var pfcf: Outcome<Dcf.MultipleValuation>;
    if latestFcf.Some? && latestFcf.value > 0.0 {
      if shares > 0.0 {
        pfcf := Computed(Dcf.PfcfValuation(latestFcf.value / shares, 20.0, quality, growthRate));
      } else {
        pfcf := Unavailable("Shares outstanding not available");
      }
    } else {
      pfcf := Unavailable("FCF not available");
    }
    r := Supplementary(price, dcf, pe, pfcf);
  }
}
