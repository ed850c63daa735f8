/** The risk analyst's report extractor and its position-size rule
    (agents/risk_examiner.py). */
module RiskExaminer {
  import opened Text
  import opened Extraction

  // ---------------------------------------------------------------------
  // get_risk_summary
  // ---------------------------------------------------------------------

  type NonNegReal = x: real | x >= 0.0

  /** The regular expressions of the extractor, each with its conversion. */
  datatype RiskPatterns = RiskPatterns(
    firstInt: Matcher<nat>,               // (\d+)
    outOfFifty: Matcher<nat>,             // (\d+)/50
    riskScore: Matcher<real>,             // (\d+(?:\.\d+)?)/(?:100|10)
    percent: Matcher<real>,               // (\d+(?:\.\d+)?)%
    negativePercent: Matcher<NonNegReal>, // (-\d+(?:\.\d+)?)%, the digits after the minus sign
    ratio: Matcher<real>,                 // (\d+(?:\.\d+)?):1
    totalRedFlags: Matcher<nat>,          // TOTAL FINANCIAL RED FLAGS:\s*(\d+), any case
    ratioLine: Matcher<real>)             // Upside/Downside Ratio:\s*(\d+(?:\.\d+)?):1, any case

  /** All ten fields start as `None`. */
  datatype RiskSummary = RiskSummary(
    redFlagsCount: Option<nat>, businessModelRisk: Option<nat>, managementRisk: Option<string>,
    valuationRisk: Option<string>, overallRiskScore: Option<real>, riskRating: Option<string>,
    maxPositionSize: Option<real>, bearCaseDownside: Option<real>, upsideDownsideRatio: Option<real>,
    recommendation: Option<string>)

  const NoRiskSummary := RiskSummary(None, None, None, None, None, None, None, None, None, None)

  /** The emoji markers as they are spelled in the source file. */
  const GreenMark := "\U{F0}\U{178}\U{178}\U{A2}"
  const YellowMark := "\U{F0}\U{178}\U{178}\U{A1}"
  const OrangeMark := "\U{F0}\U{178}\U{178}\U{A0}"
  const RedMark := "\U{F0}\U{178}\U{201D}\U{B4}"

  const LevelNames := {"Low", "Medium", "High", "Moderate"}
  const RatingWords := {"EXTREME RISK / AVOID", "HIGH RISK", "MODERATE RISK", "LOW RISK"}
  const RecommendationWords := {"REDUCE", "BUY", "HOLD"}

  predicate HasDigit(line: string) {
    exists i :: 0 <= i < |line| && '0' <= line[i] <= '9'
  }

  /** A count is accepted from a red-flag line only when at most 20. */
  function RedFlagsCand(p: RiskPatterns, line: string): (r: Option<nat>)
    ensures r.Some? ==> r.value <= 20
  {
    var u := Upper(line);
    if (Contains(u, "RED FLAGS") || Contains(u, "RED FLAG")) && HasDigit(line) then
      var m := p.firstInt(line);
      if m.Some? && m.value <= 20 then m else None
    else None
  }

  function BusinessModelCand(p: RiskPatterns, line: string): Option<nat> {
    var u := Upper(line);
    if Contains(u, "BUSINESS MODEL RISK") && Contains(line, "/50") then p.outOfFifty(line)
    else if '|' in line && Contains(u, "BUSINESS MODEL RISK") then p.outOfFifty(line)
    else None
  }

  /** The first of LOW, MEDIUM, HIGH, MODERATE (in that order) found in the
      upper-cased line, capitalised. */
  function RiskLevel(u: string): (r: Option<string>)
    ensures r.Some? ==> r.value in LevelNames
    ensures r.None? <==>
      !Contains(u, "LOW") && !Contains(u, "MEDIUM") && !Contains(u, "HIGH") && !Contains(u, "MODERATE")
  {
    if Contains(u, "LOW") then Some("Low")
    else if Contains(u, "MEDIUM") then Some("Medium")
    else if Contains(u, "HIGH") then Some("High")
    else if Contains(u, "MODERATE") then Some("Moderate")
    else None
  }

  function ManagementCand(line: string): Option<string> {
    var u := Upper(line);
    if Contains(u, "MANAGEMENT") && (Contains(u, "RISK") || Contains(u, "GOVERNANCE")) then RiskLevel(u)
    else None
  }

  function ValuationCand(line: string): Option<string> {
    var u := Upper(line);
    if Contains(u, "VALUATION RISK") then RiskLevel(u) else None
  }

  /** A score out of 100 is brought to the 0-10 scale. */
  function OverallScoreCand(p: RiskPatterns, line: string): (r: Option<real>)
    ensures r.Some? ==> p.riskScore(line).Some?
    ensures r.Some? && Contains(line, "/100") ==> r.value * 10.0 == p.riskScore(line).value
    ensures r.Some? && !Contains(line, "/100") ==> r == p.riskScore(line)
  {
    var u := Upper(line);
    if Contains(u, "OVERALL RISK SCORE") || (Contains(u, "OVERALL RISK") && '/' in line) then
      var m := p.riskScore(line);
      if m.Some? then Some(if Contains(line, "/100") then m.value / 10.0 else m.value) else None
    else None
  }

  function RiskRatingCand(line: string): (r: Option<string>)
    ensures r.Some? ==> r.value in RatingWords
  {
    var u := Upper(line);
    if '|' in line && Contains(u, "RISK RATING") then
      if Contains(u, "EXTREME") || Contains(u, "AVOID") then Some("EXTREME RISK / AVOID")
      else if Contains(u, "HIGH RISK") then Some("HIGH RISK")
      else if Contains(u, "MODERATE") || Contains(u, "MEDIUM") then Some("MODERATE RISK")
      else if Contains(u, "LOW RISK") then Some("LOW RISK")
      else None
    else if Contains(line, GreenMark + " LOW RISK") ||
            (Contains(u, "LOW RISK") && Contains(line, "Risk Score 0-4")) then Some("LOW RISK")
    else if Contains(line, YellowMark + " MODERATE RISK") ||
            (Contains(u, "MODERATE RISK") && Contains(line, "Risk Score 5-6")) then Some("MODERATE RISK")
    else if Contains(line, OrangeMark + " HIGH RISK") ||
            (Contains(u, "HIGH RISK") && Contains(line, "Risk Score 7-8")) then Some("HIGH RISK")
    else if Contains(line, RedMark + " EXTREME RISK") || Contains(u, "EXTREME") then
      Some("EXTREME RISK / AVOID")
    else None
  }

  function MaxPositionCand(p: RiskPatterns, line: string): Option<real> {
    var u := Upper(line);
    if (Contains(u, "MAX POSITION SIZE") || Contains(u, "POSITION SIZE") || Contains(u, "PORTFOLIO WEIGHT"))
       && '%' in line then p.percent(line)
    else None
  }

  /** Only a percentage written with a minus sign is taken. */
  function BearDownsideCand(p: RiskPatterns, line: string): (r: Option<real>)
    ensures r.Some? ==> r.value <= 0.0
  {
    var u := Upper(line);
    if Contains(u, "BEAR CASE") || Contains(u, "DOWNSIDE") then
      var m := p.negativePercent(line);
      if m.Some? then
        var downside: real := -(m.value as real);
        Some(downside)
      else None
    else None
  }

  function RatioCand(p: RiskPatterns, line: string): Option<real> {
    var u := Upper(line);
    if Contains(u, "UPSIDE/DOWNSIDE") || Contains(u, "UPSIDE-DOWNSIDE") then p.ratio(line) else None
  }

  function RecommendationCand(line: string): (r: Option<string>)
    ensures r.Some? ==> r.value in RecommendationWords
  {
    var u := Upper(line);
    if '|' in line && Contains(u, "RECOMMENDATION") then
      if Contains(u, "REDUCE") || Contains(u, "AVOID") then Some("REDUCE")
      else if Contains(u, "BUY") then Some("BUY")
      else if Contains(u, "HOLD") then Some("HOLD")
      else None
    else None
  }

  /** The per-line extractors as values, one per field. */
  function RedFlagsOf(p: RiskPatterns): string -> Option<nat> { line => RedFlagsCand(p, line) }
  function BusinessModelOf(p: RiskPatterns): string -> Option<nat> { line => BusinessModelCand(p, line) }
  function ManagementOf(): string -> Option<string> { line => ManagementCand(line) }
  function ValuationOf(): string -> Option<string> { line => ValuationCand(line) }
  function OverallScoreOf(p: RiskPatterns): string -> Option<real> { line => OverallScoreCand(p, line) }
  function RiskRatingOf(): string -> Option<string> { line => RiskRatingCand(line) }
  function MaxPositionOf(p: RiskPatterns): string -> Option<real> { line => MaxPositionCand(p, line) }
  function BearDownsideOf(p: RiskPatterns): string -> Option<real> { line => BearDownsideCand(p, line) }
  function RatioOf(p: RiskPatterns): string -> Option<real> { line => RatioCand(p, line) }
  function RecommendationOf(): string -> Option<string> { line => RecommendationCand(line) }

  /** One line offered to every field still falsy. */
  function Step(p: RiskPatterns, s: RiskSummary, line: string): RiskSummary {
    RiskSummary(
      Latch(s.redFlagsCount, NatTruthy, RedFlagsCand(p, line)),
      Latch(s.businessModelRisk, NatTruthy, BusinessModelCand(p, line)),
      Latch(s.managementRisk, StrTruthy, ManagementCand(line)),
      Latch(s.valuationRisk, StrTruthy, ValuationCand(line)),
      Latch(s.overallRiskScore, RealTruthy, OverallScoreCand(p, line)),
      Latch(s.riskRating, StrTruthy, RiskRatingCand(line)),
      Latch(s.maxPositionSize, RealTruthy, MaxPositionCand(p, line)),
      Latch(s.bearCaseDownside, RealTruthy, BearDownsideCand(p, line)),
      Latch(s.upsideDownsideRatio, RealTruthy, RatioCand(p, line)),
      Latch(s.recommendation, StrTruthy, RecommendationCand(line)))
  }

  function Scan(p: RiskPatterns, lines: seq<string>): RiskSummary {
    if lines == [] then NoRiskSummary
    else Step(p, Scan(p, lines[..|lines| - 1]), lines[|lines| - 1])
  }

  /** The whole-report fallbacks for the red-flag count (without the limit
      of 20) and the upside/downside ratio, applied when still falsy. */
  function Fallbacks(p: RiskPatterns, text: string, s: RiskSummary): RiskSummary {
    s.(redFlagsCount := Latch(s.redFlagsCount, NatTruthy, p.totalRedFlags(text)),
       upsideDownsideRatio := Latch(s.upsideDownsideRatio, RealTruthy, p.ratioLine(text)))
  }

  function RiskSummaryOf(p: RiskPatterns, text: string): RiskSummary {
    Fallbacks(p, text, Scan(p, SplitOn(text, '\n')))
  }

  /** The body of the line loop. */
  method ScanLine(p: RiskPatterns, s: RiskSummary, line: string) returns (t: RiskSummary)
    ensures t == Step(p, s, line)
  {
    var flags := LatchField(s.redFlagsCount, NatTruthy, RedFlagsCand(p, line));
    var business := LatchField(s.businessModelRisk, NatTruthy, BusinessModelCand(p, line));
    var management := LatchField(s.managementRisk, StrTruthy, ManagementCand(line));
    var valuation := LatchField(s.valuationRisk, StrTruthy, ValuationCand(line));
    var overall := LatchField(s.overallRiskScore, RealTruthy, OverallScoreCand(p, line));
    var rating := LatchField(s.riskRating, StrTruthy, RiskRatingCand(line));
    var size := LatchField(s.maxPositionSize, RealTruthy, MaxPositionCand(p, line));
    var bear := LatchField(s.bearCaseDownside, RealTruthy, BearDownsideCand(p, line));
    var ratio := LatchField(s.upsideDownsideRatio, RealTruthy, RatioCand(p, line));
    var recommendation := LatchField(s.recommendation, StrTruthy, RecommendationCand(line));
    t := RiskSummary(flags, business, management, valuation, overall, rating, size, bear, ratio,
                     recommendation);
  }

  /** `get_risk_summary`: the line scan, then the two whole-report
      fallbacks. */
  method GetRiskSummary(p: RiskPatterns, text: string) returns (s: RiskSummary)
    ensures s == RiskSummaryOf(p, text)
    ensures var lines := SplitOn(text, '\n');
      && s.redFlagsCount == Latch(LatchAll(Cands(lines, RedFlagsOf(p)), NatTruthy), NatTruthy, p.totalRedFlags(text))
      && s.overallRiskScore == LatchAll(Cands(lines, OverallScoreOf(p)), RealTruthy)
      && s.bearCaseDownside == LatchAll(Cands(lines, BearDownsideOf(p)), RealTruthy)
  {
    var lines := SplitOn(text, '\n');
    s := NoRiskSummary;
    for i := 0 to |lines|
      invariant s == Scan(p, lines[..i])
    {
      assert lines[..i + 1][..i] == lines[..i];
      s := ScanLine(p, s, lines[i]);
    }
    assert lines[..|lines|] == lines;
    var flags := LatchField(s.redFlagsCount, NatTruthy, p.totalRedFlags(text));
    var ratio := LatchField(s.upsideDownsideRatio, RealTruthy, p.ratioLine(text));
    s := s.(redFlagsCount := flags, upsideDownsideRatio := ratio);
    ScanFields(p, lines);
  }

  /** Each field of the scan is the "first truthy line wins" fold of its own
      per-line candidates. */
  lemma {:induction false} ScanFields(p: RiskPatterns, lines: seq<string>)
    ensures var s := Scan(p, lines);
      && s.redFlagsCount == LatchAll(Cands(lines, RedFlagsOf(p)), NatTruthy)
      && s.businessModelRisk == LatchAll(Cands(lines, BusinessModelOf(p)), NatTruthy)
      && s.managementRisk == LatchAll(Cands(lines, ManagementOf()), StrTruthy)
      && s.valuationRisk == LatchAll(Cands(lines, ValuationOf()), StrTruthy)
      && s.overallRiskScore == LatchAll(Cands(lines, OverallScoreOf(p)), RealTruthy)
      && s.riskRating == LatchAll(Cands(lines, RiskRatingOf()), StrTruthy)
      && s.maxPositionSize == LatchAll(Cands(lines, MaxPositionOf(p)), RealTruthy)
      && s.bearCaseDownside == LatchAll(Cands(lines, BearDownsideOf(p)), RealTruthy)
      && s.upsideDownsideRatio == LatchAll(Cands(lines, RatioOf(p)), RealTruthy)
      && s.recommendation == LatchAll(Cands(lines, RecommendationOf()), StrTruthy)
  {
    if lines != [] {
      var n := |lines| - 1;
      ScanFields(p, lines[..n]);
      CandsSnoc(lines, RedFlagsOf(p), n);
      CandsSnoc(lines, BusinessModelOf(p), n);
      CandsSnoc(lines, ManagementOf(), n);
      CandsSnoc(lines, ValuationOf(), n);
      CandsSnoc(lines, OverallScoreOf(p), n);
      CandsSnoc(lines, RiskRatingOf(), n);
      CandsSnoc(lines, MaxPositionOf(p), n);
      CandsSnoc(lines, BearDownsideOf(p), n);
      CandsSnoc(lines, RatioOf(p), n);
      CandsSnoc(lines, RecommendationOf(), n);
      assert lines[..n + 1] == lines;
    }
  }

  /** Whatever the report holds: a red-flag count read from a line is at
      most 20, the bear-case downside is never positive, and the ratings,
      levels and recommendation come from their closed sets. */
  lemma {:induction false} ScanBounds(p: RiskPatterns, lines: seq<string>)
    ensures var s := Scan(p, lines);
      && (s.redFlagsCount.Some? ==> s.redFlagsCount.value <= 20)
      && (s.bearCaseDownside.Some? ==> s.bearCaseDownside.value <= 0.0)
      && (s.managementRisk.Some? ==> s.managementRisk.value in LevelNames)
      && (s.valuationRisk.Some? ==> s.valuationRisk.value in LevelNames)
      && (s.riskRating.Some? ==> s.riskRating.value in RatingWords)
      && (s.recommendation.Some? ==> s.recommendation.value in RecommendationWords)
  {
    if lines != [] {
      ScanBounds(p, lines[..|lines| - 1]);
    }
  }

  /** A report with a single matching line, as in "| Overall Risk Score |
      65/100 |": the score read from it is 6.5 on the 0-10 scale. */
  lemma OverallScoreOutOfHundred(p: RiskPatterns, line: string)
    requires Contains(Upper(line), "OVERALL RISK SCORE") && Contains(line, "/100")
    requires p.riskScore(line) == Some(65.0)
    ensures Scan(p, [line]).overallRiskScore == Some(6.5)
  {
    assert [line][..0] == [];
  }

  /** LOW is tested first: a line naming two levels reports LOW. */
  lemma LevelListOrder(u: string)
    requires Contains(u, "LOW")
    ensures RiskLevel(u) == Some("Low")
  {
  }

  // ---------------------------------------------------------------------
  // calculate_risk_adjusted_position_size
  // ---------------------------------------------------------------------

  /** The base size of a risk score out of 10. */
  function BaseSize(riskScore: real): real {
    if riskScore <= 4.0 then 8.0
    else if riskScore <= 6.0 then 5.0
    else if riskScore <= 8.0 then 2.0
    else 0.0
  }

  function RedFlagFactor(redFlags: int): real {
    if redFlags >= 6 then 0.5 else if redFlags >= 3 then 0.75 else 1.0
  }

  /** A missing ratio changes nothing. */
  function RatioFactor(ratio: Option<real>): real {
    if ratio.None? then 1.0
    else if ratio.value < 1.5 then 0.5
    else if ratio.value < 2.0 then 0.75
    else 1.0
  }

  /** The maximum position in percent: the base size cut for red flags and
      for a poor upside/downside ratio, then kept within [0, 8]. */
  method RiskAdjustedPositionSize(riskScore: real, redFlags: int, ratio: Option<real>)
    returns (size: real)
    ensures 0.0 <= size <= 8.0
    ensures size == BaseSize(riskScore) * RedFlagFactor(redFlags) * RatioFactor(ratio)
    ensures riskScore > 8.0 ==> size == 0.0
    ensures riskScore <= 8.0 ==> size > 0.0
  {
    var base: real;
    if riskScore <= 4.0 {
      base := 8.0;
    } else if riskScore <= 6.0 {
      base := 5.0;
    } else if riskScore <= 8.0 {
      base := 2.0;
    } else {
      base := 0.0;
    }
    if redFlags >= 6 {
      base := base * 0.5;
    } else if redFlags >= 3 {
      base := base * 0.75;
    }
    if ratio.Some? {
      if ratio.value < 1.5 {
        base := base * 0.5;
      } else if ratio.value < 2.0 {
        base := base * 0.75;
      }
    }
    size := MaxR(0.0, MinR(8.0, base));
  }

  /** More risk, more red flags or a worse ratio never allow a larger
      position. */
  lemma PositionSizeMonotone(r1: real, r2: real, f1: int, f2: int, q1: real, q2: real)
    requires r1 <= r2 && f1 <= f2 && q2 <= q1
    ensures BaseSize(r2) * RedFlagFactor(f2) * RatioFactor(Some(q2)) <=
            BaseSize(r1) * RedFlagFactor(f1) * RatioFactor(Some(q1))
  {
    var b1, b2 := BaseSize(r1), BaseSize(r2);
    var x1, x2 := RedFlagFactor(f1), RedFlagFactor(f2);
    var y1, y2 := RatioFactor(Some(q1)), RatioFactor(Some(q2));
    assert b2 <= b1 && x2 <= x1 && y2 <= y1;
    MulLe(b2, b1, x2);
    MulLe(x2, x1, b1);
    assert b2 * x2 <= b1 * x1;
    MulLe(b2 * x2, b1 * x1, y2);
    MulLe(y2, y1, b1 * x1);
  }
}
