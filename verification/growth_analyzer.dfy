/** The growth analyst's report extractor and its scenario weights
    (agents/growth_analyzer.py). */
module GrowthAnalyzer {
  import opened Text
  import opened Extraction

  // ---------------------------------------------------------------------
  // get_growth_summary
  // ---------------------------------------------------------------------

  /** The regular expressions of the extractor, each with its conversion. */
  datatype GrowthPatterns = GrowthPatterns(
    outOfTen: Matcher<nat>,         // (\d+)/10
    conviction: Matcher<nat>,       // CONVICTION[:\s]+(\d+)/10, any case
    sizeRange: Matcher<real>,       // the first number of "5-7%" or of "5%"
    percent: Matcher<real>,         // (\d+(?:\.\d+)?)%
    signedPercent: Matcher<real>,   // ([+-]?\d+(?:\.\d+)?)%
    bullTotal: Matcher<real>,       // Bull Case.*?Total Return: ..., across lines
    baseTotal: Matcher<real>,
    bearTotal: Matcher<real>)

  /** All ten fields start as `None`. */
  datatype GrowthSummary = GrowthSummary(
    historicalQuality: Option<nat>, marketSpace: Option<nat>, sustainability: Option<nat>,
    recommendation: Option<string>, conviction: Option<nat>, positionSize: Option<real>,
    expectedReturn5y: Option<real>, bullReturn: Option<real>, baseReturn: Option<real>,
    bearReturn: Option<real>)

  const NoGrowthSummary := GrowthSummary(None, None, None, None, None, None, None, None, None, None)

  /** The emoji markers as they are spelled in the source file (UTF-8 bytes
      of the emoji read as Windows-1252). */
  const GreenMark := "\U{11F}\U{178}\U{178}\U{A2}"
  const YellowMark := "\U{11F}\U{178}\U{178}\U{A1}"
  const OrangeMark := "\U{11F}\U{178}\U{178}\U{A0}"
  const RedMark := "\U{11F}\U{178}\U{201D}\U{B4}"

  const RecommendationWords := {"STRONG GROWTH BUY", "GROWTH BUY", "CAUTION", "AVOID", "HOLD"}

  /** What one line offers each field (before the "only while falsy" test). */

  function HistoricalCand(p: GrowthPatterns, line: string): Option<nat> {
    var u := Upper(line);
    if Contains(u, "HISTORICAL GROWTH QUALITY") && '/' in line then p.outOfTen(line)
    else if '|' in line && Contains(u, "HISTORICAL") && Contains(u, "GROWTH") then p.outOfTen(line)
    else if Contains(u, "TOTAL HISTORICAL GROWTH QUALITY SCORE:") then p.outOfTen(line)
    else None
  }

  function MarketSpaceCand(p: GrowthPatterns, line: string): Option<nat> {
    var u := Upper(line);
    if Contains(u, "MARKET SPACE SCORE") || (Contains(u, "MARKET SPACE") && '/' in line) then p.outOfTen(line)
    else None
  }

  function SustainabilityCand(p: GrowthPatterns, line: string): Option<nat> {
    var u := Upper(line);
    if Contains(u, "GROWTH SUSTAINABILITY") || Contains(u, "SUSTAINABILITY SCORE") then p.outOfTen(line)
    else None
  }

  /** A table row naming the recommendation is read by keyword, strongest
      first; otherwise the plain-text and emoji forms are tried. */
  function RecommendationCand(line: string): (r: Option<string>)
    ensures r.Some? ==> r.value in RecommendationWords
  {
    var u := Upper(line);
    if '|' in line && Contains(u, "RECOMMENDATION") then
      if Contains(u, "STRONG GROWTH BUY") || Contains(u, "STRONG BUY") then Some("STRONG GROWTH BUY")
      else if Contains(u, "GROWTH BUY") || Contains(u, "BUY") then Some("GROWTH BUY")
      else if Contains(u, "CAUTION") then Some("CAUTION")
      else if Contains(u, "AVOID") then Some("AVOID")
      else if Contains(u, "HOLD") then Some("HOLD")
      else None
    else if Contains(line, GreenMark + " STRONG GROWTH BUY") || Contains(u, "STRONG GROWTH BUY") then
      Some("STRONG GROWTH BUY")
    else if Contains(line, GreenMark + " GROWTH BUY") || Contains(u, "GROWTH BUY") then Some("GROWTH BUY")
    else if Contains(line, YellowMark + " HOLD") || Contains(u, "HOLD/SELECTIVE BUY") then Some("HOLD")
    else if Contains(line, OrangeMark + " CAUTION") || Contains(u, "CAUTION") then Some("CAUTION")
    else if Contains(line, RedMark + " AVOID") || Contains(u, "AVOID") then Some("AVOID")
    else None
  }

  function ConvictionCand(p: GrowthPatterns, line: string): Option<nat> {
    if Contains(Upper(line), "CONVICTION") then p.conviction(line) else None
  }

  function PositionSizeCand(p: GrowthPatterns, line: string): Option<real> {
    var u := Upper(line);
    if (Contains(u, "POSITION SIZE") || Contains(u, "PORTFOLIO WEIGHT")) && '%' in line then p.sizeRange(line)
    else if Contains(u, "YOUR RECOMMENDATION:") && '%' in line then p.percent(line)
    else None
  }

  function ExpectedReturnCand(p: GrowthPatterns, line: string): Option<real> {
    var u := Upper(line);
    if (Contains(u, "EXPECTED") && '5' in line && Contains(u, "RETURN")) || Contains(u, "5Y RETURN") then
      p.signedPercent(line)
    else None
  }

  /** The bull, base and bear rows: the case word with CASE or RETURN. */
  function CaseCand(p: GrowthPatterns, word: string, line: string): Option<real> {
    var u := Upper(line);
    if Contains(u, word) && (Contains(u, "CASE") || Contains(u, "RETURN")) then p.signedPercent(line)
    else None
  }

  /** The per-line extractors as values, one per field. */
  function HistoricalOf(p: GrowthPatterns): string -> Option<nat> { line => HistoricalCand(p, line) }
  function MarketSpaceOf(p: GrowthPatterns): string -> Option<nat> { line => MarketSpaceCand(p, line) }
  function SustainabilityOf(p: GrowthPatterns): string -> Option<nat> { line => SustainabilityCand(p, line) }
  function RecommendationOf(): string -> Option<string> { line => RecommendationCand(line) }
  function ConvictionOf(p: GrowthPatterns): string -> Option<nat> { line => ConvictionCand(p, line) }
  function PositionSizeOf(p: GrowthPatterns): string -> Option<real> { line => PositionSizeCand(p, line) }
  function ExpectedReturnOf(p: GrowthPatterns): string -> Option<real> { line => ExpectedReturnCand(p, line) }
  function CaseOf(p: GrowthPatterns, word: string): string -> Option<real> { line => CaseCand(p, word, line) }

  /** One line offered to every field still falsy. */
  function Step(p: GrowthPatterns, s: GrowthSummary, line: string): GrowthSummary {
    GrowthSummary(
      Latch(s.historicalQuality, NatTruthy, HistoricalCand(p, line)),
      Latch(s.marketSpace, NatTruthy, MarketSpaceCand(p, line)),
      Latch(s.sustainability, NatTruthy, SustainabilityCand(p, line)),
      Latch(s.recommendation, StrTruthy, RecommendationCand(line)),
      Latch(s.conviction, NatTruthy, ConvictionCand(p, line)),
      Latch(s.positionSize, RealTruthy, PositionSizeCand(p, line)),
      Latch(s.expectedReturn5y, RealTruthy, ExpectedReturnCand(p, line)),
      Latch(s.bullReturn, RealTruthy, CaseCand(p, "BULL", line)),
      Latch(s.baseReturn, RealTruthy, CaseCand(p, "BASE", line)),
      Latch(s.bearReturn, RealTruthy, CaseCand(p, "BEAR", line)))
  }

  /** The record after the line scan, starting from all `None`. */
  function Scan(p: GrowthPatterns, lines: seq<string>): GrowthSummary {
    if lines == [] then NoGrowthSummary
    else Step(p, Scan(p, lines[..|lines| - 1]), lines[|lines| - 1])
  }

  /** The multi-line fallbacks, applied to the scenario returns still falsy. */
  function Fallbacks(p: GrowthPatterns, text: string, s: GrowthSummary): GrowthSummary {
    s.(bullReturn := Latch(s.bullReturn, RealTruthy, p.bullTotal(text)),
       baseReturn := Latch(s.baseReturn, RealTruthy, p.baseTotal(text)),
       bearReturn := Latch(s.bearReturn, RealTruthy, p.bearTotal(text)))
  }

  function GrowthSummaryOf(p: GrowthPatterns, text: string): GrowthSummary {
    Fallbacks(p, text, Scan(p, SplitOn(text, '\n')))
  }

  /** The body of the line loop: each field still falsy takes the line's
      candidate when there is one. */
  method ScanLine(p: GrowthPatterns, s: GrowthSummary, line: string) returns (t: GrowthSummary)
    ensures t == Step(p, s, line)
  {
    var historical := LatchField(s.historicalQuality, NatTruthy, HistoricalCand(p, line));
    var market := LatchField(s.marketSpace, NatTruthy, MarketSpaceCand(p, line));
    var sustainability := LatchField(s.sustainability, NatTruthy, SustainabilityCand(p, line));
    var recommendation := LatchField(s.recommendation, StrTruthy, RecommendationCand(line));
    var conviction := LatchField(s.conviction, NatTruthy, ConvictionCand(p, line));
    var size := LatchField(s.positionSize, RealTruthy, PositionSizeCand(p, line));
    var expected := LatchField(s.expectedReturn5y, RealTruthy, ExpectedReturnCand(p, line));
    var bull := LatchField(s.bullReturn, RealTruthy, CaseCand(p, "BULL", line));
    var base := LatchField(s.baseReturn, RealTruthy, CaseCand(p, "BASE", line));
    var bear := LatchField(s.bearReturn, RealTruthy, CaseCand(p, "BEAR", line));
    t := GrowthSummary(historical, market, sustainability, recommendation, conviction, size,
                       expected, bull, base, bear);
  }

  /** `get_growth_summary`: every line of the report is offered to every
      field still falsy; afterwards the bull, base and bear returns still
      falsy fall back to the "... Case ... Total Return:" patterns searched
      across the whole report. */
  method GetGrowthSummary(p: GrowthPatterns, text: string) returns (s: GrowthSummary)
    ensures s == GrowthSummaryOf(p, text)
    ensures var lines := SplitOn(text, '\n');
      && s.historicalQuality == LatchAll(Cands(lines, HistoricalOf(p)), NatTruthy)
      && s.recommendation == LatchAll(Cands(lines, RecommendationOf()), StrTruthy)
      && s.bullReturn == Latch(LatchAll(Cands(lines, CaseOf(p, "BULL")), RealTruthy), RealTruthy, p.bullTotal(text))
  {
    var lines := SplitOn(text, '\n');
    s := NoGrowthSummary;
    for i := 0 to |lines|
      invariant s == Scan(p, lines[..i])
    {
      assert lines[..i + 1][..i] == lines[..i];
      s := ScanLine(p, s, lines[i]);
    }
    assert lines[..|lines|] == lines;

    var bull := LatchField(s.bullReturn, RealTruthy, p.bullTotal(text));
    var base := LatchField(s.baseReturn, RealTruthy, p.baseTotal(text));
    var bear := LatchField(s.bearReturn, RealTruthy, p.bearTotal(text));
    s := s.(bullReturn := bull, baseReturn := base, bearReturn := bear);
    ScanFields(p, lines);
  }

  /** Each field of the scan is the "first truthy line wins" fold of its own
      per-line candidates: the fields do not interact. */
  lemma {:induction false} ScanFields(p: GrowthPatterns, lines: seq<string>)
    ensures var s := Scan(p, lines);
      && s.historicalQuality == LatchAll(Cands(lines, HistoricalOf(p)), NatTruthy)
      && s.marketSpace == LatchAll(Cands(lines, MarketSpaceOf(p)), NatTruthy)
      && s.sustainability == LatchAll(Cands(lines, SustainabilityOf(p)), NatTruthy)
      && s.recommendation == LatchAll(Cands(lines, RecommendationOf()), StrTruthy)
      && s.conviction == LatchAll(Cands(lines, ConvictionOf(p)), NatTruthy)
      && s.positionSize == LatchAll(Cands(lines, PositionSizeOf(p)), RealTruthy)
      && s.expectedReturn5y == LatchAll(Cands(lines, ExpectedReturnOf(p)), RealTruthy)
      && s.bullReturn == LatchAll(Cands(lines, CaseOf(p, "BULL")), RealTruthy)
      && s.baseReturn == LatchAll(Cands(lines, CaseOf(p, "BASE")), RealTruthy)
      && s.bearReturn == LatchAll(Cands(lines, CaseOf(p, "BEAR")), RealTruthy)
  {
    if lines != [] {
      var n := |lines| - 1;
      ScanFields(p, lines[..n]);
      CandsSnoc(lines, HistoricalOf(p), n);
      CandsSnoc(lines, MarketSpaceOf(p), n);
      CandsSnoc(lines, SustainabilityOf(p), n);
      CandsSnoc(lines, RecommendationOf(), n);
      CandsSnoc(lines, ConvictionOf(p), n);
      CandsSnoc(lines, PositionSizeOf(p), n);
      CandsSnoc(lines, ExpectedReturnOf(p), n);
      CandsSnoc(lines, CaseOf(p, "BULL"), n);
      CandsSnoc(lines, CaseOf(p, "BASE"), n);
      CandsSnoc(lines, CaseOf(p, "BEAR"), n);
      assert lines[..n + 1] == lines;
    }
  }

  /** The recommendation always ends as one of the five growth words. */
  lemma RecommendationClosed(lines: seq<string>)
    ensures var r := LatchAll(Cands(lines, RecommendationOf()), StrTruthy);
      r.Some? ==> r.value in RecommendationWords
  {
    LatchAllFromCands(Cands(lines, RecommendationOf()), StrTruthy);
  }

  /** In a table row, a strong buy outranks every other keyword on it. */
  lemma TableRowStrongBuyFirst(line: string)
    requires '|' in line && Contains(Upper(line), "RECOMMENDATION")
    requires Contains(Upper(line), "STRONG BUY")
    ensures RecommendationCand(line) == Some("STRONG GROWTH BUY")
  {
  }

  /** In a table row without a buy, CAUTION outranks AVOID, which outranks
      HOLD. */
  lemma TableRowCautionBeforeAvoidBeforeHold(line: string)
    requires '|' in line && Contains(Upper(line), "RECOMMENDATION")
    requires !Contains(Upper(line), "BUY")
    ensures Contains(Upper(line), "CAUTION") ==> RecommendationCand(line) == Some("CAUTION")
    ensures !Contains(Upper(line), "CAUTION") && Contains(Upper(line), "AVOID") ==>
      RecommendationCand(line) == Some("AVOID")
  {
    var u := Upper(line);
    if Contains(u, "GROWTH BUY") {
      ContainsTransitive(u, "GROWTH BUY", "BUY");
    }
    if Contains(u, "STRONG GROWTH BUY") {
      ContainsTransitive(u, "STRONG GROWTH BUY", "BUY");
    }
    if Contains(u, "STRONG BUY") {
      ContainsTransitive(u, "STRONG BUY", "BUY");
    }
  }

  /** Text containing `mid`, which ends with `sub`, contains `sub`. */
  lemma {:induction false} ContainsTransitive(s: string, mid: string, sub: string)
    requires Contains(s, mid)
    requires |sub| <= |mid| && mid[|mid| - |sub|..] == sub
    ensures Contains(s, sub)
    decreases |s|
  {
    if StartsWith(s, mid) {
      SuffixContained(s, |mid| - |sub|, sub);
    } else {
      ContainsTransitive(s[1..], mid, sub);
    }
  }

  lemma {:induction false} SuffixContained(s: string, k: nat, sub: string)
    requires k + |sub| <= |s| && s[k..k + |sub|] == sub
    ensures Contains(s, sub)
    decreases k
  {
    if k == 0 {
      assert s[..|sub|] == sub;
    } else {
      assert s[1..][k - 1..k - 1 + |sub|] == sub;
      SuffixContained(s[1..], k - 1, sub);
    }
  }

  /** A line that offers no field anything. */
  predicate Silent(p: GrowthPatterns, line: string) {
    Step(p, NoGrowthSummary, line) == NoGrowthSummary
  }

  /** A report none of whose lines offers a value and with no multi-line
      match keeps every field at `None`. */
  lemma {:induction false} NothingMatchedKeepsDefaults(p: GrowthPatterns, text: string)
    requires forall l :: l in SplitOn(text, '\n') ==> Silent(p, l)
    requires p.bullTotal(text).None? && p.baseTotal(text).None? && p.bearTotal(text).None?
    ensures GrowthSummaryOf(p, text) == NoGrowthSummary
  {
    SilentScan(p, SplitOn(text, '\n'));
  }

  lemma {:induction false} SilentScan(p: GrowthPatterns, lines: seq<string>)
    requires forall l :: l in lines ==> Silent(p, l)
    ensures Scan(p, lines) == NoGrowthSummary
  {
    if lines != [] {
      var n := |lines| - 1;
      assert forall l :: l in lines[..n] ==> l in lines;
      SilentScan(p, lines[..n]);
      assert lines[n] in lines;
    }
  }

  // ---------------------------------------------------------------------
  // calculate_scenario_probabilities
  // ---------------------------------------------------------------------

  datatype Probabilities = Probabilities(bull: real, base: real, bear: real)

  /** The weights of the bull, base and bear scenarios, by band of the mean
      of the quality and sustainability scores. */
  function ScenarioProbabilities(quality: int, sustainability: int): (r: Probabilities)
    ensures r.bull + r.base + r.bear == 1.0
    ensures 0.0 < r.bull < 1.0 && 0.0 < r.base < 1.0 && 0.0 < r.bear < 1.0
    ensures r.base >= r.bull && r.base >= r.bear
  {
    var avg := (quality + sustainability) as real / 2.0;
    if avg >= 8.0 then Probabilities(0.35, 0.55, 0.10)
    else if avg >= 6.0 then Probabilities(0.30, 0.55, 0.15)
    else if avg >= 4.0 then Probabilities(0.25, 0.50, 0.25)
    else Probabilities(0.20, 0.45, 0.35)
  }

  /** The weights depend on the two scores only through their mean. A
      higher mean never raises the bear weight, and never lowers the base
      or the bull weight. */
  lemma ScenarioProbabilitiesByMean(q1: int, s1: int, q2: int, s2: int)
    ensures q1 + s1 == q2 + s2 ==> ScenarioProbabilities(q1, s1) == ScenarioProbabilities(q2, s2)
    ensures q1 + s1 <= q2 + s2 ==>
      && ScenarioProbabilities(q2, s2).bear <= ScenarioProbabilities(q1, s1).bear
      && ScenarioProbabilities(q1, s1).base <= ScenarioProbabilities(q2, s2).base
      && ScenarioProbabilities(q1, s1).bull <= ScenarioProbabilities(q2, s2).bull
  {
  }
}
