/** The Chief Investment Officer's decision extractor, composite score and
    position sizing (agents/cio_synthesizer.py).

    `get_decision_summary` reads the CIO's synthesis report. Each regular
    expression it searches is a `Matcher` of `CioPatterns` that returns its
    capture groups already converted by `float`/`int` (every numeric group
    is `\d+(\.\d+)?`, so the conversions cannot fail and the `try` blocks
    never catch anything); monetary groups come back with their thousands
    commas removed. */
module CioSynthesizer {
  import opened Text
  import opened Extraction

  /** The patterns of `get_decision_summary`, in the order of the source. */
  datatype CioPatterns = CioPatterns(
    // "EXECUTIVE SUMMARY" up to "## SECTION 2" or the end (group 0)
    execSummary: Matcher<string>,
    // recommendation: table row, "Final Recommendation:", "Rating:" (the word as captured)
    recTable: Matcher<string>, recPlain: Matcher<string>, rating: Matcher<string>,
    // the four conviction patterns "…Conviction…: n/10"
    conviction: seq<Matcher<nat>>,
    positionTable: Matcher<real>, positionPlain: Matcher<real>,
    // "Expected 3-Year Return:" probability-weighted, table, "a% to b%" range, single value
    expectedWeighted: Matcher<real>, expectedTable: Matcher<real>,
    expectedRange: Matcher<(real, real)>, expectedSingle: Matcher<real>,
    // "COMPOSITE SCORE: x/10", table "y/100", plain "y/100"; fallbacks "…: x/10" and "Composite: x"
    compositeOutOf10: Matcher<real>, compositeTable: Matcher<real>, compositePlain: Matcher<real>,
    compositeIntegrated: Matcher<real>, compositeLine: Matcher<real>,
    // CIO fair value: table, plain; then range, single, "fair value around $x"
    fairTable: Matcher<real>, fairPlain: Matcher<real>,
    fairRange: Matcher<(real, real)>, fairSingle: Matcher<real>, fairAround: Matcher<real>,
    upsideTable: Matcher<real>, upsidePlain: Matcher<real>, upside: Matcher<real>,
    bullReturn: Matcher<real>, baseReturn: Matcher<real>, bearReturn: Matcher<real>,
    bullProbability: Matcher<nat>, baseProbability: Matcher<nat>, bearProbability: Matcher<nat>,
    ratio: Matcher<real>,
    // entry range: "Entry Range: $a - $b", "enter between $a and $b", "accumulate at $a-$b"
    entryRange: Matcher<(real, real)>, entryBetween: Matcher<(real, real)>,
    entryAccumulate: Matcher<(real, real)>,
    stop: Matcher<real>, stopAt: Matcher<real>, stopExit: Matcher<real>,
    // target: "Target Price: $x", "target of $a - $b" (high end), "reach $x"
    target: Matcher<real>, targetRange: Matcher<(real, real)>, targetReach: Matcher<real>)

  datatype Decision = Decision(
    recommendation: string, conviction: nat, positionSize: real, compositeScore: real,
    cioFairValue: real, upsideToFairValue: real, expectedReturn3y: real,
    bullReturn: real, baseReturn: real, bearReturn: real,
    bullProbability: nat, baseProbability: nat, bearProbability: nat,
    upsideDownsideRatio: real, entryPriceLow: real, entryPriceHigh: real,
    stopLoss: real, targetPrice: real)

  /** Every field at its default: 'N/A', 0 or 0.0. */
  const Defaults := Decision("N/A", 0, 0.0, 0.0, 0.0, 0.0, 0.0, 0.0, 0.0, 0.0,
                             0, 0, 0, 0.0, 0.0, 0.0, 0.0, 0.0)

  const Green := "\U{1F7E2}"
  const Yellow := "\U{1F7E1}"
  const Orange := "\U{1F7E0}"
  const Red := "\U{1F534}"

  // ---------------------------------------------------------------------
  // The fallback chains, stated with `FirstSome`
  // ---------------------------------------------------------------------

  /** The executive summary, or "" when the report has none. */
  function ExecSummary(p: CioPatterns, full: string): string {
    p.execSummary(full).GetOr("")
  }

  /** `exec_summary or full_synthesis` */
  function Scope(p: CioPatterns, full: string): (scope: string)
    ensures scope == ExecSummary(p, full) || scope == full
    ensures ExecSummary(p, full) != "" ==> scope == ExecSummary(p, full)
  {
    var exec := ExecSummary(p, full);
    if exec != "" then exec else full
  }

  function UpperOf(o: Option<string>): Option<string> {
    if o.Some? then Some(Upper(o.value)) else None
  }

  /** The last resort: a coloured marker and a keyword in the executive
      summary, tested in this order. */
  function EmojiRecommendation(exec: string): Option<string> {
    var up := Upper(exec);
    if Contains(exec, Green) && Contains(up, "STRONG BUY") then Some("STRONG BUY")
    else if Contains(exec, Green) && Contains(up, "BUY") then Some("BUY")
    else if Contains(exec, Yellow) && Contains(up, "HOLD") then Some("HOLD")
    else if Contains(exec, Orange) && Contains(up, "REDUCE") then Some("REDUCE")
    else if Contains(exec, Red) && Contains(up, "SELL") then Some("SELL")
    else None
  }

  /** The recommendation chain: table row, plain "Final Recommendation:",
      a "Rating:" line anywhere in the report, then the marker fallback. */
  function RecommendationFound(p: CioPatterns, full: string): Option<string> {
    var scope := Scope(p, full);
    UpperOf(p.recTable(scope)).Or(UpperOf(p.recPlain(scope))).Or(UpperOf(p.rating(full)))
      .Or(EmojiRecommendation(ExecSummary(p, full)))
  }

  function RecommendationOf(p: CioPatterns, full: string): string {
    RecommendationFound(p, full).GetOr("N/A")
  }

  function Mid(o: Option<(real, real)>): Option<real> {
    if o.Some? then Some((o.value.0 + o.value.1) / 2.0) else None
  }

  function High(o: Option<(real, real)>): Option<real> {
    if o.Some? then Some(o.value.1) else None
  }

  function Scale(o: Option<real>, k: real): Option<real> {
    if o.Some? then Some(o.value * k) else None
  }

  function PositionOf(p: CioPatterns, full: string): real {
    var scope := Scope(p, full);
    p.positionTable(scope).Or(p.positionPlain(scope)).GetOr(0.0)
  }

  /** The first block's expected return, then the second block's fallback
      when it is still 0.0. */
  function ExpectedOf(p: CioPatterns, full: string): real {
    var scope := Scope(p, full);
    var first := p.expectedWeighted(full).Or(p.expectedTable(scope)).Or(Mid(p.expectedRange(scope))).GetOr(0.0);
    if first == 0.0 then Mid(p.expectedRange(scope)).Or(p.expectedSingle(scope)).GetOr(0.0)
    else first
  }

  /** The raw number of the first block's composite pattern that matched. */
  function CompositeFirstMatch(p: CioPatterns, full: string): Option<real> {
    p.compositeOutOf10(full).Or(p.compositeTable(Scope(p, full))).Or(p.compositePlain(full))
  }

  /** The first block stores "x/10" as x * 10 and "y/100" as y. */
  function CompositeFirstBlock(p: CioPatterns, full: string): real {
    Scale(p.compositeOutOf10(full), 10.0).Or(p.compositeTable(Scope(p, full))).Or(p.compositePlain(full)).GetOr(0.0)
  }

  /** The second block re-reads the first block's match when the score is
      non-zero, and otherwise searches its two fallbacks; whatever match it
      holds is stored raw. */
  function CompositeOf(p: CioPatterns, full: string): real {
    var first := CompositeFirstBlock(p, full);
    var m := if first != 0.0 then CompositeFirstMatch(p, full)
             else p.compositeIntegrated(full).Or(p.compositeLine(full));
    m.GetOr(first)
  }

  function FairValueOf(p: CioPatterns, full: string): real {
    var first := p.fairTable(Scope(p, full)).Or(p.fairPlain(full)).GetOr(0.0);
    Mid(p.fairRange(full)).Or(p.fairSingle(full)).Or(p.fairAround(full)).GetOr(first)
  }

  function UpsideOf(p: CioPatterns, full: string): real {
    var first := p.upsideTable(Scope(p, full)).Or(p.upsidePlain(full)).GetOr(0.0);
    p.upside(full).GetOr(first)
  }

  function EntryOf(p: CioPatterns, full: string): (real, real) {
    p.entryRange(full).Or(p.entryBetween(full)).Or(p.entryAccumulate(full)).GetOr((0.0, 0.0))
  }

  function StopOf(p: CioPatterns, full: string): real {
    p.stop(full).Or(p.stopAt(full)).Or(p.stopExit(full)).GetOr(0.0)
  }

  function TargetOf(p: CioPatterns, full: string): real {
    p.target(full).Or(High(p.targetRange(full))).Or(p.targetReach(full)).GetOr(0.0)
  }

  // ---------------------------------------------------------------------
  // get_decision_summary
  // ---------------------------------------------------------------------

  /** The recommendation chain: table row, plain "Final Recommendation:",
      a "Rating:" line anywhere, then the coloured-marker fallback. */
  method ExtractRecommendation(p: CioPatterns, full: string, exec: string, s: Decision)
    returns (t: Decision)
    requires exec == ExecSummary(p, full)
    ensures t == s.(recommendation := RecommendationFound(p, full).GetOr(s.recommendation))
  {
    t := s;
    var scope := if exec != "" then exec else full;
    var m := p.recTable(scope);
    if m.Some? {
      t := t.(recommendation := Upper(m.value));
    } else {
      m := p.recPlain(scope);
      if m.Some? {
        t := t.(recommendation := Upper(m.value));
      } else {
        m := p.rating(full);
        if m.Some? {
          t := t.(recommendation := Upper(m.value));
        } else {
          var up := Upper(exec);
          if Contains(exec, Green) && Contains(up, "STRONG BUY") {
            t := t.(recommendation := "STRONG BUY");
          } else if Contains(exec, Green) && Contains(up, "BUY") {
            t := t.(recommendation := "BUY");
          } else if Contains(exec, Yellow) && Contains(up, "HOLD") {
            t := t.(recommendation := "HOLD");
          } else if Contains(exec, Orange) && Contains(up, "REDUCE") {
            t := t.(recommendation := "REDUCE");
          } else if Contains(exec, Red) && Contains(up, "SELL") {
            t := t.(recommendation := "SELL");
          }
        }
      }
    }
  }

  /** The first `try` block after the conviction: position size, expected
      return, composite score, fair value and upside. */
  method ExtractFirstBlock(p: CioPatterns, full: string, scope: string, s: Decision)
    returns (t: Decision, compositeMatch: Option<real>)
    requires scope == Scope(p, full)
    ensures t == s.(positionSize := p.positionTable(scope).Or(p.positionPlain(scope)).GetOr(s.positionSize),
                    expectedReturn3y := p.expectedWeighted(full).Or(p.expectedTable(scope)).Or(Mid(p.expectedRange(scope))).GetOr(s.expectedReturn3y),
                    compositeScore := Scale(p.compositeOutOf10(full), 10.0).Or(p.compositeTable(scope)).Or(p.compositePlain(full)).GetOr(s.compositeScore),
                    cioFairValue := p.fairTable(scope).Or(p.fairPlain(full)).GetOr(s.cioFairValue),
                    upsideToFairValue := p.upsideTable(scope).Or(p.upsidePlain(full)).GetOr(s.upsideToFairValue))
    ensures compositeMatch == CompositeFirstMatch(p, full)
  {
    t := s;
    var position := p.positionTable(scope);
    if position.None? {
      position := p.positionPlain(scope);
    }
    if position.Some? {
      t := t.(positionSize := position.value);
    }

    var weighted := p.expectedWeighted(full);
    if weighted.Some? {
      t := t.(expectedReturn3y := weighted.value);
    } else {
      var expected := p.expectedTable(scope);
      if expected.None? {
        var range := p.expectedRange(scope);
        if range.Some? {
          t := t.(expectedReturn3y := (range.value.0 + range.value.1) / 2.0);
        }
      } else {
        t := t.(expectedReturn3y := expected.value);
      }
    }

    compositeMatch := p.compositeOutOf10(full);
    if compositeMatch.Some? {
      t := t.(compositeScore := compositeMatch.value * 10.0);
    } else {
      compositeMatch := p.compositeTable(scope);
      if compositeMatch.None? {
        compositeMatch := p.compositePlain(full);
      }
      if compositeMatch.Some? {
        t := t.(compositeScore := compositeMatch.value);
      }
    }

    var fair := p.fairTable(scope);
    if fair.None? {
      fair := p.fairPlain(full);
    }
    if fair.Some? {
      t := t.(cioFairValue := fair.value);
    }

    var up := p.upsideTable(scope);
    if up.None? {
      up := p.upsidePlain(full);
    }
    if up.Some? {
      t := t.(upsideToFairValue := up.value);
    }
  }

  /** The expected-return and composite-score fallbacks of the second
      `try` block. `compositeMatch` is the first block's match, still in
      scope. */
  method ExtractSecondBlockScores(p: CioPatterns, full: string, scope: string, s: Decision,
                                  compositeMatch: Option<real>)
    returns (t: Decision)
    requires scope == Scope(p, full)
    requires s.compositeScore != 0.0 ==> compositeMatch.Some?
    ensures t == s.(expectedReturn3y :=
                      if s.expectedReturn3y == 0.0
                      then Mid(p.expectedRange(scope)).Or(p.expectedSingle(scope)).GetOr(0.0)
                      else s.expectedReturn3y,
                    compositeScore :=
                      (if s.compositeScore != 0.0 then compositeMatch
                       else p.compositeIntegrated(full).Or(p.compositeLine(full))).GetOr(s.compositeScore))
  {
    t := s;
    if t.expectedReturn3y == 0.0 {
      var range := p.expectedRange(scope);
      if range.Some? {
        var low, high := range.value.0, range.value.1;
        t := t.(expectedReturn3y := (low + high) / 2.0);
      } else {
        var single := p.expectedSingle(scope);
        if single.Some? {
          t := t.(expectedReturn3y := single.value);
        }
      }
    }

    var m := compositeMatch;
    if t.compositeScore == 0.0 {
      m := p.compositeIntegrated(full);
    }
    if m.None? {
      m := p.compositeLine(full);
    }
    if m.Some? {
      t := t.(compositeScore := m.value);
    }
  }

  /** The fair value and upside of the second `try` block: a fair-value
      range, a single value or "fair value around $x" replaces the first
      block's value. */
  method ExtractSecondBlockFairValue(p: CioPatterns, full: string, s: Decision) returns (t: Decision)
    ensures t == s.(cioFairValue := Mid(p.fairRange(full)).Or(p.fairSingle(full)).Or(p.fairAround(full))
                                      .GetOr(s.cioFairValue),
                    upsideToFairValue := p.upside(full).GetOr(s.upsideToFairValue))
  {
    t := s;
    var range := p.fairRange(full);
    if range.Some? {
      var low, high := range.value.0, range.value.1;
      t := t.(cioFairValue := (low + high) / 2.0);
    } else {
      var single := p.fairSingle(full);
      if single.Some? {
        t := t.(cioFairValue := single.value);
      } else {
        var around := p.fairAround(full);
        if around.Some? {
          t := t.(cioFairValue := around.value);
        }
      }
    }
    var up := p.upside(full);
    if up.Some? {
      t := t.(upsideToFairValue := up.value);
    }
  }

  /** The scenario returns and probabilities and the upside/downside
      ratio, each from its own pattern. */
  method ExtractScenarios(p: CioPatterns, full: string, s: Decision) returns (t: Decision)
    ensures t == s.(bullReturn := p.bullReturn(full).GetOr(s.bullReturn),
                    baseReturn := p.baseReturn(full).GetOr(s.baseReturn),
                    bearReturn := p.bearReturn(full).GetOr(s.bearReturn),
                    bullProbability := p.bullProbability(full).GetOr(s.bullProbability),
                    baseProbability := p.baseProbability(full).GetOr(s.baseProbability),
                    bearProbability := p.bearProbability(full).GetOr(s.bearProbability),
                    upsideDownsideRatio := p.ratio(full).GetOr(s.upsideDownsideRatio))
  {
    t := s;
    var bull := p.bullReturn(full);
    if bull.Some? { t := t.(bullReturn := bull.value); }
    var base := p.baseReturn(full);
    if base.Some? { t := t.(baseReturn := base.value); }
    var bear := p.bearReturn(full);
    if bear.Some? { t := t.(bearReturn := bear.value); }
    var bullP := p.bullProbability(full);
    if bullP.Some? { t := t.(bullProbability := bullP.value); }
    var baseP := p.baseProbability(full);
    if baseP.Some? { t := t.(baseProbability := baseP.value); }
    var bearP := p.bearProbability(full);
    if bearP.Some? { t := t.(bearProbability := bearP.value); }
    var ratio := p.ratio(full);
    if ratio.Some? { t := t.(upsideDownsideRatio := ratio.value); }
  }

  /** The execution plan: entry range, stop loss and target price, each
      from the first of three formats that matches. */
  method ExtractExecutionPlan(p: CioPatterns, full: string, s: Decision) returns (t: Decision)
    ensures var entry := p.entryRange(full).Or(p.entryBetween(full)).Or(p.entryAccumulate(full));
      t == s.(entryPriceLow := if entry.Some? then entry.value.0 else s.entryPriceLow,
              entryPriceHigh := if entry.Some? then entry.value.1 else s.entryPriceHigh,
              stopLoss := p.stop(full).Or(p.stopAt(full)).Or(p.stopExit(full)).GetOr(s.stopLoss),
              targetPrice := p.target(full).Or(High(p.targetRange(full))).Or(p.targetReach(full))
                               .GetOr(s.targetPrice))
  {
    t := s;
    var entry := p.entryRange(full);
    if entry.None? {
      entry := p.entryBetween(full);
      if entry.None? {
        entry := p.entryAccumulate(full);
      }
    }
    if entry.Some? {
      t := t.(entryPriceLow := entry.value.0, entryPriceHigh := entry.value.1);
    }

    var stop := p.stop(full);
    if stop.None? {
      stop := p.stopAt(full);
      if stop.None? {
        stop := p.stopExit(full);
      }
    }
    if stop.Some? {
      t := t.(stopLoss := stop.value);
    }

    var target := p.target(full);
    if target.None? {
      var targetRange := p.targetRange(full);
      if targetRange.Some? {
        target := Some(targetRange.value.1);
      } else {
        target := p.targetReach(full);
      }
    }
    if target.Some? {
      t := t.(targetPrice := target.value);
    }
  }

  /** `get_decision_summary`: every field starts at its default, the first
      block and then the second block overwrite what they find. */
  method DecisionSummary(p: CioPatterns, full: string) returns (s: Decision)
    ensures s.recommendation == RecommendationOf(p, full)
    ensures s.conviction == FirstMatch(p.conviction, Scope(p, full)).GetOr(0)
    ensures s.positionSize == PositionOf(p, full)
    ensures s.expectedReturn3y == ExpectedOf(p, full)
    ensures s.compositeScore == CompositeOf(p, full)
    ensures s.cioFairValue == FairValueOf(p, full)
    ensures s.upsideToFairValue == UpsideOf(p, full)
    ensures s.bullReturn == p.bullReturn(full).GetOr(0.0)
    ensures s.baseReturn == p.baseReturn(full).GetOr(0.0)
    ensures s.bearReturn == p.bearReturn(full).GetOr(0.0)
    ensures s.bullProbability == p.bullProbability(full).GetOr(0)
    ensures s.baseProbability == p.baseProbability(full).GetOr(0)
    ensures s.bearProbability == p.bearProbability(full).GetOr(0)
    ensures s.upsideDownsideRatio == p.ratio(full).GetOr(0.0)
    ensures (s.entryPriceLow, s.entryPriceHigh) == EntryOf(p, full)
    ensures s.stopLoss == StopOf(p, full)
    ensures s.targetPrice == TargetOf(p, full)
  {
    s := Defaults;
    var exec := "";
    var summaryMatch := p.execSummary(full);
    if summaryMatch.Some? {
      exec := summaryMatch.value;
    }
    var scope := if exec != "" then exec else full;

    s := ExtractRecommendation(p, full, exec, s);

    var conviction := SearchPatterns(p.conviction, scope);
    if conviction.Some? {
      s := s.(conviction := conviction.value);
    }

    var compositeMatch;
    s, compositeMatch := ExtractFirstBlock(p, full, scope, s);
    assert s.compositeScore != 0.0 ==> compositeMatch.Some?;
    s := ExtractSecondBlockScores(p, full, scope, s, compositeMatch);
    s := ExtractSecondBlockFairValue(p, full, s);
    s := ExtractScenarios(p, full, s);
    s := ExtractExecutionPlan(p, full, s);
  }

  // ---------------------------------------------------------------------
  // Properties of the extracted decision
  // ---------------------------------------------------------------------

  /** A pattern that matches no text at all. */
  ghost predicate NeverMatches<T>(m: Matcher<T>) {
    forall t :: m(t).None?
  }

  /** A report that matches nothing leaves every field at its default. */
  lemma NothingMatchedKeepsDefaults(p: CioPatterns, full: string)
    requires NeverMatches(p.execSummary) && NeverMatches(p.recTable) && NeverMatches(p.recPlain)
    requires NeverMatches(p.rating) && NeverMatches(p.positionTable) && NeverMatches(p.positionPlain)
    requires NeverMatches(p.expectedWeighted) && NeverMatches(p.expectedTable)
    requires NeverMatches(p.expectedRange) && NeverMatches(p.expectedSingle)
    requires NeverMatches(p.compositeOutOf10) && NeverMatches(p.compositeTable)
    requires NeverMatches(p.compositePlain) && NeverMatches(p.compositeIntegrated)
    requires NeverMatches(p.compositeLine) && NeverMatches(p.fairTable) && NeverMatches(p.fairPlain)
    requires NeverMatches(p.fairRange) && NeverMatches(p.fairSingle) && NeverMatches(p.fairAround)
    requires NeverMatches(p.upsideTable) && NeverMatches(p.upsidePlain) && NeverMatches(p.upside)
    requires NeverMatches(p.entryRange) && NeverMatches(p.entryBetween)
    requires NeverMatches(p.entryAccumulate) && NeverMatches(p.stop) && NeverMatches(p.stopAt)
    requires NeverMatches(p.stopExit) && NeverMatches(p.target) && NeverMatches(p.targetRange)
    requires NeverMatches(p.targetReach)
    requires NeverMatches(p.bullReturn) && NeverMatches(p.baseReturn) && NeverMatches(p.bearReturn)
    requires NeverMatches(p.bullProbability) && NeverMatches(p.baseProbability)
    requires NeverMatches(p.bearProbability) && NeverMatches(p.ratio)
    requires forall i :: 0 <= i < |p.conviction| ==> NeverMatches(p.conviction[i])
    ensures RecommendationOf(p, full) == "N/A"
    ensures FirstMatch(p.conviction, Scope(p, full)) == None
    ensures PositionOf(p, full) == 0.0 && ExpectedOf(p, full) == 0.0
    ensures CompositeOf(p, full) == 0.0 && FairValueOf(p, full) == 0.0
    ensures UpsideOf(p, full) == 0.0 && EntryOf(p, full) == (0.0, 0.0)
    ensures StopOf(p, full) == 0.0 && TargetOf(p, full) == 0.0
    ensures p.bullReturn(full).GetOr(0.0) == 0.0 && p.baseReturn(full).GetOr(0.0) == 0.0
    ensures p.bearReturn(full).GetOr(0.0) == 0.0 && p.ratio(full).GetOr(0.0) == 0.0
    ensures p.bullProbability(full).GetOr(0) == 0 && p.baseProbability(full).GetOr(0) == 0
    ensures p.bearProbability(full).GetOr(0) == 0
  {
    var scope := Scope(p, full);
    assert p.execSummary(full).None?;
    assert !Contains("", Green) by {
      assert !StartsWith("", Green);
    }
    assert p.recTable(scope).None? && p.recPlain(scope).None? && p.rating(full).None?;
    assert forall i :: 0 <= i < |p.conviction| ==> p.conviction[i](scope).None?;
    FirstSomeCases(Results(p.conviction, scope));
    assert p.positionTable(scope).None? && p.positionPlain(scope).None?;
    assert p.expectedWeighted(full).None? && p.expectedTable(scope).None?;
    assert p.expectedRange(scope).None? && p.expectedSingle(scope).None?;
    assert p.compositeOutOf10(full).None? && p.compositeTable(scope).None?;
    assert p.compositePlain(full).None? && p.compositeIntegrated(full).None?;
    assert p.compositeLine(full).None? && p.fairTable(scope).None? && p.fairPlain(full).None?;
    assert p.fairRange(full).None? && p.fairSingle(full).None? && p.fairAround(full).None?;
    assert p.upsideTable(scope).None? && p.upsidePlain(full).None? && p.upside(full).None?;
    assert p.entryRange(full).None? && p.entryBetween(full).None? && p.entryAccumulate(full).None?;
    assert p.stop(full).None? && p.stopAt(full).None? && p.stopExit(full).None?;
    assert p.target(full).None? && p.targetRange(full).None? && p.targetReach(full).None?;
  }

  /** The words a recommendation pattern can capture, up to letter case. */
  const TableWords: set<string> :=
    {"STRONG BUY", "BUY", "HOLD", "REDUCE", "SELL", "STRONG GROWTH BUY", "GROWTH BUY"}
  const RatingWords: set<string> := {"STRONG BUY", "BUY", "HOLD", "REDUCE", "SELL"}

  /** Each pattern captures only case variants of its alternatives. */
  ghost predicate CapturesWords(m: Matcher<string>, words: set<string>) {
    forall t :: m(t).Some? ==> Upper(m(t).value) in words
  }

  /** The recommendation is 'N/A' or one of the words of the table pattern,
      in upper case. */
  lemma RecommendationClosed(p: CioPatterns, full: string)
    requires CapturesWords(p.recTable, TableWords)
    requires CapturesWords(p.recPlain, RatingWords) && CapturesWords(p.rating, RatingWords)
    ensures RecommendationOf(p, full) in TableWords + {"N/A"}
  {
    var scope := Scope(p, full);
    if p.recTable(scope).Some? {
      assert Upper(p.recTable(scope).value) in TableWords;
    } else if p.recPlain(scope).Some? {
      assert Upper(p.recPlain(scope).value) in RatingWords;
    } else if p.rating(full).Some? {
      assert Upper(p.rating(full).value) in RatingWords;
    }
  }

  /** The table row wins over every later format, and the marker fallback
      applies only when no pattern matched. */
  lemma RecommendationPriority(p: CioPatterns, full: string)
    ensures var scope := Scope(p, full);
      p.recTable(scope).Some? ==> RecommendationOf(p, full) == Upper(p.recTable(scope).value)
    ensures var scope := Scope(p, full);
      p.recTable(scope).None? && p.recPlain(scope).None? && p.rating(full).None? ==>
      RecommendationOf(p, full) == EmojiRecommendation(ExecSummary(p, full)).GetOr("N/A")
  {
  }

  /** A "+a% to +b%" range, when no single-valued pattern of the first
      block matches, yields the midpoint. */
  lemma ExpectedRangeMidpoint(p: CioPatterns, full: string, a: real, b: real)
    requires p.expectedWeighted(full).None? && p.expectedTable(Scope(p, full)).None?
    requires p.expectedRange(Scope(p, full)) == Some((a, b))
    ensures ExpectedOf(p, full) == (a + b) / 2.0
  {
  }

  /** "COMPOSITE SCORE: x/10" is first stored as x * 10, and the second
      block then re-assigns the raw x from the same match. */
  lemma CompositeRescaleUndone(p: CioPatterns, full: string, x: real)
    requires p.compositeOutOf10(full) == Some(x) && x != 0.0
    ensures CompositeFirstBlock(p, full) == x * 10.0
    ensures CompositeOf(p, full) == x
  {
  }

  /** A non-zero "y/100" table score survives both blocks unchanged. */
  lemma CompositeTableKept(p: CioPatterns, full: string, y: real)
    requires p.compositeOutOf10(full).None? && p.compositeTable(Scope(p, full)) == Some(y)
    requires y != 0.0
    ensures CompositeOf(p, full) == y
  {
  }

  /** The second block's fair-value range overrides the first block, and
      the midpoint of the range is kept. */
  lemma FairValueRangeWins(p: CioPatterns, full: string, low: real, high: real)
    requires p.fairRange(full) == Some((low, high))
    ensures FairValueOf(p, full) == (low + high) / 2.0
  {
  }

  // ---------------------------------------------------------------------
  // Composite score and position size
  // ---------------------------------------------------------------------

  /** The conditions under which the composite score is documented to lie
      in [0, 10]: scores in [0, 10] and non-negative weights summing to 1. */
  predicate ScoreInputs(value: real, growth: real, risk: real, wv: real, wg: real, wr: real) {
    && 0.0 <= value <= 10.0 && 0.0 <= growth <= 10.0 && 0.0 <= risk <= 10.0
    && wv >= 0.0 && wg >= 0.0 && wr >= 0.0 && wv + wg + wr == 1.0
  }

  /** `calculate_composite_score` (before rounding): risk is inverted so
      that higher is better. */
  function CompositeScore(value: real, growth: real, risk: real,
                          valueWeight: real, growthWeight: real, riskWeight: real): (c: real)
    ensures ScoreInputs(value, growth, risk, valueWeight, growthWeight, riskWeight) ==> 0.0 <= c <= 10.0
  {
    var c := value * valueWeight + growth * growthWeight + (10.0 - risk) * riskWeight;
    WeightedSumBounds(value, growth, 10.0 - risk, valueWeight, growthWeight, riskWeight);
    c
  }

  lemma WeightedSumBounds(x: real, y: real, z: real, wx: real, wy: real, wz: real)
    ensures 0.0 <= x <= 10.0 && 0.0 <= y <= 10.0 && 0.0 <= z <= 10.0 &&
            wx >= 0.0 && wy >= 0.0 && wz >= 0.0 && wx + wy + wz == 1.0
            ==> 0.0 <= x * wx + y * wy + z * wz <= 10.0
  {
    if 0.0 <= x <= 10.0 && 0.0 <= y <= 10.0 && 0.0 <= z <= 10.0 &&
       wx >= 0.0 && wy >= 0.0 && wz >= 0.0 && wx + wy + wz == 1.0 {
      var a := ScaledBounds(x, wx);
      var b := ScaledBounds(y, wy);
      var c := ScaledBounds(z, wz);
      assert a + b + c <= 10.0;
    }
  }

  /** A score in [0, 10] times a weight lies between 0 and 10 times the
      weight. */
  lemma ScaledBounds(x: real, w: real) returns (p: real)
    requires 0.0 <= x <= 10.0 && w >= 0.0
    ensures p == x * w && 0.0 <= p <= 10.0 * w
  {
    p := x * w;
    MulLe(0.0, x, w);
    MulLe(x, 10.0, w);
  }

  /** A riskier company never scores higher, with non-negative weights. */
  lemma CompositeScoreRiskAntitone(value: real, growth: real, risk: real, risk2: real,
                                   wv: real, wg: real, wr: real)
    requires risk <= risk2 && wr >= 0.0
    ensures CompositeScore(value, growth, risk2, wv, wg, wr) <= CompositeScore(value, growth, risk, wv, wg, wr)
  {
    assert (10.0 - risk2) * wr <= (10.0 - risk) * wr;
  }

  /** The uncapped position: base x conviction/10 x (1 - risk/20) x
      min(upside/40, 1.2). */
  function RawPosition(composite: real, conviction: int, risk: real, upside: real, base: real): real {
    base * (conviction as real / 10.0) * (1.0 - risk / 20.0) * MinR(upside / 40.0, 1.2)
  }

  /** `calculate_position_size` (before rounding). */
  method PositionSize(composite: real, conviction: int, risk: real, upside: real, base: real)
    returns (position: real)
    ensures 0.0 <= position <= 8.0
    ensures 0.0 <= RawPosition(composite, conviction, risk, upside, base) <= 8.0 ==>
      position == RawPosition(composite, conviction, risk, upside, base)
    ensures RawPosition(composite, conviction, risk, upside, base) <= 0.0 ==> position == 0.0
    ensures RawPosition(composite, conviction, risk, upside, base) >= 8.0 ==> position == 8.0
  {
    position := base;
    var convictionMult := conviction as real / 10.0;
    position := position * convictionMult;
    var riskAdjustment := 1.0 - risk / 20.0;
    position := position * riskAdjustment;
    var opportunityMult := MinR(upside / 40.0, 1.2);
    position := position * opportunityMult;
    position := MinR(position, 8.0);
    position := MaxR(position, 0.0);
  }

  /** With a positive base and conviction and risk below 20, a negative
      expected upside sizes the position at 0. */
  lemma NegativeUpsideNoPosition(composite: real, conviction: int, risk: real, upside: real, base: real)
    requires base > 0.0 && conviction > 0 && risk < 20.0 && upside < 0.0
    ensures RawPosition(composite, conviction, risk, upside, base) < 0.0
  {
    var a := base * (conviction as real / 10.0);
    assert a > 0.0;
    var b := a * (1.0 - risk / 20.0);
    assert b > 0.0;
    assert MinR(upside / 40.0, 1.2) < 0.0;
  }
}
