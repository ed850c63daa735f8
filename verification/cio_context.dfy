/** The context handed to the CIO (`format_cio_context` in
    agents/cio_prompts.py): the company and the three analysts' summaries,
    a table of up to five years of key metrics, then the three full
    reports verbatim. */
module CioContext {
  import opened Text
  import opened Records

  /** The heavy and light 79-character rules, and the 90-character rule
      under the table header. */
  const Heavy := "═══════════════════════════════════════════════════════════════════════════════"
  const Light := "───────────────────────────────────────────────────────────────────────────────"
  const TableRule := "──────────────────────────────────────────────────────────────────────────────────────────"

  /** The business analysis is cut to this many characters. */
  const MaxBusiness: nat := 2000

  /** At most this many years are tabulated. */
  const MaxYears: nat := 5

  /** `data.get('financials', {})`: year to metrics, in insertion order,
      each year once. */
  type Financials = seq<(string, Dict)>

  predicate DistinctYears(fin: Financials) {
    forall i, j :: 0 <= i < j < |fin| ==> fin[i].0 != fin[j].0
  }

  function YearKeys(fin: Financials): (r: seq<string>)
    ensures |r| == |fin| && forall i :: 0 <= i < |fin| ==> r[i] == fin[i].0
  {
    seq(|fin|, i requires 0 <= i < |fin| => fin[i].0)
  }

  /** `financials.get(year, {})` */
  function YearRow(fin: Financials, year: string): Dict {
    if fin == [] then map[] else if fin[0].0 == year then fin[0].1 else YearRow(fin[1..], year)
  }

  /** `info.get('longName', ticker)` */
  function CompanyName(info: Dict, ticker: string): PyVal {
    Get(info, "longName", PyStr(ticker))
  }

  /** `info.get('currentPrice', info.get('regularMarketPrice', 0))`: the
      fallbacks apply only to missing keys. */
  function CurrentPrice(info: Dict): (p: PyVal)
    ensures "currentPrice" in info ==> p == info["currentPrice"]
    ensures "currentPrice" !in info && "regularMarketPrice" in info ==> p == info["regularMarketPrice"]
    ensures "currentPrice" !in info && "regularMarketPrice" !in info ==> p == PyInt(0)
  {
    Get(info, "currentPrice", Get(info, "regularMarketPrice", PyInt(0)))
  }

  function Header(fmt: Format, ticker: string, info: Dict, business: string, vs: Dict, gs: Dict, rs: Dict): string {
    "\n" + Heavy + "\n                         CIO SYNTHESIS CONTEXT\n" + Heavy + "\n\nCOMPANY INFORMATION:\n"
    + Light + "\nCompany: " + Show(fmt, CompanyName(info, ticker)) + " (" + ticker + ")\nSector: "
    + Show(fmt, Get(info, "sector", PyStr("N/A"))) + "\nIndustry: "
    + Show(fmt, Get(info, "industry", PyStr("N/A"))) + "\nCurrent Price: $" + fmt(".2f", CurrentPrice(info))
    + "\n\n\nBUSINESS UNDERSTANDING SUMMARY:\n" + Light + "\n" + Take(business, MaxBusiness)
    + "\n[... Full business analysis provided separately ...]\n\n\nVALUE HUNTER ANALYSIS SUMMARY:\n" + Light
    + "\nQuality Score: " + Show(fmt, Get(vs, "quality_score", PyStr("N/A"))) + "/10\nIntrinsic Value: $"
    + fmt(".2f", OrZero(vs, "intrinsic_value_low")) + " - $" + fmt(".2f", OrZero(vs, "intrinsic_value_high"))
    + "\nMargin of Safety: " + fmt(".1f", OrZero(vs, "margin_of_safety")) + "%\nMoat Score: "
    + Show(fmt, Get(vs, "moat_score", PyStr("N/A"))) + "/10\nRecommendation: "
    + Show(fmt, Get(vs, "recommendation", PyStr("N/A"))) + "\nPosition Size: "
    + fmt(".1f", OrZero(vs, "position_size")) + "%\nExpected 5Y Return: "
    + fmt(".1f", OrZero(vs, "expected_return_5y"))
    + "%\n\n[... Full Value Hunter analysis provided separately ...]\n\n\nGROWTH ANALYZER ANALYSIS SUMMARY:\n"
    + Light + "\nHistorical Quality: " + Show(fmt, Get(gs, "historical_quality_score", PyStr("N/A")))
    + "/10\nMarket Space: " + Show(fmt, Get(gs, "market_space_score", PyStr("N/A"))) + "/10\nSustainability: "
    + Show(fmt, Get(gs, "sustainability_score", PyStr("N/A"))) + "/10\nRecommendation: "
    + Show(fmt, Get(gs, "recommendation", PyStr("N/A"))) + "\nPosition Size: "
    + fmt(".1f", OrZero(gs, "position_size")) + "%\nExpected 5Y Return: "
    + fmt(".1f", OrZero(gs, "expected_return_5y")) + "%\n\nScenarios:\n- Bull Case: +"
    + fmt(".0f", OrZero(gs, "bull_return")) + "%\n- Base Case: +" + fmt(".0f", OrZero(gs, "base_return"))
    + "%\n- Bear Case: " + fmt("+.0f", OrZero(gs, "bear_return"))
    + "%\n\n[... Full Growth Analyzer analysis provided separately ...]\n\n\nRISK EXAMINER ANALYSIS SUMMARY:\n"
    + Light + "\nOverall Risk Score: " + Show(fmt, Get(rs, "overall_risk_score", PyStr("N/A")))
    + "/10\nRisk Rating: " + Show(fmt, Get(rs, "risk_rating", PyStr("N/A"))) + "\nFinancial Red Flags: "
    + Show(fmt, Get(rs, "red_flags_count", PyInt(0))) + "\nBusiness Model Risk: "
    + Show(fmt, Get(rs, "business_model_risk_score", PyStr("N/A"))) + "/50\nManagement Risk: "
    + Show(fmt, Get(rs, "management_risk", PyStr("N/A"))) + "\nValuation Risk: "
    + Show(fmt, Get(rs, "valuation_risk", PyStr("N/A"))) + "\nMax Position Size: "
    + fmt(".2f", OrZero(rs, "max_position_size")) + "%\nBear Case Downside: "
    + fmt("+.1f", OrZero(rs, "bear_downside"))
    + "%\n\n[... Full Risk Examiner analysis provided separately ...]\n\n\nKEY FINANCIAL METRICS (5-Year Summary):\n"
    + Light + "\n"
  }

  // ------------------------------------------------------ string ordering

  /** Python's `<` on strings: code point by code point, a proper prefix
      first. */
  predicate LexLess(a: string, b: string)
    decreases |a|
  {
    if a == [] then b != []
    else b != [] && (a[0] < b[0] || (a[0] == b[0] && LexLess(a[1..], b[1..])))
  }

  lemma {:induction false} LexLessIrreflexive(a: string)
    ensures !LexLess(a, a)
    decreases |a|
  {
    if a != [] {
      LexLessIrreflexive(a[1..]);
    }
  }

  lemma {:induction false} LexLessTransitive(a: string, b: string, c: string)
    requires LexLess(a, b) && LexLess(b, c)
    ensures LexLess(a, c)
    decreases |a|
  {
    if a != [] && a[0] == b[0] && b[0] == c[0] {
      LexLessTransitive(a[1..], b[1..], c[1..]);
    }
  }

  lemma {:induction false} LexLessTotal(a: string, b: string)
    ensures a == b || LexLess(a, b) || LexLess(b, a)
    decreases |a|
  {
    if a != [] && b != [] && a[0] == b[0] {
      LexLessTotal(a[1..], b[1..]);
      if a[1..] == b[1..] {
        assert a == [a[0]] + a[1..] && b == [b[0]] + b[1..];
      }
    }
  }

  // ------------------------------------- sorted(keys, reverse=True)[:5]

  /** Each element greater than the next. */
  predicate Descending(xs: seq<string>) {
    forall i :: 0 <= i < |xs| - 1 ==> LexLess(xs[i + 1], xs[i])
  }

  function Insert(x: string, xs: seq<string>): (r: seq<string>)
    ensures |r| == |xs| + 1
    ensures r[0] == x || (xs != [] && r[0] == xs[0])
    ensures multiset(r) == multiset(xs) + multiset{x}
  {
    if xs == [] then [x]
    else if LexLess(xs[0], x) then [x] + xs
    else
      assert xs == [xs[0]] + xs[1..];
      [xs[0]] + Insert(x, xs[1..])
  }

  /** `sorted(xs, reverse=True)` */
  function SortDesc(xs: seq<string>): (r: seq<string>)
    ensures multiset(r) == multiset(xs)
  {
    if xs == [] then []
    else
      assert xs == [xs[0]] + xs[1..];
      Insert(xs[0], SortDesc(xs[1..]))
  }

  lemma {:induction false} InsertDescending(x: string, xs: seq<string>)
    requires Descending(xs) && x !in xs
    ensures Descending(Insert(x, xs))
    decreases |xs|
  {
    if xs != [] && !LexLess(xs[0], x) {
      InsertDescending(x, xs[1..]);
      LexLessTotal(x, xs[0]);
      var r := Insert(x, xs);
      assert r[1..] == Insert(x, xs[1..]);
    }
  }

  lemma {:induction false} SortDescDescending(xs: seq<string>)
    requires forall i, j :: 0 <= i < j < |xs| ==> xs[i] != xs[j]
    ensures Descending(SortDesc(xs))
    decreases |xs|
  {
    if xs != [] {
      SortDescDescending(xs[1..]);
      assert xs[0] !in multiset(xs[1..]);
      assert xs[0] !in SortDesc(xs[1..]);
      InsertDescending(xs[0], SortDesc(xs[1..]));
    }
  }

  /** In a descending list every earlier element is greater than every
      later one. */
  lemma {:induction false} DescendingAll(xs: seq<string>, i: nat, j: nat)
    requires Descending(xs) && i < j < |xs|
    ensures LexLess(xs[j], xs[i])
    decreases j - i
  {
    if j > i + 1 {
      DescendingAll(xs, i + 1, j);
      LexLessTransitive(xs[j], xs[i + 1], xs[i]);
    }
  }

  /** `sorted(financials.keys(), reverse=True)[:5]` */
  function TableYears(fin: Financials): (years: seq<string>)
    ensures |years| == Min(MaxYears, |fin|)
  {
    Take(SortDesc(YearKeys(fin)), MaxYears)
  }

  /** The tabulated years are the five largest keys, largest first: each is
      a key, they descend, and every key left out is smaller than all of
      them. */
  lemma TableYearsAreLargest(fin: Financials)
    requires DistinctYears(fin)
    ensures var years := TableYears(fin);
      && Descending(years)
      && (forall y :: y in years ==> y in YearKeys(fin))
      && (forall k, y :: k in YearKeys(fin) && k !in years && y in years ==> LexLess(k, y))
  {
    var keys := YearKeys(fin);
    var sorted := SortDesc(keys);
    SortDescDescending(keys);
    var years := TableYears(fin);
    forall y | y in years ensures y in keys {
      assert y in multiset(sorted);
    }
    forall k, y | k in keys && k !in years && y in years ensures LexLess(k, y) {
      assert k in multiset(sorted);
      var j :| 0 <= j < |sorted| && sorted[j] == k;
      var i :| 0 <= i < |years| && years[i] == y;
      assert sorted[i] == y;
      DescendingAll(sorted, i, j);
    }
  }

  // ------------------------------------------------------------ the table

  /** A metric's divisor is never zero. */
  type Divisor = r: real | r != 0.0 witness 1.0

  /** A row of the table: caption, key, divisor and suffix. */
  datatype Metric = Metric(caption: string, key: string, divisor: Divisor, suffix: string)

  const Metrics: seq<Metric> := [
    Metric("Revenue ($B)", "total_revenue", 1000000000.0, ""),
    Metric("Revenue Growth", "revenue_growth_yoy", 1.0, "%"),
    Metric("Gross Margin", "gross_margin", 100.0, "%"),
    Metric("Operating Margin", "operating_margin", 100.0, "%"),
    Metric("Net Margin", "net_margin", 100.0, "%"),
    Metric("EPS", "eps", 1.0, ""),
    Metric("FCF ($B)", "free_cash_flow", 1000000000.0, ""),
    Metric("ROE", "roe", 100.0, "%"),
    Metric("ROIC", "roic", 100.0, "%")]

  /** One cell: the scaled value, or "N/A" when the year has no value for
      the metric. */
  function Cell(fmt: Format, fin: Financials, year: string, m: Metric): string
  {
    var v := Get(YearRow(fin, year), m.key, PyNone);
    if v.PyNone? then PadLeft("N/A", 12)
    else fmt(">11.2f", PyFloat((if v.IsNumber() then v.AsReal() else 0.0) / m.divisor)) + m.suffix
  }

  function YearCells(years: seq<string>): (r: seq<string>)
    ensures |r| == |years|
  {
    seq(|years|, i requires 0 <= i < |years| => PadLeft(years[i], 12) + " ")
  }

  function ValueCells(fmt: Format, fin: Financials, years: seq<string>, m: Metric): (r: seq<string>)
    ensures |r| == |years|
  {
    seq(|years|, i requires 0 <= i < |years| => Cell(fmt, fin, years[i], m) + " ")
  }

  function TableHead(years: seq<string>): string {
    "\n" + PadRight("Metric", 25) + " " + Concat(YearCells(years)) + "\n" + TableRule + "\n"
  }

  function MetricRow(fmt: Format, fin: Financials, years: seq<string>, m: Metric): string
  {
    PadRight(m.caption, 25) + " " + Concat(ValueCells(fmt, fin, years, m)) + "\n"
  }

  function MetricRows(fmt: Format, fin: Financials, years: seq<string>): (r: seq<string>)
    ensures |r| == |Metrics|
  {
    seq(|Metrics|, i requires 0 <= i < |Metrics| => MetricRow(fmt, fin, years, Metrics[i]))
  }

  /** The table, left out entirely when there are no years. */
  function Table(fmt: Format, fin: Financials): string {
    var years := TableYears(fin);
    if years == [] then "" else TableHead(years) + Concat(MetricRows(fmt, fin, years))
  }

  /** The inner loop over years for one metric. */
  method RowText(fmt: Format, fin: Financials, years: seq<string>, m: Metric) returns (row: string)
    ensures row == MetricRow(fmt, fin, years, m)
  {
    row := PadRight(m.caption, 25) + " ";
    var head := row;
    for i := 0 to |years|
      invariant row == head + Concat(ValueCells(fmt, fin, years, m)[..i])
    {
      var cell := Cell(fmt, fin, years[i], m) + " ";
      ConcatStep(ValueCells(fmt, fin, years, m)[..i + 1], ValueCells(fmt, fin, years, m)[..i], cell);
      AppendAssoc(head, Concat(ValueCells(fmt, fin, years, m)[..i]), cell);
      row := row + cell;
    }
    assert ValueCells(fmt, fin, years, m)[..|years|] == ValueCells(fmt, fin, years, m);
    row := row + "\n";
  }

  method HeadText(years: seq<string>) returns (t: string)
    ensures t == TableHead(years)
  {
    ghost var cells := YearCells(years);
    t := "\n" + PadRight("Metric", 25) + " ";
    var head := t;
    for i := 0 to |years|
      invariant t == head + Concat(cells[..i])
    {
      var cell := PadLeft(years[i], 12) + " ";
      assert cells[..i + 1] == cells[..i] + [cell];
      ConcatStep(cells[..i + 1], cells[..i], cell);
      AppendAssoc(head, Concat(cells[..i]), cell);
      t := t + cell;
    }
    assert cells[..|years|] == cells;
    t := t + "\n" + TableRule + "\n";
  }

  /** The outer loop over the metrics. */
  method RowsText(fmt: Format, fin: Financials, years: seq<string>) returns (t: string)
    ensures t == Concat(MetricRows(fmt, fin, years))
  {
    ghost var rows := MetricRows(fmt, fin, years);
    t := "";
    for k := 0 to |Metrics|
      invariant t == Concat(rows[..k])
    {
      var row := RowText(fmt, fin, years, Metrics[k]);
      assert rows[..k + 1] == rows[..k] + [row];
      ConcatStep(rows[..k + 1], rows[..k], row);
      t := t + row;
    }
    assert rows[..|Metrics|] == rows;
  }

  /** The header row, then the metric rows over the years. */
  method TableText(fmt: Format, fin: Financials) returns (t: string)
    ensures t == Table(fmt, fin)
  {
    var years := TableYears(fin);
    if years == [] {
      return "";
    }
    var head := HeadText(years);
    var rows := RowsText(fmt, fin, years);
    t := head + rows;
  }

  // ---------------------------------------------------------- the reports

  const ValueHead := "\n\n" + Heavy + "\n                    FULL ANALYST REPORTS (For Reference)\n" + Heavy
    + "\n\nVALUE HUNTER FULL REPORT:\n" + Light + "\n"
  const GrowthHead := "\n\n\nGROWTH ANALYZER FULL REPORT:\n" + Light + "\n"
  const RiskHead := "\n\n\nRISK EXAMINER FULL REPORT:\n" + Light + "\n"
  const Closing := "\n\n\n" + Heavy + "\n                         END OF CONTEXT\n" + Heavy
    + "\n\nNow synthesize these three perspectives and make your final investment decision.\n"

  /** The three full reports after the given front matter. */
  function WithReports(front: string, value: string, growth: string, risk: string): string {
    front + ValueHead + value + GrowthHead + growth + RiskHead + risk + Closing
  }

  function CioContextOf(fmt: Format, ticker: string, fin: Financials, info: Dict, business: string,
                        value: string, growth: string, risk: string, vs: Dict, gs: Dict, rs: Dict): string
  {
    WithReports(Header(fmt, ticker, info, business, vs, gs, rs) + Table(fmt, fin), value, growth, risk)
  }

  /** `format_cio_context`; `data['ticker']` is passed as `ticker`. */
  method FormatCioContext(fmt: Format, ticker: string, fin: Financials, info: Dict, business: string,
                          value: string, growth: string, risk: string, vs: Dict, gs: Dict, rs: Dict)
    returns (context: string)
    ensures context == CioContextOf(fmt, ticker, fin, info, business, value, growth, risk, vs, gs, rs)
  {
    context := Header(fmt, ticker, info, business, vs, gs, rs);
    var table := TableText(fmt, fin);
    context := context + table;
    context := context + ValueHead;
    context := context + value;
    context := context + GrowthHead;
    context := context + growth;
    context := context + RiskHead;
    context := context + risk;
    context := context + Closing;
  }

  // ---------------------------------------------------------- properties

  /** No years, no table. */
  lemma TableOmittedWithoutYears(fmt: Format, fin: Financials)
    ensures Table(fmt, fin) == "" <==> fin == []
  {
    var years := TableYears(fin);
    if years != [] {
      assert |TableHead(years)| > 0;
    }
  }

  /** A year without the metric, or with `None` for it, shows "N/A"
      right-aligned in 12 columns; a number is shown divided by the
      metric's divisor, with its suffix. */
  lemma MissingValueShowsNA(fmt: Format, fin: Financials, year: string, m: Metric)
    ensures var row := YearRow(fin, year);
      (m.key !in row || row[m.key] == PyNone) ==> Cell(fmt, fin, year, m) == "         N/A"
    ensures var row := YearRow(fin, year);
      m.key in row && row[m.key].IsNumber() ==>
        Cell(fmt, fin, year, m) == fmt(">11.2f", PyFloat(row[m.key].AsReal() / m.divisor)) + m.suffix
  {
    assert PadLeft("N/A", 12) == "         N/A";
  }

  /** Only the first 2000 characters of the business analysis matter. */
  lemma BusinessTruncated(fmt: Format, ticker: string, fin: Financials, info: Dict, business: string,
                          other: string, value: string, growth: string, risk: string, vs: Dict, gs: Dict, rs: Dict)
    requires Take(business, MaxBusiness) == Take(other, MaxBusiness)
    ensures CioContextOf(fmt, ticker, fin, info, business, value, growth, risk, vs, gs, rs)
         == CioContextOf(fmt, ticker, fin, info, other, value, growth, risk, vs, gs, rs)
  {
  }

  /** The value, growth and risk reports appear in full and in that order,
      after the header and the table. */
  lemma ReportsVerbatimInOrder(front: string, value: string, growth: string, risk: string)
    ensures var c := WithReports(front, value, growth, risk);
      var p1 := |front| + |ValueHead|;
      var p2 := p1 + |value| + |GrowthHead|;
      var p3 := p2 + |growth| + |RiskHead|;
      && p3 + |risk| <= |c|
      && c[p1..p1 + |value|] == value
      && c[p2..p2 + |growth|] == growth
      && c[p3..p3 + |risk|] == risk
  {
    Positions(front, ValueHead, value, GrowthHead, growth, RiskHead, risk, Closing);
  }

  // ---------------------------------------------------------------- text

  lemma ConcatStep(longer: seq<string>, shorter: seq<string>, last: string)
    requires longer == shorter + [last]
    ensures Concat(longer) == Concat(shorter) + last
  {
    assert longer[..|longer| - 1] == shorter;
  }

  /** Where the parts of an eight-part concatenation sit. */
  lemma Positions(a: string, b: string, c: string, d: string, e: string, f: string, g: string, h: string)
    ensures var t := a + b + c + d + e + f + g + h;
      && |a + b + c + d + e + f + g| <= |t|
      && t[|a + b|..|a + b| + |c|] == c
      && t[|a + b + c + d|..|a + b + c + d| + |e|] == e
      && t[|a + b + c + d + e + f|..|a + b + c + d + e + f| + |g|] == g
  {
    var t := a + b + c + d + e + f + g + h;
    SliceAt(a + b, c, d + e + f + g + h);
    SliceAt(a + b + c + d, e, f + g + h);
    SliceAt(a + b + c + d + e + f, g, h);
    assert a + b + c + (d + e + f + g + h) == t;
    assert a + b + c + d + e + (f + g + h) == t;
  }

  /** The middle of a three-part concatenation sits right after the first. */
  lemma SliceAt(pre: string, mid: string, post: string)
    ensures (pre + mid + post)[|pre|..|pre| + |mid|] == mid
  {
  }
}
