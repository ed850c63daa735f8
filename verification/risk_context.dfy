/** The context handed to the risk examiner (`format_risk_context` in
    agents/risk_examiner_prompts.py): an overview, then the sections for
    the statement rows, red flags, news and the other analysts' reports,
    each present only when its data is. */
module RiskContext {
  import opened Text
  import opened Records
  import FetcherStatements

  /** The 80-character rule between sections. */
  const Bar := "================================================================================"

  /** The parts of the fetched data the builder reads; `None` is a key
      missing from the data dictionary. */
  datatype RiskData = RiskData(
    balance: Option<seq<Dict>>,                // data['balance_5y']
    income: Option<seq<Dict>>,                 // data['income_5y']
    cashflow: Option<seq<Dict>>,               // data['cashflow_5y']
    redFlags: Option<seq<(string, PyVal)>>,    // data['red_flags'], in insertion order
    news: Option<seq<Dict>>)                   // data['news']

  /** Titles beyond this many are not listed. */
  const MaxTitles: nat := 15

  /** Other analysts' reports are cut to this many characters. */
  const MaxReport: nat := 2000

  /** The key the balance rows are read with for equity. */
  const EquityKey := "shareholders_equity"

  /** `d.get(key, 0) / 1e9` */
  function Billions(d: Dict, key: string): PyVal {
    PyFloat(Num(d, key) / 1000000000.0)
  }

  function Overview(fmt: Format, info: Dict, business: string): string {
    "\n" + Bar + "\nCOMPANY OVERVIEW\n" + Bar + "\n\n**Company**: " + Show(fmt, Get(info, "longName", PyStr("N/A")))
    + "\n**Ticker**: " + Show(fmt, Get(info, "symbol", PyStr("N/A")))
    + "\n**Sector**: " + Show(fmt, Get(info, "sector", PyStr("N/A")))
    + "\n**Industry**: " + Show(fmt, Get(info, "industry", PyStr("N/A")))
    + "\n**Market Cap**: $" + fmt(".2f", Billions(info, "marketCap"))
    + "B\n**Current Price**: $" + fmt(".2f", Get(info, "currentPrice", PyInt(0)))
    + "\n\n" + Bar + "\nBUSINESS CONTEXT\n" + Bar + "\n\n" + business
    + "\n\n" + Bar + "\n5-YEAR FINANCIAL DATA FOR RED FLAGS DETECTION\n" + Bar + "\n"
  }

  // ---------------------------------------------------------------- balance

  function BalanceLine(fmt: Format, row: Dict): string {
    Show(fmt, Get(row, "year", PyStr("N/A"))) + ": Cash $" + fmt(".1f", Billions(row, "cash"))
    + "B, Debt $" + fmt(".1f", Billions(row, "total_debt"))
    + "B, Equity $" + fmt(".1f", Billions(row, EquityKey))
    + "B, A/R $" + fmt(".1f", Billions(row, "accounts_receivable"))
    + "B, Inv $" + fmt(".1f", Billions(row, "inventory")) + "B\n"
  }

  /** One line per balance row, in order. */
  function BalanceLines(fmt: Format, rows: seq<Dict>): (r: seq<string>)
    ensures |r| == |rows| && forall i :: 0 <= i < |rows| ==> r[i] == BalanceLine(fmt, rows[i])
  {
    seq(|rows|, i requires 0 <= i < |rows| => BalanceLine(fmt, rows[i]))
  }

  const BalanceHead := "\n### BALANCE SHEET METRICS (5-Year)\n"
  const Fence := "```\n"

  /** The balance section is there only for a present, non-empty list. */
  function BalanceSection(fmt: Format, balance: Option<seq<Dict>>): (r: string)
    ensures r == "" <==> balance.None? || balance.value == []
  {
    if balance.Some? && balance.value != [] then
      BalanceHead + Fence + Concat(BalanceLines(fmt, balance.value)) + Fence
    else ""
  }

  method BalanceText(fmt: Format, rows: seq<Dict>) returns (s: string)
    requires rows != []
    ensures s == BalanceSection(fmt, Some(rows))
  {
    s := BalanceHead;
    s := s + Fence;
    for i := 0 to |rows|
      invariant s == BalanceHead + Fence + Concat(BalanceLines(fmt, rows[..i]))
    {
      var line := BalanceLine(fmt, rows[i]);
      ConcatStep(BalanceLines(fmt, rows[..i + 1]), BalanceLines(fmt, rows[..i]), line);
      AppendAssoc(BalanceHead + Fence, Concat(BalanceLines(fmt, rows[..i])), line);
      s := s + line;
    }
    assert rows[..|rows|] == rows;
    s := s + Fence;
  }

  // ------------------------------------------------------- FCF vs net income

  /** `(fcf / ni * 100) if ni != 0 else 0` on amounts in billions. */
  function FcfRatio(ni: real, fcf: real): (r: PyVal)
    ensures ni == 0.0 ==> r == PyInt(0)
    ensures ni != 0.0 ==> r.PyFloat? && r.f * ni == fcf * 100.0
  {
    if ni != 0.0 then PyFloat(fcf / ni * 100.0) else PyInt(0)
  }

  function FcfLine(fmt: Format, inc: Dict, cf: Dict): string {
    var ni := Num(inc, "net_income") / 1000000000.0;
    var fcf := Num(cf, "free_cash_flow") / 1000000000.0;
    Show(fmt, Get(inc, "year", PyStr("N/A"))) + ": NI $" + fmt(".1f", PyFloat(ni))
    + "B, FCF $" + fmt(".1f", PyFloat(fcf)) + "B, FCF/NI Ratio: " + fmt(".0f", FcfRatio(ni, fcf)) + "%\n"
  }

  /** Income year i is paired with cash-flow year i, for as many years as
      both lists have. */
  function FcfLines(fmt: Format, income: seq<Dict>, cashflow: seq<Dict>): (r: seq<string>)
    ensures |r| == Min(|income|, |cashflow|)
  {
    seq(Min(|income|, |cashflow|), i requires 0 <= i < Min(|income|, |cashflow|) => FcfLine(fmt, income[i], cashflow[i]))
  }

  const FcfHead := "\n### FCF vs NET INCOME COMPARISON (Red Flag Check)\n"

  /** Present whenever both lists are, even when empty. */
  function FcfSection(fmt: Format, income: Option<seq<Dict>>, cashflow: Option<seq<Dict>>): string {
    if income.Some? && cashflow.Some? then
      FcfHead + Fence + Concat(FcfLines(fmt, income.value, cashflow.value)) + Fence
    else ""
  }

  /** The section is there exactly when both lists are, even when they
      are empty. */
  lemma FcfSectionPresence(fmt: Format, income: Option<seq<Dict>>, cashflow: Option<seq<Dict>>)
    ensures FcfSection(fmt, income, cashflow) == "" <==> income.None? || cashflow.None?
  {
    assert |FcfHead| > 0;
  }

  /** The loop over income years skips those without a cash-flow year. */
  method FcfText(fmt: Format, income: seq<Dict>, cashflow: seq<Dict>) returns (s: string)
    ensures s == FcfSection(fmt, Some(income), Some(cashflow))
  {
    s := FcfHead;
    s := s + Fence;
    for i := 0 to |income|
      invariant s == FcfHead + Fence + Concat(FcfLines(fmt, income[..i], cashflow))
    {
      FcfLinesStep(fmt, income, cashflow, i);
      if i < |cashflow| {
        var line := FcfLine(fmt, income[i], cashflow[i]);
        ConcatStep(FcfLines(fmt, income[..i + 1], cashflow), FcfLines(fmt, income[..i], cashflow), line);
        AppendAssoc(FcfHead + Fence, Concat(FcfLines(fmt, income[..i], cashflow)), line);
        s := s + line;
      }
    }
    assert income[..|income|] == income;
    s := s + Fence;
  }

  /** Line i pairs income year i with cash-flow year i. */
  lemma FcfLinesPairing(fmt: Format, income: seq<Dict>, cashflow: seq<Dict>, i: nat)
    requires i < Min(|income|, |cashflow|)
    ensures FcfLines(fmt, income, cashflow)[i] == FcfLine(fmt, income[i], cashflow[i])
  {
  }

  lemma FcfLinesStep(fmt: Format, income: seq<Dict>, cashflow: seq<Dict>, i: nat)
    requires i < |income|
    ensures i < |cashflow| ==>
      FcfLines(fmt, income[..i + 1], cashflow) == FcfLines(fmt, income[..i], cashflow) + [FcfLine(fmt, income[i], cashflow[i])]
    ensures i >= |cashflow| ==> FcfLines(fmt, income[..i + 1], cashflow) == FcfLines(fmt, income[..i], cashflow)
  {
    var a, b := FcfLines(fmt, income[..i + 1], cashflow), FcfLines(fmt, income[..i], cashflow);
    forall j | 0 <= j < |b| ensures a[j] == b[j] {
      assert income[..i + 1][j] == income[..i][j];
    }
    if i < |cashflow| {
      assert a[..i] == b;
    }
  }

  // --------------------------------------------------------------- red flags

  function FlagLine(fmt: Format, flag: (string, PyVal)): string {
    "- **" + flag.0 + "**: " + Show(fmt, flag.1) + "\n"
  }

  function FlagLines(fmt: Format, flags: seq<(string, PyVal)>): (r: seq<string>)
    ensures |r| == |flags| && forall i :: 0 <= i < |flags| ==> r[i] == FlagLine(fmt, flags[i])
  {
    seq(|flags|, i requires 0 <= i < |flags| => FlagLine(fmt, flags[i]))
  }

  const FlagsHead := "\n### PRE-IDENTIFIED RED FLAGS\n"

  /** Present whenever the key is, even for an empty dictionary. */
  function FlagsSection(fmt: Format, flags: Option<seq<(string, PyVal)>>): string {
    if flags.Some? then FlagsHead + Concat(FlagLines(fmt, flags.value)) else ""
  }

  method FlagsText(fmt: Format, flags: seq<(string, PyVal)>) returns (s: string)
    ensures s == FlagsSection(fmt, Some(flags))
  {
    s := FlagsHead;
    for i := 0 to |flags|
      invariant s == FlagsHead + Concat(FlagLines(fmt, flags[..i]))
    {
      var line := FlagLine(fmt, flags[i]);
      ConcatStep(FlagLines(fmt, flags[..i + 1]), FlagLines(fmt, flags[..i]), line);
      AppendAssoc(FlagsHead, Concat(FlagLines(fmt, flags[..i])), line);
      s := s + line;
    }
    assert flags[..|flags|] == flags;
  }

  // -------------------------------------------------------------------- news

  /** The title line numbered `n`, from 1. */
  function TitleLine(fmt: Format, n: nat, article: Dict): string {
    NatToString(n) + ". " + Show(fmt, Get(article, "title", PyStr("No title"))) + "\n"
  }

  /** The first 15 articles, numbered from 1. */
  function TitleLines(fmt: Format, news: seq<Dict>): (r: seq<string>)
    ensures |r| == Min(MaxTitles, |news|)
    ensures forall i :: 0 <= i < |r| ==> r[i] == TitleLine(fmt, i + 1, news[i])
  {
    var shown := Take(news, MaxTitles);
    seq(|shown|, i requires 0 <= i < |shown| => TitleLine(fmt, i + 1, shown[i]))
  }

  const NewsHead := "RECENT NEWS (Risk Identification)\n"

  function NewsSection(fmt: Format, news: Option<seq<Dict>>): string {
    if news.Some? && news.value != [] then
      "\n" + Bar + "\n" + NewsHead + Bar + "\n\n" + Concat(TitleLines(fmt, news.value)) + "\n"
    else ""
  }

  method NewsText(fmt: Format, news: seq<Dict>) returns (s: string)
    requires news != []
    ensures s == NewsSection(fmt, Some(news))
  {
    s := "\n" + Bar + "\n";
    s := s + NewsHead;
    s := s + Bar + "\n\n";
    var head := s;
    var shown := Take(news, MaxTitles);
    for i := 0 to |shown|
      invariant s == head + Concat(TitleLines(fmt, news)[..i])
    {
      var line := TitleLine(fmt, i + 1, shown[i]);
      ConcatStep(TitleLines(fmt, news)[..i + 1], TitleLines(fmt, news)[..i], line);
      AppendAssoc(head, Concat(TitleLines(fmt, news)[..i]), line);
      s := s + line;
    }
    assert TitleLines(fmt, news)[..|shown|] == TitleLines(fmt, news);
    s := s + "\n";
  }

  // ------------------------------------------------------ analysts' reports

  /** A report, cut to 2000 characters, when it was supplied and is not
      empty (`if value_analysis:`). */
  function ReportSection(heading: string, agent: string, report: Option<string>): string {
    if report.Some? && report.value != "" then
      ReportHead(heading) + Take(report.value, MaxReport) + ReportTail(agent)
    else ""
  }

  function ReportHead(heading: string): string {
    "\n" + Bar + "\n" + heading + "\n" + Bar + "\n\n"
  }

  function ReportTail(agent: string): string {
    "\n\n[... rest of " + agent + " analysis ...]\n"
  }

  function ValueSection(value: Option<string>): string {
    ReportSection("VALUE HUNTER ANALYSIS (To Challenge)", "Value Hunter", value)
  }

  function GrowthSection(growth: Option<string>): string {
    ReportSection("GROWTH ANALYZER ANALYSIS (To Challenge)", "Growth Analyzer", growth)
  }

  // ------------------------------------------------------------ the context

  /** The sections in their fixed order. */
  function RiskContextOf(fmt: Format, data: RiskData, business: string, info: Dict,
                         value: Option<string>, growth: Option<string>): string
  {
    Overview(fmt, info, business) + BalanceSection(fmt, data.balance)
    + FcfSection(fmt, data.income, data.cashflow) + FlagsSection(fmt, data.redFlags)
    + NewsSection(fmt, data.news) + ValueSection(value) + GrowthSection(growth)
  }

  /** `format_risk_context` */
  method FormatRiskContext(fmt: Format, data: RiskData, business: string, info: Dict,
                           value: Option<string>, growth: Option<string>) returns (context: string)
    ensures context == RiskContextOf(fmt, data, business, info, value, growth)
  {
    context := Overview(fmt, info, business);
    var balance := "";
    if data.balance.Some? && data.balance.value != [] {
      balance := BalanceText(fmt, data.balance.value);
    }
    assert balance == BalanceSection(fmt, data.balance);
    context := context + balance;
    var fcf := "";
    if data.income.Some? && data.cashflow.Some? {
      fcf := FcfText(fmt, data.income.value, data.cashflow.value);
    }
    assert fcf == FcfSection(fmt, data.income, data.cashflow);
    context := context + fcf;
    var flags := "";
    if data.redFlags.Some? {
      flags := FlagsText(fmt, data.redFlags.value);
    }
    assert flags == FlagsSection(fmt, data.redFlags);
    context := context + flags;
    var news := "";
    if data.news.Some? && data.news.value != [] {
      news := NewsText(fmt, data.news.value);
    }
    assert news == NewsSection(fmt, data.news);
    context := context + news;
    context := context + ValueSection(value);
    context := context + GrowthSection(growth);
  }

  // -------------------------------------------------------------- properties

  /** A report is shown only when supplied and non-empty, and only its
      first 2000 characters matter. */
  lemma ReportTruncated(heading: string, agent: string, report: Option<string>, other: Option<string>)
    ensures report.None? ==> ReportSection(heading, agent, report) == ReportSection(heading, agent, Some(""))
    ensures report.Some? && other.Some? && report.value != "" && other.value != ""
            && Take(report.value, MaxReport) == Take(other.value, MaxReport)
            ==> ReportSection(heading, agent, report) == ReportSection(heading, agent, other)
    ensures report.Some? && report.value != "" ==>
            |Take(report.value, MaxReport)| <= MaxReport
            && Contains(ReportSection(heading, agent, report), Take(report.value, MaxReport))
  {
    if report.Some? && report.value != "" {
      ContainsInfix(ReportHead(heading), Take(report.value, MaxReport), ReportTail(agent));
    }
  }

  /** Titles after the fifteenth never reach the context. */
  lemma OnlyFirstTitlesMatter(fmt: Format, news: seq<Dict>, other: seq<Dict>)
    requires news != [] && other != []
    requires Take(news, MaxTitles) == Take(other, MaxTitles)
    ensures NewsSection(fmt, Some(news)) == NewsSection(fmt, Some(other))
  {
    var a, b := TitleLines(fmt, news), TitleLines(fmt, other);
    forall i | 0 <= i < |a| ensures a[i] == b[i] {
      assert news[i] == Take(news, MaxTitles)[i];
      assert other[i] == Take(other, MaxTitles)[i];
    }
  }

  /** Income years without a cash-flow year are never shown. */
  lemma UnpairedIncomeIgnored(fmt: Format, income: seq<Dict>, cashflow: seq<Dict>)
    ensures FcfLines(fmt, income, cashflow) == FcfLines(fmt, Take(income, |cashflow|), cashflow)
  {
  }

  /** The fetcher's balance rows, as the dictionaries it builds. */
  function BalanceDict(b: FetcherStatements.BalanceRow): (d: Dict)
    ensures "total_equity" in d && d["total_equity"] == PyFloat(b.totalEquity)
  {
    map[
      "year" := PyStr(b.year), "total_assets" := PyFloat(b.totalAssets),
      "current_assets" := PyFloat(b.currentAssets), "cash" := PyFloat(b.cash),
      "accounts_receivable" := PyFloat(b.accountsReceivable), "inventory" := PyFloat(b.inventory),
      "total_liabilities" := PyFloat(b.totalLiabilities), "current_liabilities" := PyFloat(b.currentLiabilities),
      "long_term_debt" := PyFloat(b.longTermDebt), "total_debt" := PyFloat(b.totalDebt),
      "total_equity" := PyFloat(b.totalEquity), "retained_earnings" := PyFloat(b.retainedEarnings),
      "goodwill" := PyFloat(b.goodwill)]
  }

  /** The fetcher stores equity as `total_equity`, and this builder reads
      `shareholders_equity`: every such row shows equity 0.0B, whatever the
      statement says. */
  lemma FetcherEquityShownAsZero(b: FetcherStatements.BalanceRow)
    ensures EquityKey !in BalanceDict(b)
    ensures Billions(BalanceDict(b), EquityKey) == PyFloat(0.0)
  {
  }

  // ------------------------------------------------------------------ text

  /** Splitting a concatenation's last part off. */
  lemma ConcatStep(longer: seq<string>, shorter: seq<string>, last: string)
    requires longer == shorter + [last]
    ensures Concat(longer) == Concat(shorter) + last
  {
    assert longer[..|longer| - 1] == shorter;
  }

  /** A middle part is found in the whole. */
  lemma {:induction false} ContainsInfix(before: string, middle: string, after: string)
    ensures Contains(before + middle + after, middle)
    decreases |before|
  {
    if before == [] {
      assert before + middle + after == middle + after;
      assert (middle + after)[..|middle|] == middle;
    } else {
      assert (before + middle + after)[1..] == before[1..] + middle + after;
      ContainsInfix(before[1..], middle, after);
    }
  }
}
