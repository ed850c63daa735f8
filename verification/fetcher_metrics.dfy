/** The five-year derived metrics (`_calculate_metrics_5y` and its `_calc_*`
    helpers in data/fetcher_v3.py): growth rates and trends, margins,
    returns, leverage and efficiency, year by year and on average. */
module FetcherMetrics {
  import opened Text
  import opened FetcherStatements
  import FinancialCalculator

  // ---------------------------------------------------------------------
  // Guarded ratios and means
  // ---------------------------------------------------------------------

  /** `(num / den * scale) if den > 0 else 0` */
  function Ratio(num: real, den: real, scale: real): (r: real)
    ensures den > 0.0 ==> r * den == num * scale
    ensures den <= 0.0 ==> r == 0.0
  {
    if den > 0.0 then num / den * scale else 0.0
  }

  function Sum(xs: seq<real>): real {
    if xs == [] then 0.0 else Sum(xs[..|xs| - 1]) + xs[|xs| - 1]
  }

  /** `np.mean(xs) if xs else 0` */
  function Mean(xs: seq<real>): (m: real)
    ensures xs == [] ==> m == 0.0
    ensures xs != [] ==> m * |xs| as real == Sum(xs)
  {
    if xs == [] then 0.0 else Sum(xs) / |xs| as real
  }

  lemma {:induction false} SumBounds(xs: seq<real>, lo: real, hi: real)
    requires forall i :: 0 <= i < |xs| ==> lo <= xs[i] <= hi
    ensures lo * |xs| as real <= Sum(xs) <= hi * |xs| as real
  {
    if xs != [] {
      SumBounds(xs[..|xs| - 1], lo, hi);
    }
  }

  /** The mean lies between the smallest and the largest value. */
  lemma MeanBounds(xs: seq<real>, lo: real, hi: real)
    requires xs != []
    requires forall i :: 0 <= i < |xs| ==> lo <= xs[i] <= hi
    ensures lo <= Mean(xs) <= hi
  {
    SumBounds(xs, lo, hi);
    var n := |xs| as real;
    assert lo * n <= Mean(xs) * n <= hi * n;
  }

  // ---------------------------------------------------------------------
  // Growth rates
  // ---------------------------------------------------------------------

  function Positives(xs: seq<real>): (r: seq<real>)
    ensures |r| <= |xs|
    ensures forall i :: 0 <= i < |r| ==> r[i] > 0.0
    ensures forall v :: v in r <==> v in xs && v > 0.0
  {
    if xs == [] then []
    else (if xs[0] > 0.0 then [xs[0]] else []) + Positives(xs[1..])
  }

  function Reverse(xs: seq<real>): (r: seq<real>)
    ensures |r| == |xs|
    ensures forall i :: 0 <= i < |xs| ==> r[i] == xs[|xs| - 1 - i]
  {
    seq(|xs|, i requires 0 <= i < |xs| => xs[|xs| - 1 - i])
  }

  function Revenues(income: seq<IncomeRow>): (r: seq<real>)
    ensures |r| == |income| && forall i :: 0 <= i < |income| ==> r[i] == income[i].revenue
  {
    seq(|income|, i requires 0 <= i < |income| => income[i].revenue)
  }

  function NetIncomes(income: seq<IncomeRow>): (r: seq<real>)
    ensures |r| == |income| && forall i :: 0 <= i < |income| ==> r[i] == income[i].netIncome
  {
    seq(|income|, i requires 0 <= i < |income| => income[i].netIncome)
  }

  function FreeCashFlows(cashflow: seq<CashFlowRow>): (r: seq<real>)
    ensures |r| == |cashflow| && forall i :: 0 <= i < |cashflow| ==> r[i] == cashflow[i].freeCashFlow
  {
    seq(|cashflow|, i requires 0 <= i < |cashflow| => cashflow[i].freeCashFlow)
  }

  datatype GrowthRates = GrowthRates(
    revenueCagr: real, earningsCagr: real, fcfCagr: real,
    revenueTrend: seq<real>, earningsTrend: seq<real>, fcfTrend: seq<real>)

  /** Only positive revenues and non-zero earnings and FCF enter; the trends
      list them oldest first. */
  function GrowthRatesOf(income: seq<IncomeRow>, cashflow: seq<CashFlowRow>, root: FinancialCalculator.Root)
    : (g: GrowthRates)
    ensures -1.0 <= g.revenueCagr <= 2.0 && -1.0 <= g.earningsCagr <= 2.0 && -1.0 <= g.fcfCagr <= 2.0
    ensures g.revenueTrend == Reverse(Positives(Revenues(income)))
    ensures forall i :: 0 <= i < |g.revenueTrend| ==> g.revenueTrend[i] > 0.0
    ensures g.earningsTrend == Reverse(FinancialCalculator.NonZero(NetIncomes(income)))
    ensures forall i :: 0 <= i < |g.earningsTrend| ==> g.earningsTrend[i] != 0.0
    ensures g.fcfTrend == Reverse(FinancialCalculator.NonZero(FreeCashFlows(cashflow)))
    ensures forall i :: 0 <= i < |g.fcfTrend| ==> g.fcfTrend[i] != 0.0
  {
    var revenues := Positives(Revenues(income));
    var earnings := FinancialCalculator.NonZero(NetIncomes(income));
    var fcfs := FinancialCalculator.NonZero(FreeCashFlows(cashflow));
    GrowthRates(FinancialCalculator.Cagr(revenues, root), FinancialCalculator.Cagr(earnings, root),
                FinancialCalculator.Cagr(fcfs, root), Reverse(revenues), Reverse(earnings), Reverse(fcfs))
  }

  /** Where `calculate_cagr` returns, the growth rates are its values. The
      revenue rate, over positive revenues only, always returns; an
      earnings or FCF history that turns from positive to negative over two
      or more periods is where `calculate_cagr` raises, and the rate is
      then a total loss. */
  lemma GrowthRatesAsWritten(income: seq<IncomeRow>, cashflow: seq<CashFlowRow>, root: FinancialCalculator.Root)
    ensures var g := GrowthRatesOf(income, cashflow, root);
      var earnings := FinancialCalculator.CagrAsWritten(FinancialCalculator.NonZero(NetIncomes(income)), root);
      var fcfs := FinancialCalculator.CagrAsWritten(FinancialCalculator.NonZero(FreeCashFlows(cashflow)), root);
      && FinancialCalculator.CagrAsWritten(Positives(Revenues(income)), root) == FinancialCalculator.Rate(g.revenueCagr)
      && (earnings.Rate? ==> earnings.rate == g.earningsCagr)
      && (earnings.ComplexPowerError? ==> g.earningsCagr == -1.0)
      && (fcfs.Rate? ==> fcfs.rate == g.fcfCagr)
      && (fcfs.ComplexPowerError? ==> g.fcfCagr == -1.0)
  {
    FinancialCalculator.PositiveHistoryReturns(Positives(Revenues(income)), root);
  }

  /** Net income of 10, then 5, then −10 (most recent first): the source
      raises, and the model reports a total loss. */
  lemma EarningsSignFlip(income: seq<IncomeRow>, cashflow: seq<CashFlowRow>, root: FinancialCalculator.Root)
    requires NetIncomes(income) == [-10.0, 5.0, 10.0]
    ensures FinancialCalculator.CagrAsWritten(FinancialCalculator.NonZero(NetIncomes(income)), root).ComplexPowerError?
    ensures GrowthRatesOf(income, cashflow, root).earningsCagr == -1.0
  {
    assert FinancialCalculator.NonZero([-10.0, 5.0, 10.0]) == [-10.0, 5.0, 10.0];
  }

  // ---------------------------------------------------------------------
  // Margins, returns, leverage, efficiency
  // ---------------------------------------------------------------------

  datatype MarginRow = MarginRow(year: string, grossMargin: real, operatingMargin: real, netMargin: real)

  /** Margins in percent of revenue. */
  function MarginRowOf(inc: IncomeRow): (m: MarginRow)
    requires inc.revenue > 0.0
    ensures m.grossMargin * inc.revenue == inc.grossProfit * 100.0
    ensures m.operatingMargin * inc.revenue == inc.operatingIncome * 100.0
    ensures m.netMargin * inc.revenue == inc.netIncome * 100.0
  {
    MarginRow(inc.year, Ratio(inc.grossProfit, inc.revenue, 100.0),
              Ratio(inc.operatingIncome, inc.revenue, 100.0), Ratio(inc.netIncome, inc.revenue, 100.0))
  }

  /** The years with positive revenue, in order. */
  function WithRevenue(income: seq<IncomeRow>): (r: seq<IncomeRow>)
    ensures |r| <= |income|
    ensures forall i :: 0 <= i < |r| ==> r[i].revenue > 0.0 && r[i] in income
  {
    if income == [] then []
    else (if income[0].revenue > 0.0 then [income[0]] else []) + WithRevenue(income[1..])
  }

  lemma WithRevenueSnoc(income: seq<IncomeRow>, inc: IncomeRow)
    ensures WithRevenue(income + [inc]) == WithRevenue(income) + (if inc.revenue > 0.0 then [inc] else [])
  {
    if income != [] {
      assert (income + [inc])[1..] == income[1..] + [inc];
      WithRevenueSnoc(income[1..], inc);
    } else {
      assert income + [inc] == [inc];
    }
  }

  datatype Profitability = Profitability(
    marginsByYear: seq<MarginRow>, avgGrossMargin: real, avgOperatingMargin: real, avgNetMargin: real)

  function GrossMargins(ms: seq<MarginRow>): seq<real> {
    seq(|ms|, i requires 0 <= i < |ms| => ms[i].grossMargin)
  }
  function OperatingMargins(ms: seq<MarginRow>): seq<real> {
    seq(|ms|, i requires 0 <= i < |ms| => ms[i].operatingMargin)
  }
  function NetMargins(ms: seq<MarginRow>): seq<real> {
    seq(|ms|, i requires 0 <= i < |ms| => ms[i].netMargin)
  }

  /** One margin row per year with positive revenue, and the mean of each
      margin (0 with no such year). */
  predicate IsProfitability(income: seq<IncomeRow>, p: Profitability) {
    && |p.marginsByYear| == |WithRevenue(income)|
    && (forall i :: 0 <= i < |p.marginsByYear| ==> p.marginsByYear[i] == MarginRowOf(WithRevenue(income)[i]))
    && p.avgGrossMargin == Mean(GrossMargins(p.marginsByYear))
    && p.avgOperatingMargin == Mean(OperatingMargins(p.marginsByYear))
    && p.avgNetMargin == Mean(NetMargins(p.marginsByYear))
  }

  /** `_calc_profitability` */
  method CalcProfitability(income: seq<IncomeRow>) returns (p: Profitability)
    ensures IsProfitability(income, p)
  {
    var margins: seq<MarginRow> := [];
    for i := 0 to |income|
      invariant |margins| == |WithRevenue(income[..i])|
      invariant forall j :: 0 <= j < |margins| ==> margins[j] == MarginRowOf(WithRevenue(income[..i])[j])
    {
      WithRevenueSnoc(income[..i], income[i]);
      assert income[..i + 1] == income[..i] + [income[i]];
      if income[i].revenue > 0.0 {
        margins := margins + [MarginRowOf(income[i])];
      }
    }
    assert income[..|income|] == income;
    p := Profitability(margins, Mean(GrossMargins(margins)), Mean(OperatingMargins(margins)),
                       Mean(NetMargins(margins)));
  }

  datatype ReturnRow = ReturnRow(year: string, roe: real, roa: real, roic: real)

  /** Return on equity and on assets in percent; return on invested capital
      uses operating income over total assets less current liabilities.
      Each is 0 when its denominator is not positive. */
  function ReturnRowOf(inc: IncomeRow, bal: BalanceRow): (r: ReturnRow)
    ensures r.year == inc.year
    ensures r.roe == Ratio(inc.netIncome, bal.totalEquity, 100.0)
    ensures r.roa == Ratio(inc.netIncome, bal.totalAssets, 100.0)
    ensures r.roic == Ratio(inc.operatingIncome, bal.totalAssets - bal.currentLiabilities, 100.0)
    ensures bal.totalEquity <= 0.0 ==> r.roe == 0.0
    ensures bal.totalAssets - bal.currentLiabilities <= 0.0 ==> r.roic == 0.0
  {
    ReturnRow(inc.year, Ratio(inc.netIncome, bal.totalEquity, 100.0),
              Ratio(inc.netIncome, bal.totalAssets, 100.0),
              Ratio(inc.operatingIncome, bal.totalAssets - bal.currentLiabilities, 100.0))
  }

  datatype Returns = Returns(returnsByYear: seq<ReturnRow>, avgRoe: real, avgRoa: real, avgRoic: real)

  function Roes(rs: seq<ReturnRow>): seq<real> { seq(|rs|, i requires 0 <= i < |rs| => rs[i].roe) }
  function Roas(rs: seq<ReturnRow>): seq<real> { seq(|rs|, i requires 0 <= i < |rs| => rs[i].roa) }
  function Roics(rs: seq<ReturnRow>): seq<real> { seq(|rs|, i requires 0 <= i < |rs| => rs[i].roic) }

  /** Income year i is paired with balance year i, for as many years as
      both lists have, and each return is averaged over those years. */
  predicate IsReturns(income: seq<IncomeRow>, balance: seq<BalanceRow>, r: Returns) {
    && |r.returnsByYear| == Min(|income|, |balance|)
    && (forall i :: 0 <= i < |r.returnsByYear| ==> r.returnsByYear[i] == ReturnRowOf(income[i], balance[i]))
    && r.avgRoe == Mean(Roes(r.returnsByYear)) && r.avgRoa == Mean(Roas(r.returnsByYear))
    && r.avgRoic == Mean(Roics(r.returnsByYear))
  }

  /** `_calc_returns` */
  method CalcReturns(income: seq<IncomeRow>, balance: seq<BalanceRow>) returns (r: Returns)
    ensures IsReturns(income, balance, r)
  {
    var rows: seq<ReturnRow> := [];
    for i := 0 to Min(|income|, |balance|)
      invariant |rows| == i
      invariant forall j :: 0 <= j < i ==> rows[j] == ReturnRowOf(income[j], balance[j])
    {
      rows := rows + [ReturnRowOf(income[i], balance[i])];
    }
    r := Returns(rows, Mean(Roes(rows)), Mean(Roas(rows)), Mean(Roics(rows)));
  }

  datatype LeverageRow = LeverageRow(year: string, debtToEquity: real, currentRatio: real)

  function LeverageRowOf(bal: BalanceRow): (l: LeverageRow)
    ensures l.debtToEquity == Ratio(bal.totalDebt, bal.totalEquity, 1.0)
    ensures l.currentRatio == Ratio(bal.currentAssets, bal.currentLiabilities, 1.0)
  {
    LeverageRow(bal.year, Ratio(bal.totalDebt, bal.totalEquity, 1.0),
                Ratio(bal.currentAssets, bal.currentLiabilities, 1.0))
  }

  datatype Leverage = Leverage(leverageByYear: seq<LeverageRow>, avgDebtToEquity: real, avgCurrentRatio: real)

  function DebtToEquities(ls: seq<LeverageRow>): seq<real> {
    seq(|ls|, i requires 0 <= i < |ls| => ls[i].debtToEquity)
  }
  function CurrentRatios(ls: seq<LeverageRow>): seq<real> {
    seq(|ls|, i requires 0 <= i < |ls| => ls[i].currentRatio)
  }

  /** One row per balance-sheet year, and each ratio averaged over them. */
  predicate IsLeverage(balance: seq<BalanceRow>, l: Leverage) {
    && |l.leverageByYear| == |balance|
    && (forall i :: 0 <= i < |balance| ==> l.leverageByYear[i] == LeverageRowOf(balance[i]))
    && l.avgDebtToEquity == Mean(DebtToEquities(l.leverageByYear))
    && l.avgCurrentRatio == Mean(CurrentRatios(l.leverageByYear))
  }

  /** `_calc_leverage` */
  method CalcLeverage(balance: seq<BalanceRow>) returns (l: Leverage)
    ensures IsLeverage(balance, l)
  {
    var rows: seq<LeverageRow> := [];
    for i := 0 to |balance|
      invariant |rows| == i
      invariant forall j :: 0 <= j < i ==> rows[j] == LeverageRowOf(balance[j])
    {
      rows := rows + [LeverageRowOf(balance[i])];
    }
    l := Leverage(rows, Mean(DebtToEquities(rows)), Mean(CurrentRatios(rows)));
  }

  datatype EfficiencyRow = EfficiencyRow(
    year: string, assetTurnover: real, inventoryTurnover: real, daysSalesOutstanding: real)

  /** Days sales outstanding are receivables over revenue times 365. */
  function EfficiencyRowOf(inc: IncomeRow, bal: BalanceRow): (e: EfficiencyRow)
    ensures e.assetTurnover == Ratio(inc.revenue, bal.totalAssets, 1.0)
    ensures e.inventoryTurnover == Ratio(inc.costOfRevenue, bal.inventory, 1.0)
    ensures e.daysSalesOutstanding == Ratio(bal.accountsReceivable, inc.revenue, 365.0)
  {
    EfficiencyRow(inc.year, Ratio(inc.revenue, bal.totalAssets, 1.0),
                  Ratio(inc.costOfRevenue, bal.inventory, 1.0),
                  Ratio(bal.accountsReceivable, inc.revenue, 365.0))
  }

  /** Income year i paired with balance year i. */
  predicate IsEfficiency(income: seq<IncomeRow>, balance: seq<BalanceRow>, rows: seq<EfficiencyRow>) {
    && |rows| == Min(|income|, |balance|)
    && forall i :: 0 <= i < |rows| ==> rows[i] == EfficiencyRowOf(income[i], balance[i])
  }

  /** `_calc_efficiency` */
  method CalcEfficiency(income: seq<IncomeRow>, balance: seq<BalanceRow>) returns (rows: seq<EfficiencyRow>)
    ensures IsEfficiency(income, balance, rows)
  {
    rows := [];
    for i := 0 to Min(|income|, |balance|)
      invariant |rows| == i
      invariant forall j :: 0 <= j < i ==> rows[j] == EfficiencyRowOf(income[j], balance[j])
    {
      rows := rows + [EfficiencyRowOf(income[i], balance[i])];
    }
  }

  datatype Metrics = Metrics(
    growthRates: GrowthRates, profitability: Profitability, returnsOnCapital: Returns, leverage: Leverage,
    efficiency: seq<EfficiencyRow>)

  /** `_calculate_metrics_5y`: no metrics (`{}`) unless all three statements
      have rows. */
  method CalculateMetrics5y(income: seq<IncomeRow>, balance: seq<BalanceRow>, cashflow: seq<CashFlowRow>,
                            root: FinancialCalculator.Root)
    returns (m: Option<Metrics>)
    ensures m.None? <==> income == [] || balance == [] || cashflow == []
    ensures m.Some? ==>
      && m.value.growthRates == GrowthRatesOf(income, cashflow, root)
      && IsProfitability(income, m.value.profitability)
      && IsReturns(income, balance, m.value.returnsOnCapital)
      && IsLeverage(balance, m.value.leverage)
      && IsEfficiency(income, balance, m.value.efficiency)
  {
    if income == [] || balance == [] || cashflow == [] {
      return None;
    }
    var profitability := CalcProfitability(income);
    var rets := CalcReturns(income, balance);
    var leverage := CalcLeverage(balance);
    var efficiency := CalcEfficiency(income, balance);
    m := Some(Metrics(GrowthRatesOf(income, cashflow, root), profitability, rets, leverage, efficiency));
  }
}
