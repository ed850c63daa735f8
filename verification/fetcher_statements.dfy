/** The five-year statement rows built from the annual statements
    (`_get_income_statement_5y`, `_get_balance_sheet_5y`,
    `_get_cash_flow_5y` in data/fetcher_v3.py). The statements themselves
    come from the market-data library and are given here as columns. */
module FetcherStatements {
  import opened Text

  /** One column (fiscal year, most recent first) of a statement: its date
      label and its line items; `col.get(item, 0)` reads a missing item as 0. */
  datatype Column = Column(date: string, items: map<string, real>)

  function Get(c: Column, item: string): real {
    if item in c.items then c.items[item] else 0.0
  }

  /** `str(date)[:10]` */
  function YearOf(c: Column): (y: string)
    ensures |y| == Min(10, |c.date|) && y == c.date[..|y|]
  {
    Take(c.date, 10)
  }

  datatype IncomeRow = IncomeRow(
    year: string, revenue: real, costOfRevenue: real, grossProfit: real, operatingExpenses: real,
    operatingIncome: real, interestExpense: real, netIncome: real, rdExpense: real,
    sgaExpense: real, ebitda: real)

  datatype BalanceRow = BalanceRow(
    year: string, totalAssets: real, currentAssets: real, cash: real, accountsReceivable: real,
    inventory: real, totalLiabilities: real, currentLiabilities: real, longTermDebt: real,
    totalDebt: real, totalEquity: real, retainedEarnings: real, goodwill: real)

  datatype CashFlowRow = CashFlowRow(
    year: string, operatingCashFlow: real, investingCashFlow: real, financingCashFlow: real,
    capex: real, freeCashFlow: real, dividendsPaid: real, stockBuybacks: real)

  /** Interest expense is stored as its absolute value. */
  function IncomeRowOf(c: Column): (r: IncomeRow)
    ensures r.interestExpense >= 0.0 && AbsR(Get(c, "Interest Expense")) == r.interestExpense
    ensures r.revenue == Get(c, "Total Revenue") && r.netIncome == Get(c, "Net Income")
    ensures r.operatingIncome == Get(c, "Operating Income")
  {
    IncomeRow(YearOf(c), Get(c, "Total Revenue"), Get(c, "Cost Of Revenue"), Get(c, "Gross Profit"),
              Get(c, "Operating Expense"), Get(c, "Operating Income"), AbsR(Get(c, "Interest Expense")),
              Get(c, "Net Income"), Get(c, "Research And Development"),
              Get(c, "Selling General And Administrative"), Get(c, "EBITDA"))
  }

  /** Equity is stored under `total_equity`, from the "Stockholders Equity"
      item. */
  function BalanceRowOf(c: Column): (r: BalanceRow)
    ensures r.totalEquity == Get(c, "Stockholders Equity") && r.goodwill == Get(c, "Goodwill")
    ensures r.totalAssets == Get(c, "Total Assets") && r.currentLiabilities == Get(c, "Current Liabilities")
  {
    BalanceRow(YearOf(c), Get(c, "Total Assets"), Get(c, "Current Assets"),
               Get(c, "Cash And Cash Equivalents"), Get(c, "Accounts Receivable"), Get(c, "Inventory"),
               Get(c, "Total Liabilities Net Minority Interest"), Get(c, "Current Liabilities"),
               Get(c, "Long Term Debt"), Get(c, "Total Debt"), Get(c, "Stockholders Equity"),
               Get(c, "Retained Earnings"), Get(c, "Goodwill"))
  }

  /** Free cash flow is operating cash flow less |capex|, whatever the sign
      capex is reported with; capex itself is kept as reported. */
  function CashFlowRowOf(c: Column): (r: CashFlowRow)
    ensures r.freeCashFlow + AbsR(r.capex) == r.operatingCashFlow
    ensures r.freeCashFlow <= r.operatingCashFlow
    ensures r.capex == Get(c, "Capital Expenditure") && r.operatingCashFlow == Get(c, "Operating Cash Flow")
  {
    var ocf, capex := Get(c, "Operating Cash Flow"), Get(c, "Capital Expenditure");
    CashFlowRow(YearOf(c), ocf, Get(c, "Investing Cash Flow"), Get(c, "Financing Cash Flow"),
                capex, ocf - AbsR(capex), Get(c, "Cash Dividends Paid"),
                Get(c, "Repurchase Of Capital Stock"))
  }

  /** At most the five most recent years, most recent first. */
  method IncomeStatements5y(columns: seq<Column>) returns (rows: seq<IncomeRow>)
    ensures |rows| == Min(5, |columns|)
    ensures forall i :: 0 <= i < |rows| ==> rows[i] == IncomeRowOf(columns[i])
    ensures forall i :: 0 <= i < |rows| ==> rows[i].interestExpense >= 0.0
  {
    rows := [];
    var years := Min(5, |columns|);
    for i := 0 to years
      invariant |rows| == i
      invariant forall j :: 0 <= j < i ==> rows[j] == IncomeRowOf(columns[j])
    {
      rows := rows + [IncomeRowOf(columns[i])];
    }
  }

  method BalanceSheets5y(columns: seq<Column>) returns (rows: seq<BalanceRow>)
    ensures |rows| == Min(5, |columns|)
    ensures forall i :: 0 <= i < |rows| ==> rows[i] == BalanceRowOf(columns[i])
  {
    rows := [];
    var years := Min(5, |columns|);
    for i := 0 to years
      invariant |rows| == i
      invariant forall j :: 0 <= j < i ==> rows[j] == BalanceRowOf(columns[j])
    {
      rows := rows + [BalanceRowOf(columns[i])];
    }
  }

  method CashFlows5y(columns: seq<Column>) returns (rows: seq<CashFlowRow>)
    ensures |rows| == Min(5, |columns|)
    ensures forall i :: 0 <= i < |rows| ==> rows[i] == CashFlowRowOf(columns[i])
    ensures forall i :: 0 <= i < |rows| ==> rows[i].freeCashFlow + AbsR(rows[i].capex) == rows[i].operatingCashFlow
  {
    rows := [];
    var years := Min(5, |columns|);
    for i := 0 to years
      invariant |rows| == i
      invariant forall j :: 0 <= j < i ==> rows[j] == CashFlowRowOf(columns[j])
    {
      rows := rows + [CashFlowRowOf(columns[i])];
    }
  }
}
