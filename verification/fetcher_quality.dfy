/** The red-flag screen of the most recent statements
    (`_calculate_quality_indicators` in data/fetcher_v3.py). */
module FetcherQuality {
  import opened Text
  import opened FetcherStatements

  /** The six checks, in the order they are made. */
  datatype FlagKind =
    | ReceivablesGrowth   // revenue quality
    | ProfitQuality       // free cash flow against net income
    | InventoryBuildup
    | HighGoodwill        // balance sheet
    | LowInterestCoverage // debt coverage
    | Liquidity           // current ratio

  function Rank(k: FlagKind): (r: nat)
    ensures r < 6
  {
    match k
    case ReceivablesGrowth => 0
    case ProfitQuality => 1
    case InventoryBuildup => 2
    case HighGoodwill => 3
    case LowInterestCoverage => 4
    case Liquidity => 5
  }

  datatype Severity = Medium | High

  function SeverityOf(k: FlagKind): Severity {
    if k == ReceivablesGrowth || k == InventoryBuildup then Medium else High
  }

  /** A raised flag; its category and text are fixed by its kind. The
      detail text, which quotes the figures that raised it, is not kept. */
  datatype RedFlag = RedFlag(kind: FlagKind, severity: Severity)

  /** Interest coverage is `float('inf')` without interest expense. */
  datatype Coverage = Finite(times: real) | Unbounded

  datatype QualityIndicators = QualityIndicators(
    redFlags: seq<RedFlag>, redFlagCount: nat, fcfToNiRatio: real, goodwillPct: real,
    interestCoverage: Coverage)

  /** Year-over-year growth, 0 when the prior value is not positive. */
  function Growth(current: real, prior: real): (g: real)
    ensures prior > 0.0 ==> prior * (1.0 + g) == current
    ensures prior <= 0.0 ==> g == 0.0
  {
    if prior > 0.0 then (current - prior) / prior else 0.0
  }

  function GoodwillPct(b: BalanceRow): real {
    if b.totalAssets > 0.0 then b.goodwill / b.totalAssets * 100.0 else 0.0
  }

  /** The current ratio defaults to 0 when current liabilities are not
      positive. */
  function CurrentRatio(b: BalanceRow): real {
    if b.currentLiabilities > 0.0 then b.currentAssets / b.currentLiabilities else 0.0
  }

  function InterestCoverage(inc: IncomeRow): Coverage {
    if inc.interestExpense > 0.0 then Finite(inc.operatingIncome / inc.interestExpense) else Unbounded
  }

  function FcfToNi(fcf: real, ni: real): real {
    if ni > 0.0 then fcf / ni else 0.0
  }

  /** When each check raises its flag, stated on the rows alone. */
  predicate Raised(k: FlagKind, income: seq<IncomeRow>, balance: seq<BalanceRow>, cashflow: seq<CashFlowRow>)
    requires income != [] && balance != [] && cashflow != []
  {
    match k
    case ReceivablesGrowth =>
      |income| >= 2 && |balance| >= 2 &&
      var revenue := Growth(income[0].revenue, income[1].revenue);
      var receivables := Growth(balance[0].accountsReceivable, balance[1].accountsReceivable);
      receivables > revenue && receivables > 0.05
    case ProfitQuality =>
      income[0].netIncome > 0.0 && cashflow[0].freeCashFlow < income[0].netIncome * 0.8
    case InventoryBuildup =>
      |income| >= 2 && |balance| >= 2 &&
      var revenue := Growth(income[0].revenue, income[1].revenue);
      var inventory := Growth(balance[0].inventory, balance[1].inventory);
      inventory > revenue && inventory > 0.10
    case HighGoodwill =>
      balance[0].totalAssets > 0.0 && balance[0].goodwill * 100.0 > 30.0 * balance[0].totalAssets
    case LowInterestCoverage =>
      income[0].interestExpense > 0.0 && income[0].operatingIncome < 3.0 * income[0].interestExpense
    case Liquidity =>
      balance[0].currentLiabilities <= 0.0 || balance[0].currentAssets < balance[0].currentLiabilities
  }

  predicate HasFlag(flags: seq<RedFlag>, k: FlagKind) {
    exists i :: 0 <= i < |flags| && flags[i].kind == k
  }

  /** Flags listed in check order, so each at most once. */
  predicate InCheckOrder(flags: seq<RedFlag>) {
    forall i, j :: 0 <= i < j < |flags| ==> Rank(flags[i].kind) < Rank(flags[j].kind)
  }

  /** Every flag carries its kind's severity. */
  predicate WellRated(flags: seq<RedFlag>) {
    forall i :: 0 <= i < |flags| ==> flags[i].severity == SeverityOf(flags[i].kind)
  }

  /** Every listed flag comes from a check made before the one of rank `n`. */
  predicate RanksBelow(flags: seq<RedFlag>, n: nat) {
    forall i :: 0 <= i < |flags| ==> Rank(flags[i].kind) < n
  }

  /** What `red_flags.append(...)` adds for one check: its flag when the
      check fired, nothing otherwise. */
  function FlagIf(fired: bool, k: FlagKind): (f: seq<RedFlag>)
    ensures |f| <= 1 && (forall i :: 0 <= i < |f| ==> f[i].kind == k)
  {
    if fired then [RedFlag(k, SeverityOf(k))] else []
  }

  /** The flags the six checks raise, in check order. */
  function FlagList(receivables: bool, profit: bool, inventory: bool, goodwill: bool, lowCoverage: bool,
                    illiquid: bool): seq<RedFlag>
  {
    FlagIf(receivables, ReceivablesGrowth) + FlagIf(profit, ProfitQuality) + FlagIf(inventory, InventoryBuildup)
    + FlagIf(goodwill, HighGoodwill) + FlagIf(lowCoverage, LowInterestCoverage) + FlagIf(illiquid, Liquidity)
  }

  /** A kind is listed in a concatenation when it is listed in either part. */
  lemma HasFlagConcat(a: seq<RedFlag>, b: seq<RedFlag>, k: FlagKind)
    ensures HasFlag(a + b, k) <==> HasFlag(a, k) || HasFlag(b, k)
  {
    var r := a + b;
    if HasFlag(r, k) {
      var i :| 0 <= i < |r| && r[i].kind == k;
      if i < |a| {
        assert a[i].kind == k;
      } else {
        assert b[i - |a|].kind == k;
      }
    }
    if HasFlag(a, k) {
      var i :| 0 <= i < |a| && a[i].kind == k;
      assert r[i].kind == k;
    }
    if HasFlag(b, k) {
      var i :| 0 <= i < |b| && b[i].kind == k;
      assert r[|a| + i].kind == k;
    }
  }

  /** Which check raises the flag of kind `k`. */
  function Fired(k: FlagKind, receivables: bool, profit: bool, inventory: bool, goodwill: bool,
                 lowCoverage: bool, illiquid: bool): bool
  {
    match k
    case ReceivablesGrowth => receivables
    case ProfitQuality => profit
    case InventoryBuildup => inventory
    case HighGoodwill => goodwill
    case LowInterestCoverage => lowCoverage
    case Liquidity => illiquid
  }

  /** Each kind is listed exactly when its check fired. */
  lemma FlagListKinds(receivables: bool, profit: bool, inventory: bool, goodwill: bool,
                      lowCoverage: bool, illiquid: bool, k: FlagKind)
    ensures HasFlag(FlagList(receivables, profit, inventory, goodwill, lowCoverage, illiquid), k)
      == Fired(k, receivables, profit, inventory, goodwill, lowCoverage, illiquid)
  {
    var f1 := FlagIf(receivables, ReceivablesGrowth);
    var f2 := FlagIf(profit, ProfitQuality);
    var f3 := FlagIf(inventory, InventoryBuildup);
    var f4 := FlagIf(goodwill, HighGoodwill);
    var f5 := FlagIf(lowCoverage, LowInterestCoverage);
    var f6 := FlagIf(illiquid, Liquidity);
    HasFlagConcat(f1, f2, k);
    HasFlagConcat(f1 + f2, f3, k);
    HasFlagConcat(f1 + f2 + f3, f4, k);
    HasFlagConcat(f1 + f2 + f3 + f4, f5, k);
    HasFlagConcat(f1 + f2 + f3 + f4 + f5, f6, k);
    HasFlagIf(receivables, ReceivablesGrowth, k);
    HasFlagIf(profit, ProfitQuality, k);
    HasFlagIf(inventory, InventoryBuildup, k);
    HasFlagIf(goodwill, HighGoodwill, k);
    HasFlagIf(lowCoverage, LowInterestCoverage, k);
    HasFlagIf(illiquid, Liquidity, k);
  }

  lemma HasFlagIf(fired: bool, k: FlagKind, k': FlagKind)
    ensures HasFlag(FlagIf(fired, k), k') <==> fired && k' == k
  {
    if fired && k' == k {
      assert FlagIf(fired, k)[0].kind == k';
    }
  }

  /** Appending one check's outcome after the earlier checks' keeps the
      list ordered and rated. */
  lemma AppendOrdered(flags: seq<RedFlag>, fired: bool, k: FlagKind)
    requires InCheckOrder(flags) && WellRated(flags) && RanksBelow(flags, Rank(k)) && |flags| <= Rank(k)
    ensures var r := flags + FlagIf(fired, k);
      InCheckOrder(r) && WellRated(r) && RanksBelow(r, Rank(k) + 1) && |r| <= Rank(k) + 1
  {
  }

  /** The list is in check order, rated, and at most six long. */
  lemma FlagListOrdered(receivables: bool, profit: bool, inventory: bool, goodwill: bool,
                        lowCoverage: bool, illiquid: bool)
    ensures var flags := FlagList(receivables, profit, inventory, goodwill, lowCoverage, illiquid);
      InCheckOrder(flags) && WellRated(flags) && |flags| <= 6
  {
    var f0: seq<RedFlag> := [];
    AppendOrdered(f0, receivables, ReceivablesGrowth);
    var f1 := f0 + FlagIf(receivables, ReceivablesGrowth);
    assert f1 == FlagIf(receivables, ReceivablesGrowth);
    AppendOrdered(f1, profit, ProfitQuality);
    var f2 := f1 + FlagIf(profit, ProfitQuality);
    AppendOrdered(f2, inventory, InventoryBuildup);
    var f3 := f2 + FlagIf(inventory, InventoryBuildup);
    AppendOrdered(f3, goodwill, HighGoodwill);
    var f4 := f3 + FlagIf(goodwill, HighGoodwill);
    AppendOrdered(f4, lowCoverage, LowInterestCoverage);
    var f5 := f4 + FlagIf(lowCoverage, LowInterestCoverage);
    AppendOrdered(f5, illiquid, Liquidity);
  }

  /** `_calculate_quality_indicators`: nothing (`{}`) unless all three
      statements have rows; otherwise a flag is listed exactly when its
      check fires, in check order, with its count. */
  method CalculateQualityIndicators(income: seq<IncomeRow>, balance: seq<BalanceRow>, cashflow: seq<CashFlowRow>)
    returns (q: Option<QualityIndicators>)
    ensures q.None? <==> income == [] || balance == [] || cashflow == []
    ensures q.Some? ==>
      && (forall k :: HasFlag(q.value.redFlags, k) <==> Raised(k, income, balance, cashflow))
      && InCheckOrder(q.value.redFlags)
      && (forall i :: 0 <= i < |q.value.redFlags| ==>
            q.value.redFlags[i].severity == SeverityOf(q.value.redFlags[i].kind))
      && q.value.redFlagCount == |q.value.redFlags| <= 6
      && q.value.goodwillPct == GoodwillPct(balance[0])
      && q.value.fcfToNiRatio == FcfToNi(cashflow[0].freeCashFlow, income[0].netIncome)
      && q.value.interestCoverage == InterestCoverage(income[0])
  {
    if income == [] || balance == [] || cashflow == [] {
      return None;
    }
    var receivables, profit, inventory, goodwill, lowCoverage, illiquid := RunChecks(income, balance, cashflow);
    var flags: seq<RedFlag> := [];
    flags := flags + FlagIf(receivables, ReceivablesGrowth);
    flags := flags + FlagIf(profit, ProfitQuality);
    flags := flags + FlagIf(inventory, InventoryBuildup);
    flags := flags + FlagIf(goodwill, HighGoodwill);
    flags := flags + FlagIf(lowCoverage, LowInterestCoverage);
    flags := flags + FlagIf(illiquid, Liquidity);
    assert flags == FlagList(receivables, profit, inventory, goodwill, lowCoverage, illiquid);
    FlagListOrdered(receivables, profit, inventory, goodwill, lowCoverage, illiquid);
    forall k ensures HasFlag(flags, k) <==> Raised(k, income, balance, cashflow) {
      FlagListKinds(receivables, profit, inventory, goodwill, lowCoverage, illiquid, k);
      FiredIsRaised(income, balance, cashflow, receivables, profit, inventory, goodwill, lowCoverage, illiquid, k);
    }
    var fcfToNi := FcfToNi(cashflow[0].freeCashFlow, income[0].netIncome);
    q := Some(QualityIndicators(flags, |flags|, fcfToNi, GoodwillPct(balance[0]), InterestCoverage(income[0])));
  }

  /** The six checks, on the most recent year (and the one before it for
      the growth comparisons); each fires exactly as `Raised` says. */
  method RunChecks(income: seq<IncomeRow>, balance: seq<BalanceRow>, cashflow: seq<CashFlowRow>)
    returns (receivables: bool, profit: bool, inventory: bool, goodwill: bool, lowCoverage: bool, illiquid: bool)
    requires income != [] && balance != [] && cashflow != []
    ensures receivables == Raised(ReceivablesGrowth, income, balance, cashflow)
    ensures profit == Raised(ProfitQuality, income, balance, cashflow)
    ensures inventory == Raised(InventoryBuildup, income, balance, cashflow)
    ensures goodwill == Raised(HighGoodwill, income, balance, cashflow)
    ensures lowCoverage == Raised(LowInterestCoverage, income, balance, cashflow)
    ensures illiquid == Raised(Liquidity, income, balance, cashflow)
  {
    var twoYears := |income| >= 2 && |balance| >= 2;
    var revenueGrowth := if twoYears then Growth(income[0].revenue, income[1].revenue) else 0.0;
    var receivablesGrowth :=
      if twoYears then Growth(balance[0].accountsReceivable, balance[1].accountsReceivable) else 0.0;
    receivables := twoYears && receivablesGrowth > revenueGrowth && receivablesGrowth > 0.05;

    var fcf, ni := cashflow[0].freeCashFlow, income[0].netIncome;
    profit := fcf < ni * 0.8 && ni > 0.0;

    var inventoryGrowth := if twoYears then Growth(balance[0].inventory, balance[1].inventory) else 0.0;
    inventory := twoYears && inventoryGrowth > revenueGrowth && inventoryGrowth > 0.10;

    var goodwillPct := GoodwillPct(balance[0]);
    goodwill := goodwillPct > 30.0;

    var coverage := InterestCoverage(income[0]);
    lowCoverage := coverage.Finite? && coverage.times < 3.0 && income[0].interestExpense > 0.0;

    illiquid := CurrentRatio(balance[0]) < 1.0;

    ChecksMatchRaised(income, balance, cashflow);

  }

  lemma FiredIsRaised(income: seq<IncomeRow>, balance: seq<BalanceRow>, cashflow: seq<CashFlowRow>,
                      receivables: bool, profit: bool, inventory: bool, goodwill: bool, lowCoverage: bool,
                      illiquid: bool, k: FlagKind)
    requires income != [] && balance != [] && cashflow != []
    requires receivables == Raised(ReceivablesGrowth, income, balance, cashflow)
    requires profit == Raised(ProfitQuality, income, balance, cashflow)
    requires inventory == Raised(InventoryBuildup, income, balance, cashflow)
    requires goodwill == Raised(HighGoodwill, income, balance, cashflow)
    requires lowCoverage == Raised(LowInterestCoverage, income, balance, cashflow)
    requires illiquid == Raised(Liquidity, income, balance, cashflow)
    ensures Fired(k, receivables, profit, inventory, goodwill, lowCoverage, illiquid) == Raised(k, income, balance, cashflow)
  {
  }

  /** The checks as the method computes them agree with `Raised`. */
  lemma ChecksMatchRaised(income: seq<IncomeRow>, balance: seq<BalanceRow>, cashflow: seq<CashFlowRow>)
    requires income != [] && balance != [] && cashflow != []
    ensures Raised(HighGoodwill, income, balance, cashflow) <==> GoodwillPct(balance[0]) > 30.0
    ensures Raised(LowInterestCoverage, income, balance, cashflow) <==>
      var c := InterestCoverage(income[0]);
      c.Finite? && c.times < 3.0 && income[0].interestExpense > 0.0
    ensures Raised(Liquidity, income, balance, cashflow) <==> CurrentRatio(balance[0]) < 1.0
  {
    GoodwillFlag(balance[0]);
    CoverageFlag(income[0]);
    LiquidityFlag(balance[0]);
  }

  /** The goodwill flag is raised exactly when goodwill is more than 30% of
      positive total assets. */
  lemma GoodwillFlag(b: BalanceRow)
    ensures GoodwillPct(b) > 30.0 <==> b.totalAssets > 0.0 && b.goodwill * 100.0 > 30.0 * b.totalAssets
  {
    if b.totalAssets > 0.0 {
      var pct := b.goodwill / b.totalAssets * 100.0;
      assert pct * b.totalAssets == b.goodwill * 100.0;
      if pct > 30.0 {
        MulLe(30.0, pct, b.totalAssets);
        assert 30.0 * b.totalAssets != pct * b.totalAssets;
      } else {
        MulLe(pct, 30.0, b.totalAssets);
      }
    }
  }

  /** Coverage below 3x is operating income below three times a positive
      interest expense. */
  lemma CoverageFlag(inc: IncomeRow)
    ensures (InterestCoverage(inc).Finite? && InterestCoverage(inc).times < 3.0 && inc.interestExpense > 0.0)
      <==> inc.interestExpense > 0.0 && inc.operatingIncome < 3.0 * inc.interestExpense
  {
    if inc.interestExpense > 0.0 {
      var c := inc.operatingIncome / inc.interestExpense;
      assert c * inc.interestExpense == inc.operatingIncome;
      if c < 3.0 {
        MulLe(c, 3.0, inc.interestExpense);
        assert c * inc.interestExpense != 3.0 * inc.interestExpense;
      } else {
        MulLe(3.0, c, inc.interestExpense);
      }
    }
  }

  /** The liquidity flag is raised whenever current liabilities are not
      positive (the ratio defaults to 0), and otherwise when current assets
      fall short of them. */
  lemma LiquidityFlag(b: BalanceRow)
    ensures CurrentRatio(b) < 1.0 <==> b.currentLiabilities <= 0.0 || b.currentAssets < b.currentLiabilities
  {
    if b.currentLiabilities > 0.0 {
      var r := b.currentAssets / b.currentLiabilities;
      assert r * b.currentLiabilities == b.currentAssets;
      if r < 1.0 {
        MulLe(r, 1.0, b.currentLiabilities);
        assert r * b.currentLiabilities != b.currentLiabilities;
      } else {
        MulLe(1.0, r, b.currentLiabilities);
      }
    }
  }
}
