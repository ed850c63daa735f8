/** Derived metrics computed from statement rows: free-cash-flow history,
    compound annual growth, year-over-year revenue growth, the PEG ratio
    and profit margins (`FinancialCalculator` in
    data/financial_calculator.py). */
module FinancialCalculator {
  import opened Text

  // ---------------------------------------------------------------------
  // Free cash flow history
  // ---------------------------------------------------------------------

  /** One column (fiscal year) of a cash-flow statement; a missing row is
      `None` and reads as 0. */
  datatype CashColumn = CashColumn(operatingCashFlow: Option<real>, capitalExpenditure: Option<real>)

  /** Capital expenditure is subtracted whatever its reported sign. */
  function FreeCashFlow(c: CashColumn): (r: real)
    ensures r <= c.operatingCashFlow.GetOr(0.0)
    ensures r + AbsR(c.capitalExpenditure.GetOr(0.0)) == c.operatingCashFlow.GetOr(0.0)
  {
    c.operatingCashFlow.GetOr(0.0) - AbsR(c.capitalExpenditure.GetOr(0.0))
  }

  /** The FCF of the (at most) four most recent columns, most recent first. */
  method FcfHistory(columns: seq<CashColumn>) returns (history: seq<real>)
    ensures |history| == Min(4, |columns|)
    ensures forall i :: 0 <= i < |history| ==> history[i] == FreeCashFlow(columns[i])
    ensures forall i :: 0 <= i < |history| ==> history[i] <= columns[i].operatingCashFlow.GetOr(0.0)
  {
    history := [];
    var n := Min(4, |columns|);
    for i := 0 to n
      invariant |history| == i
      invariant forall j :: 0 <= j < i ==> history[j] == FreeCashFlow(columns[j])
    {
      history := history + [FreeCashFlow(columns[i])];
    }
  }

  // ---------------------------------------------------------------------
  // Compound annual growth rate
  // ---------------------------------------------------------------------

  /** The values with the zeros removed, order kept (NaN is not a `real`). */
  function NonZero(values: seq<real>): (r: seq<real>)
    ensures |r| <= |values|
    ensures forall i :: 0 <= i < |r| ==> r[i] != 0.0
    ensures forall v :: v in r <==> v in values && v != 0.0
  {
    if values == [] then []
    else (if values[0] != 0.0 then [values[0]] else []) + NonZero(values[1..])
  }

  /** Dropping zeros commutes with concatenation. */
  lemma {:induction false} NonZeroAppend(a: seq<real>, b: seq<real>)
    ensures NonZero(a + b) == NonZero(a) + NonZero(b)
  {
    if a == [] {
      assert a + b == b;
    } else {
      assert (a + b)[1..] == a[1..] + b;
      NonZeroAppend(a[1..], b);
    }
  }

  /** `x ** (1 / n)` for a positive `x` is a fractional power; it is a
      parameter of the model. Exponent 1 (`n == 1`) is exact. */
  type Root = (real, nat) -> real

  function Power(root: Root, x: real, n: nat): real {
    if n == 1 then x else root(x, n)
  }

  function Clamp(x: real, lo: real, hi: real): (r: real)
    requires lo <= hi
    ensures lo <= r <= hi
    ensures lo <= x <= hi ==> r == x
  {
    MaxR(MinR(x, hi), lo)
  }

  /** The outcome of `calculate_cagr` as written: a rate, or the `TypeError`
      raised when a complex power reaches `min`. */
  datatype CagrOutcome = Rate(rate: real) | ComplexPowerError

  /** `calculate_cagr` as written. Values are most recent first; the oldest
      non-zero value is the start and there are `len - 1` periods. With a
      positive start and a negative end over two or more periods the
      fractional power of a negative ratio is complex in Python, and the
      final clamp raises. */
  function CagrAsWritten(values: seq<real>, root: Root): (r: CagrOutcome)
    ensures r.Rate? ==> -1.0 <= r.rate <= 2.0
    ensures |NonZero(values)| < 2 ==> r == Rate(0.0)
  {
    var clean := NonZero(values);
    if |clean| < 2 then Rate(0.0)
    else
      var start, end, n := clean[|clean| - 1], clean[0], |clean| - 1;
      if start > 0.0 then
        if end / start < 0.0 && n >= 2 then ComplexPowerError
        else Rate(Clamp(Power(root, end / start, n) - 1.0, -1.0, 2.0))
      else if start < 0.0 && end > 0.0 then
        Rate(Clamp(MinR(((end - start) / AbsR(start)) / n as real, 2.0), -1.0, 2.0))
      else if start < 0.0 && end < 0.0 then
        Rate(Clamp(-(Power(root, AbsR(start) / AbsR(end), n) - 1.0), -1.0, 2.0))
      else Rate(0.0)
  }

  /** A positive start, a negative end and two periods: the as-written
      function raises instead of returning a rate. */
  lemma CagrAsWrittenRaises(root: Root)
    ensures CagrAsWritten([-10.0, 5.0, 10.0], root) == ComplexPowerError
  {
    assert NonZero([-10.0, 5.0, 10.0]) == [-10.0, 5.0, 10.0];
  }

  /** `calculate_cagr` with a sign change from positive to negative reported
      as a total loss (-100%), the value the one-period case already
      clamps to. */
  function Cagr(values: seq<real>, root: Root): (r: real)
    ensures -1.0 <= r <= 2.0
  {
    match CagrAsWritten(values, root)
    case Rate(x) => x
    case ComplexPowerError => -1.0
  }

  /** A history of positive values (revenues, say) never reaches the
      complex power: the as-written function returns a rate. */
  lemma PositiveHistoryReturns(values: seq<real>, root: Root)
    requires forall i :: 0 <= i < |values| ==> values[i] > 0.0
    ensures CagrAsWritten(values, root).Rate?
  {
    var clean := NonZero(values);
    if |clean| >= 2 {
      var start, end := clean[|clean| - 1], clean[0];
      assert start in values && end in values;
      var q := end / start;
      assert q * start == end;
      if q < 0.0 {
        MulLe(q, 0.0, start);
      }
    }
  }

  /** The corrected rate agrees with the as-written one wherever that
      one returns. */
  lemma CagrAgrees(values: seq<real>, root: Root)
    requires CagrAsWritten(values, root).Rate?
    ensures Cagr(values, root) == CagrAsWritten(values, root).rate
  {
  }

  /** For one period, a positive start and a negative end is a drop of more
      than 100%, clamped to -1: the corrected value for longer histories. */
  lemma {:induction false} CagrOnePeriodSignFlip(start: real, end: real, root: Root)
    requires start > 0.0 && end < 0.0
    ensures Cagr([end, start], root) == -1.0
  {
    assert NonZero([end, start]) == [end, start];
    assert end / start < 0.0 by {
      assert end / start * start == end;
    }
  }

  /** Zeros anywhere in the history do not change the rate. */
  lemma {:induction false} CagrIgnoresZeros(a: seq<real>, b: seq<real>, root: Root)
    ensures Cagr(a + [0.0] + b, root) == Cagr(a + b, root)
  {
    NonZeroAppend(a + [0.0], b);
    NonZeroAppend(a, [0.0]);
    NonZeroAppend(a, b);
    assert NonZero([0.0]) == [];
    assert NonZero(a) + [] == NonZero(a);
  }

  /** A loss turning into a profit is reported as positive growth of
      (end - start) / |start| per period, at most 200%. */
  lemma {:induction false} CagrTurnaround(values: seq<real>, root: Root)
    requires |NonZero(values)| >= 2
    requires NonZero(values)[|NonZero(values)| - 1] < 0.0 < NonZero(values)[0]
    ensures var clean := NonZero(values);
      var start, end := clean[|clean| - 1], clean[0];
      Cagr(values, root) == MinR(((end - start) / -start) / (|clean| - 1) as real, 2.0)
    ensures 0.0 < Cagr(values, root)
  {
    var clean := NonZero(values);
    var start, end, n := clean[|clean| - 1], clean[0], |clean| - 1;
    var g := ((end - start) / AbsR(start)) / n as real;
    assert (end - start) / AbsR(start) > 0.0;
    assert g > 0.0;
  }

  // ---------------------------------------------------------------------
  // Revenue growth and PEG
  // ---------------------------------------------------------------------

  /** Year-over-year revenue growth from the `Total Revenue` row of the
      statement columns (most recent first, a missing row reads as 0). */
  function RevenueGrowth(revenues: seq<Option<real>>): (g: real)
    ensures |revenues| < 2 || revenues[1].GetOr(0.0) <= 0.0 ==> g == 0.0
    ensures |revenues| >= 2 && revenues[1].GetOr(0.0) > 0.0 ==>
      revenues[1].GetOr(0.0) * (1.0 + g) == revenues[0].GetOr(0.0)
  {
    if |revenues| < 2 then 0.0
    else
      var current, prior := revenues[0].GetOr(0.0), revenues[1].GetOr(0.0);
      if prior > 0.0 then (current - prior) / prior else 0.0
  }

  /** The PEG text: "N/A", or the ratio (printed with two decimals). */
  datatype PegText = NotAvailable | PegRatio(peg: real)

  /** `pe` is `None` when the P/E is not an `int`/`float` (e.g. "N/A");
      growth is a fraction and is turned into a percentage. */
  function Peg(pe: Option<real>, growth: real): (r: PegText)
    ensures r.PegRatio? <==> pe.Some? && pe.value > 0.0 && growth > 0.0
    ensures r.PegRatio? ==> r.peg > 0.0 && r.peg * (growth * 100.0) == pe.value
  {
    if pe.Some? && pe.value > 0.0 && growth > 0.0 then PegRatio(pe.value / (growth * 100.0))
    else NotAvailable
  }

  // ---------------------------------------------------------------------
  // Margins
  // ---------------------------------------------------------------------

  function MarginKey(name: string): string {
    name + "_margin"
  }

  lemma MarginKeyInjective(a: string, b: string)
    requires MarginKey(a) == MarginKey(b)
    ensures a == b
  {
    assert a == MarginKey(a)[..|a|];
  }

  /** A margin in percent of revenue; a falsy amount (None or 0) gives 0. */
  function Margin(amount: Option<real>, revenue: real): real
    requires revenue > 0.0
  {
    if amount.Some? && amount.value != 0.0 then amount.value / revenue * 100.0 else 0.0
  }

  /** Keyword arguments of a Python call have distinct names. */
  predicate DistinctNames(kwargs: seq<(string, Option<real>)>) {
    forall i, j :: 0 <= i < j < |kwargs| ==> kwargs[i].0 != kwargs[j].0
  }

  /** One `<name>_margin` entry per keyword argument when revenue is
      positive, none otherwise. */
  method Margins(revenue: real, kwargs: seq<(string, Option<real>)>) returns (margins: map<string, real>)
    requires DistinctNames(kwargs)
    ensures revenue <= 0.0 ==> margins == map[]
    ensures revenue > 0.0 ==>
      margins.Keys == set i | 0 <= i < |kwargs| :: MarginKey(kwargs[i].0)
    ensures revenue > 0.0 ==> forall i :: 0 <= i < |kwargs| ==>
      MarginKey(kwargs[i].0) in margins &&
      margins[MarginKey(kwargs[i].0)] * revenue == kwargs[i].1.GetOr(0.0) * 100.0
  {
    margins := map[];
    if revenue > 0.0 {
      for i := 0 to |kwargs|
        invariant margins.Keys == set j | 0 <= j < i :: MarginKey(kwargs[j].0)
        invariant forall j :: 0 <= j < i ==>
          margins[MarginKey(kwargs[j].0)] == Margin(kwargs[j].1, revenue)
      {
        forall j | 0 <= j < i
          ensures MarginKey(kwargs[j].0) != MarginKey(kwargs[i].0)
        {
          if MarginKey(kwargs[j].0) == MarginKey(kwargs[i].0) {
            MarginKeyInjective(kwargs[j].0, kwargs[i].0);
          }
        }
        margins := margins[MarginKey(kwargs[i].0) := Margin(kwargs[i].1, revenue)];
      }
      forall i | 0 <= i < |kwargs|
        ensures margins[MarginKey(kwargs[i].0)] * revenue == kwargs[i].1.GetOr(0.0) * 100.0
      {
        var a := kwargs[i].1;
        if a.Some? && a.value != 0.0 {
          assert a.value / revenue * 100.0 * revenue == a.value * 100.0;
        }
      }
    }
  }
}
