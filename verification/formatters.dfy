/** The number formatters of utils/formatters.py. The digits a format
    specification such as `:,.2f` prints are not modelled: a formatted
    number is kept as the value, the number of decimals, whether thousands
    are grouped, and the text around it. */
module Formatters {
  import opened Text

  datatype NumberText =
    | NotAvailable
    /** `prefix + f"{value:{',' if grouped}.{decimals}f}" + suffix` */
    | Number(prefix: string, value: real, decimals: nat, grouped: bool, suffix: string)

  /** `format_currency`: `format_number` with a "$" in front. */
  function FormatCurrency(v: PyVal, decimals: nat): (r: NumberText)
    ensures r.NotAvailable? <==> !v.IsNumber()
    ensures r.Number? ==> FormatNumber(v, decimals).Number? && r == FormatNumber(v, decimals).(prefix := "$")
    ensures r.Number? ==> r.value == v.AsReal()
  {
    if !v.IsNumber() then NotAvailable else Number("$", v.AsReal(), decimals, true, "")
  }

  /** `format_percentage`: a fraction shown in percent. */
  function FormatPercentage(v: PyVal, decimals: nat): (r: NumberText)
    ensures r.NotAvailable? <==> !v.IsNumber()
    ensures r.Number? ==> r.value == v.AsReal() * 100.0 && r.suffix == "%" && r.prefix == ""
  {
    if !v.IsNumber() then NotAvailable else Number("", v.AsReal() * 100.0, decimals, false, "%")
  }

  /** `format_number`: thousands separators, no currency sign. */
  function FormatNumber(v: PyVal, decimals: nat): (r: NumberText)
    ensures r.NotAvailable? <==> !v.IsNumber()
    ensures r.Number? ==> r.value == v.AsReal() && r.grouped && r.prefix == "" && r.suffix == ""
  {
    if !v.IsNumber() then NotAvailable else Number("", v.AsReal(), decimals, true, "")
  }

  /** The scale a large-number suffix stands for. */
  function SuffixScale(suffix: string): real {
    if suffix == "B" then 1000000000.0
    else if suffix == "M" then 1000000.0
    else if suffix == "K" then 1000.0
    else 1.0
  }

  /** `format_large_number`: sign, "$", the magnitude scaled to billions,
      millions or thousands with two decimals, and the suffix. */
  function FormatLargeNumber(v: PyVal): (r: NumberText)
    ensures r.NotAvailable? <==> !v.IsNumber()
    ensures r.Number? ==>
      var x := v.AsReal();
      && (r.prefix == "-$" <==> x < 0.0) && (r.prefix == "$" <==> x >= 0.0)
      && r.value * SuffixScale(r.suffix) == AbsR(x)
      && r.decimals == 2 && !r.grouped
      && (r.suffix == "B" <==> AbsR(x) >= 1000000000.0)
      && (r.suffix == "M" <==> 1000000.0 <= AbsR(x) < 1000000000.0)
      && (r.suffix == "K" <==> 1000.0 <= AbsR(x) < 1000000.0)
      && (r.suffix == "" <==> AbsR(x) < 1000.0)
  {
    if !v.IsNumber() then NotAvailable
    else
      var x := v.AsReal();
      var a := AbsR(x);
      var sign := if x < 0.0 then "-" else "";
      if a >= 1000000000.0 then Number(sign + "$", a / 1000000000.0, 2, false, "B")
      else if a >= 1000000.0 then Number(sign + "$", a / 1000000.0, 2, false, "M")
      else if a >= 1000.0 then Number(sign + "$", a / 1000.0, 2, false, "K")
      else Number(sign + "$", a, 2, false, "")
  }

  /** Below a billion the printed magnitude has one to three digits before
      the decimal point; the sign never changes the digits. */
  lemma LargeNumberMagnitude(v: PyVal)
    requires v.IsNumber()
    ensures var r := FormatLargeNumber(v);
      r.suffix != "B" ==> r.value < 1000.0
    ensures var r := FormatLargeNumber(v);
      r.suffix != "" ==> r.value >= 1.0
    ensures v.AsReal() != 0.0 ==>
      FormatLargeNumber(v).value == FormatLargeNumber(PyFloat(-v.AsReal())).value
  {
  }
}
