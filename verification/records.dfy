/** The dictionaries the context builders and the decision log read:
    string keys to untyped Python values, read with `get` and a default. */
module Records {
  import opened Text

  type Dict = map<string, PyVal>

  /** `d.get(key, default)`: the default only when the key is absent. */
  function Get(d: Dict, key: string, default: PyVal): (v: PyVal)
    ensures key in d ==> v == d[key]
    ensures key !in d ==> v == default
  {
    if key in d then d[key] else default
  }

  /** `d.get(key, 0)` used as a number; a present value that is not a
      number is read as 0. */
  function Num(d: Dict, key: string): (x: real)
    ensures key in d && d[key].IsNumber() ==> x == d[key].AsReal()
    ensures key !in d ==> x == 0.0
  {
    if key in d && d[key].IsNumber() then d[key].AsReal() else 0.0
  }

  /** `d.get(key) or 0`: the stored value when it is truthy, else 0, so a
      missing key, `None`, `0` and `''` all read as 0. */
  function OrZero(d: Dict, key: string): (v: PyVal)
    ensures v.Truthy() <==> key in d && d[key].Truthy()
    ensures v.Truthy() ==> v == d[key]
    ensures !v.Truthy() ==> v == PyInt(0)
  {
    if key in d && d[key].Truthy() then d[key] else PyInt(0)
  }

  /** Python's `format(value, spec)`, as used by the f-strings: `spec` is
      the text after the colon (`".2f"`, `"+.1f"`, `">11.2f"`), and `""`
      is plain `str(value)`. Number formatting is not modelled. */
  type Format = (string, PyVal) -> string

  /** `f"{value}"` */
  function Show(fmt: Format, v: PyVal): string {
    fmt("", v)
  }
}
