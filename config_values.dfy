/** Values read from a YAML configuration or passed as keyword arguments,
    with Python's truthiness and `str()` on them. */
module ConfigValues {

  datatype ConfigValue = NoneValue | Text(text: string) | Flag(flag: bool) | Number(number: int)

  /** Python truthiness: None, '', False and 0 are false. */
  predicate Truthy(v: ConfigValue)
  {
    match v
    case NoneValue => false
    case Text(s) => s != ""
    case Flag(b) => b
    case Number(n) => n != 0
  }

  function DigitChar(d: nat): char
    requires d < 10
  {
    "0123456789"[d]
  }

  /** Decimal digits of `n`, most significant first, without leading zeros. */
  function NatToDecimal(n: nat): (s: string)
    ensures |s| >= 1
    ensures forall i :: 0 <= i < |s| ==> '0' <= s[i] <= '9'
    ensures |s| > 1 ==> s[0] != '0'
    decreases n
  {
    if n < 10 then [DigitChar(n)] else NatToDecimal(n / 10) + [DigitChar(n % 10)]
  }

  /** Python `str(v)`, which `'{}'.format(v)` applies. */
  function Str(v: ConfigValue): string
  {
    match v
    case NoneValue => "None"
    case Text(s) => s
    case Flag(b) => if b then "True" else "False"
    case Number(n) => if n < 0 then "-" + NatToDecimal(-n) else NatToDecimal(n)
  }
}
