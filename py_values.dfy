/**
 * The Python values that the backend keeps in its dicts: job records,
 * worker payloads and JSON response bodies. JSON arrays, objects and
 * floats are not modelled.
 */
module PyValues {

  datatype Value = Nil | Bool(b: bool) | Int(i: int) | Str(s: string)

  /** A Python dict with string keys. */
  type Dict = map<string, Value>

  /** Python truthiness: None, False, 0 and "" are falsy. */
  predicate Truthy(v: Value)
  {
    match v
    case Nil => false
    case Bool(b) => b
    case Int(i) => i != 0
    case Str(s) => s != ""
  }

  /** `d.get(k)`: the stored value, or None when the key is absent. */
  function Get(d: Dict, k: string): (v: Value)
    ensures v != Nil ==> k in d
  {
    if k in d then d[k] else Nil
  }

  function DigitChar(d: nat): char
    requires d < 10
  {
    ('0' as int + d) as char
  }

  /** Decimal digits of a natural number, most significant first. */
  function NatDigits(n: nat): (r: string)
    ensures r != []
    ensures forall k :: 0 <= k < |r| ==> '0' <= r[k] <= '9'
  {
    if n < 10 then [DigitChar(n)] else NatDigits(n / 10) + [DigitChar(n % 10)]
  }

  /** Python `str(v)`, as an f-string interpolates it. */
  function PyStr(v: Value): string
  {
    match v
    case Nil => "None"
    case Bool(b) => if b then "True" else "False"
    case Int(i) => if i < 0 then "-" + NatDigits(-i) else NatDigits(i)
    case Str(s) => s
  }
}
