/**
 * The few JavaScript value conventions the front end relies on, stated once:
 * `null`/`undefined` as an optional value, truthiness of strings and numbers,
 * the `||` and `??` operators, and how values are turned into text by a
 * template literal or by a JSX expression.
 */
module JsValues {

  /** A field that may be `null` or `undefined` (both are `None`). */
  datatype Option<+T> = None | Some(value: T) {

    /** The `??` operator: the value unless it is `null`/`undefined`. */
    function GetOr(default: T): T {
      match this
      case Some(v) => v
      case None => default
    }
  }

  /** A settled promise: fulfilled with a value or rejected with an error message. */
  datatype Result<+T> = Ok(value: T) | Err(error: string)

  /** A string is truthy when it is present and not empty. */
  predicate TruthyStr(o: Option<string>) {
    o.Some? && o.value != ""
  }

  /** A number is truthy when it is present and not zero. */
  predicate TruthyNum(o: Option<int>) {
    o.Some? && o.value != 0
  }

  /** `a || b` on optional strings. */
  function OrStr(a: Option<string>, b: Option<string>): Option<string> {
    if TruthyStr(a) then a else b
  }

  /** `a || b` on optional numbers (ids). */
  function OrNum(a: Option<int>, b: Option<int>): Option<int> {
    if TruthyNum(a) then a else b
  }

  /** `a || 'text'`: the string when truthy, else the given fallback text. */
  function OrText(a: Option<string>, fallback: string): string {
    if TruthyStr(a) then a.value else fallback
  }

  /** Decimal text of an integer, as `String(n)` gives it. */
  function IntToString(n: int): string {
    if n < 0 then "-" + NatToString(-n) else NatToString(n)
  }

  function NatToString(n: nat): string
    decreases n
  {
    if n < 10 then [DigitChar(n)] else NatToString(n / 10) + [DigitChar(n % 10)]
  }

  function DigitChar(d: nat): char
    requires d < 10
  {
    "0123456789"[d]
  }

  /** `${x}` of an optional string: a missing value prints as "undefined". */
  function InterpStr(o: Option<string>): string {
    match o
    case Some(s) => s
    case None => "undefined"
  }

  /** `${x}` of an optional number. */
  function InterpNum(o: Option<int>): string {
    match o
    case Some(n) => IntToString(n)
    case None => "undefined"
  }

  /** `{x}` inside JSX: a missing value renders nothing. */
  function JsxStr(o: Option<string>): string {
    match o
    case Some(s) => s
    case None => ""
  }

  /** A table cell: either text or a number rendered as is. */
  datatype Cell = Text(text: string) | Number(number: real)
}
