/** The PHP scalar values that flow through the client, with the two PHP
    conversions the client relies on: string conversion (interpolation and the
    `.` operator) and truthiness (`if ($x)`, `!$x`). */
module PhpValue {
  import opened Wrappers
  import opened Text

  /** A PHP scalar: string, int, bool or null. Floats and arrays are not modelled. */
  datatype Value = Str(s: string) | Int(i: int) | Bool(b: bool) | Null

  /** PHP's `(string)` conversion: `true` is "1", `false` and `null` are "". */
  function ToStr(v: Value): string {
    match v
    case Str(s) => s
    case Int(i) => IntToString(i)
    case Bool(b) => if b then "1" else ""
    case Null => ""
  }

  /** PHP truthiness of a nullable string: null, "" and "0" are falsy. */
  predicate Truthy(s: Option<string>) {
    s.Some? && s.value != "" && s.value != "0"
  }
}
