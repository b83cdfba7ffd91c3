/** The PHP values the plugin stores in its settings and in the host's option
    table, with the three language tests it applies to them: `isset`, `empty`
    and strict identity (`===`, which is Dafny's `==` on this datatype). */
module PhpValues {
  import opened PhpStrings

  /** A PHP value. `List` is an array with keys 0, 1, 2, ...; `Dict` is an
      array keyed by names, such as the settings array. */
  datatype Value =
    | Null
    | Bool(b: bool)
    | Int(i: int)
    | Str(s: string)
    | List(items: seq<Value>)
    | Dict(entries: map<string, Value>)

  /** `isset($a[$k])`: the key is present and its value is not null. */
  predicate IsSetIn(a: map<string, Value>, k: string) {
    k in a && a[k] != Null
  }

  /** `empty($v)`: null, false, 0, the strings '' and '0', and the empty array. */
  predicate Empty(v: Value) {
    match v
    case Null => true
    case Bool(b) => !b
    case Int(i) => i == 0
    case Str(s) => s == "" || s == "0"
    case List(items) => items == []
    case Dict(entries) => entries == map[]
  }

  /** The string PHP builds when a value is concatenated (`'caicustom_' . $v`). */
  function ToPhpString(v: Value): (r: string)
    ensures v.Str? ==> r == v.s
    ensures v.Int? ==> IntCast(r) == v.i
  {
    match v
    case Null => ""
    case Bool(b) => if b then "1" else ""
    case Int(i) => (IntCastDecimalString(i); DecimalString(i))
    case Str(s) => s
    case List(_) => "Array"
    case Dict(_) => "Array"
  }

  /** `(int) $v`. */
  function IntCastValue(v: Value): (r: int)
    ensures v.Int? ==> r == v.i
    ensures v.Str? ==> r == IntCast(v.s)
    ensures Empty(v) && !v.Str? ==> r == 0
  {
    match v
    case Null => 0
    case Bool(b) => if b then 1 else 0
    case Int(i) => i
    case Str(s) => IntCast(s)
    case List(items) => if items == [] then 0 else 1
    case Dict(entries) => if entries == map[] then 0 else 1
  }

  /** A non-empty value never renders as the empty string, so a string built
      from it carries the value. */
  lemma NonEmptyRendersNonEmpty(v: Value)
    requires !Empty(v)
    ensures ToPhpString(v) != ""
  {
    if v.Int? {
      assert DecimalString(v.i) != [];
    }
  }
}
