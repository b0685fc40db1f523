/**
 * The slice of PHP's value semantics that the router and the controller rely on:
 * values, arrays, `empty()`, truthiness and the `(int)` and `(array)` casts.
 */
module PhpValues {

  /** A PHP value. An object is given by its property table. */
  datatype Value =
    | Null
    | Bool(b: bool)
    | Int(i: int)
    | Str(s: string)
    | Arr(entries: PhpArray)
    | Obj(props: map<string, Value>)

  /**
   * A PHP array, keyed by string. PHP stores the key "0" and the integer key 0 as
   * one entry, so an integer key is written here as its decimal string.
   * Insertion order is not modelled.
   */
  type PhpArray = map<string, Value>

  /** `$a[$k]`: a missing key reads as null (PHP only warns). */
  function Index(a: PhpArray, k: string): Value {
    if k in a then a[k] else Null
  }

  /** `empty($v)` for a defined value: null, false, 0, "", "0" and [] are empty. */
  predicate IsEmpty(v: Value) {
    match v
    case Null => true
    case Bool(b) => !b
    case Int(i) => i == 0
    case Str(s) => s == "" || s == "0"
    case Arr(m) => m == map[]
    case Obj(_) => false
  }

  /** `empty($a[$k])`: a missing key is empty too, without a warning. */
  predicate EmptyAt(a: PhpArray, k: string) {
    k !in a || IsEmpty(a[k])
  }

  /** What `if ($v)` tests: PHP's conversion to bool is the negation of `empty`. */
  predicate Truthy(v: Value) {
    !IsEmpty(v)
  }

  /** `(array) $v`: null gives [], an array stays, an object gives its properties, a scalar is wrapped at key 0. */
  function ArrayCast(v: Value): PhpArray {
    match v
    case Null => map[]
    case Arr(m) => m
    case Obj(p) => p
    case _ => map["0" := v]
  }

  /** `(int) $v`. */
  function IntCast(v: Value): int {
    match v
    case Null => 0
    case Bool(b) => if b then 1 else 0
    case Int(i) => i
    case Str(s) => StringToInt(s)
    case Arr(m) => if m == map[] then 0 else 1
    case Obj(_) => 1
  }

  predicate IsSpace(c: char) {
    c == ' ' || c == '\t' || c == '\n' || c == '\r' || c == 11 as char || c == 12 as char
  }

  predicate IsDigit(c: char) {
    '0' <= c <= '9'
  }

  function SkipSpace(s: string): string {
    if |s| > 0 && IsSpace(s[0]) then SkipSpace(s[1..]) else s
  }

  /** The value of the longest run of decimal digits at the head of `s`, appended to `acc`. */
  function LeadingValue(s: string, acc: nat): nat {
    if |s| > 0 && IsDigit(s[0]) then LeadingValue(s[1..], acc * 10 + (s[0] as int - '0' as int)) else acc
  }

  /** `(int) $s` for a string: leading white space, an optional sign, then the leading digits; no digits give 0. */
  function StringToInt(s: string): int {
    var t := SkipSpace(s);
    if |t| > 0 && t[0] == '-' then -(LeadingValue(t[1..], 0) as int)
    else if |t| > 0 && t[0] == '+' then LeadingValue(t[1..], 0)
    else LeadingValue(t, 0)
  }
}
