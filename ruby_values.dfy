/**
 * The Ruby values the client's options hash can hold, with the two pieces of
 * Ruby semantics the client relies on: truthiness of `||` and string
 * interpolation (`"#{v}"`).
 */
module RubyValues {
  import Decimal

  /** An options-hash key: `:token` and `'token'` are different keys. */
  datatype Key = SymbolKey(name: string) | StringKey(name: string)

  /** The option values the client distinguishes. */
  datatype Value = Nil | Bool(b: bool) | Int(i: int) | Str(s: string)

  /** Ruby truthiness: everything except `nil` and `false`. */
  predicate Truthy(v: Value) {
    v != Nil && v != Bool(false)
  }

  /** `h[k]` on a Hash without a default value: `nil` for a missing key. */
  function Fetch(h: map<Key, Value>, k: Key): (v: Value)
    ensures k in h ==> v == h[k]
    ensures k !in h ==> v == Nil
  {
    if k in h then h[k] else Nil
  }

  /**
   * Ruby's `a || b`. It is truthy exactly when one operand is; it
   * short-circuits on a truthy `a`; and a falsy `a` hands over `b` as it is,
   * even when `b` is itself `nil` or `false`.
   */
  function Or(a: Value, b: Value): (v: Value)
    ensures Truthy(v) <==> Truthy(a) || Truthy(b)
    ensures v == a || v == b
    ensures Truthy(a) ==> v == a
    ensures !Truthy(a) ==> v == b
  {
    if Truthy(a) then a else b
  }

  /**
   * `"#{v}"`: `to_s` of the value. `nil` interpolates as the empty string, a
   * string as itself, and an integer as the decimal text `Integer#to_s` writes, which reads
   * back to it.
   */
  function Interpolate(v: Value): (s: string)
    ensures v.Nil? ==> s == ""
    ensures v.Str? ==> s == v.s
    ensures v.Bool? ==> (s == "true" <==> v.b) && (s == "true" || s == "false")
    ensures v.Int? ==>
      (Decimal.IsIntText(s) && Decimal.ParseInt(s) == v.i && Decimal.FromInt(Decimal.ParseInt(s)) == s)
  {
    match v
    case Nil => ""
    case Bool(b) => if b then "true" else "false"
    case Int(i) => Decimal.ParseFromInt(i); Decimal.FromInt(i)
    case Str(s) => s
  }
}
