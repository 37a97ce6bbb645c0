/**
 * Runtime values. The Java code stores them as `Object`: `null` (nil), a
 * `Boolean`, a `Double` or a `String`. Doubles are modelled as reals.
 */
module Values {

  datatype Value = Nil | Bool(b: bool) | Num(n: real) | Str(s: string)

  /**
   * The text `Double.toString` gives for a number. Java's algorithm is not
   * modelled, so every operation that needs it receives one as a parameter.
   */
  type NumberText = real -> string

  /** The text `Object.toString` gives for a non-null value. */
  function ObjectText(v: Value, show: NumberText): (r: string)
    requires v != Nil
    ensures v.Bool? ==> (r == "true" <==> v.b) && (r == "false" <==> !v.b)
    ensures v.Num? ==> r == show(v.n)
    ensures v.Str? ==> r == v.s
  {
    match v
    case Bool(b) => if b then "true" else "false"
    case Num(n) => show(n)
    case Str(s) => s
  }

  predicate EndsWith(s: string, suffix: string) {
    |suffix| <= |s| && s[|s| - |suffix|..] == suffix
  }

  predicate StartsWith(s: string, prefix: string) {
    |prefix| <= |s| && s[..|prefix|] == prefix
  }
}
