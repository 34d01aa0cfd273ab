/**
 * The values that flow through a rule chain: device telemetry read by a SOURCE
 * node, the intermediate value handed to a script and compared by a SWITCH, and
 * the values an ACTION node writes. They come from JSON, so they are integers,
 * strings, booleans or null.
 */
module Values {
  import opened Wrappers

  datatype Value = Int(i: int) | Str(s: string) | Bool(b: bool) | Null

  /** The integer a value stands for in a Python comparison: a bool is 0 or 1. */
  function NumericView(v: Value): Option<int>
  {
    match v
    case Int(i) => Some(i)
    case Bool(b) => Some(if b then 1 else 0)
    case _ => None
  }

  /**
   * Python's `==` on these values: numbers (booleans included) compare by their
   * integer, everything else compares structurally, and values of unrelated
   * kinds are never equal.
   */
  predicate PyEquals(a: Value, b: Value)
  {
    if NumericView(a).Some? && NumericView(b).Some? then NumericView(a) == NumericView(b)
    else a == b
  }

  /**
   * `==` on these values is an equivalence; it identifies True with 1 and
   * False with 0, and a string equals only the same string.
   */
  lemma PyEqualsFacts(a: Value, b: Value, c: Value)
    ensures PyEquals(a, a)
    ensures PyEquals(a, b) ==> PyEquals(b, a)
    ensures PyEquals(a, b) && PyEquals(b, c) ==> PyEquals(a, c)
    ensures PyEquals(Bool(true), Int(1)) && PyEquals(Bool(false), Int(0))
    ensures a.Str? ==> (PyEquals(a, b) <==> a == b)
  {
  }
}
