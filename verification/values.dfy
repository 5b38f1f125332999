/**
 * JSON-like values: what a component ID card, a card reference, a log
 * context or an operand-stack entry can hold.
 */
module Values {

  datatype Value =
    | VNull
    | VBool(b: bool)
    | VInt(i: int)
    | VFloat(f: real)
    | VStr(s: string)
    | VList(items: seq<Value>)
    | VDict(fields: map<string, Value>)

  /** `d.get(k)`: the value under key k of a dict, and None for a missing key or a non-dict. */
  function Get(d: Value, k: string): (v: Value)
    ensures d.VDict? && k in d.fields ==> v == d.fields[k]
    ensures !(d.VDict? && k in d.fields) ==> v == VNull
  {
    if d.VDict? && k in d.fields then d.fields[k] else VNull
  }

  /**
   * Python's `v == 1`: the booleans and floats that compare equal to the integer
   * 1 count too (True == 1 and 1.0 == 1 hold in Python).
   */
  predicate EqualsOne(v: Value) {
    v == VInt(1) || v == VBool(true) || v == VFloat(1.0)
  }

  /** A non-empty string (`isinstance(v, str) and v`). */
  predicate IsNonEmptyString(v: Value) {
    v.VStr? && v.s != ""
  }
}
