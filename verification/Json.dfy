/** Decoded JSON values as Python sees them. */
module Json {

  datatype Value =
    | Null
    | Bool(b: bool)
    | Int(n: int)
    | Float(r: real)
    | Str(s: string)
    | Arr(items: seq<Value>)
    | Obj(members: map<string, Value>)

  /** Python's `value == n` for an integer n: True equals 1, and 2.0 equals 2. */
  predicate EqualsInt(v: Value, n: int) {
    match v
    case Bool(b) => n == if b then 1 else 0
    case Int(m) => m == n
    case Float(r) => r == n as real
    case _ => false
  }
}
