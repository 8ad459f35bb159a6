/** The dynamically typed arguments that the property setters of the layer,
    cell and layout containers receive, and the `isinstance` guards they apply. */
module Values {

  /** A Python value as far as the setters can tell types apart. */
  datatype Value =
    | VStr(s: string)
    | VInt(i: int)
    | VBool(b: bool)
    | VList(items: seq<Value>)
    | VObject(id: nat)   // any other object, known only by its identity
    | VNone

  /** `isinstance(v, int)`: in Python `bool` is a subclass of `int`,
      so True and False pass this guard. */
  predicate IsInt(v: Value) {
    v.VInt? || v.VBool?
  }

  /** The integer an `int` instance stands for (True is 1, False is 0). */
  function IntOf(v: Value): int
    requires IsInt(v)
  {
    match v
    case VInt(i) => i
    case VBool(b) => if b then 1 else 0
  }
}
