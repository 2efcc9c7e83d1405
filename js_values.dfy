/**
 * The slice of JavaScript's value model the calculator depends on: the values
 * a loaded plugin script can leave in its global `plugin` binding, `typeof`,
 * truthiness and property reads.
 */
module JsValues {

  /**
   * A JavaScript number: an IEEE 754 binary64 value kept as its bit pattern.
   * Its arithmetic is never interpreted here; only the two facts truthiness
   * needs (zero and NaN) are read off the bits.
   */
  datatype Num = Float64(bits: bv64) {

    /** Exponent all ones and a non-zero fraction. */
    predicate IsNaN() {
      ((bits >> 52) & 0x7FF) == 0x7FF && (bits & 0xF_FFFF_FFFF_FFFF) != 0
    }

    /** Positive or negative zero. */
    predicate IsZero() {
      (bits & 0x7FFF_FFFF_FFFF_FFFF) == 0
    }
  }

  /**
   * An argument passed to a plugin's `execute`: destructuring `[a, b]` from a
   * one-element array leaves `b` undefined instead of giving it a number.
   */
  datatype Operand = MissingOperand | NumberOperand(n: Num)

  /** How a call of `execute` ends: it returns a number or it throws. */
  datatype Outcome = Returned(value: Num) | Threw

  /** The behaviour of a plugin's two-argument `execute` function. */
  type Execute = (Operand, Operand) -> Outcome

  /**
   * A JavaScript value. Functions are objects too and carry properties. The
   * `props` of an object or function are every property a read of it finds,
   * its own and those inherited through its prototype chain alike. Symbols
   * and bigints are not represented.
   */
  datatype JsValue =
    | Undefined
    | Null
    | Boolean(b: bool)
    | Number(n: Num)
    | String(s: string)
    | Function(call: Execute, props: map<string, JsValue>)
    | Object(props: map<string, JsValue>)

  /** The string the `typeof` operator yields. */
  function TypeOf(v: JsValue): (t: string)
    ensures t == "function" <==> v.Function?
    ensures t == "string" <==> v.String?
    ensures t == "undefined" <==> v.Undefined?
  {
    match v
    case Undefined => "undefined"
    case Null => "object"
    case Boolean(_) => "boolean"
    case Number(_) => "number"
    case String(_) => "string"
    case Function(_, _) => "function"
    case Object(_) => "object"
  }

  /**
   * Whether `v` counts as true in a condition or under `&&`: every value
   * except undefined, null, false, zero, NaN and the empty string.
   */
  predicate Truthy(v: JsValue)
    ensures !Truthy(v) <==>
      || v.Undefined? || v.Null? || (v.Boolean? && !v.b)
      || (v.Number? && (v.n.IsZero() || v.n.IsNaN())) || (v.String? && v.s == "")
  {
    match v
    case Undefined => false
    case Null => false
    case Boolean(b) => b
    case Number(n) => !n.IsZero() && !n.IsNaN()
    case String(s) => s != ""
    case Function(_, _) => true
    case Object(_) => true
  }

  /**
   * `v[key]` for a value that is neither undefined nor null (reading a
   * property of those throws a TypeError). A property of an object or a
   * function, own or inherited, is found; anything else reads as undefined.
   */
  function Property(v: JsValue, key: string): (r: JsValue)
    requires !v.Undefined? && !v.Null?
    ensures (v.Object? || v.Function?) && key in v.props ==> r == v.props[key]
    ensures !r.Undefined? ==> (v.Object? || v.Function?) && key in v.props
  {
    match v
    case Function(_, props) => if key in props then props[key] else Undefined
    case Object(props) => if key in props then props[key] else Undefined
    case _ => Undefined
  }
}
