/** JavaScript values as far as the ERC-20 transfer tool looks at them: the dynamic
    values that optional parameters may hold, the `typeof` operator, truthiness,
    the two numeric comparisons the tool makes, and what a `throw` carries. */
module JsSemantics {

  datatype Option<+T> = None | Some(value: T)

  /** A JavaScript number. Finite doubles are abstracted to exact reals; the three
      non-finite values are kept because comparisons treat them specially. */
  datatype JsNumber = Finite(x: real) | PosInfinity | NegInfinity | NaN

  /** A dynamically typed JavaScript value. `Obj` stands for any object. */
  datatype JsValue = Undefined | Null | Bool(b: bool) | Num(n: JsNumber) | Str(s: string) | Obj

  /** The `typeof` operator (note that `typeof null` is "object"). */
  function TypeOf(v: JsValue): string
  {
    match v
    case Undefined => "undefined"
    case Null => "object"
    case Bool(_) => "boolean"
    case Num(_) => "number"
    case Str(_) => "string"
    case Obj => "object"
  }

  /** Truthiness of a number: 0 and NaN are falsy, everything else truthy. */
  predicate NumberTruthy(n: JsNumber)
  {
    match n
    case Finite(x) => x != 0.0
    case NaN => false
    case _ => true
  }

  /** Truthiness as used by `if (v)`, `!v` and `v && …`. */
  predicate Truthy(v: JsValue)
  {
    match v
    case Undefined => false
    case Null => false
    case Bool(b) => b
    case Num(n) => NumberTruthy(n)
    case Str(s) => s != ""
    case Obj => true
  }

  /** `n <= bound` for a number `n` and a finite `bound`; false when `n` is NaN. */
  predicate AtMost(n: JsNumber, bound: real)
  {
    match n
    case Finite(x) => x <= bound
    case NegInfinity => true
    case _ => false
  }

  /** `n > bound` for a number `n` and a finite `bound`; false when `n` is NaN. */
  predicate GreaterThan(n: JsNumber, bound: real)
  {
    match n
    case Finite(x) => x > bound
    case PosInfinity => true
    case _ => false
  }

  /** A value raised by `throw`: an `Error` instance with its message, or any other value. */
  datatype Thrown = ErrorInstance(message: string) | OtherValue(value: JsValue)

  /** What an awaited call to a collaborator does: return a value or throw. */
  datatype Outcome<+T> = Returned(value: T) | Threw(thrown: Thrown)

  /** `typeof v === "string"` holds exactly for string values. */
  lemma TypeOfString(v: JsValue)
    ensures TypeOf(v) == "string" <==> v.Str?
  {
  }

  /** `typeof v === "number"` holds exactly for number values. */
  lemma TypeOfNumber(v: JsValue)
    ensures TypeOf(v) == "number" <==> v.Num?
  {
  }
}
