/**
 * The slice of JavaScript's value domain that the retry loop observes: the
 * results the wrapped function returns, the values it throws, the answers of
 * the continuation filter and the arguments that are passed through.
 */
module JsValues {

  datatype Option<+T> = None | Some(value: T)

  /**
   * A JavaScript value. Numbers are integers (NaN and fractions are not
   * modelled); `ErrorObject` is an `Error` instance with its message, and
   * `Object` any other object, told apart by an identity.
   */
  datatype Value =
    | Undefined
    | Null
    | Bool(b: bool)
    | Num(n: int)
    | Str(s: string)
    | ErrorObject(message: string)
    | Object(id: nat)

  /** JavaScript truthiness: `!v` is true exactly when `Truthy(v)` is false. */
  predicate Truthy(v: Value) {
    match v
    case Undefined => false
    case Null => false
    case Bool(b) => b
    case Num(n) => n != 0
    case Str(s) => s != ""
    case ErrorObject(_) => true
    case Object(_) => true
  }

  /** The falsy values of JavaScript, as far as they are modelled: all other values are truthy. */
  lemma FalsyValues(v: Value)
    ensures !Truthy(v) <==> v in {Undefined, Null, Bool(false), Num(0), Str("")}
  {
  }

  /**
   * How a call to a caller-supplied function settles once it is awaited:
   * a synchronous throw and a rejected promise are the same `Threw`.
   */
  datatype Outcome = Returned(value: Value) | Threw(error: Value)
}
