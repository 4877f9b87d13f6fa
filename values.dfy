/** JavaScript values as a Thing stores, returns and tests them. */
module Values {

  /** The values a property, a parameter or a handler result can hold.
      Objects, arrays and functions are known only by their reference. */
  datatype Value =
    | Undefined
    | Null
    | Bool(b: bool)
    | Num(x: real)   // a finite number; +0 and -0 are both 0.0
    | NaN
    | Str(s: string)
    | Obj(id: nat)

  /** JavaScript's ToBoolean: what `if (v)` tests. */
  predicate Truthy(v: Value)
  {
    match v
    case Undefined => false
    case Null => false
    case Bool(b) => b
    case Num(x) => x != 0.0
    case NaN => false
    case Str(s) => s != ""
    case Obj(_) => true
  }

  /** The falsy values of this Value type, listed independently of Truthy. */
  lemma FalsyValues(v: Value)
    ensures !Truthy(v) <==> v in {Undefined, Null, Bool(false), Num(0.0), NaN, Str("")}
  {
  }

  /** A slot that holds `null` (None) or a value. */
  datatype Option<+T> = None | Some(value: T)

  /** A settled promise: resolved with a value, or rejected with an Error's message. */
  datatype Result<+T> = Ok(value: T) | Err(msg: string)
}
