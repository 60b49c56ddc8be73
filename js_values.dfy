/** The few JavaScript values the response cache is ever handed, and the
    language's truthiness test on them (what `if (data)` and `this.cache && …`
    decide). */
module JsValues {

  /** A JavaScript value: the two empty values, a number (integers only), a
      string, a boolean, or an ordinary object identified by an opaque id; an
      object here is never thenable (it has no callable `then`). */
  datatype JsValue =
    | Null
    | Undefined
    | Num(n: int)
    | Str(s: string)
    | Bool(b: bool)
    | Obj(id: nat)

  /** JavaScript truthiness: exactly null, undefined, 0, "" and false are
      falsy among these values; every object is truthy. */
  predicate Truthy(v: JsValue)
    ensures Truthy(v) <==> v !in {Null, Undefined, Num(0), Str(""), Bool(false)}
  {
    match v
    case Null => false
    case Undefined => false
    case Num(n) => n != 0
    case Str(s) => s != ""
    case Bool(b) => b
    case Obj(_) => true
  }
}
