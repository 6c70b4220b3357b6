/**
 * The JavaScript values that cross the handler's boundary: what the analyser
 * returns and what the `gitdata` table stores in its `data` column.  The
 * handler never looks inside them; it only asks whether they are truthy, as
 * `if (!result)` does.
 */
module JsValues {

  /** A JavaScript value.  Numbers are exact reals, with NaN kept apart
      (JavaScript's +0 and -0 are both the real 0). */
  datatype JsValue =
    | Undefined
    | Null
    | Bool(b: bool)
    | Num(n: real)
    | NaN
    | Str(s: string)
    | Arr(elements: seq<JsValue>)
    | Obj(fields: map<string, JsValue>)

  /** JavaScript's ToBoolean, as `if (!x)` applies it: the falsy values are
      exactly undefined, null, false, 0, NaN and the empty string; every
      array and object is truthy, empty or not. */
  predicate Truthy(v: JsValue)
    ensures !Truthy(v) <==> v in {Undefined, Null, Bool(false), Num(0.0), NaN, Str("")}
  {
    match v
    case Undefined => false
    case Null => false
    case Bool(b) => b
    case Num(n) => n != 0.0
    case NaN => false
    case Str(s) => s != ""
    case Arr(_) => true
    case Obj(_) => true
  }
}
