/** The JavaScript values that cross the callbag boundary, and the two
    pieces of JavaScript semantics the adapter relies on: truthiness
    (`if (x)`) and the short-circuit `||` operator. */
module JsValues {

  /** A JavaScript value as far as the adapter can observe it. Numbers are
      modelled as integers; a function or object is an opaque reference. */
  datatype Value =
    | Undefined
    | Null
    | Bool(b: bool)
    | Num(n: int)
    | Str(s: string)
    | Ref(addr: nat)

  /** The falsy values of JavaScript, as far as `Value` can express them
      (`NaN` and `-0` are not values here). */
  const Falsy: set<Value> := {Undefined, Null, Bool(false), Num(0), Str("")}

  /** JavaScript truthiness, the test `if (x)`: `undefined`, `null`, `false`,
      `0` and `""` are falsy, every other value is truthy. */
  predicate IsTruthy(v: Value): (r: bool)
    ensures r <==> v !in Falsy
  {
    match v
    case Undefined => false
    case Null => false
    case Bool(b) => b
    case Num(n) => n != 0
    case Str(s) => s != ""
    case Ref(_) => true
  }

  /** JavaScript `a || b`: the left operand when it is truthy, else the right. */
  function Or(a: Value, b: Value): (r: Value)
    ensures IsTruthy(a) ==> r == a
    ensures !IsTruthy(a) ==> r == b
    ensures IsTruthy(b) ==> IsTruthy(r)
  {
    if IsTruthy(a) then a else b
  }
}
