/**
 The JavaScript values that a form state entry or a control's value can hold,
 with the two operators the form factory applies to them: `||` (which
 depends on truthiness, ToBoolean in section 7.1.2 of ECMA-262) and `===`
 (IsStrictlyEqual, section 7.2.15 of ECMA-262).
 */
module JsValue {

  /** Numbers are finite reals plus NaN; +0 and -0 are the one real 0, which
      is how both truthiness and `===` treat them. Objects, arrays and
      functions are references, equal only to themselves. */
  datatype Value =
    | Undefined
    | Null
    | Bool(b: bool)
    | Num(x: real)
    | NaN
    | Str(s: string)
    | Ref(id: nat)

  /** ToBoolean: everything is truthy except undefined, null, false, 0, NaN and "". */
  predicate Truthy(v: Value) {
    match v
    case Undefined => false
    case Null => false
    case Bool(b) => b
    case Num(x) => x != 0.0
    case NaN => false
    case Str(s) => s != ""
    case Ref(_) => true
  }

  /** `a || b`: yields one of its operands unconverted, never a fresh boolean. */
  function Or(a: Value, b: Value): (r: Value)
    ensures r == a || r == b
    ensures Truthy(r) <==> Truthy(a) || Truthy(b)
    ensures Truthy(a) ==> r == a
    ensures !Truthy(a) ==> r == b
  {
    if Truthy(a) then a else b
  }

  /** `a === b`: same type and same value, numbers compared numerically
      (so NaN equals nothing), references compared by identity. */
  function StrictEquals(a: Value, b: Value): (r: bool)
    ensures r <==> a == b && a != NaN
  {
    match a
    case Undefined => b.Undefined?
    case Null => b.Null?
    case Bool(p) => b.Bool? && b.b == p
    case Num(x) => b.Num? && b.x == x
    case NaN => false
    case Str(s) => b.Str? && b.s == s
    case Ref(i) => b.Ref? && b.id == i
  }
}
