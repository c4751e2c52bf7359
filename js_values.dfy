/**
 * The JavaScript values the search page reads out of a decoded webhook
 * response, and the few language rules the page relies on: truthiness,
 * reading a named property, optional chaining on `length`, and the
 * TypeErrors that reading through `null` or calling a missing method throws.
 */
module JsValues {

  /** A value decoded from JSON. `Undefined` never comes out of a JSON text:
      it is what reading an absent property yields. Numbers are kept as
      reals, so a body holding an out-of-range literal such as `1e400`, which
      decodes to `Infinity`, cannot be expressed. Truthiness tests are
      unaffected; where the page writes such a number as text it would show
      `Infinity`, which is not covered here. */
  datatype Json =
    | Undefined
    | Null
    | Bool(b: bool)
    | Num(n: real)
    | Str(s: string)
    | Arr(items: seq<Json>)
    | Obj(fields: map<string, Json>)

  /** The TypeErrors the page can run into while rendering a response. */
  datatype Fault =
    | ReadOfNullish(property: string)   // `x.property` with x null or undefined
    | NotAFunction(property: string)    // `x.property(...)` where that property is no function

  /** JavaScript's `if (v)` test. Arrays and objects are truthy even when empty. */
  predicate Truthy(v: Json) {
    match v
    case Undefined => false
    case Null => false
    case Bool(b) => b
    case Num(n) => n != 0.0
    case Str(s) => |s| != 0
    case Arr(_) => true
    case Obj(_) => true
  }

  /** The two values whose properties cannot be read. */
  predicate Nullish(v: Json) {
    v.Undefined? || v.Null?
  }

  /** `v.key` for a key that is neither `length` nor a member of
      Object.prototype (every key the page reads is of this kind): an own
      property of an object, and `undefined` for everything else. */
  function Prop(v: Json, key: string): Json
    requires !Nullish(v)
  {
    if v.Obj? && key in v.fields then v.fields[key] else Undefined
  }

  /** `v?.length`: undefined for null and undefined, the length of a string
      or array, an object's own `length` property, and undefined for
      booleans and numbers. */
  function OptionalLength(v: Json): Json
  {
    match v
    case Str(s) => Num(|s| as real)
    case Arr(xs) => Num(|xs| as real)
    case Obj(_) => Prop(v, "length")
    case _ => Undefined
  }

  /** A string or an array has a truthy `length` exactly when it is not empty. */
  lemma {:induction false} LengthTruthyIffNonEmpty(v: Json)
    requires v.Str? || v.Arr?
    ensures Truthy(OptionalLength(v)) <==> (if v.Str? then v.s != "" else v.items != [])
  {
    if v.Str? {
      assert |v.s| == 0 <==> v.s == "";
    } else {
      assert |v.items| == 0 <==> v.items == [];
    }
  }
}
