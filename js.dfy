/**
 * JavaScript values as the clients see them: arguments passed by a caller and
 * JSON documents after parsing, together with the small type predicates the
 * clients use to validate them, and the failure-carrying result types that
 * stand for a thrown Error.
 */
module Js {

  datatype Option<+T> = None | Some(value: T)

  /** Success with a value, or the Error the JavaScript code throws. */
  datatype Result<+R, +E> = Success(value: R) | Failure(error: E)

  /** Normal completion, or the Error the JavaScript code throws. */
  datatype Outcome<+E> = Pass | Fail(error: E)

  /** A JavaScript value; numbers are modelled as reals (no NaN, no infinities). */
  datatype JsValue =
    | Undefined
    | Null
    | Bool(b: bool)
    | Num(n: real)
    | Str(s: string)
    | Arr(elems: seq<JsValue>)
    | Obj(members: map<string, JsValue>)

  /** `isDefined`: the value is neither `undefined` nor `null`. */
  predicate IsDefined(v: JsValue) {
    !v.Undefined? && !v.Null?
  }

  /** `isNumber`, `isString`, `isBoolean`: the `typeof` tests. */
  predicate IsNumber(v: JsValue) { v.Num? }
  predicate IsString(v: JsValue) { v.Str? }
  predicate IsBoolean(v: JsValue) { v.Bool? }

  /** Property read `v.key`: `undefined` unless `v` is an object that owns `key`. */
  function Prop(v: JsValue, key: string): JsValue {
    if v.Obj? && key in v.members then v.members[key] else Undefined
  }

  /** An optional numeric argument after validation. */
  function OptionalNumber(v: JsValue): Option<real> {
    if v.Num? then Some(v.n) else None
  }

  /** An optional boolean argument after validation. */
  function OptionalBool(v: JsValue): Option<bool> {
    if v.Bool? then Some(v.b) else None
  }

  /** An optional string argument after validation. */
  function OptionalString(v: JsValue): Option<string> {
    if v.Str? then Some(v.s) else None
  }
}
