/** The JavaScript values that request payloads are made of, with the two
    language rules the handlers depend on: truthiness (`!x`, `x || y`) and
    object destructuring (`const {a} = v`). */
module JsValues {
  import opened Wrappers

  /** A JSON-like value. Numbers are integers here: NaN, -0 and fractions are
      not represented. */
  datatype Value =
    | Undefined
    | Null
    | Bool(b: bool)
    | Num(n: int)
    | Str(s: string)
    | Obj(fields: map<string, Value>)

  /** JavaScript truthiness: `undefined`, `null`, `false`, `0` and `""` are
      falsy, everything else (every object included) is truthy. */
  predicate Truthy(v: Value) {
    match v
    case Undefined => false
    case Null => false
    case Bool(b) => b
    case Num(n) => n != 0
    case Str(s) => s != ""
    case Obj(_) => true
  }

  /** Stands for the message of a JavaScript TypeError (reading a property
      of `undefined` or `null`, `replace` on a non-string); its wording is not
      modelled. */
  const TypeErrorText := "TypeError"

  /** `v.key` as read by destructuring `const {key} = v`, for the own data
      properties of a payload: `None` is the TypeError thrown for `undefined`
      and `null`; a key the object does not have reads as `undefined`, and so
      does every key of another primitive. Inherited properties (a string's
      `length`, an object's `constructor`) are not represented. */
  function Property(v: Value, key: string): (r: Option<Value>)
    ensures r.None? <==> v == Undefined || v == Null
    ensures v.Obj? && key in v.fields ==> r == Some(v.fields[key])
    ensures v.Obj? && key !in v.fields ==> r == Some(Undefined)
  {
    match v
    case Undefined => None
    case Null => None
    case Obj(f) => Some(if key in f then f[key] else Undefined)
    case _ => Some(Undefined)
  }
}
