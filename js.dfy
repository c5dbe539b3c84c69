/**
 * The few JavaScript value semantics the route handlers depend on: truthiness as
 * tested by `!x`, the destructuring default `{ quantity = 1 }` and `x || ""`.
 * A JSON body field is an `Option`: `None` is a field the body does not have
 * (JavaScript's `undefined`).
 */
module Js {
  import opened Wrappers

  /** A monetary amount in hundredths; the handlers store amounts and never compute with them. */
  type Amount = int

  /** An ISO-8601 string from `new Date().toISOString()`; the clock is a parameter of the model. */
  type Timestamp = string

  /** The JavaScript values a handler inspects after `request.json()`. */
  datatype Value =
    | Undefined
    | Null
    | Boolean(b: bool)
    | Number(n: int)
    | String(s: string)
    | Array(length: nat)
    | Object

  /** ToBoolean: the values that `!x` maps to `false`. */
  predicate Truthy(v: Value) {
    match v
    case Undefined => false
    case Null => false
    case Boolean(b) => b
    case Number(n) => n != 0
    case String(s) => s != ""
    case Array(_) => true
    case Object => true
  }

  function NumberField(o: Option<int>): Value {
    match o
    case None => Undefined
    case Some(n) => Number(n)
  }

  function StringField(o: Option<string>): Value {
    match o
    case None => Undefined
    case Some(s) => String(s)
  }

  function ArrayField<T>(o: Option<seq<T>>): Value {
    match o
    case None => Undefined
    case Some(xs) => Array(|xs|)
  }

  /** A numeric field passes `!x` exactly when it is present and not 0. */
  function IsPresentNumber(o: Option<int>): (present: bool)
    ensures present <==> o.Some? && o.value != 0
  {
    Truthy(NumberField(o))
  }

  /** A string field passes `!x` exactly when it is present and not empty. */
  function IsPresentString(o: Option<string>): (present: bool)
    ensures present <==> o.Some? && o.value != ""
  {
    Truthy(StringField(o))
  }

  /** An array field passes `!x` whenever it is present, even when it is empty. */
  function IsPresentArray<T>(o: Option<seq<T>>): (present: bool)
    ensures present <==> o.Some?
  {
    Truthy(ArrayField(o))
  }

  /**
   * Destructuring with a default, `const { x = d } = body`: only `undefined`
   * takes the default; `null`, 0 and every other value are kept.
   */
  function Destructure(v: Value, d: Value): Value {
    if v.Undefined? then d else v
  }

  /** A numeric field with a default: the default replaces only a missing field, never 0. */
  function WithDefault(o: Option<int>, d: int): (n: int)
    ensures o.None? ==> n == d
    ensures o.Some? ==> n == o.value
  {
    match Destructure(NumberField(o), Number(d))
    case Number(n) => n
    case _ => d
  }

  /** `s || ""`: a missing or empty string becomes the empty string. */
  function OrEmpty(o: Option<string>): (s: string)
    ensures o.Some? && o.value != "" ==> s == o.value
    ensures o.None? || o.value == "" ==> s == ""
  {
    if Truthy(StringField(o)) then o.value else ""
  }

  /** `s || ""` yields `""` exactly when the field fails `!x`. */
  lemma OrEmptyIsEmptyIff(o: Option<string>)
    ensures OrEmpty(o) == "" <==> !IsPresentString(o)
  {
  }
}
