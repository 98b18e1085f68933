/**
 * The JavaScript values that flow through the application: request bodies,
 * `any`-typed answers in the project store, and the inputs of the schemas.
 */
module JsValue {
  import opened Wrappers

  /** A JavaScript value. Numbers are mathematical reals (no IEEE doubles, no NaN). */
  datatype Value =
    | Undefined
    | Null
    | Bool(b: bool)
    | Number(n: real)
    | Str(s: string)
    | Array(items: seq<Value>)
    | Object(fields: map<string, Value>)
    | Date(millis: int)

  /** The value stored under `key` in an object's fields, `undefined` when the key is absent. */
  function Field(fields: map<string, Value>, key: string): (r: Value)
    ensures key in fields ==> r == fields[key]
    ensures key !in fields ==> r == Undefined
  {
    if key in fields then fields[key] else Undefined
  }

  /**
   * The property read `v.key` of JavaScript: it throws a TypeError on `null`
   * and `undefined` (with V8's wording), reads an own field of an object, and
   * yields `undefined` for the other values (prototype properties are not modelled).
   */
  function Member(v: Value, key: string): (r: Result<Value, string>)
    ensures r.Failure? <==> (v == Null || v == Undefined)
    ensures v.Object? ==> r == Success(Field(v.fields, key))
  {
    match v
    case Undefined => Failure("Cannot read properties of undefined (reading '" + key + "')")
    case Null => Failure("Cannot read properties of null (reading '" + key + "')")
    case Object(fields) => Success(Field(fields, key))
    case _ => Success(Undefined)
  }

  /** JavaScript truthiness (the test behind `a || b`). */
  predicate Truthy(v: Value) {
    match v
    case Undefined => false
    case Null => false
    case Bool(b) => b
    case Number(n) => n != 0.0
    case Str(s) => s != ""
    case _ => true
  }

  /** The number of UTF-16 code units of one character, as JavaScript counts them. */
  function Utf16Units(c: char): nat {
    if c as int >= 0x1_0000 then 2 else 1
  }

  /** A string's JavaScript `length`: characters outside the basic plane count twice. */
  function Utf16Length(s: string): (n: nat)
    ensures |s| <= n <= 2 * |s|
    ensures (forall i | 0 <= i < |s| :: s[i] as int < 0x1_0000) ==> n == |s|
  {
    if s == [] then 0 else Utf16Units(s[0]) + Utf16Length(s[1..])
  }
}
