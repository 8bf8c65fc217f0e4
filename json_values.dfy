/** The decoded webhook body as Python sees it, and the few Python operations the
    handler applies to it: subscripting, `.get`, truth testing and `str()`. */
module JsonValues {
  import opened Wrappers
  import opened Decimal

  /** A JSON value: null, true/false, an integer, a string, an array or an object. */
  datatype Json =
    | JNull
    | JBool(b: bool)
    | JInt(i: int)
    | JStr(str: string)
    | JArr(items: seq<Json>)
    | JObj(fields: map<string, Json>)

  /** The exception a Python operation on a payload value raises. `UnmodelledRepr` stands for
      `str()` of an object or array, whose text this model does not produce. */
  datatype Fault = KeyError(key: string) | TypeError | AttributeError | UnmodelledRepr

  /** `j[key]`: only a dict can be subscripted by a string key. */
  function Subscript(j: Json, key: string): Result<Json, Fault> {
    match j
    case JObj(fields) => if key in fields then Success(fields[key]) else Failure(KeyError(key))
    case _ => Failure(TypeError)
  }

  /** `j[path[0]][path[1]]...`, evaluated left to right, stopping at the first exception. */
  function SubscriptPath(j: Json, path: seq<string>): Result<Json, Fault> {
    if path == [] then Success(j)
    else
      var v :- Subscript(j, path[0]);
      SubscriptPath(v, path[1..])
  }

  /** `j.get(key, default)`: only a dict has a `get` method. */
  function Get(j: Json, key: string, default: Json): Result<Json, Fault> {
    match j
    case JObj(fields) => Success(if key in fields then fields[key] else default)
    case _ => Failure(AttributeError)
  }

  /** Python truth testing: null, false, zero and empty containers are false. */
  predicate Truthy(j: Json) {
    match j
    case JNull => false
    case JBool(b) => b
    case JInt(i) => i != 0
    case JStr(s) => s != ""
    case JArr(items) => items != []
    case JObj(fields) => fields != map[]
  }

  /** `str(j)` for the scalar values. */
  function PyStr(j: Json): Result<string, Fault> {
    match j
    case JNull => Success("None")
    case JBool(b) => Success(if b then "True" else "False")
    case JInt(i) => Success(IntToDecimal(i))
    case JStr(s) => Success(s)
    case _ => Failure(UnmodelledRepr)
  }

  /** The value found by following `path` through nested objects, if every key is there. */
  function At(j: Json, path: seq<string>): Option<Json> {
    if path == [] then Some(j)
    else if j.JObj? && path[0] in j.fields then At(j.fields[path[0]], path[1..])
    else None
  }

  /** A chain of subscripts succeeds exactly when the path leads through objects holding every
      key, yields the value found there, and otherwise raises KeyError or TypeError. */
  lemma {:induction false} SubscriptPathAt(j: Json, path: seq<string>)
    ensures SubscriptPath(j, path).Success? <==> At(j, path).Some?
    ensures SubscriptPath(j, path).Success? ==> SubscriptPath(j, path).value == At(j, path).value
    ensures SubscriptPath(j, path).Failure? ==>
              SubscriptPath(j, path).error.KeyError? || SubscriptPath(j, path).error == TypeError
  {
    if path != [] && j.JObj? && path[0] in j.fields {
      SubscriptPathAt(j.fields[path[0]], path[1..]);
    }
  }

  /** One step along a path: the first key is looked up in an object, the rest in what it holds. */
  lemma AtCons(j: Json, key: string, rest: seq<string>)
    ensures At(j, [key] + rest) == if j.JObj? && key in j.fields then At(j.fields[key], rest) else None
  {
    assert ([key] + rest)[1..] == rest;
  }
}
