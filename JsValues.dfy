/** The few JavaScript values and operators the client relies on: truthiness,
    the `||` default operator, property lookup and `String.prototype.substr`,
    together with the outcomes (resolved value or rejection) of its promises. */
module JsValues {

  /** A JavaScript value. Numbers are modelled as integers. */
  datatype JsValue =
    | Undefined
    | Null
    | Bool(b: bool)
    | Num(n: int)
    | Str(s: string)
    | Arr(elems: seq<JsValue>)
    | Obj(props: map<string, JsValue>)

  /** An optional value: an argument array that is there or not. */
  datatype Option<+T> = None | Some(value: T)

  /** The outcome of a promise chain: resolved with a value or rejected with an error. */
  datatype Result<+T, +E> = Success(value: T) | Failure(error: E)

  /** The errors the library throws or rejects with. */
  datatype Error =
    | InvalidApiKey                 // thrown by the factory for a falsy key
    | TypeError(what: string)       // raised by the JavaScript runtime
    | LoadFailed(cause: string)     // the schema document could not be read or dereferenced
    | PayloadUndefined              // the validator was handed `undefined`
    | Invalid(message: string)      // the schema rejected the payload
    | TransportFailed(cause: string) // the JSON-RPC transport could not deliver a response
    | Remote(error: JsValue)        // the service answered with a truthy `error` member

  /** The message each error of the library carries, where the library writes it. */
  function Message(e: Error): (m: string)
    ensures e.InvalidApiKey? ==> m == "Invalid Vision6 API Key"
    ensures e.PayloadUndefined? ==> m == "Payload is undefined"
    ensures m != ""
  {
    match e
    case InvalidApiKey => "Invalid Vision6 API Key"
    case TypeError(what) => "TypeError: " + what
    case LoadFailed(cause) => "Schema load failed: " + cause
    case PayloadUndefined => "Payload is undefined"
    case Invalid(message) => "Invalid: " + message
    case TransportFailed(cause) => "Transport failed: " + cause
    case Remote(_) => "Remote error"
  }

  /** The five falsy values of JavaScript that a `JsValue` can be. */
  const FalsyValues: set<JsValue> := {Undefined, Null, Bool(false), Num(0), Str("")}

  /** JavaScript truthiness: `undefined`, `null`, `false`, `0` and `""` are the falsy
      values; every array and object, even an empty one, is truthy. */
  predicate Truthy(v: JsValue)
    ensures Truthy(v) <==> v !in FalsyValues
  {
    match v
    case Undefined => false
    case Null => false
    case Bool(b) => b
    case Num(n) => n != 0
    case Str(s) => s != ""
    case Arr(_) => true
    case Obj(_) => true
  }

  /** `a || b`: the left operand when it is truthy, the right one otherwise. */
  function Or(a: JsValue, b: JsValue): (r: JsValue)
    ensures r == a || r == b
    ensures Truthy(r) <==> Truthy(a) || Truthy(b)
    ensures Truthy(a) ==> r == a
    ensures !Truthy(a) ==> r == b
  {
    if Truthy(a) then a else b
  }

  /** `v[key]` for a value that is neither `undefined` nor `null`: an object's own
      property, and `undefined` for a property that is absent. Arrays, strings,
      numbers and booleans carry no property the client reads. */
  function Get(v: JsValue, key: string): (r: JsValue)
    requires !v.Undefined? && !v.Null?
    ensures v.Obj? && key in v.props ==> r == v.props[key]
    ensures !(v.Obj? && key in v.props) ==> r == Undefined
  {
    match v
    case Obj(props) => if key in props then props[key] else Undefined
    case _ => Undefined
  }

  /** `s.substr(start, length)` for non-negative arguments: at most `length`
      characters of `s` from position `start` on. */
  function Substr(s: string, start: nat, length: nat): (r: string)
    ensures |r| <= length
    ensures start + length <= |s| ==> |r| == length
    ensures forall i :: 0 <= i < |r| ==> start + i < |s| && r[i] == s[start + i]
    ensures start + length > |s| ==> r == (if start >= |s| then "" else s[start..])
  {
    if start >= |s| then ""
    else if start + length <= |s| then s[start..start + length]
    else s[start..]
  }

  /** `s.substr(0, |p|) === p` holds exactly when `p` is a prefix of `s`. */
  lemma SubstrPrefix(s: string, p: string)
    ensures Substr(s, 0, |p|) == p <==> p <= s
  {
  }
}
