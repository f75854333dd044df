/** Small helper datatypes shared by the other modules. */
module Wrappers {

  datatype Option<+T> = None | Some(value: T)

  /** The value of an optional property as JavaScript reads it: absent reads as the fallback. */
  function GetOr<T>(o: Option<T>, fallback: T): (r: T)
    ensures o.Some? ==> r == o.value
    ensures o.None? ==> r == fallback
  {
    match o
    case Some(v) => v
    case None => fallback
  }
}

/**
  The part of the JavaScript runtime the model needs: values, truthiness,
  `typeof`, reading a property of a plain object, and calls into foreign
  functions (defaults supplied as functions).
 */
module Js {

  /** A JavaScript value. Objects and functions are references, told apart by `ref`. */
  datatype Value =
    | Undefined
    | Null
    | Bool(b: bool)
    | Number(n: int)
    | NaN
    | Str(s: string)
    | Obj(ref: nat)
    | Func(ref: nat)

  /** JavaScript's ToBoolean: `undefined`, `null`, `false`, `0`, `NaN` and `""` are falsy. */
  predicate Truthy(v: Value) {
    match v
    case Undefined => false
    case Null => false
    case Bool(b) => b
    case Number(n) => n != 0
    case NaN => false
    case Str(s) => s != ""
    case Obj(_) => true
    case Func(_) => true
  }

  /** The `typeof` operator. */
  function TypeOf(v: Value): (t: string)
    ensures t == "function" <==> v.Func?
    ensures t == "undefined" <==> v.Undefined?
    ensures t == "string" <==> v.Str?
  {
    match v
    case Undefined => "undefined"
    case Null => "object"
    case Bool(_) => "boolean"
    case Number(_) => "number"
    case NaN => "number"
    case Str(_) => "string"
    case Obj(_) => "object"
    case Func(_) => "function"
  }

  /** Reading `m[k]` from a plain object: a missing key reads as `undefined`. */
  function Lookup(m: map<string, Value>, k: string): (v: Value)
    ensures k in m ==> v == m[k]
    ensures k !in m ==> v == Undefined
  {
    if k in m then m[k] else Undefined
  }

  /** Every falsy value of the model is one of the six JavaScript falsy values. */
  lemma FalsyValues(v: Value)
    ensures !Truthy(v) <==> v in {Undefined, Null, Bool(false), Number(0), NaN, Str("")}
  {
  }

  /**
    The host that runs foreign code. A function value is called through `Call`;
    what the call returns is fixed by `outcome`, given the function and the
    number of foreign calls made before it, so two calls of the same
    generator may return different values. `calls` logs every call in order.
   */
  class Host {
    var calls: seq<nat>
    const outcome: (nat, nat) -> Value

    constructor (outcome: (nat, nat) -> Value)
      ensures calls == [] && this.outcome == outcome
    {
      this.outcome := outcome;
      calls := [];
    }

    /** Calls the function `f` with no arguments. */
    method Call(f: nat) returns (r: Value)
      modifies this
      ensures calls == old(calls) + [f]
      ensures r == outcome(f, |old(calls)|)
    {
      r := outcome(f, |calls|);
      calls := calls + [f];
    }
  }
}
