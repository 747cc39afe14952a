/**
 * The JavaScript values a handler receives from `req.json()`, and the three
 * tests the handlers apply to them: truthiness (`!x`), `typeof x === 'number'`
 * and property reads (`x.key`), which throw a TypeError on `undefined` and `null`.
 */
module Js {

  /** A JavaScript number. Only its truthiness and its type are ever examined. */
  datatype Number = NaN | Infinite(negative: bool) | Finite(x: real)

  datatype Value =
    | Undefined
    | Null
    | Bool(b: bool)
    | Num(n: Number)
    | Str(s: string)
    | Arr(items: seq<Value>)
    | Obj(props: map<string, Value>)
  {
    /** `x === undefined || x === null`: the values whose properties cannot be read. */
    predicate IsNullish() {
      Undefined? || Null?
    }

    /** `!!x`: false exactly for undefined, null, false, 0, -0, NaN and "". */
    predicate Truthy() {
      match this
      case Undefined => false
      case Null => false
      case Bool(b) => b
      case Num(n) => n.Infinite? || (n.Finite? && n.x != 0.0)
      case Str(s) => s != ""
      case Arr(_) => true
      case Obj(_) => true
    }

    /** `typeof x === 'number'`: true for every number, zero and NaN included. */
    predicate IsNumber() {
      Num?
    }

    /**
     * `x.key` on a value that is neither undefined nor null. Only an object's own
     * properties are modelled; none of the keys the handlers read is a built-in
     * property of strings, numbers, booleans or arrays, so those give undefined.
     */
    function Get(key: string): (r: Value)
      requires !IsNullish()
      ensures Obj? && key in props ==> r == props[key]
      ensures !(Obj? && key in props) ==> r == Undefined
    {
      if Obj? && key in props then props[key] else Undefined
    }

    /** The same object with one own property replaced or added. */
    function With(key: string, v: Value): (r: Value)
      requires Obj?
      ensures r.Obj? && r.Get(key) == v
      ensures forall k :: k != key ==> r.Get(k) == Get(k)
    {
      Obj(props[key := v])
    }
  }

  /** The message of the TypeError thrown by reading `key` from undefined or null. */
  function ReadError(v: Value, key: string): (m: string)
    requires v.IsNullish()
  {
    "Cannot read properties of " + (if v.Undefined? then "undefined" else "null")
      + " (reading '" + key + "')"
  }
}
