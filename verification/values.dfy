/**
 * The JavaScript values the document layer handles: the plain objects
 * callers pass in, and the tagged attribute-value objects of the wire format
 * (which are plain objects too, such as `{"N": "1"}`).
 */
module Values {
  import Decimal

  /**
   * A JSON-like JavaScript value. Numbers are safe integers; an object is a map
   * from its own enumerable keys to their values (key order is not kept,
   * as deep equality ignores it).
   */
  datatype Value =
    | Num(n: int)
    | Str(s: string)
    | Bool(b: bool)
    | Null
    | Obj(fields: map<string, Value>)
    | Arr(items: seq<Value>)

  /** A plain object: field name to value. */
  type Object = map<string, Value>

  /** JavaScript's `typeof`. */
  function TypeOf(v: Value): string
  {
    match v
    case Num(_) => "number"
    case Str(_) => "string"
    case Bool(_) => "boolean"
    case _ => "object"
  }

  /** The text a template literal `${v}` substitutes for v. */
  function Display(v: Value): string
  {
    match v
    case Num(n) => Decimal.IntToText(n)
    case Str(s) => s
    case Bool(b) => if b then "true" else "false"
    case Null => "null"
    case Obj(_) => "[object Object]"
    case Arr(items) => Join(items)
  }

  /** `Array.prototype.join(",")`: null elements become empty text. */
  function Join(items: seq<Value>): string
    decreases items, 0
  {
    if items == [] then ""
    else
      var first := if items[0].Null? then "" else Display(items[0]);
      if |items| == 1 then first else first + "," + Join(items[1..])
  }

  /** The object restricted to the given keys (what a schema keeps). */
  function Restrict(o: Object, keys: set<string>): (r: Object)
    ensures r.Keys == o.Keys * keys
    ensures forall k :: k in r ==> r[k] == o[k]
  {
    map k | k in o && k in keys :: o[k]
  }
}
