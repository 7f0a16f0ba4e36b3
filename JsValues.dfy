/**
 * The JavaScript values a field of a search result can hold, with the two
 * coercions the card code applies to them: truthiness (`a || b`, `a ? b : c`)
 * and conversion to text (template literals `${a}`).
 */
module JsValues {
  import opened JsText

  /**
   * A JSON-decoded field. `Undefined` is a key the object lacks.
   * Numbers are integral and arrays hold strings; see README.
   */
  datatype Value =
    | Undefined
    | Null
    | Bool(b: bool)
    | Num(n: int)
    | Str(s: string)
    | Arr(items: seq<string>)

  /** ToBoolean: only `undefined`, `null`, `false`, `0` and `""` are falsy; every array is truthy. */
  function Truthy(v: Value): (r: bool)
    ensures !r <==> v in {Undefined, Null, Bool(false), Num(0), Str("")}
  {
    match v
    case Undefined => false
    case Null => false
    case Bool(b) => b
    case Num(n) => n != 0
    case Str(s) => s != ""
    case Arr(_) => true
  }

  /** ToString, as used by a template literal; an array joins its elements with ",". */
  function ToText(v: Value): (r: string)
    ensures v.Str? ==> r == v.s
    ensures v.Num? ==> r == IntToDecimal(v.n)
    ensures v.Arr? && |v.items| == 1 ==> r == v.items[0]
  {
    match v
    case Undefined => "undefined"
    case Null => "null"
    case Bool(b) => if b then "true" else "false"
    case Num(n) => IntToDecimal(n)
    case Str(s) => s
    case Arr(items) => Join(items, ",")
  }
}
