/**
  JSON-like JavaScript values as the server and the pages see them: request
  bodies, database rows, response bodies. `Undefined` (a property that is not
  there) and `Null` (a stored SQL null) are kept apart, as JavaScript does.
*/
module JsValues {
  import opened Wrappers
  import opened JsStrings

  datatype Value =
    | Undefined
    | Null
    | Bool(b: bool)
    | Num(n: int)
    | Str(s: string)
    | Arr(items: seq<Value>)
    | Obj(fields: map<string, Value>)

  /** A row, a request body or a plain object: property name to value. */
  type Record = map<string, Value>

  /** JavaScript truthiness (numbers are integers here, so NaN does not arise). */
  predicate Truthy(v: Value)
  {
    match v
    case Undefined => false
    case Null => false
    case Bool(b) => b
    case Num(n) => n != 0
    case Str(s) => s != ""
    case Arr(_) => true
    case Obj(_) => true
  }

  /** `r.key`: a missing property reads as `undefined`. */
  function Get(r: Record, key: string): Value
  {
    if key in r then r[key] else Undefined
  }

  /** `a || b` */
  function Or(a: Value, b: Value): (r: Value)
    ensures Truthy(a) ==> r == a
    ensures !Truthy(a) ==> r == b
  {
    if Truthy(a) then a else b
  }

  /** `{...v}`: the own properties of an object; a primitive spreads to nothing. */
  function Spread(v: Value): Record
  {
    if v.Obj? then v.fields else map[]
  }

  /** `String(n)` for an integer. */
  function IntString(n: int): (s: string)
    ensures n >= 0 ==> s == DecimalString(n)
  {
    if n >= 0 then DecimalString(n) else "-" + DecimalString(-n)
  }

  /** `String(v)`, as a template literal `${v}` converts its operands. */
  function JsString(v: Value): string
    decreases v
  {
    match v
    case Undefined => "undefined"
    case Null => "null"
    case Bool(b) => if b then "true" else "false"
    case Num(n) => IntString(n)
    case Str(s) => s
    case Arr(items) =>
      // Array.prototype.toString joins with "," and shows null and undefined as ""
      Join(seq(|items|, i requires 0 <= i < |items| =>
        if items[i].Undefined? || items[i].Null? then "" else JsString(items[i])), ",")
    case Obj(_) => "[object Object]"
  }

  /**
    `Number(v)`, the conversion a comparison such as `v > 0` applies; `None`
    is NaN. An array or object is first turned into its string.
  */
  function ToNumber(v: Value): Option<int>
  {
    match v
    case Undefined => None
    case Null => Some(0)
    case Bool(b) => Some(if b then 1 else 0)
    case Num(n) => Some(n)
    case Str(s) => StringToNumber(s)
    case Arr(_) => StringToNumber(JsString(v))
    case Obj(_) => StringToNumber(JsString(v))
  }

  /** `v > 0` */
  predicate GreaterThanZero(v: Value)
  {
    ToNumber(v).Some? && ToNumber(v).value > 0
  }

  /** A one-element array prints as its element, unless that is null or undefined. */
  lemma SingletonArrayString(v: Value)
    requires !v.Undefined? && !v.Null?
    ensures JsString(Arr([v])) == JsString(v)
  {
    assert JsString(Arr([v])) == Join([JsString(v)], ",");
  }

  /**
    `v > 0` holds for a positive number, `true`, the decimal string of a
    positive number, and a one-element array holding either.
  */
  lemma GreaterThanZeroOf(n: nat)
    requires n > 0
    ensures GreaterThanZero(Num(n)) && GreaterThanZero(Bool(true))
    ensures GreaterThanZero(Str(DecimalString(n)))
    ensures GreaterThanZero(Arr([Num(n)])) && GreaterThanZero(Arr([Str(DecimalString(n))]))
  {
    StringToNumberOfDecimal(n);
    SingletonArrayString(Num(n));
    SingletonArrayString(Str(DecimalString(n)));
  }

  /** `v > 0` fails for a negative decimal string, `null`, `undefined`, `false`, `""` and `[]`. */
  lemma NotGreaterThanZeroOf(n: nat)
    ensures !GreaterThanZero(Str("-" + DecimalString(n)))
    ensures !GreaterThanZero(Null) && !GreaterThanZero(Undefined) && !GreaterThanZero(Bool(false))
    ensures !GreaterThanZero(Str("")) && !GreaterThanZero(Arr([]))
  {
    StringToNumberOfDecimal(n);
    assert JsString(Arr([])) == Join([], ",");
  }

  /** An object converts through "[object Object]", which is NaN. */
  lemma ObjectNotGreaterThanZero(m: map<string, Value>)
    ensures ToNumber(Obj(m)) == None && !GreaterThanZero(Obj(m))
  {
    StringToNumberNaN("[object Object]", 0);
  }
}
