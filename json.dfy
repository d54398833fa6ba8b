/**
 * The JavaScript values a request body can hold, with the few operations the
 * core applies to them: property access, truthiness, `String(v)` and `Number(v)`.
 * Numbers are integers here; `undefined` is the `None` of an `Option<Value>`.
 */
module Json {
  import opened Wrappers
  import opened Text

  datatype Value =
    | Null
    | Bool(b: bool)
    | Num(n: int)
    | Str(s: string)
    | Arr(items: seq<Value>)
    | Obj(fields: map<string, Value>)

  /** `v[key]`: the property, or `undefined` when `v` is not an object or lacks it. */
  function Get(v: Value, key: string): (r: Option<Value>)
    ensures r.Some? <==> v.Obj? && key in v.fields
  {
    if v.Obj? && key in v.fields then Some(v.fields[key]) else None
  }

  /** JavaScript truthiness: `null`, `false`, `0` and `''` are falsy. */
  predicate Truthy(v: Value) {
    match v
    case Null => false
    case Bool(b) => b
    case Num(n) => n != 0
    case Str(s) => s != ""
    case _ => true
  }

  /** Truthiness of a possibly undefined value. */
  predicate Present(o: Option<Value>) {
    o.Some? && Truthy(o.value)
  }

  /** `String(v)`; an array renders as its elements joined by commas, `null` elements as ''. */
  function ToStr(v: Value): string
    decreases v
  {
    match v
    case Null => "null"
    case Bool(b) => if b then "true" else "false"
    case Num(n) => IntToString(n)
    case Str(s) => s
    case Arr(items) =>
      Join(seq(|items|, i requires 0 <= i < |items| => if items[i].Null? then "" else ToStr(items[i])), ",")
    case Obj(_) => "[object Object]"
  }

  /**
   * `Number(s)` for a string: '' (after trim) is 0, an optionally signed run of
   * digits is its value, and anything else is NaN (`None`).
   */
  function StringToNumber(s: string): Option<int> {
    var t := Trim(s);
    if t == "" then Some(0)
    else if t[0] == '-' && DigitString(t[1..]) then Some(-(DecimalValue(t[1..]) as int))
    else if t[0] == '+' && DigitString(t[1..]) then Some(DecimalValue(t[1..]))
    else if DigitString(t) then Some(DecimalValue(t))
    else None
  }

  /** `Number(v)`; `None` stands for NaN. Arrays and objects go through `String(v)`. */
  function Number(v: Value): Option<int> {
    match v
    case Null => Some(0)
    case Bool(b) => Some(if b then 1 else 0)
    case Num(n) => Some(n)
    case Str(s) => StringToNumber(s)
    case _ => StringToNumber(ToStr(v))
  }

  /** `value || null` for a string-or-null field. */
  function NonEmpty(o: Option<string>): (r: Option<string>)
    ensures r.Some? <==> o.Some? && o.value != ""
    ensures r.Some? ==> r == o
  {
    if o.Some? && o.value == "" then None else o
  }
}
