/** Untyped JSON values as a JavaScript program sees them after `JSON.parse` or an
    RPC reply, with the truthiness and property-access rules the code relies on. */
module Json {
  import opened Wrappers
  import opened JsNumber

  datatype JValue =
    | JNull
    | JBool(b: bool)
    | JNum(n: Num)
    | JStr(s: string)
    | JArr(items: seq<JValue>)
    | JObj(props: map<string, JValue>)

  /** JavaScript truthiness: null, false, 0, NaN and "" are falsy. */
  predicate Truthy(v: JValue)
  {
    match v
    case JNull => false
    case JBool(b) => b
    case JNum(n) => n != NaN && n != Finite(0.0)
    case JStr(s) => s != ""
    case _ => true
  }

  /** `v.key`; None stands for `undefined` (a missing property, or a value that is
      not an object). */
  function Get(v: JValue, key: string): Option<JValue>
  {
    if v.JObj? && key in v.props then Some(v.props[key]) else None
  }

  /** `a ?? b`: the right operand when the left one is null or undefined. */
  function Coalesce(a: Option<JValue>, b: Option<JValue>): (r: Option<JValue>)
    ensures a.Some? && a.value != JNull ==> r == a
    ensures (a.None? || a.value == JNull) ==> r == b
  {
    if a.Some? && a.value != JNull then a else b
  }

  /** `Number(v)`; None stands for `undefined`, which converts to NaN. */
  function ToNumber(v: Option<JValue>): (n: Num)
    ensures v == Some(JNull) ==> n == Finite(0.0)
    ensures v.None? || (v.Some? && v.value.JObj?) ==> n == NaN
  {
    match v
    case None => NaN
    case Some(JNull) => Finite(0.0)
    case Some(JBool(b)) => Finite(if b then 1.0 else 0.0)
    case Some(JNum(n)) => n
    case Some(JStr(s)) => StringToNumber(s)
    case Some(JArr(items)) => ArrayToNumber(items)
    case Some(JObj(_)) => NaN
  }

  /** `Number(a)` for an array: the number of its string `a.join(",")`. No element
      gives "" (zero); two or more give a string with a comma (NaN); a single
      element gives the number of that element's string form. */
  function ArrayToNumber(items: seq<JValue>): (n: Num)
    decreases items, 1
  {
    if |items| == 0 then Finite(0.0)
    else if |items| == 1 then ElementToNumber(items[0])
    else NaN
  }

  /** The number of `String(x)` for an array element: null joins as "", a boolean
      as "true" or "false", an object as "[object Object]". */
  function ElementToNumber(x: JValue): (n: Num)
    decreases x, 0
  {
    match x
    case JNull => Finite(0.0)
    case JBool(_) => NaN
    case JNum(n) => n
    case JStr(s) => StringToNumber(s)
    case JArr(items) => ArrayToNumber(items)
    case JObj(_) => NaN
  }
}
