/**
 * The value an XML parser configured with `ignoreAttributes: false`,
 * `attributeNamePrefix: "@_"` and `parseTagValue: false` produces: every leaf is a
 * string, an element becomes an object keyed by child tag names (attributes under
 * "@_name" keys), and repeated sibling tags become an array.
 */
module Xml {
  import opened Wrappers
  import opened Text

  datatype XValue =
    | XStr(s: string)
    | XArr(items: seq<XValue>)
    | XObj(props: map<string, XValue>)

  /** JavaScript truthiness of a possibly `undefined` (None) parser value: only
      `undefined` and the empty string are falsy. */
  predicate Truthy(v: Option<XValue>)
  {
    v.Some? && v.value != XStr("")
  }

  /** `v?.key`: None (`undefined`) unless `v` is an object holding `key`. */
  function Prop(v: Option<XValue>, key: string): Option<XValue>
  {
    if v.Some? && v.value.XObj? && key in v.value.props then Some(v.value.props[key]) else None
  }

  /** `ensureArray`: a falsy value gives no elements, an array its elements, and
      any other value a one-element list. */
  function EnsureArray(v: Option<XValue>): seq<XValue>
  {
    if !Truthy(v) then []
    else if v.value.XArr? then v.value.items
    else [v.value]
  }

  /** `ensureArray` is idempotent: wrapping its result in an array and applying it
      again gives the same elements, so an array passes through unchanged. */
  lemma EnsureArrayIdempotent(v: Option<XValue>)
    ensures EnsureArray(Some(XArr(EnsureArray(v)))) == EnsureArray(v)
  {
  }

  /** `ensureArray` never invents elements: every element is the value itself or
      one of its array elements. */
  lemma EnsureArrayElements(v: Option<XValue>, x: XValue)
    requires x in EnsureArray(v)
    ensures v.Some? && (x == v.value || (v.value.XArr? && x in v.value.items))
  {
  }

  /** `String(v)`: a string is itself, an array joins its elements with ",", an
      object is "[object Object]". */
  function ToStr(v: XValue): string
  {
    match v
    case XStr(s) => s
    case XObj(_) => "[object Object]"
    case XArr(items) => Join(seq(|items|, k requires 0 <= k < |items| => ToStr(items[k])), ",")
  }

  /** `v?.toString().trim()` with `undefined` kept as None. */
  function TrimmedText(v: Option<XValue>): Option<string>
  {
    if v.Some? then Some(Trim(ToStr(v.value))) else None
  }

  /** A non-empty text: the JavaScript test `!!s` for a `string | undefined`. */
  predicate NonEmpty(s: Option<string>)
  {
    s.Some? && s.value != ""
  }
}
