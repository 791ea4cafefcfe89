/** Property values of GeoJSON features and the JavaScript coercions the
    source applies to them (`||`, `??`, `!!`, `toString`). */
module JsValue {
  import opened Wrappers

  /** A property value.  A number is carried as the text its `toString`
      produces (so `Number("0")` or `Number("NaN")` is the falsy number);
      that text is never empty, and `Number("")` counts as falsy. */
  datatype Value = Text(text: string) | Number(digits: string) | Null

  /** A feature's property bag: a key that is absent reads as `undefined`. */
  type Props = map<string, Value>

  /** `props[key]`, with `None` for `undefined`. */
  function Lookup(props: Props, key: string): (r: Option<Value>)
    ensures r.Some? <==> key in props
  {
    if key in props then Some(props[key]) else None
  }

  /** JavaScript truthiness of a possibly-undefined value. */
  predicate Truthy(v: Option<Value>) {
    match v
    case None => false
    case Some(Text(s)) => s != ""
    case Some(Number(d)) => d != "" && d != "0" && d != "NaN"
    case Some(Null) => false
  }

  /** `(v || '').toString()`: the text of a truthy value, else the empty string. */
  function TextOr(v: Option<Value>): (r: string)
    ensures !Truthy(v) <==> r == ""
    ensures Truthy(v) && v.value.Text? ==> r == v.value.text
    ensures Truthy(v) && v.value.Number? ==> r == v.value.digits
  {
    if !Truthy(v) then ""
    else match v.value
      case Text(s) => s
      case Number(d) => d
      case Null => ""
  }

  /** `v ?? null`: `undefined` and `null` both become `null`. */
  function OrNull(v: Option<Value>): (r: Value)
    ensures v.Some? && v.value != Null ==> r == v.value
    ensures v.None? ==> r == Null
  {
    if v.Some? then v.value else Null
  }
}
