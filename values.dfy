/** The Python values the clients pass around: keyword arguments, options,
    decoded JSON responses and the media objects of an upload. */
module Values {

  /** A `media_body` object. The model keeps what the upload is made of and
      leaves the serialisation (`json.dumps`, `StringIO`) opaque. */
  datatype Upload =
    | NdjsonUpload(rows: seq<Value>)  // '\n'.join(json.dumps(row) for row in rows)
    | MemoryUpload(content: string)   // MediaIoBaseUpload(StringIO(content))
    | FileUpload(path: string)        // MediaFileUpload(path)

  /** A Python value as it appears in options, kwargs and decoded responses.
      JSON numbers are integers here; the clients never inspect a float. */
  datatype Value =
    | Null
    | Bool(b: bool)
    | Int(i: int)
    | Str(s: string)
    | List(items: seq<Value>)
    | Dict(fields: map<string, Value>)
    | Media(upload: Upload)

  /** Keyword arguments, options and parameter bags. */
  type Bag = map<string, Value>

  const EmptyDict: Value := Dict(map[])

  /** `key in v` for a dict; every response the clients test this way is a
      JSON object, so on any other value it is false. */
  predicate Has(v: Value, key: string) {
    v.Dict? && key in v.fields
  }

  /** `options.get(key, default)`. */
  function Get(options: Bag, key: string, default: Value): (r: Value)
    ensures key in options ==> r == options[key]
    ensures key !in options ==> r == default
  {
    if key in options then options[key] else default
  }

  /** `v is True`: only the boolean True itself, not 1 nor a non-empty string. */
  predicate IsTrue(v: Value) {
    v == Bool(true)
  }

  /** `v is False`. */
  predicate IsFalse(v: Value) {
    v == Bool(false)
  }

  /** Python's `bool(v)`. */
  predicate Truthy(v: Value) {
    match v
    case Null => false
    case Bool(b) => b
    case Int(i) => i != 0
    case Str(s) => s != ""
    case List(items) => items != []
    case Dict(fields) => fields != map[]
    case Media(_) => true
  }

  /** A value and, when it is a list, its items: `x if type(x) is list else [x]`,
      the wrapping that `request`, `extract`, `publish` and `acknowledge` apply
      to an argument that may be one item or a list of them. */
  function AsList(v: Value): (r: seq<Value>)
    ensures v.List? ==> r == v.items
    ensures !v.List? ==> r == [v]
  {
    if v.List? then v.items else [v]
  }
}
