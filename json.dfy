/** Decoded JSON values, as `json.load` hands them to the program. */
module Json {
  import opened Wrappers

  /** A decoded JSON document.  Objects are dictionaries from string keys to
      values; their key order never affects a result of this model. */
  datatype Value =
    | Null
    | Boolean(b: bool)
    | Number(x: real)
    | Text(s: string)
    | Array(items: seq<Value>)
    | Object(fields: map<string, Value>)

  /** The `{}` the program returns when it has nothing to show. */
  const EmptyObject: Value := Object(map[])

  /** What a value adds when Python evaluates `total += value` on a number:
      a number adds itself, a boolean adds 1 or 0 (`bool` is a subclass of
      `int`), and anything else raises `TypeError`, modelled as `None`. */
  function AsAmount(v: Value): (r: Option<real>)
    ensures r.Some? <==> (v.Number? || v.Boolean?)
    ensures v.Number? ==> r == Some(v.x)
    ensures v.Boolean? ==> r == Some(if v.b then 1.0 else 0.0)
  {
    match v
    case Number(x) => Some(x)
    case Boolean(b) => Some(if b then 1.0 else 0.0)
    case _ => None
  }
}
