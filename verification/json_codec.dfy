/**
 * JSON values and the `json` module, which the programs treat as a black
 * box. The codec is a parameter; its one law is stated as `Lawful`.
 */
module JsonCodec {
  import opened Base
  import opened Ascii

  /** A decoded JSON value; numbers are integers only. */
  datatype Json =
    | Null
    | Bool(b: bool)
    | Int(i: int)
    | Str(s: string)
    | Arr(items: seq<Json>)
    | Obj(fields: map<string, Json>)

  /**
   * Python's `value[key]` with a string key: the field of an object, a
   * KeyError when the object lacks it, a TypeError on any other value.
   */
  function Index(v: Json, key: string): (r: Result<Json>)
    ensures r.Ok? <==> v.Obj? && key in v.fields
    ensures r.Ok? ==> r.value == v.fields[key]
    ensures v.Obj? && key !in v.fields ==> r == Err(KeyError(key))
    ensures !v.Obj? ==> r == Err(TypeError)
  {
    match v
    case Obj(fields) => if key in fields then Ok(fields[key]) else Err(KeyError(key))
    case _ => Err(TypeError)
  }

  /**
   * `json.dumps` (with its default `ensure_ascii`, so the text is ASCII) and
   * `json.loads` (`None` where it raises ValueError).
   */
  datatype Codec = Codec(dumps: Json -> AsciiString, loads: string -> Option<Json>)

  /** What the programs rely on: loading a dump gives the value back, and empty text is not JSON. */
  ghost predicate Lawful(c: Codec) {
    && (forall v :: c.loads(c.dumps(v)) == Some(v))
    && c.loads("") == None
  }
}
