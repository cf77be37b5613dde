/**
 * Decoded JSON values as Python's json module produces them, and the lines
 * of a JSON-lines pipe. The text encoding of a value (json.dumps/json.loads)
 * is not modelled: a line is represented by the value it decodes to.
 */
module JsonModel {
  import opened Wrappers

  datatype Json =
    | Null
    | Bool(b: bool)
    | Num(n: int)
    | Str(s: string)
    | Arr(items: seq<Json>)
    | Obj(fields: map<string, Json>)

  /** Python truthiness of a decoded value (`if params:`, `if not filename:`). */
  predicate Truthy(j: Json)
  {
    match j
    case Null => false
    case Bool(b) => b
    case Num(n) => n != 0
    case Str(s) => s != ""
    case Arr(a) => a != []
    case Obj(f) => f != map[]
  }

  /** `j.get(key, default)`: a missing key gives the default; a value that is not a dict raises. */
  function Get(j: Json, key: string, default: Json): Result<Json>
  {
    match j
    case Obj(f) => Ok(if key in f then f[key] else default)
    case _ => Err("'" + key + "': object has no attribute 'get'")
  }

  /** `key in j` for a dict. */
  predicate Has(j: Json, key: string)
  {
    j.Obj? && key in j.fields
  }

  /** One line of a pipe: a JSON object line, an empty line, or text that is not JSON. */
  datatype Frame = Line(value: Json) | Blank | Garbage

  /** `json.loads(line)`; an empty line (and the empty string read at end of stream) fails to parse. */
  function Decode(f: Frame): (r: Result<Json>)
    ensures r.Ok? <==> f.Line?
  {
    match f
    case Line(v) => Ok(v)
    case _ => Err("Expecting value")
  }

  /** The line that `readline()` returns next; at end of stream it is the empty string, which parses like a blank line. */
  function NextFrame(incoming: seq<Frame>): (f: Frame)
    ensures incoming == [] ==> f == Blank
    ensures incoming != [] ==> f == incoming[0]
  {
    if incoming == [] then Blank else incoming[0]
  }

  function RestFrames(incoming: seq<Frame>): (rest: seq<Frame>)
    ensures incoming == [] ==> rest == []
    ensures incoming != [] ==> rest == incoming[1..]
  {
    if incoming == [] then [] else incoming[1..]
  }
}
