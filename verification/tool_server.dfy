/**
 * What the two stdio tool servers share: reading a request's `method`,
 * `params` and `id`, the JSON-RPC response envelope, and the `main` loop
 * that answers one request line at a time.
 */
module ToolServer {
  import opened Wrappers
  import opened JsonModel

  /** `d.get(key, default)` on a dict's fields. */
  function Field(fields: map<string, Json>, key: string, default: Json): Json
  {
    if key in fields then fields[key] else default
  }

  /** `request.get("method")`, `request.get("params", {})`, `request.get("id")`. */
  datatype Parsed = Parsed(meth: Json, params: Json, id: Json)

  /** Reading the three fields raises when the request is not a dict. */
  function Parse(req: Json): Result<Parsed>
  {
    if !req.Obj? then Err("object has no attribute 'get'")
    else Ok(Parsed(Field(req.fields, "method", Null), Field(req.fields, "params", Obj(map[])), Field(req.fields, "id", Null)))
  }

  /** `{"jsonrpc": "2.0", "id": msg_id, key: value}` */
  function Respond(id: Json, key: string, value: Json): Json
  {
    Obj(map["jsonrpc" := Str("2.0"), "id" := id, key := value])
  }

  /** The error object for a `tools/call` naming a tool the server lacks. */
  const MethodNotFound := Obj(map["code" := Num(-32601), "message" := Str("Method not found")])

  /** `"2024-11-05"` with a `tools` capability and the given server name and version. */
  function InitializeResult(name: string, version: string): Json
  {
    Obj(map[
      "protocolVersion" := Str("2024-11-05"),
      "capabilities" := Obj(map["tools" := Obj(map[])]),
      "serverInfo" := Obj(map["name" := Str(name), "version" := Str(version)])
    ])
  }

  /** A well-formed response: the envelope with the request's id and exactly one of `result` or `error`. */
  predicate Envelope(resp: Json, id: Json)
  {
    && resp.Obj?
    && (resp.fields.Keys == {"jsonrpc", "id", "result"} || resp.fields.Keys == {"jsonrpc", "id", "error"})
    && resp.fields["jsonrpc"] == Str("2.0")
    && resp.fields["id"] == id
  }

  /** A response under either key is a well-formed envelope. */
  lemma RespondEnvelope(id: Json, key: string, value: Json)
    requires key == "result" || key == "error"
    ensures Envelope(Respond(id, key, value), id)
  {
    assert Respond(id, key, value).fields.Keys == {"jsonrpc", "id", key};
  }

  /** The id a request carries (`request.get("id")`). */
  function IdOf(req: Json): Json
  {
    if req.Obj? then Field(req.fields, "id", Null) else Null
  }

  /** `handle_request`: a raised exception, no response, or a response. */
  type Handler = Json -> Result<Option<Json>>

  /** What `main` writes for one input line: nothing for a line that is blank, not JSON, raises, or gets no response. */
  function Answer(h: Handler, line: Frame): Option<Json>
  {
    match line
    case Line(req) => (match h(req) case Ok(Some(resp)) => Some(resp) case _ => None)
    case _ => None
  }

  /** Everything `main` writes for a sequence of input lines, in order. */
  function Output(h: Handler, lines: seq<Frame>): seq<Json>
  {
    if lines == [] then []
    else Output(h, lines[..|lines| - 1]) + (match Answer(h, lines[|lines| - 1]) case Some(r) => [r] case None => [])
  }

  /** Output is per line: the output of two runs of lines is the concatenation of their outputs. */
  lemma {:induction false} OutputAppend(h: Handler, a: seq<Frame>, b: seq<Frame>)
    ensures Output(h, a + b) == Output(h, a) + Output(h, b)
    decreases |b|
  {
    if b == [] {
      assert a + b == a;
    } else {
      var n := |b| - 1;
      assert (a + b)[..|a + b| - 1] == a + b[..n];
      assert (a + b)[|a + b| - 1] == b[n];
      OutputAppend(h, a, b[..n]);
    }
  }

  /** At most one response per line, and each response answers some request line. */
  lemma {:induction false} OutputFromLines(h: Handler, lines: seq<Frame>)
    ensures |Output(h, lines)| <= |lines|
    ensures forall k :: 0 <= k < |Output(h, lines)| ==>
              exists i :: 0 <= i < |lines| && lines[i].Line? && h(lines[i].value) == Ok(Some(Output(h, lines)[k]))
  {
    if lines != [] {
      var init := lines[..|lines| - 1];
      OutputFromLines(h, init);
      var out := Output(h, lines);
      forall k | 0 <= k < |out|
        ensures exists i :: 0 <= i < |lines| && lines[i].Line? && h(lines[i].value) == Ok(Some(out[k]))
      {
        if k < |Output(h, init)| {
          var i :| 0 <= i < |init| && init[i].Line? && h(init[i].value) == Ok(Some(Output(h, init)[k]));
          assert lines[i] == init[i];
        } else {
          var last := |lines| - 1;
          assert lines[last].Line? && h(lines[last].value) == Ok(Some(out[k]));
        }
      }
    }
  }

  /** `main`: answer each line in turn, writing each response. */
  method Serve(h: Handler, lines: seq<Frame>) returns (out: seq<Json>)
    ensures out == Output(h, lines)
  {
    out := [];
    var i := 0;
    while i < |lines|
      invariant 0 <= i <= |lines|
      invariant out == Output(h, lines[..i])
    {
      assert lines[..i + 1][..i] == lines[..i];
      match Answer(h, lines[i]) {
        case Some(resp) => out := out + [resp];
        case None =>
      }
      i := i + 1;
    }
    assert lines[..i] == lines;
  }
}
