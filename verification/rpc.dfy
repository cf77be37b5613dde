/**
 * The JSON-RPC tool-bridge client (`MCPClient`): it writes one request line
 * to the tool server's standard input and reads one response line from its
 * standard output per call. The pipe is two sequences: the request objects
 * written, and the server's lines not yet read.
 */
module Rpc {
  import opened Wrappers
  import opened Text
  import opened JsonModel
  import opened Conversation

  /** The request object `_send_rpc` writes as one line. */
  function MakeRequest(meth: string, params: Json): Json
  {
    var base := map["jsonrpc" := Str("2.0"), "id" := Num(1), "method" := Str(meth)];
    Obj(if Truthy(params) then base["params" := params] else base)
  }

  /** Every request is a JSON-RPC 2.0 object with id 1 and the method; params appear exactly when truthy. */
  lemma RequestShape(meth: string, params: Json)
    ensures var r := MakeRequest(meth, params);
      && r.Obj? && r.fields.Keys == {"jsonrpc", "id", "method"} + (if Truthy(params) then {"params"} else {})
      && r.fields["jsonrpc"] == Str("2.0") && r.fields["id"] == Num(1) && r.fields["method"] == Str(meth)
      && (Truthy(params) ==> r.fields["params"] == params)
  {
  }

  function ArgsJson(args: Args): Json
  {
    Obj(map k | k in args :: Str(args[k]))
  }

  /** The params of `tools/call`: `{"name": name, "arguments": args}`. */
  function CallParams(name: string, args: Args): Json
  {
    Obj(map["name" := Str(name), "arguments" := ArgsJson(args)])
  }

  const FailedText := "Tool execution failed"

  /**
   * Python's `key in j` for a value that supports it: a key of a dict, an
   * element of a list, a substring of a str. Numbers, booleans and None
   * support no membership test (`in` raises on them).
   */
  predicate Holds(j: Json, key: string)
  {
    match j
    case Obj(f) => key in f
    case Arr(items) => Str(key) in items
    case Str(s) => Contains(s, key)
    case _ => false
  }

  /**
   * `call_tool`'s reading of a response: `result.content[0].text` when the
   * response holds `result` and that holds `content`, "Tool execution failed"
   * when either test fails. Indexing a list or a str by a key, an empty or
   * malformed content list, or a membership test on a value that has none
   * raises.
   */
  function CallText(resp: Json): Result<string>
  {
    match resp
    case Obj(fields) =>
      if "result" !in fields then Ok(FailedText)
      else
        var res := fields["result"];
        (match res
         case Obj(f) =>
           if "content" !in f then Ok(FailedText)
           else FirstText(f["content"])
         case Str(s) => if Contains(s, "content") then Err("string indices must be integers") else Ok(FailedText)
         case Arr(items) => if Str("content") in items then Err("list indices must be integers") else Ok(FailedText)
         case _ => Err("argument of type is not iterable"))
    case Arr(items) => if Str("result") in items then Err("list indices must be integers") else Ok(FailedText)
    case Str(s) => if Contains(s, "result") then Err("string indices must be integers") else Ok(FailedText)
    case _ => Err("argument of type is not iterable")
  }

  /** `content[0]["text"]` */
  function FirstText(content: Json): Result<string>
  {
    if !content.Arr? || content.items == [] then Err("list index out of range")
    else if !Has(content.items[0], "text") then Err("'text'")
    else match content.items[0].fields["text"]
      case Str(t) => Ok(t)
      case _ => Err("text is not a string")
  }

  /** What `call_tool` returns or raises when the server's next line is read from `incoming`. */
  function CallOutcome(incoming: seq<Frame>): Result<string>
  {
    match Decode(NextFrame(incoming))
    case Ok(resp) => CallText(resp)
    case Err(e) => Err(e)
  }

  /**
   * A response that does not hold `result` (an error response, a list or a
   * str without it) reads as the failure text, never as an exception; only
   * a number, a boolean or None, which support no membership test, raises.
   */
  lemma ErrorResponseReadsAsFailure(resp: Json)
    requires !Holds(resp, "result")
    ensures CallText(resp).Ok? <==> resp.Obj? || resp.Arr? || resp.Str?
    ensures CallText(resp).Ok? ==> CallText(resp) == Ok(FailedText)
  {
  }

  /** A list or a str that holds "result" raises when it is indexed by that key. */
  lemma ResultIndexRaises(resp: Json)
    requires (resp.Arr? || resp.Str?) && Holds(resp, "result")
    ensures CallText(resp).Err?
  {
  }

  /** The text item a tool server wraps its output in. */
  function TextContent(text: string): Json
  {
    Obj(map["content" := Arr([Obj(map["type" := Str("text"), "text" := Str(text)])])])
  }

  /** Whatever the response's other fields, a result holding one text item reads back as that text. */
  lemma TextContentReadsBack(resp: Json, text: string)
    requires resp.Obj? && "result" in resp.fields && resp.fields["result"] == TextContent(text)
    ensures CallText(resp) == Ok(text)
  {
  }

  /** The tools map: name to raw descriptor, in insertion order (a Python dict). */
  type ToolsMap = seq<(string, Json)>

  function Names(m: ToolsMap): (ns: seq<string>)
    ensures |ns| == |m| && forall i :: 0 <= i < |m| ==> ns[i] == m[i].0
  {
    if m == [] then [] else [m[0].0] + Names(m[1..])
  }

  ghost predicate DistinctNames(m: ToolsMap)
  {
    var ns := Names(m);
    forall i, j :: 0 <= i < j < |ns| ==> ns[i] != ns[j]
  }

  function Lookup(m: ToolsMap, k: string): Option<Json>
  {
    if m == [] then None else if m[0].0 == k then Some(m[0].1) else Lookup(m[1..], k)
  }

  /** `tools_map[k] = v`: an existing key keeps its place and takes the new value; a new key goes last. */
  function Put(m: ToolsMap, k: string, v: Json): ToolsMap
  {
    if m == [] then [(k, v)]
    else if m[0].0 == k then [(k, v)] + m[1..]
    else [m[0]] + Put(m[1..], k, v)
  }

  /** Putting a key that is present keeps the names; a new key is appended. */
  lemma {:induction false} PutNames(m: ToolsMap, k: string, v: Json)
    ensures Names(Put(m, k, v)) == if k in Names(m) then Names(m) else Names(m) + [k]
  {
    if m == [] {
    } else if m[0].0 == k {
      assert Names(m) == [k] + Names(m[1..]);
      assert Names(Put(m, k, v)) == [k] + Names(m[1..]);
    } else {
      PutNames(m[1..], k, v);
      assert Put(m, k, v) == [m[0]] + Put(m[1..], k, v);
      assert Names(m) == [m[0].0] + Names(m[1..]);
      assert Names([m[0]] + Put(m[1..], k, v)) == [m[0].0] + Names(Put(m[1..], k, v));
    }
  }

  /** Putting a key keeps every name unique. */
  lemma PutDistinct(m: ToolsMap, k: string, v: Json)
    requires DistinctNames(m)
    ensures DistinctNames(Put(m, k, v))
  {
    PutNames(m, k, v);
  }

  /** After `m[k] = v`, `m[k]` is `v` and every other key reads as before. */
  lemma {:induction false} PutLookup(m: ToolsMap, k: string, v: Json)
    ensures Lookup(Put(m, k, v), k) == Some(v)
    ensures forall j :: j != k ==> Lookup(Put(m, k, v), j) == Lookup(m, j)
  {
    if m != [] && m[0].0 != k {
      PutLookup(m[1..], k, v);
    }
  }

  /** `tool['name']` for one descriptor of a `tools/list` result. */
  function NameOf(tool: Json): Result<string>
  {
    if !Has(tool, "name") then Err("'name'")
    else match tool.fields["name"]
      case Str(n) => Ok(n)
      case _ => Err("name is not a string")
  }

  /** `for tool in tools: tools_map[tool['name']] = tool` */
  function Register(m: ToolsMap, tools: seq<Json>): Result<ToolsMap>
    decreases |tools|
  {
    if tools == [] then Ok(m)
    else match NameOf(tools[0])
      case Err(e) => Err(e)
      case Ok(n) => Register(Put(m, n, tools[0]), tools[1..])
  }

  /** The last descriptor in the list whose name is `n`. */
  function LastNamed(tools: seq<Json>, n: string): Option<Json>
    decreases |tools|
  {
    if tools == [] then None
    else
      var later := LastNamed(tools[1..], n);
      if later.Some? then later else if NameOf(tools[0]) == Ok(n) then Some(tools[0]) else None
  }

  /** A listed name maps to the last descriptor listed under it; other names keep what they had. */
  lemma {:induction false} RegisterLookup(m: ToolsMap, tools: seq<Json>, n: string)
    requires Register(m, tools).Ok?
    ensures Lookup(Register(m, tools).value, n) == if LastNamed(tools, n).Some? then LastNamed(tools, n) else Lookup(m, n)
    decreases |tools|
  {
    if tools != [] {
      var n0 := NameOf(tools[0]).value;
      PutLookup(m, n0, tools[0]);
      RegisterLookup(Put(m, n0, tools[0]), tools[1..], n);
    }
  }

  /** Registration fails exactly when some descriptor has no string name. */
  lemma {:induction false} RegisterFails(m: ToolsMap, tools: seq<Json>)
    ensures Register(m, tools).Err? <==> exists i :: 0 <= i < |tools| && NameOf(tools[i]).Err?
    decreases |tools|
  {
    if tools != [] {
      match NameOf(tools[0])
      case Err(_) =>
      case Ok(n0) =>
        RegisterFails(Put(m, n0, tools[0]), tools[1..]);
        if exists i :: 0 <= i < |tools| && NameOf(tools[i]).Err? {
          var i :| 0 <= i < |tools| && NameOf(tools[i]).Err?;
          assert tools[1..][i - 1] == tools[i];
        }
    }
  }

  /**
   * The descriptors a loop over `response.get("result", {}).get("tools", [])`
   * visits before its first `tool['name']`: a list gives its items; an empty
   * string or object gives none; a non-empty string or object yields strings,
   * whose `['name']` raises; any other value is not iterable.
   */
  function ToolsOf(resp: Json): Result<seq<Json>>
  {
    match Get(resp, "result", Obj(map[]))
    case Err(e) => Err(e)
    case Ok(res) =>
      match Get(res, "tools", Arr([]))
      case Err(e) => Err(e)
      case Ok(ts) =>
        match ts
        case Arr(items) => Ok(items)
        case Str(text) => if text == "" then Ok([]) else Err("string indices must be integers")
        case Obj(f) => if f == map[] then Ok([]) else Err("string indices must be integers")
        case _ => Err("object is not iterable")
  }

  /**
   * For a response whose result holds `tools`: the listing is readable exactly
   * when it is a list, an empty string or an empty object, and then it is the
   * list's items or nothing; a result without `tools`, or a response without
   * a result, lists nothing.
   */
  lemma ToolsOfSpec(resp: Json)
    requires resp.Obj?
    ensures "result" !in resp.fields ==> ToolsOf(resp) == Ok([])
    ensures "result" in resp.fields && resp.fields["result"].Obj? ==>
      var res := resp.fields["result"].fields;
      && ("tools" !in res ==> ToolsOf(resp) == Ok([]))
      && ("tools" in res ==>
            var ts := res["tools"];
            && (ToolsOf(resp).Ok? <==> ts.Arr? || ts == Str("") || ts == Obj(map[]))
            && (ts.Arr? ==> ToolsOf(resp) == Ok(ts.items))
            && (ts == Str("") || ts == Obj(map[]) ==> ToolsOf(resp) == Ok([])))
    ensures "result" in resp.fields && !resp.fields["result"].Obj? ==> ToolsOf(resp).Err?
  {
  }

  /** The map as the loop leaves it: every descriptor registered up to the first without a string name. */
  function Partial(m: ToolsMap, tools: seq<Json>): ToolsMap
    decreases |tools|
  {
    if tools == [] then m
    else match NameOf(tools[0])
      case Err(_) => m
      case Ok(n) => Partial(Put(m, n, tools[0]), tools[1..])
  }

  /** When registration succeeds, its map is what the loop leaves. */
  lemma {:induction false} PartialRegister(m: ToolsMap, tools: seq<Json>)
    requires Register(m, tools).Ok?
    ensures Register(m, tools) == Ok(Partial(m, tools))
    decreases |tools|
  {
    if tools != [] {
      var n := NameOf(tools[0]).value;
      PartialRegister(Put(m, n, tools[0]), tools[1..]);
    }
  }

  /** When descriptor `i` is the first without a string name, the loop leaves exactly the descriptors before it registered. */
  lemma {:induction false} PartialBeforeBad(m: ToolsMap, tools: seq<Json>, i: nat)
    requires i < |tools| && NameOf(tools[i]).Err?
    requires forall j :: 0 <= j < i ==> NameOf(tools[j]).Ok?
    ensures Register(m, tools[..i]) == Ok(Partial(m, tools))
    decreases i
  {
    if i > 0 {
      var n := NameOf(tools[0]).value;
      assert tools[..i][1..] == tools[1..][..i - 1];
      PartialBeforeBad(Put(m, n, tools[0]), tools[1..], i - 1);
    }
  }

  /** `[{"type": "function", "function": {name, description, parameters: inputSchema}} for name, tool in tools_map.items()]` */
  function ToInference(m: ToolsMap): Result<seq<ToolSpec>>
  {
    if m == [] then Ok([])
    else if !Has(m[0].1, "description") then Err("'description'")
    else if !Has(m[0].1, "inputSchema") then Err("'inputSchema'")
    else match ToInference(m[1..])
      case Err(e) => Err(e)
      case Ok(rest) => Ok([ToolSpec(m[0].0, m[0].1.fields["description"], m[0].1.fields["inputSchema"])] + rest)
  }

  /** One inference descriptor per map entry, in map order, with the fields carried over. */
  lemma {:induction false} ToInferenceEntries(m: ToolsMap)
    requires ToInference(m).Ok?
    ensures var specs := ToInference(m).value;
      && |specs| == |m|
      && forall i :: 0 <= i < |m| ==>
           && Has(m[i].1, "description") && Has(m[i].1, "inputSchema")
           && specs[i].name == m[i].0
           && specs[i].description == m[i].1.fields["description"]
           && specs[i].parameters == m[i].1.fields["inputSchema"]
  {
    if m != [] {
      ToInferenceEntries(m[1..]);
    }
  }

  class Client {
    var written: seq<Json>
    var incoming: seq<Frame>
    var toolsMap: ToolsMap
    /** Number of lines read so far. */
    ghost var readCount: nat

    /** Every request written has been answered by exactly one read; the tools map has one entry per name. */
    ghost predicate Valid()
      reads this
    {
      readCount == |written| && DistinctNames(toolsMap)
    }

    /** Spawning the server: nothing written or read yet. */
    constructor (serverOutput: seq<Frame>)
      ensures Valid()
      ensures written == [] && incoming == serverOutput && toolsMap == []
    {
      written := [];
      incoming := serverOutput;
      toolsMap := [];
      readCount := 0;
    }

    /** `_send_rpc`: write one request line, then read and parse exactly one line. */
    method SendRpc(meth: string, params: Json) returns (r: Result<Json>)
      requires Valid()
      modifies this
      ensures Valid()
      ensures written == old(written) + [MakeRequest(meth, params)]
      ensures incoming == RestFrames(old(incoming))
      ensures r == Decode(NextFrame(old(incoming)))
      ensures toolsMap == old(toolsMap)
    {
      written := written + [MakeRequest(meth, params)];
      var line := NextFrame(incoming);
      incoming := RestFrames(incoming);
      readCount := readCount + 1;
      r := Decode(line);
    }

    /** `_initialize`: `initialize`, then `tools/list`, then one map entry per listed tool. */
    method Initialize() returns (err: Option<string>)
      requires Valid()
      modifies this
      ensures Valid()
      ensures |written| == |old(written)| + (if Decode(NextFrame(old(incoming))).Ok? then 2 else 1)
      ensures written[..|old(written)| + 1] == old(written) + [MakeRequest("initialize", Null)]
      ensures Decode(NextFrame(old(incoming))).Ok? ==> written[|old(written)| + 1] == MakeRequest("tools/list", Null)
      ensures incoming == if Decode(NextFrame(old(incoming))).Ok? then RestFrames(RestFrames(old(incoming))) else RestFrames(old(incoming))
      ensures err.None? <==>
        && Decode(NextFrame(old(incoming))).Ok?
        && Decode(NextFrame(RestFrames(old(incoming)))).Ok?
        && ToolsOf(Decode(NextFrame(RestFrames(old(incoming)))).value).Ok?
        && Register(old(toolsMap), ToolsOf(Decode(NextFrame(RestFrames(old(incoming)))).value).value) == Ok(toolsMap)
      ensures toolsMap ==
        if && Decode(NextFrame(old(incoming))).Ok?
           && Decode(NextFrame(RestFrames(old(incoming)))).Ok?
           && ToolsOf(Decode(NextFrame(RestFrames(old(incoming)))).value).Ok?
        then Partial(old(toolsMap), ToolsOf(Decode(NextFrame(RestFrames(old(incoming)))).value).value)
        else old(toolsMap)
    {
      var hello := SendRpc("initialize", Null);
      if hello.Err? {
        return Some(hello.msg);
      }
      var listing := SendRpc("tools/list", Null);
      if listing.Err? {
        return Some(listing.msg);
      }
      var tools := ToolsOf(listing.value);
      if tools.Err? {
        return Some(tools.msg);
      }
      var ts := tools.value;
      var i := 0;
      while i < |ts|
        invariant 0 <= i <= |ts|
        invariant Valid()
        invariant written == old(written) + [MakeRequest("initialize", Null), MakeRequest("tools/list", Null)]
        invariant incoming == RestFrames(RestFrames(old(incoming)))
        invariant Register(toolsMap, ts[i..]) == Register(old(toolsMap), ts)
        invariant Partial(toolsMap, ts[i..]) == Partial(old(toolsMap), ts)
      {
        var name := NameOf(ts[i]);
        if name.Err? {
          assert Register(toolsMap, ts[i..]).Err?;
          assert Partial(toolsMap, ts[i..]) == toolsMap;
          return Some(name.msg);
        }
        assert ts[i..][1..] == ts[i + 1..];
        PutDistinct(toolsMap, name.value, ts[i]);
        toolsMap := Put(toolsMap, name.value, ts[i]);
        i := i + 1;
      }
      err := None;
    }

    /** `call_tool(name, args)`: one `tools/call` round trip, the response read by CallText. */
    method CallTool(name: string, args: Args) returns (r: Result<string>)
      requires Valid()
      modifies this
      ensures Valid()
      ensures written == old(written) + [MakeRequest("tools/call", CallParams(name, args))]
      ensures incoming == RestFrames(old(incoming))
      ensures toolsMap == old(toolsMap)
      ensures r == CallOutcome(old(incoming))
    {
      var resp := SendRpc("tools/call", CallParams(name, args));
      if resp.Err? {
        return Err(resp.msg);
      }
      r := CallText(resp.value);
    }

    /** `get_ollama_tools()` */
    function InferenceTools(): Result<seq<ToolSpec>>
      reads this
    {
      ToInference(toolsMap)
    }
  }
}
