/**
 * The legacy file server `my-local-files`: a stdio JSON-RPC server with two
 * tools, `list_files` and `read_file`. The operating system (`os.listdir`,
 * `open(...).read()`) and `json.dumps` are the abstract `Host`; a failing
 * call yields the text of the exception it raises.
 */
module FileServer {
  import opened Wrappers
  import opened JsonModel
  import opened ToolServer
  import Rpc

  const ServerName := "my-local-files"
  const ServerVersion := "1.0"

  /**
   * What the tools reach outside the server: the listing of a directory and
   * the contents of a file (each either a value or the message of the
   * exception raised), and the JSON text of a list of names.
   */
  datatype Host = Host(
    listdir: Json -> Result<seq<string>>,
    read: Json -> Result<string>,
    dumps: seq<string> -> string)

  /** A descriptor of a tool taking one string argument, listed as required or not. */
  function StringTool(name: string, description: string, arg: string, argDescription: string, required: bool): Json
  {
    var properties := Obj(map[arg := Obj(map["type" := Str("string"), "description" := Str(argDescription)])]);
    Obj(map[
      "name" := Str(name),
      "description" := Str(description),
      "inputSchema" := Obj(
        if required then map["type" := Str("object"), "properties" := properties, "required" := Arr([Str(arg)])]
        else map["type" := Str("object"), "properties" := properties])
    ])
  }

  /** `list_files` has an optional `path`; `read_file` requires its `filename`. */
  const Tools: seq<Json> := [
    StringTool("list_files", "列出目录下的文件", "path", "目录路径", false),
    StringTool("read_file", "读取文件内容", "filename", "文件名", true)
  ]

  /** A tool result flagged as an error, carrying one text item. */
  function ErrorContent(text: string): Json
  {
    Obj(map["isError" := Bool(true), "content" := Arr([Obj(map["type" := Str("text"), "text" := Str(text)])])])
  }

  /** `list_files(args)`: the directory named by `path` (default `"."`) as the JSON text of its entries. */
  function ListFiles(host: Host, args: Json): Result<Json>
  {
    if !args.Obj? then Err("'arguments' has no attribute 'get'")
    else
      match host.listdir(Field(args.fields, "path", Str(".")))
      case Ok(files) => Ok(Rpc.TextContent(host.dumps(files)))
      case Err(e) => Ok(ErrorContent(e))
  }

  /** `read_file(args)`: a falsy or missing `filename` is refused before any file is opened. */
  function ReadFile(host: Host, args: Json): Result<Json>
  {
    if !args.Obj? then Err("'arguments' has no attribute 'get'")
    else
      var filename := Field(args.fields, "filename", Null);
      if !Truthy(filename) then Ok(ErrorContent("Missing filename"))
      else
        match host.read(filename)
        case Ok(content) => Ok(Rpc.TextContent(content))
        case Err(e) => Ok(ErrorContent(e))
  }

  /** The `tools/call` branch: the key (`result` or `error`) and its value, or the exception it raises. */
  function CallTool(host: Host, params: Json): Result<(string, Json)>
  {
    if !params.Obj? then Err("'params' has no attribute 'get'")
    else
      var name := Field(params.fields, "name", Null);
      var args := Field(params.fields, "arguments", Obj(map[]));
      if name == Str("list_files") then
        match ListFiles(host, args)
        case Err(e) => Err(e)
        case Ok(r) => Ok(("result", r))
      else if name == Str("read_file") then
        match ReadFile(host, args)
        case Err(e) => Err(e)
        case Ok(r) => Ok(("result", r))
      else Ok(("error", MethodNotFound))
  }

  /** `handle_request(request)` */
  function HandleRequest(host: Host, req: Json): Result<Option<Json>>
  {
    match Parse(req)
    case Err(e) => Err(e)
    case Ok(p) =>
      if p.meth == Str("initialize") then Ok(Some(Respond(p.id, "result", InitializeResult(ServerName, ServerVersion))))
      else if p.meth == Str("tools/list") then Ok(Some(Respond(p.id, "result", Obj(map["tools" := Arr(Tools)]))))
      else if p.meth == Str("tools/call") then
        match CallTool(host, p.params)
        case Err(e) => Err(e)
        case Ok(out) => Ok(Some(Respond(p.id, out.0, out.1)))
      else Ok(None)
  }

  /** The method of a request, as `request.get("method")` reads it. */
  function MethodOf(req: Json): Json
  {
    if req.Obj? then Field(req.fields, "method", Null) else Null
  }

  /** A `tools/call` request's `params`, as `request.get("params", {})` reads them. */
  function ParamsOf(req: Json): Json
  {
    if req.Obj? then Field(req.fields, "params", Obj(map[])) else Null
  }

  /** A call answers what `CallTool` computes for its params, under the request's id. */
  lemma CallAnswer(host: Host, req: Json)
    requires req.Obj? && MethodOf(req) == Str("tools/call")
    ensures HandleRequest(host, req) ==
              match CallTool(host, ParamsOf(req))
              case Err(e) => Err(e)
              case Ok(out) => Ok(Some(Respond(IdOf(req), out.0, out.1)))
  {
  }

  /** A call that does not raise answers under exactly one of the keys `result` or `error`. */
  lemma CallToolKey(host: Host, params: Json)
    ensures CallTool(host, params).Ok? ==> CallTool(host, params).value.0 in {"result", "error"}
  {
  }

  /** Every response is a JSON-RPC 2.0 envelope that echoes the request's id. */
  lemma ResponseEnvelope(host: Host, req: Json)
    ensures HandleRequest(host, req).Ok? && HandleRequest(host, req).value.Some? ==>
              Envelope(HandleRequest(host, req).value.value, IdOf(req))
  {
    if req.Obj? && MethodOf(req) == Str("tools/call") {
      CallAnswer(host, req);
      var call := CallTool(host, ParamsOf(req));
      if call.Ok? {
        CallToolKey(host, ParamsOf(req));
        RespondEnvelope(IdOf(req), call.value.0, call.value.1);
      }
    } else if req.Obj? {
      var m := MethodOf(req);
      if m == Str("initialize") || m == Str("tools/list") {
        RespondEnvelope(IdOf(req), "result", HandleRequest(host, req).value.value.fields["result"]);
      }
    }
  }

  /** No response exactly for a dict request whose method is none of the three the server knows. */
  lemma NoResponseIff(host: Host, req: Json)
    ensures HandleRequest(host, req) == Ok(None) <==>
              req.Obj? && MethodOf(req) !in {Str("initialize"), Str("tools/list"), Str("tools/call")}
  {
  }

  /** `initialize` answers the protocol version, the tools capability and the server's name and version. */
  lemma InitializeAnswer(host: Host, req: Json)
    requires req.Obj? && MethodOf(req) == Str("initialize")
    ensures HandleRequest(host, req) == Ok(Some(Respond(IdOf(req), "result", InitializeResult("my-local-files", "1.0"))))
  {
  }

  /** `tools/list` answers exactly the two descriptors, `list_files` then `read_file`; only `filename` is required. */
  lemma ListAnswer(host: Host, req: Json)
    requires req.Obj? && MethodOf(req) == Str("tools/list")
    ensures var resp := HandleRequest(host, req);
            && resp.Ok? && resp.value.Some?
            && resp.value.value.fields["result"] == Obj(map["tools" := Arr(Tools)])
            && |Tools| == 2
            && Tools[0].fields["name"] == Str("list_files")
            && Tools[1].fields["name"] == Str("read_file")
            && "required" !in Tools[0].fields["inputSchema"].fields
            && Tools[1].fields["inputSchema"].fields["required"] == Arr([Str("filename")])
  {
  }

  /** A call naming any other tool gets error -32601 and no result. */
  lemma UnknownToolError(host: Host, req: Json)
    requires req.Obj? && MethodOf(req) == Str("tools/call")
    requires var params := ParamsOf(req);
             && params.Obj?
             && Field(params.fields, "name", Null) !in {Str("list_files"), Str("read_file")}
    ensures var resp := HandleRequest(host, req);
            && resp.Ok? && resp.value.Some?
            && resp.value.value.fields["error"] == Obj(map["code" := Num(-32601), "message" := Str("Method not found")])
            && "result" !in resp.value.value.fields
  {
    CallAnswer(host, req);
  }

  /** A call of `tool` with dict arguments `args`. */
  predicate Calls(req: Json, tool: string, args: Json)
  {
    && req.Obj? && MethodOf(req) == Str("tools/call")
    && var params := ParamsOf(req);
       && params.Obj?
       && Field(params.fields, "name", Null) == Str(tool)
       && Field(params.fields, "arguments", Obj(map[])) == args
       && args.Obj?
  }

  /**
   * `read_file` with a missing or falsy filename answers the "Missing
   * filename" error result, whatever the host: no file is opened.
   */
  lemma MissingFilename(host: Host, req: Json, args: Json)
    requires Calls(req, "read_file", args)
    requires !Truthy(Field(args.fields, "filename", Null))
    ensures HandleRequest(host, req) == Ok(Some(Respond(IdOf(req), "result", ErrorContent("Missing filename"))))
  {
    CallAnswer(host, req);
  }

  /** `read_file` with a filename answers the file's contents, or the read's error as an error result. */
  lemma ReadFileAnswer(host: Host, req: Json, args: Json)
    requires Calls(req, "read_file", args)
    requires Truthy(Field(args.fields, "filename", Null))
    ensures var filename := Field(args.fields, "filename", Null);
            HandleRequest(host, req) == Ok(Some(Respond(IdOf(req), "result",
              match host.read(filename)
              case Ok(content) => Rpc.TextContent(content)
              case Err(e) => ErrorContent(e))))
  {
    CallAnswer(host, req);
  }

  /** `list_files` lists `path`, or `"."` when the arguments have none; a failed listing is an error result. */
  lemma ListFilesAnswer(host: Host, req: Json, args: Json)
    requires Calls(req, "list_files", args)
    ensures var path := if "path" in args.fields then args.fields["path"] else Str(".");
            HandleRequest(host, req) == Ok(Some(Respond(IdOf(req), "result",
              match host.listdir(path)
              case Ok(files) => Rpc.TextContent(host.dumps(files))
              case Err(e) => ErrorContent(e))))
  {
    CallAnswer(host, req);
  }

  /** The server's `handle_request` as the line loop sees it. */
  function Handler(host: Host): ToolServer.Handler
  {
    req => HandleRequest(host, req)
  }

  /**
   * `main`: lines that are not JSON (blank ones included), requests that
   * raise and requests with an unknown method produce nothing; every line
   * written is an envelope answering some request line, with that
   * request's id, and there is at most one per input line.
   */
  lemma MainAnswersRequests(host: Host, lines: seq<Frame>)
    ensures var out := Output(Handler(host), lines);
            && |out| <= |lines|
            && forall k :: 0 <= k < |out| ==>
                 exists i :: 0 <= i < |lines| && lines[i].Line? && Envelope(out[k], IdOf(lines[i].value))
  {
    var out := Output(Handler(host), lines);
    OutputFromLines(Handler(host), lines);
    forall k | 0 <= k < |out|
      ensures exists i :: 0 <= i < |lines| && lines[i].Line? && Envelope(out[k], IdOf(lines[i].value))
    {
      var i :| 0 <= i < |lines| && lines[i].Line? && Handler(host)(lines[i].value) == Ok(Some(out[k]));
      ResponseEnvelope(host, lines[i].value);
    }
  }
}
