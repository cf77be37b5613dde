/**
 * The document server `doc-loader`: a stdio JSON-RPC server with two tools,
 * `read_document` (one pdf, docx or text file) and `read_folder` (the walk
 * of `Folder`). The file system and the readers are the abstract `Disk`.
 */
module DocServer {
  import opened Wrappers
  import opened Text
  import opened JsonModel
  import opened Folder
  import opened ToolServer
  import Rpc

  const ServerName := "doc-loader"
  const ServerVersion := "1.2"

  /** A tool descriptor whose only (required) argument is a string `path`. */
  function PathTool(name: string, description: string, pathDescription: string): Json
  {
    Obj(map[
      "name" := Str(name),
      "description" := Str(description),
      "inputSchema" := Obj(map[
        "type" := Str("object"),
        "properties" := Obj(map["path" := Obj(map["type" := Str("string"), "description" := Str(pathDescription)])]),
        "required" := Arr([Str("path")])
      ])
    ])
  }

  /** `TOOLS` */
  const Tools: seq<Json> := [
    PathTool("read_document", "读取本地文档内容 (支持 .pdf, .docx, .txt, .md)。用于学习单个文档。", "文件的本地路径"),
    PathTool("read_folder", "递归读取文件夹下的所有文档 (默认支持 .md, .txt)。用于批量学习课程或代码库。", "文件夹的本地路径")
  ]

  /** `raw_path.strip('"').strip("'")` */
  function StripQuotes(raw: string): string
  {
    Strip(Strip(raw, '"'), '\'')
  }

  /** The stripped path neither starts nor ends with a single quote. */
  lemma StripQuotesEnds(raw: string)
    ensures var p := StripQuotes(raw);
            p == [] || (p[0] != '\'' && p[|p| - 1] != '\'')
  {
    var _, _ := StripEnds(Strip(raw, '"'), '\'');
  }

  /**
   * The path a tool call works on: the stripped path if it exists, else its
   * URL-decoding if that exists, else the stripped path.
   */
  function Resolve(disk: Disk, raw: string): string
  {
    var path := StripQuotes(raw);
    if path !in disk.present && disk.unquote(path) in disk.present then disk.unquote(path) else path
  }

  /** The decoded path is taken only when the stripped one does not exist and the decoded one does. */
  lemma ResolveChoice(disk: Disk, raw: string)
    ensures var path := StripQuotes(raw);
            var r := Resolve(disk, raw);
            && (r == path || r == disk.unquote(path))
            && (r != path ==> path !in disk.present && r in disk.present)
            && (path in disk.present ==> r == path)
            && (r in disk.present <==> path in disk.present || disk.unquote(path) in disk.present)
  {
  }

  /** The extension, lower-cased, picks the reader: pdf, docx, or plain text for anything else. */
  datatype Reader = Pdf | Docx | PlainText

  function ReaderFor(path: string): (r: Reader)
    ensures r == Pdf <==> Lower(Ext(path)) == ".pdf"
    ensures r == Docx <==> Lower(Ext(path)) == ".docx"
  {
    var ext := Lower(Ext(path));
    if ext == ".pdf" then Pdf else if ext == ".docx" then Docx else PlainText
  }

  function NoSuchFile(path: string): string
  {
    "文件不存在: " + path
  }

  /** The text `read_document` answers for an already resolved path. */
  function ReadDocument(disk: Disk, path: string): string
  {
    if path !in disk.present then NoSuchFile(path)
    else match ReaderFor(path)
      case Pdf => disk.pdf(path)
      case Docx => disk.docx(path)
      case PlainText => disk.text(path)
  }

  /** A missing file is reported as text naming the path; an existing one is read by the reader its extension picks. */
  lemma ReadDocumentCases(disk: Disk, path: string)
    ensures path !in disk.present ==> ReadDocument(disk, path) == NoSuchFile(path)
    ensures path in disk.present && Lower(Ext(path)) == ".pdf" ==> ReadDocument(disk, path) == disk.pdf(path)
    ensures path in disk.present && Lower(Ext(path)) == ".docx" ==> ReadDocument(disk, path) == disk.docx(path)
    ensures path in disk.present && Lower(Ext(path)) != ".pdf" && Lower(Ext(path)) != ".docx" ==>
              ReadDocument(disk, path) == disk.text(path)
  {
  }

  /** `args.get("path", "")` and `.strip(...)`: raises unless the arguments are a dict and the path a string. */
  function PathArg(args: Json): Result<string>
  {
    if !args.Obj? then Err("'arguments' has no attribute 'get'")
    else
      var raw := Field(args.fields, "path", Str(""));
      if raw.Str? then Ok(raw.s) else Err("'path' has no attribute 'strip'")
  }

  /** The `tools/call` branch: the key (`result` or `error`) and its value, or the exception it raises. */
  function CallTool(disk: Disk, params: Json): Result<(string, Json)>
  {
    if !params.Obj? then Err("'params' has no attribute 'get'")
    else
      var name := Field(params.fields, "name", Null);
      var args := Field(params.fields, "arguments", Obj(map[]));
      if name == Str("read_document") || name == Str("read_folder") then
        match PathArg(args)
        case Err(e) => Err(e)
        case Ok(raw) =>
          Ok(("result", Rpc.TextContent(ToolText(disk, name.s, Resolve(disk, raw)))))
      else Ok(("error", MethodNotFound))
  }

  /** The text a path tool answers for an already resolved path. */
  function ToolText(disk: Disk, tool: string, path: string): string
  {
    if tool == "read_document" then ReadDocument(disk, path) else FolderText(disk, path)
  }

  /** A `tools/call` request: its `params`, as `request.get("params", {})` reads them. */
  function ParamsOf(req: Json): Json
  {
    if req.Obj? then Field(req.fields, "params", Obj(map[])) else Null
  }

  /** A call answers what `CallTool` computes for its params, under the request's id. */
  lemma CallAnswer(disk: Disk, req: Json)
    requires req.Obj? && MethodOf(req) == Str("tools/call")
    ensures HandleRequest(disk, req) ==
              match CallTool(disk, ParamsOf(req))
              case Err(e) => Err(e)
              case Ok(out) => Ok(Some(Respond(IdOf(req), out.0, out.1)))
  {
  }

  /** A call that names a path tool, with a string path, answers that tool's text for the resolved path. */
  lemma CallToolText(disk: Disk, params: Json, tool: string, raw: string)
    requires params.Obj? && Field(params.fields, "name", Null) == Str(tool)
    requires tool == "read_document" || tool == "read_folder"
    requires var args := Field(params.fields, "arguments", Obj(map[]));
             args.Obj? && Field(args.fields, "path", Str("")) == Str(raw)
    ensures CallTool(disk, params) == Ok(("result", Rpc.TextContent(ToolText(disk, tool, Resolve(disk, raw)))))
  {
  }

  /** `handle_request(request)` */
  function HandleRequest(disk: Disk, req: Json): Result<Option<Json>>
  {
    match Parse(req)
    case Err(e) => Err(e)
    case Ok(p) =>
      if p.meth == Str("initialize") then Ok(Some(Respond(p.id, "result", InitializeResult(ServerName, ServerVersion))))
      else if p.meth == Str("tools/list") then Ok(Some(Respond(p.id, "result", Obj(map["tools" := Arr(Tools)]))))
      else if p.meth == Str("tools/call") then
        match CallTool(disk, p.params)
        case Err(e) => Err(e)
        case Ok(out) => Ok(Some(Respond(p.id, out.0, out.1)))
      else Ok(None)
  }

  /** The method of a request, as `request.get("method")` reads it. */
  function MethodOf(req: Json): Json
  {
    if req.Obj? then Field(req.fields, "method", Null) else Null
  }

  /** Every response is a JSON-RPC 2.0 envelope that echoes the request's id. */
  lemma ResponseEnvelope(disk: Disk, req: Json)
    ensures HandleRequest(disk, req).Ok? && HandleRequest(disk, req).value.Some? ==>
              Envelope(HandleRequest(disk, req).value.value, IdOf(req))
  {
    if req.Obj? && MethodOf(req) == Str("tools/call") {
      CallAnswer(disk, req);
      var call := CallTool(disk, ParamsOf(req));
      if call.Ok? {
        CallToolKey(disk, ParamsOf(req));
        RespondEnvelope(IdOf(req), call.value.0, call.value.1);
      }
    } else if req.Obj? {
      var m := MethodOf(req);
      if m == Str("initialize") || m == Str("tools/list") {
        RespondEnvelope(IdOf(req), "result", HandleRequest(disk, req).value.value.fields["result"]);
      }
    }
  }

  /** A call that does not raise answers under exactly one of the keys `result` or `error`. */
  lemma CallToolKey(disk: Disk, params: Json)
    ensures CallTool(disk, params).Ok? ==> CallTool(disk, params).value.0 in {"result", "error"}
  {
  }

  /** No response exactly for a dict request whose method is none of the three the server knows. */
  lemma NoResponseIff(disk: Disk, req: Json)
    ensures HandleRequest(disk, req) == Ok(None) <==>
              req.Obj? && MethodOf(req) !in {Str("initialize"), Str("tools/list"), Str("tools/call")}
  {
  }

  /** `initialize` answers the protocol version, the tools capability and the server's name and version. */
  lemma InitializeAnswer(disk: Disk, req: Json)
    requires req.Obj? && MethodOf(req) == Str("initialize")
    ensures HandleRequest(disk, req) == Ok(Some(Respond(IdOf(req), "result", InitializeResult("doc-loader", "1.2"))))
  {
  }

  /** `tools/list` answers exactly the two descriptors, `read_document` then `read_folder`. */
  lemma ListAnswer(disk: Disk, req: Json)
    requires req.Obj? && MethodOf(req) == Str("tools/list")
    ensures var resp := HandleRequest(disk, req);
            && resp.Ok? && resp.value.Some?
            && resp.value.value.fields["result"] == Obj(map["tools" := Arr(Tools)])
            && |Tools| == 2
            && Tools[0].fields["name"] == Str("read_document")
            && Tools[1].fields["name"] == Str("read_folder")
  {
  }

  /** A call naming any other tool gets error -32601 and no result. */
  lemma UnknownToolError(disk: Disk, req: Json)
    requires req.Obj? && MethodOf(req) == Str("tools/call")
    requires var params := Field(req.fields, "params", Obj(map[]));
             && params.Obj?
             && Field(params.fields, "name", Null) !in {Str("read_document"), Str("read_folder")}
    ensures var resp := HandleRequest(disk, req);
            && resp.Ok? && resp.value.Some?
            && resp.value.value.fields["error"] == Obj(map["code" := Num(-32601), "message" := Str("Method not found")])
            && "result" !in resp.value.value.fields
  {
  }

  /** A call that names a tool, with arguments holding a string path. */
  predicate CallsWithPath(req: Json, tool: string, raw: string)
  {
    && req.Obj? && MethodOf(req) == Str("tools/call")
    && var params := Field(req.fields, "params", Obj(map[]));
       && params.Obj?
       && Field(params.fields, "name", Null) == Str(tool)
       && var args := Field(params.fields, "arguments", Obj(map[]));
          args.Obj? && Field(args.fields, "path", Str("")) == Str(raw)
  }

  /** `read_document` answers, as a result and never as an error, the document's text for the resolved path. */
  lemma DocumentAnswer(disk: Disk, req: Json, raw: string)
    requires CallsWithPath(req, "read_document", raw)
    ensures HandleRequest(disk, req) == Ok(Some(Respond(IdOf(req), "result", Rpc.TextContent(ReadDocument(disk, Resolve(disk, raw))))))
  {
    CallAnswer(disk, req);
    CallToolText(disk, ParamsOf(req), "read_document", raw);
  }

  /** `read_folder` answers, as a result and never as an error, the folder's text for the resolved path. */
  lemma FolderAnswer(disk: Disk, req: Json, raw: string)
    requires CallsWithPath(req, "read_folder", raw)
    ensures HandleRequest(disk, req) == Ok(Some(Respond(IdOf(req), "result", Rpc.TextContent(FolderText(disk, Resolve(disk, raw))))))
  {
    CallAnswer(disk, req);
    CallToolText(disk, ParamsOf(req), "read_folder", raw);
  }

  /** The server's `handle_request` as the line loop sees it. */
  function Handler(disk: Disk): ToolServer.Handler
  {
    req => HandleRequest(disk, req)
  }

  /**
   * `main`: blank lines, lines that are not JSON, requests that raise and
   * requests with an unknown method produce nothing; every line written is
   * an envelope answering some request line, with that request's id, and
   * there is at most one per input line.
   */
  lemma MainAnswersRequests(disk: Disk, lines: seq<Frame>)
    ensures var out := Output(Handler(disk), lines);
            && |out| <= |lines|
            && forall k :: 0 <= k < |out| ==>
                 exists i :: 0 <= i < |lines| && lines[i].Line? && Envelope(out[k], IdOf(lines[i].value))
  {
    var out := Output(Handler(disk), lines);
    OutputFromLines(Handler(disk), lines);
    forall k | 0 <= k < |out|
      ensures exists i :: 0 <= i < |lines| && lines[i].Line? && Envelope(out[k], IdOf(lines[i].value))
    {
      var i :| 0 <= i < |lines| && lines[i].Line? && Handler(disk)(lines[i].value) == Ok(Some(out[k]));
      ResponseEnvelope(disk, lines[i].value);
    }
  }
}
