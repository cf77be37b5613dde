/**
 * The v5 agent (`MCPAgent`): it spawns the legacy file server and owns the
 * pipe to it, lists the server's tools once, advertises all of them to the
 * model and forwards every tool call the model makes as a `tools/call`
 * request. The pipe is the request objects written and the server's lines
 * not yet read; the end of the stream reads as no response at all.
 */
module V5Mcp {
  import opened Wrappers
  import opened Text
  import opened JsonModel
  import opened Conversation
  import opened Memory
  import Rpc
  import Agent
  import ToolServer
  import FileServer

  /** The `initialize` params: the client's name and version and the protocol version. */
  const InitParams: Json := Obj(map[
    "clientInfo" := Obj(map["name" := Str("my-agent"), "version" := Str("1.0")]),
    "protocolVersion" := Str("2024-11-05")])

  /** The tool message of a call whose response says nothing usable. */
  const Failed := "执行失败"

  /** `_send_rpc`'s reading: an empty read (end of stream) is no response; any other line must parse. */
  function Read(incoming: seq<Frame>): Result<Option<Json>>
  {
    if incoming == [] then Ok(None)
    else match Decode(incoming[0])
      case Err(e) => Err(e)
      case Ok(v) => Ok(Some(v))
  }

  /** `content_list = result.get("content", [])`, then `content_list[0].get("text", "")` when it is non-empty. */
  function ContentText(result: Json): Result<string>
  {
    match Get(result, "content", Arr([]))
    case Err(e) => Err(e)
    case Ok(list) =>
      if !Truthy(list) then Ok(Failed)
      else match list
        case Arr(items) =>
          (match Get(items[0], "text", Str(""))
           case Err(e) => Err(e)
           case Ok(Str(t)) => Ok(t)
           case Ok(_) => Err("text is not a string"))
        case _ => Err("content is not a list")
  }

  /** `f"Error: {response['error']['message']}"` */
  function ErrorText(error: Json): Result<string>
  {
    if !Has(error, "message") then Err("'message'")
    else match error.fields["message"]
      case Str(s) => Ok("Error: " + s)
      case _ => Err("message is not a string")
  }

  /**
   * The tool message `chat` makes of a response: the first content text of a
   * result, "Error: " and the message of an error, "执行失败" for no
   * response or a falsy one or one with neither key. Membership tests on a
   * list or a string follow Python; indexing them raises.
   */
  function ResultText(resp: Option<Json>): Result<string>
  {
    match resp
    case None => Ok(Failed)
    case Some(j) =>
      if !Truthy(j) then Ok(Failed)
      else match j
        case Obj(f) =>
          if "result" in f then ContentText(f["result"])
          else if "error" in f then ErrorText(f["error"])
          else Ok(Failed)
        case Arr(items) =>
          if Str("result") in items || Str("error") in items then Err("list indices must be integers") else Ok(Failed)
        case Str(s) =>
          if Contains(s, "result") || Contains(s, "error") then Err("string indices must be integers") else Ok(Failed)
        case _ => Err("argument is not iterable")
  }

  /** The end of the stream, and a result without content, read as the failure text. */
  lemma NothingReadsFailed(id: Json)
    ensures Read([]) == Ok(None) && ResultText(None) == Ok(Failed)
    ensures ResultText(Some(ToolServer.Respond(id, "result", Obj(map[])))) == Ok(Failed)
  {
    var r := ToolServer.Respond(id, "result", Obj(map[]));
    assert "result" in r.fields && r.fields["result"] == Obj(map[]);
  }

  /** A text item reads as its text, whether the server flags it as an error or not. */
  lemma TextReads(id: Json, text: string)
    ensures ResultText(Some(ToolServer.Respond(id, "result", Rpc.TextContent(text)))) == Ok(text)
    ensures ResultText(Some(ToolServer.Respond(id, "result", FileServer.ErrorContent(text)))) == Ok(text)
  {
    var ok := ToolServer.Respond(id, "result", Rpc.TextContent(text));
    assert "result" in ok.fields && ok.fields["result"] == Rpc.TextContent(text);
    var flagged := ToolServer.Respond(id, "result", FileServer.ErrorContent(text));
    assert "result" in flagged.fields && flagged.fields["result"] == FileServer.ErrorContent(text);
  }

  /** An error response reads as "Error: " and its message. */
  lemma ErrorReads(id: Json, msg: string, error: Json)
    requires Has(error, "message") && error.fields["message"] == Str(msg)
    ensures ResultText(Some(ToolServer.Respond(id, "error", error))) == Ok("Error: " + msg)
  {
    var err := ToolServer.Respond(id, "error", error);
    assert "result" !in err.fields && "error" in err.fields && Truthy(err);
    assert err.fields["error"] == error;
  }

  /** The request that forwards one call: `tools/call` with the call's name and arguments. */
  function Forward(call: Call): Json
  {
    Rpc.MakeRequest("tools/call", Rpc.CallParams(call.name, call.args))
  }

  /** The forwarded request is a `tools/call` of the call's tool with its arguments, under id 1. */
  lemma ForwardCalls(call: Call)
    ensures FileServer.Calls(Forward(call), call.name, Rpc.ArgsJson(call.args))
    ensures ToolServer.IdOf(Forward(call)) == Num(1)
  {
    Rpc.RequestShape("tools/call", Rpc.CallParams(call.name, call.args));
  }

  /** The file server's answer to a `list_files` call reads without raising. */
  lemma ListingReads(host: FileServer.Host, req: Json, args: Json)
    requires FileServer.Calls(req, "list_files", args)
    ensures var resp := FileServer.HandleRequest(host, req);
            resp.Ok? && resp.value.Some? && ResultText(Some(resp.value.value)).Ok?
  {
    FileServer.ListFilesAnswer(host, req, args);
    var path := if "path" in args.fields then args.fields["path"] else Str(".");
    match host.listdir(path)
    case Ok(files) => TextReads(ToolServer.IdOf(req), host.dumps(files));
    case Err(e) => TextReads(ToolServer.IdOf(req), e);
  }

  /** The file server's answer to a `read_file` call reads without raising. */
  lemma ReadingReads(host: FileServer.Host, req: Json, args: Json)
    requires FileServer.Calls(req, "read_file", args)
    ensures var resp := FileServer.HandleRequest(host, req);
            resp.Ok? && resp.value.Some? && ResultText(Some(resp.value.value)).Ok?
  {
    var filename := ToolServer.Field(args.fields, "filename", Null);
    if !Truthy(filename) {
      FileServer.MissingFilename(host, req, args);
      TextReads(ToolServer.IdOf(req), "Missing filename");
    } else {
      FileServer.ReadFileAnswer(host, req, args);
      match host.read(filename)
      case Ok(content) => TextReads(ToolServer.IdOf(req), content);
      case Err(e) => TextReads(ToolServer.IdOf(req), e);
    }
  }

  /** The file server's answer to a call of a tool it lacks reads as "Error: Method not found". */
  lemma UnknownReads(host: FileServer.Host, req: Json, tool: string, args: Json)
    requires FileServer.Calls(req, tool, args) && tool !in {"list_files", "read_file"}
    ensures var resp := FileServer.HandleRequest(host, req);
            resp.Ok? && resp.value.Some? && ResultText(Some(resp.value.value)) == Ok("Error: Method not found")
  {
    assert Str(tool) !in {Str("list_files"), Str("read_file")};
    FileServer.CallAnswer(host, req);
    assert FileServer.CallTool(host, FileServer.ParamsOf(req)) == Ok(("error", ToolServer.MethodNotFound));
    ErrorReads(ToolServer.IdOf(req), "Method not found", ToolServer.MethodNotFound);
    NotFoundText();
  }

  lemma NotFoundText()
    ensures "Error: " + "Method not found" == "Error: Method not found"
  {
  }

  /**
   * Whatever tool the agent forwards and whatever the file system does, the
   * legacy file server answers the request, and the answer reads without
   * raising; a tool it lacks reads as "Error: Method not found".
   */
  lemma FileServerAnswersRead(host: FileServer.Host, call: Call)
    ensures var resp := FileServer.HandleRequest(host, Forward(call));
            && resp.Ok? && resp.value.Some?
            && ResultText(Some(resp.value.value)).Ok?
            && (call.name !in {"list_files", "read_file"} ==> ResultText(Some(resp.value.value)) == Ok("Error: Method not found"))
  {
    var req := Forward(call);
    var args := Rpc.ArgsJson(call.args);
    ForwardCalls(call);
    if call.name == "list_files" {
      ListingReads(host, req, args);
    } else if call.name == "read_file" {
      ReadingReads(host, req, args);
    } else {
      UnknownReads(host, req, call.name, args);
    }
  }

  /** Every entry of the tools map carries a description. */
  ghost predicate Described(m: Rpc.ToolsMap)
  {
    forall i :: 0 <= i < |m| ==> Has(m[i].1, "description")
  }

  /** Putting a described descriptor keeps every entry described. */
  lemma {:induction false} PutDescribed(m: Rpc.ToolsMap, k: string, v: Json)
    requires Described(m) && Has(v, "description")
    ensures Described(Rpc.Put(m, k, v))
  {
    if m != [] && m[0].0 != k {
      PutDescribed(m[1..], k, v);
      assert Rpc.Put(m, k, v) == [m[0]] + Rpc.Put(m[1..], k, v);
    }
  }

  /** `for t in tools: print(t['name'], t['description']); tools_map[t['name']] = t` */
  function Listed(m: Rpc.ToolsMap, tools: seq<Json>): Result<Rpc.ToolsMap>
    decreases |tools|
  {
    if tools == [] then Ok(m)
    else match Rpc.NameOf(tools[0])
      case Err(e) => Err(e)
      case Ok(n) =>
        if !Has(tools[0], "description") then Err("'description'")
        else Listed(Rpc.Put(m, n, tools[0]), tools[1..])
  }

  /**
   * Listing is the core client's registration with one more demand: it
   * fails exactly when registration fails or some descriptor has no
   * description, and otherwise builds the same map, every entry described.
   */
  lemma {:induction false} ListedRegisters(m: Rpc.ToolsMap, tools: seq<Json>)
    requires Described(m)
    ensures Listed(m, tools).Ok? <==>
              Rpc.Register(m, tools).Ok? && forall i :: 0 <= i < |tools| ==> Has(tools[i], "description")
    ensures Listed(m, tools).Ok? ==> Listed(m, tools) == Rpc.Register(m, tools) && Described(Listed(m, tools).value)
    decreases |tools|
  {
    if tools != [] {
      match Rpc.NameOf(tools[0])
      case Err(_) =>
      case Ok(n) =>
        if Has(tools[0], "description") {
          PutDescribed(m, n, tools[0]);
          ListedRegisters(Rpc.Put(m, n, tools[0]), tools[1..]);
          if forall i :: 1 <= i < |tools| ==> Has(tools[i], "description") {
            assert forall i :: 0 <= i < |tools| - 1 ==> tools[1..][i] == tools[i + 1];
          } else {
            var i :| 1 <= i < |tools| && !Has(tools[i], "description");
            assert tools[1..][i - 1] == tools[i];
          }
        }
    }
  }

  /** Once every entry has a description, converting the map fails exactly when some entry has no input schema. */
  lemma {:induction false} ConversionFails(m: Rpc.ToolsMap)
    requires Described(m)
    ensures Rpc.ToInference(m).Err? <==> exists i :: 0 <= i < |m| && !Has(m[i].1, "inputSchema")
  {
    if m != [] {
      assert Described(m[1..]) by {
        assert forall i :: 0 <= i < |m| - 1 ==> m[1..][i] == m[i + 1];
      }
      ConversionFails(m[1..]);
      if exists i :: 0 <= i < |m| && !Has(m[i].1, "inputSchema") {
        var i :| 0 <= i < |m| && !Has(m[i].1, "inputSchema");
        if i > 0 {
          assert m[1..][i - 1] == m[i];
        }
      } else {
        assert forall i :: 0 <= i < |m| - 1 ==> m[1..][i] == m[i + 1];
      }
    }
  }

  /** What `_initialize_mcp` leaves: the requests written, the lines left, and the tools map or the exception. */
  datatype Setup = Setup(requests: seq<Json>, incoming: seq<Frame>, tools: Result<Rpc.ToolsMap>)

  /**
   * `_initialize_mcp`: `initialize` (its response ignored, even a missing
   * one), then `tools/list` without params; a missing list response raises
   * on `.get`.
   */
  function Setting(m: Rpc.ToolsMap, incoming: seq<Frame>): Setup
  {
    var hello := Rpc.MakeRequest("initialize", InitParams);
    match Read(incoming)
    case Err(e) => Setup([hello], Rest(incoming), Err(e))
    case Ok(_) =>
      var rest := Rest(incoming);
      Setup([hello, Rpc.MakeRequest("tools/list", Null)], Rest(rest),
        match Read(rest)
        case Err(e) => Err(e)
        case Ok(None) => Err("'NoneType' object has no attribute 'get'")
        case Ok(Some(resp)) =>
          match Rpc.ToolsOf(resp)
          case Err(e) => Err(e)
          case Ok(ts) => Listed(m, ts))
  }

  /**
   * The first request is `initialize` with the client's info, the second
   * `tools/list` with no params; a server that answers nothing leaves the
   * agent without a tools map; a listing gives each name its last
   * descriptor, every one described.
   */
  lemma SettingSpec(m: Rpc.ToolsMap, incoming: seq<Frame>)
    requires Described(m)
    ensures var s := Setting(m, incoming);
            && 1 <= |s.requests| <= 2
            && s.requests[0].fields["method"] == Str("initialize")
            && "params" in s.requests[0].fields && s.requests[0].fields["params"] == InitParams
            && InitParams.fields["clientInfo"].fields["name"] == Str("my-agent")
            && (|s.requests| == 2 ==> s.requests[1].fields["method"] == Str("tools/list") && "params" !in s.requests[1].fields)
            && (s.tools.Ok? ==> |s.requests| == 2 && s.incoming == Drop(incoming, 2))
            && (|incoming| <= 1 ==> s.tools.Err?)
    ensures var s := Setting(m, incoming);
            s.tools.Ok? ==>
              var ts := Rpc.ToolsOf(Read(Rest(incoming)).value.value).value;
              && Described(s.tools.value)
              && forall n :: Rpc.Lookup(s.tools.value, n) == if Rpc.LastNamed(ts, n).Some? then Rpc.LastNamed(ts, n) else Rpc.Lookup(m, n)
  {
    assert Truthy(InitParams) by {
      assert "protocolVersion" in InitParams.fields;
    }
    Rpc.RequestShape("initialize", InitParams);
    Rpc.RequestShape("tools/list", Null);
    assert Drop(incoming, 2) == Drop(Rest(incoming), 1) == Drop(Rest(Rest(incoming)), 0);
    var s := Setting(m, incoming);
    if s.tools.Ok? {
      var ts := Rpc.ToolsOf(Read(Rest(incoming)).value.value).value;
      ListedRegisters(m, ts);
      forall n
        ensures Rpc.Lookup(s.tools.value, n) == if Rpc.LastNamed(ts, n).Some? then Rpc.LastNamed(ts, n) else Rpc.Lookup(m, n)
      {
        Rpc.RegisterLookup(m, ts, n);
      }
    }
  }

  /** Where a round of forwarded calls has got to: the tool messages so far, whether none raised, and the pipe. */
  datatype Ran = Ran(results: seq<string>, ok: bool, incoming: seq<Frame>, requests: seq<Json>)

  /** One call forwarded: the request is written whatever the answer; a line that does not parse, or a response that raises, ends the round. */
  function Apply(prev: Ran, call: Call): Ran
  {
    if !prev.ok then prev
    else
      var sent := prev.requests + [Forward(call)];
      match Read(prev.incoming)
      case Err(_) => Ran(prev.results, false, Rest(prev.incoming), sent)
      case Ok(resp) =>
        match ResultText(resp)
        case Err(_) => Ran(prev.results, false, Rest(prev.incoming), sent)
        case Ok(t) => Ran(prev.results + [t], true, Rest(prev.incoming), sent)
  }

  /** A call after a raise changes nothing; otherwise it writes its request, reads one line, and adds a message unless it raised. */
  lemma ApplyShape(prev: Ran, call: Call)
    ensures var r := Apply(prev, call);
            && (!prev.ok ==> r == prev)
            && (prev.ok ==>
                  && r.requests == prev.requests + [Forward(call)]
                  && r.incoming == Rest(prev.incoming)
                  && |r.results| == |prev.results| + (if r.ok then 1 else 0)
                  && r.results[..|prev.results|] == prev.results)
  {
  }

  function Round(calls: seq<Call>, incoming: seq<Frame>): Ran
  {
    if calls == [] then Ran([], true, incoming, [])
    else Apply(Round(calls[..|calls| - 1], incoming), calls[|calls| - 1])
  }

  /** The requests that forward `calls`, one per call, in order. */
  function Forwarded(calls: seq<Call>): (reqs: seq<Json>)
    ensures |reqs| == |calls| && forall i :: 0 <= i < |calls| ==> reqs[i] == Forward(calls[i])
  {
    if calls == [] then [] else Forwarded(calls[..|calls| - 1]) + [Forward(calls[|calls| - 1])]
  }

  /**
   * Every call reaches the server, in order, and reads one line: the
   * requests written are those of a prefix of the calls, one more than the
   * tool messages when a call raised and all of them otherwise, and as many
   * lines have been read as requests written.
   */
  lemma {:induction false} RoundForwards(calls: seq<Call>, incoming: seq<Frame>)
    ensures var r := Round(calls, incoming);
            && |r.requests| <= |calls|
            && |r.requests| == |r.results| + (if r.ok then 0 else 1)
            && r.requests == Forwarded(calls[..|r.requests|])
            && r.incoming == Drop(incoming, |r.requests|)
            && (r.ok ==> |r.requests| == |calls|)
    decreases |calls|
  {
    if calls != [] {
      var front := calls[..|calls| - 1];
      RoundForwards(front, incoming);
      var prev := Round(front, incoming);
      ApplyShape(prev, calls[|calls| - 1]);
      assert Round(calls, incoming) == Apply(prev, calls[|calls| - 1]);
      if prev.ok {
        DropRest(incoming, |front|);
        assert calls[..|calls|] == calls;
        assert Forwarded(calls) == prev.requests + [Forward(calls[|calls| - 1])];
      } else {
        assert Round(calls, incoming) == prev;
        assert calls[..|prev.requests|] == front[..|prev.requests|];
      }
    }
  }

  /** The k-th tool message of a round is the reading of the k-th line the server wrote. */
  lemma {:induction false} RoundReads(calls: seq<Call>, incoming: seq<Frame>)
    ensures var r := Round(calls, incoming);
            forall k :: 0 <= k < |r.results| ==>
              Read(Drop(incoming, k)).Ok? && ResultText(Read(Drop(incoming, k)).value) == Ok(r.results[k])
    decreases |calls|
  {
    if calls != [] {
      var front := calls[..|calls| - 1];
      RoundReads(front, incoming);
      RoundForwards(front, incoming);
    }
  }

  /** Once a prefix of the round has raised, the rest of the calls change nothing. */
  lemma {:induction false} RaisedStops(calls: seq<Call>, i: nat, incoming: seq<Frame>)
    requires i <= |calls| && !Round(calls[..i], incoming).ok
    ensures Round(calls, incoming) == Round(calls[..i], incoming)
    decreases |calls| - i
  {
    if i < |calls| {
      assert calls[..i + 1][..i] == calls[..i];
      RaisedStops(calls, i + 1, incoming);
    } else {
      assert calls[..i] == calls;
    }
  }

  /** What a turn leaves: the history, the posts, whether `chat` raised, and the pipe. */
  datatype TurnEnd = TurnEnd(history: seq<Message>, sent: seq<Request>, raised: bool, incoming: seq<Frame>, requests: seq<Json>)

  /**
   * `chat(user_input)`: the user message, then the conversion of the tools
   * map, outside the `try`, so a descriptor without an input schema makes
   * `chat` raise before anything is posted.
   */
  function Turn(h0: seq<Message>, input: string, tools: Rpc.ToolsMap, script: seq<Reply>, incoming: seq<Frame>): TurnEnd
  {
    var open := h0 + [UserMessage(input)];
    match Rpc.ToInference(tools)
    case Err(_) => TurnEnd(open, [], true, incoming, [])
    case Ok(schema) => Respond(open, schema, script, incoming)
  }

  /**
   * The rest of the turn: a plain reply is appended even when empty; a tool
   * request is appended, every call is forwarded and leaves a tool message,
   * and unless a call raised a streamed follow-up with the schema gives the
   * final reply. A failed post ends the turn without an exception.
   */
  function Respond(open: seq<Message>, schema: seq<ToolSpec>, script: seq<Reply>, incoming: seq<Frame>): TurnEnd
  {
    var req1 := Request(open, Some(schema), false);
    var first := NextReply(script);
    if !first.Answer? then TurnEnd(open, [req1], false, incoming, [])
    else if first.calls == [] then TurnEnd(open + [AssistantMessage(first.content)], [req1], false, incoming, [])
    else
      var round := Round(first.calls, incoming);
      var asked := open + [Message(Assistant, first.content, first.calls)] + Agent.ToolMessages(round.results);
      if !round.ok then TurnEnd(asked, [req1], false, round.incoming, round.requests)
      else
        var req2 := Request(asked, Some(schema), true);
        var second := NextReply(RestReplies(script));
        TurnEnd(if second.Chunks? then asked + [AssistantMessage(Concat(second.pieces))] else asked, [req1, req2], false, round.incoming, round.requests)
  }

  /**
   * A turn keeps the earlier history and adds the user message; it raises
   * exactly when the conversion fails, and then nothing is posted or
   * written; otherwise the first post carries the history with the full
   * schema.
   */
  lemma TurnOpens(h0: seq<Message>, input: string, tools: Rpc.ToolsMap, script: seq<Reply>, incoming: seq<Frame>)
    ensures var t := Turn(h0, input, tools, script, incoming);
            && |t.history| > |h0|
            && t.history[..|h0| + 1] == h0 + [UserMessage(input)]
            && (t.raised <==> Rpc.ToInference(tools).Err?)
            && (t.raised ==> t.history == h0 + [UserMessage(input)] && t.sent == [] && t.requests == [] && t.incoming == incoming)
            && (!t.raised ==> |t.sent| >= 1 && t.sent[0] == Request(h0 + [UserMessage(input)], Some(Rpc.ToInference(tools).value), false))
  {
  }

  /** A reply without tool calls is appended as it came, even when its content is empty. */
  lemma TurnPlain(h0: seq<Message>, input: string, tools: Rpc.ToolsMap, script: seq<Reply>, incoming: seq<Frame>)
    requires Rpc.ToInference(tools).Ok? && NextReply(script).Answer? && NextReply(script).calls == []
    ensures var t := Turn(h0, input, tools, script, incoming);
            && t.history == h0 + [UserMessage(input), AssistantMessage(NextReply(script).content)]
            && t.requests == [] && t.incoming == incoming && !t.raised
  {
  }

  /**
   * A reply with tool calls forwards them in order, each leaving its tool
   * message after the assistant message; when none raised, all are
   * forwarded and the streamed follow-up keeps the schema.
   */
  lemma TurnForwards(h0: seq<Message>, input: string, tools: Rpc.ToolsMap, script: seq<Reply>, incoming: seq<Frame>)
    requires Rpc.ToInference(tools).Ok? && NextReply(script).Answer? && NextReply(script).calls != []
    ensures var t := Turn(h0, input, tools, script, incoming);
            var calls := NextReply(script).calls;
            var round := Round(calls, incoming);
            var open := h0 + [UserMessage(input)];
            && !t.raised
            && |t.requests| <= |calls| && t.requests == Forwarded(calls[..|t.requests|])
            && |t.history| >= |open| + 1 + |round.results|
            && t.history[..|open| + 1 + |round.results|] == open + [Message(Assistant, NextReply(script).content, calls)] + Agent.ToolMessages(round.results)
            && (round.ok ==> |t.requests| == |calls| && |t.sent| == 2 && t.sent[1].tools == Some(Rpc.ToInference(tools).value) && t.sent[1].stream)
  {
    var calls := NextReply(script).calls;
    RoundForwards(calls, incoming);
    Agent.ToolMessagesEach(Round(calls, incoming).results);
  }

  class MCPAgent {
    const backend: Backend
    var history: seq<Message>
    /** The request objects written to the server's standard input. */
    var written: seq<Json>
    /** The server's output lines not yet read. */
    var incoming: seq<Frame>
    var toolsMap: Rpc.ToolsMap

    /** The tools map has one entry per name, each with a description. */
    ghost predicate Valid()
      reads this
    {
      Rpc.DistinctNames(toolsMap) && Described(toolsMap)
    }

    /** Spawning the server: an empty history, nothing written or read, an empty tools map. */
    constructor (backend: Backend, serverOutput: seq<Frame>)
      ensures Valid()
      ensures this.backend == backend && history == [] && written == [] && incoming == serverOutput && toolsMap == []
    {
      this.backend := backend;
      history := [];
      written := [];
      incoming := serverOutput;
      toolsMap := [];
    }

    /** `_send_rpc(method, params)`: write one request line, read one line. */
    method SendRpc(meth: string, params: Json) returns (r: Result<Option<Json>>)
      modifies this
      ensures written == old(written) + [Rpc.MakeRequest(meth, params)]
      ensures incoming == Rest(old(incoming)) && r == Read(old(incoming))
      ensures history == old(history) && toolsMap == old(toolsMap)
    {
      written := written + [Rpc.MakeRequest(meth, params)];
      r := Read(incoming);
      incoming := Rest(incoming);
    }

    /** `_initialize_mcp()`: `Setting` says what it writes, reads and registers, or the exception it raises. */
    method Initialize() returns (err: Option<string>)
      requires Valid()
      modifies this
      ensures Valid() && history == old(history)
      ensures var s := Setting(old(toolsMap), old(incoming));
              && written == old(written) + s.requests && incoming == s.incoming
              && (err.None? <==> s.tools.Ok?)
              && (s.tools.Ok? ==> toolsMap == s.tools.value)
    {
      var hello := SendRpc("initialize", InitParams);
      if hello.Err? {
        return Some(hello.msg);
      }
      var listing := SendRpc("tools/list", Null);
      if listing.Err? {
        return Some(listing.msg);
      }
      if listing.value.None? {
        return Some("'NoneType' object has no attribute 'get'");
      }
      var tools := Rpc.ToolsOf(listing.value.value);
      if tools.Err? {
        return Some(tools.msg);
      }
      var ts := tools.value;
      ghost var m0 := toolsMap;
      var i := 0;
      while i < |ts|
        invariant 0 <= i <= |ts|
        invariant Valid() && history == old(history)
        invariant written == old(written) + Setting(m0, old(incoming)).requests
        invariant incoming == Setting(m0, old(incoming)).incoming
        invariant Listed(toolsMap, ts[i..]) == Listed(m0, ts)
      {
        var name := Rpc.NameOf(ts[i]);
        if name.Err? {
          return Some(name.msg);
        }
        if !Has(ts[i], "description") {
          return Some("'description'");
        }
        assert ts[i..][1..] == ts[i + 1..];
        Rpc.PutDistinct(toolsMap, name.value, ts[i]);
        PutDescribed(toolsMap, name.value, ts[i]);
        toolsMap := Rpc.Put(toolsMap, name.value, ts[i]);
        i := i + 1;
      }
      err := None;
    }

    /** Lines 108-121 of `chat`: forward one call and read its tool message. */
    method CallTool(call: Call) returns (r: Result<string>)
      modifies this
      ensures written == old(written) + [Forward(call)]
      ensures incoming == Rest(old(incoming))
      ensures r == (match Read(old(incoming)) case Err(e) => Err(e) case Ok(resp) => ResultText(resp))
      ensures history == old(history) && toolsMap == old(toolsMap)
    {
      var resp := SendRpc("tools/call", Rpc.CallParams(call.name, call.args));
      if resp.Err? {
        return Err(resp.msg);
      }
      r := ResultText(resp.value);
    }

    /** `for tool in message["tool_calls"]`: every call forwarded in turn until one raises. */
    method RunTools(calls: seq<Call>) returns (results: seq<string>, ok: bool)
      modifies this
      ensures history == old(history) && toolsMap == old(toolsMap)
      ensures var r := Round(calls, old(incoming));
              && results == r.results && ok == r.ok
              && incoming == r.incoming && written == old(written) + r.requests
    {
      results := [];
      var i := 0;
      while i < |calls|
        invariant 0 <= i <= |calls|
        invariant history == old(history) && toolsMap == old(toolsMap)
        invariant var r := Round(calls[..i], old(incoming));
                  && r.ok && r.results == results
                  && incoming == r.incoming && written == old(written) + r.requests
      {
        assert calls[..i + 1][..i] == calls[..i];
        var r := CallTool(calls[i]);
        if r.Err? {
          ok := false;
          RaisedStops(calls, i + 1, old(incoming));
          return;
        }
        results := results + [r.value];
        i := i + 1;
      }
      assert calls[..i] == calls;
      ok := true;
    }

    /** The turn after the conversion: the first post, the forwarded calls, the streamed follow-up. */
    method Answer(schema: seq<ToolSpec>)
      modifies this, backend
      ensures toolsMap == old(toolsMap)
      ensures var t := Respond(old(history), schema, old(backend.script), old(incoming));
              && history == t.history
              && backend.sent == old(backend.sent) + t.sent
              && backend.script == (if |t.sent| == 1 then RestReplies(old(backend.script)) else RestReplies(RestReplies(old(backend.script))))
              && incoming == t.incoming && written == old(written) + t.requests
    {
      var first := backend.Post(Request(history, Some(schema), false));
      if !first.Answer? {
        return;
      }
      if first.calls == [] {
        history := history + [AssistantMessage(first.content)];
        return;
      }
      history := history + [Message(Assistant, first.content, first.calls)];
      var results, ok := RunTools(first.calls);
      history := history + Agent.ToolMessages(results);
      if !ok {
        return;
      }
      var full := PostStreamed(backend, Request(history, Some(schema), true));
      if full.Ok? {
        history := history + [AssistantMessage(full.value)];
      }
    }

    /** `chat(user_input)`; `raised` is whether it lets an exception out. */
    method Chat(input: string) returns (raised: bool)
      requires Valid()
      modifies this, backend
      ensures Valid() && toolsMap == old(toolsMap)
      ensures var t := Turn(old(history), input, old(toolsMap), old(backend.script), old(incoming));
              && history == t.history && raised == t.raised
              && backend.sent == old(backend.sent) + t.sent
              && backend.script == (if |t.sent| == 0 then old(backend.script) else if |t.sent| == 1 then RestReplies(old(backend.script)) else RestReplies(RestReplies(old(backend.script))))
              && incoming == t.incoming && written == old(written) + t.requests
      ensures raised <==> exists i :: 0 <= i < |toolsMap| && !Has(toolsMap[i].1, "inputSchema")
    {
      ConversionFails(toolsMap);
      history := history + [UserMessage(input)];
      var schema := Rpc.ToInference(toolsMap);
      if schema.Err? {
        return true;
      }
      Answer(schema.value);
      raised := false;
    }
  }
}
