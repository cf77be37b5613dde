/**
 * The specialist agent (`GenericAgent`): a message history, an optional
 * memory store with its two memory tools, an optional tool-server client,
 * and one chat turn that may run a single round of tool calls before a
 * follow-up request.
 */
module Agent {
  import opened Wrappers
  import opened Text
  import opened JsonModel
  import opened Conversation
  import opened Memory
  import opened Rpc

  /** The phrase whose presence in a retrieval text suppresses injection. */
  const Phrase := "没有相关信息"
  const NoKnowledge := "我的知识库中" + Phrase + "。"
  const PersistedNote := "内容已读取并自动存入您的专属知识库。"
  const ErrorText := "发生错误"
  /** query_memory's `n_results`. */
  const QueryLimit: nat := 5

  function SavedShort(name: string): string { "已存入【" + name + "】的知识库。" }
  function SavedLong(name: string): string { "已将长内容切片并存入【" + name + "】的知识库。" }
  function StoreFailed(e: string): string { "存储失败: " + e }
  function KnowledgeHeader(name: string): string { "【" + name + "】检索到的知识:\n" }
  function ContextNote(ctx: string): string { "任务背景(来自Manager): " + ctx }
  function Background(memories: string): string { "相关背景知识:\n" + memories }

  /** The texts save_memory adds: 500-character slices of a long content, the content itself otherwise. */
  function Pieces(content: string): (ps: seq<string>)
    ensures Concat(ps) == content
    ensures forall k :: 0 <= k < |ps| ==> |ps[k]| <= ChunkSize
    ensures |content| > ChunkSize ==> |ps| == (|content| + ChunkSize - 1) / ChunkSize
    ensures |content| <= ChunkSize ==> ps == [content]
  {
    if |content| > ChunkSize then
      SlicesProperties(content);
      Slices(content)
    else
      assert Concat([content]) == content + Concat([]);
      [content]
  }

  /** save_memory's reply: which confirmation, or the exception text. */
  function SaveReply(name: string, content: string, err: Option<string>): string
  {
    match err
    case None => if |content| > ChunkSize then SavedLong(name) else SavedShort(name)
    case Some(e) => StoreFailed(e)
  }

  /** A confirmation never reads as a failure. */
  lemma SaveReplyOk(name: string, content: string, err: Option<string>)
    ensures SaveReply(name, content, err) == SaveReply(name, content, None) <==> err.None?
  {
    if err.Some? {
      assert SaveReply(name, content, err)[0] == '存';
      assert SaveReply(name, content, None)[0] == '已';
    }
  }

  /** query_memory's reply for the store's outcome. */
  function QueryReply(name: string, hits: Hits): string
  {
    match hits
    case Found(texts) => FormatHits(KnowledgeHeader(name), NoKnowledge, texts)
    case Fault(e) => "检索失败: " + e
  }

  /** The retrieval text is injected unless it contains the phrase. */
  predicate Injects(memories: string)
  {
    !Contains(memories, Phrase)
  }

  /** An empty retrieval is never injected. */
  lemma NoHitsNotInjected(name: string)
    ensures QueryReply(name, Found([])) == NoKnowledge
    ensures !Injects(QueryReply(name, Found([])))
  {
    ContainsMiddle("我的知识库中", Phrase, "。");
  }

  /**
   * A non-empty retrieval lists every hit on its own "- " line, after the
   * header line (which ends in a newline) and the lines of the hits before
   * it, and followed by a newline or the end of the reply.
   */
  lemma HitsListed(name: string, hits: seq<string>, k: nat)
    requires k < |hits|
    ensures Contains(QueryReply(name, Found(hits)), "- " + hits[k])
    ensures QueryReply(name, Found(hits)) ==
      KnowledgeHeader(name) + (if k == 0 then "" else JoinLines(Bulleted(hits[..k])) + "\n") + ("- " + hits[k])
      + (if k + 1 == |hits| then "" else "\n" + JoinLines(Bulleted(hits[k + 1..])))
    ensures KnowledgeHeader(name)[|KnowledgeHeader(name)| - 1] == '\n'
  {
    FormatHitsShowsEach(KnowledgeHeader(name), NoKnowledge, hits, k);
    FormatHitsLine(KnowledgeHeader(name), NoKnowledge, hits, k);
  }

  /** One retrieved text that itself contains the phrase suppresses the whole retrieval. */
  lemma HitWithPhraseSuppresses(name: string, hits: seq<string>, k: nat)
    requires k < |hits| && Contains(hits[k], Phrase)
    ensures !Injects(QueryReply(name, Found(hits)))
  {
    HitsListed(name, hits, k);
    var i :| 0 <= i <= |hits[k]| && StartsWith(hits[k][i..], Phrase);
    assert ("- " + hits[k])[2 + i..] == hits[k][i..];
    ContainsTrans(QueryReply(name, Found(hits)), "- " + hits[k], Phrase);
  }

  /** `f(**args)` binds for a function whose one parameter is `p`: `p` is the only key. */
  predicate Binds(args: Args, p: string)
  {
    p in args && |args| == 1
  }

  /** Where a tool call goes: the agent's own memory tools take precedence over the tool server. */
  datatype Route = Local | Remote | Nowhere

  function RouteOf(tool: string, hasStore: bool, hasClient: bool): Route
  {
    if hasStore && (tool == "save_memory" || tool == "query_memory") then Local
    else if hasClient then Remote
    else Nowhere
  }

  /** The tools whose result is saved to memory and replaced by a note. */
  predicate Persists(tool: string)
  {
    tool == "read_document" || tool == "read_folder"
  }

  /** What a tool message says regardless of the collaborators: the note for a reading tool, nothing for an unroutable call. */
  predicate ResultShape(tool: string, route: Route, result: string)
  {
    && (Persists(tool) ==> result == PersistedNote)
    && (route == Nowhere && !Persists(tool) ==> result == "")
  }
  /** The `tools/call` request each call sends, in call order. */
  function RemoteRequests(calls: seq<Call>, hasStore: bool): seq<Json>
  {
    if calls == [] then []
    else
      var last := calls[|calls| - 1];
      RemoteRequests(calls[..|calls| - 1], hasStore)
      + (if RouteOf(last.name, hasStore, true) == Remote then [MakeRequest("tools/call", CallParams(last.name, last.args))] else [])
  }

  lemma RemoteRequestsStep(calls: seq<Call>, i: nat, hasStore: bool)
    requires i < |calls|
    ensures RemoteRequests(calls[..i + 1], hasStore) == RemoteRequests(calls[..i], hasStore)
      + (if RouteOf(calls[i].name, hasStore, true) == Remote then [MakeRequest("tools/call", CallParams(calls[i].name, calls[i].args))] else [])
  {
    assert calls[..i + 1][..i] == calls[..i];
  }

  /** Exactly the calls that are not memory tools reach the server, each once, in order. */
  lemma {:induction false} RemoteRequestsCount(calls: seq<Call>)
    ensures |RemoteRequests(calls, false)| == |calls|
    ensures forall k :: 0 <= k < |calls| ==> RemoteRequests(calls, false)[k] == MakeRequest("tools/call", CallParams(calls[k].name, calls[k].args))
  {
    if calls != [] {
      var n := |calls| - 1;
      var prefix := calls[..n];
      RemoteRequestsCount(prefix);
      var last := MakeRequest("tools/call", CallParams(calls[n].name, calls[n].args));
      assert RemoteRequests(calls, false) == RemoteRequests(prefix, false) + [last];
      forall k | 0 <= k < n
        ensures RemoteRequests(calls, false)[k] == MakeRequest("tools/call", CallParams(calls[k].name, calls[k].args))
      {
        assert prefix[k] == calls[k];
      }
    }
  }

  /** One tool message per result, in order. */
  function ToolMessages(results: seq<string>): seq<Message>
  {
    if results == [] then [] else ToolMessages(results[..|results| - 1]) + [ToolMessage(results[|results| - 1])]
  }

  lemma {:induction false} ToolMessagesEach(results: seq<string>)
    ensures |ToolMessages(results)| == |results|
    ensures forall k :: 0 <= k < |results| ==> ToolMessages(results)[k] == ToolMessage(results[k])
  {
    if results != [] {
      ToolMessagesEach(results[..|results| - 1]);
    }
  }

  /** `{"type": "object", "properties": {p: {"type": "string"}}, "required": [p]}` */
  function StringParam(p: string): Json
  {
    Obj(map["type" := Str("object"),
            "properties" := Obj(map[p := Obj(map["type" := Str("string")])]),
            "required" := Arr([Str(p)])])
  }

  /** The descriptors of the two memory tools. */
  function MemorySchema(name: string): (r: seq<ToolSpec>)
    ensures |r| == 2 && r[0].name == "save_memory" && r[1].name == "query_memory"
  {
    [ToolSpec("save_memory", Str("将重要知识存入" + name + "的专属数据库。"), StringParam("content")),
     ToolSpec("query_memory", Str("从" + name + "的专属数据库检索知识。"), StringParam("query"))]
  }

  /** The server tools whose name is in `allowed`, in the server's order. */
  function Allow(specs: seq<ToolSpec>, allowed: seq<string>): (r: seq<ToolSpec>)
    ensures |r| <= |specs|
    ensures forall s :: s in r <==> s in specs && s.name in allowed
  {
    if specs == [] then []
    else (if specs[0].name in allowed then [specs[0]] else []) + Allow(specs[1..], allowed)
  }

  /** Filtering keeps the server's order: the allowed tools of a concatenation are those of each part, in turn. */
  lemma {:induction false} AllowAppend(a: seq<ToolSpec>, b: seq<ToolSpec>, allowed: seq<string>)
    ensures Allow(a + b, allowed) == Allow(a, allowed) + Allow(b, allowed)
    decreases |a|
  {
    if a != [] {
      assert (a + b)[0] == a[0];
      assert (a + b)[1..] == a[1..] + b;
      AllowAppend(a[1..], b, allowed);
    } else {
      assert a + b == b;
    }
  }

  /** The messages a turn opens with: the task context, the user input, the injected knowledge. */
  function Opening(context: Option<string>, input: string, memories: Option<string>): seq<Message>
  {
    (if context.Some? && context.value != "" then [SystemMessage(ContextNote(context.value))] else [])
    + [UserMessage(input)]
    + (if memories.Some? && Injects(memories.value) then [SystemMessage(Background(memories.value))] else [])
  }

  /** What a turn depends on besides the collaborators: the agent's name and which collaborators it has. */
  datatype Kit = Kit(name: string, hasStore: bool, hasClient: bool)

  /**
   * Where the collaborators stand: what is left of the store's add and
   * query scripts and of the tool server's output, and the texts added to
   * the agent's collection and the requests written to the server so far.
   */
  datatype Mem = Mem(faults: seq<Option<string>>, answers: seq<Hits>, incoming: seq<Frame>, added: seq<string>, requests: seq<Json>)

  /** `save_memory(content)`: its reply, and the pieces added until an add raises. */
  function Saving(name: string, content: string, m: Mem): (string, Mem)
  {
    var pieces := Pieces(content);
    var run := AddRun(m.faults, |pieces|);
    (SaveReply(name, content, run.1),
     m.(faults := Drop(m.faults, AddsTaken(m.faults, |pieces|)), added := m.added + pieces[..run.0]))
  }

  /**
   * A save adds a prefix of the pieces, the whole of them exactly when the
   * reply is the confirmation; with no add failing the collection gains the
   * content itself; an add that fails at once adds nothing and its
   * exception is the reply. Neither the queries nor the server are touched.
   */
  lemma SavingSpec(name: string, content: string, m: Mem)
    ensures var s := Saving(name, content, m);
            && s.1.answers == m.answers && s.1.incoming == m.incoming && s.1.requests == m.requests
            && |m.added| <= |s.1.added| && s.1.added[..|m.added|] == m.added
            && s.1.added[|m.added|..] <= Pieces(content)
            && (s.1.added == m.added + Pieces(content) <==> s.0 == SaveReply(name, content, None))
    ensures m.faults == [] ==>
              Saving(name, content, m) == (SaveReply(name, content, None), m.(added := m.added + Pieces(content)))
              && Concat(Pieces(content)) == content
    ensures NextFault(m.faults).Some? ==>
              Saving(name, content, m) == (StoreFailed(NextFault(m.faults).value), m.(faults := Rest(m.faults)))
  {
    var pieces := Pieces(content);
    var run := AddRun(m.faults, |pieces|);
    var s := Saving(name, content, m);
    assert s.1.added[..|m.added|] == m.added;
    assert s.1.added[|m.added|..] == pieces[..run.0];
    assert pieces[..|pieces|] == pieces;
    SaveReplyOk(name, content, run.1);
    if m.faults == [] {
      DropNil<Option<string>>(AddsTaken(m.faults, |pieces|));
      assert m.(faults := []) == m;
    }
    if s.1.added == m.added + pieces {
      assert s.1.added[|m.added|..] == pieces;
    }
    if NextFault(m.faults).Some? {
      assert AddsTaken(m.faults, |pieces|) == 1;
      assert Drop(m.faults, 1) == Rest(m.faults);
      assert m.added + pieces[..0] == m.added;
    }
  }

  /** The automatic retrieval that opens a turn, when there is a store. */
  function Memories(kit: Kit, answers: seq<Hits>): Option<string>
  {
    if kit.hasStore then Some(QueryReply(kit.name, Capped(NextHits(answers), QueryLimit))) else None
  }

  /** The collaborators after the opening: the retrieval consumed one query outcome. */
  function AfterOpen(kit: Kit, m: Mem): Mem
  {
    if kit.hasStore then m.(answers := Rest(m.answers)) else m
  }

  /** One requested call routed: a memory tool (whose arguments must bind its one parameter), the tool server, or nothing (""). */
  function Routed(kit: Kit, call: Call, m: Mem): (Result<string>, Mem)
  {
    match RouteOf(call.name, kit.hasStore, kit.hasClient)
    case Local =>
      if call.name == "save_memory" then
        if !Binds(call.args, "content") then (Err("save_memory() got an unexpected keyword argument"), m)
        else
          var s := Saving(kit.name, call.args["content"], m);
          (Ok(s.0), s.1)
      else if !Binds(call.args, "query") then (Err("query_memory() got an unexpected keyword argument"), m)
      else (Ok(QueryReply(kit.name, Capped(NextHits(m.answers), QueryLimit))), m.(answers := Rest(m.answers)))
    case Remote =>
      (CallOutcome(m.incoming),
       m.(incoming := RestFrames(m.incoming), requests := m.requests + [MakeRequest("tools/call", CallParams(call.name, call.args))]))
    case Nowhere => (Ok(""), m)
  }

  /**
   * A call that reaches the server writes exactly its request and reads
   * exactly one line, and changes nothing in the store; any other call
   * leaves the server alone; a call with nowhere to go changes nothing
   * and yields ""; only arguments that do not bind, or a failed server
   * call, raise.
   */
  lemma RoutedSpec(kit: Kit, call: Call, m: Mem)
    ensures var d := Routed(kit, call, m);
            var route := RouteOf(call.name, kit.hasStore, kit.hasClient);
            && (route == Remote ==>
                  && d.0 == CallOutcome(m.incoming)
                  && d.1 == m.(incoming := RestFrames(m.incoming), requests := m.requests + [MakeRequest("tools/call", CallParams(call.name, call.args))]))
            && (route != Remote ==> d.1.incoming == m.incoming && d.1.requests == m.requests)
            && (route == Nowhere ==> d == (Ok(""), m))
            && (d.0.Err? <==>
                  || (route == Local && call.name == "save_memory" && !Binds(call.args, "content"))
                  || (route == Local && call.name == "query_memory" && !Binds(call.args, "query"))
                  || (route == Remote && CallOutcome(m.incoming).Err?))
  {
    if RouteOf(call.name, kit.hasStore, kit.hasClient) == Local && call.name == "save_memory" && Binds(call.args, "content") {
      SavingSpec(kit.name, call.args["content"], m);
    }
  }

  /**
   * The step after a call of `tool` that returned `result`: a reading
   * tool's text is saved to the collection (which needs the store) and
   * replaced by a note; any other result is kept as it is.
   */
  function Learn(kit: Kit, tool: string, result: string, m: Mem): Result<(string, Mem)>
  {
    if !Persists(tool) then Ok((result, m))
    else if !kit.hasStore then Err("'save_memory'")
    else Ok((PersistedNote, Saving(kit.name, result, m).1))
  }

  /** A round so far: the tool messages' contents, whether no call has raised, and the collaborators. */
  datatype Ran = Ran(results: seq<string>, ok: bool, mem: Mem)

  function Apply(kit: Kit, prev: Ran, call: Call): Ran
  {
    if !prev.ok then prev
    else
      var d := Routed(kit, call, prev.mem);
      match d.0
      case Err(_) => Ran(prev.results, false, d.1)
      case Ok(r) =>
        match Learn(kit, call.name, r, d.1)
        case Err(_) => Ran(prev.results, false, d.1)
        case Ok(l) => Ran(prev.results + [l.0], true, l.1)
  }

  /** `for tool in message["tool_calls"]`: the calls in order, stopping at the first that raises. */
  function Round(kit: Kit, calls: seq<Call>, m0: Mem): Ran
  {
    if calls == [] then Ran([], true, m0)
    else Apply(kit, Round(kit, calls[..|calls| - 1], m0), calls[|calls| - 1])
  }

  /** The tool message of a call that is not a reading tool is what the routed call returned. */
  lemma ApplyKeeps(kit: Kit, prev: Ran, call: Call)
    requires prev.ok && !Persists(call.name)
    ensures var d := Routed(kit, call, prev.mem);
            Apply(kit, prev, call) == (if d.0.Ok? then Ran(prev.results + [d.0.value], true, d.1) else Ran(prev.results, false, d.1))
  {
  }

  /**
   * A reading tool raises when the agent has no store; otherwise its tool
   * message is the note, and, with no add failing, the collection gains
   * the whole text it returned.
   */
  lemma ApplySaves(kit: Kit, prev: Ran, call: Call)
    requires prev.ok && Persists(call.name)
    ensures var d := Routed(kit, call, prev.mem);
            var a := Apply(kit, prev, call);
            && (!kit.hasStore ==> !a.ok)
            && (kit.hasStore && d.0.Ok? ==>
                  && a.ok && a.results == prev.results + [PersistedNote]
                  && a.mem.incoming == d.1.incoming && a.mem.requests == d.1.requests && a.mem.answers == d.1.answers
                  && (d.1.faults == [] ==> a.mem.added == d.1.added + Pieces(d.0.value) && Concat(Pieces(d.0.value)) == d.0.value))
  {
    var d := Routed(kit, call, prev.mem);
    if kit.hasStore && d.0.Ok? {
      SavingSpec(kit.name, d.0.value, d.1);
    }
  }

  /**
   * One more call either raises, keeping the tool messages so far, or adds
   * exactly one tool message with its shape; only a call routed to the
   * server adds a request, its own.
   */
  lemma ApplyStep(kit: Kit, prev: Ran, call: Call)
    requires prev.ok
    ensures var a := Apply(kit, prev, call);
            && (!a.ok ==> a.results == prev.results)
            && (a.ok ==>
                  && |a.results| == |prev.results| + 1 && a.results[..|prev.results|] == prev.results
                  && ResultShape(call.name, RouteOf(call.name, kit.hasStore, kit.hasClient), a.results[|prev.results|])
                  && a.mem.requests == prev.mem.requests
                       + (if RouteOf(call.name, kit.hasStore, kit.hasClient) == Remote then [MakeRequest("tools/call", CallParams(call.name, call.args))] else []))
  {
    var d := Routed(kit, call, prev.mem);
    RoutedSpec(kit, call, prev.mem);
    if d.0.Ok? && Persists(call.name) && kit.hasStore {
      SavingSpec(kit.name, d.0.value, d.1);
    }
    var a := Apply(kit, prev, call);
    if a.ok {
      assert a.results == prev.results + [a.results[|prev.results|]];
    }
  }

  /** A round leaves one tool message per call until the first that raises, and completes exactly when every call has one. */
  lemma {:induction false} RoundSpec(kit: Kit, calls: seq<Call>, m0: Mem)
    ensures var r := Round(kit, calls, m0);
            |r.results| <= |calls| && (r.ok <==> |r.results| == |calls|)
    decreases |calls|
  {
    if calls != [] {
      var n := |calls| - 1;
      RoundSpec(kit, calls[..n], m0);
      var prev := Round(kit, calls[..n], m0);
      if prev.ok {
        ApplyStep(kit, prev, calls[n]);
      }
    }
  }

  /** Every tool message of a round has its call's shape. */
  lemma {:induction false} RoundShape(kit: Kit, calls: seq<Call>, m0: Mem, k: nat)
    requires k < |Round(kit, calls, m0).results| && k < |calls|
    ensures ResultShape(calls[k].name, RouteOf(calls[k].name, kit.hasStore, kit.hasClient), Round(kit, calls, m0).results[k])
    decreases |calls|
  {
    var n := |calls| - 1;
    var prefix := calls[..n];
    RoundSpec(kit, prefix, m0);
    var prev := Round(kit, prefix, m0);
    var r := Round(kit, calls, m0);
    assert r == Apply(kit, prev, calls[n]);
    if prev.ok {
      ApplyStep(kit, prev, calls[n]);
    }
    if k < |prev.results| {
      RoundShape(kit, prefix, m0, k);
      assert calls[k] == prefix[k];
      assert r.results[k] == prev.results[k];
    }
  }

  /** When no call raises, exactly the calls routed to the server reach it, once each, in order. */
  lemma {:induction false} RoundRequests(kit: Kit, calls: seq<Call>, m0: Mem)
    requires kit.hasClient
    ensures var r := Round(kit, calls, m0);
            r.ok ==> r.mem.requests == m0.requests + RemoteRequests(calls, kit.hasStore)
    decreases |calls|
  {
    if calls != [] {
      var n := |calls| - 1;
      var prefix := calls[..n];
      RoundRequests(kit, prefix, m0);
      var prev := Round(kit, prefix, m0);
      if prev.ok {
        ApplyStep(kit, prev, calls[n]);
        if Round(kit, calls, m0).ok {
          RemoteRequestsStep(calls, n, kit.hasStore);
          assert calls[..n + 1] == calls;
          AppendAssoc(m0.requests, RemoteRequests(prefix, kit.hasStore),
            if RouteOf(calls[n].name, kit.hasStore, true) == Remote then [MakeRequest("tools/call", CallParams(calls[n].name, calls[n].args))] else []);
        }
      }
    }
  }

  /** The round over one more call is one more step. */
  lemma RoundSnoc(kit: Kit, calls: seq<Call>, i: nat, m0: Mem)
    requires i < |calls|
    ensures Round(kit, calls[..i + 1], m0) == Apply(kit, Round(kit, calls[..i], m0), calls[i])
  {
    assert calls[..i + 1][..i] == calls[..i];
  }

  /** A call's step does not depend on the tool messages before it. */
  lemma ApplyFrom(kit: Kit, prev: Ran, call: Call)
    requires prev.ok
    ensures var a := Apply(kit, Ran([], true, prev.mem), call);
            Apply(kit, prev, call) == Ran(prev.results + a.results, a.ok, a.mem)
  {
  }

  /** Once a prefix of the round has raised, the rest of the calls change nothing. */
  lemma {:induction false} RaisedStops(kit: Kit, calls: seq<Call>, i: nat, m0: Mem)
    requires i <= |calls| && !Round(kit, calls[..i], m0).ok
    ensures Round(kit, calls, m0) == Round(kit, calls[..i], m0)
    decreases |calls| - i
  {
    if i < |calls| {
      assert calls[..i + 1][..i] == calls[..i];
      RaisedStops(kit, calls, i + 1, m0);
    } else {
      assert calls[..i] == calls;
    }
  }

  /** How a turn ends: the reply, the history, the requests posted, and the collaborators. */
  datatype TurnEnd = TurnEnd(reply: string, history: seq<Message>, sent: seq<Request>, mem: Mem)

  /**
   * The turn once opened: the history is posted with the schema; a plain
   * answer is appended and returned; a tool request is appended, its calls
   * run, their tool messages are appended and, unless a call raised, one
   * follow-up with the schema gives the reply (tool calls in it are not
   * run). A failed post or a raising call yields "发生错误".
   */
  function Respond(kit: Kit, open: seq<Message>, schema: seq<ToolSpec>, script: seq<Reply>, m: Mem): TurnEnd
  {
    var req1 := Request(open, Some(schema), false);
    var first := NextReply(script);
    if !first.Answer? then TurnEnd(ErrorText, open, [req1], m)
    else if first.calls == [] then TurnEnd(first.content, open + [AssistantMessage(first.content)], [req1], m)
    else
      var round := Round(kit, first.calls, m);
      var asked := open + [Message(Assistant, first.content, first.calls)] + ToolMessages(round.results);
      if !round.ok then TurnEnd(ErrorText, asked, [req1], round.mem)
      else
        var req2 := Request(asked, Some(schema), false);
        var second := NextReply(RestReplies(script));
        if second.Answer? then TurnEnd(second.content, asked + [AssistantMessage(second.content)], [req1, req2], round.mem)
        else TurnEnd(ErrorText, asked, [req1, req2], round.mem)
  }

  /** `chat(user_input, history_context)`: the opening, then the rest of the turn. */
  function Turn(kit: Kit, h0: seq<Message>, context: Option<string>, input: string, schema: seq<ToolSpec>, script: seq<Reply>, m0: Mem): TurnEnd
  {
    Respond(kit, h0 + Opening(context, input, Memories(kit, m0.answers)), schema, script, AfterOpen(kit, m0))
  }

  /**
   * Every turn keeps the old history and its opening as a prefix, posts
   * that opening with the schema first and at most one more request, and
   * ends with the reply as the last message or with "发生错误".
   */
  lemma TurnOpens(kit: Kit, h0: seq<Message>, context: Option<string>, input: string, schema: seq<ToolSpec>, script: seq<Reply>, m0: Mem)
    ensures var t := Turn(kit, h0, context, input, schema, script, m0);
            var open := h0 + Opening(context, input, Memories(kit, m0.answers));
            && 1 <= |t.sent| <= 2 && t.sent[0] == Request(open, Some(schema), false)
            && |open| <= |t.history| && t.history[..|open|] == open
            && (t.reply == ErrorText || t.history[|t.history| - 1] == AssistantMessage(t.reply))
  {
    RespondOpens(kit, h0 + Opening(context, input, Memories(kit, m0.answers)), schema, script, AfterOpen(kit, m0));
  }

  /** The rest of a turn keeps its opening `open` as a prefix and posts it first. */
  lemma RespondOpens(kit: Kit, open: seq<Message>, schema: seq<ToolSpec>, script: seq<Reply>, m: Mem)
    ensures var t := Respond(kit, open, schema, script, m);
            && 1 <= |t.sent| <= 2 && t.sent[0] == Request(open, Some(schema), false)
            && |open| <= |t.history| && t.history[..|open|] == open
            && (t.reply == ErrorText || t.history[|t.history| - 1] == AssistantMessage(t.reply))
  {
    var first := NextReply(script);
    if first.Answer? && first.calls != [] {
      var round := Round(kit, first.calls, m);
      var asked := open + [Message(Assistant, first.content, first.calls)] + ToolMessages(round.results);
      PrefixOf(open, [Message(Assistant, first.content, first.calls)] + ToolMessages(round.results));
      assert asked == open + ([Message(Assistant, first.content, first.calls)] + ToolMessages(round.results));
      var second := NextReply(RestReplies(script));
      if round.ok && second.Answer? {
        PrefixOf(asked, [AssistantMessage(second.content)]);
        assert (asked + [AssistantMessage(second.content)])[..|open|] == asked[..|open|];
      }
    } else if first.Answer? {
      PrefixOf(open, [AssistantMessage(first.content)]);
    }
  }

  /** Only a tool request touches the store's add script or the server; the opening's retrieval is the only query otherwise. */
  lemma TurnWithoutTools(kit: Kit, h0: seq<Message>, context: Option<string>, input: string, schema: seq<ToolSpec>, script: seq<Reply>, m0: Mem)
    requires !(NextReply(script).Answer? && NextReply(script).calls != [])
    ensures var t := Turn(kit, h0, context, input, schema, script, m0);
            && |t.sent| == 1 && t.mem == AfterOpen(kit, m0)
            && (NextReply(script).Answer? ==> t.reply == NextReply(script).content)
            && (!NextReply(script).Answer? ==> t.reply == ErrorText && t.history == h0 + Opening(context, input, Memories(kit, m0.answers)))
  {
  }

  /** The requests and the outcome of a turn whose tool round completed. */
  lemma FollowUpSent(kit: Kit, h0: seq<Message>, context: Option<string>, input: string, schema: seq<ToolSpec>, script: seq<Reply>, m0: Mem)
    requires NextReply(script).Answer? && NextReply(script).calls != []
    requires Round(kit, NextReply(script).calls, AfterOpen(kit, m0)).ok
    ensures var t := Turn(kit, h0, context, input, schema, script, m0);
            var first := NextReply(script);
            var round := Round(kit, first.calls, AfterOpen(kit, m0));
            var open := h0 + Opening(context, input, Memories(kit, m0.answers));
            var second := NextReply(RestReplies(script));
            && t.sent == [Request(open, Some(schema), false),
                          Request(open + [Message(Assistant, first.content, first.calls)] + ToolMessages(round.results), Some(schema), false)]
            && t.mem == round.mem
            && t.reply == (if second.Answer? then second.content else ErrorText)
  {
  }

  /**
   * After a tool request whose calls all complete, the follow-up carries
   * the schema and the history with one tool message per call, in call
   * order, each the call's result, and the reply is the follow-up's answer.
   */
  lemma TurnFollowUp(kit: Kit, h0: seq<Message>, context: Option<string>, input: string, schema: seq<ToolSpec>, script: seq<Reply>, m0: Mem)
    requires NextReply(script).Answer? && NextReply(script).calls != []
    requires Round(kit, NextReply(script).calls, AfterOpen(kit, m0)).ok
    ensures var t := Turn(kit, h0, context, input, schema, script, m0);
            var first := NextReply(script);
            var round := Round(kit, first.calls, AfterOpen(kit, m0));
            var open := h0 + Opening(context, input, Memories(kit, m0.answers));
            var second := NextReply(RestReplies(script));
            && |t.sent| == 2 && t.sent[1].tools == Some(schema) && !t.sent[1].stream
            && |round.results| == |first.calls|
            && |t.sent[1].messages| == |open| + 1 + |first.calls|
            && t.sent[1].messages[|open|] == Message(Assistant, first.content, first.calls)
            && (forall k :: 0 <= k < |first.calls| ==>
                  && t.sent[1].messages[|open| + 1 + k] == ToolMessage(round.results[k])
                  && ResultShape(first.calls[k].name, RouteOf(first.calls[k].name, kit.hasStore, kit.hasClient), round.results[k]))
            && t.mem == round.mem
            && t.reply == (if second.Answer? then second.content else ErrorText)
  {
    var first := NextReply(script);
    var round := Round(kit, first.calls, AfterOpen(kit, m0));
    var open := h0 + Opening(context, input, Memories(kit, m0.answers));
    FollowUpSent(kit, h0, context, input, schema, script, m0);
    RoundSpec(kit, first.calls, AfterOpen(kit, m0));
    ToolMessagesAfter(open + [Message(Assistant, first.content, first.calls)], round.results);
    forall k | 0 <= k < |first.calls|
      ensures ResultShape(first.calls[k].name, RouteOf(first.calls[k].name, kit.hasStore, kit.hasClient), round.results[k])
    {
      RoundShape(kit, first.calls, AfterOpen(kit, m0), k);
    }
  }

  /** The tool messages follow `head`, one per result, in order. */
  lemma ToolMessagesAfter(head: seq<Message>, results: seq<string>)
    ensures |head + ToolMessages(results)| == |head| + |results|
    ensures forall k :: 0 <= k < |results| ==> (head + ToolMessages(results))[|head| + k] == ToolMessage(results[k])
  {
    ToolMessagesEach(results);
  }

  /** A call that raises ends the turn with "发生错误" before any follow-up, with fewer tool messages than calls. */
  lemma TurnRaises(kit: Kit, h0: seq<Message>, context: Option<string>, input: string, schema: seq<ToolSpec>, script: seq<Reply>, m0: Mem)
    requires NextReply(script).Answer? && NextReply(script).calls != []
    requires !Round(kit, NextReply(script).calls, AfterOpen(kit, m0)).ok
    ensures var t := Turn(kit, h0, context, input, schema, script, m0);
            var open := h0 + Opening(context, input, Memories(kit, m0.answers));
            && t.reply == ErrorText && |t.sent| == 1
            && |open| < |t.history| < |open| + 1 + |NextReply(script).calls|
  {
    var first := NextReply(script);
    var round := Round(kit, first.calls, AfterOpen(kit, m0));
    RoundSpec(kit, first.calls, AfterOpen(kit, m0));
    ToolMessagesEach(round.results);
  }

  /** `a + b` starts with `a`. */
  lemma PrefixOf<T>(a: seq<T>, b: seq<T>)
    ensures (a + b)[..|a|] == a
  {
  }

  class GenericAgent {
    const name: string
    const description: string
    const systemPrompt: string
    const collection: string
    const store: Store?
    const client: Client?
    const backend: Backend
    /** The tools advertised in every request. */
    const schema: seq<ToolSpec>
    var history: seq<Message>

    ghost predicate Valid()
      reads client
    {
      client != null ==> client.Valid()
    }

    function AsKit(): Kit
    {
      Kit(name, store != null, client != null)
    }

    function RouteFor(tool: string): Route
    {
      RouteOf(tool, store != null, client != null)
    }

    /** The collaborators as they stand, with nothing added or written yet. */
    ghost function Snapshot(): Mem
      reads store, client
    {
      Mem(if store != null then store.addFaults else [],
          if store != null then store.answers else [],
          if client != null then client.incoming else [], [], [])
    }

    /** The agent's collection (empty without a store). */
    ghost function Base(): seq<string>
      reads store
    {
      if store != null then Texts(store.stored, collection) else []
    }

    /** The requests written to the server (none without a client). */
    ghost function Sent(): seq<Json>
      reads client
    {
      if client != null then client.written else []
    }

    /** The collaborators are where `m` says, relative to the collection `base` and the requests `sent` before the turn. */
    ghost predicate Matches(m: Mem, base: seq<string>, sent: seq<Json>)
      reads store, client
    {
      && (store != null ==>
            store.addFaults == m.faults && store.answers == m.answers && Texts(store.stored, collection) == base + m.added)
      && (client != null ==> client.incoming == m.incoming && client.written == sent + m.requests)
    }

    constructor (name: string, description: string, systemPrompt: string, collection: string,
                 store: Store?, client: Client?, backend: Backend, remote: seq<ToolSpec>)
      ensures this.name == name && this.description == description && this.systemPrompt == systemPrompt
      ensures this.collection == collection && this.store == store && this.client == client && this.backend == backend
      ensures schema == (if store != null then MemorySchema(name) else []) + remote
      ensures history == [SystemMessage(systemPrompt)]
    {
      this.name := name;
      this.description := description;
      this.systemPrompt := systemPrompt;
      this.collection := collection;
      this.store := store;
      this.client := client;
      this.backend := backend;
      this.schema := (if store != null then MemorySchema(name) else []) + remote;
      history := [SystemMessage(systemPrompt)];
    }

    /**
     * `GenericAgent(...)`: the memory tools when there is a store, then the
     * allowed server tools when there is a client and a non-empty allow list.
     * Converting the server's descriptors can raise, and then so does this.
     */
    static method Create(name: string, description: string, systemPrompt: string, collection: string,
                         allowed: seq<string>, client: Client?, store: Store?, backend: Backend)
      returns (r: Result<GenericAgent>)
      ensures r.Err? <==> client != null && allowed != [] && client.InferenceTools().Err?
      ensures r.Ok? ==> fresh(r.value)
      ensures r.Ok? ==> r.value.name == name && r.value.collection == collection && r.value.systemPrompt == systemPrompt
      ensures r.Ok? ==> r.value.store == store && r.value.client == client && r.value.backend == backend
      ensures r.Ok? ==> r.value.history == [SystemMessage(systemPrompt)]
      ensures r.Ok? ==> r.value.schema == (if store != null then MemorySchema(name) else [])
                                         + (if client != null && allowed != [] then Allow(client.InferenceTools().value, allowed) else [])
    {
      var remote: seq<ToolSpec> := [];
      if client != null && allowed != [] {
        var all := client.InferenceTools();
        if all.Err? {
          return Err(all.msg);
        }
        remote := Allow(all.value, allowed);
      }
      var agent := new GenericAgent(name, description, systemPrompt, collection, store, client, backend, remote);
      r := Ok(agent);
    }

    /**
     * `save_memory(content)`: adds the pieces of `content` to the agent's
     * collection in order; an add that raises stops it, keeps what was
     * added, and becomes the reply.
     */
    method SaveMemory(content: string, ghost m: Mem, ghost base: seq<string>, ghost sent: seq<Json>) returns (msg: string)
      requires store != null && Matches(m, base, sent)
      modifies store
      ensures var s := Saving(name, content, m);
              msg == s.0 && Matches(s.1, base, sent)
      ensures OnlyTouched(old(store.stored), store.stored, collection)
    {
      var added, err := AddAll(store, collection, Pieces(content));
      AppendAssoc(base, m.added, Pieces(content)[..added]);
      msg := SaveReply(name, content, err);
    }

    /** `query_memory(query)`: the store's top five texts as a bulleted list, the sentinel, or the exception. */
    method QueryMemory(query: string) returns (msg: string)
      requires store != null
      modifies store
      ensures msg == QueryReply(name, Capped(NextHits(old(store.answers)), QueryLimit))
      ensures store.stored == old(store.stored) && store.addFaults == old(store.addFaults)
      ensures store.answers == Rest(old(store.answers))
    {
      var hits := store.Query(query, QueryLimit, collection);
      msg := QueryReply(name, hits);
    }

    /** One requested call routed, as Routed says. */
    method Invoke(call: Call, ghost m: Mem, ghost base: seq<string>, ghost sent: seq<Json>) returns (r: Result<string>)
      requires Valid() && Matches(m, base, sent)
      modifies store, client
      ensures Valid() && (client != null ==> client.toolsMap == old(client.toolsMap))
      ensures var d := Routed(AsKit(), call, m);
              r == d.0 && Matches(d.1, base, sent)
      ensures store != null ==> OnlyTouched(old(store.stored), store.stored, collection)
    {
      var route := RouteFor(call.name);
      if route == Local {
        if call.name == "save_memory" {
          if !Binds(call.args, "content") {
            return Err("save_memory() got an unexpected keyword argument");
          }
          var msg := SaveMemory(call.args["content"], m, base, sent);
          r := Ok(msg);
        } else {
          if !Binds(call.args, "query") {
            return Err("query_memory() got an unexpected keyword argument");
          }
          var msg := QueryMemory(call.args["query"]);
          r := Ok(msg);
        }
      } else if route == Remote {
        r := client.CallTool(call.name, call.args);
        AppendAssoc(sent, m.requests, [MakeRequest("tools/call", CallParams(call.name, call.args))]);
      } else {
        r := Ok("");
      }
    }

    /** One call as the turn runs it: routed, then a reading tool's text saved and replaced by the note. */
    method RunCall(call: Call, ghost m: Mem, ghost base: seq<string>, ghost sent: seq<Json>) returns (r: Result<string>, ghost after: Ran)
      requires Valid() && Matches(m, base, sent)
      modifies store, client
      ensures Valid() && (client != null ==> client.toolsMap == old(client.toolsMap))
      ensures after == Apply(AsKit(), Ran([], true, m), call)
      ensures r.Ok? <==> after.ok
      ensures r.Ok? ==> after.results == [r.value]
      ensures Matches(after.mem, base, sent)
      ensures store != null ==> OnlyTouched(old(store.stored), store.stored, collection)
    {
      ghost var d := Routed(AsKit(), call, m);
      after := Apply(AsKit(), Ran([], true, m), call);
      r := Invoke(call, m, base, sent);
      if r.Err? || !Persists(call.name) {
        return;
      }
      if store == null {
        return Err("'save_memory'"), after;
      }
      var note := SaveMemory(r.value, d.1, base, sent);
      r := Ok(PersistedNote);
    }

    /** The tool round: the calls in order, stopping at the first that raises. */
    method RunCalls(calls: seq<Call>, ghost m0: Mem, ghost base: seq<string>, ghost sent: seq<Json>) returns (ok: bool, results: seq<string>)
      requires Valid() && Matches(m0, base, sent)
      modifies store, client
      ensures Valid() && (client != null ==> client.toolsMap == old(client.toolsMap))
      ensures var r := Round(AsKit(), calls, m0);
              results == r.results && ok == r.ok && Matches(r.mem, base, sent)
      ensures store != null ==> OnlyTouched(old(store.stored), store.stored, collection)
    {
      results := [];
      var i := 0;
      while i < |calls|
        invariant 0 <= i <= |calls|
        invariant Valid() && (client != null ==> client.toolsMap == old(client.toolsMap))
        invariant Round(AsKit(), calls[..i], m0).ok && Round(AsKit(), calls[..i], m0).results == results
        invariant Matches(Round(AsKit(), calls[..i], m0).mem, base, sent)
        invariant store != null ==> OnlyTouched(old(store.stored), store.stored, collection)
      {
        ghost var prev := Round(AsKit(), calls[..i], m0);
        var r, after := RunCall(calls[i], prev.mem, base, sent);
        ApplyFrom(AsKit(), prev, calls[i]);
        RoundSnoc(AsKit(), calls, i, m0);
        if r.Err? {
          ok := false;
          RaisedStops(AsKit(), calls, i + 1, m0);
          return;
        }
        results := results + [r.value];
        i := i + 1;
      }
      assert calls[..i] == calls;
      ok := true;
    }

    /** The opening of a turn: the task context, the user input, and the retrieved knowledge when it is injected. */
    method Open(input: string, context: Option<string>, ghost m: Mem, ghost base: seq<string>, ghost sent: seq<Json>)
      requires Matches(m, base, sent)
      modifies this, store
      ensures history == old(history) + Opening(context, input, Memories(AsKit(), m.answers))
      ensures Matches(AfterOpen(AsKit(), m), base, sent)
      ensures store != null ==> store.stored == old(store.stored)
    {
      ghost var memories := Memories(AsKit(), m.answers);
      ghost var lead := if context.Some? && context.value != "" then [SystemMessage(ContextNote(context.value))] else [];
      ghost var tail := if memories.Some? && Injects(memories.value) then [SystemMessage(Background(memories.value))] else [];
      assert Opening(context, input, memories) == lead + [UserMessage(input)] + tail;
      if context.Some? && context.value != "" {
        history := history + [SystemMessage(ContextNote(context.value))];
      }
      history := history + [UserMessage(input)];
      assert history == old(history) + lead + [UserMessage(input)];
      if store != null {
        var found := QueryMemory(input);
        if Injects(found) {
          history := history + [SystemMessage(Background(found))];
        }
      }
      assert history == old(history) + lead + [UserMessage(input)] + tail;
    }

    /** The turn after the opening, as Respond says. */
    method Answer(ghost m: Mem, ghost base: seq<string>, ghost sent: seq<Json>) returns (reply: string)
      requires Valid() && Matches(m, base, sent)
      modifies this, backend, store, client
      ensures Valid() && (client != null ==> client.toolsMap == old(client.toolsMap))
      ensures var t := Respond(AsKit(), old(history), schema, old(backend.script), m);
              && reply == t.reply && history == t.history
              && backend.sent == old(backend.sent) + t.sent
              && backend.script == Skip(old(backend.script), |t.sent|)
              && Matches(t.mem, base, sent)
      ensures store != null ==> OnlyTouched(old(store.stored), store.stored, collection)
    {
      SkipPosts(backend.script);
      var first := backend.Post(Request(history, Some(schema), false));
      if !first.Answer? {
        return ErrorText;
      }
      if first.calls == [] {
        history := history + [AssistantMessage(first.content)];
        return first.content;
      }
      history := history + [Message(Assistant, first.content, first.calls)];
      var ok, results := RunCalls(first.calls, m, base, sent);
      history := history + ToolMessages(results);
      if !ok {
        return ErrorText;
      }
      var second := backend.Post(Request(history, Some(schema), false));
      if second.Answer? {
        history := history + [AssistantMessage(second.content)];
        reply := second.content;
      } else {
        reply := ErrorText;
      }
    }

    /**
     * `chat(user_input, history_context)`, as Turn says: open the turn, then
     * answer it. Any exception yields "发生错误" and leaves what was appended
     * so far.
     */
    method Chat(input: string, context: Option<string>) returns (reply: string)
      requires Valid()
      modifies this, backend, store, client
      ensures Valid() && (client != null ==> client.toolsMap == old(client.toolsMap))
      ensures var t := Turn(AsKit(), old(history), context, input, schema, old(backend.script), old(Snapshot()));
              && reply == t.reply && history == t.history
              && backend.sent == old(backend.sent) + t.sent
              && backend.script == Skip(old(backend.script), |t.sent|)
              && Matches(t.mem, old(Base()), old(Sent()))
      ensures store != null ==> OnlyTouched(old(store.stored), store.stored, collection)
    {
      ghost var m0 := Snapshot();
      Open(input, context, m0, Base(), Sent());
      assert backend.script == old(backend.script) && m0 == old(Snapshot());
      assert Turn(AsKit(), old(history), context, input, schema, old(backend.script), m0)
          == Respond(AsKit(), history, schema, backend.script, AfterOpen(AsKit(), m0));
      reply := Answer(AfterOpen(AsKit(), m0), old(Base()), old(Sent()));
    }
  }
}
