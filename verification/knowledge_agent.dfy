/**
 * The v7 knowledge agent: the v6 memory tools (the save tool now slices long
 * content into 500-character pieces), the document tools of a tool server
 * reached over the JSON-RPC client, a keyword heuristic that injects a
 * retrieval, and the auto-learning step: the text a reading tool returns is
 * saved to memory and replaced by a note, unless it looks like a short
 * error message.
 */
module V7Knowledge {
  import opened Wrappers
  import opened Text
  import opened JsonModel
  import opened Conversation
  import opened Memory
  import Skills
  import Agent
  import Rpc
  import V6Rag

  const SystemPrompt := "你是一个全能知识助手。\n你拥有两项核心能力：\n1. **通过 MCP 读取文档**：使用 `read_document` 工具读取用户指定的 PDF/Word 文件。\n2. **通过 RAG 存储知识**：使用 `save_to_long_term_memory` 将读取到的内容存入数据库。\n\n**学习模式指令**：\n当用户让你“学习”某个文件时，你必须执行以下两步操作（可以分步执行）：\n1. 先调用 `read_document` 读取文件内容。\n2. 拿到内容后，立即调用 `save_to_long_term_memory` 将其存入数据库。\n\n**问答模式指令**：\n当用户提问时，优先调用 `query_long_term_memory` 检索相关知识。\n"

  /** `local_tools`: the two memory tools and their parameters. */
  const LocalSigs: map<string, Skills.Signature> := map[
    V6Rag.SaveTool := Skills.Signature({"content"}, {}),
    V6Rag.QueryTool := Skills.Signature({"query"}, {})
  ]

  /** The local part of `tools_schema`; the tool server's tools follow it. */
  const LocalTools: seq<ToolSpec> := [
    ToolSpec(V6Rag.SaveTool, Str("用于保存重要信息或学习到的文档内容到数据库。"),
      Skills.ObjectSchema(map["content" := Skills.StringProp(None)], ["content"])),
    ToolSpec(V6Rag.QueryTool, Str("用于检索数据库中的知识。"),
      Skills.ObjectSchema(map["query" := Skills.StringProp(None)], ["query"]))
  ]

  /** The local descriptors are exactly the local tools, each with its parameters. */
  lemma LocalSchemaMatches()
    ensures (set t | t in LocalTools :: t.name) == LocalSigs.Keys
    ensures forall t :: t in LocalTools ==> t.name in LocalSigs && Skills.Describes(t, LocalSigs[t.name])
  {
    Skills.SchemaDescribes(LocalTools[0].name, LocalTools[0].description, map["content" := Skills.StringProp(None)], ["content"], Skills.Signature({"content"}, {}));
    Skills.SchemaDescribes(LocalTools[1].name, LocalTools[1].description, map["query" := Skills.StringProp(None)], ["query"], Skills.Signature({"query"}, {}));
  }

  /** `save_to_long_term_memory`'s reply: how many pieces a long content became, the short confirmation, or the failure. */
  function SaveReply(content: string, err: Option<string>): string
  {
    match err
    case Some(e) => "存储失败: " + e
    case None =>
      if |content| > ChunkSize then "文档过长，已切分为 " + NatToString(|Agent.Pieces(content)|) + " 个片段并存入长期记忆。"
      else "已成功将信息存入长期记忆库。"
  }

  /** One save: the reply, the texts added (a prefix of the pieces), and what is left of the add script. */
  datatype Saved = Saved(reply: string, added: seq<string>, left: seq<Option<string>>)

  function Saving(content: string, faults: seq<Option<string>>): Saved
  {
    var pieces := Agent.Pieces(content);
    var run := AddRun(faults, |pieces|);
    Saved(SaveReply(content, run.1), pieces[..run.0], Drop(faults, AddsTaken(faults, |pieces|)))
  }

  /**
   * With no add failing, the whole content is stored, in pieces of at most
   * 500 characters that concatenate back to it; an add that fails at once
   * stores nothing and its exception is the reply.
   */
  lemma SavingStoresWhole(content: string, faults: seq<Option<string>>)
    ensures faults == [] ==>
              var s := Saving(content, faults);
              && s.added == Agent.Pieces(content) && Concat(s.added) == content
              && (forall k :: 0 <= k < |s.added| ==> |s.added[k]| <= ChunkSize)
              && s.reply == SaveReply(content, None)
    ensures NextFault(faults).Some? ==> Saving(content, faults) == Saved("存储失败: " + NextFault(faults).value, [], Rest(faults))
  {
    var pieces := Agent.Pieces(content);
    assert pieces[..|pieces|] == pieces;
    if NextFault(faults).Some? {
      assert |pieces| > 0;
      assert AddRun(faults, |pieces|) == (0, NextFault(faults));
      assert AddsTaken(faults, |pieces|) == 1;
      assert Drop(faults, 1) == Rest(faults);
    }
  }

  /** The confirmation for a long content counts its pieces: one per started 500 characters. */
  lemma LongSaveCounts(content: string)
    requires |content| > ChunkSize
    ensures SaveReply(content, None) == "文档过长，已切分为 " + NatToString((|content| + ChunkSize - 1) / ChunkSize) + " 个片段并存入长期记忆。"
  {
  }

  /** The phrases that make the agent consult the knowledge base before asking the model. */
  const Triggers := ["怎么", "如何", "是什么"]

  predicate AsksHow(input: string)
  {
    exists k :: 0 <= k < |Triggers| && Contains(input, Triggers[k])
  }

  function Reference(memories: string): string
  {
    "相关知识库内容参考:\n" + memories
  }

  /** The note that replaces a reading tool's text once it has been saved. */
  const Learned := "读取成功，并已自动存入知识库。\n存储结果: "

  /** A reading tool's text that is taken for a failed read and not saved. */
  predicate LooksFailed(result: string)
  {
    |result| < 100 && Contains(result, "错误")
  }

  /**
   * What the round has done to its collaborators so far: what is left of the
   * store's scripts and of the tool server's output, the texts added to the
   * collection and the requests written to the server, in order.
   */
  datatype Mem = Mem(faults: seq<Option<string>>, answers: seq<Hits>, incoming: seq<Frame>, added: seq<string>, requests: seq<Json>)

  /** One call routed: a local tool (whose arguments must bind), a tool the server listed, or nothing (""). */
  function Dispatch(call: Call, names: seq<string>, m: Mem): (Result<string>, Mem)
  {
    if call.name in LocalSigs then
      if !Skills.Accepts(LocalSigs[call.name], call.args) then (Err("unexpected keyword argument"), m)
      else if call.name == V6Rag.SaveTool then
        var s := Saving(call.args["content"], m.faults);
        (Ok(s.reply), m.(faults := s.left, added := m.added + s.added))
      else
        (Ok(V6Rag.QueryReply(Capped(NextHits(m.answers), V6Rag.QueryLimit))), m.(answers := Rest(m.answers)))
    else if call.name in names then
      (Rpc.CallOutcome(m.incoming),
       m.(incoming := RestFrames(m.incoming), requests := m.requests + [Rpc.MakeRequest("tools/call", Rpc.CallParams(call.name, call.args))]))
    else (Ok(""), m)
  }

  /** The auto-learning step after a call of `tool` that returned `result`. */
  function Learn(tool: string, result: string, m: Mem): (string, Mem)
  {
    if !Agent.Persists(tool) || LooksFailed(result) then (result, m)
    else
      var s := Saving(result, m.faults);
      (Learned + s.reply, m.(faults := s.left, added := m.added + s.added))
  }

  /**
   * Only a reading tool's text is saved, and one that looks like a failed
   * read is kept as it is; otherwise, with no add failing, the collection
   * gains the whole text and the tool message is the note.
   */
  lemma LearnSpec(tool: string, result: string, m: Mem)
    ensures !Agent.Persists(tool) || LooksFailed(result) ==> Learn(tool, result, m) == (result, m)
    ensures Agent.Persists(tool) && !LooksFailed(result) ==>
              var l := Learn(tool, result, m);
              && StartsWith(l.0, Learned)
              && l.1.incoming == m.incoming && l.1.requests == m.requests && l.1.answers == m.answers
              && (m.faults == [] ==> l.1.added == m.added + Agent.Pieces(result) && Concat(Agent.Pieces(result)) == result)
  {
    if Agent.Persists(tool) && !LooksFailed(result) {
      SavingStoresWhole(result, m.faults);
      var l := Learn(tool, result, m);
      assert l.0[..|Learned|] == Learned;
    }
  }

  /** A round so far: the tool messages' contents, whether no call has raised, and the collaborators' state. */
  datatype Ran = Ran(results: seq<string>, ok: bool, mem: Mem)

  function Apply(prev: Ran, call: Call, names: seq<string>): Ran
  {
    if !prev.ok then prev
    else
      var d := Dispatch(call, names, prev.mem);
      match d.0
      case Err(_) => Ran(prev.results, false, d.1)
      case Ok(r) =>
        var l := Learn(call.name, r, d.1);
        Ran(prev.results + [l.0], true, l.1)
  }

  function Round(calls: seq<Call>, names: seq<string>, m0: Mem): Ran
  {
    if calls == [] then Ran([], true, m0)
    else Apply(Round(calls[..|calls| - 1], names, m0), calls[|calls| - 1], names)
  }

  /** The `tools/call` requests of the calls that reach the server, in order. */
  function RemoteRequests(calls: seq<Call>, names: seq<string>): seq<Json>
  {
    if calls == [] then []
    else
      var c := calls[|calls| - 1];
      RemoteRequests(calls[..|calls| - 1], names)
      + if c.name !in LocalSigs && c.name in names then [Rpc.MakeRequest("tools/call", Rpc.CallParams(c.name, c.args))] else []
  }

  /**
   * Every call of a completed round leaves one tool message (an unknown
   * name leaves ""), and exactly the calls of server tools that are not
   * local reach the server, once each, in order.
   */
  lemma {:induction false} RoundSpec(calls: seq<Call>, names: seq<string>, m0: Mem)
    ensures var r := Round(calls, names, m0);
            && |r.results| <= |calls|
            && (r.ok ==> |r.results| == |calls| && r.mem.requests == m0.requests + RemoteRequests(calls, names))
    decreases |calls|
  {
    if calls != [] {
      RoundSpec(calls[..|calls| - 1], names, m0);
    }
  }

  /** A call that is neither local nor listed by the server, nor a reading tool, leaves an empty tool message and touches nothing. */
  lemma UnknownCall(prev: Ran, call: Call, names: seq<string>)
    requires prev.ok && call.name !in LocalSigs && call.name !in names && !Agent.Persists(call.name)
    ensures Apply(prev, call, names) == Ran(prev.results + [""], true, prev.mem)
  {
  }

  /** The user message, then the retrieval when the input asks how or what. */
  function Opened(h0: seq<Message>, input: string, answers: seq<Hits>): seq<Message>
  {
    h0 + [UserMessage(input)]
    + if AsksHow(input) then [SystemMessage(Reference(V6Rag.QueryReply(Capped(NextHits(answers), V6Rag.QueryLimit))))] else []
  }

  datatype TurnEnd = TurnEnd(history: seq<Message>, sent: seq<Request>, mem: Mem)

  /**
   * `chat(user_input)`: open the turn, post it with the schema; a plain
   * reply is appended as it came; a tool request is appended, every call
   * runs and leaves a tool message, and unless a call raised one streamed
   * follow-up with the schema gives the final reply.
   */
  function Turn(h0: seq<Message>, input: string, schema: seq<ToolSpec>, names: seq<string>, script: seq<Reply>, m0: Mem): TurnEnd
  {
    Respond(Opened(h0, input, m0.answers), schema, names, script, m0.(answers := if AsksHow(input) then Rest(m0.answers) else m0.answers))
  }

  function Respond(open: seq<Message>, schema: seq<ToolSpec>, names: seq<string>, script: seq<Reply>, m: Mem): TurnEnd
  {
    var req1 := Request(open, Some(schema), false);
    var first := NextReply(script);
    if !first.Answer? then TurnEnd(open, [req1], m)
    else if first.calls == [] then TurnEnd(open + [AssistantMessage(first.content)], [req1], m)
    else
      var round := Round(first.calls, names, m);
      var asked := open + [Message(Assistant, first.content, first.calls)] + Agent.ToolMessages(round.results);
      if !round.ok then TurnEnd(asked, [req1], round.mem)
      else
        var req2 := Request(asked, Some(schema), true);
        var second := NextReply(RestReplies(script));
        TurnEnd(if second.Chunks? then asked + [AssistantMessage(Concat(second.pieces))] else asked, [req1, req2], round.mem)
  }

  /** A how/what question gets the retrieval injected right after it; any other reaches the model alone. */
  lemma TurnConsults(h0: seq<Message>, input: string, schema: seq<ToolSpec>, names: seq<string>, script: seq<Reply>, m0: Mem)
    ensures var t := Turn(h0, input, schema, names, script, m0);
            && t.sent[0] == Request(Opened(h0, input, m0.answers), Some(schema), false)
            && t.history[..|Opened(h0, input, m0.answers)|] == Opened(h0, input, m0.answers)
    ensures AsksHow(input) ==>
              var m := V6Rag.QueryReply(Capped(NextHits(m0.answers), V6Rag.QueryLimit));
              Opened(h0, input, m0.answers) == h0 + [UserMessage(input), SystemMessage(Reference(m))] && Contains(Reference(m), m)
    ensures !AsksHow(input) ==> Opened(h0, input, m0.answers) == h0 + [UserMessage(input)]
  {
    if AsksHow(input) {
      var m := V6Rag.QueryReply(Capped(NextHits(m0.answers), V6Rag.QueryLimit));
      ContainsMiddle("相关知识库内容参考:\n", m, "");
      assert "相关知识库内容参考:\n" + m + "" == Reference(m);
    }
  }

  /** After a completed round, every call has its tool message and the streamed follow-up keeps the schema. */
  lemma TurnFollowUp(h0: seq<Message>, input: string, schema: seq<ToolSpec>, names: seq<string>, script: seq<Reply>, m0: Mem)
    requires NextReply(script).Answer? && NextReply(script).calls != []
    requires Round(NextReply(script).calls, names, m0.(answers := if AsksHow(input) then Rest(m0.answers) else m0.answers)).ok
    ensures var t := Turn(h0, input, schema, names, script, m0);
            var first := NextReply(script);
            var open := Opened(h0, input, m0.answers);
            && |t.sent| == 2 && t.sent[1].tools == Some(schema) && t.sent[1].stream
            && |t.sent[1].messages| == |open| + 1 + |first.calls|
  {
    var first := NextReply(script);
    var m := m0.(answers := if AsksHow(input) then Rest(m0.answers) else m0.answers);
    RoundSpec(first.calls, names, m);
    Agent.ToolMessagesEach(Round(first.calls, names, m).results);
  }

  class KnowledgeAgent {
    const backend: Backend
    const store: Store
    const client: Rpc.Client
    /** `tools_schema`: the local tools, then the tool server's. */
    const schema: seq<ToolSpec>
    var history: seq<Message>

    ghost predicate Valid()
      reads client
    {
      client.Valid()
    }

    /** The collaborators are where `m` says, relative to the collection `base` and the requests `sent` before the turn. */
    ghost predicate Matches(m: Mem, base: seq<string>, sent: seq<Json>)
      reads store, client
    {
      && store.addFaults == m.faults && store.answers == m.answers && client.incoming == m.incoming
      && Texts(store.stored, V6Rag.Collection) == base + m.added
      && client.written == sent + m.requests
    }

    constructor (backend: Backend, store: Store, client: Rpc.Client, remote: seq<ToolSpec>)
      ensures this.backend == backend && this.store == store && this.client == client
      ensures schema == LocalTools + remote
      ensures history == [SystemMessage(SystemPrompt)]
    {
      this.backend := backend;
      this.store := store;
      this.client := client;
      schema := LocalTools + remote;
      history := [SystemMessage(SystemPrompt)];
    }

    /** `KnowledgeAgent()` once the client has started: converting the server's descriptors can raise, and then so does this. */
    static method Create(backend: Backend, store: Store, client: Rpc.Client) returns (r: Result<KnowledgeAgent>)
      ensures r.Err? <==> client.InferenceTools().Err?
      ensures r.Ok? ==> fresh(r.value) && r.value.backend == backend && r.value.store == store && r.value.client == client
      ensures r.Ok? ==> r.value.schema == LocalTools + client.InferenceTools().value
      ensures r.Ok? ==> r.value.history == [SystemMessage(SystemPrompt)]
    {
      var remote := client.InferenceTools();
      if remote.Err? {
        return Err(remote.msg);
      }
      var agent := new KnowledgeAgent(backend, store, client, remote.value);
      r := Ok(agent);
    }

    /** `save_to_long_term_memory(content)`: the pieces added in order; the first add that raises stops it and becomes the reply. */
    method Save(content: string) returns (msg: string, ghost s: Saved)
      modifies store
      ensures s == Saving(content, old(store.addFaults)) && msg == s.reply
      ensures store.addFaults == s.left && store.answers == old(store.answers)
      ensures Texts(store.stored, V6Rag.Collection) == Texts(old(store.stored), V6Rag.Collection) + s.added
      ensures OnlyTouched(old(store.stored), store.stored, V6Rag.Collection)
    {
      s := Saving(content, store.addFaults);
      var added, err := AddAll(store, V6Rag.Collection, Agent.Pieces(content));
      msg := SaveReply(content, err);
    }

    /** One call routed, as Dispatch says. */
    method Invoke(call: Call, ghost m: Mem, ghost base: seq<string>, ghost sent: seq<Json>) returns (r: Result<string>)
      requires Valid() && Matches(m, base, sent)
      modifies store, client
      ensures Valid() && client.toolsMap == old(client.toolsMap)
      ensures var d := Dispatch(call, Rpc.Names(old(client.toolsMap)), m);
              r == d.0 && Matches(d.1, base, sent)
      ensures OnlyTouched(old(store.stored), store.stored, V6Rag.Collection)
    {
      var names := Rpc.Names(client.toolsMap);
      if call.name in LocalSigs {
        if !Skills.Accepts(LocalSigs[call.name], call.args) {
          return Err("unexpected keyword argument");
        }
        if call.name == V6Rag.SaveTool {
          ghost var s;
          var msg;
          msg, s := Save(call.args["content"]);
          AppendAssoc(base, m.added, s.added);
          r := Ok(msg);
        } else {
          var hits := store.Query(call.args["query"], V6Rag.QueryLimit, V6Rag.Collection);
          r := Ok(V6Rag.QueryReply(hits));
        }
      } else if call.name in names {
        r := client.CallTool(call.name, call.args);
        AppendAssoc(sent, m.requests, [Rpc.MakeRequest("tools/call", Rpc.CallParams(call.name, call.args))]);
      } else {
        r := Ok("");
      }
    }

    /** One call as the round runs it: routed, then the auto-learning step. */
    method RunCall(call: Call, ghost m: Mem, ghost base: seq<string>, ghost sent: seq<Json>) returns (r: Result<string>, ghost after: Ran)
      requires Valid() && Matches(m, base, sent)
      modifies store, client
      ensures Valid() && client.toolsMap == old(client.toolsMap)
      ensures after == Apply(Ran([], true, m), call, Rpc.Names(old(client.toolsMap)))
      ensures r.Ok? <==> after.ok
      ensures r.Ok? ==> after.results == [r.value]
      ensures Matches(after.mem, base, sent)
      ensures OnlyTouched(old(store.stored), store.stored, V6Rag.Collection)
    {
      ghost var d := Dispatch(call, Rpc.Names(client.toolsMap), m);
      after := Apply(Ran([], true, m), call, Rpc.Names(client.toolsMap));
      r := Invoke(call, m, base, sent);
      if r.Err? || !Agent.Persists(call.name) || LooksFailed(r.value) {
        return;
      }
      ghost var s;
      var note;
      note, s := Save(r.value);
      AppendAssoc(base, d.1.added, s.added);
      r := Ok(Learned + note);
    }

    /** `for tool in message["tool_calls"]` */
    method RunTools(calls: seq<Call>, ghost m0: Mem, ghost base: seq<string>, ghost sent: seq<Json>) returns (results: seq<string>, ok: bool)
      requires Valid() && Matches(m0, base, sent)
      modifies store, client
      ensures Valid() && client.toolsMap == old(client.toolsMap)
      ensures var r := Round(calls, Rpc.Names(old(client.toolsMap)), m0);
              results == r.results && ok == r.ok && Matches(r.mem, base, sent)
      ensures OnlyTouched(old(store.stored), store.stored, V6Rag.Collection)
    {
      var names := Rpc.Names(client.toolsMap);
      results := [];
      var i := 0;
      while i < |calls|
        invariant 0 <= i <= |calls|
        invariant Valid() && client.toolsMap == old(client.toolsMap)
        invariant var r := Round(calls[..i], names, m0);
                  r.ok && r.results == results && Matches(r.mem, base, sent)
        invariant OnlyTouched(old(store.stored), store.stored, V6Rag.Collection)
      {
        assert calls[..i + 1][..i] == calls[..i];
        ghost var prev := Round(calls[..i], names, m0);
        var r, after := RunCall(calls[i], prev.mem, base, sent);
        if r.Err? {
          ok := false;
          RaisedStops(calls, i + 1, names, m0);
          return;
        }
        results := results + [r.value];
        i := i + 1;
      }
      assert calls[..i] == calls;
      ok := true;
    }

    /** The opening: the user message, and the retrieval when the input asks how or what. */
    method Open(input: string)
      modifies this, store
      ensures history == Opened(old(history), input, old(store.answers))
      ensures store.answers == if AsksHow(input) then Rest(old(store.answers)) else old(store.answers)
      ensures store.stored == old(store.stored) && store.addFaults == old(store.addFaults)
    {
      history := history + [UserMessage(input)];
      if AsksHow(input) {
        var hits := store.Query(input, V6Rag.QueryLimit, V6Rag.Collection);
        history := history + [SystemMessage(Reference(V6Rag.QueryReply(hits)))];
      }
    }

    /** The turn after the opening: the first request, the tool round, the streamed follow-up. */
    method Answer(ghost m: Mem, ghost base: seq<string>, ghost sent: seq<Json>)
      requires Valid() && Matches(m, base, sent)
      modifies this, backend, store, client
      ensures Valid() && client.toolsMap == old(client.toolsMap)
      ensures var t := Respond(old(history), schema, Rpc.Names(old(client.toolsMap)), old(backend.script), m);
              && history == t.history
              && backend.sent == old(backend.sent) + t.sent
              && backend.script == (if |t.sent| == 1 then RestReplies(old(backend.script)) else RestReplies(RestReplies(old(backend.script))))
              && Matches(t.mem, base, sent)
      ensures OnlyTouched(old(store.stored), store.stored, V6Rag.Collection)
    {
      var first := backend.Post(Request(history, Some(schema), false));
      if !first.Answer? {
        return;
      }
      if first.calls == [] {
        history := history + [AssistantMessage(first.content)];
        return;
      }
      history := history + [Message(Assistant, first.content, first.calls)];
      var results, ok := RunTools(first.calls, m, base, sent);
      history := history + Agent.ToolMessages(results);
      if !ok {
        return;
      }
      var full := PostStreamed(backend, Request(history, Some(schema), true));
      if full.Ok? {
        history := history + [AssistantMessage(full.value)];
      }
    }

    /** `chat(user_input)` */
    method Chat(input: string)
      requires Valid()
      modifies this, backend, store, client
      ensures Valid() && client.toolsMap == old(client.toolsMap)
      ensures var m0 := Mem(old(store.addFaults), old(store.answers), old(client.incoming), [], []);
              var t := Turn(old(history), input, schema, Rpc.Names(old(client.toolsMap)), old(backend.script), m0);
              && history == t.history
              && backend.sent == old(backend.sent) + t.sent
              && backend.script == (if |t.sent| == 1 then RestReplies(old(backend.script)) else RestReplies(RestReplies(old(backend.script))))
              && Matches(t.mem, Texts(old(store.stored), V6Rag.Collection), old(client.written))
      ensures OnlyTouched(old(store.stored), store.stored, V6Rag.Collection)
    {
      ghost var m0 := Mem(store.addFaults, store.answers, client.incoming, [], []);
      Open(input);
      Answer(m0.(answers := store.answers), Texts(old(store.stored), V6Rag.Collection), client.written);
    }
  }

  /** Once a prefix of the round has raised, the rest of the calls change nothing. */
  lemma {:induction false} RaisedStops(calls: seq<Call>, i: nat, names: seq<string>, m0: Mem)
    requires i <= |calls| && !Round(calls[..i], names, m0).ok
    ensures Round(calls, names, m0) == Round(calls[..i], names, m0)
    decreases |calls| - i
  {
    if i < |calls| {
      assert calls[..i + 1][..i] == calls[..i];
      RaisedStops(calls, i + 1, names, m0);
    } else {
      assert calls[..i] == calls;
    }
  }
}
