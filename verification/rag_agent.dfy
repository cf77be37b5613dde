/**
 * The v6 RAG agent: a long-term memory store behind two tools (save and
 * query) plus the clock, a keyword heuristic that retrieves memories before
 * the first request, and the early turn shape with a streamed follow-up that
 * keeps the schema. Each tool turns the store's exceptions into text; only a
 * call whose arguments do not bind raises.
 */
module V6Rag {
  import opened Wrappers
  import opened Text
  import opened JsonModel
  import opened Conversation
  import opened Memory
  import Skills
  import Agent

  const SystemPrompt := "你是一个拥有长期记忆能力的智能助手。\n你的核心能力是可以自主决定将信息存入“长期记忆数据库”或从库中检索信息。\n\n决策逻辑：\n1. **存储决策**：当用户提到重要信息（如名字、职业、喜好、待办事项、重要知识）时，请务必调用 `save_to_long_term_memory`。对于简单的问候或闲聊，不要存储。\n2. **检索决策**：当用户问的问题涉及**过去的历史**、**个人身份**（如“我是谁”）、**偏好**或**之前提到的知识**时，你**必须**先调用 `query_long_term_memory` 检索相关信息，然后再回答。\n\n**回答原则**：\n- 当你获得检索到的记忆时，请**不要**机械地复述所有信息。\n- 你需要**推理**用户的意图，只从记忆中提取与当前问题**真正相关**的部分进行回答。\n- 如果记忆中包含零碎或不相关的信息，请自动忽略。\n- 用自然、流畅的对话语气回答，就像老朋友聊天一样，不要暴露“我检索到了...”这样的技术细节。"

  /** The store's default collection, and the number of memories a query asks for. */
  const Collection := "long_term_memory"
  const QueryLimit: nat := 3

  const SaveTool := "save_to_long_term_memory"
  const QueryTool := "query_long_term_memory"
  const ClockTool := "get_current_time"

  const Sentinel := "记忆库中没有找到相关信息。"
  const Header := "检索到的相关记忆:\n"

  /** `save_to_long_term_memory`'s reply to an add that succeeded, or to one that raised. */
  function SaveReply(content: string, err: Option<string>): string
  {
    match err
    case None => "已成功将以下信息存入长期记忆库: '" + content + "'"
    case Some(e) => "存储失败: " + e
  }

  /** `query_long_term_memory`'s reply to the store's outcome. */
  function QueryReply(hits: Hits): string
  {
    match hits
    case Found(texts) => FormatHits(Header, Sentinel, texts)
    case Fault(e) => "检索失败: " + e
  }

  /** The save reply confirms exactly when the add succeeded, and the confirmation quotes the content. */
  lemma SaveReplyConfirms(content: string, err: Option<string>)
    ensures SaveReply(content, err) == SaveReply(content, None) <==> err.None?
    ensures err.None? ==> Contains(SaveReply(content, err), content)
  {
    if err.Some? {
      assert SaveReply(content, err)[0] == '存';
      assert SaveReply(content, None)[0] == '已';
    } else {
      ContainsMiddle("已成功将以下信息存入长期记忆库: '", content, "'");
    }
  }

  /** The sentinel comes back exactly when the store found nothing; otherwise every memory found is listed. */
  lemma QueryReplyLists(texts: seq<string>)
    ensures QueryReply(Found(texts)) == Sentinel <==> texts == []
    ensures forall k :: 0 <= k < |texts| ==> Contains(QueryReply(Found(texts)), "- " + texts[k])
  {
    SentinelIffNoHits(Header, Sentinel, texts);
    forall k | 0 <= k < |texts| ensures Contains(QueryReply(Found(texts)), "- " + texts[k]) {
      FormatHitsShowsEach(Header, Sentinel, texts, k);
    }
  }

  /** The phrases that make the agent retrieve memories before asking the model. */
  const Keywords := ["我是谁", "我叫什么", "我的名字", "你记得", "我喜欢"]

  predicate Recalls(input: string)
  {
    exists k :: 0 <= k < |Keywords| && Contains(input, Keywords[k])
  }

  /** The system message that carries the retrieved memories and quotes the question. */
  function ForcedContext(memories: string, input: string): string
  {
    "\n[系统隐式提示]\n以下是从长期记忆库中检索到的相关片段（可能包含不相关或过时的信息，请利用你的逻辑能力进行筛选和整合）：\n---\n"
    + memories
    + "\n---\n请仅基于以上信息中与用户问题 \"" + input + "\" 相关的部分进行回答。\n忽略不相关的碎片信息。请用自然的人性化语气回答。\n"
  }

  /** The injected context holds the whole retrieval and the whole question. */
  lemma ForcedContextHolds(memories: string, input: string)
    ensures Contains(ForcedContext(memories, input), memories)
    ensures Contains(ForcedContext(memories, input), input)
  {
    var head := "\n[系统隐式提示]\n以下是从长期记忆库中检索到的相关片段（可能包含不相关或过时的信息，请利用你的逻辑能力进行筛选和整合）：\n---\n";
    var mid := "\n---\n请仅基于以上信息中与用户问题 \"";
    var tail := "\" 相关的部分进行回答。\n忽略不相关的碎片信息。请用自然的人性化语气回答。\n";
    assert ForcedContext(memories, input) == head + memories + (mid + input + tail);
    ContainsMiddle(head, memories, mid + input + tail);
    assert ForcedContext(memories, input) == (head + memories + mid) + input + tail;
    ContainsMiddle(head + memories + mid, input, tail);
  }

  /** `available_tools`: each tool's parameters. */
  const Signatures: map<string, Skills.Signature> := map[
    SaveTool := Skills.Signature({"content"}, {}),
    QueryTool := Skills.Signature({"query"}, {}),
    ClockTool := Skills.Signature({}, {})
  ]

  /** `tools_schema` */
  const Tools: seq<ToolSpec> := [
    ToolSpec(SaveTool, Str("当用户提供值得永久保存的重要信息（如个人喜好、重要事实、未来计划）时调用此工具。不要存储琐碎的闲聊。"),
      Skills.ObjectSchema(map["content" := Skills.StringProp(Some("要存储的具体信息内容"))], ["content"])),
    ToolSpec(QueryTool, Str("当用户询问过去发生的事情、个人信息或之前提到的知识时，调用此工具检索记忆。"),
      Skills.ObjectSchema(map["query" := Skills.StringProp(Some("检索关键词或问题"))], ["query"])),
    ToolSpec(ClockTool, Str("获取当前时间"), Skills.ObjectSchema(map[], []))
  ]

  /** The schema advertises exactly the three tools of the table. */
  lemma SchemaNames()
    ensures |Tools| == 3
    ensures (set t | t in Tools :: t.name) == Signatures.Keys
  {
    var names := ["save_to_long_term_memory", "query_long_term_memory", "get_current_time"];
    assert Signatures.Keys == set n | n in names;
    assert forall i :: 0 <= i < 3 ==> Tools[i].name == names[i];
  }

  /** Each descriptor advertises the parameters of the tool it names. */
  lemma SchemaMatchesTools()
    ensures forall t :: t in Tools ==> t.name in Signatures && Skills.Describes(t, Signatures[t.name])
  {
    Skills.SchemaDescribes(Tools[0].name, Tools[0].description, map["content" := Skills.StringProp(Some("要存储的具体信息内容"))], ["content"], Skills.Signature({"content"}, {}));
    Skills.SchemaDescribes(Tools[1].name, Tools[1].description, map["query" := Skills.StringProp(Some("检索关键词或问题"))], ["query"], Skills.Signature({"query"}, {}));
    Skills.SchemaDescribes(Tools[2].name, Tools[2].description, map[], [], Skills.Signature({}, {}));
  }


  /**
   * A tool round so far: the tool messages' contents, whether no call has
   * raised, what is left of the store's scripts, and the texts added to the
   * collection, in order.
   */
  datatype Ran = Ran(results: seq<string>, ok: bool, faults: seq<Option<string>>, answers: seq<Hits>, added: seq<string>)

  /** One requested call: unknown names are skipped; a call whose arguments do not bind raises and ends the round. */
  function Apply(prev: Ran, call: Call, now: string): Ran
  {
    if !prev.ok || call.name !in Signatures then prev
    else if !Skills.Accepts(Signatures[call.name], call.args) then prev.(ok := false)
    else if call.name == SaveTool then
      var content := call.args["content"];
      var err := NextFault(prev.faults);
      prev.(results := prev.results + [SaveReply(content, err)], faults := Rest(prev.faults),
            added := prev.added + if err.None? then [content] else [])
    else if call.name == QueryTool then
      prev.(results := prev.results + [QueryReply(Capped(NextHits(prev.answers), QueryLimit))], answers := Rest(prev.answers))
    else
      prev.(results := prev.results + [now])
  }

  function Round(calls: seq<Call>, faults: seq<Option<string>>, answers: seq<Hits>, now: string): Ran
  {
    if calls == [] then Ran([], true, faults, answers, [])
    else Apply(Round(calls[..|calls| - 1], faults, answers, now), calls[|calls| - 1], now)
  }

  /** Whether a call is one the agent runs, and then whether its arguments bind. */
  predicate Binds(call: Call)
  {
    call.name in Signatures ==> Skills.Accepts(Signatures[call.name], call.args)
  }

  /** The contents of the save calls, in order. */
  function SaveContents(calls: seq<Call>): seq<string>
  {
    if calls == [] then []
    else
      var c := calls[|calls| - 1];
      SaveContents(calls[..|calls| - 1]) + if c.name == SaveTool && Skills.Accepts(Signatures[SaveTool], c.args) then [c.args["content"]] else []
  }

  /** The calls whose name is in the table, in order. */
  function Named(calls: seq<Call>): seq<Call>
  {
    if calls == [] then []
    else Named(calls[..|calls| - 1]) + if calls[|calls| - 1].name in Signatures then [calls[|calls| - 1]] else []
  }

  /** A round runs to the end exactly when every known call's arguments bind, and then it has one tool message per known call. */
  lemma {:induction false} RoundSpec(calls: seq<Call>, faults: seq<Option<string>>, answers: seq<Hits>, now: string)
    ensures var r := Round(calls, faults, answers, now);
            && (r.ok <==> forall k :: 0 <= k < |calls| ==> Binds(calls[k]))
            && (r.ok ==> |r.results| == |Named(calls)|)
    decreases |calls|
  {
    if calls != [] {
      var n := |calls| - 1;
      var init := calls[..n];
      RoundSpec(init, faults, answers, now);
      assert forall k :: 0 <= k < n ==> init[k] == calls[k];
    }
  }

  /**
   * With no add that fails, a completed round stores exactly the contents of
   * the save calls, in order; a round without save calls stores nothing.
   */
  lemma {:induction false} RoundStores(calls: seq<Call>, faults: seq<Option<string>>, answers: seq<Hits>, now: string)
    ensures var r := Round(calls, faults, answers, now);
            && (r.ok && faults == [] ==> r.added == SaveContents(calls) && r.faults == [])
            && (SaveContents(calls) == [] ==> r.added == [] && r.faults == faults)
    decreases |calls|
  {
    if calls != [] {
      RoundStores(calls[..|calls| - 1], faults, answers, now);
    }
  }

  /** Calls that save nothing leave the collection and the add script alone. */
  lemma QueriesStoreNothing(calls: seq<Call>, faults: seq<Option<string>>, answers: seq<Hits>, now: string)
    requires forall k :: 0 <= k < |calls| ==> calls[k].name != SaveTool
    ensures Round(calls, faults, answers, now).added == []
    ensures Round(calls, faults, answers, now).faults == faults
  {
    NoSaves(calls);
    RoundStores(calls, faults, answers, now);
  }

  lemma {:induction false} NoSaves(calls: seq<Call>)
    requires forall k :: 0 <= k < |calls| ==> calls[k].name != SaveTool
    ensures SaveContents(calls) == []
    decreases |calls|
  {
    if calls != [] {
      NoSaves(calls[..|calls| - 1]);
    }
  }

  /** The history after a turn, the requests it sent, and its tool round (empty when there was none). */
  datatype TurnEnd = TurnEnd(history: seq<Message>, sent: seq<Request>, round: Ran)

  /** The retrieval made before the first request, if the input asks for one. */
  function Recall(input: string, answers: seq<Hits>): Option<string>
  {
    if Recalls(input) then Some(QueryReply(Capped(NextHits(answers), QueryLimit))) else None
  }

  /** The user message, then the injected context when there was a retrieval. */
  function Opened(h0: seq<Message>, input: string, answers: seq<Hits>): seq<Message>
  {
    h0 + [UserMessage(input)]
    + match Recall(input, answers) { case Some(m) => [SystemMessage(ForcedContext(m, input))] case None => [] }
  }

  /**
   * `chat(user_input)`: open the turn, post it with the schema; a plain reply
   * is appended (even when empty); a tool request is appended, its round
   * runs, and unless a call raised one streamed follow-up with the schema
   * gives the final reply. A failed request ends the turn, keeping what was
   * appended.
   */
  function Turn(h0: seq<Message>, input: string, now: string, script: seq<Reply>, faults: seq<Option<string>>, answers: seq<Hits>): TurnEnd
  {
    Respond(Opened(h0, input, answers), now, script, faults, if Recalls(input) then Rest(answers) else answers)
  }

  /** The turn once opened: `open` is the history sent with the first request. */
  function Respond(open: seq<Message>, now: string, script: seq<Reply>, faults: seq<Option<string>>, answers: seq<Hits>): TurnEnd
  {
    var req1 := Request(open, Some(Tools), false);
    var first := NextReply(script);
    var none := Ran([], true, faults, answers, []);
    if !first.Answer? then TurnEnd(open, [req1], none)
    else if first.calls == [] then TurnEnd(open + [AssistantMessage(first.content)], [req1], none)
    else
      var round := Round(first.calls, faults, answers, now);
      var asked := open + [Message(Assistant, first.content, first.calls)] + Agent.ToolMessages(round.results);
      if !round.ok then TurnEnd(asked, [req1], round)
      else
        var req2 := Request(asked, Some(Tools), true);
        var second := NextReply(RestReplies(script));
        TurnEnd(if second.Chunks? then asked + [AssistantMessage(Concat(second.pieces))] else asked, [req1, req2], round)
  }

  /**
   * A question with a keyword gets the retrieval injected right after it,
   * holding every memory found; any other question reaches the model alone.
   */
  lemma TurnRecalls(h0: seq<Message>, input: string, now: string, script: seq<Reply>, faults: seq<Option<string>>, answers: seq<Hits>)
    ensures var t := Turn(h0, input, now, script, faults, answers);
            && t.sent[0].messages == Opened(h0, input, answers)
            && |t.history| >= |t.sent[0].messages|
            && t.history[..|t.sent[0].messages|] == t.sent[0].messages
    ensures Recalls(input) ==>
              var m := QueryReply(Capped(NextHits(answers), QueryLimit));
              && Opened(h0, input, answers) == h0 + [UserMessage(input), SystemMessage(ForcedContext(m, input))]
              && Contains(ForcedContext(m, input), m) && Contains(ForcedContext(m, input), input)
    ensures !Recalls(input) ==> Opened(h0, input, answers) == h0 + [UserMessage(input)]
  {
    if Recalls(input) {
      ForcedContextHolds(QueryReply(Capped(NextHits(answers), QueryLimit)), input);
    }
  }

  /** A plain reply is appended as it is, even when empty, and no tool runs. */
  lemma TurnPlain(h0: seq<Message>, input: string, now: string, script: seq<Reply>, faults: seq<Option<string>>, answers: seq<Hits>)
    requires NextReply(script).Answer? && NextReply(script).calls == []
    ensures var t := Turn(h0, input, now, script, faults, answers);
            && t.history == Opened(h0, input, answers) + [AssistantMessage(NextReply(script).content)]
            && |t.sent| == 1 && t.round.added == [] && t.round.faults == faults
  {
  }

  /**
   * After a completed round the follow-up is streamed and keeps the schema;
   * when no add fails, the collection gains exactly the saved contents.
   */
  lemma TurnFollowUp(h0: seq<Message>, input: string, now: string, script: seq<Reply>, faults: seq<Option<string>>, answers: seq<Hits>)
    requires NextReply(script).Answer? && NextReply(script).calls != []
    requires forall k :: 0 <= k < |NextReply(script).calls| ==> Binds(NextReply(script).calls[k])
    ensures var t := Turn(h0, input, now, script, faults, answers);
            && |t.sent| == 2 && t.sent[1].tools == Some(Tools) && t.sent[1].stream
            && (faults == [] ==> t.round.added == SaveContents(NextReply(script).calls))
  {
    var left := if Recalls(input) then Rest(answers) else answers;
    RoundSpec(NextReply(script).calls, faults, left, now);
    RoundStores(NextReply(script).calls, faults, left, now);
  }

  class RagAgent {
    const backend: Backend
    const store: Store
    var history: seq<Message>

    constructor (backend: Backend, store: Store)
      ensures this.backend == backend && this.store == store
      ensures history == [SystemMessage(SystemPrompt)]
    {
      this.backend := backend;
      this.store := store;
      history := [SystemMessage(SystemPrompt)];
    }

    /** `save_to_long_term_memory(content)`: one add to the default collection; a failure becomes the reply. */
    method Save(content: string) returns (msg: string)
      modifies store
      ensures msg == SaveReply(content, NextFault(old(store.addFaults)))
      ensures store.addFaults == Rest(old(store.addFaults)) && store.answers == old(store.answers)
      ensures Texts(store.stored, Collection) == Texts(old(store.stored), Collection)
                + if NextFault(old(store.addFaults)).None? then [content] else []
      ensures OnlyTouched(old(store.stored), store.stored, Collection)
    {
      var err := store.Add(content, Collection);
      msg := SaveReply(content, err);
    }

    /** `query_long_term_memory(query)`: the store's top three memories, the sentinel, or the failure. */
    method Query(query: string) returns (msg: string)
      modifies store
      ensures msg == QueryReply(Capped(NextHits(old(store.answers)), QueryLimit))
      ensures store.answers == Rest(old(store.answers))
      ensures store.stored == old(store.stored) && store.addFaults == old(store.addFaults)
    {
      var hits := store.Query(query, QueryLimit, Collection);
      msg := QueryReply(hits);
    }

    /** `for tool in message["tool_calls"]`, with `now` as the clock's reading. */
    method RunTools(calls: seq<Call>, now: string) returns (results: seq<string>, ok: bool)
      modifies store
      ensures var r := Round(calls, old(store.addFaults), old(store.answers), now);
              && results == r.results && ok == r.ok
              && store.addFaults == r.faults && store.answers == r.answers
              && Texts(store.stored, Collection) == Texts(old(store.stored), Collection) + r.added
              && OnlyTouched(old(store.stored), store.stored, Collection)
    {
      results := [];
      var i := 0;
      while i < |calls|
        invariant 0 <= i <= |calls|
        invariant var r := Round(calls[..i], old(store.addFaults), old(store.answers), now);
                  && r.ok && r.results == results && r.faults == store.addFaults && r.answers == store.answers
                  && Texts(store.stored, Collection) == Texts(old(store.stored), Collection) + r.added
        invariant OnlyTouched(old(store.stored), store.stored, Collection)
      {
        assert calls[..i + 1][..i] == calls[..i];
        var call := calls[i];
        if call.name in Signatures {
          if !Skills.Accepts(Signatures[call.name], call.args) {
            ok := false;
            RaisedStops(calls, i + 1, old(store.addFaults), old(store.answers), now);
            return;
          }
          var msg;
          if call.name == SaveTool {
            msg := Save(call.args["content"]);
          } else if call.name == QueryTool {
            msg := Query(call.args["query"]);
          } else {
            msg := now;
          }
          results := results + [msg];
        }
        i := i + 1;
      }
      assert calls[..i] == calls;
      ok := true;
    }

    /** The opening: the user message, and the injected retrieval when the input has a keyword. */
    method Open(input: string)
      modifies this, store
      ensures history == Opened(old(history), input, old(store.answers))
      ensures store.answers == if Recalls(input) then Rest(old(store.answers)) else old(store.answers)
      ensures store.stored == old(store.stored) && store.addFaults == old(store.addFaults)
    {
      history := history + [UserMessage(input)];
      if Recalls(input) {
        var memories := Query(input);
        history := history + [SystemMessage(ForcedContext(memories, input))];
      }
    }

    /** The turn after the opening: the first request, the tool round, the streamed follow-up. */
    method Answer(now: string)
      modifies this, backend, store
      ensures var t := Respond(old(history), now, old(backend.script), old(store.addFaults), old(store.answers));
              && history == t.history
              && backend.sent == old(backend.sent) + t.sent
              && backend.script == (if |t.sent| == 1 then RestReplies(old(backend.script)) else RestReplies(RestReplies(old(backend.script))))
              && store.addFaults == t.round.faults && store.answers == t.round.answers
              && Texts(store.stored, Collection) == Texts(old(store.stored), Collection) + t.round.added
              && OnlyTouched(old(store.stored), store.stored, Collection)
    {
      var first := backend.Post(Request(history, Some(Tools), false));
      if !first.Answer? {
        return;
      }
      if first.calls == [] {
        history := history + [AssistantMessage(first.content)];
        return;
      }
      history := history + [Message(Assistant, first.content, first.calls)];
      var results, ok := RunTools(first.calls, now);
      history := history + Agent.ToolMessages(results);
      if !ok {
        return;
      }
      var full := PostStreamed(backend, Request(history, Some(Tools), true));
      if full.Ok? {
        history := history + [AssistantMessage(full.value)];
      }
    }

    /** `chat(user_input)`, with `now` standing for the clock. */
    method Chat(input: string, now: string)
      modifies this, backend, store
      ensures var t := Turn(old(history), input, now, old(backend.script), old(store.addFaults), old(store.answers));
              && history == t.history
              && backend.sent == old(backend.sent) + t.sent
              && backend.script == (if |t.sent| == 1 then RestReplies(old(backend.script)) else RestReplies(RestReplies(old(backend.script))))
              && store.addFaults == t.round.faults && store.answers == t.round.answers
              && Texts(store.stored, Collection) == Texts(old(store.stored), Collection) + t.round.added
              && OnlyTouched(old(store.stored), store.stored, Collection)
    {
      Open(input);
      Answer(now);
    }
  }

  /** Once a prefix of the round has raised, the rest of the calls change nothing. */
  lemma {:induction false} RaisedStops(calls: seq<Call>, i: nat, faults: seq<Option<string>>, answers: seq<Hits>, now: string)
    requires i <= |calls| && !Round(calls[..i], faults, answers, now).ok
    ensures Round(calls, faults, answers, now) == Round(calls[..i], faults, answers, now)
    decreases |calls| - i
  {
    if i < |calls| {
      assert calls[..i + 1][..i] == calls[..i];
      RaisedStops(calls, i + 1, faults, answers, now);
    } else {
      assert calls[..i] == calls;
    }
  }
}
