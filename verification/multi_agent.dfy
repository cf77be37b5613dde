/**
 * The v8 multi-agent terminal: three specialists that share one client of
 * the document server and one memory system, each with its own collection.
 * A specialist is the core `GenericAgent` with the memory system always
 * attached and no task context, so every turn starts with a retrieval from
 * its own collection.
 */
module V8Multi {
  import opened Wrappers
  import opened Text
  import opened JsonModel
  import opened Conversation
  import opened Memory
  import opened Agent
  import Rpc
  import DocServer

  /** What `SpecialistAgent(...)` is given besides its collaborators. */
  datatype Profile = Profile(name: string, description: string, systemPrompt: string, collection: string, allowed: seq<string>)

  /** The specialists of the terminal, under the keys the user types to switch to them. */
  const Roster: map<string, Profile> := map[
    "1" := Profile("CourseTutor", "AI 课程辅导员，专注于 ai-agents-course 课程内容。",
                   "你是一名 AI 课程助教。你的任务是帮助用户理解 AI Agent 的概念。你应该只回答与课程相关的问题。你的知识库中存储了大量课程文档。",
                   "ai_course_knowledge", ["read_document", "read_folder"]),
    "2" := Profile("PythonExpert", "Python 编程专家，专注于代码实现和调试。",
                   "你是一名资深 Python 工程师。请直接给出高质量的代码解决方案。不要废话，直接写代码。",
                   "python_snippets", ["read_document"]),
    "3" := Profile("ChatBot", "普通聊天机器人，用于闲聊。", "你是一个友好的聊天助手。", "general_chat", [])
  ]

  /** The specialist the terminal starts with. */
  const Initial := "3"

  /** The names the document server lists: `read_document`, then `read_folder`. */
  lemma DocServerNames()
    ensures |DocServer.Tools| == 2
    ensures DocServer.Tools[0].fields["name"] == Str("read_document")
    ensures DocServer.Tools[1].fields["name"] == Str("read_folder")
  {
  }

  /**
   * Every tool a specialist may use is one the document server lists, and
   * one whose result is saved to the specialist's collection.
   */
  lemma RosterTools()
    ensures Initial in Roster
    ensures forall k, t :: k in Roster && t in Roster[k].allowed ==>
              Persists(t) && exists i :: 0 <= i < |DocServer.Tools| && DocServer.Tools[i].fields["name"] == Str(t)
  {
    DocServerNames();
    forall k, t | k in Roster && t in Roster[k].allowed
      ensures Persists(t) && exists i :: 0 <= i < |DocServer.Tools| && DocServer.Tools[i].fields["name"] == Str(t)
    {
      assert Roster.Keys == {"1", "2", "3"};
      assert t == "read_document" || t == "read_folder";
      if t == "read_document" {
        assert DocServer.Tools[0].fields["name"] == Str(t);
      } else {
        assert DocServer.Tools[1].fields["name"] == Str(t);
      }
    }
  }

  /** The specialists keep separate collections. */
  lemma RosterCollections()
    ensures forall k, j :: k in Roster && j in Roster && k != j ==> Roster[k].collection != Roster[j].collection
  {
    assert Roster.Keys == {"1", "2", "3"};
  }

  /**
   * `SpecialistAgent(...)`: the two memory tools first, then the allowed
   * server tools when there is a client and a non-empty allow list;
   * converting the server's descriptors can raise, and then so does this.
   */
  method Create(p: Profile, client: Rpc.Client?, store: Store, backend: Backend) returns (r: Result<GenericAgent>)
    ensures r.Err? <==> client != null && p.allowed != [] && client.InferenceTools().Err?
    ensures r.Ok? ==> fresh(r.value) && r.value.store == store && r.value.client == client && r.value.backend == backend
    ensures r.Ok? ==> r.value.name == p.name && r.value.collection == p.collection
    ensures r.Ok? ==> r.value.history == [SystemMessage(p.systemPrompt)]
    ensures r.Ok? ==> r.value.schema == MemorySchema(p.name)
                         + (if client != null && p.allowed != [] then Allow(client.InferenceTools().value, p.allowed) else [])
    ensures r.Ok? ==> |r.value.schema| >= 2 && r.value.schema[..2] == MemorySchema(p.name)
    ensures r.Ok? ==> forall s :: s in r.value.schema[2..] ==> s.name in p.allowed
  {
    r := GenericAgent.Create(p.name, p.description, p.systemPrompt, p.collection, p.allowed, client, store, backend);
    if r.Ok? {
      ghost var remote := if client != null && p.allowed != [] then Allow(client.InferenceTools().value, p.allowed) else [];
      assert r.value.schema == MemorySchema(p.name) + remote;
      assert r.value.schema[2..] == remote;
    }
  }

  /**
   * A specialist's turn always opens with the user message and the
   * retrieval from its collection, injected unless it reports nothing; the
   * first request carries that history and the schema, and it stays at the
   * head of the history; the turn ends with the reply or with "发生错误".
   */
  lemma SpecialistOpens(kit: Kit, h0: seq<Message>, input: string, schema: seq<ToolSpec>, script: seq<Reply>, m0: Mem)
    requires kit.hasStore
    ensures var t := Turn(kit, h0, None, input, schema, script, m0);
            var m := QueryReply(kit.name, Capped(NextHits(m0.answers), QueryLimit));
            var open := h0 + [UserMessage(input)] + (if Injects(m) then [SystemMessage(Background(m))] else []);
            && |open| <= |t.history| && t.history[..|open|] == open
            && |t.sent| >= 1 && t.sent[0] == Request(open, Some(schema), false)
            && (t.reply == ErrorText || t.history[|t.history| - 1] == AssistantMessage(t.reply))
  {
    var m := QueryReply(kit.name, Capped(NextHits(m0.answers), QueryLimit));
    assert Opening(None, input, Memories(kit, m0.answers)) == [UserMessage(input)] + (if Injects(m) then [SystemMessage(Background(m))] else []);
    TurnOpens(kit, h0, None, input, schema, script, m0);
  }

  /**
   * `chat(user_input)`: the core turn with no task context, which for a
   * specialist opens as SpecialistOpens says.
   */
  method Chat(agent: GenericAgent, input: string) returns (reply: string)
    requires agent.Valid() && agent.store != null
    modifies agent, agent.backend, agent.store, agent.client
    ensures agent.Valid()
    ensures var t := Turn(agent.AsKit(), old(agent.history), None, input, agent.schema, old(agent.backend.script), old(agent.Snapshot()));
            && reply == t.reply && agent.history == t.history
            && agent.backend.sent == old(agent.backend.sent) + t.sent
            && agent.backend.script == Skip(old(agent.backend.script), |t.sent|)
            && agent.Matches(t.mem, old(agent.Base()), old(agent.Sent()))
            && (agent.client != null ==> agent.client.toolsMap == old(agent.client.toolsMap))
    ensures OnlyTouched(old(agent.store.stored), agent.store.stored, agent.collection)
  {
    reply := agent.Chat(input, None);
  }
}
