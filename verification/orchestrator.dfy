/**
 * The manager that routes each user input to one specialist agent: it keeps
 * its own conversation, advertises a single `dispatch_task` tool whose
 * `agent_name` parameter enumerates the registered agents, and either hands
 * the input to the chosen agent (with the manager's task summary as that
 * agent's context) or answers directly.
 */
module Orchestration {
  import opened Wrappers
  import opened Text
  import opened JsonModel
  import opened Conversation
  import opened Memory
  import opened Rpc
  import opened Agent

  const DispatchTool := "dispatch_task"
  const SystemError := "系统错误"

  /** `f"{i+1}. {name}: {agent.description}"` for the entry at position `i`. */
  function RosterLine(i: nat, name: string, description: string): string
  {
    NatToString(i + 1) + ". " + name + ": " + description
  }

  /** The numbered roster lines, starting at position `start`. */
  function RosterFrom(entries: seq<(string, string)>, start: nat): (lines: seq<string>)
    ensures |lines| == |entries|
    ensures forall k :: 0 <= k < |entries| ==> lines[k] == RosterLine(start + k, entries[k].0, entries[k].1)
  {
    if entries == [] then []
    else [RosterLine(start, entries[0].0, entries[0].1)] + RosterFrom(entries[1..], start + 1)
  }

  function Roster(entries: seq<(string, string)>): seq<string>
  {
    RosterFrom(entries, 0)
  }

  function NamesOf(entries: seq<(string, string)>): (names: seq<string>)
    ensures |names| == |entries|
    ensures forall k :: 0 <= k < |entries| ==> names[k] == entries[k].0
  {
    if entries == [] then [] else [entries[0].0] + NamesOf(entries[1..])
  }

  /** The manager's system prompt: the roster lines, then the names joined by ", ". */
  function ManagerPrompt(entries: seq<(string, string)>): string
  {
    "你是一个智能体团队的管理者 (Manager)。\n你的任务是根据用户的输入，判断应该将任务指派给哪位专家。\n\n团队成员如下：\n"
    + Join("\n", Roster(entries))
    + "\n\n请仔细分析用户意图，并调用工具 `dispatch_task` 将任务指派给最合适的专家。\n可选专家: "
    + Join(", ", NamesOf(entries))
    + "\n"
  }

  /** Every agent appears in the prompt both as its numbered roster line and by name. */
  lemma PromptListsEachAgent(entries: seq<(string, string)>, k: nat)
    requires k < |entries|
    ensures Contains(ManagerPrompt(entries), RosterLine(k, entries[k].0, entries[k].1))
    ensures Contains(ManagerPrompt(entries), entries[k].0)
  {
    var head := "你是一个智能体团队的管理者 (Manager)。\n你的任务是根据用户的输入，判断应该将任务指派给哪位专家。\n\n团队成员如下：\n";
    var mid := "\n\n请仔细分析用户意图，并调用工具 `dispatch_task` 将任务指派给最合适的专家。\n可选专家: ";
    var roster := Join("\n", Roster(entries));
    var names := Join(", ", NamesOf(entries));
    JoinContains("\n", Roster(entries), k);
    assert ManagerPrompt(entries) == head + roster + (mid + names + "\n");
    ContainsMiddle(head, roster, mid + names + "\n");
    ContainsTrans(ManagerPrompt(entries), roster, RosterLine(k, entries[k].0, entries[k].1));
    JoinContains(", ", NamesOf(entries), k);
    assert ManagerPrompt(entries) == head + roster + mid + names + "\n";
    ContainsMiddle(head + roster + mid, names, "\n");
    ContainsTrans(ManagerPrompt(entries), names, entries[k].0);
  }

  /** The `enum` of the `agent_name` parameter: the agent names in registration order. */
  function NameEnum(names: seq<string>): (items: seq<Json>)
    ensures |items| == |names|
    ensures forall k :: 0 <= k < |names| ==> items[k] == Str(names[k])
  {
    if names == [] then [] else [Str(names[0])] + NameEnum(names[1..])
  }

  /** The single tool the manager advertises. */
  function DispatchSchema(names: seq<string>): seq<ToolSpec>
  {
    [ToolSpec(DispatchTool, Str("将任务指派给特定的专家"),
      Obj(map[
        "type" := Str("object"),
        "properties" := Obj(map[
          "agent_name" := Obj(map["type" := Str("string"), "enum" := Arr(NameEnum(names)), "description" := Str("专家的名字")]),
          "task_description" := Obj(map["type" := Str("string"), "description" := Str("对用户需求的总结，将作为上下文传递给专家")])
        ]),
        "required" := Arr([Str("agent_name"), Str("task_description")])
      ]))]
  }

  /** The schema offers exactly the registered names, as strings, for `agent_name`, and requires both arguments. */
  lemma DispatchSchemaEnumerates(names: seq<string>)
    ensures var s := DispatchSchema(names);
            && |s| == 1 && s[0].name == DispatchTool
            && Get(s[0].parameters, "properties", Null) == Ok(s[0].parameters.fields["properties"])
            && var p := s[0].parameters.fields["properties"];
            && p.Obj? && p.fields.Keys == {"agent_name", "task_description"}
            && p.fields["agent_name"].Obj? && "enum" in p.fields["agent_name"].fields
            && var e := p.fields["agent_name"].fields["enum"];
            && e.Arr? && |e.items| == |names|
            && (forall k :: 0 <= k < |names| ==> e.items[k] == Str(names[k]))
            && (forall x :: Str(x) in e.items <==> x in names)
            && s[0].parameters.fields["required"] == Arr([Str("agent_name"), Str("task_description")])
  {
    var e := NameEnum(names);
    forall x
      ensures Str(x) in e <==> x in names
    {
      if Str(x) in e {
        var k :| 0 <= k < |e| && e[k] == Str(x);
        assert names[k] == x;
      }
      if x in names {
        var k :| 0 <= k < |names| && names[k] == x;
        assert e[k] == Str(x);
      }
    }
  }

  /** What one manager reply leads to. */
  datatype Decision = Fail | Dispatch(agent: string, task: string) | Direct(content: string, calls: seq<Call>)

  /**
   * How `process` reads the manager's reply: a failed call, or a
   * `dispatch_task` first call missing an argument, raises; a
   * `dispatch_task` naming a registered agent dispatches; anything else,
   * including an unknown agent, is answered directly. Only the first call
   * is looked at.
   */
  function Decide(reply: Reply, registered: set<string>): (d: Decision)
  {
    if !reply.Answer? then Fail
    else if reply.calls != [] && reply.calls[0].name == DispatchTool then
      var args := reply.calls[0].args;
      if "agent_name" !in args || "task_description" !in args then Fail
      else if args["agent_name"] in registered then Dispatch(args["agent_name"], args["task_description"])
      else Direct(reply.content, reply.calls)
    else Direct(reply.content, reply.calls)
  }

  /** A dispatch goes only to a registered agent, named by the first call, with its task summary. */
  lemma DispatchOnlyToRegistered(reply: Reply, registered: set<string>)
    requires Decide(reply, registered).Dispatch?
    ensures var d := Decide(reply, registered);
            && d.agent in registered
            && reply.Answer? && reply.calls != [] && reply.calls[0].name == DispatchTool
            && reply.calls[0].args.Keys >= {"agent_name", "task_description"}
            && d.agent == reply.calls[0].args["agent_name"] && d.task == reply.calls[0].args["task_description"]
  {
  }

  /** The manager fails exactly when the call fails or a dispatch lacks an argument. */
  lemma FailIff(reply: Reply, registered: set<string>)
    ensures Decide(reply, registered).Fail? <==>
              !reply.Answer?
              || (reply.calls != [] && reply.calls[0].name == DispatchTool
                  && ("agent_name" !in reply.calls[0].args || "task_description" !in reply.calls[0].args))
  {
  }

  /** A direct answer carries the reply unchanged, and never names a registered agent in a well-formed dispatch. */
  lemma DirectKeepsReply(reply: Reply, registered: set<string>)
    requires Decide(reply, registered).Direct?
    ensures reply.Answer? && Decide(reply, registered) == Direct(reply.content, reply.calls)
    ensures reply.calls != [] && reply.calls[0].name == DispatchTool ==> reply.calls[0].args["agent_name"] !in registered
  {
  }

  /** True when `xs` has no repeated element. */
  predicate Distinct(xs: seq<string>)
  {
    forall i, j :: 0 <= i < j < |xs| ==> xs[i] != xs[j]
  }

  /** The (name, description) pairs of the registered agents, in the order of `names`. */
  function EntriesOf(names: seq<string>, agents: map<string, GenericAgent>): (entries: seq<(string, string)>)
    requires forall k :: 0 <= k < |names| ==> names[k] in agents
    ensures |entries| == |names|
    ensures forall k :: 0 <= k < |names| ==> entries[k] == (names[k], agents[names[k]].description)
  {
    seq(|names|, k requires 0 <= k < |names| && names[k] in agents => (names[k], agents[names[k]].description))
  }

  class Orchestrator {
    /** The dict's keys in insertion order, and the dict itself. */
    const names: seq<string>
    const agents: map<string, GenericAgent>
    const backend: Backend
    /** The system prompt and the tool schema, fixed at construction. */
    const prompt: string
    const schema: seq<ToolSpec>
    var history: seq<Message>

    /** Every object a dispatched agent may change. */
    ghost function Footprint(): set<object?>
    {
      (set n | n in agents :: agents[n] as object?)
      + (set n | n in agents :: agents[n].backend as object?)
      + (set n | n in agents :: agents[n].store as object?)
      + (set n | n in agents :: agents[n].client as object?)
    }

    /** The (name, description) pairs in dict order. */
    function Entries(): seq<(string, string)>
      requires forall k :: 0 <= k < |names| ==> names[k] in agents
    {
      EntriesOf(names, agents)
    }

    /** `names` lists the dict's keys once each, and no agent is registered twice. */
    ghost predicate Registry()
    {
      && Distinct(names)
      && (forall n :: n in names <==> n in agents)
      && (forall n, m :: n in agents && m in agents && n != m ==> agents[n] != agents[m])
    }

    ghost predicate Valid()
      reads this, Footprint()
    {
      && Registry()
      && (forall n :: n in agents ==> agents[n].Valid())
      && |history| >= 1
      && history[0] == SystemMessage(prompt)
    }

    /** `Orchestrator(agents)` */
    constructor (names: seq<string>, agents: map<string, GenericAgent>, backend: Backend)
      requires Distinct(names) && (forall n :: n in names <==> n in agents)
      requires forall n, m :: n in agents && m in agents && n != m ==> agents[n] != agents[m]
      requires forall n :: n in agents ==> agents[n].Valid()
      ensures Valid()
      ensures this.names == names && this.agents == agents && this.backend == backend
      ensures prompt == ManagerPrompt(Entries()) && schema == DispatchSchema(names)
      ensures history == [SystemMessage(prompt)]
    {
      this.names := names;
      this.agents := agents;
      this.backend := backend;
      this.schema := DispatchSchema(names);
      var p := ManagerPrompt(EntriesOf(names, agents));
      this.prompt := p;
      history := [SystemMessage(p)];
      new;
      forall n | n in agents
        ensures agents[n].Valid()
      {
        var b := agents[n];
        assert old(b.Valid());
        if b.client != null {
          assert unchanged(b.client);
        }
      }
    }

    /** The objects a decision may change: the manager's backend, and on a dispatch the chosen agent with its collaborators. */
    ghost function Touched(d: Decision): set<object?>
    {
      {backend as object?}
      + if d.Dispatch? && d.agent in agents then
          var a := agents[d.agent];
          {a as object?, a.backend as object?, a.store as object?, a.client as object?}
        else {}
    }

    /**
     * `process(user_input)`: the input is appended and posted with the
     * dispatch schema; the reply is read as `Decide` says. A dispatch
     * returns the chosen agent's `chat(user_input, task)` (one turn, as
     * `Turn` says, on the replies left after the manager's post when the
     * backend is shared) and leaves the manager's history at the user
     * message; a direct answer appends the assistant message and returns
     * its content; a failure returns "系统错误". Nothing else changes.
     */
    method Process(input: string) returns (reply: string)
      requires Valid()
      modifies this, Touched(Decide(NextReply(backend.script), agents.Keys))
      ensures Valid()
      ensures var asked := old(history) + [UserMessage(input)];
              var req := Request(asked, Some(schema), false);
              var d := Decide(NextReply(old(backend.script)), agents.Keys);
              && (d.Fail? ==> reply == SystemError && history == asked)
              && (d.Direct? ==> reply == d.content && history == asked + [Message(Assistant, d.content, d.calls)])
              && (d.Dispatch? ==> history == asked)
              && (!d.Dispatch? ==> backend.sent == old(backend.sent) + [req] && backend.script == RestReplies(old(backend.script)))
              && (d.Dispatch? ==>
                    var a := agents[d.agent];
                    var shared := a.backend == backend;
                    var script := if shared then RestReplies(old(backend.script)) else old(a.backend.script);
                    var t := Turn(a.AsKit(), old(a.history), Some(d.task), input, a.schema, script, old(a.Snapshot()));
                    && reply == t.reply && a.history == t.history
                    && a.backend.sent == (if shared then old(backend.sent) + [req] else old(a.backend.sent)) + t.sent
                    && a.backend.script == Skip(script, |t.sent|)
                    && (!shared ==> backend.sent == old(backend.sent) + [req] && backend.script == RestReplies(old(backend.script)))
                    && a.Matches(t.mem, old(a.Base()), old(a.Sent()))
                    && (a.client != null ==> a.client.toolsMap == old(a.client.toolsMap))
                    && (a.store != null ==> OnlyTouched(old(a.store.stored), a.store.stored, a.collection)))
    {
      history := history + [UserMessage(input)];
      var message := backend.Post(Request(history, Some(schema), false));
      if !message.Answer? {
        return SystemError;
      }
      if message.calls != [] && message.calls[0].name == DispatchTool {
        var args := message.calls[0].args;
        if "agent_name" !in args || "task_description" !in args {
          return SystemError;
        }
        var target := args["agent_name"];
        if target in agents {
          assert Decide(message, agents.Keys) == Dispatch(target, args["task_description"]);
          reply := Delegate(target, input, args["task_description"]);
          return;
        }
      }
      history := history + [Message(Assistant, message.content, message.calls)];
      reply := message.content;
    }

    /** `self.agents[target].chat(user_input, history_context=task)`: exactly one turn of that agent, as `Turn` says. */
    method Delegate(target: string, input: string, task: string) returns (reply: string)
      requires Valid() && target in agents
      modifies agents[target], agents[target].backend, agents[target].store, agents[target].client
      ensures Valid()
      ensures var a := agents[target];
              var t := Turn(a.AsKit(), old(a.history), Some(task), input, a.schema, old(a.backend.script), old(a.Snapshot()));
              && reply == t.reply && a.history == t.history
              && a.backend.sent == old(a.backend.sent) + t.sent
              && a.backend.script == Skip(old(a.backend.script), |t.sent|)
              && a.Matches(t.mem, old(a.Base()), old(a.Sent()))
              && (a.client != null ==> a.client.toolsMap == old(a.client.toolsMap))
              && (a.store != null ==> OnlyTouched(old(a.store.stored), a.store.stored, a.collection))
    {
      var a := agents[target];
      reply := a.Chat(input, Some(task));
      forall n | n in agents
        ensures agents[n].Valid()
      {
        var b := agents[n];
        assert old(b.Valid());
        if b.client != null && b.client != a.client {
          assert unchanged(b.client);
        }
      }
    }
  }
}
