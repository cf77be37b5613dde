/**
 * The v3 skills agent: a system prompt, two local skills (the clock and a
 * calculator), and one turn per user input. A skill is called with the
 * model's arguments as keywords when there are any and with no arguments
 * otherwise; an unknown name is skipped; the streamed follow-up is sent
 * without the schema; an empty plain reply is not appended.
 */
module V3Skills {
  import opened Wrappers
  import opened JsonModel
  import opened Conversation
  import opened Skills

  const SystemPrompt := "你是一个拥有实用技能的智能助手。注意：你本身不知道当前时间，也不能进行复杂计算。如果用户问时间或计算问题，你必须调用工具，不要自己回答。"

  /** `available_tools`: each skill's parameters. */
  const Signatures: map<string, Signature> := map[
    "get_current_time" := Signature({}, {}),
    "calculate" := Signature({"expression"}, {})
  ]

  /** `tools_schema` */
  const Tools: seq<ToolSpec> := [
    ToolSpec("get_current_time", Str("当用户询问当前时间、日期时使用。"), ObjectSchema(map[], [])),
    ToolSpec("calculate", Str("当用户需要进行数学计算时使用。"),
      ObjectSchema(map["expression" := StringProp(Some("要计算的数学表达式，例如 '2 + 2' 或 'sqrt(16)'"))], ["expression"]))
  ]

  /** The schema advertises exactly the two skills, each with its parameters. */
  lemma SchemaMatchesSkills()
    ensures |Tools| == 2
    ensures (set t | t in Tools :: t.name) == Signatures.Keys
    ensures forall t :: t in Tools ==> Describes(t, Signatures[t.name])
  {
    SchemaDescribes(Tools[0].name, Tools[0].description, map[], [], Signatures["get_current_time"]);
    SchemaDescribes(Tools[1].name, Tools[1].description,
      map["expression" := StringProp(Some("要计算的数学表达式，例如 '2 + 2' 或 'sqrt(16)'"))], ["expression"], Signatures["calculate"]);
    assert Tools[0].name == "get_current_time" && Tools[1].name == "calculate";
  }

  /**
   * One requested call: skipped when unknown; otherwise `f(**args)` when the
   * arguments are non-empty and `f()` when they are empty, which raises when
   * the arguments do not bind. `run` is what a skill returns once called.
   */
  function Step(run: Call -> string): Skills.Step
  {
    (call: Call) =>
      if call.name !in Signatures then None
      else if call.args != map[] then
        if Accepts(Signatures[call.name], call.args) then Some(Ok(run(call))) else Some(Err("unexpected keyword argument"))
      else if Signatures[call.name].required == {} then Some(Ok(run(call)))
      else Some(Err("missing required positional argument"))
  }

  /** Calling with no arguments when there are none is calling with an empty keyword set: a skill runs exactly when its arguments bind. */
  lemma NoArgsIsEmptyKeywords(run: Call -> string, call: Call)
    ensures Step(run)(call).Some? <==> call.name in Signatures
    ensures Step(run)(call) == Some(Ok(run(call))) <==> call.name in Signatures && Accepts(Signatures[call.name], call.args)
  {
    if call.name in Signatures && call.args == map[] {
      assert call.args.Keys == {};
    }
  }

  /** The v3 turn: no schema in the follow-up, empty plain replies dropped. */
  function Flavour(run: Call -> string): Variant
  {
    Variant(Tools, Step(run), false, false)
  }

  /** An empty plain reply appends nothing after the user message; a non-empty one is appended. */
  lemma PlainReply(run: Call -> string, h0: seq<Message>, input: string, script: seq<Reply>)
    requires NextReply(script).Answer? && NextReply(script).calls == []
    ensures var t := Turn(Flavour(run), h0, input, script);
            var content := NextReply(script).content;
            && |t.sent| == 1
            && (content == "" <==> t.history == h0 + [UserMessage(input)])
            && (content != "" <==> t.history == h0 + [UserMessage(input), AssistantMessage(content)])
  {
  }

  /** The follow-up after a completed round is streamed and carries no schema. */
  lemma FollowUpWithoutSchema(run: Call -> string, h0: seq<Message>, input: string, script: seq<Reply>)
    requires NextReply(script).Answer? && NextReply(script).calls != []
    requires Round(Step(run), NextReply(script).calls).ok
    ensures var t := Turn(Flavour(run), h0, input, script);
            |t.sent| == 2 && t.sent[1].tools == None && t.sent[1].stream
  {
  }

  class SkillsAgent {
    const backend: Backend
    var history: seq<Message>

    constructor (backend: Backend)
      ensures this.backend == backend
      ensures history == [SystemMessage(SystemPrompt)]
    {
      this.backend := backend;
      history := [SystemMessage(SystemPrompt)];
    }

    /** `chat(user_input)`: nothing is returned; the turn's effect is the history and the requests sent. */
    method Chat(input: string, run: Call -> string)
      modifies this, backend
      ensures var t := Turn(Flavour(run), old(history), input, old(backend.script));
              && history == t.history
              && backend.sent == old(backend.sent) + t.sent
              && backend.script == if |t.sent| == 1 then RestReplies(old(backend.script)) else RestReplies(RestReplies(old(backend.script)))
    {
      history := ChatTurn(Flavour(run), backend, history, input);
    }
  }
}
