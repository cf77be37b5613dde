/**
 * The v4 custom agent: no system prompt (the custom model carries its own),
 * six local tools (clock, calculator and four file operations), every known
 * tool called with the model's arguments as keywords, and a streamed
 * follow-up that still carries the schema.
 */
module V4Custom {
  import opened Wrappers
  import opened JsonModel
  import opened Conversation
  import opened Skills

  /** `available_tools`: each tool's parameters; `list_files` has a default for `path`. */
  const Signatures: map<string, Signature> := map[
    "get_current_time" := Signature({}, {}),
    "calculate" := Signature({"expression"}, {}),
    "list_files" := Signature({}, {"path"}),
    "read_file" := Signature({"filename"}, {}),
    "write_file" := Signature({"filename", "content"}, {}),
    "delete_file" := Signature({"filename"}, {})
  ]

  /** `tools_schema` */
  const Tools: seq<ToolSpec> := [
    ToolSpec("get_current_time", Str("获取当前时间"), ObjectSchema(map[], [])),
    ToolSpec("calculate", Str("计算数学表达式"), ObjectSchema(map["expression" := StringProp(None)], ["expression"])),
    ToolSpec("list_files", Str("列出当前目录下的所有文件"), ObjectSchema(map["path" := StringProp(Some("目录路径，默认为 '.'"))], [])),
    ToolSpec("read_file", Str("读取指定文件的内容"), ObjectSchema(map["filename" := StringProp(None)], ["filename"])),
    ToolSpec("write_file", Str("创建或覆盖写入文件"),
      ObjectSchema(map["filename" := StringProp(None), "content" := StringProp(None)], ["filename", "content"])),
    ToolSpec("delete_file", Str("永久删除指定文件"), ObjectSchema(map["filename" := StringProp(Some("要删除的文件名"))], ["filename"]))
  ]

  /** The schema advertises exactly the six tools of the table. */
  lemma SchemaNames()
    ensures |Tools| == 6
    ensures (set t | t in Tools :: t.name) == Signatures.Keys
  {
    var names := ["get_current_time", "calculate", "list_files", "read_file", "write_file", "delete_file"];
    assert Signatures.Keys == set n | n in names;
    assert forall i :: 0 <= i < 6 ==> Tools[i].name == names[i];
  }

  /** Each descriptor advertises the parameters of the tool it names and requires those without a default. */
  lemma SchemaMatchesTools()
    ensures forall t :: t in Tools ==> t.name in Signatures && Describes(t, Signatures[t.name])
  {
    ToolDescribes0(); ToolDescribes1(); ToolDescribes2(); ToolDescribes3(); ToolDescribes4(); ToolDescribes5();
    assert forall t :: t in Tools ==> exists i :: 0 <= i < 6 && Tools[i] == t;
  }

  lemma ToolDescribes0()
    ensures Tools[0].name in Signatures && Describes(Tools[0], Signatures[Tools[0].name])
  {
    assert Signatures[Tools[0].name] == Signature({}, {});
    SchemaDescribes(Tools[0].name, Tools[0].description, map[], [], Signature({}, {}));
  }

  lemma ToolDescribes1()
    ensures Tools[1].name in Signatures && Describes(Tools[1], Signatures[Tools[1].name])
  {
    assert Signatures[Tools[1].name] == Signature({"expression"}, {});
    SchemaDescribes(Tools[1].name, Tools[1].description, map["expression" := StringProp(None)], ["expression"], Signature({"expression"}, {}));
  }

  lemma ToolDescribes2()
    ensures Tools[2].name in Signatures && Describes(Tools[2], Signatures[Tools[2].name])
  {
    assert Signatures[Tools[2].name] == Signature({}, {"path"});
    SchemaDescribes(Tools[2].name, Tools[2].description, map["path" := StringProp(Some("目录路径，默认为 '.'"))], [], Signature({}, {"path"}));
  }

  lemma ToolDescribes3()
    ensures Tools[3].name in Signatures && Describes(Tools[3], Signatures[Tools[3].name])
  {
    assert Signatures[Tools[3].name] == Signature({"filename"}, {});
    SchemaDescribes(Tools[3].name, Tools[3].description, map["filename" := StringProp(None)], ["filename"], Signature({"filename"}, {}));
  }

  lemma ToolDescribes4()
    ensures Tools[4].name in Signatures && Describes(Tools[4], Signatures[Tools[4].name])
  {
    assert Signatures[Tools[4].name] == Signature({"filename", "content"}, {});
    SchemaDescribes(Tools[4].name, Tools[4].description, map["filename" := StringProp(None), "content" := StringProp(None)], ["filename", "content"], Signature({"filename", "content"}, {}));
  }

  lemma ToolDescribes5()
    ensures Tools[5].name in Signatures && Describes(Tools[5], Signatures[Tools[5].name])
  {
    assert Signatures[Tools[5].name] == Signature({"filename"}, {});
    SchemaDescribes(Tools[5].name, Tools[5].description, map["filename" := StringProp(Some("要删除的文件名"))], ["filename"], Signature({"filename"}, {}));
  }

  /**
   * One requested call: skipped when unknown, else `f(**args)`, which raises
   * when the arguments do not bind. `run` is what a tool returns once called
   * (each tool turns its own failures into text).
   */
  function Step(run: Call -> string): Skills.Step
  {
    (call: Call) =>
      if call.name !in Signatures then None
      else if Accepts(Signatures[call.name], call.args) then Some(Ok(run(call)))
      else Some(Err("unexpected or missing keyword argument"))
  }

  /** The v4 turn: the follow-up keeps the schema and plain replies are always appended. */
  function Flavour(run: Call -> string): Variant
  {
    Variant(Tools, Step(run), true, true)
  }

  /** `list_files` runs with no arguments or with `path`; `read_file` and `delete_file` refuse to run without `filename`. */
  lemma Binding(run: Call -> string, args: Args)
    ensures Step(run)(Call("list_files", args)).value.Ok? <==> args.Keys <= {"path"}
    ensures Step(run)(Call("read_file", args)).value.Err? <==> args.Keys != {"filename"}
    ensures Step(run)(Call("delete_file", args)).value.Err? <==> args.Keys != {"filename"}
    ensures Step(run)(Call("write_file", args)).value.Ok? <==> args.Keys == {"filename", "content"}
  {
    var e := Some(Err("unexpected or missing keyword argument"));
    assert Step(run)(Call("list_files", args)) == if Accepts(Signature({}, {"path"}), args) then Some(Ok(run(Call("list_files", args)))) else e;
    assert Step(run)(Call("read_file", args)) == if Accepts(Signature({"filename"}, {}), args) then Some(Ok(run(Call("read_file", args)))) else e;
    assert Step(run)(Call("delete_file", args)) == if Accepts(Signature({"filename"}, {}), args) then Some(Ok(run(Call("delete_file", args)))) else e;
    assert Step(run)(Call("write_file", args)) == if Accepts(Signature({"filename", "content"}, {}), args) then Some(Ok(run(Call("write_file", args)))) else e;
  }

  /** A plain reply is appended as it is, even when empty. */
  lemma PlainReply(run: Call -> string, h0: seq<Message>, input: string, script: seq<Reply>)
    requires NextReply(script).Answer? && NextReply(script).calls == []
    ensures var t := Turn(Flavour(run), h0, input, script);
            t.history == h0 + [UserMessage(input), AssistantMessage(NextReply(script).content)] && |t.sent| == 1
  {
  }

  /** The follow-up after a completed round is streamed and carries the same schema. */
  lemma FollowUpWithSchema(run: Call -> string, h0: seq<Message>, input: string, script: seq<Reply>)
    requires NextReply(script).Answer? && NextReply(script).calls != []
    requires Round(Step(run), NextReply(script).calls).ok
    ensures var t := Turn(Flavour(run), h0, input, script);
            |t.sent| == 2 && t.sent[1].tools == Some(Tools) && t.sent[1].stream
  {
  }

  class CustomAgent {
    const backend: Backend
    var history: seq<Message>

    constructor (backend: Backend)
      ensures this.backend == backend
      ensures history == []
    {
      this.backend := backend;
      history := [];
    }

    /** `chat(user_input)`: the turn's effect is the history and the requests sent. */
    method Chat(input: string, run: Call -> string)
      modifies this, backend
      ensures var t := Turn(Flavour(run), old(history), input, old(backend.script));
              && history == t.history
              && backend.sent == old(backend.sent) + t.sent
              && backend.script == if |t.sent| == 1 then RestReplies(old(backend.script)) else RestReplies(RestReplies(old(backend.script)))
    {
      history := ChatTurn(Flavour(run), backend, history, input);
    }
  }
}
