/**
 * What the early agents (v3, v4) share: a table of local Python functions
 * called with the model's arguments as keywords, a tool round in which an
 * unknown tool name appends nothing, and a turn whose follow-up request is
 * streamed. The tools' own effects (the clock, `eval`, the file system) are
 * an abstract function from the call to the text it returns.
 */
module Skills {
  import opened Wrappers
  import opened Text
  import opened JsonModel
  import opened Conversation
  import Agent

  /** A Python function's parameters: those without a default, and those with one. */
  datatype Signature = Signature(required: set<string>, optional: set<string>)

  /** `f(**args)` binds: every parameter without a default is given, and no unknown keyword is. */
  predicate Accepts(sig: Signature, args: Args)
  {
    sig.required <= args.Keys <= sig.required + sig.optional
  }

  /** A descriptor's `parameters` advertise exactly the function's parameters, and require those without a default. */
  predicate Describes(spec: ToolSpec, sig: Signature)
  {
    && spec.parameters.Obj?
    && "properties" in spec.parameters.fields && spec.parameters.fields["properties"].Obj?
    && spec.parameters.fields["properties"].fields.Keys == sig.required + sig.optional
    && "required" in spec.parameters.fields && spec.parameters.fields["required"].Arr?
    && (set j | j in spec.parameters.fields["required"].items) == (set p | p in sig.required :: Str(p))
  }

  /** `{"type": "object", "properties": properties, "required": required}` */
  function ObjectSchema(properties: map<string, Json>, required: seq<string>): Json
  {
    Obj(map["type" := Str("object"), "properties" := Obj(properties), "required" := Arr(seq(|required|, i requires 0 <= i < |required| => Str(required[i])))])
  }

  /** A schema built from a property table and a list of required names describes the signature they spell out. */
  lemma {:induction false} SchemaDescribes(name: string, description: Json, properties: map<string, Json>, required: seq<string>, sig: Signature)
    requires properties.Keys == sig.required + sig.optional
    requires (set r | r in required) == sig.required
    ensures Describes(ToolSpec(name, description, ObjectSchema(properties, required)), sig)
  {
    var items := ObjectSchema(properties, required).fields["required"].items;
    assert |items| == |required| && forall i :: 0 <= i < |items| ==> items[i] == Str(required[i]);
    forall j | j in items ensures j in (set p | p in sig.required :: Str(p)) {
      var i :| 0 <= i < |items| && items[i] == j;
      assert required[i] in sig.required;
    }
    forall j | j in (set p | p in sig.required :: Str(p)) ensures j in items {
      var p :| p in sig.required && j == Str(p);
      var i :| 0 <= i < |required| && required[i] == p;
      assert items[i] == j;
    }
  }

  /** A string property, with or without a description. */
  function StringProp(description: Option<string>): Json
  {
    match description
    case None => Obj(map["type" := Str("string")])
    case Some(d) => Obj(map["type" := Str("string"), "description" := Str(d)])
  }

  /**
   * What running one requested call does: `None` when its name is not in the
   * table (nothing is appended), else the tool's text or the exception it raises.
   */
  type Step = Call -> Option<Result<string>>

  predicate Raises(step: Step, call: Call)
  {
    step(call).Some? && step(call).value.Err?
  }

  /** The calls whose name is in the table, in request order. */
  function Known(step: Step, calls: seq<Call>): seq<Call>
  {
    if calls == [] then []
    else Known(step, calls[..|calls| - 1]) + (if step(calls[|calls| - 1]).Some? then [calls[|calls| - 1]] else [])
  }

  /** The tool messages' contents of a round, and whether it ran to the end (`false`: a call raised). */
  datatype RoundEnd = RoundEnd(results: seq<string>, ok: bool)

  function Round(step: Step, calls: seq<Call>): RoundEnd
  {
    if calls == [] then RoundEnd([], true)
    else
      var prev := Round(step, calls[..|calls| - 1]);
      if !prev.ok then prev
      else match step(calls[|calls| - 1])
        case None => prev
        case Some(Ok(r)) => RoundEnd(prev.results + [r], true)
        case Some(Err(_)) => RoundEnd(prev.results, false)
  }

  /**
   * A round runs to the end exactly when no call raises, and then it has one
   * result per known call, in order; otherwise it holds the results of the
   * calls before the first that raised.
   */
  lemma {:induction false} RoundSpec(step: Step, calls: seq<Call>)
    ensures var r := Round(step, calls);
            && |r.results| <= |calls|
            && (r.ok <==> forall k :: 0 <= k < |calls| ==> !Raises(step, calls[k]))
            && (r.ok ==> |r.results| == |Known(step, calls)|
                         && forall k :: 0 <= k < |r.results| ==> step(Known(step, calls)[k]) == Some(Ok(r.results[k])))
            && (!r.ok ==> exists j :: 0 <= j < |calls| && Raises(step, calls[j]) && Round(step, calls[..j]) == RoundEnd(r.results, true))
    decreases |calls|
  {
    if calls != [] {
      var n := |calls| - 1;
      var init := calls[..n];
      RoundSpec(step, init);
      var prev := Round(step, init);
      if prev.ok {
        assert forall k :: 0 <= k < n ==> !Raises(step, calls[k]) by {
          forall k | 0 <= k < n ensures init[k] == calls[k] { }
        }
        if Raises(step, calls[n]) {
          assert calls[..n] == init;
        } else if step(calls[n]).Some? {
          var known := Known(step, calls);
          assert known == Known(step, init) + [calls[n]];
          forall k | 0 <= k < |Round(step, calls).results|
            ensures step(known[k]) == Some(Ok(Round(step, calls).results[k]))
          {
            if k < |prev.results| {
              assert known[k] == Known(step, init)[k];
            }
          }
        } else {
          assert Known(step, calls) == Known(step, init);
        }
      } else {
        var j :| 0 <= j < n && Raises(step, init[j]) && Round(step, init[..j]) == RoundEnd(prev.results, true);
        assert init[..j] == calls[..j];
        assert init[j] == calls[j];
      }
    }
  }

  /** A round of unknown names appends nothing. */
  lemma {:induction false} UnknownOnly(step: Step, calls: seq<Call>)
    requires forall k :: 0 <= k < |calls| ==> step(calls[k]).None?
    ensures Round(step, calls) == RoundEnd([], true)
    decreases |calls|
  {
    if calls != [] {
      var n := |calls| - 1;
      UnknownOnly(step, calls[..n]);
      assert step(calls[n]).None?;
    }
  }

  /** `for tool in message["tool_calls"]`: run each known call and collect its text; a call that raises ends the round. */
  method RunRound(step: Step, calls: seq<Call>) returns (results: seq<string>, ok: bool)
    ensures RoundEnd(results, ok) == Round(step, calls)
  {
    results := [];
    var i := 0;
    while i < |calls|
      invariant 0 <= i <= |calls|
      invariant Round(step, calls[..i]) == RoundEnd(results, true)
    {
      assert calls[..i + 1][..i] == calls[..i];
      match step(calls[i]) {
        case None =>
        case Some(Ok(r)) => results := results + [r];
        case Some(Err(_)) =>
          ok := false;
          RaisedStops(step, calls, i + 1);
          return;
      }
      i := i + 1;
    }
    assert calls[..i] == calls;
    ok := true;
  }

  /** Once a prefix of the round has raised, the rest of the calls change nothing. */
  lemma {:induction false} RaisedStops(step: Step, calls: seq<Call>, i: nat)
    requires i <= |calls| && !Round(step, calls[..i]).ok
    ensures Round(step, calls) == Round(step, calls[..i])
    decreases |calls| - i
  {
    if i < |calls| {
      assert calls[..i + 1][..i] == calls[..i];
      RaisedStops(step, calls, i + 1);
    } else {
      assert calls[..i] == calls;
    }
  }

  /**
   * One variant of the early turn: the schema sent with the first request,
   * how a call runs, whether the streamed follow-up carries the schema, and
   * whether an empty plain reply is still appended.
   */
  datatype Variant = Variant(schema: seq<ToolSpec>, step: Step, followTools: bool, keepEmpty: bool)

  /** The history after a turn and the requests it sent. */
  datatype TurnEnd = TurnEnd(history: seq<Message>, sent: seq<Request>)

  /**
   * `chat(user_input)`: the user message, a first request with the schema;
   * a plain reply is appended (an empty one only when the variant keeps it);
   * a tool request is appended, its round runs, and unless a call raised one
   * streamed follow-up gives the final reply. A failed request ends the
   * turn, keeping what was appended.
   */
  function Turn(v: Variant, h0: seq<Message>, input: string, script: seq<Reply>): TurnEnd
  {
    var open := h0 + [UserMessage(input)];
    var req1 := Request(open, Some(v.schema), false);
    var first := NextReply(script);
    if !first.Answer? then TurnEnd(open, [req1])
    else if first.calls == [] then
      TurnEnd(if first.content == "" && !v.keepEmpty then open else open + [AssistantMessage(first.content)], [req1])
    else
      var round := Round(v.step, first.calls);
      var asked := open + [Message(Assistant, first.content, first.calls)] + Agent.ToolMessages(round.results);
      if !round.ok then TurnEnd(asked, [req1])
      else
        var req2 := Request(asked, if v.followTools then Some(v.schema) else None, true);
        var second := NextReply(RestReplies(script));
        TurnEnd(if second.Chunks? then asked + [AssistantMessage(Concat(second.pieces))] else asked, [req1, req2])
  }

  /** The user message is appended before the first request, which carries it and the schema; at most two requests go out. */
  lemma TurnOpens(v: Variant, h0: seq<Message>, input: string, script: seq<Reply>)
    ensures var t := Turn(v, h0, input, script);
            && 1 <= |t.sent| <= 2
            && t.sent[0] == Request(h0 + [UserMessage(input)], Some(v.schema), false)
            && |h0| < |t.history| && t.history[..|h0| + 1] == h0 + [UserMessage(input)]
  {
  }

  /** After a completed round, the tool message at each position answers the known call at that position. */
  lemma KnownMessages(step: Step, calls: seq<Call>)
    requires Round(step, calls).ok
    ensures var known := Known(step, calls);
            var ms := Agent.ToolMessages(Round(step, calls).results);
            && |ms| == |known|
            && forall k :: 0 <= k < |known| ==> ms[k].role == Tool && step(known[k]) == Some(Ok(ms[k].content))
  {
    var results := Round(step, calls).results;
    RoundSpec(step, calls);
    Agent.ToolMessagesEach(results);
  }

  /**
   * A completed tool round appends the request, one tool message per known
   * call in request order (none for an unknown name), and the streamed reply.
   */
  lemma TurnToolRound(v: Variant, h0: seq<Message>, input: string, script: seq<Reply>)
    requires NextReply(script).Answer? && NextReply(script).calls != []
    requires forall k :: 0 <= k < |NextReply(script).calls| ==> !Raises(v.step, NextReply(script).calls[k])
    requires NextReply(RestReplies(script)).Chunks?
    ensures var first := NextReply(script);
            var t := Turn(v, h0, input, script);
            var known := Known(v.step, first.calls);
            var asked := h0 + [UserMessage(input), Message(Assistant, first.content, first.calls)];
            && |t.sent| == 2
            && |t.history| == |h0| + 3 + |known|
            && t.history[..|h0| + 2] == asked
            && (var tools := t.history[|h0| + 2..|t.history| - 1];
                forall k :: 0 <= k < |known| ==> tools[k].role == Tool && v.step(known[k]) == Some(Ok(tools[k].content)))
            && t.history[|t.history| - 1] == AssistantMessage(Concat(NextReply(RestReplies(script)).pieces))
  {
    var first := NextReply(script);
    var asked := h0 + [UserMessage(input), Message(Assistant, first.content, first.calls)];
    var final := AssistantMessage(Concat(NextReply(RestReplies(script)).pieces));
    RoundSpec(v.step, first.calls);
    TurnCompleted(v, h0, input, script);
    KnownMessages(v.step, first.calls);
    var ms := Agent.ToolMessages(Round(v.step, first.calls).results);
    var h := asked + ms + [final];
    assert Turn(v, h0, input, script).history == h;
    assert h[|h0| + 2..|h| - 1] == ms;
    assert h[..|h0| + 2] == asked;
    assert h[|h| - 1] == final;
  }

  /** The history of a turn whose round completed and whose follow-up streamed. */
  lemma TurnCompleted(v: Variant, h0: seq<Message>, input: string, script: seq<Reply>)
    requires NextReply(script).Answer? && NextReply(script).calls != []
    requires Round(v.step, NextReply(script).calls).ok
    requires NextReply(RestReplies(script)).Chunks?
    ensures var first := NextReply(script);
            var t := Turn(v, h0, input, script);
            && |t.sent| == 2
            && t.history == h0 + [UserMessage(input), Message(Assistant, first.content, first.calls)]
                            + Agent.ToolMessages(Round(v.step, first.calls).results)
                            + [AssistantMessage(Concat(NextReply(RestReplies(script)).pieces))]
  {
    var first := NextReply(script);
    assert h0 + [UserMessage(input)] + [Message(Assistant, first.content, first.calls)]
        == h0 + [UserMessage(input), Message(Assistant, first.content, first.calls)];
  }

  /** A call that raises ends the turn after the tool messages of the calls before it; no follow-up is sent. */
  lemma TurnRaises(v: Variant, h0: seq<Message>, input: string, script: seq<Reply>, j: nat)
    requires NextReply(script).Answer? && j < |NextReply(script).calls|
    requires Raises(v.step, NextReply(script).calls[j])
    ensures var first := NextReply(script);
            var t := Turn(v, h0, input, script);
            && |t.sent| == 1
            && exists i :: 0 <= i <= j && Round(v.step, first.calls[..i]).ok &&
                 t.history == h0 + [UserMessage(input), Message(Assistant, first.content, first.calls)]
                              + Agent.ToolMessages(Round(v.step, first.calls[..i]).results)
  {
    var first := NextReply(script);
    RoundSpec(v.step, first.calls);
    var r := Round(v.step, first.calls);
    var i :| 0 <= i < |first.calls| && Raises(v.step, first.calls[i]) && Round(v.step, first.calls[..i]) == RoundEnd(r.results, true);
    FirstRaise(v.step, first.calls, i, j);
    TurnStopped(v, h0, input, script);
  }

  /** No call before the end of a completed prefix raises. */
  lemma FirstRaise(step: Step, calls: seq<Call>, i: nat, j: nat)
    requires i <= |calls| && j < |calls|
    requires Round(step, calls[..i]).ok && Raises(step, calls[j])
    ensures i <= j
  {
    RoundSpec(step, calls[..i]);
    assert forall k :: 0 <= k < i ==> calls[..i][k] == calls[k];
  }

  /** The history of a turn whose round raised. */
  lemma TurnStopped(v: Variant, h0: seq<Message>, input: string, script: seq<Reply>)
    requires NextReply(script).Answer? && NextReply(script).calls != []
    requires !Round(v.step, NextReply(script).calls).ok
    ensures var first := NextReply(script);
            var t := Turn(v, h0, input, script);
            && |t.sent| == 1
            && t.history == h0 + [UserMessage(input), Message(Assistant, first.content, first.calls)]
                            + Agent.ToolMessages(Round(v.step, first.calls).results)
  {
    var first := NextReply(script);
    assert h0 + [UserMessage(input)] + [Message(Assistant, first.content, first.calls)]
        == h0 + [UserMessage(input), Message(Assistant, first.content, first.calls)];
  }

  /** When every requested name is unknown, the round appends no tool message at all. */
  lemma TurnUnknownSkipped(v: Variant, h0: seq<Message>, input: string, script: seq<Reply>)
    requires NextReply(script).Answer? && NextReply(script).calls != []
    requires forall k :: 0 <= k < |NextReply(script).calls| ==> v.step(NextReply(script).calls[k]).None?
    ensures var first := NextReply(script);
            var t := Turn(v, h0, input, script);
            var asked := h0 + [UserMessage(input), Message(Assistant, first.content, first.calls)];
            && |t.sent| == 2
            && t.sent[1] == Request(asked, if v.followTools then Some(v.schema) else None, true)
            && (t.history == asked || t.history == asked + [AssistantMessage(Concat(NextReply(RestReplies(script)).pieces))])
  {
    UnknownOnly(v.step, NextReply(script).calls);
  }

  /** The early turn, step by step on a local history. */
  method ChatTurn(v: Variant, backend: Backend, h0: seq<Message>, input: string) returns (history: seq<Message>)
    modifies backend
    ensures var t := Turn(v, h0, input, old(backend.script));
            && history == t.history
            && backend.sent == old(backend.sent) + t.sent
            && backend.script == if |t.sent| == 1 then RestReplies(old(backend.script)) else RestReplies(RestReplies(old(backend.script)))
  {
    history := h0 + [UserMessage(input)];
    var first := backend.Post(Request(history, Some(v.schema), false));
    if !first.Answer? {
      return;
    }
    if first.calls == [] {
      if first.content != "" || v.keepEmpty {
        history := history + [AssistantMessage(first.content)];
      }
      return;
    }
    history := history + [Message(Assistant, first.content, first.calls)];
    var results, ok := RunRound(v.step, first.calls);
    history := history + Agent.ToolMessages(results);
    if !ok {
      return;
    }
    var full := PostStreamed(backend, Request(history, if v.followTools then Some(v.schema) else None, true));
    if full.Ok? {
      history := history + [AssistantMessage(full.value)];
    }
  }
}
