/**
 * The message log every agent keeps and the inference backend it talks to.
 * The backend is a scripted sequence of replies: each post consumes the next
 * one, and an exhausted script behaves like a failing HTTP call.
 */
module Conversation {
  import opened Wrappers
  import opened Text
  import opened JsonModel

  /** Tool-call arguments: parameter name to value (every advertised parameter is a string). */
  type Args = map<string, string>

  /** One entry of a reply's `tool_calls`: `tool["function"]["name"]` and `tool["function"]["arguments"]`. */
  datatype Call = Call(name: string, args: Args)

  datatype Role = System | User | Assistant | Tool

  /** A history entry; `calls` is non-empty only for an assistant message that requests tools. */
  datatype Message = Message(role: Role, content: string, calls: seq<Call>)

  function SystemMessage(s: string): Message { Message(System, s, []) }
  function UserMessage(s: string): Message { Message(User, s, []) }
  function AssistantMessage(s: string): Message { Message(Assistant, s, []) }
  function ToolMessage(s: string): Message { Message(Tool, s, []) }

  /** A tool descriptor in the inference format: `{"type": "function", "function": {name, description, parameters}}`. */
  datatype ToolSpec = ToolSpec(name: string, description: Json, parameters: Json)

  /**
   * What one HTTP call to the backend yields: a non-streamed body's message
   * (content, default "", and its tool calls), the content pieces of a
   * streamed body's lines, or a failure (network error, bad status, bad JSON).
   */
  datatype Reply = Answer(content: string, calls: seq<Call>) | Chunks(pieces: seq<string>) | Down

  /** A request payload: messages, tool schema (absent in one follow-up), and the stream flag. */
  datatype Request = Request(messages: seq<Message>, tools: Option<seq<ToolSpec>>, stream: bool)

  function NextReply(script: seq<Reply>): Reply
  {
    if script == [] then Down else script[0]
  }

  function RestReplies(script: seq<Reply>): seq<Reply>
  {
    if script == [] then [] else script[1..]
  }

  /** The replies left after `n` posts. */
  function Skip(script: seq<Reply>, n: nat): seq<Reply>
  {
    if n == 0 then script else Skip(RestReplies(script), n - 1)
  }

  /** One post leaves the rest of the script; two leave the rest of that. */
  lemma SkipPosts(script: seq<Reply>)
    ensures Skip(script, 1) == RestReplies(script)
    ensures Skip(script, 2) == RestReplies(RestReplies(script))
  {
  }

  /** The inference endpoint. `sent` logs every request in order; `script` holds the replies still to come. */
  class Backend {
    var script: seq<Reply>
    var sent: seq<Request>

    constructor (replies: seq<Reply>)
      ensures script == replies && sent == []
    {
      script := replies;
      sent := [];
    }

    /** `requests.post(api_url, json=payload)` */
    method Post(req: Request) returns (r: Reply)
      modifies this
      ensures sent == old(sent) + [req]
      ensures r == NextReply(old(script)) && script == RestReplies(old(script))
    {
      r := NextReply(script);
      script := RestReplies(script);
      sent := sent + [req];
    }
  }

  /** `full_response += content` over the lines of a streamed reply. */
  method Accumulate(pieces: seq<string>) returns (full: string)
    ensures full == Concat(pieces)
  {
    full := "";
    var i := 0;
    while i < |pieces|
      invariant 0 <= i <= |pieces|
      invariant full == Concat(pieces[..i])
    {
      ConcatSnoc(pieces[..i], pieces[i]);
      assert pieces[..i + 1] == pieces[..i] + [pieces[i]];
      full := full + pieces[i];
      i := i + 1;
    }
    assert pieces[..i] == pieces;
  }

  /**
   * A streamed post: the concatenation of the pieces, or an exception when
   * the call fails or does not stream.
   */
  method PostStreamed(backend: Backend, req: Request) returns (r: Result<string>)
    modifies backend
    ensures backend.sent == old(backend.sent) + [req]
    ensures backend.script == RestReplies(old(backend.script))
    ensures NextReply(old(backend.script)).Chunks? ==> r == Ok(Concat(NextReply(old(backend.script)).pieces))
    ensures !NextReply(old(backend.script)).Chunks? ==> r.Err?
  {
    var reply := backend.Post(req);
    if reply.Chunks? {
      var full := Accumulate(reply.pieces);
      r := Ok(full);
    } else {
      r := Err("stream failed");
    }
  }
}
