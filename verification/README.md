# Universal Agent Runtime Kernel, modelled in Dafny

This project models the runtime kernel of a small multi-agent system built on a local
chat-completion endpoint and on tool servers that speak JSON-RPC over a pipe. It covers:

- **the specialist agent** (`core/agent.py`, module `Agent`). Each specialist has a message
  history and an optional memory store with its `save_memory`/`query_memory` tools. It may also
  have a client of a tool server. Each chat turn opens with the task context and an automatic
  retrieval, then posts the history. It runs at most one round of tool calls and ends with a
  follow-up request. The results of reading tools are saved to the agent's own collection and
  replaced by a note;
- **the manager** (`core/orchestrator.py`, module `Orchestration`). It builds the roster prompt
  and the `dispatch_task` schema, asks the model, and then does one of three things: hands the
  input to the chosen specialist, answers directly, or fails with "系统错误";
- **the tool-server client** (`core/mcp.py`, module `Rpc`). It writes one request line and reads
  one response line per call. It registers the listed tools in a name-keyed map and converts them
  to inference descriptors. The copies of this client in the v7 and v8 agents are textually the
  same and are modelled by the same module;
- **the tool servers**:
  - the document server `doc-loader` (`core/server.py`; modules `DocServer` and `Folder`, with
    the recursive, capped `read_folder` walk);
  - the legacy file server `my-local-files` (`legacy_agents/mcp_server.py`, module
    `FileServer`);
  - their shared line loop (module `ToolServer`);
- **the legacy agents**:
  - v3 skills agent (`V3Skills`) and v4 custom agent (`V4Custom`), over the shared turn of
    `Skills`;
  - v5 agent with its own JSON-RPC client (`V5Mcp`);
  - v6 RAG agent with keyword-triggered retrieval (`V6Rag`);
  - v7 knowledge agent with auto-learning (`V7Knowledge`);
  - v8 specialist terminal (`V8Multi`).

## How collaborators are modelled

- **The inference endpoint** is a `Conversation.Backend`. Every request posted is appended to
  `sent`, and every reply is taken from a script of replies: an answer with optional tool calls,
  a stream of chunks, or a failure. A turn's effect is therefore the new history plus the
  requests sent.
- **The vector store** is a `Memory.Store`. It records the texts added per collection and has
  scripted outcomes for adds (success or the exception raised) and for queries (the ranked hits
  or the exception). Ranking itself is not modelled.
- **A tool server's pipe** has two sides:
  - the request objects written so far (`written`);
  - the server's lines not yet read (`incoming`).

  Each line is a decoded JSON value, a blank line, or text that is not JSON. An empty `incoming`
  is the end of the stream.
- **The file system, the document readers and URL-decoding** are the abstract `Folder.Disk`.
  For the legacy file server they are `FileServer.Host`.
- **The clock and `eval`** are abstract functions from a call to the text it returns.

Python's dynamic failures (a missing key, a non-dict where a dict is indexed, arguments that do
not bind to `f(**args)`) are `Err` values. A method that can raise returns the error or a
`raised` flag. Its postcondition states what it leaves in the fields it may modify; its
`modifies` clause bounds what else it can change.

The specialist's turn is specified by the functions `Agent.Routed`, `Agent.Apply`, `Agent.Round`,
`Agent.Respond` and `Agent.Turn`. They work over `Agent.Mem`, a value that records where the
store's and the server's scripts stand and what the turn has added and written. The agent's
methods are proved equal to them, and the lemmas next to them state what a turn does.

## Model

| member | source | states |
|---|---|---|
| JsonModel.Decode | core/mcp.py:23 | a line decodes exactly when it holds a JSON value; a blank line or the empty string read at end of stream makes `json.loads` raise |
| JsonModel.NextFrame | core/mcp.py:23 | `readline()` gives the next line of the server's output, and the empty string once the output is exhausted |
| Rpc.RequestShape | core/mcp.py:18-20 | every request has exactly the keys jsonrpc "2.0", id 1 and method, plus `params` exactly when the params are truthy, carried unchanged |
| Rpc.Client.constructor | core/mcp.py:6-15 | a fresh client has written nothing, has its whole server output still to read, and has an empty tools map |
| Rpc.Client.SendRpc | core/mcp.py:18-23 | one request line is appended and exactly one line is consumed; the result is that line parsed; the tools map is untouched |
| Rpc.Client.Initialize | core/mcp.py:25-29 | it sends `initialize`, then `tools/list` only if the first reply parsed, and it consumes one line per request; it succeeds exactly when both replies parse, the tools list can be read, and every descriptor has a string name; the map it leaves has every descriptor before the first bad one registered, and is the old map when a reply fails |
| Rpc.ToolsOfSpec | core/mcp.py:28 | the loop visits a list's items; an absent result or tools list, an empty string or an empty object give no descriptor; any other `tools` value raises |
| Rpc.PartialRegister | core/mcp.py:28-29 | when registration succeeds, its map is what the loop leaves |
| Rpc.PartialBeforeBad | core/mcp.py:28-29 | when descriptor i is the first without a string name, the loop leaves exactly the descriptors before it registered |
| Rpc.PutLookup | core/mcp.py:29 | after `tools_map[k] = v`, looking up k gives v and every other key reads as before |
| Rpc.PutDistinct | core/mcp.py:29 | assigning a key keeps the map's names unique |
| Rpc.PutNames | core/mcp.py:29 | assigning an existing key keeps the order of the names; a new key is appended last |
| Rpc.RegisterLookup | core/mcp.py:28-29 | after registration, a listed name maps to the last descriptor listed under it; an unlisted name keeps its old entry |
| Rpc.RegisterFails | core/mcp.py:28-29 | registration raises exactly when some listed descriptor lacks a string `name` |
| Rpc.Client.CallTool | core/mcp.py:31-35 | one `tools/call` request with the name and arguments is written and one line consumed; the result is what `CallOutcome` reads from that line |
| Rpc.ErrorResponseReadsAsFailure | core/mcp.py:33-35 | a response that does not hold `result` (an error response, or a list or string without it) reads as "Tool execution failed" and never raises; only a number, a boolean or null, which support no `in` test, raises |
| Rpc.ResultIndexRaises | core/mcp.py:33-34 | a list or string response that holds "result" raises when it is indexed by that key |
| Rpc.TextContentReadsBack | core/mcp.py:33-34 | a response whose result is one text item reads back as exactly that text, whatever else it carries |
| Rpc.ToInferenceEntries | core/mcp.py:37-45 | a successful conversion gives one descriptor per map entry, in map order; each has the entry's name, description and input schema |
| Conversation.Backend.Post | core/agent.py:100-102 | a post appends exactly the request to the log and consumes exactly the next scripted reply |
| Conversation.Accumulate | legacy_agents/v3_skills_agent.py:123-131 | the streamed reply is the concatenation of all its chunks, in order |
| Conversation.PostStreamed | legacy_agents/v4_custom_agent.py:185-190 | a streamed post logs the request; it gives the concatenated chunks when the reply streams, and an exception otherwise |
| Memory.Store.Add | legacy_agents/memory_system.py:43-61 | an add that succeeds appends the text to the named collection only; one that raises stores nothing; either way one add outcome is consumed and the query script is untouched |
| Memory.Store.Query | legacy_agents/memory_system.py:63-87 | a query returns the next scripted outcome capped at `n_results` and consumes it; nothing is stored and the add script is untouched |
| Memory.Store.constructor | legacy_agents/memory_system.py:8-41 | a fresh memory system stores nothing and holds the given scripts of add and query outcomes |
| Memory.Capped | legacy_agents/memory_system.py:73 | at most `n_results` texts come back; they are the best-ranked prefix of the hits, and a hit list within the limit comes back whole |
| Memory.AddRun | core/agent.py:33-34 | of n adds in a row, a prefix succeeds; it is all n exactly when none raises, and none when the first raises |
| Memory.AddAll | core/agent.py:33-34 | the chunks are added in order until the first add that raises; the collection gains exactly the chunks before it; no other collection changes; one fault is consumed per add tried |
| Memory.OnlyTouchedTexts | legacy_agents/memory_system.py:43-46 | adding to one collection leaves the texts of every other collection as they were |
| Memory.SentinelIffNoHits | core/agent.py:45-47 | the retrieval text is the "no information" sentinel exactly when nothing was found |
| Memory.FormatHitsShowsEach | core/agent.py:47 | every hit appears in the retrieval text after its "- " |
| Memory.FormatHitsLine | core/agent.py:47 | every hit stands on a line of its own: the header (or the lines before it and a newline) precedes its "- " line, and a newline (or the end of the text) follows it |
| Text.JoinAt | core/agent.py:47 | item k of a `"\n".join` is preceded by the items before it and a separator, and followed by a separator and the items after it, with nothing before the first item or after the last |
| Text.SlicesProperties | core/agent.py:32 | the 500-character slices concatenate back to the text; there are ceil(len/500) of them, each non-empty and at most 500 characters |
| Text.ShortSlices | core/agent.py:31-32 | a text of at most 500 characters is a single slice, and the empty text has none |
| Text.JoinContains | core/agent.py:47 | every item of a `"\n".join` appears in the joined text |
| Agent.Pieces | core/agent.py:30-32 | what `save_memory` stores concatenates back to the content; every piece is at most 500 characters; a long content gives one piece per started 500 characters, and a short one is stored whole |
| Agent.SaveReplyOk | core/agent.py:35-40 | `save_memory` replies with a confirmation exactly when no add raised |
| Agent.NoHitsNotInjected | core/agent.py:45-46 | an empty retrieval is the "no information" reply, and it is never injected into the history |
| Agent.HitsListed | core/agent.py:47 | a non-empty retrieval lists each hit on its own "- " line: after the header line and the lines of the hits before it, followed by a newline or the end of the reply |
| Agent.HitWithPhraseSuppresses | core/agent.py:86-89 | one retrieved text containing "没有相关信息" suppresses the injection of the whole retrieval |
| Agent.RemoteRequestsCount | core/agent.py:106-115 | with no memory store, every requested call reaches the tool server once, in order, as a `tools/call` request with its name and arguments |
| Agent.MemorySchema | core/agent.py:54-69 | the memory tools are advertised as `save_memory` then `query_memory` |
| Agent.Allow | core/agent.py:71-75 | the server tools kept are exactly those whose name is allowed, in the server's order |
| Agent.AllowAppend | core/agent.py:71-75 | filtering a concatenation of descriptor lists gives the filtered parts in turn, so filtering keeps the server's order |
| Agent.SavingSpec | core/agent.py:28-40 | a save adds a prefix of the pieces to the collection, all of them exactly when the reply is the confirmation; with no add failing, the collection gains the whole content; an add that fails at once adds nothing and its exception is the reply; queries and the server are untouched |
| Agent.RoutedSpec | core/agent.py:111-115 | a call routed to the server writes exactly its `tools/call` request, consumes one line, and returns what that line reads as; other calls leave the server alone; a call with nowhere to go yields "" and changes nothing; it raises exactly for unbound memory-tool arguments or a failed server call |
| Agent.ApplyKeeps | core/agent.py:111-123 | the tool message of a call that is not a reading tool is the routed call's own result; when the call raises, the round stops |
| Agent.ApplySaves | core/agent.py:117-121 | a reading tool raises without a store; otherwise its result is saved (the whole text when no add fails), the tool message is the note, and the server is left as the routed call left it |
| Agent.ApplyStep | core/agent.py:106-123 | one more call either raises, keeping the tool messages so far, or adds exactly one message of its shape; only a call routed to the server writes a request, its own |
| Agent.RoundSpec | core/agent.py:106-123 | a round leaves one tool message per call until the first that raises, and completes exactly when every call has one |
| Agent.RoundShape | core/agent.py:106-123 | the k-th tool message of a round has the shape of the k-th call's route |
| Agent.RoundRequests | core/agent.py:106-115 | with a client, a completed round writes exactly the `tools/call` requests of the calls routed to the server, in call order |
| Agent.RaisedStops | core/agent.py:106-139 | once a call has raised, the rest of the calls change nothing |
| Agent.TurnOpens | core/agent.py:77-100 | a turn keeps the old history and its opening at the head, posts that opening with the schema first and at most one more request, and ends with the reply as the last message or with "发生错误" |
| Agent.RespondOpens | core/agent.py:91-100 | after any opening, the rest of the turn keeps that opening at the head of the history, posts it with the schema first and at most one more request, and ends with the reply as the last message or with "发生错误" |
| Agent.TurnWithoutTools | core/agent.py:99-104 | a turn without tool calls posts once and touches neither the add script nor the server; a plain answer is the reply; a failed post leaves only the opening and replies "发生错误" |
| Agent.FollowUpSent | core/agent.py:104-131 | after a completed round, exactly two requests go out, the second with the assistant message and the tool messages; the reply is the follow-up's content or "发生错误" |
| Agent.TurnFollowUp | core/agent.py:104-131 | after a completed round, the follow-up carries the schema and, after the assistant message, the tool message of each call in call order, each of its call's shape; the collaborators end where the round left them |
| Agent.TurnRaises | core/agent.py:106-139 | a call that raises ends the turn with "发生错误" and no follow-up, with fewer tool messages than calls |
| Agent.GenericAgent.Create | core/agent.py:6-25 | it raises exactly when there is a client, a non-empty allow list, and the descriptors fail to convert; otherwise the history is the system prompt and the schema is the memory tools (when there is a store) followed by the allowed server tools |
| Agent.GenericAgent.constructor | core/agent.py:6-17 | the agent keeps its collaborators, and its history is the system prompt alone |
| Agent.GenericAgent.SaveMemory | core/agent.py:28-40 | the reply and the store are those of `Saving`: the pieces are added to the agent's collection in order until an add raises; no other collection changes |
| Agent.GenericAgent.QueryMemory | core/agent.py:42-49 | the reply formats at most five of the hits the store returns, or the sentinel, or the exception; one query outcome is consumed and nothing is stored |
| Agent.GenericAgent.Invoke | core/agent.py:111-115 | the result and the new store and server state are those of `Routed`; the tools map is unchanged |
| Agent.GenericAgent.RunCall | core/agent.py:111-123 | the tool message and the new state are one step of `Apply` from the current state |
| Agent.GenericAgent.RunCalls | core/agent.py:106-123 | the tool messages, whether the round completed, and the new store and server state are those of `Round` |
| Agent.GenericAgent.Open | core/agent.py:80-89 | the history gains `Opening`: the task context when given, the user input, then the retrieved knowledge unless it reports nothing; one query outcome is consumed |
| Agent.GenericAgent.Answer | core/agent.py:91-139 | the reply, history, posted requests, remaining script and store and server state are those of `Respond` |
| Agent.GenericAgent.Chat | core/agent.py:77-139 | the reply, history, posted requests, remaining script and store and server state are those of `Turn`; only the agent's own collection changes |
| Orchestration.RosterFrom | core/orchestrator.py:13 | the roster has one numbered line "i. name: description" per agent, in registration order |
| Orchestration.NamesOf | core/orchestrator.py:14 | the names are those of the registered agents, one per agent, in order |
| Orchestration.PromptListsEachAgent | core/orchestrator.py:12-26 | every registered agent appears in the manager's prompt, both as its numbered roster line and by name |
| Orchestration.NameEnum | core/orchestrator.py:29-40 | the `agent_name` enum lists the registered names, in order, as strings |
| Orchestration.DispatchSchemaEnumerates | core/orchestrator.py:28-51 | the one advertised tool is `dispatch_task`; its `agent_name` enum holds exactly the registered names, and it requires both arguments |
| Orchestration.DispatchOnlyToRegistered | core/orchestrator.py:69-80 | a dispatch goes only to a registered agent, the one named by the first tool call, together with its task description |
| Orchestration.FailIff | core/orchestrator.py:65-91 | the manager answers "系统错误" exactly when the post fails or a `dispatch_task` call lacks one of its two arguments |
| Orchestration.DirectKeepsReply | core/orchestrator.py:84-87 | a direct answer carries the model's content and calls unchanged, and never names a registered agent in a well-formed dispatch |
| Orchestration.EntriesOf | core/orchestrator.py:13 | the (name, description) pairs follow the registration order |
| Orchestration.Orchestrator.constructor | core/orchestrator.py:5-10 | the manager's history is its system prompt; its schema is the dispatch schema over the registered names; every agent stays valid |
| Orchestration.Orchestrator.Process | core/orchestrator.py:53-91 | the user message is appended and posted once with the dispatch schema; a failure returns "系统错误" and a direct answer is appended and its content returned; a dispatch runs exactly one `Turn` of the chosen agent with the task as context, on the backend's remaining script, and returns its reply; its `modifies` clause lets it change only the manager, its backend, and the chosen agent with its backend, store and client |
| Orchestration.Orchestrator.Delegate | core/orchestrator.py:80 | the chosen agent runs exactly one `Turn` with the task as context; its reply, history, posted requests and store and server state are that turn's; it may modify only that agent and its collaborators |
| ToolServer.RespondEnvelope | core/server.py:120-123 | a response carries "2.0" and the request's id, and exactly one of `result` and `error` |
| ToolServer.OutputAppend | core/server.py:180-186 | the server's output is per line: two runs of lines produce the concatenation of their outputs |
| ToolServer.OutputFromLines | core/server.py:180-188 | at most one response per line; every response answers some request line; lines that are blank, not JSON or raise produce nothing |
| ToolServer.Serve | core/server.py:174-188 | the line loop writes exactly the responses `Output` specifies, in order |
| Text.StripEnds | core/server.py:141 | `strip(c)` returns a contiguous piece of its input that neither starts nor ends with c |
| Text.StripIdempotent | core/server.py:141 | `strip(c)` applied twice gives the same result as once |
| Text.StripFixed | core/server.py:141 | a string that neither starts nor ends with c is left alone by `strip(c)` |
| Text.StripLeftRemovesOnly | core/server.py:141 | `lstrip(c)` removes only leading copies of c |
| Text.StripRightRemovesOnly | core/server.py:141 | `rstrip(c)` removes only trailing copies of c |
| Text.StripLeft | core/server.py:141 | `lstrip(c)` returns a suffix of its input that does not start with c |
| Text.StripRight | core/server.py:141 | `rstrip(c)` returns a prefix of its input that does not end with c |
| DocServer.StripQuotesEnds | core/server.py:141 | the stripped path neither starts nor ends with a single quote |
| DocServer.ResolveChoice | core/server.py:142-144 | the URL-decoded path is used only when the stripped path is missing and the decoded one exists; the result exists exactly when either does |
| Text.LowerChars | core/server.py:149 | lower-casing works character by character and keeps the length |
| Text.Lower | core/server.py:66 | lower-casing keeps the length of the text |
| Text.LowerIdempotent | core/server.py:66 | lower-casing twice gives the same result as once |
| Text.RFind | core/server.py:149 | `rfind` returns -1 or an index of the text that holds the character sought |
| Text.RFindLast | core/server.py:149 | the index `rfind` returns holds the character sought, and no later index does |
| Text.ExtShape | core/server.py:149 | an extension is empty, or a suffix of the path that starts at its only dot and holds no separator |
| DocServer.ReaderFor | core/server.py:149-153 | the pdf reader is picked exactly for a ".pdf" extension in any case, the docx reader exactly for ".docx", and the text reader otherwise |
| DocServer.ReadDocumentCases | core/server.py:146-154 | a missing file is reported as text naming the path; an existing one is read by the reader its extension picks |
| DocServer.CallAnswer | core/server.py:135-167 | a `tools/call` request is answered under its id with the key and value `CallTool` computes, or raises as it does |
| DocServer.CallToolText | core/server.py:139-164 | a path tool given a string path answers that tool's text for the resolved path |
| DocServer.CallToolKey | core/server.py:135-167 | a call that does not raise answers under `result` or `error` |
| DocServer.ResponseEnvelope | core/server.py:115-172 | every response is a JSON-RPC 2.0 envelope that echoes the request's id |
| DocServer.NoResponseIff | core/server.py:169-170 | there is no response exactly for a request whose method is none of `initialize`, `tools/list` and `tools/call` |
| DocServer.InitializeAnswer | core/server.py:125-130 | `initialize` answers protocol version "2024-11-05", the tools capability and server info doc-loader 1.2 |
| DocServer.ListAnswer | core/server.py:90-133 | `tools/list` answers exactly `read_document` then `read_folder`, each requiring `path` |
| DocServer.UnknownToolError | core/server.py:166-167 | a call naming any other tool gets error -32601 "Method not found" and no result |
| DocServer.DocumentAnswer | core/server.py:139-154 | `read_document` answers, as a result and never as an error, the document's text for the resolved path |
| DocServer.FolderAnswer | core/server.py:156-164 | `read_folder` answers, as a result and never as an error, the folder's text for the resolved path |
| DocServer.MainAnswersRequests | core/server.py:174-188 | every line written is an envelope answering some request line with that request's id, and there are at most as many as input lines |
| Folder.Walk | core/server.py:59-61 | the walk yields the starting directory first, with its files |
| Folder.WalkVisitsVisible | core/server.py:54-61 | the walk visits each non-ignored directory exactly once and never descends into an ignored one |
| Folder.PicksKept | core/server.py:63-68 | each file taken from a directory is a wanted file of it, paired with its joined path |
| Folder.EligibleKept | core/server.py:63-68 | every file the walk offers as wanted has a wanted extension |
| Folder.FoundWanted | core/server.py:66-67 | every file `read_folder` considers has a `.md` or `.txt` extension, in any letter case |
| Folder.FirstMiss | core/server.py:71-74 | the position of the first wanted file that fails the size check lies within the range searched |
| Folder.FirstMissSpec | core/server.py:71-74 | every file before the first miss passes the size check (gathered text plus its content at most 50000 characters), and the miss itself fails it |
| Folder.FolderEmpty | core/server.py:83-84 | with no wanted file under an existing path, `read_folder` says none was found |
| Folder.FolderComplete | core/server.py:80-87 | when each of the first min(30, wanted) files passes the size check, all of them are read, in walk order, under the complete-run header |
| Folder.FolderTruncated | core/server.py:71-74 | when file s (one of the first 30) is the first to fail the size check, the files before it are read and the text ends with the limit notice |
| Folder.ReadAll | core/server.py:80-87 | a read through all of the first min(30, wanted) files gives the no-documents text when there are none, and the complete-run text otherwise |
| Folder.ReadStopped | core/server.py:71-74 | a read stopped by the size check at the next wanted file gives the truncated text over the files read before it |
| Folder.TakeFile | core/server.py:68-78 | a wanted file that fails the size check adds nothing; otherwise its header and text are appended and the count grows by one |
| Folder.ReadDirectory | core/server.py:63-78 | one directory's files are taken in order until 30 are read or a wanted file fails the size check, which stops the whole read |
| Folder.Gather | core/server.py:59-81 | the walk loop gathers, in order, a prefix of the wanted files, each passing the size check; it stops at 30 files, at the first file that fails the check, or at the end |
| Folder.ReadFolder | core/server.py:46-87 | the text returned is exactly the specification `FolderText`: missing directory, no documents, complete run, or run truncated by the size limit |
| Text.NatToString | core/server.py:86 | the file count is printed as decimal digits without a leading zero, and the digits denote the count (`DigitsValue`) |
| FileServer.CallAnswer | legacy_agents/mcp_server.py:83-94 | a `tools/call` request is answered under its id with what `CallTool` computes, or raises as it does |
| FileServer.CallToolKey | legacy_agents/mcp_server.py:83-94 | a call that does not raise answers under `result` or `error` |
| FileServer.ResponseEnvelope | legacy_agents/mcp_server.py:53-100 | every response is a JSON-RPC 2.0 envelope that echoes the request's id |
| FileServer.NoResponseIff | legacy_agents/mcp_server.py:96-98 | there is no response exactly for a request whose method is none of the three the server knows |
| FileServer.InitializeAnswer | legacy_agents/mcp_server.py:64-74 | `initialize` answers the protocol version, the tools capability and server info my-local-files 1.0 |
| FileServer.ListAnswer | legacy_agents/mcp_server.py:29-51 | `tools/list` answers exactly `list_files` then `read_file`; only `filename` is required |
| FileServer.UnknownToolError | legacy_agents/mcp_server.py:93-94 | a call naming any other tool gets error -32601 and no result |
| FileServer.MissingFilename | legacy_agents/mcp_server.py:17-20 | `read_file` without a truthy filename answers the "Missing filename" error result, whatever the file system holds |
| FileServer.ReadFileAnswer | legacy_agents/mcp_server.py:17-26 | `read_file` with a filename answers the file's contents, or the read's exception as an error result |
| FileServer.ListFilesAnswer | legacy_agents/mcp_server.py:9-15 | `list_files` lists `path`, or "." when none is given; a failed listing is an error result |
| FileServer.MainAnswersRequests | legacy_agents/mcp_server.py:102-112 | every line written is an envelope answering some request line, with that request's id, and there is at most one per input line |
| Skills.SchemaDescribes | legacy_agents/v3_skills_agent.py:21-51 | a descriptor built from a property table and a required list advertises exactly the function's parameters and requires those without a default |
| Skills.RunRound | legacy_agents/v3_skills_agent.py:91-113 | the known calls run in order and their texts are collected; unknown names are skipped; the first call that raises ends the round |
| Skills.RoundSpec | legacy_agents/v3_skills_agent.py:91-113 | a round completes exactly when no known call raises, and then has one result per known call, in order; otherwise it holds the results of the calls before the first that raised |
| Skills.UnknownOnly | legacy_agents/v3_skills_agent.py:112-113 | a round of unknown names appends nothing |
| Skills.RaisedStops | legacy_agents/v3_skills_agent.py:92-103 | once a call has raised, the rest of the calls change nothing |
| Skills.TurnOpens | legacy_agents/v3_skills_agent.py:67-79 | the user message is appended before the first request, which carries it and the schema; at most two requests go out |
| Skills.KnownMessages | legacy_agents/v3_skills_agent.py:98-111 | after a completed round, the tool message at each position answers the known call at that position |
| Skills.TurnToolRound | legacy_agents/v3_skills_agent.py:87-133 | a completed round appends the assistant message, one tool message per known call in request order, and the streamed reply |
| Skills.TurnCompleted | legacy_agents/v3_skills_agent.py:87-133 | the full history after a round that completed and a follow-up that streamed |
| Skills.TurnRaises | legacy_agents/v3_skills_agent.py:98-146 | a call that raises ends the turn after the tool messages of the calls before it, and no follow-up is sent |
| Skills.FirstRaise | legacy_agents/v3_skills_agent.py:92-103 | no call before the end of a completed prefix raises |
| Skills.TurnStopped | legacy_agents/v3_skills_agent.py:145-146 | the full history after a round that raised |
| Skills.TurnUnknownSkipped | legacy_agents/v3_skills_agent.py:112-113 | when every requested name is unknown, the round appends no tool message at all |
| Skills.ChatTurn | legacy_agents/v3_skills_agent.py:67-143 | the turn run step by step on a local history yields exactly the history and requests of the specification `Turn` |
| V3Skills.SchemaMatchesSkills | legacy_agents/v3_skills_agent.py:8-56 | the schema advertises exactly the two skills, each with its parameters |
| V3Skills.NoArgsIsEmptyKeywords | legacy_agents/v3_skills_agent.py:100-103 | calling with no arguments is calling with an empty keyword set, so a skill runs exactly when its arguments bind |
| V3Skills.PlainReply | legacy_agents/v3_skills_agent.py:136-143 | an empty plain reply appends nothing after the user message; a non-empty one is appended |
| V3Skills.FollowUpWithoutSchema | legacy_agents/v3_skills_agent.py:115-124 | the follow-up after a completed round is streamed and carries no schema |
| V3Skills.SkillsAgent.constructor | legacy_agents/v3_skills_agent.py:59-65 | the history is the system prompt alone |
| V3Skills.SkillsAgent.Chat | legacy_agents/v3_skills_agent.py:67-149 | the history and requests after the turn are exactly those of `Turn` |
| V4Custom.SchemaNames | legacy_agents/v4_custom_agent.py:59-142 | the schema advertises exactly the six tools of the table |
| V4Custom.SchemaMatchesTools | legacy_agents/v4_custom_agent.py:59-133 | each descriptor advertises the parameters of the tool it names and requires those without a default |
| V4Custom.ToolDescribes0 | legacy_agents/v4_custom_agent.py:60-67 | the `get_current_time` descriptor matches a function without parameters |
| V4Custom.ToolDescribes1 | legacy_agents/v4_custom_agent.py:68-79 | the `calculate` descriptor matches its required `expression` |
| V4Custom.ToolDescribes2 | legacy_agents/v4_custom_agent.py:80-91 | the `list_files` descriptor advertises `path` and requires nothing |
| V4Custom.ToolDescribes3 | legacy_agents/v4_custom_agent.py:92-103 | the `read_file` descriptor requires `filename` |
| V4Custom.ToolDescribes4 | legacy_agents/v4_custom_agent.py:104-118 | the `write_file` descriptor requires `filename` and `content` |
| V4Custom.ToolDescribes5 | legacy_agents/v4_custom_agent.py:119-132 | the `delete_file` descriptor requires `filename` |
| V4Custom.Binding | legacy_agents/v4_custom_agent.py:21-56 | `list_files` runs with no arguments or with `path` alone; `read_file` and `delete_file` raise unless given exactly `filename`; `write_file` runs exactly with `filename` and `content` |
| V4Custom.PlainReply | legacy_agents/v4_custom_agent.py:194-197 | a plain reply is appended as it is, even when empty, after one request |
| V4Custom.FollowUpWithSchema | legacy_agents/v4_custom_agent.py:180-192 | the follow-up after a completed round is streamed and carries the same schema |
| V4Custom.CustomAgent.constructor | legacy_agents/v4_custom_agent.py:145-149 | the history starts empty |
| V4Custom.CustomAgent.Chat | legacy_agents/v4_custom_agent.py:151-200 | the history and requests after the turn are exactly those of `Turn` |
| V5Mcp.MCPAgent.constructor | legacy_agents/v5_mcp_agent.py:10-26 | the history starts empty; nothing is written or read; the tools map is empty |
| V5Mcp.MCPAgent.SendRpc | legacy_agents/v5_mcp_agent.py:29-47 | one request line is written and one line is read; the end of the stream gives None, and text that is not JSON raises |
| V5Mcp.MCPAgent.Initialize | legacy_agents/v5_mcp_agent.py:49-64 | what it writes, reads and registers is exactly what the specification `Setting` gives, including the exception it raises |
| V5Mcp.SettingSpec | legacy_agents/v5_mcp_agent.py:49-64 | `initialize` is sent with the client info and protocol version, then `tools/list` without params; a server that answers at most one line leaves no tools map; a listing maps each name to its last descriptor, every one described |
| V5Mcp.PutDescribed | legacy_agents/v5_mcp_agent.py:62-64 | registering a described descriptor keeps every entry described |
| V5Mcp.ListedRegisters | legacy_agents/v5_mcp_agent.py:62-64 | listing fails exactly when the core client's registration fails or some descriptor has no description; otherwise it builds the same map |
| V5Mcp.ConversionFails | legacy_agents/v5_mcp_agent.py:66-78 | once every entry is described, conversion raises exactly when some entry has no input schema |
| V5Mcp.NothingReadsFailed | legacy_agents/v5_mcp_agent.py:114-118 | the end of the stream, or a result without content, reads as "执行失败" |
| V5Mcp.TextReads | legacy_agents/v5_mcp_agent.py:115-118 | a text item reads as its text, whether or not the server flags it as an error |
| V5Mcp.ErrorReads | legacy_agents/v5_mcp_agent.py:119-120 | an error response reads as "Error: " followed by its message |
| V5Mcp.ForwardCalls | legacy_agents/v5_mcp_agent.py:108-111 | the forwarded request is a `tools/call` of the call's tool with its arguments, under id 1 |
| V5Mcp.ListingReads | legacy_agents/v5_mcp_agent.py:113-121 | the file server's answer to a `list_files` call reads without raising |
| V5Mcp.ReadingReads | legacy_agents/v5_mcp_agent.py:113-121 | the file server's answer to a `read_file` call reads without raising |
| V5Mcp.UnknownReads | legacy_agents/v5_mcp_agent.py:119-120 | the file server's answer to a call of a tool it lacks reads as "Error: Method not found" |
| V5Mcp.FileServerAnswersRead | legacy_agents/v5_mcp_agent.py:108-121 | whatever tool is forwarded and whatever the file system does, the file server answers and the answer reads without raising |
| V5Mcp.RoundForwards | legacy_agents/v5_mcp_agent.py:102-123 | every call reaches the server in order and reads one line; one tool message per call that did not raise; all calls are forwarded when none raised |
| V5Mcp.RoundReads | legacy_agents/v5_mcp_agent.py:113-123 | the k-th tool message is the reading of the k-th line the server wrote during the round |
| V5Mcp.RaisedStops | legacy_agents/v5_mcp_agent.py:102-123 | once a call has raised, the rest of the calls change nothing |
| V5Mcp.TurnOpens | legacy_agents/v5_mcp_agent.py:80-97 | the user message is appended; the turn raises exactly when the conversion fails, and then nothing is posted or written; otherwise the first post carries the history with the full schema |
| V5Mcp.TurnPlain | legacy_agents/v5_mcp_agent.py:139-142 | a reply without tool calls is appended as it came, even when empty |
| V5Mcp.TurnForwards | legacy_agents/v5_mcp_agent.py:100-137 | a reply with tool calls forwards them in order, each leaving its tool message after the assistant message; when none raised, the streamed follow-up keeps the schema |
| V5Mcp.MCPAgent.CallTool | legacy_agents/v5_mcp_agent.py:108-123 | one call is forwarded and the tool message is its reading, or the exception it raises |
| V5Mcp.MCPAgent.RunTools | legacy_agents/v5_mcp_agent.py:102-123 | the state after the loop is exactly that of the specification `Round` |
| V5Mcp.MCPAgent.Answer | legacy_agents/v5_mcp_agent.py:93-145 | the state after the first post, the forwarded calls and the follow-up is exactly that of `Respond` |
| V5Mcp.MCPAgent.Chat | legacy_agents/v5_mcp_agent.py:80-145 | the state after the turn is exactly that of `Turn`; it raises exactly when some map entry has no input schema |
| V6Rag.SaveReplyConfirms | legacy_agents/v6_rag_agent.py:11-17 | the save reply confirms exactly when the add succeeded, and the confirmation quotes the content |
| V6Rag.QueryReplyLists | legacy_agents/v6_rag_agent.py:19-27 | the sentinel comes back exactly when nothing was found; otherwise every memory found is listed |
| V6Rag.ForcedContextHolds | legacy_agents/v6_rag_agent.py:109-117 | the injected context holds the whole retrieval and the whole question |
| V6Rag.SchemaNames | legacy_agents/v6_rag_agent.py:33-76 | the schema advertises exactly the three tools of the table |
| V6Rag.SchemaMatchesTools | legacy_agents/v6_rag_agent.py:33-70 | each descriptor advertises the parameters of the tool it names |
| V6Rag.RagAgent.constructor | legacy_agents/v6_rag_agent.py:79-96 | the history is the system prompt alone |
| V6Rag.RagAgent.Save | legacy_agents/v6_rag_agent.py:11-17 | one add to the default collection; the reply confirms it or carries the exception |
| V6Rag.RagAgent.Query | legacy_agents/v6_rag_agent.py:19-27 | the reply lists the store's top three memories, or is the sentinel, or carries the failure; nothing is stored |
| V6Rag.RoundSpec | legacy_agents/v6_rag_agent.py:137-145 | a round completes exactly when every known call's arguments bind, and then has one tool message per known call |
| V6Rag.RoundStores | legacy_agents/v6_rag_agent.py:137-144 | when no add fails, a completed round stores exactly the contents of the save calls, in order |
| V6Rag.QueriesStoreNothing | legacy_agents/v6_rag_agent.py:19-27 | calls that save nothing leave the collection and the add script alone |
| V6Rag.RaisedStops | legacy_agents/v6_rag_agent.py:137-145 | once a call has raised, the rest of the calls change nothing |
| V6Rag.TurnRecalls | legacy_agents/v6_rag_agent.py:98-119 | a question with a keyword gets the retrieval injected right after it, holding every memory found; any other question reaches the model alone |
| V6Rag.TurnPlain | legacy_agents/v6_rag_agent.py:161-164 | a plain reply is appended as it is, even when empty, and no tool runs |
| V6Rag.TurnFollowUp | legacy_agents/v6_rag_agent.py:147-159 | after a completed round the follow-up is streamed and keeps the schema; when no add fails, the collection gains exactly the saved contents |
| V6Rag.RagAgent.RunTools | legacy_agents/v6_rag_agent.py:137-145 | the state after the loop is exactly that of the specification `Round` |
| V6Rag.RagAgent.Open | legacy_agents/v6_rag_agent.py:98-119 | the user message, then the injected retrieval when the input has a keyword; one query outcome is consumed exactly when it does, and nothing is stored |
| V6Rag.RagAgent.Answer | legacy_agents/v6_rag_agent.py:121-167 | the state after the first request, the tool round and the streamed follow-up is exactly that of `Respond` |
| V6Rag.RagAgent.Chat | legacy_agents/v6_rag_agent.py:98-167 | the state after the turn is exactly that of `Turn` |
| V7Knowledge.LocalSchemaMatches | legacy_agents/v7_mcp_rag_agent.py:100-122 | the local descriptors are exactly the local tools, each with its parameters |
| V7Knowledge.SavingStoresWhole | legacy_agents/v7_mcp_rag_agent.py:14-29 | with no add failing, the whole content is stored in pieces of at most 500 characters that concatenate back to it; an add that fails at once stores nothing and its exception is the reply |
| V7Knowledge.LongSaveCounts | legacy_agents/v7_mcp_rag_agent.py:19-24 | the confirmation for a long content counts its pieces, one per started 500 characters |
| V7Knowledge.LearnSpec | legacy_agents/v7_mcp_rag_agent.py:175-186 | only a reading tool's text is saved, and a short text containing "错误" is kept as it is; otherwise, with no add failing, the collection gains the whole text and the tool message is the note |
| V7Knowledge.RoundSpec | legacy_agents/v7_mcp_rag_agent.py:164-190 | every call of a completed round leaves one tool message (an unknown name leaves ""); exactly the listed server tools that are not local reach the server, once each, in order |
| V7Knowledge.UnknownCall | legacy_agents/v7_mcp_rag_agent.py:169-173 | a call that is neither local, nor listed by the server, nor a reading tool leaves an empty tool message and touches nothing |
| V7Knowledge.RaisedStops | legacy_agents/v7_mcp_rag_agent.py:164-190 | once a call has raised, the rest of the calls change nothing |
| V7Knowledge.TurnConsults | legacy_agents/v7_mcp_rag_agent.py:141-147 | a how/what question gets the retrieval injected right after it; any other question reaches the model alone |
| V7Knowledge.TurnFollowUp | legacy_agents/v7_mcp_rag_agent.py:192-204 | after a completed round, every call has its tool message and the streamed follow-up keeps the schema |
| V7Knowledge.KnowledgeAgent.constructor | legacy_agents/v7_mcp_rag_agent.py:125-139 | the history is the system prompt alone, with the given schema and collaborators |
| V7Knowledge.KnowledgeAgent.Create | legacy_agents/v7_mcp_rag_agent.py:91-123 | it raises exactly when the server's descriptors fail to convert; otherwise the schema is the local tools followed by the server's tools |
| V7Knowledge.KnowledgeAgent.Save | legacy_agents/v7_mcp_rag_agent.py:14-29 | the pieces are added in order; the first add that raises stops it and becomes the reply |
| V7Knowledge.KnowledgeAgent.Invoke | legacy_agents/v7_mcp_rag_agent.py:169-173 | a local tool runs first; a tool listed by the server is forwarded; any other yields "" |
| V7Knowledge.KnowledgeAgent.RunCall | legacy_agents/v7_mcp_rag_agent.py:169-188 | one call is routed, then the auto-learning step applies to it |
| V7Knowledge.KnowledgeAgent.RunTools | legacy_agents/v7_mcp_rag_agent.py:164-190 | the state after the loop is exactly that of the specification `Round` |
| V7Knowledge.KnowledgeAgent.Open | legacy_agents/v7_mcp_rag_agent.py:141-147 | the user message, and the retrieval when the input asks how or what; one query outcome is consumed exactly when it does, and nothing is stored |
| V7Knowledge.KnowledgeAgent.Answer | legacy_agents/v7_mcp_rag_agent.py:149-210 | the state after the first request, the tool round and the streamed follow-up is exactly that of `Respond` |
| V7Knowledge.KnowledgeAgent.Chat | legacy_agents/v7_mcp_rag_agent.py:141-210 | the state after the turn is exactly that of `Turn` |
| V8Multi.DocServerNames | core/server.py:90-113 | the document server lists `read_document`, then `read_folder` |
| V8Multi.RosterTools | legacy_agents/v8_multi_agent.py:193-218 | the initial specialist exists; every tool a specialist may use is listed by the document server, and its result is saved to the specialist's collection |
| V8Multi.RosterCollections | legacy_agents/v8_multi_agent.py:193-218 | the specialists keep pairwise distinct collections |
| V8Multi.Create | legacy_agents/v8_multi_agent.py:59-125 | it raises exactly when there is a client, a non-empty allow list, and conversion fails; otherwise the schema is exactly the two memory tools followed by the allowed server tools, in the server's order |
| V8Multi.Chat | legacy_agents/v8_multi_agent.py:127-185 | the reply, history, posted requests and store and server state are those of the core `Turn` with no task context; only the specialist's collection changes |
| V8Multi.SpecialistOpens | legacy_agents/v8_multi_agent.py:127-185 | a specialist's turn always opens with the user message and the retrieval from its collection, injected unless it reports nothing; the first request carries that history and the schema; the turn ends with the reply as the last message or "发生错误" |

## Left out

- JSON text: `json.dumps`/`json.loads` are not modelled as text. A pipe line is its decoded value, a blank line, or text that is not JSON.
- Tool-call argument values are strings (`map<string, string>`). Non-string argument values, and Python's formatting of them, are not modelled.
- Dynamic typing corners: where the source would index or format a value of an unexpected type, the model raises. This covers a non-string tool `name`, error `message` or item `text` in the v5 parsing and in the clients' readers.
- `Text.Lower` lower-cases ASCII letters only. Extensions outside ASCII are compared as they are.
- `os.path.join` and `os.path.splitext` follow POSIX separators only.
- HTTP itself is not modelled: the URL, the model name, `tool_choice`, and `raise_for_status` (a failed post is the scripted `Down` reply).
- Subprocess spawning and `close`/`terminate` are not modelled. The server's output is given in advance as `incoming`.
- ChromaDB embeddings and ranking are not modelled. Query answers are scripted hit lists, capped at `n_results`.
- Memory.Store.Query: the hits are the next scripted outcome and are not tied to the texts stored in the queried collection. The shortcut that returns nothing, without querying, from an empty collection (legacy_agents/memory_system.py:69-71) is therefore not modelled separately.
- Agent.GenericAgent.QueryMemory: for the same reason, its hits are not shown to come from the agent's collection.
- Timestamps, metadata and generated ids of stored memories are not modelled; only the texts per collection are.
- The PDF, DOCX and text readers, `urllib.parse.unquote`, `os.path.exists` and `os.walk`'s listing are abstract functions of `Folder.Disk` and `FileServer.Host`.
- The clock (`get_current_time`) and `eval` (`calculate`) are abstract. In v4 the file tools are a function of the call alone, so file-system state carried between calls is not modelled.
- A message whose `content` is missing or `null` is modelled with content "".
- The interactive loops are not modelled: `main()` of v3–v8, `main.py`, and v8's `switch`/`exit` handling. Of v8's `main`, only the roster and the initial choice "3" are modelled.
- The v0–v2 agents, `scripts/check_env.py` and the memory-system wrappers are not part of this model. They lie outside the kernel.
- v5 prints each tool's description while initialising; only the presence of a description (the `KeyError` when one is missing) is modelled.
- The `id` of a response is not checked by any client, and the model does not check it either.
- Folder.Gather: the size check compares the gathered text plus the next file's content against 50000, as the source does; the header added with each file is not counted, so the total may exceed 50000.
- DocServer.StripQuotesEnds: this covers the single quote only. After the second strip a double quote may reappear at an end (`"'a'"` becomes `'a'` then `a`, while `'"a"'` keeps its double quotes); the model computes the same result as Python.
- Skills.ChatTurn: the v3/v4 turn is built on a local history and assigned at the end. Python appends in place, and the only difference is when the appends become visible.
