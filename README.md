# Asterism agent core, modelled in Dafny

Asterism is a Python agent framework. A user request goes to a planner, which writes a plan of tasks. An executor runs the tasks, either as Model Context Protocol (MCP) tool calls or as LLM calls. An evaluator then decides whether to continue, re-plan or finalise. Tool calls go through MCP servers that are started and reached over stdio, Server-Sent Events or streamed HTTP. The LLM is reached through a router that falls back from model to model. An older workflow (under `src/agent`) works milestone by milestone with an architect, an executor and an auditor.

This project models the deterministic core of that system in Dafny:

- **MCP tool layer.**
  - The transports: `Stdio`, `Sse` and `HttpStream` are classes over scripted inputs. `Transports` is the kind-dispatching union and its factory.
  - The server configuration (`McpConfig`).
  - The executor that caches transports, tool lists and schemas (`McpExecutor`).
  - Stdio requests follow JSON-RPC 2.0 (section 4; notifications section 4.1). The handshake follows the MCP 2024-11-05 lifecycle.
- **Agent decision logic.**
  - The state record and its copy-and-update transitions (`AgentState`, `StateUtils`).
  - The extractors (`ContextExtractors`) and plan analysis (`PlanAnalyzer`).
  - Evaluator routing (`EvaluatorRouter`, `EvaluatorNode`, `EvaluatorUtils`).
  - Both executor nodes (`ExecutorNode`, `TaskExecutor`, `ExecutorUtils`) and the execution trace (`TraceBuilder`).
  - Plan validation and tool-context formatting (`PlannerService`, `PlannerUtils`).
  - The agent facade (`Agent`).
- **LLM layer.**
  - The provider router and its fallback chain (`ProviderRouter`).
  - The shared message building (`LlmBase`) and the all-providers-failed error (`LlmErrors`).
- **Configuration and API.**
  - The application configuration with `env.` substitution and the shared instance (`AppConfig`).
  - The bearer-token check of the HTTP API, after section 2.1 of RFC 6750 (`ApiAuth`).
- **Milestone workflow.**
  - The workflow state and graph edges (`Workflow`, `WorkflowGraph`), the auditor (`Auditor`) and the tool-running executor (`MilestoneExecutor`).
  - Skill loading (`SkillLoader`), the tool and history formatters (`ToolParser`) and the workspace tree (`WorkspaceTree`).
- **Two bundled MCP servers.**
  - The code-parser's complexity analysis (`CodeParser`).
  - The stdio local-time server's JSON-RPC loop (`LocaltimeServer`). Its error codes -32601 and -32603 follow section 5.1 of JSON-RPC 2.0.

Everything that is I/O or foreign becomes a parameter:

- Python's `str` of a non-string value is a `render` function; a string's `str` is the string itself (`Schemas.PyStr`).
- A dict's iteration order is an `order` function.
- `json.loads`, `json.dumps`, `ast.literal_eval` and `yaml.safe_load` are partial functions passed in.
- Process pipes and HTTP responses are scripted inputs.
- LLM and tool runs are oracles that return their results.
- The environment is a map.
- The clock is a function of the line being served.

Shared pieces live in `Wrappers` (Option/Result), `Json` (the JSON value type), `Strs` (Python string helpers) and `Schemas` (the plan and decision records).

## Model

| member | source | states |
|---|---|---|
| Stdio.Request | src/agent/mcp/transport_executor/stdio.py:96-99 | a JSON-RPC 2.0 request carrying the given id; "params" is present exactly when params are given, and then holds them |
| Stdio.InitRequest | src/agent/mcp/transport_executor/stdio.py:51-62 | the `initialize` request is an ordinary request with the given id and the protocol-revision 2024-11-05 params |
| Stdio.InitializedNotification | src/agent/mcp/transport_executor/stdio.py:73-79 | the `notifications/initialized` message is a well-formed message with no id |
| Stdio.InitReply | src/agent/mcp/transport_executor/stdio.py:40-44 | the handshake reply is accepted iff it parses as JSON and holds no "error" key; an "error" reply raises "MCP initialization failed: " and the `str` of the error value |
| Stdio.ParseToolOutput | src/agent/mcp/transport_executor/stdio.py:141-153 | strict JSON wins; otherwise the literal parse; it fails iff both fail, with "Could not parse tool output: " and the text |
| Stdio.StartFailure | src/agent/mcp/transport_executor/stdio.py:31-32 | every start failure is reported under the prefix "Failed to start MCP server: " |
| Stdio.StdioTransport.constructor | src/agent/mcp/transport_executor/stdio.py:12-15 | a fresh transport has no process, request id 0 and is not initialised |
| Stdio.StdioTransport.WriteMessage | src/agent/mcp/transport_executor/stdio.py:64-67 | exactly one line, the serialised message plus "\n", is appended to the child's input; nothing else changes |
| Stdio.StdioTransport.ReadLine | src/agent/mcp/transport_executor/stdio.py:69-71 | the next output line of the child is consumed ("" at end of output); nothing else changes |
| Stdio.StdioTransport.Start | src/agent/mcp/transport_executor/stdio.py:17-32 | a failed spawn changes nothing and reports "Failed to start MCP server"; otherwise the handshake runs and any failure carries the same prefix |
| Stdio.ToolNames | src/agent/mcp/transport_executor/stdio.py:167-170 | an unreadable reply fails; an empty "tools" list, dict or string gives no names; otherwise one name per listed tool, in server order, each the tool's "name" |
| Stdio.NamesOf | src/agent/mcp/transport_executor/stdio.py:170 | succeeds iff every tool has a "name", and then gives one name per tool, in order |
| Stdio.StdioTransport.IsAlive | src/agent/mcp/transport_executor/stdio.py:172-174 | alive only with a process, and then exactly while it runs |
| Stdio.StdioTransport.Initialize | src/agent/mcp/transport_executor/stdio.py:34-49 | the counter rises by one; the initialize request uses it; initialized becomes true only on an accepted reply, and only then is the notification sent after it |
| Stdio.StdioTransport.FinishHandshake | src/agent/mcp/transport_executor/stdio.py:46-49 | initialized is set and exactly the id-less `notifications/initialized` message is appended; process, counter and signals are untouched |
| Stdio.StdioTransport.SendInitRequest | src/agent/mcp/transport_executor/stdio.py:36-41 | the initialize request is sent under the incremented id and one reply line is read |
| Stdio.StdioTransport.SendRequest | src/agent/mcp/transport_executor/stdio.py:91-106 | a dead process is refused before the counter moves; otherwise the id rises by one, exactly that request is sent and the reply is parsed or "Request failed" |
| Stdio.StdioTransport.ExtractTextContent | src/agent/mcp/transport_executor/stdio.py:133-139 | the loop's result equals the text of the content blocks concatenated left to right |
| Stdio.StdioTransport.ExecuteTool | src/agent/mcp/transport_executor/stdio.py:108-131 | not initialised or not alive: refused with nothing sent; otherwise one `tools/call` request with the next id; an unparsable reply line raises "Request failed: " and the decoder's text, an "error" reply raises "Tool execution failed: " and the `str` of the error value, else the result is the reply's parsed text |
| Stdio.StdioTransport.ListTools | src/agent/mcp/transport_executor/stdio.py:155-170 | not initialised: refused with nothing sent; initialised but the process has exited: "Server process is not running", nothing sent and the id unchanged; otherwise one `tools/list` request without params with the next id, an unparsable reply line raises "Request failed: " and the decoder's text, an "error" reply raises "Failed to list tools: " and the `str` of the error value, a "tools" value that is not a list raises Python's own text, else the names of the listed tools in server order |
| Stdio.StdioTransport.GetToolSchemas | src/agent/mcp/transport_executor/stdio.py:155-170 | a stand-in for the `get_tool_schemas` of the stdio transport that `asterism/mcp/executor.py:152` calls, which is not part of this model: the same refusals and request as `list_tools` (not initialised; process exited; unparsable reply; "error" reply), answering the reply's whole "tools" list instead of the names |
| Stdio.StdioTransport.Stop | src/agent/mcp/transport_executor/stdio.py:81-89 | only a running child is signalled: terminate, then kill when the wait expires; afterwards not alive and not initialised; the counter and sent lines are untouched |
| Stdio.TextOfFails | src/agent/mcp/transport_executor/stdio.py:136-138 | the first content block that raises decides the failure of the whole extraction |
| Stdio.EchoRoundTrip | src/agent/mcp/transport_executor/stdio.py:118-153 | a reply whose single text block is the serialised form of a value yields that value back |
| Stdio.NonTextBlocksIgnored | src/agent/mcp/transport_executor/stdio.py:136-138 | blocks whose type is not "text" add nothing to the extracted text |
| Stdio.TextBlocksConcatenate | src/agent/mcp/transport_executor/stdio.py:133-139 | text blocks are concatenated in order |
| Stdio.NamesInServerOrder | src/agent/mcp/transport_executor/stdio.py:167-170 | when every tool has a name, the k-th listed name is the k-th tool's name |
| Stdio.NamelessToolFails | src/agent/mcp/transport_executor/stdio.py:170 | one tool without a "name" makes listing raise |
| Web.ToolsOfReply | src/agent/mcp/transport_executor/sse.py:87-95 | listing yields [] for a failed reply or an exception, and the "tools" of a successful reply's result otherwise |
| Sse.NextEvent | src/agent/mcp/transport_executor/sse.py:52-59 | advancing the generator: a yielded event leaves a shorter, unfinished stream; anything else finishes it; a finished generator yields nothing more |
| Sse.SseTransport.constructor | src/agent/mcp/transport_executor/sse.py:13-17 | a fresh transport has no session, no base URL and no event stream |
| Sse.SseTransport.Start | src/agent/mcp/transport_executor/sse.py:19-36 | no args: ValueError and nothing changes; otherwise session and base URL are set (even when the health check fails); only a healthy server gets an unstarted event stream; the error texts are the source's |
| Sse.SseTransport.IsAlive | src/agent/mcp/transport_executor/sse.py:97-99 | alive exactly when both a session and a base URL are set |
| Sse.SseTransport.Stop | src/agent/mcp/transport_executor/sse.py:38-50 | session, base URL and stream are cleared, so the transport is no longer alive; nothing is posted |
| Sse.SseTransport.ExecuteTool | src/agent/mcp/transport_executor/sse.py:61-85 | not alive: RuntimeError, nothing sent; otherwise exactly one POST to <base>/tools/<tool>; a request exception or non-200 status is a failed reply; with no stream iterating None raises; else the answer is the first streamed event for the tool |
| Sse.SseTransport.ListTools | src/agent/mcp/transport_executor/sse.py:87-95 | not alive: [] with nothing sent; otherwise one POST to <base>/tools/_list_tools with no body fields, and the answer is the "tools" of the `execute_tool` reply (`SseReply`) when it succeeded, else []; an unreachable server gives [] |
| Sse.FirstMatchWins | src/agent/mcp/transport_executor/sse.py:78-80 | the first event whose "tool" names the call answers it with its "result"; earlier events are consumed and lost and the stream resumes right after the match |
| Sse.NoMatchDrains | src/agent/mcp/transport_executor/sse.py:78-82 | with no matching event the stream is drained and the reply is "No response received from server" |
| HttpStream.HttpStreamTransport.constructor | src/agent/mcp/transport_executor/http_stream.py:11-14 | a fresh transport has no session and no base URL |
| HttpStream.HttpStreamTransport.Start | src/agent/mcp/transport_executor/http_stream.py:16-30 | no args: ValueError and nothing changes; otherwise session and base URL are set even when the health check fails; the error texts are the source's |
| HttpStream.HttpStreamTransport.IsAlive | src/agent/mcp/transport_executor/http_stream.py:76-78 | alive exactly when both a session and a base URL are set |
| HttpStream.HttpStreamTransport.Stop | src/agent/mcp/transport_executor/http_stream.py:32-37 | session and base URL are cleared and the transport is no longer alive |
| HttpStream.HttpStreamTransport.ExecuteTool | src/agent/mcp/transport_executor/http_stream.py:39-64 | not alive: RuntimeError, nothing sent; otherwise exactly one POST and the reply `PostReply` of the server's answer: an exception or non-200 status is a failed reply; a 200 reply is the `dict.update` merge of its streamed JSON lines, and a line that does not parse or that `dict.update` refuses raises |
| HttpStream.UpdateArg | src/agent/mcp/transport_executor/http_stream.py:59 | what `dict.update` does with a parsed line: an object is copied in, a list is read as pairs, the empty string adds nothing, a non-empty string raises "dictionary update sequence element #0 has length 1; 2 is required", and a number, boolean or null raises "'<type>' object is not iterable" |
| HttpStream.PairsLaterWins | src/agent/mcp/transport_executor/http_stream.py:59 | a list whose every element is a pair is accepted; the result holds exactly the pairs' keys, each with the value of the last pair naming it (so `[]` adds nothing and `[["k", 1]]` adds k) |
| HttpStream.PairsKeys | src/agent/mcp/transport_executor/http_stream.py:59 | a list of pairs adds exactly the pairs' keys |
| HttpStream.PairsKey | src/agent/mcp/transport_executor/http_stream.py:59 | one key is added by a list of pairs exactly when some pair names it |
| HttpStream.PairsAccepted | src/agent/mcp/transport_executor/http_stream.py:59 | a list of pairs is accepted |
| HttpStream.PairsLast | src/agent/mcp/transport_executor/http_stream.py:59 | a pair whose key no later pair repeats keeps its value |
| HttpStream.PairsFirstFailure | src/agent/mcp/transport_executor/http_stream.py:59 | the first element that is not a pair decides the error: a wrong length gives "dictionary update sequence element #k has length L; 2 is required", a scalar "cannot convert dictionary update sequence element #k to a sequence", a list or object key "unhashable type" |
| HttpStream.HttpStreamTransport.ListTools | src/agent/mcp/transport_executor/http_stream.py:66-74 | not alive: [] with nothing sent; otherwise one POST to <base>/tools/_list_tools, and the answer is the "tools" of the `execute_tool` reply (`PostReply`) when it succeeded, else []; an unreachable server gives [] |
| HttpStream.MergeStream | src/agent/mcp/transport_executor/http_stream.py:55-59 | the line loop computes the merge of the reply's streamed lines, stopping with the first line's parse error |
| HttpStream.MergeFailurePersists | src/agent/mcp/transport_executor/http_stream.py:57-59 | once a line fails to merge, the whole reply fails with that line's error |
| HttpStream.MergeLaterWins | src/agent/mcp/transport_executor/http_stream.py:56-61 | when every line merges, the result has exactly the keys every line writes, and each key holds the value from the last line that writes it |
| Transports.KindOf | src/agent/mcp/transport_executor/__init__.py:13-20 | exactly "stdio", "sse" and "http_stream" are accepted, each naming its own kind; any other name gives "Unsupported transport type: " and the name |
| Transports.CreateTransport | src/agent/mcp/transport_executor/__init__.py:11-20 | succeeds iff the kind name is known; returns a fresh, unstarted, not-alive instance of the named class; an unknown name raises the ValueError text |
| Transports.Start | src/agent/mcp/transport_executor/base.py:8-16 | an unstarted transport answers and ends in the state its kind's `start` prescribes (`StartStep`): stdio needs a command and a spawnable child that answers the initialize request; SSE and HTTP need a URL argument and a healthy server; the transport stays well-formed |
| Transports.ExecuteTool | src/agent/mcp/transport_executor/base.py:23-34 | dispatches `execute_tool` to the chosen transport class and passes its answer through: the stdio refusals and reply, the SSE and HTTP "not connected" refusals and their replies; the tool name and keyword arguments are what the transport sends, recorded in its state (`CallStep`): a stdio "tools/call" request with `name` and `arguments` under the next id, or a POST of the arguments to "<base>/tools/<tool>" |
| Transports.ListTools | src/agent/mcp/transport_executor/base.py:36-43 | dispatches `list_tools` and passes the answer through: the stdio refusals and tool names (as a list), and for the HTTP transports always an answer, [] when not alive, else the "tools" of their reply |
| Transports.GetToolSchemas | asterism/mcp/executor.py:152 | the SSE and HTTP-streaming transports have no `get_tool_schemas`, so the call raises the AttributeError text; the stdio stand-in's refusals and answer are passed through |
| Transports.Stop | src/agent/mcp/transport_executor/base.py:18-21 | after `stop` no transport is alive |
| Transports.IsAlive | src/agent/mcp/transport_executor/base.py:45-52 | each transport answers from its own state (the stdio child running, or the HTTP session and URL set); a transport as the factory makes it is never alive |
| McpConfig.LoadResult | src/agent/mcp/config.py:42-56 | loading succeeds iff the file decodes and has an "mcpServers" key (an empty section is accepted), which is then the result; a missing file, undecodable text and a missing section each give the source's error text |
| McpConfig.WithDefaults | src/agent/mcp/config.py:91-98 | "tools" [], "enabled" True and "connection" {"type": "local"} are filled in only where absent; every given field is kept |
| McpConfig.EnabledAmong | src/agent/mcp/config.py:123-128 | a name is listed iff it is configured and its "enabled" is missing or truthy; the list is no longer than the configured names |
| McpConfig.Config.constructor | src/agent/mcp/config.py:17-29 | a fresh configuration holds its path and nothing cached |
| McpConfig.Config.LoadConfig | src/agent/mcp/config.py:31-56 | the outcome is the file's load result; only a successful load replaces the cache |
| McpConfig.Config.GetConfig | src/agent/mcp/config.py:58-70 | a cached table is returned without reading the file; otherwise the file is loaded, and the cache is set exactly on success |
| McpConfig.Config.GetServerConfig | src/agent/mcp/config.py:72-100 | fails only when nothing is cached and loading fails; an unknown name gives None and leaves the table; a known one gives its entry with defaults, which are also written into the cached table |
| McpConfig.Config.GetAvailableServers | src/agent/mcp/config.py:102-111 | every configured name, in file order, from the (possibly just loaded) table |
| McpConfig.EnabledAmongSnoc | src/agent/mcp/config.py:123-128 | scanning one more name adds it at the end exactly when it is enabled |
| McpConfig.EnabledNames | src/agent/mcp/config.py:123-128 | the loop over the configured names yields exactly the enabled ones, in file order |
| McpConfig.Config.GetEnabledServers | src/agent/mcp/config.py:113-128 | the loop's result equals the enabled names in file order, and the table is the cached one |
| McpConfig.Config.IsServerEnabled | src/agent/mcp/config.py:130-143 | the result is the defaulted "enabled" value, False for an unknown name; a truthy answer leaves the server in the cached table |
| McpConfig.EnabledServerHasMetadata | src/agent/mcp/config.py:145-165 | a server in the cached table always has metadata, so `_get_transport` never reports missing metadata for a server `execute_tool` found enabled |
| McpConfig.Config.GetServerMetadata | src/agent/mcp/config.py:145-163 | None for an unknown name, else command, args (default []) and transport (default "stdio") |
| McpConfig.EnabledServersResult | src/agent/mcp/config.py:120-121 | fails exactly when nothing is cached and the file does not load |
| McpConfig.EnabledResult | src/agent/mcp/config.py:140-143 | fails exactly when nothing is cached and the file does not load; a truthy answer implies the server is configured |
| McpConfig.MetadataResult | src/agent/mcp/config.py:155-157 | fails exactly when nothing is cached and the file does not load; metadata exists iff the server is configured |
| McpConfig.DefaultsIdempotent | src/agent/mcp/config.py:91-98 | filling in defaults twice changes nothing more |
| McpConfig.DefaultsKeepMetadata | src/agent/mcp/config.py:159-163 | the written-back defaults never change what the metadata reports |
| McpConfig.DefaultsKeepMetadataResult | src/agent/mcp/config.py:159-163 | writing one entry's defaults back into the table changes no server's metadata lookup |
| McpConfig.DefaultsKeepEnabled | src/agent/mcp/config.py:94-95 | writing defaults back into the cached table leaves the enabled list unchanged |
| McpConfig.EnabledInFileOrder | src/agent/mcp/config.py:124-126 | the enabled list is a subsequence of the configured names |
| McpConfig.EnabledDistinct | src/agent/mcp/config.py:123-128 | the enabled list names each server at most once |
| McpExecutor.Reject | asterism/mcp/executor.py:74-110 | a refusal envelope names the call and carries the error and no result |
| McpExecutor.Accept | asterism/mcp/executor.py:95-101 | a success envelope names the call and carries the transport's result |
| McpExecutor.Answer | asterism/mcp/executor.py:93-110 | a transport answer becomes a success envelope with its value, a raised error a refusal with "Error executing tool: " and the error text |
| McpExecutor.Dispatch | asterism/mcp/executor.py:84-110 | with the tool absent from the cached list the call is refused with the not-found text and the transport is not touched; an unsearchable list is refused with its error; a listed tool gets the transport's own answer (`CallStep`) and its next state, in which the transport has sent the tool name with the caller's keyword arguments |
| McpExecutor.Launch | asterism/mcp/executor.py:46-51 | the transport is created for the metadata's kind, started with its command line, and asked for its tools: a known kind whose start succeeds gives a fresh transport of that kind holding the state and the `list_tools` answer `LaunchPlan` prescribes; an unknown kind or a failed start gives that error |
| McpExecutor.Executor.constructor | asterism/mcp/executor.py:21-35 | a new executor holds the configuration; no transport, no cached tools and no cached schemas |
| McpExecutor.Executor.GetTransport | asterism/mcp/executor.py:39-52 | a registered server's transport is returned and nothing changes; otherwise the server ends up as the configured launch prescribes (`Holds` of `PlanFor`): the metadata error, "No metadata found for server" or the start error leaves nothing registered, and a started transport is registered in the state `list_tools` left it in with exactly a successful tool list cached; success iff the tool list was cached |
| McpExecutor.Executor.StartServer | asterism/mcp/executor.py:41-51 | an unregistered server ends up as its configured launch prescribes: nothing registered on the metadata, "No metadata found for server", kind or start error; otherwise a fresh transport in the launch's state, with the `list_tools` answer cached exactly when it succeeded; other transports untouched |
| McpExecutor.Executor.Install | asterism/mcp/executor.py:46-51 | with the metadata in hand: the server ends up as `LaunchPlan` prescribes, the list-tools error is returned when listing fails, and the schema cache is untouched |
| McpExecutor.Executor.Adopt | asterism/mcp/executor.py:48-51 | a started transport is registered under the server; a successful tool list is cached and the transport returned, a failed one leaves the tool cache as it was and is returned as the error |
| McpExecutor.Executor.Register | asterism/mcp/executor.py:47 | the new transport is added under its server and joins the footprint; the caches are untouched and the executor stays well-formed |
| McpExecutor.Executor.CacheTools | asterism/mcp/executor.py:50 | the registered server's tool list is stored; nothing else changes |
| McpExecutor.Executor.CacheSchemas | asterism/mcp/executor.py:153 | the server's schema list is stored; nothing else changes and the executor stays well-formed |
| McpExecutor.Executor.ExecuteTool | asterism/mcp/executor.py:54-110 | the envelope is exactly what the configuration, the launch and the transport prescribe (`CallFor` on the state before the call): a configuration failure and a disabled server are refused with the source's texts before any transport exists; an unlaunchable server is refused with "Error executing tool: " and its error; a tool absent from the cached list is refused without touching the transport; a listed tool gets the transport's answer, and the server's transport is left in the state that call leaves it (`AfterCall`), which records the tool name and the caller's keyword arguments as sent |
| McpExecutor.Executor.ExecuteEnabled | asterism/mcp/executor.py:82-110 | for an enabled server: a registered transport dispatches on the cached list; an unregistered server is launched as configured, its launch or list-tools error refused under "Error executing tool: ", else the call dispatched on the fresh tool list; the envelope is `EnabledCall` on the state before, and the server's transport ends as `EnabledAfter` prescribes, having sent the tool name and keyword arguments when the tool is listed |
| McpExecutor.Executor.CallRegistered | asterism/mcp/executor.py:84-101 | a registered transport answers and ends as `Dispatch` prescribes for the cached list, having sent the tool name and keyword arguments, and is untouched when the tool is not listed |
| McpExecutor.Executor.GetAvailableTools | asterism/mcp/executor.py:112-130 | fails exactly when the enabled-server list does; one entry per enabled server, holding its cached tool list ([] when none); every enabled server that had no transport ends up as its configured launch prescribes, so each one is started and listed |
| McpExecutor.Executor.ProbeServers | asterism/mcp/executor.py:122-128 | the loop over the distinct enabled names: one entry per name, each the server's cached tool list, and every server without a transport before the loop launched as the configuration prescribes |
| McpExecutor.Executor.ProbeServer | asterism/mcp/executor.py:122-128 | one server's turn: its entry is its cached tool list after `_get_transport`, a newly launched server ends up as its launch prescribes, and the earlier entries stay true |
| McpExecutor.Executor.GetToolSchemas | asterism/mcp/executor.py:132-159 | one entry per enabled server; a cached answer is served without touching its transport; every enabled server not cached before is asked once, and what it gets is what the launch and the transport prescribe (`SchemasFor` on the state before); a server is newly cached exactly when that call succeeded, with its answer, and a failed call is answered [] and left uncached; the caches only grow |
| McpExecutor.Executor.CollectSchemas | asterism/mcp/executor.py:143-157 | the loop over the enabled servers: one entry per name; cached names are served from the cache, the others get the answer prescribed for them beforehand, cached exactly on success (`Ledger`) |
| McpExecutor.Executor.FetchSchemas | asterism/mcp/executor.py:149-157 | one uncached server gets the answer `SchemasFor` prescribes on the state before; a failure (no transport, or the transport raised) leaves the cache as it was and answers []; a success caches its answer and returns it; the answers prescribed for the other servers do not change |
| McpExecutor.Executor.LaunchSchemas | asterism/mcp/executor.py:150-157 | for a server without a transport: launched as configured, then asked; the launch or list-tools error answers [] and caches nothing; other transports untouched |
| McpExecutor.Executor.StoreSchemas | asterism/mcp/executor.py:152-154 | the registered transport answers as `SchemasStep` prescribes for its state; its answer is cached and returned on success, a failure caches nothing and answers []; the SSE and HTTP transports always fail; nothing else in the registries changes |
| McpExecutor.LedgerCached | asterism/mcp/executor.py:145-147 | serving a cached server keeps the bookkeeping of the schema loop true |
| McpExecutor.LedgerFetched | asterism/mcp/executor.py:149-157 | asking an uncached server keeps the bookkeeping true: its answer is recorded, and it is cached exactly when the answer succeeded |
| McpExecutor.Executor.ValidateToolCall | asterism/mcp/executor.py:161-175 | valid iff the server has a cached list that contains the tool; an unsearchable list counts as invalid |
| McpExecutor.Executor.Shutdown | asterism/mcp/executor.py:177-184 | every registered transport is stopped and all three dictionaries are emptied |
| Schemas.DecisionValue | asterism/agent/models/schemas.py:10-15 | CONTINUE, REPLAN and FINALIZE format as "continue", "replan" and "finalize" respectively, and each string comes only from its own verdict |
| PlanAnalyzer.IsLinearPlan | asterism/agent/nodes/shared/plan_analyzer.py:6-42 | the loop answers exactly the chain predicate: a non-empty plan whose single task, or whose first task has no dependencies and each later task depends on exactly its predecessor |
| PlanAnalyzer.ExecutionBatch | asterism/agent/nodes/shared/plan_analyzer.py:45-68 | no plan or no tasks: []; the batch is consecutive indices from the current one; a linear plan batches every remaining task, any other plan at most the current one |
| PlanAnalyzer.CanSkipIntermediateEvaluation | asterism/agent/nodes/shared/plan_analyzer.py:71-96 | skip iff the plan is linear, all tasks so far succeeded and tasks remain |
| PlanAnalyzer.ShouldFinalizeDirectly | asterism/agent/nodes/shared/plan_analyzer.py:99-123 | finalize directly iff the plan is linear, all tasks succeeded and none remain |
| PlanAnalyzer.SkipAndFinalizeExclusive | asterism/agent/nodes/shared/plan_analyzer.py:71-123 | skipping and finalizing directly are never both allowed, and for a linear, all-successful plan exactly one is |
| PlanAnalyzer.MaxDepth | asterism/agent/nodes/shared/plan_analyzer.py:152 | the maximum recorded depth over the dependencies: no dependency exceeds it and one attains it |
| PlanAnalyzer.Depths | asterism/agent/nodes/shared/plan_analyzer.py:147-153 | the depth dictionary has exactly one entry per task id |
| PlanAnalyzer.IdOrder | asterism/agent/nodes/shared/plan_analyzer.py:147-156 | the dictionary's insertion order lists exactly the task ids, each once, no more of them than tasks |
| PlanAnalyzer.IdsRecorded | asterism/agent/nodes/shared/plan_analyzer.py:156 | every id in insertion order has a recorded depth |
| PlanAnalyzer.Tally | asterism/agent/nodes/shared/plan_analyzer.py:155-157 | the depth counts have exactly the listed levels as keys, each count between 1 and the number of ids, and every id's depth is counted |
| PlanAnalyzer.MaxCount | asterism/agent/nodes/shared/plan_analyzer.py:159 | the largest count: no level's count exceeds it and, for a non-empty tally, one attains it |
| PlanAnalyzer.AnalysisOf | asterism/agent/nodes/shared/plan_analyzer.py:126-167 | an empty plan gives the four-field zero answer; otherwise linearity, task count and batchability as the source defines them, and 1 <= levels, max parallel <= task count |
| PlanAnalyzer.RecordDepths | asterism/agent/nodes/shared/plan_analyzer.py:147-153 | the first loop computes the depth dictionary and its insertion order |
| PlanAnalyzer.CountDepths | asterism/agent/nodes/shared/plan_analyzer.py:155-157 | the second loop computes the depth counts |
| PlanAnalyzer.AnalysisStatistics | asterism/agent/nodes/shared/plan_analyzer.py:159-166 | dependency levels is the number of distinct depths, max parallel the largest count |
| PlanAnalyzer.AnalyzePlanComplexity | asterism/agent/nodes/shared/plan_analyzer.py:126-167 | the loops' result is the analysis |
| PlanAnalyzer.ChainDepths | asterism/agent/nodes/shared/plan_analyzer.py:148-153 | in a chain with distinct ids the task at position k gets depth k |
| PlanAnalyzer.DistinctIdOrder | asterism/agent/nodes/shared/plan_analyzer.py:147-156 | with distinct ids the insertion order is the task order |
| PlanAnalyzer.TallyOfChain | asterism/agent/nodes/shared/plan_analyzer.py:155-157 | when position k has depth k, the first n ids give n levels, all below n, each counted once |
| PlanAnalyzer.ChainTally | asterism/agent/nodes/shared/plan_analyzer.py:147-157 | a linear plan with distinct ids has one level per task, each holding one task |
| PlanAnalyzer.LinearPlanIsOneChain | asterism/agent/nodes/shared/plan_analyzer.py:126-167 | a linear plan with distinct ids reports as many dependency levels as tasks and max parallel 1 |
| StateUtils.CreateErrorState | asterism/agent/nodes/shared/state_utils.py:19-27 | the error is set and exactly one human message "[Error] <error>" is appended; every other field is unchanged |
| StateUtils.ClearError | asterism/agent/nodes/shared/state_utils.py:30-34 | only the error changes, to None |
| StateUtils.AppendLlmUsage | asterism/agent/nodes/shared/state_utils.py:37-41 | the usage list grows by exactly the given entry; nothing else changes |
| StateUtils.SetPlan | asterism/agent/nodes/shared/state_utils.py:44-51 | the plan is set, the index reset to 0, the error cleared and the usage appended; nothing else changes |
| StateUtils.AdvanceTask | asterism/agent/nodes/shared/state_utils.py:54-65 | one result is appended, the index rises by one, the error becomes the result's (None on success), and the usage grows only when the result has one |
| StateUtils.SetEvaluationResult | asterism/agent/nodes/shared/state_utils.py:68-77 | the evaluation is stored and the usage appended unconditionally; nothing else changes |
| StateUtils.ReplanErrorParts | asterism/agent/nodes/shared/state_utils.py:85-94 | the reasoning line comes first; a line for a failed last task and a line for suggestions are present exactly when those apply |
| StateUtils.PrepareReplanState | asterism/agent/nodes/shared/state_utils.py:80-106 | the error is the parts joined by newlines and exactly one AI message is appended; nothing else changes |
| StateUtils.ReplanSetsError | asterism/agent/nodes/shared/state_utils.py:85-97 | after preparing a replan the error is set and starts with the reasoning line |
| StateUtils.SetFinalResponse | asterism/agent/nodes/shared/state_utils.py:109-122 | the response is stored, the error cleared, and the usage appended only when given |
| ContextExtractors.FirstHuman | asterism/agent/nodes/shared/context_extractors.py:24-28 | the position of the first human message: none iff there is no human message, and no earlier message is human |
| ContextExtractors.GetUserRequest | asterism/agent/nodes/shared/context_extractors.py:13-28 | the content of the first human message, whatever follows it; "No user request found" when there is none |
| ContextExtractors.GetLastResult | asterism/agent/nodes/shared/context_extractors.py:31-41 | None iff there are no results, else the last one |
| ContextExtractors.GetCurrentTask | asterism/agent/nodes/shared/context_extractors.py:44-61 | a task iff a plan exists and the index is inside it, and then the task at the index |
| ContextExtractors.CompletedTaskIds | asterism/agent/nodes/shared/context_extractors.py:110-120 | exactly the ids of executed tasks, failed ones included |
| ContextExtractors.DependenciesSatisfied | asterism/agent/nodes/shared/context_extractors.py:123-137 | satisfied iff every dependency has a result, successful or not |
| ContextExtractors.AdvanceSatisfiesDependency | asterism/agent/nodes/shared/context_extractors.py:110-137 | recording a result satisfies a dependency on its task even when it failed, and never unsatisfies one |
| Strs.CountIf | asterism/agent/nodes/shared/context_extractors.py:104 | the number of elements that pass a test, shared by the successful-result counts (also asterism/agent/nodes/shared/trace_builder.py:72 and src/agent/nodes/auditor.py:159); never more than the elements, and all of them exactly when every element passes |
| ContextExtractors.FailedResults | asterism/agent/nodes/shared/context_extractors.py:140-150 | exactly the unsuccessful results; together with the successes they account for every result |
| ContextExtractors.GetFailedTasks | asterism/agent/nodes/shared/context_extractors.py:140-150 | exactly the unsuccessful results of the state |
| ContextExtractors.FormatExecutionSummary | asterism/agent/nodes/shared/context_extractors.py:91-107 | "No execution history." without results; otherwise completed, failed and total counts, with completed + failed = total |
| ContextExtractors.HasExecutionHistory | asterism/agent/nodes/shared/context_extractors.py:153-162 | there is history exactly when there are results, that is exactly when the execution summary is not "No execution history." |
| ContextExtractors.Truncated | asterism/agent/nodes/shared/context_extractors.py:81-83 | text of at most 200 characters is kept; longer text is cut to its first 200 followed by "... [truncated]" (215 characters) |
| ContextExtractors.ResultLines | asterism/agent/nodes/shared/context_extractors.py:77-86 | one line per result, in order |
| ContextExtractors.LastN | asterism/agent/nodes/shared/context_extractors.py:78 | Python's results[-m:]: the last m items for positive m, everything for 0 |
| ContextExtractors.FormatExecutionHistory | asterism/agent/nodes/shared/context_extractors.py:64-88 | the loop produces the history text of the most recent results (ten unless told otherwise), oldest first |
| EvaluatorRouter.RouteName | asterism/agent/nodes/evaluator/router.py:10-15 | the planner, executor and finalizer targets name "planner_node", "executor_node" and "finalizer_node" respectively, and each name comes only from its own target |
| EvaluatorRouter.RouteFromDecision | asterism/agent/nodes/evaluator/router.py:85-92 | REPLAN goes to the planner, CONTINUE to the executor, FINALIZE to the finalizer, each iff |
| EvaluatorRouter.FallbackRoute | asterism/agent/nodes/evaluator/router.py:95-118 | no plan: planner; index past the tasks: finalizer; otherwise planner iff the last result failed, and never the finalizer |
| EvaluatorRouter.DetermineRoute | asterism/agent/nodes/evaluator/router.py:18-42 | a set error routes to the planner whatever else holds; then the evaluation's verdict; then the fallback rules |
| EvaluatorRouter.CanSkipEvaluation | asterism/agent/nodes/evaluator/router.py:45-82 | skip iff the plan is linear, the index is at or past its end, there are at least as many results as tasks, and every result succeeded |
| EvaluatorRouter.SkippableMeansFinalize | asterism/agent/nodes/evaluator/router.py:45-118 | whenever evaluation may be skipped, the fallback rules already route to the finalizer |
| EvaluatorRouter.ShouldContinue | asterism/agent/nodes/evaluator/router.py:121-130 | the node name is one of the three nodes and names exactly the target `determine_route` chose; a state whose evaluation may be skipped, with no error and no evaluation, goes to the finalizer |
| EvaluatorNode.ShouldContinue | asterism/agent/nodes/evaluator.py:23-55 | error first, then a missing plan route to the planner; a finished plan to the finalizer; then planner iff the last result failed, else executor |
| EvaluatorNode.RouteCases | asterism/agent/nodes/evaluator.py:23-55 | only the three node names come out; the executor exactly when there is no error, tasks remain and the last result did not fail; the finalizer exactly when there is no error and the plan is finished; the planner otherwise |
| EvaluatorNode.RoutersAgree | asterism/agent/nodes/evaluator.py:23-55 | without an evaluation the older router and the newer one give the same node name |
| EvaluatorNode.Evaluate | asterism/agent/nodes/evaluator.py:8-20 | the node returns the state unchanged; routing alone decides what happens next |
| EvaluatorUtils.UserRequestsAgree | asterism/agent/nodes/evaluator/utils.py:9-17 | the evaluator's copy of get_user_request answers exactly what the shared extractor answers |
| EvaluatorUtils.FallbackDecision | asterism/agent/nodes/evaluator/utils.py:102-116 | no plan: REPLAN; index past the end: FINALIZE; last result failed: REPLAN; else CONTINUE |
| EvaluatorUtils.FallbackMatchesRouter | asterism/agent/nodes/evaluator/utils.py:102-116 | the fallback decision routes exactly where the router's own fallback rules route |
| EvaluatorUtils.TaskLineStatus | asterism/agent/nodes/evaluator/utils.py:24 | tasks before the index start with "[✓]", the rest with "[ ]" |
| EvaluatorUtils.TaskLineStage | asterism/agent/nodes/evaluator/utils.py:25-27 | a task line ends with "(COMPLETED)" before the index, "(NEXT)" at it and "(PENDING)" after it |
| EvaluatorUtils.TaskLines | asterism/agent/nodes/evaluator/utils.py:23-27 | one line per task, in plan order |
| EvaluatorUtils.FormatTasks | asterism/agent/nodes/evaluator/utils.py:20-28 | the loop's text is the task lines joined by newlines |
| EvaluatorUtils.FormatExecutionResults | asterism/agent/nodes/evaluator/utils.py:31-47 | "No tasks executed yet." without results; otherwise every result's line, in order, joined by newlines |
| EvaluatorUtils.ResultsAreUnlimitedHistory | asterism/agent/nodes/evaluator/utils.py:31-47 | listing every result is the shared history formatter with no limit |
| ExecutorUtils.ParseToolCall | asterism/agent/nodes/executor/utils.py:4-20 | fails iff there is no ':' (with the source's message); otherwise the server part has no ':' and server + ":" + tool gives back the reference |
| ExecutorUtils.ParseInvertsJoin | asterism/agent/nodes/executor/utils.py:19-20 | joining a colon-free server name and any tool name with ':' parses back to the same pair |
| TraceBuilder.BuildExecutionTrace | asterism/agent/nodes/shared/trace_builder.py:8-32 | one entry per result, in order, copying its id, outcome, value and error |
| TraceBuilder.TraceLines | asterism/agent/nodes/shared/trace_builder.py:48-55 | two display lines per trace entry |
| TraceBuilder.ResultShownTruncated | asterism/agent/nodes/shared/trace_builder.py:52 | a success line shows at most 200 characters of the result |
| TraceBuilder.FormatTraceForDisplay | asterism/agent/nodes/shared/trace_builder.py:35-57 | "No execution trace available." for an empty trace; otherwise the header then each entry's lines, joined by newlines |
| TraceBuilder.GetTraceSummary | asterism/agent/nodes/shared/trace_builder.py:60-79 | total is the entry count, successful the number of successes, and successful + failed = total; all zero for an empty trace |
| TraceBuilder.SummaryOfResults | asterism/agent/nodes/shared/trace_builder.py:8-79 | a trace built from results counts every entry as successful iff every result succeeded |
| ExecutorNode.ExecuteLinearPlan | asterism/agent/nodes/executor/node.py:49-102 | the while loop's final state is the batch: tasks run in order until none is left, one fails, or one has unexecuted dependencies |
| ExecutorNode.ExecuteSingleTask | asterism/agent/nodes/executor/node.py:105-136 | no current task: "No task to execute"; unmet dependencies: "Dependencies not satisfied: " and the full dependency list; otherwise the runner's result is recorded by advance_task |
| ExecutorNode.Execute | asterism/agent/nodes/executor/node.py:20-46 | a linear plan takes the batch path, any other plan runs one task |
| ExecutorNode.BatchShape | asterism/agent/nodes/executor/node.py:72-102 | a batch keeps the plan, only appends results (one per index step), and every appended result but the last succeeded |
| ExecutorNode.BatchStops | asterism/agent/nodes/executor/node.py:72-102 | a batch that ends with a task still current stopped either at a failed result it appended last or at that task's unmet dependencies, with the dependency error set |
| ExecutorNode.BatchFollowsPlan | asterism/agent/nodes/executor/node.py:72-92 | when runners label results with their task, the appended results name the plan's tasks in order from the starting index |
| ExecutorNode.LinearBatchNeedsNoDependencyCheck | asterism/agent/nodes/executor/node.py:79-97 | in a linear plan a batch that starts on a runnable task ends only when the plan is done or a task failed; the dependency error cannot occur |
| TaskExecutor.Unsatisfied | asterism/agent/nodes/executor.py:38-39 | exactly the dependencies without a result, in order; never longer than the dependency list |
| TaskExecutor.NothingUnsatisfiedIsSatisfied | asterism/agent/nodes/executor.py:38-40 | no unsatisfied dependency iff the shared extractor calls the dependencies satisfied |
| TaskExecutor.KeywordClash | asterism/agent/nodes/executor.py:58 | a tool input raises the duplicate-keyword TypeError iff it has a "self", "server_name" or "tool_name" key (the bound method's own parameters), and the text names one such key of the input |
| TaskExecutor.LlmTaskResult | asterism/agent/nodes/executor.py:66-77 | an empty description fails with the source's message before the LLM is asked; otherwise success iff the LLM answers, and then its text is the result |
| TaskExecutor.RunTask | asterism/agent/nodes/executor.py:46-77 | the result names the task; an LLM-only task goes to the LLM; a reference without ':' or a clashing input fails without calling the executor; otherwise the executor is called with the parsed server and tool and the task's input ({} when absent) as keyword arguments: its envelope is the one `execute_tool` prescribes for the state before the call, the server's transport ends as that call leaves it, and that envelope decides success, result and error |
| TaskExecutor.ExecuteTask | asterism/agent/nodes/executor.py:9-85 | no plan, a finished plan and unmet dependencies only set the source's error texts; otherwise the run's result is recorded exactly as advance_task records it, and a tool call's envelope and the server's transport state are the ones `execute_tool` prescribes for the parsed server and tool with the task's input as keyword arguments |
| PlannerUtils.GenerateTaskId | asterism/agent/nodes/planner/utils.py:6-8 | the id is "task_<index>_" followed by the description, lower-cased with spaces turned into "_", cut to 30 characters: length and every character are stated |
| PlannerUtils.GeneratedIdsDiffer | asterism/agent/nodes/planner/utils.py:6-8 | tasks at different positions never get the same generated id, whatever their descriptions |
| PlannerUtils.Items | asterism/agent/nodes/planner/utils.py:17 | every listed entry is a key of the dictionary with its value |
| PlannerUtils.KeysIn | asterism/agent/nodes/planner/utils.py:36 | the listed names that are keys, each with its value; all of them when every name is a key |
| PlannerUtils.ParamLine | asterism/agent/nodes/planner/utils.py:36-40 | fails iff the parameter info is not a dict or `required` cannot be searched; the line starts with the name and its type, "any" when absent |
| PlannerUtils.RequiredMarked | asterism/agent/nodes/planner/utils.py:39-40 | a parameter is marked " (required)" iff the schema's required list names it |
| PlannerUtils.ParamLines | asterism/agent/nodes/planner/utils.py:36-40 | succeeds iff every parameter line does, and then one line per parameter, in order |
| PlannerUtils.PropertyItems | asterism/agent/nodes/planner/utils.py:36 | only a dict has items; anything else raises |
| PlannerUtils.ToolLines | asterism/agent/nodes/planner/utils.py:22-40 | a non-dict tool raises; a tool without an input schema gives exactly its heading and description; the heading is "### server:name" with "unknown" for a missing name, and "No description" for a missing description |
| PlannerUtils.ToolHead | asterism/agent/nodes/planner/utils.py:22-27 | two lines: "### server:" then the name ("unknown" when missing), and "Description: " then the description ("No description" when missing) |
| PlannerUtils.ParamSection | asterism/agent/nodes/planner/utils.py:29-39 | a falsy input schema adds nothing; a truthy non-dict schema raises; any lines added start with "Parameters:" |
| PlannerUtils.ToolsLines | asterism/agent/nodes/planner/utils.py:22-40 | at least two lines per tool; success when every tool formats; a non-dict tool makes the whole listing fail |
| PlannerUtils.ServerLines | asterism/agent/nodes/planner/utils.py:17-21 | a server with no tools contributes no lines; otherwise its "## Server:" heading comes first |
| PlannerUtils.ToolLessServersAddNothing | asterism/agent/nodes/planner/utils.py:18-19 | servers with empty tool lists add no lines |
| PlannerUtils.ToolsContext | asterism/agent/nodes/planner/utils.py:11-14 | an empty schema map gives "No MCP tools available." |
| PlannerUtils.ToolLessContextIsEmpty | asterism/agent/nodes/planner/utils.py:13-19 | a non-empty map whose servers all have no tools gives the empty text, not the "no tools" message |
| PlannerUtils.FormatToolsContext | asterism/agent/nodes/planner/utils.py:11-42 | the nested loops compute the tool context |
| PlannerUtils.ServerSection | asterism/agent/nodes/planner/utils.py:21-40 | the loop over one server's tools computes that server's lines |
| PlannerUtils.SchemaLinesStopAtFailure | asterism/agent/nodes/planner/utils.py:17-40 | a failure among the first servers is the failure of the whole listing |
| PlannerUtils.ToolsLinesStopAtFailure | asterism/agent/nodes/planner/utils.py:22-40 | a failure among a server's first tools is the failure of the whole server |
| PlannerService.ValidateAndEnrichPlan | asterism/agent/nodes/planner/service.py:29-40 | a missing plan gives "Plan is empty", an empty one "Plan has no tasks"; otherwise the count, the reasoning and every task are kept, except that an empty id is replaced by the generated one |
| PlannerService.EnrichedIdsFilledAndDistinct | asterism/agent/nodes/planner/service.py:36-38 | after enrichment no task has an empty id, and two generated ids never coincide |
| PlannerService.HasDependencies | asterism/agent/nodes/planner/service.py:49 | true iff some task has a non-empty dependency list |
| Agent.InitializeState | asterism/agent/agent.py:17-27 | the first state of a turn holds the session id and exactly one human message; no plan, index 0, no results, usage, error or response |
| Agent.Connection.constructor | asterism/agent/agent.py:63-66 | the connection opens the agent's path; only ":memory:" turns the same-thread check off |
| Agent.Calls | asterism/agent/agent.py:210-212 | a node's call count never exceeds the number of usages, and is positive iff the node made a call |
| Agent.OneNodeHasAllCalls | asterism/agent/agent.py:210-212 | when every usage comes from one node, that node has all the calls |
| Agent.CallsSplit | asterism/agent/agent.py:210-212 | call counts of two usage lists add up |
| Agent.CallsByNode | asterism/agent/agent.py:210-212 | the loop's dictionary has a key exactly for each node that made a call, holding its number of calls |
| Agent.TotalUsage | asterism/agent/agent.py:203-212 | the three token totals are the sums over all usages, and calls_by_node is as above |
| Agent.Agent.constructor | asterism/agent/agent.py:34-53 | a missing or empty db path becomes ".checkpoints/agent.db"; no connection, checkpointer or graph yet |
| Agent.Agent.GetCheckpointer | asterism/agent/agent.py:55-68 | the first call opens one fresh, open connection on the db path; every later call returns the same checkpointer and opens nothing |
| Agent.Agent.Build | asterism/agent/agent.py:70-108 | the graph is compiled once, with the agent's checkpointer, and reused afterwards |
| Agent.Agent.Invoke | asterism/agent/agent.py:156-220 | a failing run gives "Agent execution failed: " and the error; no final response gives "Agent did not produce a response"; otherwise the response's message, trace and plan, and the usage totals of the final state |
| Agent.Agent.Close | asterism/agent/agent.py:243-246 | an open connection is closed; without one nothing changes |
| AppConfig.ResolveEnvValues | asterism/config/config.py:141-163 | dicts keep their keys and lists their length; an "env." string becomes the named variable's value, or None when it is unset; every other value passes through |
| AppConfig.EnvFreeUnchanged | asterism/config/config.py:141-163 | a configuration without "env." strings is left as it is |
| AppConfig.ResolutionIsComplete | asterism/config/config.py:141-163 | when no variable's value itself starts with "env.", resolution leaves no reference behind, so resolving twice is resolving once |
| AppConfig.ResolveWorkspacePath | asterism/config/config.py:109-125 | the explicit argument wins, then WORKSPACE_DIR, then "./workspace" |
| AppConfig.FirstProvider | asterism/config/config.py:196-200 | None iff no provider has the name; otherwise the first provider with it |
| AppConfig.Config.constructor | asterism/config/config.py:87-89 | a newly made object is not initialised |
| AppConfig.Config.Load | asterism/config/config.py:127-139 | a missing file raises "Configuration file not found: " and the path with data unchanged; a parse failure passes its error on; otherwise the resolved mapping (an empty file is {}) replaces the data only when it validates; `reload` is this same step |
| AppConfig.Config.Init | asterism/config/config.py:92-107 | an initialised object is left untouched; otherwise the workspace is resolved, the file is "<workspace>/config.yaml", and by what reading it gives (`FirstInit`): a missing file raises "Configuration file not found: " and the path, a parse failure raises its error, a mapping that fails validation raises that error, each with no data and not initialised; else the data is the validated mapping after "env." resolution and the object is initialised |
| AppConfig.Config.Data | asterism/config/config.py:166-177 | the data when loaded, else "Configuration not loaded" |
| AppConfig.Config.GetModelProvider | asterism/config/config.py:188-200 | the loop returns the first provider with the name, or None; unloaded data raises |
| AppConfig.Config.GetDefaultModelProvider | asterism/config/config.py:202-216 | None when the default model has no '/'; otherwise the provider named before its first '/' |
| AppConfig.FirstNamedIsFirst | asterism/config/config.py:196-199 | a provider found by scanning in order is the first with its name |
| AppConfig.Registry.Obtain | asterism/config/config.py:76-107 | the shared object is made on first use and kept; once initialised it is returned untouched, whatever the argument; while not yet initialised, the call initialises it from "<workspace>/config.yaml" exactly as `__init__` does (`FirstInit`): the missing-file, parse and validation errors are raised, and a success is the object holding the validated data |
| AppConfig.Registry.Reset | asterism/config/config.py:225-231 | after a reset no shared object exists |
| LlmErrors.NewAllProvidersFailed | asterism/llm/exceptions.py:13-22 | message and last error are stored; a missing chain is stored as [] |
| LlmErrors.Text | asterism/llm/exceptions.py:24-27 | the text is exactly the message iff there is no last error; with one, it is the message, " Last error: " and that error |
| LlmBase.Response | asterism/llm/base.py:13-21 | a response built from content alone carries that content and zero prompt, completion and total token counts |
| LlmBase.ItemMessages | asterism/llm/base.py:187-192 | a list argument contributes at most one message per item; a list of strings becomes one system message per string, in order |
| LlmBase.ExtraSystem | asterism/llm/base.py:180-192 | no argument adds nothing; a string adds one system message with that text, and nothing when it is empty |
| LlmBase.UserMessages | asterism/llm/base.py:194-200 | a text prompt becomes one human message; a message list is sent as given; a single message is wrapped in a one-element list |
| LlmBase.BuildMessages | asterism/llm/base.py:151-203 | the loaded system prompt comes first when there is a loader; the length is loader + extra system + user messages; the list ends with exactly the user messages; with no loader and no argument it is the user messages alone |
| LlmBase.CollectMessages | asterism/llm/base.py:173-203 | the appending procedure produces exactly the message list BuildMessages describes |
| LlmBase.CollectExtra | asterism/llm/base.py:180-192 | appending for the `system_message` argument yields exactly ExtraSystem of it |
| LlmBase.CollectItems | asterism/llm/base.py:187-192 | the loop over a list argument yields exactly ItemMessages of the list |
| LlmBase.PlainTextIsOneMessage | asterism/llm/base.py:194-203 | a text prompt with no loader and no extra system message is sent as exactly one human message |
| LlmBase.DefaultStream | asterism/llm/base.py:129-149 | the default stream is the whole answer as its only chunk, and a failing invoke fails the stream with the same error |
| ProviderRouter.CreateProvider | asterism/llm/factory.py:18-47 | a provider is built iff the type is "openai-compatible" and the API key is non-empty, carrying the configured base URL and key; otherwise the unsupported-type or missing-key error with the source's text |
| ProviderRouter.RegisteredProviders | asterism/llm/provider_router.py:47-55 | a name is registered iff some configuration with that name builds, and it holds the provider of the last configuration with that name that builds |
| ProviderRouter.ParseModelString | asterism/llm/provider_router.py:238-259 | "p/m" splits at its first '/'; a bare model takes the provider prefix of the default model when the default has one, and is its own provider otherwise |
| ProviderRouter.ModelStringsShape | asterism/llm/provider_router.py:215-224 | a non-empty primary model comes first; the list holds exactly the primary and the fallback models; no model string appears twice |
| ProviderRouter.CollectModelStrings | asterism/llm/provider_router.py:215-224 | the loop produces exactly the model-string list ModelStrings describes |
| ProviderRouter.Chain | asterism/llm/provider_router.py:226-234 | the chain never has more entries than there are model strings |
| ProviderRouter.ChainConcat | asterism/llm/provider_router.py:226-234 | skipping unregistered providers keeps the order: the chain of a concatenation is the concatenation of the chains |
| ProviderRouter.SingleChain | asterism/llm/provider_router.py:227-234 | one model string adds its registered provider with the parsed model name, and nothing when the provider is not registered |
| ProviderRouter.Names | asterism/llm/provider_router.py:71 | one "provider/model" name per chain entry, in chain order |
| ProviderRouter.Fallback | asterism/llm/provider_router.py:73-99 | an empty chain raises "No providers available in the chain"; entries are tried in order, every one before the answering entry failed, and its answer is returned; when all fail, every entry was tried and the error carries the attempt count, the last error and the chain's names |
| ProviderRouter.Stream | asterism/llm/provider_router.py:281-309 | the emitted tokens are those of every attempt in order, failed ones included; the stream raises iff the chain is empty or every attempt failed, with the last attempt's error and the chain's names |
| ProviderRouter.FailedAttemptTokensStay | asterism/llm/provider_router.py:290-298 | tokens a failing first model already emitted stay at the head of the output |
| ProviderRouter.Router.constructor | asterism/llm/provider_router.py:36-55 | the router keeps the models section it was given, and its providers are exactly those RegisteredProviders describes for the configured providers |
| ProviderRouter.Router.BuildModelChain | asterism/llm/provider_router.py:197-236 | the chain is the registered entries of the primary and fallback model strings, in order |
| ProviderRouter.Router.Invoke | asterism/llm/provider_router.py:57-99 | the requested model, or the configured default when none is given, heads the chain; the fallback guarantees of Fallback hold for that chain |
| WorkspaceTree.DefaultWildcards | asterism/agent/utils/workspace_tree.py:6-38 | of the default ignore patterns only "*.egg-info" starts with '*' |
| WorkspaceTree.DefaultIgnoreMatches | asterism/agent/utils/workspace_tree.py:45-54 | worked example, not a general property: the defaults hide an egg-info directory by suffix and ".env" by name |
| WorkspaceTree.ShouldIgnore | asterism/agent/utils/workspace_tree.py:45-54 | a name listed among the patterns is ignored; without wildcard patterns exactly the listed names are; the pattern "*" ignores every name |
| WorkspaceTree.EnvVariantListed | asterism/agent/utils/workspace_tree.py:45-54 | ".env.*" is matched literally, so ".env.local" is not hidden |
| WorkspaceTree.SortByKey | asterism/agent/utils/workspace_tree.py:114-115 | sorting by lower-cased name is a permutation of the entries |
| WorkspaceTree.SortAscending | asterism/agent/utils/workspace_tree.py:114-115 | the sorted entries are in ascending lower-cased name order |
| WorkspaceTree.SortKeepsMembers | asterism/agent/utils/workspace_tree.py:114-115 | sorting keeps exactly the same entries |
| WorkspaceTree.GroupMembers | asterism/agent/utils/workspace_tree.py:105-111 | the directory group holds exactly the non-ignored directories and the file group exactly the non-ignored files |
| WorkspaceTree.Partition | asterism/agent/utils/workspace_tree.py:102-111 | the loop produces exactly the two groups Dirs and Files describe |
| WorkspaceTree.ShownMembers | asterism/agent/utils/workspace_tree.py:118-127 | no ignored entry is shown; a listing over the file limit shows exactly the non-ignored directories, any other exactly the non-ignored entries |
| WorkspaceTree.ShownOrder | asterism/agent/utils/workspace_tree.py:113-127 | directories precede files, the shown directories are the sorted directory group, and each group is in name order |
| WorkspaceTree.DirLinesOfEntries | asterism/agent/utils/workspace_tree.py:117-140 | a readable directory within the depth gives the truncation line (total count, directory count) when over the limit, then the lines of its shown entries |
| WorkspaceTree.DeepestLevelIsFlat | asterism/agent/utils/workspace_tree.py:130-140 | at the maximum depth each shown entry gives exactly one line and no subdirectory is expanded; only the last entry of an untruncated listing gets the closing connector |
| WorkspaceTree.BeyondDepthIsEmpty | asterism/agent/utils/workspace_tree.py:89-90 | a directory deeper than the maximum depth adds no line |
| WorkspaceTree.UnreadableLines | asterism/agent/utils/workspace_tree.py:92-99 | an unreadable directory adds exactly one line, "[Permission Denied]" or "[Error reading directory]" after the prefix |
| WorkspaceTree.TreeStartsWithHeader | asterism/agent/utils/workspace_tree.py:85 | the tree of a listable root starts with the "# Workspace Directory:" header |
| WorkspaceTree.TreeWriter.BuildTree | asterism/agent/utils/workspace_tree.py:87-140 | the recursive procedure appends exactly the lines DirLines describes and nothing else |
| WorkspaceTree.TreeWriter.WriteListing | asterism/agent/utils/workspace_tree.py:101-140 | for a readable directory it appends exactly DirLines of its entries |
| WorkspaceTree.TreeWriter.ListingParts | asterism/agent/utils/workspace_tree.py:101-127 | the grouping, sorting and cut give exactly the shown entries, the truncation flag and the truncation line of the listing |
| WorkspaceTree.TreeWriter.WriteEntries | asterism/agent/utils/workspace_tree.py:130-140 | the entry loop appends exactly the lines of the shown entries, in order |
| WorkspaceTree.TreeWriter.ExpandEntry | asterism/agent/utils/workspace_tree.py:135-140 | an entry appends its own line and, for a directory above the depth limit, its subtree |
| WorkspaceTree.GenerateWorkspaceTree | asterism/agent/utils/workspace_tree.py:57-146 | the returned text is TreeText of the root with the given limits; absent ignore patterns mean the default set |
| WorkspaceTree.TreeContext | asterism/agent/utils/workspace_tree.py:149-170 | the prompt section starts with "WORKSPACE STRUCTURE:" followed by the tree |
| ToolParser.ParseToolId | src/agent/utils/tool_parser.py:9-25 | fails iff the id has no ':', with the source's "Invalid tool ID format" text; otherwise the server part has no ':' and server + ":" + tool is the id |
| ToolParser.ParseToolIdInverts | src/agent/utils/tool_parser.py:21-25 | a colon-free server name joined to any tool name by ':' parses back to the same pair |
| ToolParser.MilestoneHistory | src/agent/utils/tool_parser.py:87-97 | the filtered history is never longer than the history |
| ToolParser.MilestoneHistoryMembers | src/agent/utils/tool_parser.py:179-189 | exactly the records of the given milestone are kept |
| ToolParser.MilestoneHistoryConcat | src/agent/utils/tool_parser.py:97 | the filter keeps order: filtering a concatenation concatenates the filtered parts |
| ToolParser.MilestoneFailureIsHistoryFailure | src/agent/utils/tool_parser.py:167-176 | a failure in a milestone's records is a failure in the whole history |
| ToolParser.ListValueLines | src/agent/utils/tool_parser.py:71-76 | a list of n items takes a count line, its first min(n, 5) items in order, and an "... and <n-5> more" line exactly when n > 5 |
| ToolParser.FormatExecutionContext | src/agent/utils/tool_parser.py:57-84 | an empty context gives "No context accumulated yet."; otherwise the lines of every entry in dict order, joined by newlines |
| ToolParser.HistoryLinesCount | src/agent/utils/tool_parser.py:109-117 | one line per record plus one per record with parameters; the first line is record 1's status line |
| ToolParser.FormatMilestoneHistory | src/agent/utils/tool_parser.py:100-119 | no records gives "No tools executed yet for this milestone."; otherwise the numbered record lines joined by newlines |
| ToolParser.ResultLineShape | src/agent/utils/tool_parser.py:133-141 | each line starts with "- <tool id>: "; a success line holds at most 200 characters of the result; a failure line continues with "ERROR - " |
| ToolParser.ResultLineAt | src/agent/utils/tool_parser.py:134-141 | line k of the results block is the result line of record k |
| ToolParser.FormatExecutionResults | src/agent/utils/tool_parser.py:122-143 | no records gives "No results available."; otherwise one result line per record, in order, joined by newlines |
| ToolParser.LastThree | src/agent/utils/tool_parser.py:158 | the shown errors are the last min(n, 3) errors of the list |
| ToolParser.FormatErrors | src/agent/utils/tool_parser.py:146-164 | no errors gives "No previous errors."; otherwise a header line, then the numbered lines of the last three errors |
| ToolParser.OlderErrorsDropped | src/agent/utils/tool_parser.py:158 | an error before the last three never reaches the text |
| WorkflowGraph.ShouldContinue | src/agent/graph.py:16-34 | the workflow routes to a skill iff there are milestones and the index is inside the plan, and ends otherwise |
| WorkflowGraph.CheckValidation | src/agent/graph.py:37-51 | the next milestone follows iff the last verification status is "passed"; anything else retries |
| WorkflowGraph.AdvanceMilestone | src/agent/graph.py:54-70 | the index moves up by one, the tactical plan, skill context, verdict and retry count are reset, and every other field is kept |
| WorkflowGraph.AdvanceEndsAfterLastMilestone | src/agent/graph.py:16-34 | after advancing, the workflow ends exactly when the old index was the last milestone or beyond |
| WorkflowGraph.AdvanceForgetsVerdict | src/agent/graph.py:37-70 | right after advancing, the validation check says retry until a new audit passes the milestone |
| SkillLoader.Piece | src/agent/utils/skill_loader.py:41-44 | what one later character becomes contains no upper-case letter |
| SkillLoader.Hyphenated | src/agent/utils/skill_loader.py:40-44 | the camel-case pass over the later characters leaves no upper-case letter |
| SkillLoader.Camel | src/agent/utils/skill_loader.py:39-44 | the camel-case pass over the whole name leaves no upper-case letter |
| SkillLoader.NormalizeSkillName | src/agent/utils/skill_loader.py:24-48 | the loop computes exactly NormalizedName of the name; the empty name stays empty |
| SkillLoader.NormalizedIsKebab | src/agent/utils/skill_loader.py:24-48 | every normalised name has no upper-case letter, '_' or ' ' |
| SkillLoader.HyphenatedKeepsLower | src/agent/utils/skill_loader.py:40-44 | text without upper-case letters passes the camel-case pass unchanged |
| SkillLoader.KebabIsFixed | src/agent/utils/skill_loader.py:24-48 | a name already in directory form is its own normalisation |
| SkillLoader.NormalizeIdempotent | src/agent/utils/skill_loader.py:24-48 | normalising twice is normalising once |
| SkillLoader.SnakeToKebab | src/agent/utils/skill_loader.py:27-28 | two words in directory form joined by '_' come out joined by '-' ("code_reader" becomes "code-reader") |
| SkillLoader.CamelToKebab | src/agent/utils/skill_loader.py:27-29 | the first character is lowered and an upper-case letter after it becomes '-' and its lower-case form, the words around it unchanged ("CodeReader" becomes "code-reader") |
| SkillLoader.HyphenatedConcat | src/agent/utils/skill_loader.py:40-44 | the pass works character by character: it distributes over concatenation |
| SkillLoader.FindDelimiter | src/agent/utils/skill_loader.py:77 | the result is -1 or the first position at or after the start where "---" begins; no earlier position starts one |
| SkillLoader.SplitFrontMatter | src/agent/utils/skill_loader.py:74-79 | content not starting with "---" is all body; when front matter is found, "---" + front matter + "---" + body is the content |
| SkillLoader.FrontMatterRoundTrip | src/agent/utils/skill_loader.py:76-79 | front matter with no delimiter inside is recovered, with the body after it, from "---" + front matter + "---" + body |
| SkillLoader.Metadata | src/agent/utils/skill_loader.py:73-83 | no front matter, or front matter that does not parse, gives empty metadata |
| SkillLoader.LoadSkillConfig | src/agent/utils/skill_loader.py:51-90 | a missing file fails with "Skill not found" and the path looked at; otherwise it succeeds iff the metadata can be read; the content is the stripped body, and name and description come from the metadata, defaulting to the normalised name and "" |
| SkillLoader.WithFile | src/agent/utils/skill_loader.py:116-121 | exactly the listed skills whose file exists |
| SkillLoader.DescriptionLinesCount | src/agent/utils/skill_loader.py:116-121 | when nothing else fails, each listed skill with a file contributes one "- name: description" line (string fields as themselves, others through `str`), in order, and the others none |
| SkillLoader.AvailableSkillsDescription | src/agent/utils/skill_loader.py:107-123 | the loop fails with the first non-missing-file failure; otherwise the lines joined by newlines, or "No skills available" when there are none |
| SkillLoader.PrefixFailure | src/agent/utils/skill_loader.py:116-121 | a failure among the first skills is the failure of the whole listing |
| SkillLoader.PrefixSlice | src/agent/utils/skill_loader.py:136 | Python's `s[:n]` is a prefix of the list, of length min(n, len) for n >= 0 and max(len + n, 0) for negative n |
| SkillLoader.FormatCompletedMilestones | src/agent/utils/skill_loader.py:126-146 | no milestones before the index gives "No milestones completed yet."; otherwise one line per completed milestone, numbered from 1, joined by newlines |
| SkillLoader.MilestoneLineTag | src/agent/utils/skill_loader.py:143-144 | a milestone line carries [PASS] exactly when the milestone's status is "completed" |
| Auditor.RetryErrors | src/agent/nodes/auditor.py:130-137 | at most one error is recorded, and one is recorded iff the validation suggests a non-empty retry strategy |
| Auditor.HandleRetry | src/agent/nodes/auditor.py:95-144 | the verdict becomes "failed" and errors are only appended; the limit is exceeded iff the count resets to 0, the milestone is marked failed and the "Max retries (3) exceeded" error is added; within the limit the count goes up by one and only the strategy error is added; nothing else changes |
| Auditor.RetryCountStaysBounded | src/agent/nodes/auditor.py:106-144 | a retry count within the limit stays within it, and the milestone stays active |
| Auditor.FourthFailureGivesUp | src/agent/nodes/auditor.py:106-128 | from a fresh count three failed audits keep the milestone and count to three; the fourth marks it failed, resets the count and ends the errors with the give-up message |
| Auditor.CountsCoverHistory | src/agent/nodes/auditor.py:159-160 | successes plus failures is the number of records, and no failures iff the history has no failed execution |
| Auditor.UpdateGlobalContext | src/agent/nodes/auditor.py:147-171 | the old context is kept as a prefix; an empty context is replaced by the summary, any other is followed by a line break and the summary |
| Auditor.SummaryStatus | src/agent/nodes/auditor.py:162-166 | the summary starts with the milestone's description, and its status reads COMPLETED exactly for a completed milestone |
| Auditor.Audit | src/agent/nodes/auditor.py:174-237 | no active milestone only sets "failed"; a passing validation completes the milestone, sets "passed", resets the count and appends its summary to the global context, every other field unchanged; a failing one goes to the retry handling; an LLM failure records its error first and then retries |
| Auditor.LlmFailureCountsOneRetry | src/agent/nodes/auditor.py:226-237 | a failed LLM call adds its own error first and counts one retry, and adds the give-up error after it when the retry exhausts the limit |
| Auditor.AuditVerdict | src/agent/nodes/auditor.py:188-237 | the verdict is always "passed" or "failed", and "passed" exactly when there is an active milestone and the LLM validated it |
| MilestoneExecutor.FailureRecord | src/agent/nodes/executor.py:52-65 | a call that raised is recorded as a failure |
| MilestoneExecutor.Record | src/agent/nodes/executor.py:35-67 | the record names the milestone and the call; a malformed tool id or a raising executor gives the failure record with that error; otherwise the executor's answer is the result and the record succeeded iff the answer's "success" is true |
| MilestoneExecutor.Records | src/agent/nodes/executor.py:34-67 | one record per planned call |
| MilestoneExecutor.RecordsFollowPlan | src/agent/nodes/executor.py:34-67 | record k is the record of planned call k: the plan runs once, in order |
| MilestoneExecutor.Execute | src/agent/nodes/executor.py:12-69 | without an active milestone the state is unchanged; otherwise the history grows by exactly the plan's records and nothing else changes |
| MilestoneExecutor.MilestoneHistoryAfterRun | src/agent/nodes/executor.py:34-69 | the active milestone's own history after a run is its earlier history followed by the new records, in plan order |
| MilestoneExecutor.OwnRecordsKept | src/agent/nodes/executor.py:43-65 | records that all belong to one milestone all pass its history filter |
| MilestoneExecutor.MalformedIdFails | src/agent/nodes/executor.py:37 | a tool id without ':' never reaches the executor and is recorded as a failure whose error names the expected format |
| MilestoneExecutor.UpdateTouchesOneEntry | src/agent/nodes/executor.py:72-108 | an unsuccessful result changes nothing; a successful update adds at most one key and keeps every entry other than the three it maintains |
| MilestoneExecutor.UpdateExecutionContext | src/agent/nodes/executor.py:72-108 | the update fails only when an existing "discovered_files", "file_contents" or "analysis_results" entry has the wrong kind; every stored file preview that was not there before is a string of at most 500 characters |
| MilestoneExecutor.ListingExtendsFiles | src/agent/nodes/executor.py:91-94 | a listing's files are appended after the files already discovered |
| MilestoneExecutor.ReadStoresPreview | src/agent/nodes/executor.py:96-101 | a read file is stored under its path as a prefix of its text of at most 500 characters |
| ApiAuth.WordLength | asterism/api/dependencies.py:44 | the first word's length: no white space before it, and white space right after it unless the text ends |
| ApiAuth.Words | asterism/api/dependencies.py:44 | `split()` yields only non-empty runs without white space |
| ApiAuth.WordsOfSpaced | asterism/api/dependencies.py:44 | a word followed by white space and more text splits into that word and the words of the rest |
| ApiAuth.LeadingSpaceSkipped | asterism/api/dependencies.py:44 | leading white space adds no word |
| ApiAuth.WordsOfWord | asterism/api/dependencies.py:44 | a single word splits into itself |
| ApiAuth.GetApiKey | asterism/api/dependencies.py:18-53 | no configured keys lets every request through as "dev-key"; a missing or empty header is refused as missing; a header that is not exactly two words starting with "bearer" in any case is refused as malformed; otherwise the token is returned iff it is a configured key; an accepted key is always configured |
| ApiAuth.LowerBearer | asterism/api/dependencies.py:45 | the scheme is matched in any mix of upper and lower case |
| ApiAuth.BearerHeaderAccepted | asterism/api/dependencies.py:40-53 | a bearer header in any case, with any surrounding white space, yields its token when it is configured and is refused as an unknown key otherwise |
| ApiAuth.BareTokenRefused | asterism/api/dependencies.py:44-46 | a header holding only a token, without a scheme, is refused as malformed |
| CodeParser.SizeAllConcat | external_resources/mcp_servers/code_parser_mcp/code_parser_mcp/server.py:32 | the node count of two forests together is the sum of their counts |
| CodeParser.Walk | external_resources/mcp_servers/code_parser_mcp/code_parser_mcp/server.py:32 | the breadth-first walk visits as many nodes as the trees hold |
| CodeParser.WeightAllConcat | external_resources/mcp_servers/code_parser_mcp/code_parser_mcp/server.py:58-64 | the weight of a visit sequence is additive over concatenation |
| CodeParser.TreeWeightAllConcat | external_resources/mcp_servers/code_parser_mcp/code_parser_mcp/server.py:58-64 | the structural weight of forests is additive over concatenation |
| CodeParser.WalkWeight | external_resources/mcp_servers/code_parser_mcp/code_parser_mcp/server.py:58-64 | the walk visits every node once, so its total weight is the trees' structural weight |
| CodeParser.ComplexityIsTreeWeight | external_resources/mcp_servers/code_parser_mcp/code_parser_mcp/server.py:54-66 | a function's complexity is 1 plus the weight of every node in its tree, whatever the visiting order |
| CodeParser.CalculateComplexity | external_resources/mcp_servers/code_parser_mcp/code_parser_mcp/server.py:54-66 | the loop over the walk computes exactly the complexity, 1 plus the tree's weight |
| CodeParser.ComplexityExample | external_resources/mcp_servers/code_parser_mcp/code_parser_mcp/server.py:56-64 | worked example, not a general property: an if, a three-operand "or", a for and a while give 6; a function with no branch gives 1 |
| CodeParser.LineCount | external_resources/mcp_servers/code_parser_mcp/code_parser_mcp/server.py:42 | splitting on newlines gives at least one line |
| CodeParser.SliceBound | external_resources/mcp_servers/code_parser_mcp/code_parser_mcp/server.py:42 | a Python slice bound is clamped into the list |
| CodeParser.SliceLength | external_resources/mcp_servers/code_parser_mcp/code_parser_mcp/server.py:41-43 | a slice is never longer than the list, and an in-range slice has stop - start elements |
| CodeParser.FunctionInfos | external_resources/mcp_servers/code_parser_mcp/code_parser_mcp/server.py:30-50 | at most one description per visited node |
| CodeParser.DescribeFunction | external_resources/mcp_servers/code_parser_mcp/code_parser_mcp/server.py:34-48 | the dictionary of one definition: name, first and last line (the first when no end is known), parameter names, docstring flag, the walked complexity and the length of its line slice |
| CodeParser.ExtractFunctions | external_resources/mcp_servers/code_parser_mcp/code_parser_mcp/server.py:25-52 | a syntax error gives no functions; otherwise the loop yields the descriptions of the function definitions in walk order |
| CodeParser.Exceeds | external_resources/mcp_servers/code_parser_mcp/code_parser_mcp/server.py:174-186 | only an integer above the threshold exceeds it, and an integer compares as an integer |
| CodeParser.Length | external_resources/mcp_servers/code_parser_mcp/code_parser_mcp/server.py:180 | a list's length is its number of items |
| CodeParser.Inspect | external_resources/mcp_servers/code_parser_mcp/code_parser_mcp/server.py:170-193 | a description has issues iff it breaks a threshold or lacks a docstring; the docstring issue is exactly a falsy "has_docstring" |
| CodeParser.Recommendations | external_resources/mcp_servers/code_parser_mcp/code_parser_mcp/server.py:204-219 | at most four recommendations, each present iff its counter is non-zero |
| CodeParser.AnalyzeComplexity | external_resources/mcp_servers/code_parser_mcp/code_parser_mcp/server.py:149-224 | the loop produces exactly the report Analyze describes, or its error |
| CodeParser.TallyFailureStays | external_resources/mcp_servers/code_parser_mcp/code_parser_mcp/server.py:160-224 | a description that raises makes the whole analysis the error answer |
| CodeParser.TallyBounds | external_resources/mcp_servers/code_parser_mcp/code_parser_mcp/server.py:168-202 | every listed function has an issue; each counter counts at most the listed functions, and each listed function bumped at least one counter |
| CodeParser.SkippedEntriesChangeNothing | external_resources/mcp_servers/code_parser_mcp/code_parser_mcp/server.py:169 | an entry that is not a dict or carries "error" changes no counter and lists nothing |
| CodeParser.ExtractedFunctionsAnalysable | external_resources/mcp_servers/code_parser_mcp/code_parser_mcp/server.py:25-52 | the descriptions extract_functions produces never make the analysis fail, and all of them are counted |
| CodeParser.TalliesInfos | external_resources/mcp_servers/code_parser_mcp/code_parser_mcp/server.py:168-202 | tallying extracted descriptions succeeds |
| LocaltimeServer.ListTools | external_resources/mcp_servers/stdio/localtime_mcp/localtime_mcp/server.py:18-20 | the tool list is exactly ["get_current_time"] |
| LocaltimeServer.Call | external_resources/mcp_servers/stdio/localtime_mcp/localtime_mcp/server.py:43 | a call succeeds iff the parameters are the empty mapping; `_list_tools` answers the tool list and `get_current_time` the clock's time; parameters that are not a mapping fail with "<module>.<name>() argument after ** must be a mapping, not <type>" |
| LocaltimeServer.Respond | external_resources/mcp_servers/stdio/localtime_mcp/localtime_mcp/server.py:37-60 | a known method with no parameters is answered with its result and the request's id; with parameters, an internal error -32603; an unknown hashable method name, -32601 "Method not found" with that id; a list or dict method name, -32603 "unhashable type: '<type>'" with that id |
| LocaltimeServer.Step | external_resources/mcp_servers/stdio/localtime_mcp/localtime_mcp/server.py:31-62 | a blank line is skipped; any other line adds exactly one response and never stops the loop |
| LocaltimeServer.Run | external_resources/mcp_servers/stdio/localtime_mcp/localtime_mcp/server.py:31-62 | the corrected loop never stops on a bad line |
| LocaltimeServer.Serve | external_resources/mcp_servers/stdio/localtime_mcp/localtime_mcp/server.py:23-62 | one output line per response of the corrected loop `Run` (not of `main` as written, whose defects the Findings show), each the serialisation of that response, in order |
| LocaltimeServer.OneResponsePerRequest | external_resources/mcp_servers/stdio/localtime_mcp/localtime_mcp/server.py:31-62 | exactly one response per non-blank input line |
| LocaltimeServer.ResponsesOnlyGrow | external_resources/mcp_servers/stdio/localtime_mcp/localtime_mcp/server.py:31-62 | serving more lines only extends the responses already written |
| LocaltimeServer.ParseFailureHasNullId | external_resources/mcp_servers/stdio/localtime_mcp/localtime_mcp/server.py:55-60 | an unparsable line or a request that is not a dict is answered with an internal error carrying the null id |
| LocaltimeServer.UnknownMethodAnswered | external_resources/mcp_servers/stdio/localtime_mcp/localtime_mcp/server.py:49-54 | an unknown method name is answered with -32601 "Method not found: <name>" and the request's id |
| LocaltimeServer.ListToolsAnswered | external_resources/mcp_servers/stdio/localtime_mcp/localtime_mcp/server.py:42-48 | a `_list_tools` request with id 1 is answered with the one tool and id 1 |
| LocaltimeServer.StepAsWritten | external_resources/mcp_servers/stdio/localtime_mcp/localtime_mcp/server.py:31-62 | as written, a blank line is skipped |
| LocaltimeServer.StaleIdAfterParseError | external_resources/mcp_servers/stdio/localtime_mcp/localtime_mcp/server.py:55-60 | as written, an unparsable line after a request with id 7 is answered with id 7; corrected, with the null id |
| LocaltimeServer.NonObjectRequestStopsServer | external_resources/mcp_servers/stdio/localtime_mcp/localtime_mcp/server.py:37-60 | as written, a JSON list on a line ends the server with no response and no later line answered; corrected, both lines are answered |

## Left out

- The `asterism.mcp.transport_executor` package that `asterism/mcp/executor.py` imports is not part of this model. The executor is modelled over the `src/agent` transports instead.
  - The abstract transport base class becomes the datatype `Transports.Transport`, with one variant per concrete class and dispatch functions, because traits are not used here.
  - The `cwd` argument of `start` is dropped.
  - `get_tool_schemas`, which `asterism/mcp/executor.py:152` calls on its transports, is defined by none of the `src/agent` transports. The model gives the stdio transport a stand-in, `Stdio.StdioTransport.GetToolSchemas`, that answers the whole "tools" list of a `tools/list` reply. On the SSE and HTTP-streaming transports the call raises the AttributeError text, as it would on the `src/agent` classes.
- The `asterism.mcp.config` module that `asterism/mcp/executor.py` imports is not part of this model. The executor uses the `src/agent/mcp/config.py` configuration.
- Real process and network I/O is left out because it cannot be modelled: pipes, HTTP sessions, timeouts, `terminate`/`kill`/`wait`. Each becomes a scripted input sequence or an outcome parameter.
- The ordering of concurrent events is left out because the shown code is single-threaded.
- Python's `str()`, `repr()` and dict iteration order are left out; they are the parameters `render` and `order` and the codec's `render` field. The model states which value is rendered, not its characters.
- Strs.ListRepr: always quotes an element with single quotes. Python's `repr` of a list switches to double quotes for a string that contains a single quote and no double quote, and escapes other characters; the model leaves that out.
- `json.loads`, `json.dumps`, `ast.literal_eval`, `yaml.safe_load`, `ast.parse` and file reading are partial functions passed in, because they are foreign code.
- Pydantic validation and coercion of the configuration and schema records are left out. The records are typed datatypes, and ill-typed values are not modelled.
- `Strs.Lower`, `Strs.Strip`, `Strs.IsSpace` and `ApiAuth.Words` cover ASCII case and ASCII white space only, because Python's Unicode tables are outside the model. Python's `split()` also splits at Unicode white space, such as the no-break space `\xa0` a latin-1 header can hold; the model keeps that character inside a word.
- Timestamps, durations, uuid-generated ids and logging are left out because they are clock- or random-bound and do not affect the decisions.
- The local-time clock is a function parameter, for the same reason.
- The LangGraph wiring is left out because it is framework code: `build`, node factories and compiled-graph execution. The graph's run is an oracle over the state.
- The SQLite checkpointer's storage and `Agent.clear_session` are left out because they are SQL persistence. Only the lazy creation and reuse of the connection is modelled.
- The prompt builders and prompt constant text are left out because they are fixed wording. So are the LLM-driven planner, evaluator, finalizer, architect, refiner and router nodes, which are foreign calls.
- The FastAPI front end is left out because it is HTTP framework code. `Config.get_api_keys` is not defined in `asterism/config/config.py`, so the configured keys are the parameter `validKeys` of `ApiAuth.GetApiKey`.
- Skill directory discovery and the `Path(__file__)` location are left out because they are filesystem-bound. `SkillLoader.AvailableSkillsDescription` takes the directory names as a parameter.
- Path normalisation of the workspace root is left out for the same reason.
- `format_available_tools` in `src/agent/utils/tool_parser.py` is left out because it reads the global MCP configuration.
- The code-parser tools `parse_functions` and `get_function_details` are left out because they are file reading and path checks. Only `extract_functions`, `_calculate_complexity` and `analyze_complexity` are modelled.
- The router's `set_model`, `name` and `model` properties and `BaseLLMProvider.set_model` are left out because they are trivial delegations.
- Streaming tokens are whole strings produced by an oracle per attempt, because token timing is I/O.
- Global singletons (`get_mcp_executor`, `get_mcp_config`) are left out. Explicitly constructed objects are modelled instead. The one singleton the core relies on, `AppConfig.Registry`, is modelled as an object.
- The older workflow's state is modelled on values. `src/agent/nodes/auditor.py` mutates the milestone object inside the state's list, and the model writes the change into the list instead. The aliasing itself is not captured.
- HttpStream.PairOf: a pair whose key is a number, a boolean or null is stored under that key's `json.dumps` text. Python keeps the non-string key itself, so such a key and the string of its text stay two entries there. An element that is an object with exactly two keys raises a text of the model's own; Python reads its two keys, in the object's order, as key and value.
- HttpStream.MergeLine: inherits the two gaps of `HttpStream.PairOf` for a line holding a list. A line holding a floating-point number is outside the JSON model.
- HttpStream.MergeStream: inherits the gaps of `HttpStream.MergeLine`.
- HttpStream.HttpStreamTransport.ExecuteTool: inherits the gaps of `HttpStream.MergeLine` in the merge of a 200 reply.
- AppConfig.Config.Init: the configuration file is the workspace path and "/config.yaml" joined as text. Python joins with `Path`, which drops a leading "./" and repeated or trailing separators, so the default file is "workspace/config.yaml" there and "./workspace/config.yaml" here.
- McpExecutor.Executor.constructor: takes a configuration object as made. For an explicit path, `asterism/mcp/executor.py:27-29` also calls `load_config` at once and lets its exception escape; the `asterism.mcp.config` module that call belongs to is not part of this model, and the model's configuration loads on first use instead.
- ProviderRouter.Router.constructor: keeps the models section it is given. Python reads `config.data.models` again on every request, so it would see a later change to the shared configuration object, such as the left-out `set_model`.
- Shallow `.copy()` of a state (`asterism/agent/nodes/shared/state_utils.py`, `asterism/agent/nodes/executor.py:23`) or of the execution context (`src/agent/nodes/executor.py:83`) is modelled as a copy of the value. The nested lists and dicts that Python's copy shares with the original are not modelled as shared.
- MilestoneExecutor.UpdateExecutionContext: a "path" parameter that is not a string is stored under its rendering. Python keys the file preview by the value itself, and raises "unhashable type" for a list or dict path; the model does not raise there.
- TaskExecutor.KeywordClash: when a tool input holds more than one of `self`, `server_name` and `tool_name`, the model reports them in that order of preference. Python reports whichever it meets first in the input's iteration order.
- Floating-point fields are left out because they carry no decision: timings and durations.

## Findings

| source | as written | input that shows it | evidently intended | confidence | as-written member | corrected member |
|---|---|---|---|---|---|---|
| external_resources/mcp_servers/stdio/localtime_mcp/localtime_mcp/server.py:55-60 | the error handler reads the id from `request` whenever that name exists in the function's locals, and it still holds the previous line's request after `json.loads` fails | a request `{"method": "_list_tools", "id": 7}` followed by a line that is not JSON: the parse error is answered with id 7 | a request that cannot be parsed is answered with the null id (section 5 of JSON-RPC 2.0) | not executed | LocaltimeServer.StaleIdAfterParseError | LocaltimeServer.ParseFailureHasNullId |
| external_resources/mcp_servers/stdio/localtime_mcp/localtime_mcp/server.py:37-60 | when a line parses to a JSON value that is not an object, `request.get` raises inside the try; the handler's own `request.get("id")` raises again and escapes the loop | a line `[]` followed by a valid `_list_tools` request: the server stops, and neither line is answered | every non-blank line is answered, and the loop goes on | not executed | LocaltimeServer.NonObjectRequestStopsServer | LocaltimeServer.Step |
