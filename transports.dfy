/** The three transports behind one interface, and the `create_transport`
    factory that picks one by its kind name. The interface is a datatype
    with one variant per transport class; each operation dispatches on it. */
module Transports {
  import opened Wrappers
  import opened Json
  import Stdio
  import Sse
  import HttpStream
  import Web

  datatype Kind = StdioKind | SseKind | HttpStreamKind

  /** What is at the other end of a server's command line, for each way of
      reaching it. */
  datatype Peer = Peer(stdio: Stdio.ChildScript, sse: Sse.SseScript, http: HttpStream.HttpScript)

  datatype Transport =
    | StdioT(s: Stdio.StdioTransport)
    | SseT(e: Sse.SseTransport)
    | HttpT(h: HttpStream.HttpStreamTransport)

  function KindName(k: Kind): string {
    match k
    case StdioKind => "stdio"
    case SseKind => "sse"
    case HttpStreamKind => "http_stream"
  }

  /** The factory's if/elif chain: exactly three names are known. */
  function KindOf(name: string): (r: Result<Kind>)
    ensures r.Success? <==> name in {"stdio", "sse", "http_stream"}
    ensures r.Success? ==> KindName(r.value) == name
    ensures r.Failure? ==> r.error == "Unsupported transport type: " + name
  {
    if name == "stdio" then Success(StdioKind)
    else if name == "sse" then Success(SseKind)
    else if name == "http_stream" then Success(HttpStreamKind)
    else Failure("Unsupported transport type: " + name)
  }

  function KindOfTransport(t: Transport): Kind {
    match t
    case StdioT(_) => StdioKind
    case SseT(_) => SseKind
    case HttpT(_) => HttpStreamKind
  }

  /** The object that holds a transport's state. */
  function ObjectOf(t: Transport): object {
    match t
    case StdioT(s) => s
    case SseT(e) => e
    case HttpT(h) => h
  }

  ghost predicate Valid(t: Transport)
    reads ObjectOf(t)
  {
    match t
    case StdioT(s) => s.Valid()
    case SseT(_) => true
    case HttpT(_) => true
  }

  /** `is_alive`, answered by the transport's own class. */
  predicate IsAlive(t: Transport): (alive: bool)
    reads ObjectOf(t)
    ensures Unstarted(t) ==> !alive
    ensures t.StdioT? ==> (alive <==> t.s.process.Some? && t.s.process.value.running)
    ensures t.SseT? ==> (alive <==> t.e.session && t.e.baseUrl.Some?)
    ensures t.HttpT? ==> (alive <==> t.h.session && t.h.baseUrl.Some?)
  {
    match t
    case StdioT(s) => s.IsAlive()
    case SseT(e) => e.IsAlive()
    case HttpT(h) => h.IsAlive()
  }

  /** A transport as the factory returns it: not started, not alive,
      nothing sent yet. */
  ghost predicate Unstarted(t: Transport)
    reads ObjectOf(t)
  {
    match t
    case StdioT(s) => s.process.None? && s.requestId == 0 && !s.initialized && s.stdin == [] && s.sent == []
    case SseT(e) => !e.session && e.baseUrl.None? && e.stream.None? && e.posts == [] && e.posted == []
    case HttpT(h) => !h.session && h.baseUrl.None? && h.posts == [] && h.posted == []
  }

  /** The codec a transport was made with. */
  function CodecOf(t: Transport): Codec {
    match t
    case StdioT(s) => s.codec
    case SseT(e) => e.codec
    case HttpT(h) => h.codec
  }

  /** The part of a transport's state that decides its next answers, and
      what it has sent so far: for stdio the handshake flag, the child, the
      last request id and every message written; for the HTTP transports
      whether they are connected, the answers the server still has for
      POSTs, (SSE) the event stream, the base URL and every POST made, as
      its URL and body. */
  datatype State =
    | StdioState(initialized: bool, process: Option<Stdio.Process>, lastId: int, sent: seq<Json>)
    | SseState(connected: bool, posts: seq<Web.Post>, stream: Option<Sse.EventStream>,
               base: string, posted: seq<(string, Json)>)
    | HttpState(connected: bool, posts: seq<Web.Post>, base: string, posted: seq<(string, Json)>)

  /** The base URL, or "" before one is set. */
  function BaseOf(url: Option<string>): string {
    if url.Some? then url.value else ""
  }

  ghost function StateOf(t: Transport): State
    reads ObjectOf(t)
  {
    match t
    case StdioT(s) => StdioState(s.initialized, s.process, s.requestId, s.sent)
    case SseT(e) => SseState(e.IsAlive(), e.posts, e.stream, BaseOf(e.baseUrl), e.posted)
    case HttpT(h) => HttpState(h.IsAlive(), h.posts, BaseOf(h.baseUrl), h.posted)
  }

  /** The POST `execute_tool(tool, **kwargs)` makes: the tool's URL under the
      base URL, and the keyword arguments as the JSON body. */
  function ToolPost(base: string, tool: string, kwargs: map<string, Json>): (string, Json) {
    (base + "/tools/" + tool, Obj(kwargs))
  }

  /** A stdio child that is running, with its next output line consumed. */
  function Consumed(p: Option<Stdio.Process>): Option<Stdio.Process>
    requires p.Some?
  {
    Some(p.value.(stdout := Stdio.RestLines(p.value.stdout)))
  }

  predicate Running(p: Option<Stdio.Process>) {
    p.Some? && p.value.running
  }

  /** The outcome of the health check `start` makes over HTTP. */
  function HealthCheck(h: Web.Health, unreachable: string): Result<()> {
    match h
    case HealthUnreachable(m) => Failure(unreachable + m)
    case HealthAnswer(ok, text) => if ok then Success(()) else Failure("Server health check failed: " + text)
  }

  /** `start` on a transport of kind `k` as the factory made it: its answer
      and the state it leaves. */
  function StartStep(k: Kind, codec: Codec, command: Option<string>, args: seq<string>, peer: Peer): (Result<()>, State) {
    match k
    case StdioKind =>
      var child := peer.stdio;
      if command.None? then (Stdio.StartFailure(Stdio.NoCommand), StdioState(false, None, 0, []))
      else if child.spawnError.Some? then (Stdio.StartFailure(child.spawnError.value), StdioState(false, None, 0, []))
      else
        var reply := Stdio.InitReply(codec, Stdio.NextLine(child.output));
        (if reply.Success? then Success(()) else Stdio.StartFailure(reply.error),
         StdioState(reply.Success?, Some(Stdio.Process(!child.exitsAtOnce, Stdio.RestLines(child.output), child.exitsOnTerminate)),
                    1, Handshake(reply.Success?)))
    case SseKind =>
      if args == [] then (Failure("SSE transport requires server URL in args"), SseState(false, [], None, "", []))
      else
        var r := HealthCheck(peer.sse.health, "SSE connection failed: ");
        (r, SseState(true, peer.sse.posts,
                     if r.Success? then Some(Sse.EventStream(false, peer.sse.streamError, peer.sse.events, false)) else None,
                     args[0], []))
    case HttpStreamKind =>
      if args == [] then (Failure("HTTP transport requires server URL in args"), HttpState(false, [], "", []))
      else (HealthCheck(peer.http.health, "HTTP connection failed: "), HttpState(true, peer.http.posts, args[0], []))
  }

  /** What a fresh stdio transport writes while starting: the `initialize`
      request with id 1, then the notification when the reply is accepted. */
  function Handshake(accepted: bool): seq<Json> {
    [Stdio.InitRequest(1)] + (if accepted then [Stdio.InitializedNotification()] else [])
  }

  /** `execute_tool(tool, **kwargs)` from state `st`: its answer and the next
      state, which records the request or POST carrying `kwargs`. */
  function CallStep(codec: Codec, st: State, tool: string, kwargs: map<string, Json>): (Result<Json>, State) {
    match st
    case StdioState(init, p, id, sent) =>
      if !init then (Failure("MCP server not initialized"), st)
      else if !Running(p) then (Failure("Server process is not running"), st)
      else (Stdio.CallAnswer(codec, Stdio.NextLine(p.value.stdout)),
            StdioState(init, Consumed(p), id + 1,
                       sent + [Stdio.Request("tools/call", Some(Stdio.CallParams(tool, kwargs)), id + 1)]))
    case SseState(connected, posts, stream, base, posted) =>
      if !connected then (Failure("SSE transport is not connected"), st)
      else (Sse.SseReply(codec, Web.NextPost(posts), stream, tool),
            SseState(connected, Web.RestPosts(posts), Sse.StreamAfter(codec, Web.NextPost(posts), stream, tool),
                     base, posted + [ToolPost(base, tool, kwargs)]))
    case HttpState(connected, posts, base, posted) =>
      if !connected then (Failure("HTTP transport is not connected"), st)
      else (HttpStream.PostReply(codec, Web.NextPost(posts)),
            HttpState(connected, Web.RestPosts(posts), base, posted + [ToolPost(base, tool, kwargs)]))
  }

  /** A stdio state after one `tools/list` request has been answered. */
  function Listed(p: Option<Stdio.Process>, id: int, sent: seq<Json>): State
    requires p.Some?
  {
    StdioState(true, Consumed(p), id + 1, sent + [Stdio.Request("tools/list", None, id + 1)])
  }

  /** `list_tools()` from state `st`: its answer and the next state. The
      HTTP transports list through `execute_tool("_list_tools")`. */
  function ListStep(codec: Codec, st: State): (Result<Json>, State) {
    match st
    case StdioState(init, p, id, sent) =>
      if !init then (Failure("MCP server not initialized"), st)
      else if !Running(p) then (Failure("Server process is not running"), st)
      else
        (match Stdio.ListAnswer(codec, Stdio.NextLine(p.value.stdout))
         case Success(names) => Success(Arr(names))
         case Failure(e) => Failure(e),
         Listed(p, id, sent))
    case SseState(connected, _, _, _, _) =>
      if !connected then (Success(Arr([])), st)
      else
        var (reply, next) := CallStep(codec, st, "_list_tools", map[]);
        (Success(Web.ToolsOfReply(reply)), next)
    case HttpState(connected, _, _, _) =>
      if !connected then (Success(Arr([])), st)
      else
        var (reply, next) := CallStep(codec, st, "_list_tools", map[]);
        (Success(Web.ToolsOfReply(reply)), next)
  }

  /** `get_tool_schemas()` from state `st`: its answer and the next state. */
  function SchemasStep(codec: Codec, st: State): (Result<Json>, State) {
    match st
    case StdioState(init, p, id, sent) =>
      if !init then (Failure("MCP server not initialized"), st)
      else if !Running(p) then (Failure("Server process is not running"), st)
      else (Stdio.SchemasAnswer(codec, Stdio.NextLine(p.value.stdout)), Listed(p, id, sent))
    case SseState(_, _, _, _, _) => (Failure(NoAttribute("SSETransport", "get_tool_schemas")), st)
    case HttpState(_, _, _, _) => (Failure(NoAttribute("HTTPStreamTransport", "get_tool_schemas")), st)
  }

  /** `create_transport`: every call returns a new, unstarted instance of
      the class the kind names; an unknown kind raises. */
  method CreateTransport(kind: string, codec: Codec) returns (r: Result<Transport>)
    ensures r.Success? <==> KindOf(kind).Success?
    ensures r.Failure? ==> r == Failure("Unsupported transport type: " + kind)
    ensures r.Success? ==> KindOfTransport(r.value) == KindOf(kind).value
    ensures r.Success? ==> fresh(ObjectOf(r.value)) && Valid(r.value) && Unstarted(r.value) && !IsAlive(r.value)
    ensures r.Success? ==> CodecOf(r.value) == codec
  {
    var k := KindOf(kind);
    if k.Failure? {
      return Failure(k.error);
    }
    match k.value
    case StdioKind =>
      var s := new Stdio.StdioTransport(codec);
      r := Success(StdioT(s));
    case SseKind =>
      var e := new Sse.SseTransport(codec);
      r := Success(SseT(e));
    case HttpStreamKind =>
      var h := new HttpStream.HttpStreamTransport(codec);
      r := Success(HttpT(h));
  }

  method Start(t: Transport, command: Option<string>, args: seq<string>, peer: Peer) returns (r: Result<()>)
    requires Valid(t)
    modifies ObjectOf(t)
    ensures Valid(t)
    ensures old(Unstarted(t)) ==> (r, StateOf(t)) == StartStep(KindOfTransport(t), CodecOf(t), command, args, peer)
  {
    match t
    case StdioT(s) =>
      ghost var fresh0 := old(Unstarted(t));
      r := s.Start(command, args, peer.stdio);
      if fresh0 {
        // the log is as long as what was written, so nothing written means nothing sent
        assert |s.sent| == |s.stdin|;
        if command.Some? && peer.stdio.spawnError.None? {
          assert s.sent == [] + Handshake(s.initialized);
          var reply := Stdio.InitReply(s.codec, Stdio.NextLine(peer.stdio.output));
          assert s.sent == Handshake(reply.Success?);
          var child := Stdio.Process(!peer.stdio.exitsAtOnce, Stdio.RestLines(peer.stdio.output), peer.stdio.exitsOnTerminate);
          assert StateOf(t) == StdioState(reply.Success?, Some(child), 1, Handshake(reply.Success?));
          assert r == (if reply.Success? then Success(()) else Stdio.StartFailure(reply.error));
        } else {
          assert s.sent == [] && s.requestId == 0 && s.process.None? && !s.initialized;
        }
        assert (r, StateOf(t)) == StartStep(KindOfTransport(t), CodecOf(t), command, args, peer);
      }
    case SseT(e) =>
      ghost var fresh0 := old(Unstarted(t));
      r := e.Start(command, args, peer.sse);
      if fresh0 {
        assert (r, StateOf(t)) == StartStep(KindOfTransport(t), CodecOf(t), command, args, peer);
      }
    case HttpT(h) =>
      ghost var fresh0 := old(Unstarted(t));
      r := h.Start(command, args, peer.http);
      if fresh0 {
        assert (r, StateOf(t)) == StartStep(KindOfTransport(t), CodecOf(t), command, args, peer);
      }
  }

  /** `execute_tool`: each transport's own answer, passed through; the
      keyword arguments are what the transport sends. */
  method ExecuteTool(t: Transport, tool: string, kwargs: map<string, Json>) returns (r: Result<Json>)
    requires Valid(t)
    modifies ObjectOf(t)
    ensures Valid(t)
    ensures t.StdioT? ==>
      if !old(t.s.initialized) then r == Failure("MCP server not initialized")
      else if !old(t.s.IsAlive()) then r == Failure("Server process is not running")
      else r == Stdio.CallAnswer(t.s.codec, Stdio.NextLine(old(t.s.process.value.stdout)))
    ensures t.SseT? ==>
      r == if !old(t.e.IsAlive()) then Failure("SSE transport is not connected")
           else Sse.SseReply(t.e.codec, Web.NextPost(old(t.e.posts)), old(t.e.stream), tool)
    ensures t.HttpT? ==>
      r == if !old(t.h.IsAlive()) then Failure("HTTP transport is not connected")
           else HttpStream.PostReply(t.h.codec, Web.NextPost(old(t.h.posts)))
    ensures (r, StateOf(t)) == CallStep(CodecOf(t), old(StateOf(t)), tool, kwargs)
  {
    match t
    case StdioT(s) => r := s.ExecuteTool(tool, kwargs);
    case SseT(e) => r := e.ExecuteTool(tool, kwargs);
    case HttpT(h) => r := h.ExecuteTool(tool, kwargs);
  }

  /** `list_tools`: the stdio transport may raise; the HTTP transports
      answer [] instead. */
  method ListTools(t: Transport) returns (r: Result<Json>)
    requires Valid(t)
    modifies ObjectOf(t)
    ensures Valid(t)
    ensures t.StdioT? ==>
      if !old(t.s.initialized) then r == Failure("MCP server not initialized")
      else if !old(t.s.IsAlive()) then r == Failure("Server process is not running")
      else r == match Stdio.ListAnswer(t.s.codec, Stdio.NextLine(old(t.s.process.value.stdout)))
                case Success(names) => Success(Arr(names))
                case Failure(e) => Failure(e)
    ensures t.SseT? ==>
      r == Success(if !old(t.e.IsAlive()) then Arr([])
                   else Web.ToolsOfReply(Sse.SseReply(t.e.codec, Web.NextPost(old(t.e.posts)), old(t.e.stream), "_list_tools")))
    ensures t.HttpT? ==>
      r == Success(if !old(t.h.IsAlive()) then Arr([])
                   else Web.ToolsOfReply(HttpStream.PostReply(t.h.codec, Web.NextPost(old(t.h.posts)))))
    ensures (r, StateOf(t)) == ListStep(CodecOf(t), old(StateOf(t)))
  {
    match t
    case StdioT(s) =>
      var names := s.ListTools();
      r := if names.Success? then Success(Arr(names.value)) else Failure(names.error);
    case SseT(e) =>
      var tools := e.ListTools();
      r := Success(tools);
    case HttpT(h) =>
      var tools := h.ListTools();
      r := Success(tools);
  }

  /** The AttributeError text for a missing attribute. */
  function NoAttribute(owner: string, attribute: string): string {
    "'" + owner + "' object has no attribute '" + attribute + "'"
  }

  /** `get_tool_schemas`: only the stdio transport has it; on the others
      the attribute lookup raises. */
  method GetToolSchemas(t: Transport) returns (r: Result<Json>)
    requires Valid(t)
    modifies ObjectOf(t)
    ensures Valid(t)
    ensures t.StdioT? ==>
      if !old(t.s.initialized) then r == Failure("MCP server not initialized")
      else if !old(t.s.IsAlive()) then r == Failure("Server process is not running")
      else r == Stdio.SchemasAnswer(t.s.codec, Stdio.NextLine(old(t.s.process.value.stdout)))
    ensures t.SseT? ==> r == Failure(NoAttribute("SSETransport", "get_tool_schemas"))
    ensures t.HttpT? ==> r == Failure(NoAttribute("HTTPStreamTransport", "get_tool_schemas"))
    ensures (r, StateOf(t)) == SchemasStep(CodecOf(t), old(StateOf(t)))
  {
    match t
    case StdioT(s) => r := s.GetToolSchemas();
    case SseT(_) => r := Failure(NoAttribute("SSETransport", "get_tool_schemas"));
    case HttpT(_) => r := Failure(NoAttribute("HTTPStreamTransport", "get_tool_schemas"));
  }

  /** `stop`: afterwards the transport is not alive. */
  method Stop(t: Transport)
    requires Valid(t)
    modifies ObjectOf(t)
    ensures Valid(t) && !IsAlive(t)
  {
    match t
    case StdioT(s) => s.Stop();
    case SseT(e) => e.Stop();
    case HttpT(h) => h.Stop();
  }
}
