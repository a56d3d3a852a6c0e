/** The Server-Sent-Events MCP transport: a session and a base URL, one
    shared event stream opened at start, and one POST per tool call whose
    answer is the first streamed event naming that tool. */
module Sse {
  import opened Wrappers
  import opened Json
  import opened Web

  /** The server at the other end: its health-check answer, whether the GET
      of `<base>/events` fails, the lines of its event stream, and its
      answers to POSTs, in order. */
  datatype SseScript = SseScript(health: Health, streamError: Option<string>, events: seq<string>, posts: seq<Post>)

  /** The generator `_create_event_stream` returns. Its GET runs only when
      it is first advanced; once it has raised or run out it yields nothing
      more. */
  datatype EventStream = EventStream(started: bool, openError: Option<string>, lines: seq<string>, finished: bool)

  /** What advancing the generator gives: an event, the end, a request
      exception of the GET, or a line that is not JSON. */
  datatype Step = Yielded(event: Json) | Exhausted | RequestError(reason: string) | DecodeError(reason: string)

  const Timeout: nat := 30

  function Measure(s: EventStream): nat {
    if s.finished then 0 else |s.lines| + (if s.started then 1 else 2)
  }

  /** One `next()` on the generator: blank lines are skipped, every other
      line is decoded as JSON. */
  function NextEvent(codec: Codec, s: EventStream): (r: (Step, EventStream))
    ensures r.0.Yielded? ==> Measure(r.1) < Measure(s) && !r.1.finished
    ensures !r.0.Yielded? ==> r.1.finished
    ensures s.finished ==> r == (Exhausted, s)
    decreases |s.lines| + (if s.started then 0 else 1)
  {
    if s.finished then (Exhausted, s)
    else if !s.started then
      if s.openError.Some? then (RequestError(s.openError.value), s.(started := true, finished := true))
      else NextEvent(codec, s.(started := true))
    else if s.lines == [] then (Exhausted, s.(finished := true))
    else if s.lines[0] == "" then NextEvent(codec, s.(lines := s.lines[1..]))
    else match codec.loads(s.lines[0])
      case None => (DecodeError(codec.loadsError(s.lines[0])), s.(lines := s.lines[1..], finished := true))
      case Some(j) => (Yielded(j), s.(lines := s.lines[1..]))
  }

  /** The `for event in self._event_stream` loop of `execute_tool`: the
      reply and the stream as the loop leaves it. Events for other tools
      are consumed and dropped. */
  function AwaitTool(codec: Codec, s: EventStream, tool: string): (Result<Json>, EventStream)
    decreases Measure(s)
  {
    var (step, rest) := NextEvent(codec, s);
    match step
    case Exhausted => (Success(ErrReply("No response received from server")), rest)
    case RequestError(m) => (Success(ErrReply("SSE request failed: " + m)), rest)
    case DecodeError(m) => (Failure(m), rest)
    case Yielded(event) =>
      match Get(event, "tool", Null)
      case Failure(e) => (Failure(e), rest)
      case Success(t) =>
        if t == Str(tool) then (Success(OkReply(Get(event, "result", Null).value)), rest)
        else AwaitTool(codec, rest, tool)
  }

  /** The reply `execute_tool` returns for the server's answer to its
      POST, given the event stream it then reads. */
  function SseReply(codec: Codec, answer: Post, stream: Option<EventStream>, tool: string): Result<Json> {
    match answer
    case PostUnreachable(m) => Success(ErrReply("SSE request failed: " + m))
    case PostAnswer(status, text, _) =>
      if status != 200 then Success(ErrReply(HttpError(status, text)))
      else if stream.None? then Failure("'NoneType' object is not iterable")
      else AwaitTool(codec, stream.value, tool).0
  }

  /** The event stream as `execute_tool` leaves it: read only after a 200
      answer, up to the event that settles the call. */
  function StreamAfter(codec: Codec, answer: Post, stream: Option<EventStream>, tool: string): Option<EventStream> {
    match answer
    case PostUnreachable(_) => stream
    case PostAnswer(status, _, _) =>
      if status != 200 || stream.None? then stream
      else Some(AwaitTool(codec, stream.value, tool).1)
  }

  class SseTransport {
    const codec: Codec
    /** `_session is not None`. */
    var session: bool
    var baseUrl: Option<string>
    /** `_event_stream`. */
    var stream: Option<EventStream>
    /** The answers the server still has for POSTs. */
    var posts: seq<Post>
    /** Every POST sent: its URL and JSON body. */
    var posted: seq<(string, Json)>

    constructor (codec: Codec)
      ensures this.codec == codec && !session && baseUrl == None && stream == None
      ensures posts == [] && posted == []
    {
      this.codec := codec;
      session := false;
      baseUrl := None;
      stream := None;
      posts := [];
      posted := [];
    }

    /** `is_alive`: both a session and a base URL are set. */
    predicate IsAlive(): (alive: bool)
      reads this
      ensures !session || baseUrl.None? ==> !alive
      ensures session && baseUrl.Some? ==> alive
    {
      session && baseUrl.Some?
    }

    /** `start`: args[0] is the base URL. A failed health check raises but
        leaves session and base URL set, so the transport still looks alive;
        only a healthy server gets an event stream. */
    method Start(command: Option<string>, args: seq<string>, server: SseScript) returns (r: Result<()>)
      modifies this
      ensures posted == old(posted)
      ensures args == [] ==> r == Failure("SSE transport requires server URL in args") && unchanged(this)
      ensures args != [] ==> session && baseUrl == Some(args[0]) && posts == server.posts && IsAlive()
      ensures args != [] ==> r == match server.health
        case HealthUnreachable(m) => Failure("SSE connection failed: " + m)
        case HealthAnswer(ok, text) => if ok then Success(()) else Failure("Server health check failed: " + text)
      ensures args != [] ==>
        stream == (if r.Success? then Some(EventStream(false, server.streamError, server.events, false)) else old(stream))
    {
      if args == [] {
        return Failure("SSE transport requires server URL in args");
      }
      baseUrl := Some(args[0]);
      session := true;
      posts := server.posts;
      match server.health
      case HealthUnreachable(m) =>
        return Failure("SSE connection failed: " + m);
      case HealthAnswer(ok, text) =>
        if !ok {
          return Failure("Server health check failed: " + text);
        }
      stream := Some(EventStream(false, server.streamError, server.events, false));
      r := Success(());
    }

    /** `stop`: closes the stream and clears session and base URL; repeating
        it is harmless. */
    method Stop()
      modifies this
      ensures !session && baseUrl == None && stream == None && !IsAlive()
      ensures posts == old(posts) && posted == old(posted)
    {
      stream := None;
      session := false;
      baseUrl := None;
    }

    /** `execute_tool`: one POST of the keyword arguments, then the first
        streamed event naming the tool. Without a stream (start's health
        check failed) iterating None raises. */
    method ExecuteTool(tool: string, kwargs: map<string, Json>) returns (r: Result<Json>)
      modifies this
      ensures session == old(session) && baseUrl == old(baseUrl)
      ensures !old(IsAlive()) ==> r == Failure("SSE transport is not connected") && unchanged(this)
      ensures old(IsAlive()) ==>
        && posted == old(posted) + [(old(baseUrl.value) + "/tools/" + tool, Obj(kwargs))]
        && posts == RestPosts(old(posts))
      ensures old(IsAlive()) ==>
        match NextPost(old(posts))
        case PostUnreachable(m) => r == Success(ErrReply("SSE request failed: " + m)) && stream == old(stream)
        case PostAnswer(status, text, _) =>
          if status != 200 then r == Success(ErrReply(HttpError(status, text))) && stream == old(stream)
          else if old(stream).None? then r == Failure("'NoneType' object is not iterable") && stream == None
          else stream.Some? && (r, stream.value) == AwaitTool(codec, old(stream).value, tool)
      ensures old(IsAlive()) ==> r == SseReply(codec, NextPost(old(posts)), old(stream), tool)
      ensures old(IsAlive()) ==> stream == StreamAfter(codec, NextPost(old(posts)), old(stream), tool)
    {
      if !IsAlive() {
        return Failure("SSE transport is not connected");
      }
      var url := baseUrl.value + "/tools/" + tool;
      posted := posted + [(url, Obj(kwargs))];
      var answer := NextPost(posts);
      posts := RestPosts(posts);
      match answer
      case PostUnreachable(m) =>
        return Success(ErrReply("SSE request failed: " + m));
      case PostAnswer(status, text, _) =>
        if status != 200 {
          return Success(ErrReply(HttpError(status, text)));
        }
      if stream.None? {
        return Failure("'NoneType' object is not iterable");
      }
      ghost var goal := AwaitTool(codec, stream.value, tool);
      while true
        invariant stream.Some? && AwaitTool(codec, stream.value, tool) == goal
        invariant session == old(session) && baseUrl == old(baseUrl)
        invariant posted == old(posted) + [(url, Obj(kwargs))] && posts == RestPosts(old(posts))
        decreases Measure(stream.value)
      {
        var (step, rest) := NextEvent(codec, stream.value);
        stream := Some(rest);
        match step
        case Exhausted =>
          return Success(ErrReply("No response received from server"));
        case RequestError(m) =>
          return Success(ErrReply("SSE request failed: " + m));
        case DecodeError(m) =>
          return Failure(m);
        case Yielded(event) =>
          var t := Get(event, "tool", Null);
          if t.Failure? {
            return Failure(t.error);
          }
          if t.value == Str(tool) {
            return Success(OkReply(Get(event, "result", Null).value));
          }
      }
    }

    /** `list_tools`: the "tools" of a successful `_list_tools` call, else []. */
    method ListTools() returns (tools: Json)
      modifies this
      ensures session == old(session) && baseUrl == old(baseUrl)
      ensures !old(IsAlive()) ==> tools == Arr([]) && unchanged(this)
      ensures old(IsAlive()) ==>
        && posted == old(posted) + [(old(baseUrl.value) + "/tools/" + "_list_tools", Obj(map[]))]
        && posts == RestPosts(old(posts))
      ensures old(IsAlive()) ==> tools == ToolsOfReply(SseReply(codec, NextPost(old(posts)), old(stream), "_list_tools"))
      ensures old(IsAlive()) ==> stream == StreamAfter(codec, NextPost(old(posts)), old(stream), "_list_tools")
      ensures old(IsAlive()) && NextPost(old(posts)).PostUnreachable? ==> tools == Arr([])
    {
      var reply := ExecuteTool("_list_tools", map[]);
      tools := ToolsOfReply(reply);
    }
  }

  /** A stream line the loop passes over while waiting for `tool`: blank,
      or an object for some other tool. */
  predicate OtherToolLine(codec: Codec, line: string, tool: string) {
    line == "" ||
    (codec.loads(line).Some? && codec.loads(line).value.Obj?
     && Get(codec.loads(line).value, "tool", Null).value != Str(tool))
  }

  /** A stream line carrying an event for `tool`. */
  predicate ToolLine(codec: Codec, line: string, tool: string) {
    line != "" && codec.loads(line).Some? && codec.loads(line).value.Obj?
    && Get(codec.loads(line).value, "tool", Null).value == Str(tool)
  }

  /** The first event naming the tool answers the call; every event before
      it is consumed and lost, and the stream resumes right after it. */
  lemma {:induction false} FirstMatchWins(codec: Codec, openError: Option<string>, pre: seq<string>, hit: string,
                                          rest: seq<string>, tool: string)
    requires forall k :: 0 <= k < |pre| ==> OtherToolLine(codec, pre[k], tool)
    requires ToolLine(codec, hit, tool)
    ensures AwaitTool(codec, EventStream(true, openError, pre + [hit] + rest, false), tool)
      == (Success(OkReply(Get(codec.loads(hit).value, "result", Null).value)), EventStream(true, openError, rest, false))
    decreases |pre|
  {
    var s := EventStream(true, openError, pre + [hit] + rest, false);
    if pre == [] {
      assert s.lines == [hit] + rest;
      assert s.lines[1..] == rest;
    } else {
      assert s.lines[0] == pre[0];
      assert s.lines[1..] == pre[1..] + [hit] + rest;
      FirstMatchWins(codec, openError, pre[1..], hit, rest, tool);
    }
  }

  /** When no event names the tool, the whole stream is drained and the
      call reports that no response came. */
  lemma {:induction false} NoMatchDrains(codec: Codec, openError: Option<string>, lines: seq<string>, tool: string)
    requires forall k :: 0 <= k < |lines| ==> OtherToolLine(codec, lines[k], tool)
    ensures AwaitTool(codec, EventStream(true, openError, lines, false), tool)
      == (Success(ErrReply("No response received from server")), EventStream(true, openError, [], true))
    decreases |lines|
  {
    if lines != [] {
      NoMatchDrains(codec, openError, lines[1..], tool);
    }
  }
}
