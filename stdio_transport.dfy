/** The stdio MCP transport: a child process spoken to in newline-delimited
    JSON-RPC 2.0 over its standard input and output.

    The child process is replaced by a script: whether spawning it fails,
    the lines it will print, whether it has already exited, and whether it
    exits within the five-second wait after being terminated. Writes to its
    standard input are recorded, both as text and (ghost) as the messages
    they encode. */
module Stdio {
  import opened Wrappers
  import opened Json
  import opened Schemas

  /** What the child process does, as far as the transport can observe it. */
  datatype ChildScript = ChildScript(
    spawnError: Option<string>,
    output: seq<string>,
    exitsAtOnce: bool,
    exitsOnTerminate: bool)

  /** A spawned child: whether `poll()` still reports it running, the lines
      of its standard output not read yet, and how it answers SIGTERM. */
  datatype Process = Process(running: bool, stdout: seq<string>, exitsOnTerminate: bool)

  datatype Signal = Terminate | Kill

  const ProtocolVersion: string := "2024-11-05"

  /** `readline()`: the next line, or "" at end of file. */
  function NextLine(lines: seq<string>): string {
    if lines == [] then "" else lines[0]
  }

  function RestLines(lines: seq<string>): seq<string> {
    if lines == [] then [] else lines[1..]
  }

  /** A JSON-RPC 2.0 request (section 4 of the JSON-RPC 2.0 specification);
      "params" is left out when there are none. */
  function Request(name: string, params: Option<Json>, id: int): (r: Json)
    ensures IsMessage(r) && "id" in r.fields && r.fields["id"] == Int(id)
    ensures "params" in r.fields <==> params.Some?
    ensures params.Some? ==> r.fields["params"] == params.value
  {
    var base := map["jsonrpc" := Str("2.0"), "method" := Str(name), "id" := Int(id)];
    if params.Some? then Obj(base["params" := params.value]) else Obj(base)
  }

  /** The params of the `initialize` request of the Model Context Protocol,
      revision 2024-11-05. */
  function InitParams(): Json {
    Obj(map[
      "protocolVersion" := Str(ProtocolVersion),
      "capabilities" := Obj(map[]),
      "clientInfo" := Obj(map["name" := Str("ai-agent"), "version" := Str("0.1.0")])])
  }

  /** The `initialize` request: the same envelope as every other request. */
  function InitRequest(id: int): (r: Json)
    ensures IsMessage(r) && "id" in r.fields && r.fields["id"] == Int(id)
    ensures r.fields["method"] == Str("initialize")
    ensures "params" in r.fields && r.fields["params"] == InitParams()
  {
    Request("initialize", Some(InitParams()), id)
  }

  /** The one-way `notifications/initialized` message: a JSON-RPC 2.0
      notification (section 4.1), so it carries no id. */
  function InitializedNotification(): (r: Json)
    ensures IsMessage(r) && "id" !in r.fields
  {
    Obj(map["jsonrpc" := Str("2.0"), "method" := Str("notifications/initialized")])
  }

  /** A JSON-RPC 2.0 request or notification as this client writes it. */
  predicate IsMessage(m: Json) {
    && m.Obj?
    && "jsonrpc" in m.fields && m.fields["jsonrpc"] == Str("2.0")
    && "method" in m.fields && m.fields["method"].Str?
    && ("id" in m.fields ==> m.fields["id"].Int?)
  }

  /** The ids of the requests among `msgs`, in sending order. */
  function Ids(msgs: seq<Json>): seq<int> {
    if msgs == [] then []
    else
      var m := msgs[|msgs| - 1];
      var front := Ids(msgs[..|msgs| - 1]);
      if m.Obj? && "id" in m.fields && m.fields["id"].Int? then front + [m.fields["id"].i] else front
  }

  /** 1, 2, ..., n. */
  function Counting(n: int): (r: seq<int>)
    ensures |r| == if n <= 0 then 0 else n
    ensures forall k :: 0 <= k < |r| ==> r[k] == k + 1
  {
    if n <= 0 then [] else Counting(n - 1) + [n]
  }

  /** What the handshake makes of the line read in reply to `initialize`:
      unparseable text raises, a reply holding "error" raises. */
  function InitReply(codec: Codec, line: string): (r: Result<()>)
    ensures r.Success? <==> codec.loads(line).Some? && In("error", codec.loads(line).value) == Success(false)
  {
    match codec.loads(line)
    case None => Failure(codec.loadsError(line))
    case Some(reply) =>
      match In("error", reply)
      case Failure(e) => Failure(e)
      case Success(hasError) =>
        if !hasError then Success(())
        else match Index(reply, "error")
          case Failure(e) => Failure(e)
          case Success(err) => Failure("MCP initialization failed: " + PyStr(codec.render, err))
  }

  /** The text one content block contributes: a block typed "text" gives its
      "text" (default ""), any other block gives nothing; a block that is
      not an object, or text that is not a string, raises. */
  function BlockText(item: Json): Result<string> {
    match Get(item, "type", Null)
    case Failure(e) => Failure(e)
    case Success(ty) =>
      if ty != Str("text") then Success("")
      else match Get(item, "text", Str(""))
        case Failure(e) => Failure(e)
        case Success(t) =>
          if t.Str? then Success(t.s)
          else Failure("can only concatenate str (not \"" + TypeName(t) + "\") to str")
  }

  /** The text of a list of content blocks, concatenated left to right;
      the first block that raises decides the failure. */
  function TextOf(items: seq<Json>): Result<string> {
    if items == [] then Success("")
    else
      match TextOf(items[..|items| - 1])
      case Failure(e) => Failure(e)
      case Success(front) =>
        match BlockText(items[|items| - 1])
        case Failure(e) => Failure(e)
        case Success(t) => Success(front + t)
  }

  /** Iterating over `contents`: only a list yields blocks; the keys of a
      dict and the characters of a string are strings, which have no `get`. */
  function ContentText(contents: Json): Result<string> {
    match contents
    case Arr(xs) => TextOf(xs)
    case Obj(m) => if m == map[] then Success("") else Failure("'str' object has no attribute 'get'")
    case Str(s) => if s == "" then Success("") else Failure("'str' object has no attribute 'get'")
    case _ => Failure("'" + TypeName(contents) + "' object is not iterable")
  }

  /** Strict JSON first, then the permissive literal parse, else a failure
      naming the text. */
  function ParseToolOutput(codec: Codec, text: string): (r: Result<Json>)
    ensures r.Success? <==> codec.loads(text).Some? || codec.literalEval(text).Some?
    ensures codec.loads(text).Some? ==> r == Success(codec.loads(text).value)
    ensures codec.loads(text).None? && codec.literalEval(text).Some? ==> r == Success(codec.literalEval(text).value)
    ensures r.Failure? ==> r.error == "Could not parse tool output: " + text
  {
    match codec.loads(text)
    case Some(data) => Success(data)
    case None =>
      match codec.literalEval(text)
      case Some(data) => Success(data)
      case None => Failure("Could not parse tool output: " + text)
  }

  /** What `execute_tool` makes of a `tools/call` reply. */
  function ToolOutput(codec: Codec, reply: Json): Result<Json> {
    match In("error", reply)
    case Failure(e) => Failure(e)
    case Success(hasError) =>
      if hasError then
        match Index(reply, "error")
        case Failure(e) => Failure(e)
        case Success(err) => Failure("Tool execution failed: " + PyStr(codec.render, err))
      else
        match Get(reply, "result", Obj(map[]))
        case Failure(e) => Failure(e)
        case Success(result) =>
          match Get(result, "content", Arr([]))
          case Failure(e) => Failure(e)
          case Success(contents) =>
            if !Truthy(contents) then Success(Obj(map[]))
            else
              match ContentText(contents)
              case Failure(e) => Failure(e)
              case Success(text) => ParseToolOutput(codec, text)
  }

  /** `tool["name"]` for each tool in order. */
  function NamesOf(tools: seq<Json>): (r: Result<seq<Json>>)
    ensures r.Success? <==> forall i :: 0 <= i < |tools| ==> Index(tools[i], "name").Success?
    ensures r.Success? ==>
      |r.value| == |tools| && forall i :: 0 <= i < |tools| ==> Index(tools[i], "name") == Success(r.value[i])
  {
    if tools == [] then Success([])
    else
      match NamesOf(tools[..|tools| - 1])
      case Failure(e) => Failure(e)
      case Success(front) =>
        match Index(tools[|tools| - 1], "name")
        case Failure(e) => Failure(e)
        case Success(n) => Success(front + [n])
  }

  /** The "tools" list of a `tools/list` reply (default []). */
  function ToolsField(reply: Json): Result<Json> {
    match Get(reply, "result", Obj(map[]))
    case Failure(e) => Failure(e)
    case Success(result) => Get(result, "tools", Arr([]))
  }

  /** `_parse_tools_response`: the names of the listed tools, in server order. */
  function ToolNames(reply: Json): (r: Result<seq<Json>>)
    ensures ToolsField(reply).Failure? ==> r.Failure?
    ensures ToolsField(reply) in {Success(Arr([])), Success(Obj(map[])), Success(Str(""))} ==> r == Success([])
    ensures r.Success? && ToolsField(reply).value.Arr? ==>
      |r.value| == |ToolsField(reply).value.items|
      && forall i :: 0 <= i < |r.value| ==> Index(ToolsField(reply).value.items[i], "name") == Success(r.value[i])
  {
    match ToolsField(reply)
    case Failure(e) => Failure(e)
    case Success(tools) =>
      match tools
      case Arr(xs) => NamesOf(xs)
      case Obj(m) => if m == map[] then Success([]) else Failure("string indices must be integers, not 'str'")
      case Str(s) => if s == "" then Success([]) else Failure("string indices must be integers, not 'str'")
      case _ => Failure("'" + TypeName(tools) + "' object is not iterable")
  }

  /** A `tools/list` reply whose "error" key makes the call raise. */
  function ListReply(codec: Codec, reply: Json, what: string): Result<Json> {
    match In("error", reply)
    case Failure(e) => Failure(e)
    case Success(hasError) =>
      if !hasError then Success(reply)
      else match Index(reply, "error")
        case Failure(e) => Failure(e)
        case Success(err) => Failure(what + PyStr(codec.render, err))
  }

  /** What `execute_tool` makes of the reply line to its `tools/call`. */
  function CallAnswer(codec: Codec, line: string): Result<Json> {
    match codec.loads(line)
    case None => Failure("Request failed: " + codec.loadsError(line))
    case Some(reply) => ToolOutput(codec, reply)
  }

  /** What `list_tools` makes of the reply line to its `tools/list`. */
  function ListAnswer(codec: Codec, line: string): Result<seq<Json>> {
    match codec.loads(line)
    case None => Failure("Request failed: " + codec.loadsError(line))
    case Some(reply) =>
      match ListReply(codec, reply, "Failed to list tools: ")
      case Failure(e) => Failure(e)
      case Success(ok) => ToolNames(ok)
  }

  /** What `get_tool_schemas` makes of the reply line to its `tools/list`. */
  function SchemasAnswer(codec: Codec, line: string): Result<Json> {
    match codec.loads(line)
    case None => Failure("Request failed: " + codec.loadsError(line))
    case Some(reply) =>
      match ListReply(codec, reply, "Failed to list tools: ")
      case Failure(e) => Failure(e)
      case Success(ok) => ToolsField(ok)
  }

  class StdioTransport {
    const codec: Codec
    /** `_process`: None until a spawn succeeds. */
    var process: Option<Process>
    var requestId: int
    var initialized: bool
    /** Every line written to a child's standard input, in order. */
    var stdin: seq<string>
    /** The messages those lines encode. */
    ghost var sent: seq<Json>
    /** Every signal sent to a child, in order. */
    var signals: seq<Signal>

    ghost predicate Valid()
      reads this
    {
      WireValid() && Ids(sent) == Counting(requestId)
    }

    /** Every line written encodes one well-formed message. */
    ghost predicate WireValid()
      reads this
    {
      && requestId >= 0
      && |stdin| == |sent|
      && (forall k :: 0 <= k < |sent| ==> stdin[k] == codec.dumps(sent[k]) + "\n")
      && (forall k :: 0 <= k < |sent| ==> IsMessage(sent[k]))
      && (initialized ==> process.Some?)
    }

    /** A fresh transport: no process, request id 0, not initialised. */
    constructor (codec: Codec)
      ensures Valid()
      ensures this.codec == codec && process == None && requestId == 0 && !initialized
      ensures stdin == [] && signals == []
    {
      this.codec := codec;
      process := None;
      requestId := 0;
      initialized := false;
      stdin := [];
      sent := [];
      signals := [];
    }

    /** `is_alive`: a process exists and has not exited. */
    predicate IsAlive(): (alive: bool)
      reads this
      ensures alive ==> process.Some?
      ensures process.Some? ==> (alive <==> process.value.running)
    {
      process.Some? && process.value.running
    }

    /** Writes one message as one line of JSON followed by "\n". */
    method WriteMessage(m: Json)
      requires WireValid() && IsMessage(m)
      modifies this
      ensures WireValid()
      ensures stdin == old(stdin) + [codec.dumps(m) + "\n"] && sent == old(sent) + [m]
      ensures process == old(process) && requestId == old(requestId)
      ensures initialized == old(initialized) && signals == old(signals)
    {
      stdin := stdin + [codec.dumps(m) + "\n"];
      sent := sent + [m];
    }

    /** `readline()` on the child's standard output. */
    method ReadLine() returns (line: string)
      requires WireValid() && process.Some?
      modifies this
      ensures WireValid()
      ensures line == NextLine(old(process.value.stdout))
      ensures process == Some(old(process.value).(stdout := RestLines(old(process.value.stdout))))
      ensures stdin == old(stdin) && sent == old(sent) && requestId == old(requestId)
      ensures initialized == old(initialized) && signals == old(signals)
    {
      line := NextLine(process.value.stdout);
      process := Some(process.value.(stdout := RestLines(process.value.stdout)));
    }

    /** `start` followed by the `_initialize` handshake. Any failure, of the
        spawn or of the handshake, surfaces as "Failed to start MCP server". */
    method Start(command: Option<string>, args: seq<string>, child: ChildScript) returns (r: Result<()>)
      requires Valid()
      modifies this
      ensures Valid()
      ensures r.Failure? ==> "Failed to start MCP server: " <= r.error
      ensures signals == old(signals)
      ensures command.None? || child.spawnError.Some? ==>
        && r.Failure? && process == old(process) && requestId == old(requestId)
        && stdin == old(stdin) && initialized == old(initialized)
      ensures command.None? ==> r == StartFailure(NoCommand)
      ensures command.Some? && child.spawnError.Some? ==> r == StartFailure(child.spawnError.value)
      ensures command.Some? && child.spawnError.None? ==>
        var reply := InitReply(codec, NextLine(child.output));
        && requestId == old(requestId) + 1
        && process == Some(Process(!child.exitsAtOnce, RestLines(child.output), child.exitsOnTerminate))
        && initialized == (old(initialized) || reply.Success?)
        && r == (if reply.Success? then Success(()) else StartFailure(reply.error))
        && sent == old(sent) + [InitRequest(requestId)]
                  + (if reply.Success? then [InitializedNotification()] else [])
    {
      if command.None? {
        // Popen([None] + args) raises a TypeError before any process exists.
        return StartFailure(NoCommand);
      }
      if child.spawnError.Some? {
        return StartFailure(child.spawnError.value);
      }
      process := Some(Process(!child.exitsAtOnce, child.output, child.exitsOnTerminate));
      var init := Initialize();
      if init.Failure? {
        return StartFailure(init.error);
      }
      r := Success(());
    }

    /** `_initialize`: the `initialize` request with the next id, one reply
        line, then `initialized` is set BEFORE the notification is sent. */
    method Initialize() returns (r: Result<()>)
      requires Valid() && process.Some?
      modifies this
      ensures Valid()
      ensures var reply := InitReply(codec, NextLine(old(process.value.stdout)));
        && r == reply
        && requestId == old(requestId) + 1
        && process == Some(old(process.value).(stdout := RestLines(old(process.value.stdout))))
        && initialized == (old(initialized) || reply.Success?)
        && sent == old(sent) + [InitRequest(requestId)]
                  + (if reply.Success? then [InitializedNotification()] else [])
      ensures signals == old(signals)
    {
      ghost var sent0 := sent;
      var line := SendInitRequest();
      r := InitReply(codec, line);
      if r.Failure? {
        assert sent == sent0 + [InitRequest(requestId)] + [];
        return;
      }
      FinishHandshake();
    }

    /** The end of an accepted handshake: `initialized` is set, then the
        `notifications/initialized` message (which has no id) is written. */
    method FinishHandshake()
      requires Valid() && process.Some?
      modifies this
      ensures Valid()
      ensures initialized && sent == old(sent) + [InitializedNotification()]
      ensures process == old(process) && requestId == old(requestId) && signals == old(signals)
    {
      var note := InitializedNotification();
      IdsSnoc(sent, note);
      assert Ids(sent + [note]) == Counting(requestId);
      initialized := true;
      WriteMessage(note);
    }

    /** The first half of the handshake: the `initialize` request under the
        next id, and the line read back. */
    method SendInitRequest() returns (line: string)
      requires Valid() && process.Some?
      modifies this
      ensures Valid()
      ensures line == NextLine(old(process.value.stdout))
      ensures requestId == old(requestId) + 1
      ensures process == Some(old(process.value).(stdout := RestLines(old(process.value.stdout))))
      ensures sent == old(sent) + [InitRequest(requestId)]
      ensures initialized == old(initialized) && signals == old(signals)
    {
      requestId := requestId + 1;
      var request := InitRequest(requestId);
      IdsNext(sent, request, requestId);
      WriteMessage(request);
      line := ReadLine();
    }

    /** `_send_request`: refuses a dead process before touching the counter;
        otherwise the next id, one line out, one line back. */
    method SendRequest(name: string, params: Option<Json>) returns (r: Result<Json>)
      requires Valid()
      modifies this
      ensures Valid()
      ensures initialized == old(initialized) && signals == old(signals)
      ensures !old(IsAlive()) ==> r == Failure("Server process is not running") && unchanged(this)
      ensures old(IsAlive()) ==>
        && requestId == old(requestId) + 1
        && sent == old(sent) + [Request(name, params, requestId)]
        && process == Some(old(process.value).(stdout := RestLines(old(process.value.stdout))))
        && r == match codec.loads(NextLine(old(process.value.stdout)))
                case None => Failure("Request failed: " + codec.loadsError(NextLine(old(process.value.stdout))))
                case Some(reply) => Success(reply)
    {
      if !IsAlive() {
        return Failure("Server process is not running");
      }
      requestId := requestId + 1;
      var request := Request(name, params, requestId);
      IdsNext(sent, request, requestId);
      WriteMessage(request);
      var line := ReadLine();
      match codec.loads(line)
      case None => r := Failure("Request failed: " + codec.loadsError(line));
      case Some(reply) => r := Success(reply);
    }

    /** `_extract_text_content`: text blocks concatenated in order. */
    method ExtractTextContent(contents: Json) returns (r: Result<string>)
      ensures r == ContentText(contents)
    {
      if !contents.Arr? {
        return ContentText(contents);
      }
      var items := contents.items;
      var text := "";
      var i := 0;
      while i < |items|
        invariant 0 <= i <= |items|
        invariant TextOf(items[..i]) == Success(text)
      {
        assert items[..i + 1][..i] == items[..i];
        var block := BlockText(items[i]);
        if block.Failure? {
          TextOfFails(items, i + 1);
          assert items[..|items|] == items;
          return Failure(block.error);
        }
        text := text + block.value;
        i := i + 1;
      }
      assert items[..i] == items;
      r := Success(text);
    }

    /** `execute_tool`: refuses before sending anything when not initialised;
        otherwise one `tools/call` request and its reply's parsed text. */
    method ExecuteTool(tool: string, kwargs: map<string, Json>) returns (r: Result<Json>)
      requires Valid()
      modifies this
      ensures Valid()
      ensures initialized == old(initialized) && signals == old(signals)
      ensures !old(initialized) ==> r == Failure("MCP server not initialized") && unchanged(this)
      ensures old(initialized) && !old(IsAlive()) ==>
        r == Failure("Server process is not running") && unchanged(this)
      ensures old(initialized) && old(IsAlive()) ==>
        && requestId == old(requestId) + 1
        && sent == old(sent) + [Request("tools/call", Some(CallParams(tool, kwargs)), requestId)]
        && process == Some(old(process.value).(stdout := RestLines(old(process.value.stdout))))
        && r == CallAnswer(codec, NextLine(old(process.value.stdout)))
    {
      if !initialized {
        return Failure("MCP server not initialized");
      }
      var response := SendRequest("tools/call", Some(CallParams(tool, kwargs)));
      if response.Failure? {
        return Failure(response.error);
      }
      var reply := response.value;
      var hasError := In("error", reply);
      if hasError.Failure? {
        return Failure(hasError.error);
      }
      if hasError.value {
        var err := Index(reply, "error");
        if err.Failure? {
          return Failure(err.error);
        }
        return Failure("Tool execution failed: " + PyStr(codec.render, err.value));
      }
      var result := Get(reply, "result", Obj(map[]));
      if result.Failure? {
        return Failure(result.error);
      }
      var contents := Get(result.value, "content", Arr([]));
      if contents.Failure? {
        return Failure(contents.error);
      }
      if !Truthy(contents.value) {
        return Success(Obj(map[]));
      }
      var text := ExtractTextContent(contents.value);
      if text.Failure? {
        return Failure(text.error);
      }
      r := ParseToolOutput(codec, text.value);
    }

    /** `list_tools`: one `tools/list` request without params; the names of
        the listed tools in server order. */
    method ListTools() returns (r: Result<seq<Json>>)
      requires Valid()
      modifies this
      ensures Valid()
      ensures initialized == old(initialized) && signals == old(signals)
      ensures !old(initialized) ==> r == Failure("MCP server not initialized") && unchanged(this)
      ensures old(initialized) && !old(IsAlive()) ==>
        r == Failure("Server process is not running") && unchanged(this)
      ensures old(initialized) && old(IsAlive()) ==>
        && requestId == old(requestId) + 1
        && sent == old(sent) + [Request("tools/list", None, requestId)]
        && process == Some(old(process.value).(stdout := RestLines(old(process.value.stdout))))
        && r == ListAnswer(codec, NextLine(old(process.value.stdout)))
    {
      if !initialized {
        return Failure("MCP server not initialized");
      }
      var response := SendRequest("tools/list", None);
      if response.Failure? {
        return Failure(response.error);
      }
      var checked := ListReply(codec, response.value, "Failed to list tools: ");
      if checked.Failure? {
        return Failure(checked.error);
      }
      r := ToolNames(checked.value);
    }

    /** `get_tool_schemas`: the full tool descriptors of a `tools/list` reply. */
    method GetToolSchemas() returns (r: Result<Json>)
      requires Valid()
      modifies this
      ensures Valid()
      ensures initialized == old(initialized) && signals == old(signals)
      ensures !old(initialized) ==> r == Failure("MCP server not initialized") && unchanged(this)
      ensures old(initialized) && !old(IsAlive()) ==>
        r == Failure("Server process is not running") && unchanged(this)
      ensures old(initialized) && old(IsAlive()) ==>
        && requestId == old(requestId) + 1
        && sent == old(sent) + [Request("tools/list", None, requestId)]
        && process == Some(old(process.value).(stdout := RestLines(old(process.value.stdout))))
        && r == SchemasAnswer(codec, NextLine(old(process.value.stdout)))
    {
      if !initialized {
        return Failure("MCP server not initialized");
      }
      var response := SendRequest("tools/list", None);
      if response.Failure? {
        return Failure(response.error);
      }
      var checked := ListReply(codec, response.value, "Failed to list tools: ");
      if checked.Failure? {
        return Failure(checked.error);
      }
      r := ToolsField(checked.value);
    }

    /** `stop`: terminates a running child and kills it when the five-second
        wait expires; always clears `initialized`; harmless when there is no
        child or it has already exited. */
    method Stop()
      requires Valid()
      modifies this
      ensures Valid() && !IsAlive() && !initialized
      ensures signals == old(signals) +
        (if !old(IsAlive()) then []
         else if old(process.value.exitsOnTerminate) then [Terminate]
         else [Terminate, Kill])
      ensures process == if old(IsAlive()) then Some(old(process.value).(running := false)) else old(process)
      ensures stdin == old(stdin) && sent == old(sent) && requestId == old(requestId)
    {
      if IsAlive() {
        signals := signals + [Terminate];
        if !process.value.exitsOnTerminate {
          signals := signals + [Kill];
        }
        process := Some(process.value.(running := false));
      }
      initialized := false;
    }
  }

  /** The params of a `tools/call` request: the tool's name and its
      keyword arguments (an empty dict when there are none). */
  function CallParams(tool: string, kwargs: map<string, Json>): Json {
    Obj(map["name" := Str(tool), "arguments" := Obj(kwargs)])
  }

  /** The TypeError `Popen` raises for a command line whose program is None. */
  const NoCommand: string := "expected str, bytes or os.PathLike object, not NoneType"

  /** The failure every start error is wrapped in. */
  function StartFailure(cause: string): (r: Result<()>)
    ensures r.Failure? && "Failed to start MCP server: " <= r.error
  {
    var msg := "Failed to start MCP server: " + cause;
    assert msg[..|"Failed to start MCP server: "|] == "Failed to start MCP server: ";
    Failure(msg)
  }

  /** Appending a message extends the id list by its id, if it has one. */
  lemma IdsSnoc(msgs: seq<Json>, m: Json)
    ensures Ids(msgs + [m]) ==
      if m.Obj? && "id" in m.fields && m.fields["id"].Int? then Ids(msgs) + [m.fields["id"].i] else Ids(msgs)
  {
    assert (msgs + [m])[..|msgs + [m]| - 1] == msgs;
  }

  /** A request carrying id `n` behind requests numbered 1 .. n-1 keeps the
      numbering gap-free. */
  lemma IdsNext(msgs: seq<Json>, m: Json, n: int)
    requires n >= 1 && Ids(msgs) == Counting(n - 1)
    requires m.Obj? && "id" in m.fields && m.fields["id"] == Int(n)
    ensures Ids(msgs + [m]) == Counting(n)
  {
    IdsSnoc(msgs, m);
  }

  /** Once a prefix of the blocks fails, the whole list fails the same way. */
  lemma {:induction false} TextOfFails(items: seq<Json>, n: nat)
    requires 0 < n <= |items|
    requires BlockText(items[n - 1]).Failure? && TextOf(items[..n - 1]).Success?
    ensures TextOf(items) == Failure(BlockText(items[n - 1]).error)
    decreases |items| - n
  {
    if n == |items| {
      assert items[..n - 1] == items[..|items| - 1];
    } else {
      assert items[..|items| - 1][n - 1] == items[n - 1];
      assert items[..|items| - 1][..n - 1] == items[..n - 1];
      TextOfFails(items[..|items| - 1], n);
    }
  }

  /** A content block of type "text". */
  function TextBlock(text: string): Json {
    Obj(map["type" := Str("text"), "text" := Str(text)])
  }

  /** The reply a server sends for a tool call whose only content is `text`. */
  function EchoReply(text: string): Json {
    Obj(map["result" := Obj(map["content" := Arr([TextBlock(text)])])])
  }

  /** Round trip: a reply whose single text block holds the serialised form
      of a value yields that value. */
  lemma EchoRoundTrip(codec: Codec, v: Json)
    requires codec.loads(codec.dumps(v)) == Some(v)
    ensures ToolOutput(codec, EchoReply(codec.dumps(v))) == Success(v)
  {
    var blocks := [TextBlock(codec.dumps(v))];
    assert blocks[..0] == [];
    assert TextOf(blocks) == Success("" + codec.dumps(v));
    assert "" + codec.dumps(v) == codec.dumps(v);
  }

  /** Blocks typed other than "text" contribute nothing: appending them
      leaves the extracted text as it was. */
  lemma {:induction false} NonTextBlocksIgnored(xs: seq<Json>, ys: seq<Json>)
    requires forall k :: 0 <= k < |ys| ==> ys[k].Obj? && "type" in ys[k].fields && ys[k].fields["type"] != Str("text")
    ensures TextOf(xs + ys) == TextOf(xs)
    decreases |ys|
  {
    if ys != [] {
      var front := ys[..|ys| - 1];
      NonTextBlocksIgnored(xs, front);
      assert (xs + ys)[..|xs + ys| - 1] == xs + front;
      assert BlockText(ys[|ys| - 1]) == Success("");
      match TextOf(xs + front)
      case Failure(_) =>
      case Success(t) => assert t + "" == t;
    } else {
      assert xs + ys == xs;
    }
  }

  /** Text blocks are concatenated in order. */
  function Concat(texts: seq<string>): string {
    if texts == [] then "" else Concat(texts[..|texts| - 1]) + texts[|texts| - 1]
  }

  lemma {:induction false} TextBlocksConcatenate(texts: seq<string>)
    ensures TextOf(seq(|texts|, k requires 0 <= k < |texts| => TextBlock(texts[k]))) == Success(Concat(texts))
    decreases |texts|
  {
    var blocks := seq(|texts|, k requires 0 <= k < |texts| => TextBlock(texts[k]));
    if texts != [] {
      var front := texts[..|texts| - 1];
      TextBlocksConcatenate(front);
      assert blocks[..|blocks| - 1] == seq(|front|, k requires 0 <= k < |front| => TextBlock(front[k]));
    }
  }

  /** `list_tools` keeps the server's order: the k-th name is the name of
      the k-th listed tool. */
  lemma {:induction false} NamesInServerOrder(tools: seq<Json>)
    requires forall k :: 0 <= k < |tools| ==> tools[k].Obj? && "name" in tools[k].fields
    ensures NamesOf(tools).Success?
    ensures |NamesOf(tools).value| == |tools|
    ensures forall k :: 0 <= k < |tools| ==> NamesOf(tools).value[k] == tools[k].fields["name"]
    decreases |tools|
  {
    if tools != [] {
      NamesInServerOrder(tools[..|tools| - 1]);
    }
  }

  /** A tool without a name makes `list_tools` raise. */
  lemma {:induction false} NamelessToolFails(tools: seq<Json>, k: nat)
    requires k < |tools| && tools[k].Obj? && "name" !in tools[k].fields
    ensures NamesOf(tools).Failure?
    decreases |tools|
  {
    if k < |tools| - 1 {
      NamelessToolFails(tools[..|tools| - 1], k);
    }
  }
}
