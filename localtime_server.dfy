/** The stdio local-time MCP server: one JSON-RPC 2.0 request per input
    line, one response line per request, two methods. The clock, JSON
    parsing and serialising are parameters: `clock(n)` is what
    `get_current_time` returns while line `n` is served. */
module LocaltimeServer {
  import opened Wrappers
  import opened Json
  import opened Strs
  import opened Schemas
  import PlannerUtils

  const MethodNotFound := -32601
  const InternalError := -32603

  /** `_list_tools`. */
  function ListTools(): (r: Json)
    ensures r == Arr([Str("get_current_time")])
  {
    Arr([Str("get_current_time")])
  }

  predicate IsMethod(name: Json) {
    name == Str("get_current_time") || name == Str("_list_tools")
  }

  /** `methods[name](**params)`: neither method takes arguments, so a
      non-empty mapping raises, naming the first key `order` lists, and a
      value that is not a mapping raises with the function's name
      qualified by `moduleName`, its `__module__`, as CPython 3.9 and later
      word it. */
  function Call(name: string, params: Json, time: Json, moduleName: string, order: map<string, Json> -> seq<string>): (r: Result<Json>)
    requires name == "get_current_time" || name == "_list_tools"
    ensures r.Success? <==> params == Obj(map[])
    ensures r.Success? ==> r.value == if name == "_list_tools" then ListTools() else time
    ensures !params.Obj? ==> r == Failure(moduleName + "." + name + "() argument after ** must be a mapping, not " + TypeName(params))
  {
    if !params.Obj? then Failure(moduleName + "." + name + "() argument after ** must be a mapping, not " + TypeName(params))
    else if params.fields != map[] then
      var keys := PlannerUtils.Items(params.fields, order);
      Failure(name + "() got an unexpected keyword argument '" + (if keys != [] then keys[0].0 else "") + "'")
    else if name == "_list_tools" then Success(ListTools())
    else Success(time)
  }

  function Answer(result: Json, id: Json): Json {
    Obj(map["jsonrpc" := Str("2.0"), "result" := result, "id" := id])
  }

  function Error(code: int, message: string, id: Json): Json {
    Obj(map["jsonrpc" := Str("2.0"), "error" := Obj(map["code" := Int(code), "message" := Str(message)]), "id" := id])
  }

  /** The response to a request that parsed as a dict. `method_name in
      methods` hashes the name, which raises for a list or a dict. */
  function Respond(request: map<string, Json>, time: Json, moduleName: string, render: Json -> string,
                   order: map<string, Json> -> seq<string>): (r: Json)
    ensures var id := PlannerUtils.Field(request, "id", Null);
      var name := PlannerUtils.Field(request, "method", Null);
      var params := PlannerUtils.Field(request, "params", Obj(map[]));
      && (IsMethod(name) && params == Obj(map[]) ==> r == Answer(Call(name.s, params, time, moduleName, order).value, id))
      && (IsMethod(name) && params != Obj(map[]) ==> r == Error(InternalError, Call(name.s, params, time, moduleName, order).error, id))
      && (!IsMethod(name) && !name.Arr? && !name.Obj? ==> r == Error(MethodNotFound, "Method not found: " + PyStr(render, name), id))
      && (name.Arr? || name.Obj? ==> r == Error(InternalError, "unhashable type: '" + TypeName(name) + "'", id))
  {
    var id := PlannerUtils.Field(request, "id", Null);
    var name := PlannerUtils.Field(request, "method", Null);
    var params := PlannerUtils.Field(request, "params", Obj(map[]));
    if name.Arr? || name.Obj? then Error(InternalError, "unhashable type: '" + TypeName(name) + "'", id)
    else if IsMethod(name) then
      match Call(name.s, params, time, moduleName, order)
      case Success(result) => Answer(result, id)
      case Failure(e) => Error(InternalError, e, id)
    else Error(MethodNotFound, "Method not found: " + PyStr(render, name), id)
  }

  /** The environment of a run: the clock and the opaque Python
      functions. `loadsError(line)` is the text of the exception
      `json.loads(line)` raises; `moduleName` is the `__module__` the two
      handlers were defined in. */
  datatype Env = Env(
    clock: nat -> Json,
    moduleName: string,
    loads: string -> Option<Json>,
    loadsError: string -> string,
    render: Json -> string,
    order: map<string, Json> -> seq<string>)

  /** What the loop has done: the responses written so far, the last value
      bound to `request`, and whether an exception escaped the loop. */
  datatype Served = Served(responses: seq<Json>, request: Option<Json>, crashed: bool)

  /** One line as the corrected loop serves it: a line that does not parse
      as a dict is answered with a null id. */
  function Step(st: Served, line: string, n: nat, env: Env): (r: Served)
    requires !st.crashed
    ensures !r.crashed
    ensures Strip(line) == "" ==> r == st
    ensures Strip(line) != "" ==> |r.responses| == |st.responses| + 1 && r.responses[..|st.responses|] == st.responses
  {
    var text := Strip(line);
    if text == "" then st
    else
      match env.loads(text)
      case None =>
        st.(responses := st.responses + [Error(InternalError, env.loadsError(text), Null)])
      case Some(request) =>
        var response :=
          if request.Obj? then Respond(request.fields, env.clock(n), env.moduleName, env.render, env.order)
          else Error(InternalError, "'" + TypeName(request) + "' object has no attribute 'get'", Null);
        Served(st.responses + [response], Some(request), false)
  }

  /** The corrected loop over `lines`. */
  function Run(lines: seq<string>, env: Env): (r: Served)
    ensures !r.crashed
  {
    if lines == [] then Served([], None, false)
    else Step(Run(lines[..|lines| - 1], env), lines[|lines| - 1], |lines| - 1, env)
  }

  /** The non-blank lines of `lines`. */
  function Requests(lines: seq<string>): nat {
    if lines == [] then 0 else Requests(lines[..|lines| - 1]) + (if Strip(lines[|lines| - 1]) == "" then 0 else 1)
  }

  /** `main`: reads every line and writes `dumps` of each response. */
  method Serve(lines: seq<string>, env: Env, dumps: Json -> string) returns (output: seq<string>)
    ensures |output| == |Run(lines, env).responses|
    ensures forall k :: 0 <= k < |output| ==> output[k] == dumps(Run(lines, env).responses[k])
  {
    var st := Served([], None, false);
    output := [];
    for i := 0 to |lines|
      invariant st == Run(lines[..i], env)
      invariant Dumped(output, st.responses, dumps)
    {
      assert lines[..i + 1][..i] == lines[..i];
      var before := st;
      st := Step(st, lines[i], i, env);
      if |st.responses| > |before.responses| {
        DumpedSnoc(output, before.responses, st.responses, dumps);
        output := output + [dumps(st.responses[|st.responses| - 1])];
      }
    }
    assert lines[..|lines|] == lines;
  }

  /** Line k of the output is the serialisation of response k. */
  ghost predicate Dumped(output: seq<string>, responses: seq<Json>, dumps: Json -> string) {
    |output| == |responses| && forall k :: 0 <= k < |output| ==> output[k] == dumps(responses[k])
  }

  /** Writing the one new response keeps the output in step. */
  lemma DumpedSnoc(output: seq<string>, responses: seq<Json>, next: seq<Json>, dumps: Json -> string)
    requires Dumped(output, responses, dumps)
    requires |next| == |responses| + 1 && next[..|responses|] == responses
    ensures Dumped(output + [dumps(next[|next| - 1])], next, dumps)
  {
    forall k | 0 <= k < |responses|
      ensures next[k] == responses[k]
    {
      assert next[k] == next[..|responses|][k];
    }
  }

  /** Exactly one response per non-blank line, and none for blank ones. */
  lemma {:induction false} OneResponsePerRequest(lines: seq<string>, env: Env)
    ensures |Run(lines, env).responses| == Requests(lines)
  {
    if lines != [] {
      OneResponsePerRequest(lines[..|lines| - 1], env);
    }
  }

  /** A response is never taken back: serving more lines extends the
      output. */
  lemma {:induction false} ResponsesOnlyGrow(lines: seq<string>, more: seq<string>, env: Env)
    ensures |Run(lines, env).responses| <= |Run(lines + more, env).responses|
    ensures Run(lines + more, env).responses[..|Run(lines, env).responses|] == Run(lines, env).responses
    decreases |more|
  {
    if more == [] {
      assert lines + more == lines;
    } else {
      var init := more[..|more| - 1];
      ResponsesOnlyGrow(lines, init, env);
      assert (lines + more)[..|lines + more| - 1] == lines + init;
      var a := Run(lines, env).responses;
      var b := Run(lines + init, env).responses;
      var c := Run(lines + more, env).responses;
      assert c[..|b|] == b;
      assert c[..|a|] == b[..|a|];
    }
  }

  /** Every response names protocol version "2.0" and carries an id; an
      unparsable line or a request that is not a dict is answered with
      the null id that section 5 of JSON-RPC 2.0 asks for. */
  lemma ParseFailureHasNullId(st: Served, line: string, n: nat, env: Env)
    requires !st.crashed && Strip(line) != ""
    requires env.loads(Strip(line)).None? || !env.loads(Strip(line)).value.Obj?
    ensures var r := Step(st, line, n, env).responses;
      var resp := r[|r| - 1];
      resp.Obj? && resp.fields["jsonrpc"] == Str("2.0") && resp.fields["id"] == Null
      && resp.fields["error"].fields["code"] == Int(InternalError)
  {
  }

  /** A request naming an unknown method is answered with -32601 and its
      own id. */
  lemma UnknownMethodAnswered(request: map<string, Json>, time: Json, moduleName: string, render: Json -> string,
                              order: map<string, Json> -> seq<string>, name: string)
    requires "method" in request && request["method"] == Str(name)
    requires name != "get_current_time" && name != "_list_tools"
    ensures Respond(request, time, moduleName, render, order)
      == Error(MethodNotFound, "Method not found: " + name, PlannerUtils.Field(request, "id", Null))
  {
  }

  /** `{"method": "_list_tools", "id": 1}` is answered with the one tool. */
  lemma ListToolsAnswered(time: Json, moduleName: string, render: Json -> string, order: map<string, Json> -> seq<string>)
    ensures Respond(map["method" := Str("_list_tools"), "id" := Int(1)], time, moduleName, render, order)
      == Answer(Arr([Str("get_current_time")]), Int(1))
  {
    var request := map["method" := Str("_list_tools"), "id" := Int(1)];
    assert PlannerUtils.Field(request, "params", Obj(map[])) == Obj(map[]);
  }

  /** One line as the loop is written. The handler reads the id from
      whatever `request` last held: after an unparsable line that is the
      previous line's request, and for a request that is not a dict the
      handler's own `.get` raises and ends the loop. */
  function StepAsWritten(st: Served, line: string, n: nat, env: Env): (r: Served)
    requires !st.crashed
    ensures Strip(line) == "" ==> r == st
  {
    var text := Strip(line);
    if text == "" then st
    else
      match env.loads(text)
      case None =>
        if st.request.None? then st.(responses := st.responses + [Error(InternalError, env.loadsError(text), Null)])
        else if !st.request.value.Obj? then st.(crashed := true)
        else st.(responses := st.responses + [Error(InternalError, env.loadsError(text),
                                                    PlannerUtils.Field(st.request.value.fields, "id", Null))])
      case Some(request) =>
        if request.Obj? then
          Served(st.responses + [Respond(request.fields, env.clock(n), env.moduleName, env.render, env.order)], Some(request), false)
        else Served(st.responses, Some(request), true)
  }

  function RunAsWritten(lines: seq<string>, env: Env): Served {
    if lines == [] then Served([], None, false)
    else
      var st := RunAsWritten(lines[..|lines| - 1], env);
      if st.crashed then st else StepAsWritten(st, lines[|lines| - 1], |lines| - 1, env)
  }

  /** The id a response carries. */
  function IdOf(response: Json): Json {
    if response.Obj? && "id" in response.fields then response.fields["id"] else Null
  }

  /** As written, an unparsable line after a request with id 7 is answered
      with id 7; corrected, with the null id. */
  lemma StaleIdAfterParseError(env: Env, first: string, second: string)
    requires Strip(first) == first && first != "" && Strip(second) == second && second != ""
    requires env.loads(first) == Some(Obj(map["method" := Str("_list_tools"), "id" := Int(7)]))
    requires env.loads(second).None?
    ensures var r := RunAsWritten([first, second], env).responses; |r| == 2 && IdOf(r[1]) == Int(7)
    ensures var r := Run([first, second], env).responses; |r| == 2 && IdOf(r[1]) == Null
  {
    var request := map["method" := Str("_list_tools"), "id" := Int(7)];
    FirstLineAsWritten(first, env, request);
    RunAsWrittenSnoc([first, second], env);
    assert PlannerUtils.Field(request, "id", Null) == Int(7);
    RunSnoc([first, second], env);
    FirstLine(first, env);
    ParseFailureHasNullId(Run([first], env), second, 1, env);
  }

  /** A first line holding a dict is answered, and `request` holds it. */
  lemma FirstLineAsWritten(first: string, env: Env, request: map<string, Json>)
    requires Strip(first) == first && first != "" && env.loads(first) == Some(Obj(request))
    ensures RunAsWritten([first], env)
      == Served([Respond(request, env.clock(0), env.moduleName, env.render, env.order)], Some(Obj(request)), false)
  {
    assert [first][..0] == [];
  }

  /** A non-blank first line is answered once. */
  lemma FirstLine(first: string, env: Env)
    requires Strip(first) != ""
    ensures |Run([first], env).responses| == 1
  {
    assert [first][..0] == [];
  }

  /** The loop as written serves two lines by serving the first, then the
      second unless the first ended it. */
  lemma RunAsWrittenSnoc(lines: seq<string>, env: Env)
    requires |lines| == 2
    ensures RunAsWritten(lines, env) == var st := RunAsWritten([lines[0]], env);
      if st.crashed then st else StepAsWritten(st, lines[1], 1, env)
  {
    assert lines[..1] == [lines[0]];
  }

  /** The corrected loop serves two lines one after the other. */
  lemma RunSnoc(lines: seq<string>, env: Env)
    requires |lines| == 2
    ensures Run(lines, env) == Step(Run([lines[0]], env), lines[1], 1, env)
  {
    assert lines[..1] == [lines[0]];
  }

  /** As written, a line holding a JSON list stops the server, and no
      later line is answered; corrected, it is answered and the next line
      is served. */
  lemma NonObjectRequestStopsServer(env: Env, first: string, second: string)
    requires Strip(first) == first && first != "" && Strip(second) == second && second != ""
    requires env.loads(first) == Some(Arr([]))
    requires env.loads(second) == Some(Obj(map["method" := Str("_list_tools"), "id" := Int(1)]))
    ensures RunAsWritten([first, second], env).crashed
    ensures RunAsWritten([first, second], env).responses == []
    ensures var r := Run([first, second], env).responses;
      |r| == 2 && r[1] == Answer(ListTools(), Int(1))
  {
    assert [first, second][..1] == [first];
    assert [first][..0] == [];
    var s0 := Served([], None, false);
    assert RunAsWritten([first], env) == StepAsWritten(s0, first, 0, env);
    var c1 := Step(s0, first, 0, env);
    assert Run([first], env) == c1;
    assert Run([first, second], env) == Step(c1, second, 1, env);
    ListToolsAnswered(env.clock(1), env.moduleName, env.render, env.order);
  }
}
