/** The planner's helpers: generated task ids and the text that presents
    the MCP tools to the planning LLM. */
module PlannerUtils {
  import opened Wrappers
  import opened Json
  import opened Strs
  import opened Schemas

  /** The fixed part of a generated id, before the description. */
  function IdPrefix(index: int): string {
    "task_" + IntToString(index) + "_"
  }

  /** `generate_task_id`: the index, then the description lower-cased with
      spaces turned into underscores, cut to 30 characters. */
  function GenerateTaskId(index: int, description: string): (id: string)
    ensures IdPrefix(index) <= id
    ensures |id| == |IdPrefix(index)| + (if |description| <= 30 then |description| else 30)
    ensures forall k :: |IdPrefix(index)| <= k < |id| ==>
      && id[k] != ' ' && !IsUpper(id[k])
      && id[k] == (if description[k - |IdPrefix(index)|] == ' ' then '_' else LowerChar(description[k - |IdPrefix(index)|]))
  {
    var prefix, slug := IdPrefix(index), Slug(description);
    assert forall k :: |prefix| <= k < |prefix + slug| ==> (prefix + slug)[k] == slug[k - |prefix|];
    prefix + slug
  }

  /** The description part of a generated id: lower-cased, spaces turned
      into underscores, at most 30 characters. */
  function Slug(description: string): (slug: string)
    ensures |slug| == if |description| <= 30 then |description| else 30
    ensures forall k :: 0 <= k < |slug| ==>
      && slug[k] != ' ' && !IsUpper(slug[k])
      && slug[k] == (if description[k] == ' ' then '_' else LowerChar(description[k]))
  {
    var spaced := ReplaceChar(Lower(description), ' ', '_');
    assert forall k :: 0 <= k < |description| ==> spaced[k] == (if description[k] == ' ' then '_' else LowerChar(description[k]));
    Take(spaced, 30)
  }

  /** Tasks at different positions never get the same generated id,
      whatever their descriptions: the index ends at the first '_' after
      "task_". */
  lemma GeneratedIdsDiffer(i: int, j: int, d: string, e: string)
    requires i != j
    ensures GenerateTaskId(i, d) != GenerateTaskId(j, e)
  {
    var p, q := IntToString(i), IntToString(j);
    var a, b := GenerateTaskId(i, d), GenerateTaskId(j, e);
    if a == b {
      assert a[5 + |p|] == '_' && b[5 + |q|] == '_';
      if |p| == |q| {
        assert a[5..5 + |p|] == p && b[5..5 + |q|] == q;
        IntToStringInjective(i, j);
      }
    }
  }

  /** The entries of a JSON object in the order its producer wrote them.
      Objects are maps here, so that order is the parameter `order`; the
      names it lists that are not keys are skipped. */
  function Items(fields: map<string, Json>, order: map<string, Json> -> seq<string>): (r: seq<(string, Json)>)
    ensures forall k :: 0 <= k < |r| ==> r[k].0 in fields && r[k].1 == fields[r[k].0]
  {
    KeysIn(order(fields), fields)
  }

  function KeysIn(names: seq<string>, fields: map<string, Json>): (r: seq<(string, Json)>)
    ensures forall k :: 0 <= k < |r| ==> r[k].0 in fields && r[k].1 == fields[r[k].0]
    ensures |r| <= |names|
    ensures (forall n :: n in names ==> n in fields) ==> |r| == |names|
  {
    if names == [] then []
    else
      var rest := KeysIn(names[..|names| - 1], fields);
      var n := names[|names| - 1];
      if n in fields then rest + [(n, fields[n])] else rest
  }

  /** `d.get(key, default)` on a dict. */
  function Field(fields: map<string, Json>, key: string, default: Json): Json {
    if key in fields then fields[key] else default
  }

  /** What `.get` on a value that is not a dict raises. */
  function NoGet(j: Json): string {
    "'" + TypeName(j) + "' object has no attribute 'get'"
  }

  /** One parameter line; fails where Python raises: a parameter described
      by something other than an object, or a `required` that is not a
      container. */
  function ParamLine(name: string, info: Json, required: Json, render: Json -> string): (r: Result<string>)
    ensures r.Success? <==> info.Obj? && In(name, required).Success?
    ensures r.Success? && "type" in info.fields ==> "  - " + name + " (" + PyStr(render, info.fields["type"]) + ")" <= r.value
    ensures r.Success? && "type" !in info.fields ==> "  - " + name + " (any)" <= r.value
  {
    if !info.Obj? then Failure(NoGet(info))
    else
      var paramType := Field(info.fields, "type", Str("any"));
      var paramDesc := Field(info.fields, "description", Str(""));
      var isRequired :- In(name, required);
      Success("  - " + name + " (" + PyStr(render, paramType) + ")" + (if isRequired then " (required)" else "")
              + ": " + PyStr(render, paramDesc))
  }

  /** A parameter line is marked " (required)" right after its type exactly
      when the schema's `required` list names the parameter. */
  lemma RequiredMarked(name: string, info: Json, required: Json, render: Json -> string)
    requires ParamLine(name, info, required, render).Success?
    ensures info.Obj?
    ensures var head := "  - " + name + " (" + PyStr(render, Field(info.fields, "type", Str("any"))) + ")";
      (head + " (required)" <= ParamLine(name, info, required, render).value) <==> In(name, required) == Success(true)
  {
    var head := "  - " + name + " (" + PyStr(render, Field(info.fields, "type", Str("any"))) + ")";
    var line := ParamLine(name, info, required, render).value;
    var desc := PyStr(render, Field(info.fields, "description", Str("")));
    if In(name, required) == Success(true) {
      assert line == (head + " (required)") + (": " + desc);
    } else {
      assert line == head + (": " + desc);
      assert line[|head|] == ':';
    }
  }

  /** The lines of the first parameters, stopping at the first failure. */
  function ParamLines(params: seq<(string, Json)>, required: Json, render: Json -> string): (r: Result<seq<string>>)
    ensures r.Success? ==> |r.value| == |params|
    ensures r.Success? <==> forall k :: 0 <= k < |params| ==> ParamLine(params[k].0, params[k].1, required, render).Success?
    ensures r.Success? ==> forall k :: 0 <= k < |params| ==> r.value[k] == ParamLine(params[k].0, params[k].1, required, render).value
  {
    if params == [] then Success([])
    else
      var init := params[..|params| - 1];
      var last := params[|params| - 1];
      assert forall k :: 0 <= k < |init| ==> init[k] == params[k];
      match ParamLines(init, required, render)
      case Failure(e) => Failure(e)
      case Success(lines) =>
        match ParamLine(last.0, last.1, required, render)
        case Failure(e) => Failure(e)
        case Success(line) => Success(lines + [line])
  }

  /** `properties.items()`: only objects have items. */
  function PropertyItems(properties: Json, order: map<string, Json> -> seq<string>): (r: Result<seq<(string, Json)>>)
    ensures r.Success? <==> properties.Obj?
  {
    if properties.Obj? then Success(Items(properties.fields, order))
    else Failure("'" + TypeName(properties) + "' object has no attribute 'items'")
  }

  /** The lines of one tool of `server`: its heading and description, then
      its parameters when its input schema lists any. */
  function ToolLines(server: string, tool: Json, render: Json -> string, order: map<string, Json> -> seq<string>): (r: Result<seq<string>>)
    ensures tool.Obj? && "inputSchema" !in tool.fields ==> r.Success? && |r.value| == 2
    ensures !tool.Obj? ==> r.Failure?
    ensures r.Success? ==> |r.value| >= 2 && ("\n### " + server + ":") <= r.value[0] && ("Description: " <= r.value[1])
    ensures r.Success? && "name" !in tool.fields ==> r.value[0] == "\n### " + server + ":" + "unknown"
    ensures r.Success? && "description" !in tool.fields ==> r.value[1] == "Description: " + "No description"
  {
    if !tool.Obj? then Failure(NoGet(tool))
    else
      var head := ToolHead(server, tool.fields, render);
      match ParamSection(Field(tool.fields, "inputSchema", Obj(map[])), render, order)
      case Failure(e) => Failure(e)
      case Success(lines) =>
        assert (head + lines)[0] == head[0] && (head + lines)[1] == head[1];
        Success(head + lines)
  }

  /** The heading and description lines of one tool. */
  function ToolHead(server: string, fields: map<string, Json>, render: Json -> string): (head: seq<string>)
    ensures |head| == 2 && ("\n### " + server + ":") <= head[0] && "Description: " <= head[1]
    ensures "name" !in fields ==> head[0] == ("\n### " + server + ":") + "unknown"
    ensures "description" !in fields ==> head[1] == "Description: " + "No description"
  {
    var name := PyStr(render, Field(fields, "name", Str("unknown")));
    var description := PyStr(render, Field(fields, "description", Str("No description")));
    assert ("\n### " + server + ":") <= ("\n### " + server + ":") + name;
    assert "Description: " <= "Description: " + description;
    [("\n### " + server + ":") + name, "Description: " + description]
  }

  /** The "Parameters:" block of a tool: nothing for a falsy schema or
      falsy properties. */
  function ParamSection(schema: Json, render: Json -> string, order: map<string, Json> -> seq<string>): (r: Result<seq<string>>)
    ensures schema == Obj(map[]) ==> r == Success([])
    ensures !Truthy(schema) ==> r == Success([])
    ensures Truthy(schema) && !schema.Obj? ==> r.Failure?
    ensures r.Success? && r.value != [] ==> schema.Obj? && r.value[0] == "Parameters:"
  {
    if !Truthy(schema) then Success([])
    else if !schema.Obj? then Failure(NoGet(schema))
    else
      var properties := Field(schema.fields, "properties", Obj(map[]));
      var required := Field(schema.fields, "required", Arr([]));
      if !Truthy(properties) then Success([])
      else
        var items :- PropertyItems(properties, order);
        var lines :- ParamLines(items, required, render);
        Success(["Parameters:"] + lines)
  }

  /** The lines of the first tools of one server. */
  function ToolsLines(server: string, tools: seq<Json>, render: Json -> string, order: map<string, Json> -> seq<string>): (r: Result<seq<string>>)
    ensures r.Success? ==> |r.value| >= 2 * |tools|
    ensures (forall k :: 0 <= k < |tools| ==> ToolLines(server, tools[k], render, order).Success?) ==> r.Success?
    ensures (exists k :: 0 <= k < |tools| && !tools[k].Obj?) ==> r.Failure?
  {
    if tools == [] then Success([])
    else
      var init := tools[..|tools| - 1];
      assert forall k :: 0 <= k < |init| ==> init[k] == tools[k];
      match ToolsLines(server, init, render, order)
      case Failure(e) => Failure(e)
      case Success(lines) =>
        match ToolLines(server, tools[|tools| - 1], render, order)
        case Failure(e) => Failure(e)
        case Success(more) => Success(lines + more)
  }

  /** The section of one server: nothing when it has no tools. */
  function ServerLines(server: string, tools: seq<Json>, render: Json -> string, order: map<string, Json> -> seq<string>): (r: Result<seq<string>>)
    ensures tools == [] ==> r == Success([])
    ensures tools != [] && r.Success? ==> |r.value| >= 1 + 2 * |tools| && r.value[0] == "\n## Server: " + server
  {
    if tools == [] then Success([])
    else
      var lines :- ToolsLines(server, tools, render, order);
      Success(["\n## Server: " + server] + lines)
  }

  /** The lines of the first servers. */
  function SchemaLines(schemas: seq<(string, seq<Json>)>, render: Json -> string, order: map<string, Json> -> seq<string>): (r: Result<seq<string>>)
  {
    if schemas == [] then Success([])
    else
      var init := schemas[..|schemas| - 1];
      var last := schemas[|schemas| - 1];
      match SchemaLines(init, render, order)
      case Failure(e) => Failure(e)
      case Success(lines) =>
        match ServerLines(last.0, last.1, render, order)
        case Failure(e) => Failure(e)
        case Success(more) => Success(lines + more)
  }

  /** Servers without tools add no lines. */
  lemma {:induction false} ToolLessServersAddNothing(schemas: seq<(string, seq<Json>)>, render: Json -> string, order: map<string, Json> -> seq<string>)
    requires forall k :: 0 <= k < |schemas| ==> schemas[k].1 == []
    ensures SchemaLines(schemas, render, order) == Success([])
  {
    if schemas != [] {
      var init := schemas[..|schemas| - 1];
      assert forall k :: 0 <= k < |init| ==> init[k] == schemas[k];
      ToolLessServersAddNothing(init, render, order);
      var last := schemas[|schemas| - 1];
      assert ServerLines(last.0, last.1, render, order) == Success([]);
      var empty: seq<string> := [];
      assert empty + empty == empty;
    }
  }

  /** The text of the tool context, from the lines. */
  function ToolsContext(schemas: seq<(string, seq<Json>)>, render: Json -> string, order: map<string, Json> -> seq<string>): (r: Result<string>)
    ensures schemas == [] ==> r == Success("No MCP tools available.")
    ensures r.Success? && schemas != [] ==> SchemaLines(schemas, render, order).Success?
  {
    if schemas == [] then Success("No MCP tools available.")
    else
      var lines :- SchemaLines(schemas, render, order);
      Success(Join(lines, "\n"))
  }

  /** A mapping whose servers all have no tools gives an empty context,
      not the "no tools" message, which only an empty mapping gets. */
  lemma ToolLessContextIsEmpty(schemas: seq<(string, seq<Json>)>, render: Json -> string, order: map<string, Json> -> seq<string>)
    requires schemas != [] && forall k :: 0 <= k < |schemas| ==> schemas[k].1 == []
    ensures ToolsContext(schemas, render, order) == Success("")
  {
    ToolLessServersAddNothing(schemas, render, order);
  }

  /** `format_tools_context`: servers in the order of the mapping, each
      with a heading followed by its tools. Errors are what Python raises
      on malformed tool descriptions. */
  method FormatToolsContext(schemas: seq<(string, seq<Json>)>, render: Json -> string, order: map<string, Json> -> seq<string>)
    returns (r: Result<string>)
    ensures r == ToolsContext(schemas, render, order)
  {
    if schemas == [] {
      return Success("No MCP tools available.");
    }
    var lines: seq<string> := [];
    for i := 0 to |schemas|
      invariant SchemaLines(schemas[..i], render, order) == Success(lines)
    {
      assert schemas[..i + 1][..i] == schemas[..i];
      var section: Result<seq<string>> := Success([]);
      if schemas[i].1 != [] {
        section := ServerSection(schemas[i].0, schemas[i].1, render, order);
      }
      assert SchemaLines(schemas[..i + 1], render, order) ==
        if section.Failure? then Failure(section.error) else Success(lines + section.value);
      if section.Failure? {
        SchemaLinesStopAtFailure(schemas, i + 1, render, order);
        return Failure(section.error);
      }
      lines := lines + section.value;
    }
    assert schemas[..|schemas|] == schemas;
    r := Success(Join(lines, "\n"));
  }

  /** The loop over one server's tools. */
  method ServerSection(server: string, tools: seq<Json>, render: Json -> string, order: map<string, Json> -> seq<string>)
    returns (r: Result<seq<string>>)
    requires tools != []
    ensures r == ServerLines(server, tools, render, order)
  {
    var body: seq<string> := [];
    for i := 0 to |tools|
      invariant ToolsLines(server, tools[..i], render, order) == Success(body)
    {
      assert tools[..i + 1][..i] == tools[..i];
      var more := ToolLines(server, tools[i], render, order);
      if more.Failure? {
        ToolsLinesStopAtFailure(server, tools, i + 1, render, order);
        return Failure(more.error);
      }
      body := body + more.value;
    }
    assert tools[..|tools|] == tools;
    r := Success(["\n## Server: " + server] + body);
  }

  /** A failure among the first servers is the failure of all of them. */
  lemma {:induction false} SchemaLinesStopAtFailure(schemas: seq<(string, seq<Json>)>, n: nat, render: Json -> string, order: map<string, Json> -> seq<string>)
    requires n <= |schemas| && SchemaLines(schemas[..n], render, order).Failure?
    ensures SchemaLines(schemas, render, order) == SchemaLines(schemas[..n], render, order)
    decreases |schemas| - n
  {
    if n < |schemas| {
      assert schemas[..n + 1][..n] == schemas[..n];
      SchemaLinesStopAtFailure(schemas, n + 1, render, order);
    } else {
      assert schemas[..n] == schemas;
    }
  }

  /** A failure among the first tools is the failure of all of them. */
  lemma {:induction false} ToolsLinesStopAtFailure(server: string, tools: seq<Json>, n: nat, render: Json -> string, order: map<string, Json> -> seq<string>)
    requires n <= |tools| && ToolsLines(server, tools[..n], render, order).Failure?
    ensures ToolsLines(server, tools, render, order) == ToolsLines(server, tools[..n], render, order)
    decreases |tools| - n
  {
    if n < |tools| {
      assert tools[..n + 1][..n] == tools[..n];
      ToolsLinesFailStep(server, tools[..n + 1], render, order);
      ToolsLinesStopAtFailure(server, tools, n + 1, render, order);
    } else {
      assert tools[..n] == tools;
    }
  }

  /** A list of tools whose front fails fails the same way. */
  lemma ToolsLinesFailStep(server: string, tools: seq<Json>, render: Json -> string, order: map<string, Json> -> seq<string>)
    requires tools != [] && ToolsLines(server, tools[..|tools| - 1], render, order).Failure?
    ensures ToolsLines(server, tools, render, order) == ToolsLines(server, tools[..|tools| - 1], render, order)
  {
  }
}
