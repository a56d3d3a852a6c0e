/** The executor of the milestone workflow: every tool call of the
    tactical plan is run once, in order, and leaves one record in the
    history, whether it succeeded or not. The MCP executor is an oracle
    whose failure is the exception it raised. */
module MilestoneExecutor {
  import opened Wrappers
  import opened Json
  import opened Strs
  import opened Workflow
  import ToolParser

  /** `execute_tool(server_name=…, tool_name=…, **parameters)`. */
  type Caller = (string, string, map<string, Json>) -> Result<map<string, Json>>

  /** What the executor's answer says about success; anything but `true`
      counts as a failure. */
  predicate Succeeded(result: map<string, Json>) {
    "success" in result && result["success"] == Bool(true)
  }

  /** The record of a call that raised. */
  function FailureRecord(milestoneId: string, call: ToolCall, error: string): (r: ExecutionRecord)
    ensures !r.success
  {
    ExecutionRecord(milestoneId, call,
      map["success" := Bool(false), "error" := Str(error), "tool" := Str(call.toolId)], false)
  }

  /** The record one tool call leaves. */
  function Record(milestoneId: string, call: ToolCall, mcp: Caller): (r: ExecutionRecord)
    ensures r.milestoneId == milestoneId && r.toolCall == call
    ensures ToolParser.ParseToolId(call.toolId).Failure? ==>
      r == FailureRecord(milestoneId, call, ToolParser.ParseToolId(call.toolId).error)
    ensures ToolParser.ParseToolId(call.toolId).Success? ==>
      var (server, tool) := ToolParser.ParseToolId(call.toolId).value;
      match mcp(server, tool, call.parameters)
      case Success(result) => r.result == result && (r.success <==> Succeeded(result))
      case Failure(e) => r == FailureRecord(milestoneId, call, e)
  {
    match ToolParser.ParseToolId(call.toolId)
    case Failure(e) => FailureRecord(milestoneId, call, e)
    case Success((server, tool)) =>
      match mcp(server, tool, call.parameters)
      case Success(result) => ExecutionRecord(milestoneId, call, result, Succeeded(result))
      case Failure(e) => FailureRecord(milestoneId, call, e)
  }

  /** The records a tactical plan leaves, one per call in order. */
  function Records(plan: seq<ToolCall>, milestoneId: string, mcp: Caller): (r: seq<ExecutionRecord>)
    ensures |r| == |plan|
  {
    if plan == [] then []
    else Records(plan[..|plan| - 1], milestoneId, mcp) + [Record(milestoneId, plan[|plan| - 1], mcp)]
  }

  /** Record `k` belongs to the milestone and is the record of call `k`. */
  lemma {:induction false} RecordsFollowPlan(plan: seq<ToolCall>, milestoneId: string, mcp: Caller)
    ensures forall k :: 0 <= k < |plan| ==>
      Records(plan, milestoneId, mcp)[k] == Record(milestoneId, plan[k], mcp)
  {
    if plan != [] {
      var init := plan[..|plan| - 1];
      RecordsFollowPlan(init, milestoneId, mcp);
      assert forall k :: 0 <= k < |init| ==> init[k] == plan[k];
    }
  }

  /** The executor `node`: with an active milestone the history grows by
      the plan's records; otherwise nothing changes. */
  method Execute(s: WorkflowState, mcp: Caller) returns (r: WorkflowState)
    ensures !HasActiveMilestone(s) ==> r == s
    ensures HasActiveMilestone(s) ==>
      r == s.(history := s.history + Records(s.tacticalPlan, s.milestones[s.currentIdx].id, mcp))
  {
    if !HasActiveMilestone(s) {
      return s;
    }
    var id := s.milestones[s.currentIdx].id;
    var plan := s.tacticalPlan;
    var history := s.history;
    for i := 0 to |plan|
      invariant history == s.history + Records(plan[..i], id, mcp)
    {
      RecordsSnoc(s.history, plan, i, id, mcp);
      history := history + [Record(id, plan[i], mcp)];
    }
    assert plan[..|plan|] == plan;
    r := s.(history := history);
  }

  /** One more planned call appends its record. */
  lemma RecordsSnoc(history: seq<ExecutionRecord>, plan: seq<ToolCall>, i: nat, id: string, mcp: Caller)
    requires i < |plan|
    ensures history + Records(plan[..i + 1], id, mcp) == history + Records(plan[..i], id, mcp) + [Record(id, plan[i], mcp)]
  {
    assert plan[..i + 1][..i] == plan[..i];
  }

  /** After a run, the milestone's own history is its history before the
      run followed by one record per planned call, in plan order. */
  lemma MilestoneHistoryAfterRun(s: WorkflowState, mcp: Caller)
    requires HasActiveMilestone(s)
    ensures var id := s.milestones[s.currentIdx].id;
      var records := Records(s.tacticalPlan, id, mcp);
      ToolParser.MilestoneHistory(s.history + records, id)
        == ToolParser.MilestoneHistory(s.history, id) + records
  {
    var id := s.milestones[s.currentIdx].id;
    var records := Records(s.tacticalPlan, id, mcp);
    ToolParser.MilestoneHistoryConcat(s.history, records, id);
    RecordsFollowPlan(s.tacticalPlan, id, mcp);
    OwnRecordsKept(records, id);
  }

  /** Records that all belong to one milestone are all kept by its filter. */
  lemma {:induction false} OwnRecordsKept(records: seq<ExecutionRecord>, id: string)
    requires forall k :: 0 <= k < |records| ==> records[k].milestoneId == id
    ensures ToolParser.MilestoneHistory(records, id) == records
  {
    if records != [] {
      var init := records[..|records| - 1];
      OwnRecordsKept(init, id);
      assert records == init + [records[|records| - 1]];
      ToolParser.MilestoneHistoryConcat(init, [records[|records| - 1]], id);
    }
  }

  /** A call whose id has no ':' never reaches the executor and is recorded
      as a failure naming the expected format. */
  lemma MalformedIdFails(milestoneId: string, call: ToolCall, mcp: Caller)
    requires ':' !in call.toolId
    ensures var r := Record(milestoneId, call, mcp);
      && !r.success
      && r.result["error"] == Str("Invalid tool ID format: " + call.toolId + ". Expected 'server:tool'")
  {
  }

  /** The text Python gives for item assignment on a value that is not a
      dict. */
  function NoItemAssignment(j: Json): string {
    if j.Arr? then "list indices must be integers or slices, not str"
    else "'" + TypeName(j) + "' object does not support item assignment"
  }

  /** `update_execution_context` on the state's context. Only a successful
      result is kept: a listing's files are appended to "discovered_files",
      a read file's first 500 characters are stored under its path in
      "file_contents", and an analysis is appended to "analysis_results".
      A non-string path is keyed by its rendering. An existing entry of the
      wrong kind makes the update raise. */
  function UpdateExecutionContext(context: map<string, Json>, call: ToolCall, result: map<string, Json>,
                                  render: Json -> string): (r: Result<map<string, Json>>)
    ensures r.Failure? ==>
      || ("discovered_files" in context && !context["discovered_files"].Arr?)
      || ("file_contents" in context && !context["file_contents"].Obj?)
      || ("analysis_results" in context && !context["analysis_results"].Arr?)
    ensures r.Success? && "file_contents" in r.value && r.value["file_contents"].Obj? ==>
      var after := r.value["file_contents"].fields;
      var before := if "file_contents" in context && context["file_contents"].Obj?
        then context["file_contents"].fields else map[];
      forall name :: name in after ==>
        (name in before && after[name] == before[name]) || (after[name].Str? && |after[name].s| <= 500)
  {
    var data := if "result" in result then result["result"] else Null;
    if !("success" in result && Truthy(result["success"])) then Success(context)
    else if IsInfix("list_files", call.toolId) && data.Arr? then
      var files := if "discovered_files" in context then context["discovered_files"] else Arr([]);
      if !files.Arr? then Failure("'" + TypeName(files) + "' object has no attribute 'extend'")
      else Success(context["discovered_files" := Arr(files.items + data.items)])
    else if IsInfix("read_file", call.toolId) && data.Str? then
      var contents := if "file_contents" in context then context["file_contents"] else Obj(map[]);
      var path := if "path" in call.parameters then call.parameters["path"] else Str("unknown");
      var name := if path.Str? then path.s else render(path);
      if !contents.Obj? then Failure(NoItemAssignment(contents))
      else Success(context["file_contents" := Obj(contents.fields[name := Str(Take(data.s, 500))])])
    else if IsInfix("analyze", call.toolId) && data.Obj? then
      var analyses := if "analysis_results" in context then context["analysis_results"] else Arr([]);
      if !analyses.Arr? then Failure("'" + TypeName(analyses) + "' object has no attribute 'append'")
      else Success(context["analysis_results" := Arr(analyses.items + [data])])
    else Success(context)
  }

  /** The update changes at most one of its three entries and keeps every
      other key; an unsuccessful result changes nothing. */
  lemma UpdateTouchesOneEntry(context: map<string, Json>, call: ToolCall, result: map<string, Json>, render: Json -> string)
    ensures var r := UpdateExecutionContext(context, call, result, render);
      && (!("success" in result && Truthy(result["success"])) ==> r == Success(context))
      && (r.Success? ==>
            && context.Keys <= r.value.Keys
            && |r.value.Keys - context.Keys| <= 1
            && forall k :: k in context && k !in {"discovered_files", "file_contents", "analysis_results"} ==>
                 r.value[k] == context[k])
  {
    var data := if "result" in result then result["result"] else Null;
    if "success" in result && Truthy(result["success"]) {
      if IsInfix("list_files", call.toolId) && data.Arr? {
        var files := if "discovered_files" in context then context["discovered_files"] else Arr([]);
        if files.Arr? {
          StoreOneKey(context, "discovered_files", Arr(files.items + data.items));
        }
      } else if IsInfix("read_file", call.toolId) && data.Str? {
        var contents := if "file_contents" in context then context["file_contents"] else Obj(map[]);
        var path := if "path" in call.parameters then call.parameters["path"] else Str("unknown");
        var name := if path.Str? then path.s else render(path);
        if contents.Obj? {
          StoreOneKey(context, "file_contents", Obj(contents.fields[name := Str(Take(data.s, 500))]));
        }
      } else if IsInfix("analyze", call.toolId) && data.Obj? {
        var analyses := if "analysis_results" in context then context["analysis_results"] else Arr([]);
        if analyses.Arr? {
          StoreOneKey(context, "analysis_results", Arr(analyses.items + [data]));
        }
      } else {
        assert context.Keys - context.Keys == {};
      }
    }
  }

  /** Storing one key adds at most that key and keeps every other entry. */
  lemma StoreOneKey(m: map<string, Json>, key: string, v: Json)
    ensures m.Keys <= m[key := v].Keys
    ensures |m[key := v].Keys - m.Keys| <= 1
    ensures forall k :: k in m && k != key ==> m[key := v][k] == m[k]
  {
    var added := m[key := v].Keys - m.Keys;
    if key in m {
      assert added == {};
    } else {
      assert added == {key};
    }
  }

  /** A listing's files come after the files already discovered. */
  lemma ListingExtendsFiles(context: map<string, Json>, call: ToolCall, files: seq<Json>, render: Json -> string)
    requires IsInfix("list_files", call.toolId)
    requires "discovered_files" in context ==> context["discovered_files"].Arr?
    ensures var r := UpdateExecutionContext(context, call, map["success" := Bool(true), "result" := Arr(files)], render);
      && r.Success?
      && r.value["discovered_files"].Arr?
      && r.value["discovered_files"].items
         == (if "discovered_files" in context then context["discovered_files"].items else []) + files
  {
  }

  /** A read file is stored under its path as a preview of at most 500
      characters. */
  lemma ReadStoresPreview(context: map<string, Json>, call: ToolCall, text: string, render: Json -> string)
    requires !IsInfix("list_files", call.toolId) && IsInfix("read_file", call.toolId)
    requires "file_contents" in context ==> context["file_contents"].Obj?
    requires "path" in call.parameters && call.parameters["path"].Str?
    ensures var r := UpdateExecutionContext(context, call, map["success" := Bool(true), "result" := Str(text)], render);
      && r.Success?
      && r.value["file_contents"].Obj?
      && var stored := r.value["file_contents"].fields[call.parameters["path"].s];
         stored.Str? && stored.s <= text && |stored.s| <= 500
  {
  }
}
