/** The earlier executor node: one task per call, run through the MCP
    executor when it names a tool and through the LLM otherwise; every
    failure of the run becomes the result's error. */
module TaskExecutor {
  import opened Wrappers
  import opened Json
  import opened Strs
  import opened Schemas
  import opened AgentState
  import StateUtils
  import ContextExtractors
  import ExecutorUtils
  import McpExecutor

  /** The dependencies of `deps` with no result yet, in order, repeats kept. */
  function Unsatisfied(deps: seq<string>, s: State): (r: seq<string>)
    ensures forall d :: d in r <==> d in deps && d !in ContextExtractors.CompletedTaskIds(s)
    ensures |r| <= |deps|
  {
    if deps == [] then []
    else
      var rest := Unsatisfied(deps[1..], s);
      if deps[0] in ContextExtractors.CompletedTaskIds(s) then rest else [deps[0]] + rest
  }

  /** A task with nothing left unsatisfied is exactly a task whose
      dependencies the shared extractor accepts. */
  lemma NothingUnsatisfiedIsSatisfied(t: Task, s: State)
    ensures Unsatisfied(t.dependsOn, s) == [] <==> ContextExtractors.DependenciesSatisfied(t, s)
  {
    if Unsatisfied(t.dependsOn, s) != [] {
      var d := Unsatisfied(t.dependsOn, s)[0];
      assert d in t.dependsOn && d !in ContextExtractors.CompletedTaskIds(s);
    }
  }

  /** The answer of the MCP call, as the task result records it. */
  function FromEnvelope(id: string, e: McpExecutor.Envelope): (r: TaskResult) {
    if e.success then TaskResult(id, true, e.result, None, None)
    else TaskResult(id, false, Null, e.error, None)
  }

  /** A failed run: no value, the exception's text as the error. */
  function Failed(id: string, error: string): (r: TaskResult) {
    TaskResult(id, false, Null, Some(error), None)
  }

  /** The TypeError text for a keyword argument `p` that the bound method
      `execute_tool` already receives. */
  function DuplicateArgument(p: string): string {
    "MCPExecutor.execute_tool() got multiple values for argument '" + p + "'"
  }

  /** The text Python gives when a tool input repeats one of the bound
      method `execute_tool`'s own parameter names (`self` included), or
      None when it does not. */
  function KeywordClash(input: map<string, Json>): (r: Option<string>)
    ensures r.None? <==> "self" !in input && "server_name" !in input && "tool_name" !in input
    ensures r.Some? ==> exists p :: p in input && p in {"self", "server_name", "tool_name"} && r.value == DuplicateArgument(p)
  {
    if "self" in input then Some(DuplicateArgument("self"))
    else if "server_name" in input then Some(DuplicateArgument("server_name"))
    else if "tool_name" in input then Some(DuplicateArgument("tool_name"))
    else None
  }

  /** An LLM-only task: an empty description is refused before the LLM is
      asked; the LLM's answer becomes the result, its failure the error. */
  function LlmTaskResult(t: Task, llm: string -> Result<string>): (r: TaskResult)
    ensures r.taskId == t.id && r.llmUsage.None?
    ensures t.description == [] ==> r == Failed(t.id, "Task description is required for LLM-only tasks")
    ensures t.description != [] ==> (r.success <==> llm(t.description).Success?)
    ensures t.description != [] && r.success ==> r.result == Str(llm(t.description).value) && r.error.None?
  {
    if t.description == [] then Failed(t.id, "Task description is required for LLM-only tasks")
    else
      match llm(t.description)
      case Success(out) => TaskResult(t.id, true, Str(out), None, None)
      case Failure(e) => Failed(t.id, e)
  }

  /** How a run turns a task into its result: an LLM-only task through the
      LLM, a malformed tool reference or a clashing input into an error, and
      otherwise the executor's answer `call`. */
  ghost predicate Ran(t: Task, llm: string -> Result<string>, result: TaskResult, call: Option<McpExecutor.Envelope>) {
    if !Filled(t.toolCall) then result == LlmTaskResult(t, llm) && call.None?
    else
      match ExecutorUtils.ParseToolCall(t.toolCall.value)
      case Failure(e) => result == Failed(t.id, e) && call.None?
      case Success(names) =>
        match KeywordClash(t.toolInput.GetOr(map[]))
        case Some(e) => result == Failed(t.id, e) && call.None?
        case None =>
          call.Some? && McpExecutor.Shaped(call.value, names.0, names.1)
          && result == FromEnvelope(t.id, call.value)
  }

  /** Runs one task. A tool task's reference must contain ':'; its input
      (empty when absent) goes to the executor as keyword arguments. The
      ghost `call` is the executor's answer when it was asked. */
  method RunTask(t: Task, mcp: McpExecutor.Executor, llm: string -> Result<string>)
    returns (result: TaskResult, ghost call: Option<McpExecutor.Envelope>)
    requires mcp.Valid()
    modifies mcp.Repr
    ensures mcp.Valid() && fresh(mcp.Repr - old(mcp.Repr))
    ensures result.taskId == t.id && result.llmUsage.None?
    ensures Ran(t, llm, result, call)
    ensures call.Some? ==> Filled(t.toolCall) && ExecutorUtils.ParseToolCall(t.toolCall.value).Success?
    ensures call.Some? ==>
      var names := ExecutorUtils.ParseToolCall(t.toolCall.value).value;
      var kwargs := t.toolInput.GetOr(map[]);
      && call.value == old(mcp.CallFor(names.0, names.1, kwargs))
      && mcp.StateAt(names.0) == old(mcp.AfterCall(names.0, names.1, kwargs))
    ensures call.None? ==> mcp.transports == old(mcp.transports)
  {
    call := None;
    if !Filled(t.toolCall) {
      return LlmTaskResult(t, llm), None;
    }
    var names := ExecutorUtils.ParseToolCall(t.toolCall.value);
    if names.Failure? {
      return Failed(t.id, names.error), None;
    }
    var input := t.toolInput.GetOr(map[]);
    var clash := KeywordClash(input);
    if clash.Some? {
      return Failed(t.id, clash.value), None;
    }
    var e := mcp.ExecuteTool(names.value.0, names.value.1, input);
    call := Some(e);
    result := FromEnvelope(t.id, e);
  }

  /** `executor_node`: the plan-level refusals only set the error; a run
      task is recorded exactly as the shared `advance_task` records it. */
  method ExecuteTask(s: State, mcp: McpExecutor.Executor, llm: string -> Result<string>)
    returns (r: State, ghost result: Option<TaskResult>, ghost call: Option<McpExecutor.Envelope>)
    requires mcp.Valid()
    modifies mcp.Repr
    ensures mcp.Valid() && fresh(mcp.Repr - old(mcp.Repr))
    ensures s.plan.None? ==> r == s.(error := Some("No plan to execute")) && result.None?
    ensures s.plan.Some? && s.index >= |s.plan.value.tasks| ==>
      r == s.(error := Some("All tasks already completed")) && result.None?
    ensures s.plan.Some? && s.index < |s.plan.value.tasks| ==>
      var t := s.plan.value.tasks[s.index];
      var missing := Unsatisfied(t.dependsOn, s);
      && (missing != [] ==>
            r == s.(error := Some("Task dependencies not satisfied: " + ListRepr(missing))) && result.None?)
      && (missing == [] ==>
            result.Some? && Ran(t, llm, result.value, call) && r == StateUtils.AdvanceTask(s, result.value))
      && (missing == [] && call.Some? ==>
            && Filled(t.toolCall) && ExecutorUtils.ParseToolCall(t.toolCall.value).Success?
            && var names := ExecutorUtils.ParseToolCall(t.toolCall.value).value;
               var kwargs := t.toolInput.GetOr(map[]);
               && call.value == old(mcp.CallFor(names.0, names.1, kwargs))
               && mcp.StateAt(names.0) == old(mcp.AfterCall(names.0, names.1, kwargs)))
  {
    result, call := None, None;
    if s.plan.None? {
      return s.(error := Some("No plan to execute")), None, None;
    }
    var tasks := s.plan.value.tasks;
    if s.index >= |tasks| {
      return s.(error := Some("All tasks already completed")), None, None;
    }
    var t := tasks[s.index];
    var missing := Unsatisfied(t.dependsOn, s);
    if missing != [] {
      return s.(error := Some("Task dependencies not satisfied: " + ListRepr(missing))), None, None;
    }
    var outcome;
    outcome, call := RunTask(t, mcp, llm);
    result := Some(outcome);
    r := s.(results := s.results + [outcome], index := s.index + 1,
            error := if outcome.success then None else outcome.error);
  }
}
