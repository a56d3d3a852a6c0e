/** The evaluator's helpers: the user request, the task and result
    listings of its prompt, and the decision taken when the LLM
    evaluation fails. */
module EvaluatorUtils {
  import opened Wrappers
  import opened Json
  import opened Strs
  import opened Schemas
  import opened AgentState
  import ContextExtractors
  import EvaluatorRouter

  /** The evaluator's own `get_user_request`: the first human message. */
  function GetUserRequest(s: State): (r: string)
    decreases |s.messages|
  {
    if s.messages == [] then "No user request found"
    else if s.messages[0].role == Human then s.messages[0].content
    else GetUserRequest(s.(messages := s.messages[1..]))
  }

  /** The evaluator's copy answers exactly what the shared extractor does. */
  lemma {:induction false} UserRequestsAgree(s: State)
    ensures GetUserRequest(s) == ContextExtractors.GetUserRequest(s)
    decreases |s.messages|
  {
    if s.messages != [] && s.messages[0].role != Human {
      var t := s.(messages := s.messages[1..]);
      UserRequestsAgree(t);
      var i := ContextExtractors.FirstHuman(s.messages);
      if i.Some? {
        assert ContextExtractors.FirstHumanAt(t.messages, i.value - 1);
      }
    }
  }

  /** `fallback_decision`. */
  function FallbackDecision(s: State): (d: Decision)
    ensures s.plan.None? ==> d == Replan
    ensures s.plan.Some? && s.index >= |s.plan.value.tasks| ==> d == Finalize
    ensures s.plan.Some? && s.index < |s.plan.value.tasks| ==>
      d == if EvaluatorRouter.LastResultFailed(s) then Replan else Continue
  {
    if s.plan.None? then Replan
    else if s.index >= |s.plan.value.tasks| then Finalize
    else if s.results != [] && !s.results[|s.results| - 1].success then Replan
    else Continue
  }

  /** The fallback decision leads exactly where the router's own fallback
      rules lead. */
  lemma FallbackMatchesRouter(s: State)
    ensures EvaluatorRouter.RouteFromDecision(FallbackDecision(s)) == EvaluatorRouter.FallbackRoute(s)
  {
  }

  /** The line for task i when `current` tasks are done. */
  function TaskLine(t: Task, i: nat, current: int): string {
    StatusMark(i, current) + TaskBody(t, i, current)
  }

  /** The status mark and its separating space. */
  function StatusMark(i: nat, current: int): string {
    if i < current then "[✓] " else "[ ] "
  }

  /** A task line after its status mark: id, description, tool and stage. */
  function TaskBody(t: Task, i: nat, current: int): string {
    TaskText(t) + StageTag(i, current)
  }

  /** Id, description and the tool or "LLM task" note. */
  function TaskText(t: Task): string {
    var tool := if Filled(t.toolCall) then " (tool: " + t.toolCall.value + ")" else " (LLM task)";
    t.id + ": " + t.description + tool
  }

  /** The parenthesised stage label of task i when `current` tasks are done. */
  function StageTag(i: nat, current: int): string {
    if i < current then " (COMPLETED)" else if i == current then " (NEXT)" else " (PENDING)"
  }

  /** Whether `s` ends with `suffix`. */
  predicate EndsWith(s: string, suffix: string) {
    |suffix| <= |s| && s[|s| - |suffix|..] == suffix
  }

  /** Each task's status mark: "[✓]" before `current`, "[ ]" from it on. */
  lemma TaskLineStatus(t: Task, i: nat, current: int)
    ensures i < current ==> "[✓] " <= TaskLine(t, i, current)
    ensures i >= current ==> "[ ] " <= TaskLine(t, i, current)
  {
    var mark, body := StatusMark(i, current), TaskBody(t, i, current);
    assert (mark + body)[..|mark|] == mark;
  }

  /** Each task's stage: completed before `current`, next at it, pending
      after. */
  lemma TaskLineStage(t: Task, i: nat, current: int)
    ensures i < current ==> EndsWith(TaskLine(t, i, current), " (COMPLETED)")
    ensures i == current ==> EndsWith(TaskLine(t, i, current), " (NEXT)")
    ensures i > current ==> EndsWith(TaskLine(t, i, current), " (PENDING)")
  {
    var front := StatusMark(i, current) + TaskText(t);
    EndsWithAppend(front, StageTag(i, current));
    assert TaskLine(t, i, current) == front + StageTag(i, current);
  }

  lemma EndsWithAppend(a: string, b: string)
    ensures EndsWith(a + b, b)
  {
    assert (a + b)[|a + b| - |b|..] == b;
  }

  function TaskLines(tasks: seq<Task>, current: int): (lines: seq<string>)
    ensures |lines| == |tasks|
    ensures forall k :: 0 <= k < |tasks| ==> lines[k] == TaskLine(tasks[k], k, current)
  {
    seq(|tasks|, k requires 0 <= k < |tasks| => TaskLine(tasks[k], k, current))
  }

  /** `format_tasks`: one line per task, in plan order. */
  method FormatTasks(tasks: seq<Task>, current: int) returns (text: string)
    ensures text == Join(TaskLines(tasks, current), "\n")
  {
    var lines: seq<string> := [];
    for i := 0 to |tasks|
      invariant lines == TaskLines(tasks[..i], current)
    {
      lines := lines + [TaskLine(tasks[i], i, current)];
    }
    assert tasks[..|tasks|] == tasks;
    text := Join(lines, "\n");
  }

  /** `format_execution_results`: every result, one line each. */
  method FormatExecutionResults(results: seq<TaskResult>, render: Json -> string) returns (text: string)
    ensures results == [] ==> text == "No tasks executed yet."
    ensures results != [] ==> text == Join(ContextExtractors.ResultLines(results, render), "\n")
  {
    if results == [] {
      return "No tasks executed yet.";
    }
    var lines: seq<string> := [];
    for i := 0 to |results|
      invariant lines == ContextExtractors.ResultLines(results[..i], render)
    {
      lines := lines + [ContextExtractors.ResultLine(results[i], render)];
    }
    assert results[..|results|] == results;
    text := Join(lines, "\n");
  }

  /** Listing every result is the shared history formatter with no limit. */
  lemma ResultsAreUnlimitedHistory(results: seq<TaskResult>, render: Json -> string)
    ensures results != [] ==>
      ContextExtractors.HistoryText(results, 0, render) == Join(ContextExtractors.ResultLines(results, render), "\n")
    ensures results == [] ==> ContextExtractors.HistoryText(results, 0, render) == "No tasks executed yet."
  {
  }
}
