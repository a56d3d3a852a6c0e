/** Reading the state: the user's request, the current task, the last
    result, dependency satisfaction, and the text summaries of the
    execution history. */
module ContextExtractors {
  import opened Wrappers
  import opened Json
  import opened Strs
  import opened Schemas
  import opened AgentState
  import StateUtils

  /** The position of the first human message, if there is one. */
  function FirstHuman(messages: seq<Message>): (r: Option<nat>)
    ensures r.None? <==> forall k :: 0 <= k < |messages| ==> messages[k].role != Human
    ensures r.Some? ==>
      && r.value < |messages| && messages[r.value].role == Human
      && forall k :: 0 <= k < r.value ==> messages[k].role != Human
  {
    if messages == [] then None
    else if messages[0].role == Human then Some(0)
    else
      var r := FirstHuman(messages[1..]);
      if r.None? then None else Some(r.value + 1)
  }

  /** Position k holds the first human message. */
  predicate FirstHumanAt(messages: seq<Message>, k: int) {
    && 0 <= k < |messages| && messages[k].role == Human
    && forall j :: 0 <= j < k ==> messages[j].role != Human
  }

  /** `get_user_request`: the first human message, whatever follows it. */
  function GetUserRequest(s: State): (r: string)
    ensures (forall k :: 0 <= k < |s.messages| ==> s.messages[k].role != Human) ==> r == "No user request found"
    ensures forall k :: FirstHumanAt(s.messages, k) ==> r == s.messages[k].content
  {
    var i := FirstHuman(s.messages);
    if i.Some? then s.messages[i.value].content else "No user request found"
  }

  /** `get_last_result`. */
  function GetLastResult(s: State): (r: Option<TaskResult>)
    ensures r.None? <==> s.results == []
    ensures r.Some? ==> r.value == s.results[|s.results| - 1]
  {
    if s.results == [] then None else Some(s.results[|s.results| - 1])
  }

  /** `get_current_task`: the task at the index, if the plan has one there. */
  function GetCurrentTask(s: State): (r: Option<Task>)
    ensures r.Some? <==> s.plan.Some? && s.index < |s.plan.value.tasks|
    ensures r.Some? ==> r.value == s.plan.value.tasks[s.index]
  {
    if s.plan.None? then None
    else if s.index >= |s.plan.value.tasks| then None
    else Some(s.plan.value.tasks[s.index])
  }

  /** `get_completed_task_ids`: every executed task, failed ones included. */
  function CompletedTaskIds(s: State): (ids: set<string>)
    ensures forall id :: id in ids <==> exists k :: 0 <= k < |s.results| && s.results[k].taskId == id
  {
    set k | 0 <= k < |s.results| :: s.results[k].taskId
  }

  /** `are_dependencies_satisfied`: every dependency has been executed,
      successfully or not. */
  function DependenciesSatisfied(t: Task, s: State): (ok: bool)
    ensures ok <==> forall d :: d in t.dependsOn ==> exists k :: 0 <= k < |s.results| && s.results[k].taskId == d
  {
    if t.dependsOn == [] then true
    else
      var done := CompletedTaskIds(s);
      forall d :: d in t.dependsOn ==> d in done
  }

  /** Recording a result satisfies a dependency on its task even when the
      task failed, and never unsatisfies anything. */
  lemma AdvanceSatisfiesDependency(t: Task, s: State, result: TaskResult)
    ensures forall d :: d in t.dependsOn && d == result.taskId ==>
      d in CompletedTaskIds(StateUtils.AdvanceTask(s, result))
    ensures DependenciesSatisfied(t, s) ==> DependenciesSatisfied(t, StateUtils.AdvanceTask(s, result))
    ensures t.dependsOn == [result.taskId] ==> DependenciesSatisfied(t, StateUtils.AdvanceTask(s, result))
  {
    var r := StateUtils.AdvanceTask(s, result);
    assert r.results[|s.results|] == result;
    assert forall k :: 0 <= k < |s.results| ==> r.results[k] == s.results[k];
  }

  /** A result that succeeded. */
  predicate Succeeded(r: TaskResult) {
    r.success
  }

  /** `get_failed_tasks`: the unsuccessful results, in order. */
  function FailedResults(results: seq<TaskResult>): (r: seq<TaskResult>)
    ensures forall x :: x in r <==> x in results && !x.success
    ensures |r| + CountIf(results, Succeeded) == |results|
  {
    if results == [] then []
    else
      var init := results[..|results| - 1];
      var last := results[|results| - 1];
      assert results == init + [last];
      FailedResults(init) + (if last.success then [] else [last])
  }

  function GetFailedTasks(s: State): (r: seq<TaskResult>)
    ensures forall x :: x in r <==> x in s.results && !x.success
  {
    FailedResults(s.results)
  }

  /** `has_execution_history`: exactly when the summary reports results. */
  predicate HasExecutionHistory(s: State): (has: bool)
    ensures has <==> |s.results| > 0
    ensures !has <==> FormatExecutionSummary(s) == "No execution history."
  {
    assert s.results != [] ==> FormatExecutionSummary(s)[0] == 'C';
    s.results != []
  }

  /** `format_execution_summary`: the completed and failed counts add up to
      the number of results. */
  function FormatExecutionSummary(s: State): (text: string)
    ensures s.results == [] ==> text == "No execution history."
    ensures s.results != [] ==>
      text == "Completed: " + NatToString(CountIf(s.results, Succeeded))
              + ", Failed: " + NatToString(|s.results| - CountIf(s.results, Succeeded))
              + ", Total: " + NatToString(|s.results|)
  {
    if s.results == [] then "No execution history."
    else
      "Completed: " + NatToString(CountIf(s.results, Succeeded))
      + ", Failed: " + NatToString(|FailedResults(s.results)|)
      + ", Total: " + NatToString(|s.results|)
  }

  /** A successful result's text, cut at 200 characters. */
  function Truncated(text: string): (r: string)
    ensures |text| <= 200 ==> r == text
    ensures |text| > 200 ==> r == text[..200] + "... [truncated]" && |r| == 215
  {
    if |text| > 200 then text[..200] + "... [truncated]" else text
  }

  /** One line of the execution history. */
  function ResultLine(result: TaskResult, render: Json -> string): string {
    if result.success then "✓ " + result.taskId + ": " + Truncated(PyStr(render, result.result))
    else "✗ " + result.taskId + ": ERROR - " + OptText(result.error)
  }

  function ResultLines(results: seq<TaskResult>, render: Json -> string): (lines: seq<string>)
    ensures |lines| == |results|
    ensures forall k :: 0 <= k < |results| ==> lines[k] == ResultLine(results[k], render)
  {
    seq(|results|, k requires 0 <= k < |results| => ResultLine(results[k], render))
  }

  /** One more result adds its line at the end. */
  lemma ResultLinesSnoc(results: seq<TaskResult>, i: nat, render: Json -> string)
    requires i < |results|
    ensures ResultLines(results[..i + 1], render) == ResultLines(results[..i], render) + [ResultLine(results[i], render)]
  {
    var longer, shorter := ResultLines(results[..i + 1], render), ResultLines(results[..i], render);
    assert forall k :: 0 <= k < i ==> longer[k] == shorter[k];
  }

  /** `xs[-m:]` with Python's slicing rules: the last m items for m > 0,
      and for m <= 0 everything from position -m on (so all of it for 0). */
  function LastN(xs: seq<TaskResult>, m: int): (r: seq<TaskResult>)
    ensures m > 0 ==> |r| == (if m < |xs| then m else |xs|) && r == xs[|xs| - |r|..]
    ensures m == 0 ==> r == xs
  {
    if m > 0 then (if m < |xs| then xs[|xs| - m..] else xs)
    else if -m < |xs| then xs[-m..] else []
  }

  /** The text of `format_execution_history`. */
  function HistoryText(results: seq<TaskResult>, maxResults: int, render: Json -> string): string {
    if results == [] then "No tasks executed yet."
    else Join(ResultLines(LastN(results, maxResults), render), "\n")
  }

  /** `format_execution_history`: one line per recent result, oldest first. */
  method FormatExecutionHistory(results: seq<TaskResult>, render: Json -> string, maxResults: int := 10) returns (text: string)
    ensures text == HistoryText(results, maxResults, render)
  {
    if results == [] {
      return "No tasks executed yet.";
    }
    var recent := LastN(results, maxResults);
    var lines: seq<string> := [];
    for i := 0 to |recent|
      invariant lines == ResultLines(recent[..i], render)
    {
      ResultLinesSnoc(recent, i, render);
      lines := lines + [ResultLine(recent[i], render)];
    }
    assert recent[..|recent|] == recent;
    text := Join(lines, "\n");
  }
}
