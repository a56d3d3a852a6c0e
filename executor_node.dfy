/** The executor node: a linear plan runs all its remaining tasks in one
    pass, stopping at the first failure; any other plan runs one task.
    Running a task (an MCP tool call or an LLM call) is an oracle that
    returns its result. */
module ExecutorNode {
  import opened Wrappers
  import opened Strs
  import opened Schemas
  import opened AgentState
  import opened StateUtils
  import opened ContextExtractors
  import PlanAnalyzer

  /** What the task runners do with a task in a given state. */
  type Runner = (Task, State) -> TaskResult

  /** The error a task with an unexecuted dependency produces; it lists all
      the task's dependencies. */
  function DependencyError(t: Task): string {
    "Dependencies not satisfied: " + ListRepr(t.dependsOn)
  }

  /** Tasks left before the end of the plan. */
  function Remaining(s: State): int {
    TaskCount(s) - s.index
  }

  /** The batch loop of `_execute_linear_plan`, one task per step. */
  function Batch(s: State, run: Runner): State
    decreases if Remaining(s) < 0 then 0 else Remaining(s)
  {
    match GetCurrentTask(s)
    case None => s
    case Some(t) =>
      if !DependenciesSatisfied(t, s) then CreateErrorState(s, DependencyError(t))
      else
        var result := run(t, s);
        var next := AdvanceTask(s, result);
        if !result.success then next else Batch(next, run)
  }

  /** `_execute_linear_plan`. */
  method ExecuteLinearPlan(s: State, run: Runner) returns (r: State)
    ensures r == Batch(s, run)
  {
    r := s;
    while true
      invariant Batch(r, run) == Batch(s, run)
      decreases if Remaining(r) < 0 then 0 else Remaining(r)
    {
      var task := GetCurrentTask(r);
      if task.None? {
        return;
      }
      var t := task.value;
      if !DependenciesSatisfied(t, r) {
        return CreateErrorState(r, DependencyError(t));
      }
      var result := run(t, r);
      r := AdvanceTask(r, result);
      if !result.success {
        return;
      }
    }
  }

  /** `_execute_single_task`. */
  function ExecuteSingleTask(s: State, run: Runner): (r: State)
    ensures GetCurrentTask(s).None? ==> r == CreateErrorState(s, "No task to execute")
    ensures GetCurrentTask(s).Some? && !DependenciesSatisfied(GetCurrentTask(s).value, s) ==>
      r == CreateErrorState(s, DependencyError(GetCurrentTask(s).value))
    ensures GetCurrentTask(s).Some? && DependenciesSatisfied(GetCurrentTask(s).value, s) ==>
      r == AdvanceTask(s, run(GetCurrentTask(s).value, s))
  {
    match GetCurrentTask(s)
    case None => CreateErrorState(s, "No task to execute")
    case Some(t) =>
      if !DependenciesSatisfied(t, s) then CreateErrorState(s, DependencyError(t))
      else AdvanceTask(s, run(t, s))
  }

  /** `executor_node`: linear plans take the batch path. */
  method Execute(s: State, run: Runner) returns (r: State)
    ensures PlanAnalyzer.Linear(s.plan) ==> r == Batch(s, run)
    ensures !PlanAnalyzer.Linear(s.plan) ==> r == ExecuteSingleTask(s, run)
  {
    var linear := PlanAnalyzer.IsLinearPlan(s.plan);
    if linear {
      r := ExecuteLinearPlan(s, run);
    } else {
      r := ExecuteSingleTask(s, run);
    }
  }

  /** What a batch does to the state: it keeps the plan, appends one result
      per task it advances over, and every appended result but the last one
      succeeded. */
  lemma {:induction false} BatchShape(s: State, run: Runner)
    ensures Batch(s, run).plan == s.plan
    ensures |s.results| <= |Batch(s, run).results|
    ensures Batch(s, run).results[..|s.results|] == s.results
    ensures Batch(s, run).index - s.index == |Batch(s, run).results| - |s.results|
    ensures forall k :: |s.results| <= k < |Batch(s, run).results| - 1 ==> Batch(s, run).results[k].success
    decreases if Remaining(s) < 0 then 0 else Remaining(s)
  {
    match GetCurrentTask(s)
    case None =>
    case Some(t) =>
      if DependenciesSatisfied(t, s) {
        var result := run(t, s);
        var next := AdvanceTask(s, result);
        if result.success {
          BatchShape(next, run);
          var r := Batch(next, run);
          assert Batch(s, run) == r;
          assert r.results[..|next.results|] == s.results + [result];
          assert r.results[..|s.results|] == (s.results + [result])[..|s.results|];
        }
      }
  }

  /** A batch stops early only at a failed task, whose result it appended
      last, or at a task whose dependencies have not run. */
  lemma {:induction false} BatchStops(s: State, run: Runner)
    ensures GetCurrentTask(Batch(s, run)).Some? ==>
      || (|Batch(s, run).results| > |s.results| && !Batch(s, run).results[|Batch(s, run).results| - 1].success)
      || Batch(s, run).error == Some(DependencyError(GetCurrentTask(Batch(s, run)).value))
    decreases if Remaining(s) < 0 then 0 else Remaining(s)
  {
    match GetCurrentTask(s)
    case None =>
    case Some(t) =>
      if DependenciesSatisfied(t, s) {
        var result := run(t, s);
        var next := AdvanceTask(s, result);
        if result.success {
          BatchStops(next, run);
          BatchShape(next, run);
          assert Batch(s, run) == Batch(next, run);
        } else {
          assert Batch(s, run) == next;
          assert next.results[|next.results| - 1] == result;
        }
      } else {
        var e := CreateErrorState(s, DependencyError(t));
        assert Batch(s, run) == e;
        assert GetCurrentTask(e) == Some(t);
      }
  }

  /** Every result a batch appends names the task it ran, in plan order,
      when the runners label their results with the task's id. */
  lemma {:induction false} BatchFollowsPlan(s: State, run: Runner)
    requires forall t: Task, st: State :: run(t, st).taskId == t.id
    ensures AppendsPlanTasks(s, run)
    decreases if Remaining(s) < 0 then 0 else Remaining(s)
  {
    BatchShape(s, run);
    match GetCurrentTask(s)
    case None =>
    case Some(t) =>
      if DependenciesSatisfied(t, s) {
        var result := run(t, s);
        var next := AdvanceTask(s, result);
        if result.success {
          BatchFollowsPlan(next, run);
          BatchShape(next, run);
          var r := Batch(next, run);
          assert r == Batch(s, run);
          LabelsShift(s.results, result, r.results, s.plan.value.tasks, s.index);
        }
      }
  }

  /** From position `from` of `out` on, each result names the task
      `from` positions further back, counted from task `i`. */
  ghost predicate Labelled(out: seq<TaskResult>, from: nat, tasks: seq<Task>, i: nat) {
    forall k :: from <= k < |out| ==> k - from + i < |tasks| && out[k].taskId == tasks[k - from + i].id
  }

  /** Results labelled from task `i + 1` on, behind a result labelled with
      task `i`, are labelled from task `i` on. */
  lemma LabelsShift(base: seq<TaskResult>, result: TaskResult, out: seq<TaskResult>, tasks: seq<Task>, i: nat)
    requires |base| + 1 <= |out| && out[..|base| + 1] == base + [result]
    requires i < |tasks| && result.taskId == tasks[i].id
    requires Labelled(out, |base| + 1, tasks, i + 1)
    ensures Labelled(out, |base|, tasks, i)
  {
    forall k | |base| <= k < |out|
      ensures k - |base| + i < |tasks| && out[k].taskId == tasks[k - |base| + i].id
    {
      if k == |base| {
        assert out[k] == out[..|base| + 1][k] == (base + [result])[k] == result;
        assert k - |base| + i == i;
      } else {
        assert k - (|base| + 1) + (i + 1) == k - |base| + i;
        assert out[k].taskId == tasks[k - (|base| + 1) + (i + 1)].id;
      }
    }
  }

  /** The appended results are the plan's tasks from the starting index. */
  ghost predicate AppendsPlanTasks(s: State, run: Runner) {
    var r := Batch(s, run);
    && r.plan == s.plan
    && |s.results| <= |r.results|
    && (|s.results| < |r.results| ==> s.plan.Some? && Labelled(r.results, |s.results|, s.plan.value.tasks, s.index))
  }

  /** In a linear plan whose runners label results with their task, a
      batch that starts on a runnable task ends only when the plan is done
      or a task failed: each later task depends only on the one just run. */
  lemma {:induction false} LinearBatchNeedsNoDependencyCheck(s: State, run: Runner)
    requires forall t: Task, st: State :: run(t, st).taskId == t.id
    requires PlanAnalyzer.Linear(s.plan)
    requires GetCurrentTask(s).Some? ==> DependenciesSatisfied(GetCurrentTask(s).value, s)
    ensures GetCurrentTask(Batch(s, run)).Some? ==>
      |Batch(s, run).results| > |s.results| && !Batch(s, run).results[|Batch(s, run).results| - 1].success
    decreases if Remaining(s) < 0 then 0 else Remaining(s)
  {
    match GetCurrentTask(s)
    case None =>
    case Some(t) =>
      var result := run(t, s);
      var next := AdvanceTask(s, result);
      if result.success {
        var tasks := s.plan.value.tasks;
        match GetCurrentTask(next)
        case None =>
        case Some(u) =>
          assert u == tasks[s.index + 1] && |tasks| > 1;
          assert u.dependsOn == [tasks[s.index].id];
          AdvanceSatisfiesDependency(u, s, result);
        LinearBatchNeedsNoDependencyCheck(next, run);
        BatchShape(next, run);
        var r := Batch(next, run);
        assert r.results[..|next.results|] == s.results + [result];
      }
  }
}
