/** Plan validation after the planning LLM has answered: a plan must exist
    and hold tasks, and every task without an id gets a generated one. */
module PlannerService {
  import opened Wrappers
  import opened Schemas
  import PlannerUtils

  /** The id a task at position `i` ends up with. */
  function EnrichedId(t: Task, i: nat): string {
    if t.id == "" then PlannerUtils.GenerateTaskId(i, t.description) else t.id
  }

  /** `validate_and_enrich_plan`: the tasks are updated one by one; only
      empty ids change. */
  method ValidateAndEnrichPlan(plan: Option<Plan>) returns (r: Result<Plan>)
    ensures plan.None? ==> r == Failure("Plan is empty")
    ensures plan.Some? && plan.value.tasks == [] ==> r == Failure("Plan has no tasks")
    ensures plan.Some? && plan.value.tasks != [] ==>
      && r.Success? && r.value.reasoning == plan.value.reasoning
      && |r.value.tasks| == |plan.value.tasks|
      && forall k :: 0 <= k < |r.value.tasks| ==>
           r.value.tasks[k] == plan.value.tasks[k].(id := EnrichedId(plan.value.tasks[k], k))
  {
    if plan.None? {
      return Failure("Plan is empty");
    }
    var tasks := plan.value.tasks;
    if tasks == [] {
      return Failure("Plan has no tasks");
    }
    for i := 0 to |tasks|
      invariant |tasks| == |plan.value.tasks|
      invariant forall k :: 0 <= k < i ==> tasks[k] == plan.value.tasks[k].(id := EnrichedId(plan.value.tasks[k], k))
      invariant forall k :: i <= k < |tasks| ==> tasks[k] == plan.value.tasks[k]
    {
      if tasks[i].id == "" {
        tasks := tasks[i := tasks[i].(id := PlannerUtils.GenerateTaskId(i, tasks[i].description))];
      }
    }
    r := Success(plan.value.(tasks := tasks));
  }

  /** After enrichment no task has an empty id, and a generated id is never
      the id of a task at another position that also had none. */
  lemma EnrichedIdsFilledAndDistinct(tasks: seq<Task>)
    ensures forall k :: 0 <= k < |tasks| ==> EnrichedId(tasks[k], k) != ""
    ensures forall k, m :: 0 <= k < m < |tasks| && tasks[k].id == "" && tasks[m].id == "" ==>
      EnrichedId(tasks[k], k) != EnrichedId(tasks[m], m)
  {
    forall k | 0 <= k < |tasks|
      ensures EnrichedId(tasks[k], k) != ""
    {
      if tasks[k].id == "" {
        assert PlannerUtils.IdPrefix(k)[0] == 't';
      }
    }
    forall k, m | 0 <= k < m < |tasks| && tasks[k].id == "" && tasks[m].id == ""
      ensures EnrichedId(tasks[k], k) != EnrichedId(tasks[m], m)
    {
      PlannerUtils.GeneratedIdsDiffer(k, m, tasks[k].description, tasks[m].description);
    }
  }

  /** The `has_dependencies` flag logged for a created plan, computed task
      by task. */
  function HasDependencies(tasks: seq<Task>): (r: bool)
    ensures r <==> exists k :: 0 <= k < |tasks| && tasks[k].dependsOn != []
  {
    if tasks == [] then false
    else
      var rest := HasDependencies(tasks[1..]);
      assert forall k :: 1 <= k < |tasks| ==> tasks[k] == tasks[1..][k - 1];
      tasks[0].dependsOn != [] || rest
  }
}
