/** Where the graph goes after the evaluator: back to the planner, on to
    the executor, or to the finalizer. */
module EvaluatorRouter {
  import opened Wrappers
  import opened Schemas
  import opened AgentState
  import PlanAnalyzer

  datatype RouteTarget = Planner | Executor | Finalizer

  /** The node name each target stands for. */
  function RouteName(t: RouteTarget): (name: string)
    ensures name == "planner_node" <==> t == Planner
    ensures name == "executor_node" <==> t == Executor
    ensures name == "finalizer_node" <==> t == Finalizer
  {
    match t
    case Planner => "planner_node"
    case Executor => "executor_node"
    case Finalizer => "finalizer_node"
  }

  /** `_route_from_decision`: REPLAN plans again, CONTINUE executes,
      FINALIZE finishes. */
  function RouteFromDecision(d: Decision): (t: RouteTarget)
    ensures t == Planner <==> d == Replan
    ensures t == Executor <==> d == Continue
    ensures t == Finalizer <==> d == Finalize
  {
    match d
    case Replan => Planner
    case Continue => Executor
    case Finalize => Finalizer
  }

  /** The last recorded result failed. */
  predicate LastResultFailed(s: State) {
    s.results != [] && !s.results[|s.results| - 1].success
  }

  /** `_determine_fallback_route`: no plan means planning, a finished plan
      means finalizing, a failed last task means replanning. */
  function FallbackRoute(s: State): (t: RouteTarget)
    ensures s.plan.None? ==> t == Planner
    ensures s.plan.Some? && s.index >= |s.plan.value.tasks| ==> t == Finalizer
    ensures s.plan.Some? && s.index < |s.plan.value.tasks| ==> (t == Planner <==> LastResultFailed(s))
    ensures s.plan.Some? && s.index < |s.plan.value.tasks| ==> t != Finalizer
  {
    if s.plan.None? then Planner
    else if s.index >= |s.plan.value.tasks| then Finalizer
    else if LastResultFailed(s) then Planner
    else Executor
  }

  /** `determine_route`: an error wins over everything, then the
      evaluation's verdict, then the fallback rules. */
  function DetermineRoute(s: State): (t: RouteTarget)
    ensures HasError(s) ==> t == Planner
    ensures !HasError(s) && s.evaluation.Some? ==> t == RouteFromDecision(s.evaluation.value.decision)
    ensures !HasError(s) && s.evaluation.None? ==> t == FallbackRoute(s)
  {
    if HasError(s) then Planner
    else if s.evaluation.Some? then RouteFromDecision(s.evaluation.value.decision)
    else FallbackRoute(s)
  }

  /** Every recorded result succeeded. */
  predicate AllSucceeded(results: seq<TaskResult>) {
    forall k :: 0 <= k < |results| ==> results[k].success
  }

  /** `can_skip_evaluation`: a linear plan that has run to its end, with at
      least one result per task and no failure among them. */
  function CanSkipEvaluation(s: State): (skip: bool)
    ensures skip <==>
      && PlanAnalyzer.Linear(s.plan)
      && s.index >= |s.plan.value.tasks|
      && |s.results| >= |s.plan.value.tasks|
      && AllSucceeded(s.results)
  {
    if s.plan.None? then false
    else if !PlanAnalyzer.Linear(s.plan) then false
    else if s.index < |s.plan.value.tasks| then false
    else if s.results == [] || |s.results| < |s.plan.value.tasks| then false
    else AllSucceeded(s.results)
  }

  /** `should_continue`: the route as a node name. */
  function ShouldContinue(s: State): (node: string)
    ensures node in {"planner_node", "executor_node", "finalizer_node"}
    ensures node == "finalizer_node" <==> DetermineRoute(s) == Finalizer
    ensures node == "executor_node" <==> DetermineRoute(s) == Executor
    ensures CanSkipEvaluation(s) && !HasError(s) && s.evaluation.None? ==> node == "finalizer_node"
  {
    RouteName(DetermineRoute(s))
  }

  /** When evaluation may be skipped, the fallback rules already lead to
      the finalizer, so skipping the evaluator changes nothing. */
  lemma SkippableMeansFinalize(s: State)
    requires CanSkipEvaluation(s)
    ensures FallbackRoute(s) == Finalizer
    ensures !HasError(s) && s.evaluation.None? ==> DetermineRoute(s) == Finalizer
  {
  }
}
