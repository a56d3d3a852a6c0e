/** The earlier evaluator: a node that passes the state through and a
    routing function written as one chain of checks. */
module EvaluatorNode {
  import opened Wrappers
  import opened Schemas
  import opened AgentState
  import EvaluatorRouter

  /** `evaluator_node`: the state passes through; only routing decides. */
  function Evaluate(s: State): (r: State)
    ensures r == s
  {
    s
  }

  /** `should_continue`: error first, then a missing plan, then a finished
      plan, then a failed last task; otherwise execute. */
  function ShouldContinue(s: State): (node: string)
    ensures HasError(s) ==> node == "planner_node"
    ensures !HasError(s) && s.plan.None? ==> node == "planner_node"
    ensures !HasError(s) && s.plan.Some? && s.index >= |s.plan.value.tasks| ==> node == "finalizer_node"
    ensures !HasError(s) && s.plan.Some? && s.index < |s.plan.value.tasks| ==>
      node == if EvaluatorRouter.LastResultFailed(s) then "planner_node" else "executor_node"
  {
    if HasError(s) then "planner_node"
    else if s.plan.None? then "planner_node"
    else if s.index >= |s.plan.value.tasks| then "finalizer_node"
    else if s.results != [] && !s.results[|s.results| - 1].success then "planner_node"
    else "executor_node"
  }

  /** The executor is chosen exactly for an error-free state whose plan
      has tasks left and whose last result did not fail, and the finalizer
      exactly for an error-free state whose plan is finished; every other
      state goes back to the planner. */
  lemma RouteCases(s: State)
    ensures ShouldContinue(s) in {"planner_node", "executor_node", "finalizer_node"}
    ensures ShouldContinue(s) == "executor_node" <==>
      !HasError(s) && s.plan.Some? && s.index < |s.plan.value.tasks| && !EvaluatorRouter.LastResultFailed(s)
    ensures ShouldContinue(s) == "finalizer_node" <==>
      !HasError(s) && s.plan.Some? && s.index >= |s.plan.value.tasks|
  {
  }

  /** The earlier router and the later one agree on every state without an
      evaluation; with one, the later router follows the verdict. */
  lemma RoutersAgree(s: State)
    requires s.evaluation.None?
    ensures ShouldContinue(s) == EvaluatorRouter.ShouldContinue(s)
  {
  }
}
