/** The edges of the milestone workflow: whether milestones remain, whether
    the audited milestone passed, and the step to the next milestone. */
module WorkflowGraph {
  import opened Workflow

  datatype Continue = RouteSkill | End

  /** `should_continue`. */
  function ShouldContinue(s: WorkflowState): (r: Continue)
    ensures r == RouteSkill <==> s.milestones != [] && s.currentIdx < |s.milestones|
  {
    if s.milestones == [] then End
    else if s.currentIdx >= |s.milestones| then End
    else RouteSkill
  }

  datatype Verdict = NextMilestone | Retry

  /** `check_validation`. */
  function CheckValidation(s: WorkflowState): (r: Verdict)
    ensures r == NextMilestone <==> s.lastVerificationStatus == "passed"
  {
    if s.lastVerificationStatus == "passed" then NextMilestone else Retry
  }

  /** `next_milestone`: the index moves on and the per-milestone fields are
      cleared; every other field is kept. */
  function AdvanceMilestone(s: WorkflowState): (r: WorkflowState)
    ensures r.currentIdx == s.currentIdx + 1
    ensures r.tacticalPlan == [] && r.activeSkillContext == "" && r.lastVerificationStatus == "" && r.retryCount == 0
    ensures r.objective == s.objective && r.milestones == s.milestones && r.history == s.history
    ensures r.executionContext == s.executionContext && r.globalContext == s.globalContext && r.errors == s.errors
  {
    s.(currentIdx := s.currentIdx + 1, tacticalPlan := [], activeSkillContext := "",
       lastVerificationStatus := "", retryCount := 0)
  }

  /** Advancing ends the workflow after as many steps as milestones
      remain: one more milestone is routed exactly when the new index is
      still inside the plan. */
  lemma AdvanceEndsAfterLastMilestone(s: WorkflowState)
    ensures ShouldContinue(AdvanceMilestone(s)) == End <==> s.currentIdx + 1 >= |s.milestones|
  {
  }

  /** After advancing, the verdict is cleared, so the next milestone is not
      passed until a fresh audit passes it. */
  lemma AdvanceForgetsVerdict(s: WorkflowState)
    ensures CheckValidation(AdvanceMilestone(s)) == Retry
  {
  }
}
