/** The state of the milestone workflow: a plan of milestones, the tool
    calls planned for the active one, the record of every tool run, and the
    errors seen so far. Timestamps are left out. */
module Workflow {
  import opened Json

  /** A milestone; `status` is "pending", "active", "completed" or "failed". */
  datatype SubGoal = SubGoal(id: string, description: string, assignedSkill: string, status: string, successCriteria: string)

  datatype ToolCall = ToolCall(toolId: string, parameters: map<string, Json>, expectedOutcome: string)

  datatype ExecutionRecord = ExecutionRecord(milestoneId: string, toolCall: ToolCall, result: map<string, Json>, success: bool)

  datatype ErrorRecord = ErrorRecord(milestoneId: string, errorMessage: string, suggestedFix: string)

  /** The index of the active milestone starts at 0 and only grows, and the
      retry count starts at 0 and is only raised or reset, so both are
      `nat`s. */
  datatype WorkflowState = WorkflowState(
    objective: string,
    milestones: seq<SubGoal>,
    currentIdx: nat,
    tacticalPlan: seq<ToolCall>,
    history: seq<ExecutionRecord>,
    activeSkillContext: string,
    lastVerificationStatus: string,
    executionContext: map<string, Json>,
    retryCount: nat,
    globalContext: string,
    errors: seq<ErrorRecord>)

  /** There is a milestone at the current index. */
  predicate HasActiveMilestone(s: WorkflowState) {
    s.milestones != [] && s.currentIdx < |s.milestones|
  }
}
