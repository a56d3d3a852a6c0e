/** The copy-and-update transitions every node applies to the state. Each
    returns a new state; the argument is never changed, and the fields a
    transition does not name keep their values. */
module StateUtils {
  import opened Wrappers
  import opened Strs
  import opened Schemas
  import opened AgentState

  /** `create_error_state`: sets the error and records it in the
      conversation as one human message. */
  function CreateErrorState(s: State, error: string): (r: State)
    ensures r.error == Some(error)
    ensures r.messages == s.messages + [Message(Human, "[Error] " + error)]
    ensures r.(error := s.error, messages := s.messages) == s
  {
    s.(error := Some(error), messages := s.messages + [Message(Human, "[Error] " + error)])
  }

  /** `clear_error`. */
  function ClearError(s: State): (r: State)
    ensures r.error == None && !HasError(r)
    ensures r.(error := s.error) == s
  {
    s.(error := None)
  }

  /** `append_llm_usage`: the usage list grows by exactly one entry. */
  function AppendLlmUsage(s: State, usage: LlmUsage): (r: State)
    ensures r.llmUsage == s.llmUsage + [usage]
    ensures r.(llmUsage := s.llmUsage) == s
  {
    s.(llmUsage := s.llmUsage + [usage])
  }

  /** `set_plan`: a new plan starts at its first task with no error. */
  function SetPlan(s: State, plan: Plan, usage: LlmUsage): (r: State)
    ensures r.plan == Some(plan) && r.index == 0 && r.error == None
    ensures r.llmUsage == s.llmUsage + [usage]
    ensures r.(plan := s.plan, index := s.index, error := s.error, llmUsage := s.llmUsage) == s
  {
    s.(plan := Some(plan), index := 0, error := None, llmUsage := s.llmUsage + [usage])
  }

  /** `advance_task`: records one result, moves to the next task, takes the
      result's error (None on success) and its usage when it has one. */
  function AdvanceTask(s: State, result: TaskResult): (r: State)
    ensures r.results == s.results + [result]
    ensures r.index == s.index + 1
    ensures r.error == if result.success then None else result.error
    ensures r.llmUsage == s.llmUsage + (if result.llmUsage.Some? then [result.llmUsage.value] else [])
    ensures r.(results := s.results, index := s.index, error := s.error, llmUsage := s.llmUsage) == s
  {
    var t := s.(results := s.results + [result], index := s.index + 1,
                error := if result.success then None else result.error);
    if result.llmUsage.Some? then t.(llmUsage := t.llmUsage + [result.llmUsage.value]) else t
  }

  /** `set_evaluation_result`: the usage is appended unconditionally. */
  function SetEvaluationResult(s: State, evaluation: Evaluation, usage: LlmUsage): (r: State)
    ensures r.evaluation == Some(evaluation)
    ensures r.llmUsage == s.llmUsage + [usage]
    ensures r.(evaluation := s.evaluation, llmUsage := s.llmUsage) == s
  {
    s.(evaluation := Some(evaluation), llmUsage := s.llmUsage + [usage])
  }

  /** The last result failed. */
  predicate LastFailed(results: seq<TaskResult>) {
    results != [] && !results[|results| - 1].success
  }

  /** The lines of the replanning error: the reasoning, then the failed last
      task if there is one, then the suggestions if any were given. */
  function ReplanErrorParts(s: State, evaluation: Evaluation): (parts: seq<string>)
    ensures parts != [] && parts[0] == "Replanning needed: " + evaluation.reasoning
    ensures |parts| == 1 + (if LastFailed(s.results) then 1 else 0) + (if Filled(evaluation.suggestedChanges) then 1 else 0)
    ensures LastFailed(s.results) ==>
      var last := s.results[|s.results| - 1];
      parts[1] == "Last task '" + last.taskId + "' failed: " + OptText(last.error)
    ensures Filled(evaluation.suggestedChanges) ==>
      parts[|parts| - 1] == "Suggested changes: " + evaluation.suggestedChanges.value
  {
    var first := ["Replanning needed: " + evaluation.reasoning];
    var failed :=
      if LastFailed(s.results) then
        var last := s.results[|s.results| - 1];
        ["Last task '" + last.taskId + "' failed: " + OptText(last.error)]
      else [];
    var suggested :=
      if Filled(evaluation.suggestedChanges) then ["Suggested changes: " + evaluation.suggestedChanges.value] else [];
    first + failed + suggested
  }

  /** The AI message that tells the planner why it must plan again. */
  function ReplanMessage(evaluation: Evaluation): string {
    "[Evaluator] Replanning required.\nDecision: " + DecisionValue(evaluation.decision)
    + "\nReasoning: " + evaluation.reasoning
    + "\nSuggested changes: " + (if Filled(evaluation.suggestedChanges) then evaluation.suggestedChanges.value else "None provided")
  }

  /** `prepare_replan_state`: the error explains the replan, and one AI
      message carries the details. */
  function PrepareReplanState(s: State, evaluation: Evaluation): (r: State)
    ensures r.error == Some(Join(ReplanErrorParts(s, evaluation), "\n"))
    ensures r.messages == s.messages + [Message(Ai, ReplanMessage(evaluation))]
    ensures r.(error := s.error, messages := s.messages) == s
  {
    s.(error := Some(Join(ReplanErrorParts(s, evaluation), "\n")),
       messages := s.messages + [Message(Ai, ReplanMessage(evaluation))])
  }

  /** The replanning error is never empty: it starts with the reasoning line. */
  lemma ReplanSetsError(s: State, evaluation: Evaluation)
    ensures HasError(PrepareReplanState(s, evaluation))
    ensures "Replanning needed: " + evaluation.reasoning <= PrepareReplanState(s, evaluation).error.value
  {
    var parts := ReplanErrorParts(s, evaluation);
    JoinStartsWithFirst(parts, "\n");
  }

  /** `set_final_response`: stores the response, clears the error, and
      appends the usage only when one is given. */
  function SetFinalResponse(s: State, response: AgentResponse, usage: Option<LlmUsage>): (r: State)
    ensures r.finalResponse == Some(response) && r.error == None
    ensures r.llmUsage == s.llmUsage + (if usage.Some? then [usage.value] else [])
    ensures r.(finalResponse := s.finalResponse, error := s.error, llmUsage := s.llmUsage) == s
  {
    var t := s.(finalResponse := Some(response), error := None);
    if usage.Some? then t.(llmUsage := s.llmUsage + [usage.value]) else t
  }
}
