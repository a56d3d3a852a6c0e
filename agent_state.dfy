/** The state record that flows between the agent's nodes. Every node
    returns a modified copy; nothing is shared or updated in place, so the
    state is a value. */
module AgentState {
  import opened Wrappers
  import opened Schemas

  /** The message classes the code tells apart. */
  datatype Role = Human | Ai | System

  datatype Message = Message(role: Role, content: string)

  /** `current_task_index` is never negative in the code, so it is a `nat`. */
  datatype State = State(
    sessionId: string,
    traceId: Option<string>,
    messages: seq<Message>,
    plan: Option<Plan>,
    index: nat,
    results: seq<TaskResult>,
    evaluation: Option<Evaluation>,
    finalResponse: Option<AgentResponse>,
    error: Option<string>,
    llmUsage: seq<LlmUsage>)

  /** `state.get("error")` is truthy. */
  predicate HasError(s: State) {
    Filled(s.error)
  }

  /** The plan's task count, 0 without a plan. */
  function TaskCount(s: State): nat {
    if s.plan.Some? then |s.plan.value.tasks| else 0
  }
}
