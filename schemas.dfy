/** The agent's records: tasks and plans, token usage, task results,
    evaluations and the final response. A task's or a result's free-form
    payload is a JSON value. */
module Schemas {
  import opened Wrappers
  import opened Json

  /** The evaluator's three verdicts. */
  datatype Decision = Continue | Replan | Finalize

  /** The string value of a verdict, as the enum formats itself. */
  function DecisionValue(d: Decision): (s: string)
    ensures s == "continue" <==> d == Continue
    ensures s == "replan" <==> d == Replan
    ensures s == "finalize" <==> d == Finalize
  {
    match d
    case Continue => "continue"
    case Replan => "replan"
    case Finalize => "finalize"
  }

  /** One step of a plan: a tool call written "server:tool", or an LLM-only
      task when `toolCall` is None. */
  datatype Task = Task(
    id: string,
    description: string,
    toolCall: Option<string>,
    toolInput: Option<map<string, Json>>,
    dependsOn: seq<string>)

  datatype Plan = Plan(tasks: seq<Task>, reasoning: string)

  /** Token usage of one LLM call, tagged with the node that made it. */
  datatype LlmUsage = LlmUsage(promptTokens: int, completionTokens: int, totalTokens: int, model: string, nodeName: string)

  datatype UsageSummary = UsageSummary(
    totalPromptTokens: int,
    totalCompletionTokens: int,
    totalTokens: int,
    callsByNode: map<string, nat>)

  /** The outcome of one task. The completion timestamp is not modelled. */
  datatype TaskResult = TaskResult(
    taskId: string,
    success: bool,
    result: Json,
    error: Option<string>,
    llmUsage: Option<LlmUsage>)

  datatype Evaluation = Evaluation(
    decision: Decision,
    reasoning: string,
    contextUpdates: map<string, Json>,
    suggestedChanges: Option<string>)

  /** One entry of the execution trace (the timestamp is not modelled). */
  datatype TraceEntry = TraceEntry(taskId: string, success: bool, result: Json, error: Option<string>)

  datatype AgentResponse = AgentResponse(
    message: string,
    executionTrace: seq<TraceEntry>,
    planUsed: Option<Plan>,
    totalUsage: UsageSummary)

  /** An optional string inside an f-string: None prints as "None". */
  function OptText(o: Option<string>): (s: string)
    ensures o.Some? ==> s == o.value
    ensures o.None? ==> s == "None"
  {
    if o.Some? then o.value else "None"
  }

  /** Python truthiness of an optional string: present and non-empty. */
  predicate Filled(o: Option<string>) {
    o.Some? && o.value != ""
  }

  /** `str(x)` of a result value: a string is itself; any other value is
      rendered by `render`, which stands for Python's `str`. */
  function PyStr(render: Json -> string, j: Json): (s: string)
    ensures j.Str? ==> s == j.s
  {
    if j.Str? then j.s else render(j)
  }
}
