/** The execution trace of the final response: one entry per recorded
    result, its display text and its success counts. */
module TraceBuilder {
  import opened Wrappers
  import opened Json
  import opened Strs
  import opened Schemas
  import opened AgentState

  function EntryOf(r: TaskResult): TraceEntry {
    TraceEntry(r.taskId, r.success, r.result, r.error)
  }

  /** `build_execution_trace`: one entry per result, in order, each copying
      the result's id, outcome, value and error. */
  method BuildExecutionTrace(s: State) returns (trace: seq<TraceEntry>)
    ensures |trace| == |s.results|
    ensures forall k :: 0 <= k < |trace| ==>
      && trace[k].taskId == s.results[k].taskId && trace[k].success == s.results[k].success
      && trace[k].result == s.results[k].result && trace[k].error == s.results[k].error
  {
    trace := [];
    for i := 0 to |s.results|
      invariant |trace| == i
      invariant forall k :: 0 <= k < i ==> trace[k] == EntryOf(s.results[k])
    {
      trace := trace + [EntryOf(s.results[i])];
    }
  }

  /** The two display lines of one entry. */
  function EntryLines(e: TraceEntry, render: Json -> string): seq<string> {
    var status := if e.success then "✓" else "✗";
    var detail :=
      if e.success then "  Result: " + (if Truthy(e.result) then Take(PyStr(render, e.result), 200) else "No result")
      else "  Error: " + OptText(e.error);
    ["\n" + status + " Task: " + e.taskId, detail]
  }

  /** All display lines after the header. */
  function TraceLines(trace: seq<TraceEntry>, render: Json -> string): (lines: seq<string>)
    ensures |lines| == 2 * |trace|
  {
    if trace == [] then [] else TraceLines(trace[..|trace| - 1], render) + EntryLines(trace[|trace| - 1], render)
  }

  /** A success line shows at most 200 characters of the result. */
  lemma ResultShownTruncated(e: TraceEntry, render: Json -> string)
    requires e.success
    ensures |EntryLines(e, render)[1]| <= |"  Result: "| + 200
  {
  }

  /** `format_trace_for_display`. */
  method FormatTraceForDisplay(trace: seq<TraceEntry>, render: Json -> string) returns (text: string)
    ensures trace == [] ==> text == "No execution trace available."
    ensures trace != [] ==> text == Join(["=== Execution Trace ==="] + TraceLines(trace, render), "\n")
  {
    if trace == [] {
      return "No execution trace available.";
    }
    var lines := ["=== Execution Trace ==="];
    for i := 0 to |trace|
      invariant lines == ["=== Execution Trace ==="] + TraceLines(trace[..i], render)
    {
      assert trace[..i + 1][..i] == trace[..i];
      lines := lines + EntryLines(trace[i], render);
    }
    assert trace[..|trace|] == trace;
    text := Join(lines, "\n");
  }

  /** An entry that succeeded. */
  predicate EntrySucceeded(e: TraceEntry) {
    e.success
  }

  datatype TraceSummary = TraceSummary(total: nat, successful: nat, failed: nat)

  /** `get_trace_summary`: successes and failures add up to the total. */
  function GetTraceSummary(trace: seq<TraceEntry>): (r: TraceSummary)
    ensures r.total == |trace| && r.successful + r.failed == r.total
    ensures r.successful == CountIf(trace, EntrySucceeded)
    ensures trace == [] ==> r == TraceSummary(0, 0, 0)
  {
    if trace == [] then TraceSummary(0, 0, 0)
    else
      var ok := CountIf(trace, EntrySucceeded);
      TraceSummary(|trace|, ok, |trace| - ok)
  }

  /** A trace built from the state has no failures exactly when no result
      failed. */
  lemma {:induction false} SummaryOfResults(results: seq<TaskResult>)
    ensures CountIf(seq(|results|, k requires 0 <= k < |results| => EntryOf(results[k])), EntrySucceeded) == |results|
      <==> forall k :: 0 <= k < |results| ==> results[k].success
  {
    var trace := seq(|results|, k requires 0 <= k < |results| => EntryOf(results[k]));
    if results != [] {
      var init := results[..|results| - 1];
      SummaryOfResults(init);
      assert trace[..|trace| - 1] == seq(|init|, k requires 0 <= k < |init| => EntryOf(init[k]));
    }
  }
}
