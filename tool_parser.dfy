/** Tool references and the text the workflow's prompts show about tool
    runs, accumulated context and earlier errors. Python's `str` of a value
    is the parameter `render`, a dict's item order the parameter `order`. */
module ToolParser {
  import opened Wrappers
  import opened Json
  import opened Strs
  import opened Schemas
  import opened Workflow
  import PlannerUtils

  /** `parse_tool_id`: split at the first ':'. */
  function ParseToolId(toolId: string): (r: Result<(string, string)>)
    ensures r.Failure? <==> ':' !in toolId
    ensures r.Failure? ==> r.error == "Invalid tool ID format: " + toolId + ". Expected 'server:tool'"
    ensures r.Success? ==> ':' !in r.value.0 && r.value.0 + ":" + r.value.1 == toolId
  {
    if ':' !in toolId then Failure("Invalid tool ID format: " + toolId + ". Expected 'server:tool'")
    else Success(SplitFirst(toolId, ':'))
  }

  /** A colon-free server name joined to any tool name parses back. */
  lemma ParseToolIdInverts(server: string, tool: string)
    requires ':' !in server
    ensures ParseToolId(server + ":" + tool) == Success((server, tool))
  {
    var s := server + ":" + tool;
    assert s[..|server|] == server && s[|server|] == ':' && s[|server| + 1..] == tool;
  }

  /** `get_milestone_history` and `format_history_for_milestone`: the
      records of one milestone, in order. */
  function MilestoneHistory(history: seq<ExecutionRecord>, milestoneId: string): (r: seq<ExecutionRecord>)
    ensures |r| <= |history|
  {
    if history == [] then []
    else
      var before := MilestoneHistory(history[..|history| - 1], milestoneId);
      var e := history[|history| - 1];
      if e.milestoneId == milestoneId then before + [e] else before
  }

  /** Exactly the records of that milestone are kept. */
  lemma {:induction false} MilestoneHistoryMembers(history: seq<ExecutionRecord>, milestoneId: string)
    ensures forall e :: e in MilestoneHistory(history, milestoneId) <==> e in history && e.milestoneId == milestoneId
  {
    if history != [] {
      var init := history[..|history| - 1];
      MilestoneHistoryMembers(init, milestoneId);
      assert history == init + [history[|history| - 1]];
    }
  }

  /** The filter keeps order: the records of a longer history are those of
      its first part followed by those of the rest. */
  lemma {:induction false} MilestoneHistoryConcat(a: seq<ExecutionRecord>, b: seq<ExecutionRecord>, milestoneId: string)
    ensures MilestoneHistory(a + b, milestoneId) == MilestoneHistory(a, milestoneId) + MilestoneHistory(b, milestoneId)
    decreases |b|
  {
    if b == [] {
      assert a + b == a;
    } else {
      var init, e := b[..|b| - 1], b[|b| - 1];
      MilestoneHistoryConcat(a, init, milestoneId);
      var ab := a + b;
      assert ab[..|ab| - 1] == a + init && ab[|ab| - 1] == e;
      var tail := if e.milestoneId == milestoneId then [e] else [];
      var ha, hi := MilestoneHistory(a, milestoneId), MilestoneHistory(init, milestoneId);
      assert MilestoneHistory(ab, milestoneId) == (ha + hi) + tail;
      assert MilestoneHistory(b, milestoneId) == hi + tail;
      assert (ha + hi) + tail == ha + (hi + tail);
    }
  }

  /** `has_execution_failures`. */
  predicate HasExecutionFailures(records: seq<ExecutionRecord>) {
    exists i :: 0 <= i < |records| && !records[i].success
  }

  /** A milestone whose records show a failure comes from a history with a
      failure, and a history with none gives milestones with none. */
  lemma MilestoneFailureIsHistoryFailure(history: seq<ExecutionRecord>, milestoneId: string)
    ensures HasExecutionFailures(MilestoneHistory(history, milestoneId)) ==> HasExecutionFailures(history)
  {
    var m := MilestoneHistory(history, milestoneId);
    MilestoneHistoryMembers(history, milestoneId);
    if HasExecutionFailures(m) {
      var i :| 0 <= i < |m| && !m[i].success;
      assert m[i] in history;
      var j :| 0 <= j < |history| && history[j] == m[i];
    }
  }

  /** The lines for one context value: a list shows its length, its first
      five items and how many more there are; a dict shows its items; any
      other value is printed after its key. */
  function ValueLines(key: string, value: Json, render: Json -> string, order: map<string, Json> -> seq<string>): seq<string> {
    match value
    case Arr(items) =>
      var shown := if |items| <= 5 then |items| else 5;
      ["- " + key + ": " + IntToString(|items|) + " items"]
      + seq(shown, k requires 0 <= k < shown => "  - " + PyStr(render, items[k]))
      + (if |items| > 5 then ["  ... and " + IntToString(|items| - 5) + " more"] else [])
    case Obj(fields) =>
      var entries := PlannerUtils.Items(fields, order);
      ["- " + key + ":"] + seq(|entries|, k requires 0 <= k < |entries| => "  - " + entries[k].0 + ": " + PyStr(render, entries[k].1))
    case _ => ["- " + key + ": " + PyStr(render, value)]
  }

  /** A list of n items takes 1 + min(n, 5) lines, plus one closing line
      exactly when n > 5; its item lines are its first items in order. */
  lemma ListValueLines(key: string, items: seq<Json>, render: Json -> string, order: map<string, Json> -> seq<string>)
    ensures var lines := ValueLines(key, Arr(items), render, order);
      && |lines| == 1 + (if |items| <= 5 then |items| else 6)
      && (forall k :: 0 <= k < |items| && k < 5 ==> lines[k + 1] == "  - " + PyStr(render, items[k]))
      && (|items| > 5 <==> lines[|lines| - 1] == "  ... and " + IntToString(|items| - 5) + " more")
  {
    var lines := ValueLines(key, Arr(items), render, order);
    if |items| <= 5 {
      var last := lines[|lines| - 1];
      if |items| == 0 {
        assert last == "- " + key + ": " + IntToString(0) + " items";
        assert last[0] == '-' && ("  ... and " + IntToString(|items| - 5) + " more")[0] == ' ';
      } else {
        assert last == "  - " + PyStr(render, items[|items| - 1]);
        assert last[2] == '-' && ("  ... and " + IntToString(|items| - 5) + " more")[2] == '.';
      }
    }
  }

  /** The lines of all context entries, in order. */
  function ContextLines(entries: seq<(string, Json)>, render: Json -> string, order: map<string, Json> -> seq<string>): seq<string> {
    if entries == [] then []
    else ContextLines(entries[..|entries| - 1], render, order) + ValueLines(entries[|entries| - 1].0, entries[|entries| - 1].1, render, order)
  }

  /** `format_execution_context`. */
  method FormatExecutionContext(context: map<string, Json>, render: Json -> string, order: map<string, Json> -> seq<string>)
    returns (text: string)
    ensures context == map[] ==> text == "No context accumulated yet."
    ensures context != map[] ==> text == Join(ContextLines(PlannerUtils.Items(context, order), render, order), "\n")
  {
    if context == map[] {
      return "No context accumulated yet.";
    }
    var entries := PlannerUtils.Items(context, order);
    var lines := [];
    for i := 0 to |entries|
      invariant lines == ContextLines(entries[..i], render, order)
    {
      assert entries[..i + 1][..i] == entries[..i];
      lines := lines + ValueLines(entries[i].0, entries[i].1, render, order);
    }
    assert entries[..|entries|] == entries;
    text := Join(lines, "\n");
  }

  /** The lines for the record numbered `n`: its status and tool, then its
      parameters when it has any. */
  function RecordLines(n: nat, r: ExecutionRecord, render: Json -> string): seq<string> {
    [IntToString(n) + ". [" + (if r.success then "SUCCESS" else "FAILED") + "] " + r.toolCall.toolId]
    + (if r.toolCall.parameters != map[] then ["   Parameters: " + render(Obj(r.toolCall.parameters))] else [])
  }

  /** The lines for records numbered from 1. */
  function HistoryLines(records: seq<ExecutionRecord>, render: Json -> string): seq<string> {
    if records == [] then []
    else HistoryLines(records[..|records| - 1], render) + RecordLines(|records|, records[|records| - 1], render)
  }

  /** How many records carry parameters. */
  function WithParameters(records: seq<ExecutionRecord>): nat {
    if records == [] then 0
    else WithParameters(records[..|records| - 1]) + (if records[|records| - 1].toolCall.parameters != map[] then 1 else 0)
  }

  /** One line per record, plus one per record with parameters; the first
      line is the first record's, numbered 1. */
  lemma {:induction false} HistoryLinesCount(records: seq<ExecutionRecord>, render: Json -> string)
    ensures |HistoryLines(records, render)| == |records| + WithParameters(records)
    ensures records != [] ==> HistoryLines(records, render)[0] == RecordLines(1, records[0], render)[0]
  {
    if records != [] {
      var init := records[..|records| - 1];
      HistoryLinesCount(init, render);
      if init != [] {
        assert init[0] == records[0];
      }
    }
  }

  /** `format_milestone_history`. */
  method FormatMilestoneHistory(records: seq<ExecutionRecord>, render: Json -> string) returns (text: string)
    ensures records == [] ==> text == "No tools executed yet for this milestone."
    ensures records != [] ==> text == Join(HistoryLines(records, render), "\n")
  {
    if records == [] {
      return "No tools executed yet for this milestone.";
    }
    var lines := [];
    for i := 0 to |records|
      invariant lines == HistoryLines(records[..i], render)
    {
      assert records[..i + 1][..i] == records[..i];
      lines := lines + RecordLines(i + 1, records[i], render);
    }
    assert records[..|records|] == records;
    text := Join(lines, "\n");
  }

  /** The result line of one record: at most 200 characters of a success's
      result, or a failure's error. */
  function ResultLine(r: ExecutionRecord, render: Json -> string): string {
    if r.success then "- " + r.toolCall.toolId + ": " + Take(PyStr(render, PlannerUtils.Field(r.result, "result", Str("No result"))), 200)
    else "- " + r.toolCall.toolId + ": ERROR - " + PyStr(render, PlannerUtils.Field(r.result, "error", Str("Unknown error")))
  }

  /** Each line names its tool; a success line holds at most 200
      characters of the result. */
  lemma ResultLineShape(r: ExecutionRecord, render: Json -> string)
    ensures "- " + r.toolCall.toolId + ": " <= ResultLine(r, render)
    ensures r.success ==> |ResultLine(r, render)| <= |r.toolCall.toolId| + 4 + 200
    ensures !r.success ==> "- " + r.toolCall.toolId + ": ERROR - " <= ResultLine(r, render)
  {
  }

  /** One result line per record, in order. */
  function ResultLines(records: seq<ExecutionRecord>, render: Json -> string): (lines: seq<string>)
    ensures |lines| == |records|
  {
    if records == [] then []
    else ResultLines(records[..|records| - 1], render) + [ResultLine(records[|records| - 1], render)]
  }

  /** Line k is the result line of record k. */
  lemma {:induction false} ResultLineAt(records: seq<ExecutionRecord>, render: Json -> string, k: nat)
    requires k < |records|
    ensures ResultLines(records, render)[k] == ResultLine(records[k], render)
  {
    var front := records[..|records| - 1];
    var last := ResultLine(records[|records| - 1], render);
    assert ResultLines(records, render) == ResultLines(front, render) + [last];
    if k < |front| {
      ResultLineAt(front, render, k);
      assert front[k] == records[k];
    } else {
      assert k == |records| - 1;
    }
  }

  /** `format_execution_results`. */
  method FormatExecutionResults(records: seq<ExecutionRecord>, render: Json -> string) returns (text: string)
    ensures records == [] ==> text == "No results available."
    ensures records != [] ==> text == Join(ResultLines(records, render), "\n")
  {
    if records == [] {
      return "No results available.";
    }
    var lines: seq<string> := [];
    for i := 0 to |records|
      invariant lines == ResultLines(records[..i], render)
    {
      assert records[..i + 1][..i] == records[..i];
      lines := lines + [ResultLine(records[i], render)];
    }
    assert records[..|records|] == records;
    text := Join(lines, "\n");
  }

  /** The lines for the error numbered `n`: its message, then its suggested
      fix when that is truthy. */
  function ErrorLines(n: nat, e: map<string, Json>, render: Json -> string): seq<string> {
    [IntToString(n) + ". " + PyStr(render, PlannerUtils.Field(e, "error_message", Str("Unknown error")))]
    + (if "suggested_fix" in e && Truthy(e["suggested_fix"]) then ["   Suggested fix: " + PyStr(render, e["suggested_fix"])] else [])
  }

  function ErrorsLines(errors: seq<map<string, Json>>, render: Json -> string): seq<string> {
    if errors == [] then []
    else ErrorsLines(errors[..|errors| - 1], render) + ErrorLines(|errors|, errors[|errors| - 1], render)
  }

  /** One more error adds its own lines at the end. */
  lemma ErrorsLinesSnoc(errors: seq<map<string, Json>>, i: nat, render: Json -> string)
    requires i < |errors|
    ensures ErrorsLines(errors[..i + 1], render) == ErrorsLines(errors[..i], render) + ErrorLines(i + 1, errors[i], render)
  {
    assert errors[..i + 1][..i] == errors[..i];
  }

  /** The errors shown: the last three. */
  function LastThree<T>(s: seq<T>): (r: seq<T>)
    ensures |r| == if |s| < 3 then |s| else 3
    ensures r == s[|s| - |r|..]
  {
    if |s| <= 3 then s else s[|s| - 3..]
  }

  /** `format_errors`. */
  method FormatErrors(errors: seq<map<string, Json>>, render: Json -> string) returns (text: string)
    ensures errors == [] ==> text == "No previous errors."
    ensures errors != [] ==> text == Join(["Previous attempts failed:"] + ErrorsLines(LastThree(errors), render), "\n")
  {
    if errors == [] {
      return "No previous errors.";
    }
    var shown := LastThree(errors);
    var body: seq<string> := [];
    for i := 0 to |shown|
      invariant body == ErrorsLines(shown[..i], render)
    {
      ErrorsLinesSnoc(shown, i, render);
      body := body + ErrorLines(i + 1, shown[i], render);
    }
    assert shown[..|shown|] == shown;
    text := Join(["Previous attempts failed:"] + body, "\n");
  }

  /** Errors earlier than the last three never reach the text: adding an
      error at the front of a list of three or more changes nothing. */
  lemma OlderErrorsDropped(e: map<string, Json>, errors: seq<map<string, Json>>)
    requires |errors| >= 3
    ensures LastThree([e] + errors) == LastThree(errors)
  {
    assert ([e] + errors)[|errors| + 1 - 3..] == errors[|errors| - 3..];
  }
}
