/** Splitting a task's "server:tool" reference. */
module ExecutorUtils {
  import opened Wrappers
  import opened Strs

  /** `parse_tool_call`: split at the first ':', with no other check. */
  function ParseToolCall(toolCall: string): (r: Result<(string, string)>)
    ensures r.Failure? <==> ':' !in toolCall
    ensures r.Failure? ==> r.error == "Invalid tool_call format: " + toolCall + ". Expected 'server:tool'"
    ensures r.Success? ==> ':' !in r.value.0 && r.value.0 + ":" + r.value.1 == toolCall
  {
    if ':' !in toolCall then Failure("Invalid tool_call format: " + toolCall + ". Expected 'server:tool'")
    else Success(SplitFirst(toolCall, ':'))
  }

  /** Joining a colon-free server name and any tool name with ':' parses
      back to the same pair; in particular ":" parses to two empty names. */
  lemma ParseInvertsJoin(server: string, tool: string)
    requires ':' !in server
    ensures ParseToolCall(server + ":" + tool) == Success((server, tool))
  {
    var s := server + ":" + tool;
    assert s[..|server|] == server && s[|server|] == ':' && s[|server| + 1..] == tool;
  }
}
