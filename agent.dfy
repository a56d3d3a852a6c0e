/** The agent object: it owns a checkpoint connection and a compiled
    graph, both made on first use and reused afterwards, and shapes the
    graph's final state into the reply of one user turn. The graph's run
    over the node functions is an oracle. */
module Agent {
  import opened Wrappers
  import opened Schemas
  import opened AgentState

  /** `_initialize_state`: one human message and nothing else. */
  function InitializeState(sessionId: string, userMessage: string): (s: State)
    ensures s.sessionId == sessionId && s.messages == [Message(Human, userMessage)]
    ensures s.plan.None? && s.index == 0 && s.results == [] && s.llmUsage == []
    ensures s.error.None? && s.finalResponse.None? && s.evaluation.None? && s.traceId.None?
  {
    State(sessionId, None, [Message(Human, userMessage)], None, 0, [], None, None, None, [])
  }

  /** The checkpoint database connection. */
  class Connection {
    const path: string
    /** Only the in-memory database allows use from other threads. */
    const checkSameThread: bool
    var closed: bool

    constructor (path: string)
      ensures this.path == path && checkSameThread == (path != ":memory:") && !closed
    {
      this.path := path;
      checkSameThread := path != ":memory:";
      closed := false;
    }
  }

  /** The checkpointer, over its connection. */
  datatype Saver = Saver(conn: Connection)

  /** The compiled graph, with the checkpointer it was compiled with. */
  datatype Graph = Graph(saver: Saver)

  /** What `invoke` returns. The error replies carry `error` and no usage;
      a normal reply carries usage and no error. */
  datatype Reply = Reply(
    message: string,
    executionTrace: seq<TraceEntry>,
    planUsed: Option<Plan>,
    sessionId: string,
    error: Option<string>,
    totalUsage: Option<UsageSummary>)

  function SumPrompt(us: seq<LlmUsage>): int {
    if us == [] then 0 else SumPrompt(us[..|us| - 1]) + us[|us| - 1].promptTokens
  }

  function SumCompletion(us: seq<LlmUsage>): int {
    if us == [] then 0 else SumCompletion(us[..|us| - 1]) + us[|us| - 1].completionTokens
  }

  function SumTotal(us: seq<LlmUsage>): int {
    if us == [] then 0 else SumTotal(us[..|us| - 1]) + us[|us| - 1].totalTokens
  }

  /** How many of the usages a node made. */
  function Calls(us: seq<LlmUsage>, node: string): (n: nat)
    ensures n <= |us|
    ensures n > 0 <==> exists k :: 0 <= k < |us| && us[k].nodeName == node
  {
    if us == [] then 0
    else Calls(us[..|us| - 1], node) + (if us[|us| - 1].nodeName == node then 1 else 0)
  }

  /** When every usage comes from one node, that node has them all. */
  lemma {:induction false} OneNodeHasAllCalls(us: seq<LlmUsage>, node: string)
    requires forall k :: 0 <= k < |us| ==> us[k].nodeName == node
    ensures Calls(us, node) == |us|
  {
    if us != [] {
      OneNodeHasAllCalls(us[..|us| - 1], node);
    }
  }

  /** Usage from two runs adds up. */
  lemma {:induction false} CallsSplit(a: seq<LlmUsage>, b: seq<LlmUsage>, node: string)
    ensures Calls(a + b, node) == Calls(a, node) + Calls(b, node)
    decreases |b|
  {
    if b == [] {
      assert a + b == a;
    } else {
      assert (a + b)[..|a + b| - 1] == a + b[..|b| - 1];
      CallsSplit(a, b[..|b| - 1], node);
    }
  }

  /** The `calls_by_node` loop: one key per node that made a call, holding
      its number of calls. */
  method CallsByNode(us: seq<LlmUsage>) returns (calls: map<string, nat>)
    ensures forall n :: n in calls <==> exists k :: 0 <= k < |us| && us[k].nodeName == n
    ensures forall n :: n in calls ==> calls[n] == Calls(us, n)
  {
    calls := map[];
    for i := 0 to |us|
      invariant Tallies(calls, us[..i])
    {
      var node := us[i].nodeName;
      var next := calls[node := (if node in calls then calls[node] else 0) + 1];
      TalliesSnoc(calls, next, us, i);
      calls := next;
    }
    assert us[..|us|] == us;
  }

  /** `calls` holds, for every node that made a call in `us`, its number of
      calls, and no other key. */
  ghost predicate Tallies(calls: map<string, nat>, us: seq<LlmUsage>) {
    forall n :: (n in calls <==> Calls(us, n) > 0) && (n in calls ==> calls[n] == Calls(us, n))
  }

  /** Counting one more usage keeps the tallies. */
  lemma TalliesSnoc(calls: map<string, nat>, next: map<string, nat>, us: seq<LlmUsage>, i: nat)
    requires i < |us| && Tallies(calls, us[..i])
    requires next == calls[us[i].nodeName := (if us[i].nodeName in calls then calls[us[i].nodeName] else 0) + 1]
    ensures Tallies(next, us[..i + 1])
  {
    forall n
      ensures (n in next <==> Calls(us[..i + 1], n) > 0) && (n in next ==> next[n] == Calls(us[..i + 1], n))
    {
      CallsSnoc(us, i, n);
    }
  }

  /** One more usage counts for its own node only. */
  lemma CallsSnoc(us: seq<LlmUsage>, i: nat, node: string)
    requires i < |us|
    ensures Calls(us[..i + 1], node) == Calls(us[..i], node) + (if us[i].nodeName == node then 1 else 0)
  {
    assert us[..i + 1][..i] == us[..i];
  }

  /** The usage totals of a run. */
  method TotalUsage(us: seq<LlmUsage>) returns (u: UsageSummary)
    ensures u.totalPromptTokens == SumPrompt(us) && u.totalCompletionTokens == SumCompletion(us)
    ensures u.totalTokens == SumTotal(us)
    ensures forall n :: n in u.callsByNode <==> exists k :: 0 <= k < |us| && us[k].nodeName == n
    ensures forall n :: n in u.callsByNode ==> u.callsByNode[n] == Calls(us, n)
  {
    var calls := CallsByNode(us);
    u := UsageSummary(SumPrompt(us), SumCompletion(us), SumTotal(us), calls);
  }

  class Agent {
    /** `db_path`, with the default taking the place of a missing or empty path. */
    const dbPath: string
    var conn: Option<Connection>
    var checkpointer: Option<Saver>
    var graph: Option<Graph>
    /** How many connections and graphs this agent has made. */
    ghost var connections: nat
    ghost var compilations: nat

    /** The checkpointer wraps the agent's only connection, the graph that
        checkpointer, and each was made at most once. */
    ghost predicate Valid()
      reads this
    {
      && (conn.Some? <==> checkpointer.Some?)
      && (checkpointer.Some? ==> checkpointer.value.conn == conn.value)
      && (graph.Some? ==> checkpointer.Some? && graph.value.saver == checkpointer.value)
      && connections == (if conn.Some? then 1 else 0)
      && compilations == (if graph.Some? then 1 else 0)
    }

    constructor (dbPath: Option<string>)
      ensures Valid()
      ensures this.dbPath == if Filled(dbPath) then dbPath.value else ".checkpoints/agent.db"
      ensures conn.None? && checkpointer.None? && graph.None?
    {
      this.dbPath := if Filled(dbPath) then dbPath.value else ".checkpoints/agent.db";
      conn, checkpointer, graph := None, None, None;
      connections, compilations := 0, 0;
    }

    /** `_get_checkpointer`: made on the first call, then always the same. */
    method GetCheckpointer() returns (saver: Saver)
      requires Valid()
      modifies this
      ensures Valid() && checkpointer == Some(saver) && graph == old(graph)
      ensures old(checkpointer).Some? ==> saver == old(checkpointer).value && conn == old(conn)
      ensures old(checkpointer).None? ==> fresh(saver.conn) && saver.conn.path == dbPath && !saver.conn.closed
    {
      if checkpointer.None? {
        var c := new Connection(dbPath);
        conn := Some(c);
        checkpointer := Some(Saver(c));
        connections := connections + 1;
      }
      saver := checkpointer.value;
    }

    /** `build`: compiled once, with the agent's checkpointer. */
    method Build() returns (g: Graph)
      requires Valid()
      modifies this
      ensures Valid() && graph == Some(g) && checkpointer == Some(g.saver)
      ensures old(graph).Some? ==> g == old(graph).value && conn == old(conn)
      ensures old(checkpointer).Some? ==> g.saver == old(checkpointer).value
    {
      if graph.Some? {
        return graph.value;
      }
      var saver := GetCheckpointer();
      g := Graph(saver);
      graph := Some(g);
      compilations := compilations + 1;
    }

    /** `invoke`: runs the graph from the initial state of the turn, on the
        session's thread, and shapes the reply from the final state. */
    method Invoke(sessionId: string, userMessage: string, run: (Graph, State, string) -> Result<State>)
      returns (reply: Reply)
      requires Valid()
      modifies this
      ensures Valid() && graph.Some? && (old(graph).Some? ==> graph == old(graph))
      ensures reply.sessionId == sessionId
      ensures
        match run(graph.value, InitializeState(sessionId, userMessage), sessionId)
        case Failure(e) =>
          reply == Reply("Agent execution failed: " + e, [], None, sessionId, Some(e), None)
        case Success(final) =>
          match final.finalResponse
          case None =>
            reply == Reply("Agent did not produce a response", [], None, sessionId, Some("No final response generated"), None)
          case Some(response) =>
            && reply.message == response.message && reply.executionTrace == response.executionTrace
            && reply.planUsed == response.planUsed && reply.error.None? && reply.totalUsage.Some?
            && var u := reply.totalUsage.value;
            && u.totalPromptTokens == SumPrompt(final.llmUsage)
            && u.totalCompletionTokens == SumCompletion(final.llmUsage)
            && u.totalTokens == SumTotal(final.llmUsage)
            && (forall n :: n in u.callsByNode <==> exists k :: 0 <= k < |final.llmUsage| && final.llmUsage[k].nodeName == n)
            && (forall n :: n in u.callsByNode ==> u.callsByNode[n] == Calls(final.llmUsage, n))
    {
      var g := Build();
      var initial := InitializeState(sessionId, userMessage);
      var outcome := run(g, initial, sessionId);
      if outcome.Failure? {
        return Reply("Agent execution failed: " + outcome.error, [], None, sessionId, Some(outcome.error), None);
      }
      var final := outcome.value;
      if final.finalResponse.None? {
        return Reply("Agent did not produce a response", [], None, sessionId, Some("No final response generated"), None);
      }
      var response := final.finalResponse.value;
      var usage := TotalUsage(final.llmUsage);
      reply := Reply(response.message, response.executionTrace, response.planUsed, sessionId, None, Some(usage));
    }

    /** `close`: closes the connection when there is one. */
    method Close()
      requires Valid()
      modifies if conn.Some? then {conn.value} else {}
      ensures conn.Some? ==> conn.value.closed
      ensures conn.None? ==> unchanged(this)
    {
      if conn.Some? {
        conn.value.closed := true;
      }
    }
  }
}
