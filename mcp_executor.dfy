/** The MCP executor: a registry of started transports, one per server name,
    created lazily from the server's configuration, with a cache of each
    server's tool list and of its tool schemas. Every tool call answers with
    the same five-field envelope. */
module McpExecutor {
  import opened Wrappers
  import opened Json
  import McpConfig
  import Transports

  /** The `{success, result, error, tool, tool_call}` dictionary. */
  datatype Envelope = Envelope(success: bool, result: Json, error: Option<string>, tool: string, toolCall: string)

  function ToolId(server: string, tool: string): string {
    server + ":" + tool
  }

  function Reject(server: string, tool: string, error: string): (e: Envelope)
    ensures Shaped(e, server, tool) && !e.success && e.error == Some(error)
  {
    Envelope(false, Null, Some(error), ToolId(server, tool), ToolId(server, tool))
  }

  function Accept(server: string, tool: string, result: Json): (e: Envelope)
    ensures Shaped(e, server, tool) && e.success && e.result == result
  {
    Envelope(true, result, None, ToolId(server, tool), ToolId(server, tool))
  }

  /** Every envelope names the call it answers, and carries an error exactly
      when it reports a failure (and then no result). */
  predicate Shaped(e: Envelope, server: string, tool: string) {
    && e.tool == ToolId(server, tool) && e.toolCall == ToolId(server, tool)
    && (e.success <==> e.error.None?)
    && (!e.success ==> e.result == Null)
  }

  /** `tool_cache.get(server, [])`. */
  function CachedTools(cache: map<string, Json>, server: string): Json {
    if server in cache then cache[server] else Arr([])
  }

  /** `after` keeps every entry of `before` and adds at most `key`. */
  ghost predicate Grows<V>(before: map<string, V>, after: map<string, V>, key: string) {
    && (forall s :: s in before ==> s in after && after[s] == before[s])
    && (forall s :: s in after ==> s in before || s == key)
  }

  /** Growth by any number of keys. */
  ghost predicate Extends<V>(before: map<string, V>, after: map<string, V>) {
    forall s :: s in before ==> s in after && after[s] == before[s]
  }

  /** What `_get_transport` does for a server without a transport: it
      raises before registering anything, or it registers a started
      transport whose `list_tools` answered `tools` and left it in `state`. */
  datatype Launched = NotLaunched(error: string) | Launched(tools: Result<Json>, state: Transports.State)

  /** Creating a transport of the metadata's kind, starting it with the
      metadata's command line, and listing its tools. */
  function LaunchPlan(m: McpConfig.Metadata, codec: Codec, peer: Transports.Peer): Launched {
    match Transports.KindOf(m.transport)
    case Failure(e) => NotLaunched(e)
    case Success(k) =>
      var (started, s1) := Transports.StartStep(k, codec, m.command, m.args, peer);
      if started.Failure? then NotLaunched(started.error)
      else
        var (tools, s2) := Transports.ListStep(codec, s1);
        Launched(tools, s2)
  }

  /** `_get_transport` for a server without a transport, given what the
      metadata lookup answers: no metadata raises, otherwise the launch. */
  function SetupPlan(meta: Result<Option<McpConfig.Metadata>>, server: string, codec: Codec,
                     world: (Option<string>, seq<string>) -> Transports.Peer): Launched {
    match meta
    case Failure(e) => NotLaunched(e)
    case Success(None) => NotLaunched("No metadata found for server: " + server)
    case Success(Some(m)) => LaunchPlan(m, codec, world(m.command, m.args))
  }

  /** The envelope for the transport's answer to a call: its value, or its
      exception under "Error executing tool: ". */
  function Answer(server: string, tool: string, r: Result<Json>): (e: Envelope)
    ensures Shaped(e, server, tool)
    ensures e.success <==> r.Success?
    ensures r.Success? ==> e.result == r.value
    ensures r.Failure? ==> e.error == Some("Error executing tool: " + r.error)
  {
    if r.Success? then Accept(server, tool, r.value) else Reject(server, tool, "Error executing tool: " + r.error)
  }

  function NotFound(server: string, tool: string): string {
    "Tool '" + tool + "' not found on server '" + server + "'"
  }

  /** The rest of `execute_tool(server, tool, **kwargs)` once the server has
      a transport in state `st` and the cached tool list `tools`: the
      envelope and the state the transport is left in. Only a listed tool
      reaches the transport, and then with `kwargs`. */
  function Dispatch(codec: Codec, server: string, tool: string, kwargs: map<string, Json>, tools: Json,
                    st: Transports.State): (r: (Envelope, Transports.State))
    ensures Shaped(r.0, server, tool)
    ensures In(tool, tools) != Success(true) ==> r.1 == st && !r.0.success
    ensures In(tool, tools) == Success(false) ==> r.0 == Reject(server, tool, NotFound(server, tool))
    ensures In(tool, tools) == Success(true) ==>
      && r.0 == Answer(server, tool, Transports.CallStep(codec, st, tool, kwargs).0)
      && r.1 == Transports.CallStep(codec, st, tool, kwargs).1
  {
    match In(tool, tools)
    case Failure(m) => (Reject(server, tool, "Error executing tool: " + m), st)
    case Success(listed) =>
      if !listed then (Reject(server, tool, NotFound(server, tool)), st)
      else
        var (answer, next) := Transports.CallStep(codec, st, tool, kwargs);
        (Answer(server, tool, answer), next)
  }

  /** The part of `_get_transport` that builds a transport: create it for
      the metadata's transport kind, start it with the metadata's command
      line, and ask it for its tools. Only a started transport comes back,
      together with what `list_tools` answered. */
  method Launch(m: McpConfig.Metadata, codec: Codec, peer: Transports.Peer)
    returns (r: Result<(Transports.Transport, Result<Json>)>)
    ensures r.Success? ==> fresh(Transports.ObjectOf(r.value.0)) && Transports.Valid(r.value.0)
    ensures r.Success? ==> Transports.KindOf(m.transport) == Success(Transports.KindOfTransport(r.value.0))
    ensures Transports.KindOf(m.transport).Failure? ==> r == Failure(Transports.KindOf(m.transport).error)
    ensures r.Success? ==> Transports.CodecOf(r.value.0) == codec
    ensures var plan := LaunchPlan(m, codec, peer);
      && (r.Failure? <==> plan.NotLaunched?)
      && (r.Failure? ==> r.error == plan.error)
      && (r.Success? ==> r.value.1 == plan.tools && Transports.StateOf(r.value.0) == plan.state)
  {
    var created := Transports.CreateTransport(m.transport, codec);
    if created.Failure? {
      return Failure(created.error);
    }
    var t := created.value;
    var started := Transports.Start(t, m.command, m.args, peer);
    if started.Failure? {
      return Failure(started.error);
    }
    var tools := Transports.ListTools(t);
    r := Success((t, tools));
  }

  /** Growth by one key after growth by any number is growth. */
  lemma GrowsExtends<V>(a: map<string, V>, b: map<string, V>, c: map<string, V>, key: string)
    requires Extends(a, b) && Grows(b, c, key)
    ensures Extends(a, c)
  {
  }

  /** Entries copied from a cache stay equal to the cache's answers when
      the cache only gains `key`, except possibly at `key`. */
  lemma CachedEntriesKept(copied: map<string, Json>, before: map<string, Json>, after: map<string, Json>, key: string)
    requires forall s :: s in copied ==> copied[s] == CachedTools(before, s)
    requires Grows(before, after, key)
    ensures forall s :: s in copied && s != key ==> copied[s] == CachedTools(after, s)
  {
  }

  lemma ExtendsTrans<V>(a: map<string, V>, b: map<string, V>, c: map<string, V>)
    requires Extends(a, b) && Extends(b, c)
    ensures Extends(a, c)
  {
  }

  /** More cached servers among more transports hold at least the same
      objects. */
  lemma HoldersGrow(c1: map<string, Json>, t1: map<string, Transports.Transport>,
                    c2: map<string, Json>, t2: map<string, Transports.Transport>)
    requires Extends(c1, c2) && Extends(t1, t2)
    ensures Holders(c1, t1) <= Holders(c2, t2)
  {
  }

  /** Splitting a list of distinct names at position `i`. */
  lemma SplitDistinct<T>(xs: seq<T>, i: nat)
    requires i < |xs|
    requires forall a, b :: 0 <= a < b < |xs| ==> xs[a] != xs[b]
    ensures xs[..i + 1] == xs[..i] + [xs[i]] && xs[i..] == [xs[i]] + xs[i + 1..]
    ensures xs[i] !in xs[..i] && xs[i] !in xs[i + 1..]
  {
    assert forall k :: 0 <= k < i ==> xs[..i][k] == xs[k];
    assert forall k :: i < k < |xs| ==> xs[i + 1..][k - i - 1] == xs[k];
  }

  /** Each answer is the cached schemas of its server, or [] when none
      are cached. */
  ghost predicate Mirrors(answers: map<string, Json>, cache: map<string, Json>) {
    forall s :: s in answers ==>
      && (s in cache ==> answers[s] == cache[s])
      && (s !in cache ==> answers[s] == Arr([]))
  }

  /** The bookkeeping of `get_tool_schemas`: each answer mirrors the
      cache `after`; `fetched` holds the answer of every server whose
      schemas were not cached in `before`, that answer is the one `want`
      expected, and exactly the successful ones were cached. */
  ghost predicate Ledger(answers: map<string, Json>, fetched: map<string, Result<Json>>,
                         want: map<string, Result<Json>>, before: map<string, Json>, after: map<string, Json>)
  {
    && Mirrors(answers, after)
    && (forall s :: s in answers && s !in before ==> s in fetched)
    && (forall s :: s in fetched ==> s in answers && s in want && fetched[s] == want[s])
    && (forall s :: s in fetched ==> s !in before && (fetched[s].Failure? <==> s !in after))
    && (forall s :: s in after && s !in before ==> s in fetched && fetched[s] == Success(after[s]))
  }

  /** Answering a server from the cache keeps the bookkeeping. */
  lemma LedgerCached(answers: map<string, Json>, fetched: map<string, Result<Json>>,
                     want: map<string, Result<Json>>, before: map<string, Json>, after: map<string, Json>, server: string)
    requires Ledger(answers, fetched, want, before, after) && server in after && server !in answers
    requires Extends(before, after)
    ensures Ledger(answers[server := after[server]], fetched, want, before, after)
  {
  }

  /** Fetching an uncached server's answer, and caching it when it
      succeeds, keeps the bookkeeping. */
  lemma LedgerFetched(answers: map<string, Json>, fetched: map<string, Result<Json>>,
                      want: map<string, Result<Json>>, before: map<string, Json>,
                      mid: map<string, Json>, after: map<string, Json>,
                      server: string, got: Json, answer: Result<Json>)
    requires Ledger(answers, fetched, want, before, mid) && Extends(before, mid)
    requires server !in mid && server !in answers && server in want && answer == want[server]
    requires answer.Failure? ==> after == mid && got == Arr([])
    requires answer.Success? ==> after == mid[server := answer.value] && got == answer.value
    ensures Ledger(answers[server := got], fetched[server := answer], want, before, after)
  {
  }

  /** The objects of the transports whose servers have cached schemas. */
  ghost function Holders(cache: map<string, Json>, transports: map<string, Transports.Transport>): set<object> {
    set s | s in cache && s in transports :: Transports.ObjectOf(transports[s])
  }

  class Executor {
    const config: McpConfig.Config
    const codec: Codec
    /** Who answers a server started with a given command line. */
    const world: (Option<string>, seq<string>) -> Transports.Peer
    /** `transports`: the started transport of each server. */
    var transports: map<string, Transports.Transport>
    /** `tool_cache`: what each server's `list_tools` returned. */
    var toolCache: map<string, Json>
    /** `tool_schema_cache`: what each server's `get_tool_schemas` returned. */
    var schemaCache: map<string, Json>
    ghost var Repr: set<object>

    ghost predicate Valid()
      reads this, Repr
    {
      && this in Repr && config in Repr && config.Valid()
      && (forall s :: s in transports ==>
            && Transports.ObjectOf(transports[s]) in Repr && Transports.Valid(transports[s])
            && Transports.ObjectOf(transports[s]) != config && Transports.ObjectOf(transports[s]) != this
            && Transports.CodecOf(transports[s]) == codec)
      && (forall s, u :: s in transports && u in transports && s != u ==>
            Transports.ObjectOf(transports[s]) != Transports.ObjectOf(transports[u]))
      && toolCache.Keys <= transports.Keys
      && schemaCache.Keys <= transports.Keys
    }

    /** What `is_server_enabled` would now answer, read as a condition. */
    ghost predicate Enabled(server: string)
      reads this, config
    {
      var v := McpConfig.EnabledResult(config.table, config.path, config.file, server);
      v.Success? && Truthy(v.value)
    }

    /** How `_get_transport` would launch `server` under the configuration
        as it now is. */
    ghost function PlanFor(server: string): Launched
      reads this, config
    {
      PlanIn(config.table, server)
    }

    /** The launch the configuration `table` prescribes for `server`. */
    ghost function PlanIn(table: Option<McpConfig.ServerTable>, server: string): Launched {
      SetupPlan(McpConfig.MetadataResult(table, config.path, config.file, server), server, codec, world)
    }

    /** The transport object registered for `server`, if any. */
    ghost function Held(server: string): set<object>
      reads this
    {
      if server in transports then {Transports.ObjectOf(transports[server])} else {}
    }

    /** What `_get_transport` leaves behind for `server` after launching it
        as `plan` says: nothing registered, or the transport in the plan's
        state with the tool list cached exactly when listing succeeded. */
    ghost predicate Holds(server: string, plan: Launched)
      reads this, Held(server)
    {
      match plan
      case NotLaunched(_) => server !in transports
      case Launched(tools, st) =>
        && server in transports && Transports.StateOf(transports[server]) == st
        && (tools.Success? ==> server in toolCache && toolCache[server] == tools.value)
        && (tools.Failure? ==> server !in toolCache)
    }

    /** The envelope `execute_tool(server, tool, **kwargs)` answers from the
        present state: the enabled check, then `_get_transport`, then the
        tool check and the transport's own answer. */
    ghost function CallFor(server: string, tool: string, kwargs: map<string, Json>): Envelope
      reads this, config, Held(server)
    {
      match McpConfig.EnabledResult(config.table, config.path, config.file, server)
      case Failure(m) => Reject(server, tool, "Error executing tool: " + m)
      case Success(v) =>
        if !Truthy(v) then Reject(server, tool, "MCP server '" + server + "' is not enabled")
        else EnabledCall(server, tool, kwargs)
    }

    /** The envelope `execute_tool(server, tool)` answers from the present
        state once the server is known to be enabled. */
    ghost function EnabledCall(server: string, tool: string, kwargs: map<string, Json>): Envelope
      reads this, config, Held(server)
    {
      if server in transports then
        Dispatch(codec, server, tool, kwargs, CachedTools(toolCache, server), Transports.StateOf(transports[server])).0
      else
        match PlanFor(server)
        case NotLaunched(err) => Reject(server, tool, "Error executing tool: " + err)
        case Launched(tools, st) =>
          if tools.Failure? then Reject(server, tool, "Error executing tool: " + tools.error)
          else Dispatch(codec, server, tool, kwargs, tools.value, st).0
    }

    /** The objects of every registered transport. */
    ghost function Objects(): set<object>
      reads this
    {
      set s | s in transports :: Transports.ObjectOf(transports[s])
    }

    /** Every answered server that had no transport in the snapshot `t0`
        was launched as the configuration `table0` prescribes. */
    ghost predicate LaunchedAsPlanned(available: map<string, Json>, t0: map<string, Transports.Transport>,
                                      table0: Option<McpConfig.ServerTable>)
      reads this, Objects()
    {
      forall s :: s in available && s !in t0 ==> Holds(s, PlanIn(table0, s))
    }

    /** The state of the transport registered for `server`, if any. */
    ghost function StateAt(server: string): Option<Transports.State>
      reads this, Held(server)
    {
      if server in transports then Some(Transports.StateOf(transports[server])) else None
    }

    /** The state `execute_tool(server, tool, **kwargs)` leaves the server's
        transport in, from the present state: untouched when the call is
        refused before `_get_transport`; otherwise the existing or launched
        transport, with the request or POST carrying `kwargs` recorded when
        the tool is listed. */
    ghost function AfterCall(server: string, tool: string, kwargs: map<string, Json>): Option<Transports.State>
      reads this, config, Held(server)
    {
      match McpConfig.EnabledResult(config.table, config.path, config.file, server)
      case Failure(_) => StateAt(server)
      case Success(v) => if !Truthy(v) then StateAt(server) else EnabledAfter(server, tool, kwargs)
    }

    /** The state `execute_tool(server, tool, **kwargs)` leaves the server's
        transport in once the server is known to be enabled. */
    ghost function EnabledAfter(server: string, tool: string, kwargs: map<string, Json>): Option<Transports.State>
      reads this, config, Held(server)
    {
      if server in transports then
        Some(Dispatch(codec, server, tool, kwargs, CachedTools(toolCache, server), Transports.StateOf(transports[server])).1)
      else
          match PlanFor(server)
          case NotLaunched(_) => None
          case Launched(tools, st) =>
            Some(if tools.Failure? then st else Dispatch(codec, server, tool, kwargs, tools.value, st).1)
    }

    /** What one uncached server's turn in `get_tool_schemas` gets from the
        present state: `_get_transport`, then the transport's answer. */
    ghost function SchemasFor(server: string): Result<Json>
      reads this, config, Held(server)
    {
      if server in transports then Transports.SchemasStep(codec, Transports.StateOf(transports[server])).0
      else
        match PlanFor(server)
        case NotLaunched(e) => Failure(e)
        case Launched(tools, st) =>
          if tools.Failure? then Failure(tools.error) else Transports.SchemasStep(codec, st).0
    }

    /** An executor over an already-made configuration: nothing started,
        nothing cached. */
    constructor (config: McpConfig.Config, codec: Codec, world: (Option<string>, seq<string>) -> Transports.Peer)
      requires config.Valid()
      ensures Valid() && fresh(Repr - {config})
      ensures this.config == config && this.codec == codec && this.world == world
      ensures transports == map[] && toolCache == map[] && schemaCache == map[]
    {
      this.config := config;
      this.codec := codec;
      this.world := world;
      transports := map[];
      toolCache := map[];
      schemaCache := map[];
      Repr := {this, config};
    }

    /** `_get_transport`: a known server's transport is returned as it is,
        touching nothing. An unknown one is created from its metadata and
        started; only a started transport is registered, and only a
        successful `list_tools` is cached. */
    method GetTransport(server: string) returns (r: Result<Transports.Transport>)
      requires Valid()
      modifies Repr
      ensures Valid() && fresh(Repr - old(Repr))
      ensures Grows(old(transports), transports, server) && Grows(old(toolCache), toolCache, server)
      ensures schemaCache == old(schemaCache)
      ensures McpConfig.SameMetadata(old(config.table), config.table, config.path, config.file)
      ensures forall s :: s in old(transports) ==> unchanged(Transports.ObjectOf(old(transports)[s]))
      ensures r.Success? ==> server in transports && r.value == transports[server]
      ensures server in old(transports) ==>
        && r == Success(old(transports)[server])
        && transports == old(transports) && toolCache == old(toolCache) && unchanged(config)
      ensures server !in old(transports) ==>
        && (r.Success? <==> server in toolCache)
        && (server in transports ==> fresh(Transports.ObjectOf(transports[server])))
      ensures server !in old(transports) ==> Holds(server, old(PlanFor(server)))
      ensures server !in old(transports) ==> ghost var plan := old(PlanFor(server));
        && (plan.NotLaunched? ==> r == Failure(plan.error))
        && (plan.Launched? && plan.tools.Failure? ==> r == Failure(plan.tools.error))
    {
      if server in transports {
        return Success(transports[server]);
      }
      r := StartServer(server);
    }

    /** The branch of `_get_transport` for a server with no transport yet:
        its metadata is looked up, a transport is launched for it and
        registered, and its tool list is cached when `list_tools`
        succeeds. */
    method StartServer(server: string) returns (r: Result<Transports.Transport>)
      requires Valid() && server !in transports
      modifies Repr
      ensures Valid() && fresh(Repr - old(Repr))
      ensures Grows(old(transports), transports, server) && Grows(old(toolCache), toolCache, server)
      ensures schemaCache == old(schemaCache)
      ensures McpConfig.SameMetadata(old(config.table), config.table, config.path, config.file)
      ensures forall s :: s in old(transports) ==> unchanged(Transports.ObjectOf(old(transports)[s]))
      ensures r.Success? ==> server in transports && r.value == transports[server]
      ensures r.Success? <==> server in toolCache
      ensures server in transports ==> fresh(Transports.ObjectOf(transports[server]))
      ensures Holds(server, old(PlanFor(server)))
      ensures ghost var plan := old(PlanFor(server));
        && (plan.NotLaunched? ==> r == Failure(plan.error))
        && (plan.Launched? && plan.tools.Failure? ==> r == Failure(plan.tools.error))
    {
      var meta := config.GetServerMetadata(server);
      ValidAfterConfigCall();
      if meta.Failure? {
        return Failure(meta.error);
      }
      if meta.value.None? {
        return Failure("No metadata found for server: " + server);
      }
      r := Install(server, meta.value.value);
    }

    /** Launching a transport for `server` from its metadata `m`,
        registering it and caching its tool list. */
    method Install(server: string, m: McpConfig.Metadata) returns (r: Result<Transports.Transport>)
      requires Valid() && server !in transports
      modifies this
      ensures Valid() && fresh(Repr - old(Repr))
      ensures Grows(old(transports), transports, server) && Grows(old(toolCache), toolCache, server)
      ensures schemaCache == old(schemaCache)
      ensures r.Success? ==> server in transports && r.value == transports[server]
      ensures r.Success? <==> server in toolCache
      ensures server in transports ==> fresh(Transports.ObjectOf(transports[server]))
      ensures Holds(server, LaunchPlan(m, codec, world(m.command, m.args)))
      ensures ghost var plan := LaunchPlan(m, codec, world(m.command, m.args));
        && (plan.NotLaunched? ==> r == Failure(plan.error))
        && (plan.Launched? && plan.tools.Failure? ==> r == Failure(plan.tools.error))
    {
      var launched := Launch(m, codec, world(m.command, m.args));
      if launched.Failure? {
        return Failure(launched.error);
      }
      r := Adopt(server, launched.value.0, launched.value.1);
    }

    /** Registering a started transport `t` for `server` and caching the
        tool list `tools` when `list_tools` succeeded. */
    method Adopt(server: string, t: Transports.Transport, tools: Result<Json>) returns (r: Result<Transports.Transport>)
      requires Valid() && server !in transports
      requires Transports.Valid(t) && Transports.ObjectOf(t) !in Repr && Transports.CodecOf(t) == codec
      modifies this
      ensures Valid() && Repr == old(Repr) + {Transports.ObjectOf(t)}
      ensures transports == old(transports)[server := t] && schemaCache == old(schemaCache)
      ensures tools.Success? ==> toolCache == old(toolCache)[server := tools.value] && r == Success(t)
      ensures tools.Failure? ==> toolCache == old(toolCache) && r == Failure(tools.error)
    {
      Register(server, t);
      if tools.Failure? {
        return Failure(tools.error);
      }
      CacheTools(server, tools.value);
      r := Success(t);
    }

    /** `self.transports[server_name] = transport` for a newly made transport. */
    method Register(server: string, t: Transports.Transport)
      requires Valid() && server !in transports
      requires Transports.Valid(t) && Transports.ObjectOf(t) !in Repr && Transports.CodecOf(t) == codec
      modifies this
      ensures Valid()
      ensures transports == old(transports)[server := t] && Repr == old(Repr) + {Transports.ObjectOf(t)}
      ensures toolCache == old(toolCache) && schemaCache == old(schemaCache)
    {
      transports := transports[server := t];
      Repr := Repr + {Transports.ObjectOf(t)};
    }

    /** `self.tool_cache[server_name] = ...` for a registered server. */
    method CacheTools(server: string, tools: Json)
      requires Valid() && server in transports
      modifies this
      ensures Valid()
      ensures toolCache == old(toolCache)[server := tools]
      ensures transports == old(transports) && Repr == old(Repr) && schemaCache == old(schemaCache)
    {
      toolCache := toolCache[server := tools];
    }

    /** `execute_tool`: never raises. A disabled server is refused before
        any transport exists; a tool missing from the cached list is refused
        without calling the transport; every exception becomes
        "Error executing tool: ...". The envelope is the one the state
        before the call determines. */
    method ExecuteTool(server: string, tool: string, kwargs: map<string, Json>) returns (e: Envelope)
      requires Valid()
      modifies Repr
      ensures Valid() && fresh(Repr - old(Repr))
      ensures e == old(CallFor(server, tool, kwargs))
      ensures Shaped(e, server, tool)
      ensures Grows(old(transports), transports, server) && Grows(old(toolCache), toolCache, server)
      ensures schemaCache == old(schemaCache)
      ensures e.success ==> server in transports && In(tool, CachedTools(toolCache, server)) == Success(true)
      ensures
        match McpConfig.EnabledResult(old(config.table), config.path, config.file, server)
        case Failure(m) =>
          e == Reject(server, tool, "Error executing tool: " + m) && transports == old(transports)
        case Success(v) =>
          !Truthy(v) ==>
            && e == Reject(server, tool, "MCP server '" + server + "' is not enabled")
            && transports == old(transports) && toolCache == old(toolCache)
      ensures server in old(transports) ==>
        && transports == old(transports) && toolCache == old(toolCache)
        && (forall s :: s in transports && s != server ==> unchanged(Transports.ObjectOf(transports[s])))
      ensures (server in old(transports) && old(Enabled(server))
               && In(tool, CachedTools(old(toolCache), server)) == Success(false)) ==>
        && e == Reject(server, tool, NotFound(server, tool))
        && unchanged(Transports.ObjectOf(old(transports)[server]))
      ensures StateAt(server) == old(AfterCall(server, tool, kwargs))
    {
      var enabled := config.IsServerEnabled(server);
      ValidAfterConfigCall();
      assert StateAt(server) == old(StateAt(server));
      if enabled.Failure? {
        return Reject(server, tool, "Error executing tool: " + enabled.error);
      }
      if !Truthy(enabled.value) {
        return Reject(server, tool, "MCP server '" + server + "' is not enabled");
      }
      // the configuration call kept the metadata, so the launch plan and
      // with it the enabled call's answer and state are as before
      assert McpConfig.MetadataResult(config.table, config.path, config.file, server)
          == McpConfig.MetadataResult(old(config.table), config.path, config.file, server);
      assert EnabledCall(server, tool, kwargs) == old(EnabledCall(server, tool, kwargs));
      assert EnabledAfter(server, tool, kwargs) == old(EnabledAfter(server, tool, kwargs));
      e := ExecuteEnabled(server, tool, kwargs);
    }

    /** `execute_tool` past the enabled check: `_get_transport`, then the
        tool check against the cached list and the transport's answer. */
    method ExecuteEnabled(server: string, tool: string, kwargs: map<string, Json>) returns (e: Envelope)
      requires Valid()
      modifies Repr
      ensures Valid() && fresh(Repr - old(Repr))
      ensures Grows(old(transports), transports, server) && Grows(old(toolCache), toolCache, server)
      ensures schemaCache == old(schemaCache)
      ensures McpConfig.SameMetadata(old(config.table), config.table, config.path, config.file)
      ensures forall s :: s in old(transports) && s != server ==> unchanged(Transports.ObjectOf(old(transports)[s]))
      ensures e == old(EnabledCall(server, tool, kwargs))
      ensures e.success ==> server in transports && In(tool, CachedTools(toolCache, server)) == Success(true)
      ensures StateAt(server) == old(EnabledAfter(server, tool, kwargs))
      ensures server in old(transports) ==>
        && transports == old(transports) && toolCache == old(toolCache)
        && (In(tool, CachedTools(old(toolCache), server)) != Success(true) ==>
              unchanged(Transports.ObjectOf(old(transports)[server])))
    {
      var t := GetTransport(server);
      if t.Failure? {
        return Reject(server, tool, "Error executing tool: " + t.error);
      }
      e := CallRegistered(server, tool, kwargs);
    }

    /** The end of `execute_tool` for a server with a transport: a tool
        missing from the cached list is refused without calling the
        transport; otherwise the transport's answer or its exception. */
    method CallRegistered(server: string, tool: string, kwargs: map<string, Json>) returns (e: Envelope)
      requires Valid() && server in transports
      modifies Transports.ObjectOf(transports[server])
      ensures Valid()
      ensures (e, Transports.StateOf(transports[server])) ==
        Dispatch(codec, server, tool, kwargs, CachedTools(toolCache, server), old(Transports.StateOf(transports[server])))
      ensures In(tool, CachedTools(toolCache, server)) != Success(true) ==>
        unchanged(Transports.ObjectOf(transports[server]))
    {
      var t := transports[server];
      var listed := In(tool, CachedTools(toolCache, server));
      if listed.Failure? {
        return Reject(server, tool, "Error executing tool: " + listed.error);
      }
      if !listed.value {
        return Reject(server, tool, NotFound(server, tool));
      }
      var result := Transports.ExecuteTool(t, tool, kwargs);
      ValidAfterTransportCall(server);
      e := Answer(server, tool, result);
    }

    /** `get_available_tools`: one entry per enabled server, holding its
        cached tool list, or [] when its transport could not be set up.
        Every enabled server without a transport is launched as its
        metadata says. */
    method GetAvailableTools() returns (r: Result<map<string, Json>>)
      requires Valid()
      modifies Repr
      ensures Valid() && fresh(Repr - old(Repr))
      ensures Extends(old(transports), transports) && Extends(old(toolCache), toolCache)
      ensures schemaCache == old(schemaCache)
      ensures ghost var servers := McpConfig.EnabledServersResult(old(config.table), config.path, config.file);
        && (r.Failure? <==> servers.Failure?)
        && (r.Success? ==> forall s :: s in r.value <==> s in servers.value)
      ensures r.Success? ==> forall s :: s in r.value ==> r.value[s] == CachedTools(toolCache, s)
      ensures r.Success? ==> forall s :: s in r.value && s !in old(transports) ==> Holds(s, old(PlanFor(s)))
    {
      var servers := config.GetEnabledServers();
      ValidAfterConfigCall();
      if servers.Failure? {
        return Failure(servers.error);
      }
      var available := ProbeServers(servers.value, old(config.table));
      r := Success(available);
    }

    /** The loop of `get_available_tools` over the enabled server names: one
        answer per name, mirroring the tool cache, and every server without
        a transport before the loop launched as the configuration `table0`
        prescribes. */
    method ProbeServers(names: seq<string>, ghost table0: Option<McpConfig.ServerTable>)
      returns (available: map<string, Json>)
      requires Valid()
      requires forall i, j :: 0 <= i < j < |names| ==> names[i] != names[j]
      requires McpConfig.SameMetadata(table0, config.table, config.path, config.file)
      modifies Repr
      ensures Valid() && fresh(Repr - old(Repr))
      ensures Extends(old(transports), transports) && Extends(old(toolCache), toolCache)
      ensures schemaCache == old(schemaCache)
      ensures forall s :: s in available <==> s in names
      ensures forall s :: s in available ==> available[s] == CachedTools(toolCache, s)
      ensures LaunchedAsPlanned(available, old(transports), table0)
    {
      available := map[];
      for i := 0 to |names|
        invariant Valid() && fresh(Repr - old(Repr))
        invariant Extends(old(transports), transports) && Extends(old(toolCache), toolCache)
        invariant schemaCache == old(schemaCache)
        invariant McpConfig.SameMetadata(table0, config.table, config.path, config.file)
        invariant forall s :: s in available <==> s in names[..i]
        invariant forall s :: s in available ==> available[s] == CachedTools(toolCache, s)
        invariant LaunchedAsPlanned(available, old(transports), table0)
        invariant forall s :: s in transports && s !in old(transports) ==> s in available
      {
        SplitDistinct(names, i);
        var tools := ProbeServer(names[i], available, old(transports), old(toolCache), table0);
        available := available[names[i] := tools];
      }
      assert names[..|names|] == names;
    }

    /** One server's turn in `get_available_tools`: `_get_transport`, then
        its cached tool list, or [] when there is none, added to the
        answers so far. The answers so far keep mirroring the tool cache,
        and every server they launched since the snapshot `t0`, `c0`,
        `table0` stays as its launch left it. */
    method ProbeServer(server: string, available: map<string, Json>, ghost t0: map<string, Transports.Transport>,
                       ghost c0: map<string, Json>, ghost table0: Option<McpConfig.ServerTable>)
      returns (tools: Json)
      requires Valid() && server !in available
      requires Extends(t0, transports) && Extends(c0, toolCache)
      requires McpConfig.SameMetadata(table0, config.table, config.path, config.file)
      requires forall s :: s in available ==> available[s] == CachedTools(toolCache, s)
      requires LaunchedAsPlanned(available, t0, table0)
      requires forall s :: s in transports && s !in t0 ==> s in available
      modifies Repr
      ensures Valid() && fresh(Repr - old(Repr))
      ensures Grows(old(transports), transports, server) && Grows(old(toolCache), toolCache, server)
      ensures Extends(t0, transports) && Extends(c0, toolCache) && schemaCache == old(schemaCache)
      ensures McpConfig.SameMetadata(table0, config.table, config.path, config.file)
      ensures tools == CachedTools(toolCache, server)
      ensures forall s :: s in available ==> available[s] == CachedTools(toolCache, s)
      ensures LaunchedAsPlanned(available, t0, table0)
      ensures server !in t0 ==> Holds(server, PlanIn(table0, server))
      ensures forall s :: s in transports && s !in t0 ==> s in available || s == server
    {
      ghost var tableBefore := config.table;
      var t := GetTransport(server);
      GrowsExtends(t0, old(transports), transports, server);
      GrowsExtends(c0, old(toolCache), toolCache, server);
      CachedEntriesKept(available, old(toolCache), toolCache, server);
      McpConfig.SameMetadataTrans(table0, tableBefore, config.table, config.path, config.file);
      if server !in old(transports) {
        PlanKept(table0, tableBefore, server);
      }
      tools := if t.Success? then CachedTools(toolCache, server) else Arr([]);
      forall s | s in available && s !in t0
        ensures Holds(s, PlanIn(table0, s))
      {
        if s in old(transports) {
          assert Transports.StateOf(transports[s]) == old(Transports.StateOf(transports[s]));
        }
      }
    }

    /** `get_tool_schemas`: one entry per enabled server. A cached answer is
        served without contacting the transport; a failure answers [] and
        is not cached, so the next call tries again. Each uncached server's
        answer is the one the state before the call determines. */
    method GetToolSchemas() returns (r: Result<map<string, Json>>, ghost fetched: map<string, Result<Json>>)
      requires Valid()
      modifies Repr
      ensures Valid() && fresh(Repr - old(Repr))
      ensures Extends(old(transports), transports) && Extends(old(toolCache), toolCache)
      ensures Extends(old(schemaCache), schemaCache)
      ensures unchanged(Holders(old(schemaCache), old(transports)))
      ensures ghost var servers := McpConfig.EnabledServersResult(old(config.table), config.path, config.file);
        && (r.Failure? <==> servers.Failure?)
        && (r.Success? ==> forall s :: s in r.value <==> s in servers.value)
      ensures r.Success? ==> forall s :: s in r.value ==>
        && (s in schemaCache ==> r.value[s] == schemaCache[s])
        && (s !in schemaCache ==> r.value[s] == Arr([]))
      ensures r.Success? ==> forall s :: s in r.value && s !in old(schemaCache) ==> s in fetched
      ensures forall s :: s in fetched ==> fetched[s] == old(SchemasFor(s))
      ensures forall s :: s in fetched ==> s !in old(schemaCache) && (fetched[s].Failure? <==> s !in schemaCache)
      ensures forall s :: s in schemaCache && s !in old(schemaCache) ==> s in fetched && fetched[s] == Success(schemaCache[s])
    {
      var servers := config.GetEnabledServers();
      ValidAfterConfigCall();
      if servers.Failure? {
        return Failure(servers.error), map[];
      }
      forall s | s in servers.value
        ensures SchemasFor(s) == old(SchemasFor(s))
      {
        SchemasForKept(s);
      }
      ghost var want := map s | s in servers.value :: SchemasFor(s);
      var schemas;
      schemas, fetched := CollectSchemas(servers.value, want);
      r := Success(schemas);
    }

    /** The loop of `get_tool_schemas` over distinct server names; `want`
        holds the answer each of them would get now. */
    method CollectSchemas(names: seq<string>, ghost want: map<string, Result<Json>>)
      returns (schemas: map<string, Json>, ghost fetched: map<string, Result<Json>>)
      requires Valid()
      requires forall a, b :: 0 <= a < b < |names| ==> names[a] != names[b]
      requires forall s :: s in names ==> s in want && SchemasFor(s) == want[s]
      modifies Repr
      ensures Valid() && fresh(Repr - old(Repr))
      ensures Extends(old(transports), transports) && Extends(old(toolCache), toolCache)
      ensures Extends(old(schemaCache), schemaCache)
      ensures unchanged(Holders(old(schemaCache), old(transports)))
      ensures forall s :: s in schemas <==> s in names
      ensures Ledger(schemas, fetched, want, old(schemaCache), schemaCache)
    {
      schemas, fetched := map[], map[];
      for i := 0 to |names|
        invariant Valid() && fresh(Repr - old(Repr))
        invariant Extends(old(transports), transports) && Extends(old(toolCache), toolCache)
        invariant Extends(old(schemaCache), schemaCache)
        invariant unchanged(Holders(old(schemaCache), old(transports)))
        invariant McpConfig.SameMetadata(old(config.table), config.table, config.path, config.file)
        invariant forall s :: s in schemas <==> s in names[..i]
        invariant Ledger(schemas, fetched, want, old(schemaCache), schemaCache)
        invariant forall s :: s in names[i..] ==> s in want && SchemasFor(s) == want[s]
      {
        var name := names[i];
        SplitDistinct(names, i);
        if name in schemaCache {
          LedgerCached(schemas, fetched, want, old(schemaCache), schemaCache, name);
          schemas := schemas[name := schemaCache[name]];
        } else {
          ghost var cacheBefore, transportsBefore, toolsBefore := schemaCache, transports, toolCache;
          ghost var tableBefore := config.table;
          HoldersGrow(old(schemaCache), old(transports), cacheBefore, transportsBefore);
          ghost var answer: Result<Json>;
          var got;
          got, answer := FetchSchemas(name, names[i + 1..]);
          LedgerFetched(schemas, fetched, want, old(schemaCache), cacheBefore, schemaCache, name, got, answer);
          fetched := fetched[name := answer];
          ExtendsTrans(old(transports), transportsBefore, transports);
          ExtendsTrans(old(toolCache), toolsBefore, toolCache);
          ExtendsTrans(old(schemaCache), cacheBefore, schemaCache);
          McpConfig.SameMetadataTrans(old(config.table), tableBefore, config.table, config.path, config.file);
          schemas := schemas[name := got];
        }
      }
      assert names[..|names|] == names;
    }

    /** One uncached server's turn in `get_tool_schemas`: `_get_transport`,
        then the transport's answer, cached only when it succeeds. The
        answers the servers in `rest` would get stay as they were. */
    method FetchSchemas(server: string, ghost rest: seq<string>) returns (schemas: Json, ghost got: Result<Json>)
      requires Valid() && server !in schemaCache && server !in rest
      modifies Repr
      ensures Valid() && fresh(Repr - old(Repr))
      ensures got == old(SchemasFor(server))
      ensures forall s :: s in rest ==> SchemasFor(s) == old(SchemasFor(s))
      ensures Grows(old(transports), transports, server) && Extends(old(toolCache), toolCache)
      ensures McpConfig.SameMetadata(old(config.table), config.table, config.path, config.file)
      ensures forall s :: s in old(transports) && s != server ==> unchanged(Transports.ObjectOf(old(transports)[s]))
      ensures unchanged(Holders(old(schemaCache), old(transports)))
      ensures got.Failure? ==> schemaCache == old(schemaCache) && schemas == Arr([])
      ensures got.Success? ==> schemaCache == old(schemaCache)[server := got.value] && schemas == got.value
    {
      if server in transports {
        schemas, got := StoreSchemas(server, transports[server]);
        KeptFor(rest);
      } else {
        schemas, got := LaunchSchemas(server, rest);
      }
    }

    /** `FetchSchemas` for a server that has no transport yet. */
    method LaunchSchemas(server: string, ghost rest: seq<string>) returns (schemas: Json, ghost got: Result<Json>)
      requires Valid() && server !in transports && server !in rest
      modifies Repr
      ensures Valid() && fresh(Repr - old(Repr))
      ensures got == old(SchemasFor(server))
      ensures forall s :: s in rest ==> SchemasFor(s) == old(SchemasFor(s))
      ensures Grows(old(transports), transports, server) && Extends(old(toolCache), toolCache)
      ensures McpConfig.SameMetadata(old(config.table), config.table, config.path, config.file)
      ensures forall s :: s in old(transports) ==> unchanged(Transports.ObjectOf(old(transports)[s]))
      ensures got.Failure? ==> schemaCache == old(schemaCache) && schemas == Arr([])
      ensures got.Success? ==> schemaCache == old(schemaCache)[server := got.value] && schemas == got.value
    {
      var t := StartServer(server);
      if t.Failure? {
        KeptFor(rest);
        return Arr([]), Failure(t.error);
      }
      schemas, got := StoreSchemas(server, t.value);
      KeptFor(rest);
    }

    /** Asks a registered transport for its schemas and caches a success. */
    method StoreSchemas(server: string, t: Transports.Transport) returns (schemas: Json, ghost got: Result<Json>)
      requires Valid() && server in transports && transports[server] == t && server !in schemaCache
      modifies this, Transports.ObjectOf(t)
      ensures Valid() && Repr == old(Repr)
      ensures transports == old(transports) && toolCache == old(toolCache)
      ensures (got, Transports.StateOf(t)) == Transports.SchemasStep(codec, old(Transports.StateOf(t)))
      ensures got.Failure? ==> schemaCache == old(schemaCache) && schemas == Arr([])
      ensures got.Success? ==> schemaCache == old(schemaCache)[server := got.value] && schemas == got.value
      ensures !t.StdioT? ==> got.Failure?
    {
      assert Transports.ObjectOf(t) != this;
      var answer := Transports.GetToolSchemas(t);
      got := answer;
      assert transports == old(transports) && toolCache == old(toolCache) && schemaCache == old(schemaCache);
      ValidAfterTransportCall(server);
      if answer.Failure? {
        return Arr([]), got;
      }
      CacheSchemas(server, answer.value);
      schemas := answer.value;
    }

    /** `self.tool_schema_cache[server_name] = schemas` for a registered
        server. */
    method CacheSchemas(server: string, schemas: Json)
      requires Valid() && server in transports
      modifies this
      ensures Valid()
      ensures schemaCache == old(schemaCache)[server := schemas]
      ensures transports == old(transports) && Repr == old(Repr) && toolCache == old(toolCache)
    {
      schemaCache := schemaCache[server := schemas];
    }

    /** The same metadata answers give the same launch. */
    lemma PlanKept(a: Option<McpConfig.ServerTable>, b: Option<McpConfig.ServerTable>, server: string)
      requires McpConfig.SameMetadata(a, b, config.path, config.file)
      ensures PlanIn(b, server) == PlanIn(a, server)
    {
    }

    /** `SchemasForKept` for each of `servers`. */
    twostate lemma KeptFor(servers: seq<string>)
      requires Extends(old(transports), transports)
      requires forall s :: s in servers && s in transports ==> s in old(transports)
      requires forall s :: s in servers && s in old(transports) ==> unchanged(Transports.ObjectOf(old(transports)[s]))
      requires McpConfig.SameMetadata(old(config.table), config.table, config.path, config.file)
      ensures forall s :: s in servers ==> SchemasFor(s) == old(SchemasFor(s))
    {
      forall s | s in servers
        ensures SchemasFor(s) == old(SchemasFor(s))
      {
        SchemasForKept(s);
      }
    }

    /** A server whose transport is neither new nor touched, under the same
        metadata, gets the same schemas answer. */
    twostate lemma SchemasForKept(server: string)
      requires Extends(old(transports), transports)
      requires server in transports ==> server in old(transports)
      requires server in old(transports) ==> unchanged(Transports.ObjectOf(old(transports)[server]))
      requires McpConfig.SameMetadata(old(config.table), config.table, config.path, config.file)
      ensures SchemasFor(server) == old(SchemasFor(server))
    {
      assert McpConfig.MetadataResult(config.table, config.path, config.file, server)
          == McpConfig.MetadataResult(old(config.table), config.path, config.file, server);
    }

    /** A call that changes only the configuration, and keeps it valid,
        keeps the executor valid. */
    twostate lemma ValidAfterConfigCall()
      requires old(Valid()) && unchanged(this) && config.Valid()
      requires forall o :: o in old(Repr) && o != config ==> unchanged(o)
      ensures Valid()
    {
      forall s | s in transports
        ensures Transports.Valid(transports[s])
      {
        assert unchanged(Transports.ObjectOf(transports[s]));
      }
    }

    /** A call that changed only one registered transport, and left it
        valid, keeps the executor valid. */
    twostate lemma ValidAfterTransportCall(server: string)
      requires old(Valid()) && server in old(transports)
      requires unchanged(this) && Transports.Valid(transports[server])
      requires forall o :: o in old(Repr) && o != Transports.ObjectOf(transports[server]) ==> unchanged(o)
      ensures Valid()
    {
      forall s | s in transports
        ensures Transports.Valid(transports[s])
      {
        if s != server {
          assert unchanged(Transports.ObjectOf(transports[s]));
        }
      }
    }

    /** `validate_tool_call`: whether the tool is in the server's cached
        list; it never starts a transport, and a list it cannot search
        counts as no. */
    function ValidateToolCall(server: string, tool: string): (valid: bool)
      reads this
      ensures valid <==> server in toolCache && In(tool, toolCache[server]) == Success(true)
      ensures valid && toolCache[server].Arr? ==> Str(tool) in toolCache[server].items
    {
      In(tool, CachedTools(toolCache, server)) == Success(true)
    }

    /** `shutdown`: stops every registered transport and empties all three
        dictionaries. */
    method Shutdown()
      requires Valid()
      modifies Repr
      ensures Valid() && Repr == old(Repr)
      ensures transports == map[] && toolCache == map[] && schemaCache == map[]
      ensures forall s :: s in old(transports) ==>
        Transports.Valid(old(transports)[s]) && !Transports.IsAlive(old(transports)[s])
    {
      var pending := transports.Keys;
      while pending != {}
        invariant Valid() && Repr == old(Repr) && transports == old(transports)
        invariant toolCache == old(toolCache) && schemaCache == old(schemaCache)
        invariant pending <= transports.Keys
        invariant forall s :: s in transports && s !in pending ==> !Transports.IsAlive(transports[s])
        decreases pending
      {
        var name :| name in pending;
        Transports.Stop(transports[name]);
        pending := pending - {name};
      }
      transports := map[];
      toolCache := map[];
      schemaCache := map[];
    }
  }
}
