/** MCP server configuration: the "mcpServers" table of a JSON file, loaded
    once and cached, with per-server defaults written back into the cached
    table the first time a server is looked up. */
module McpConfig {
  import opened Wrappers
  import opened Json
  import Strs

  const ServersKey: string := "mcpServers"

  /** One server's entry. Each field is absent (None) when the file does not
      give it; the values are taken to have the types the program expects. */
  datatype ServerEntry = ServerEntry(
    command: Option<string>,
    args: Option<seq<string>>,
    transport: Option<string>,
    enabled: Option<Json>,
    tools: Option<seq<Json>>,
    connection: Option<Json>)

  /** The "mcpServers" dictionary: its keys in file order and its entries. */
  datatype ServerTable = ServerTable(order: seq<string>, entries: map<string, ServerEntry>) {
    ghost predicate WellFormed() {
      && (forall i, j :: 0 <= i < j < |order| ==> order[i] != order[j])
      && (forall n :: n in entries <==> n in order)
    }
  }

  /** What reading the configuration file gives: no file, text that is not
      JSON, or a decoded document with or without an "mcpServers" key (an
      empty section counts as present). */
  datatype ConfigFile =
    | Missing
    | Undecodable(reason: string)
    | Decoded(servers: Option<ServerTable>)

  ghost predicate FileValid(file: ConfigFile) {
    file.Decoded? && file.servers.Some? ==> file.servers.value.WellFormed()
  }

  /** `load_config`'s outcome for a given file. */
  function LoadResult(path: string, file: ConfigFile): (r: Result<ServerTable>)
    ensures r.Success? <==> file.Decoded? && file.servers.Some?
    ensures r.Success? ==> r.value == file.servers.value
    ensures file.Missing? ==> r == Failure("MCP configuration file not found: " + path)
    ensures file.Undecodable? ==> r == Failure("Error parsing MCP configuration file: " + file.reason)
    ensures file.Decoded? && file.servers.None? ==>
      r == Failure("Invalid MCP configuration: missing 'mcpServers' section")
  {
    match file
    case Missing => Failure("MCP configuration file not found: " + path)
    case Undecodable(reason) => Failure("Error parsing MCP configuration file: " + reason)
    case Decoded(servers) =>
      if servers.None? then Failure("Invalid MCP configuration: missing 'mcpServers' section")
      else Success(servers.value)
  }

  /** The defaults `get_server_config` adds: only where a key is absent. */
  function WithDefaults(e: ServerEntry): (d: ServerEntry)
    ensures d.command == e.command && d.args == e.args && d.transport == e.transport
    ensures d.tools.Some? && d.enabled.Some? && d.connection.Some?
    ensures e.tools.Some? ==> d.tools == e.tools
    ensures e.enabled.Some? ==> d.enabled == e.enabled
    ensures e.connection.Some? ==> d.connection == e.connection
    ensures e.tools.None? ==> d.tools == Some([])
    ensures e.enabled.None? ==> d.enabled == Some(Bool(true))
    ensures e.connection.None? ==> d.connection == Some(Obj(map["type" := Str("local")]))
  {
    e.(tools := Some(e.tools.GetOr([])),
       enabled := Some(e.enabled.GetOr(Bool(true))),
       connection := Some(e.connection.GetOr(Obj(map["type" := Str("local")]))))
  }

  /** `server_config.get("enabled", True)`, read as a condition. */
  predicate IsEnabled(e: ServerEntry) {
    Truthy(e.enabled.GetOr(Bool(true)))
  }

  /** The names of `order` whose entries are enabled, in the same order. */
  function EnabledAmong(order: seq<string>, entries: map<string, ServerEntry>): (r: seq<string>)
    requires forall n :: n in order ==> n in entries
    ensures |r| <= |order|
    ensures forall n :: n in r <==> n in order && IsEnabled(entries[n])
  {
    if order == [] then []
    else
      var rest := EnabledAmong(order[1..], entries);
      if IsEnabled(entries[order[0]]) then [order[0]] + rest else rest
  }

  /** The loop of `get_enabled_servers` over the configured names. */
  method EnabledNames(order: seq<string>, entries: map<string, ServerEntry>) returns (enabled: seq<string>)
    requires forall n :: n in order ==> n in entries
    ensures enabled == EnabledAmong(order, entries)
  {
    enabled := [];
    for i := 0 to |order|
      invariant enabled == EnabledAmong(order[..i], entries)
    {
      EnabledAmongSnoc(order[..i + 1], entries);
      assert order[..i + 1][..i] == order[..i];
      if IsEnabled(entries[order[i]]) {
        enabled := enabled + [order[i]];
      }
    }
    assert order[..|order|] == order;
  }

  /** The filter can be extended at the back: one more name adds itself
      exactly when it is enabled. */
  lemma {:induction false} EnabledAmongSnoc(order: seq<string>, entries: map<string, ServerEntry>)
    requires order != [] && forall n :: n in order ==> n in entries
    ensures EnabledAmong(order, entries) ==
      EnabledAmong(order[..|order| - 1], entries) + (if IsEnabled(entries[order[|order| - 1]]) then [order[|order| - 1]] else [])
    decreases |order|
  {
    if |order| > 1 {
      var tail, init := order[1..], order[..|order| - 1];
      EnabledAmongSnoc(tail, entries);
      assert tail[..|tail| - 1] == init[1..];
      assert tail[|tail| - 1] == order[|order| - 1];
      assert init[0] == order[0];
      var head := if IsEnabled(entries[order[0]]) then [order[0]] else [];
      var front := EnabledAmong(init[1..], entries);
      var last := if IsEnabled(entries[order[|order| - 1]]) then [order[|order| - 1]] else [];
      assert EnabledAmong(order, entries) == head + (front + last);
      assert EnabledAmong(init, entries) == head + front;
      Strs.AppendAssoc(head, front, last);
    } else {
      assert order[..0] == [];
      assert order[1..] == [];
    }
  }

  /** What `get_server_metadata` returns for a known server. */
  datatype Metadata = Metadata(command: Option<string>, args: seq<string>, transport: string)

  function MetadataOf(e: ServerEntry): Metadata {
    Metadata(e.command, e.args.GetOr([]), e.transport.GetOr("stdio"))
  }

  class Config {
    const path: string
    const file: ConfigFile
    /** `_config`: the "mcpServers" table once loaded. */
    var table: Option<ServerTable>

    ghost predicate Valid()
      reads this
    {
      FileValid(file) && (table.Some? ==> table.value.WellFormed())
    }

    constructor (path: string, file: ConfigFile)
      requires FileValid(file)
      ensures Valid() && this.path == path && this.file == file && table == None
    {
      this.path := path;
      this.file := file;
      table := None;
    }

    /** `load_config`: a successful load replaces the cached table. */
    method LoadConfig() returns (r: Result<ServerTable>)
      requires Valid()
      modifies this
      ensures Valid()
      ensures r == LoadResult(path, file)
      ensures table == (if r.Success? then Some(r.value) else old(table))
    {
      r := LoadResult(path, file);
      if r.Success? {
        table := Some(r.value);
      }
    }

    /** `get_config`: loads only while nothing is cached. */
    method GetConfig() returns (r: Result<ServerTable>)
      requires Valid()
      modifies this
      ensures Valid()
      ensures old(table).Some? ==> r == Success(old(table).value) && table == old(table)
      ensures old(table).None? ==> r == LoadResult(path, file)
      ensures r.Success? ==> table == Some(r.value)
      ensures r.Failure? ==> table == old(table)
      ensures SameMetadata(old(table), table, path, file)
    {
      if table.None? {
        r := LoadConfig();
      } else {
        r := Success(table.value);
      }
    }

    /** `get_server_config`: None for an unknown name; otherwise the entry
        with its defaults, which are also written into the cached table. */
    method GetServerConfig(name: string) returns (r: Result<Option<ServerEntry>>)
      requires Valid()
      modifies this
      ensures Valid()
      ensures r.Failure? <==> old(table).None? && LoadResult(path, file).Failure?
      ensures r.Failure? ==> r.error == LoadResult(path, file).error && table == None
      ensures r.Success? ==> ghost var t := Cached(old(table), path, file);
        && (name !in t.entries ==> r.value == None && table == Some(t))
        && (name in t.entries ==>
             && r.value == Some(WithDefaults(t.entries[name]))
             && table == Some(t.(entries := t.entries[name := WithDefaults(t.entries[name])])))
      ensures SameMetadata(old(table), table, path, file)
    {
      var c := GetConfig();
      if c.Failure? {
        return Failure(c.error);
      }
      var t := c.value;
      if name !in t.entries {
        return Success(None);
      }
      var entry := WithDefaults(t.entries[name]);
      DefaultsKeepMetadataResult(t, name, path, file);
      table := Some(t.(entries := t.entries[name := entry]));
      r := Success(Some(entry));
    }

    /** `get_available_servers`: every configured name, in file order. */
    method GetAvailableServers() returns (r: Result<seq<string>>)
      requires Valid()
      modifies this
      ensures Valid()
      ensures r.Failure? <==> old(table).None? && LoadResult(path, file).Failure?
      ensures r.Success? ==> table.Some? && r.value == table.value.order
      ensures r.Success? ==> table == Some(Cached(old(table), path, file))
    {
      var c := GetConfig();
      if c.Failure? {
        return Failure(c.error);
      }
      r := Success(c.value.order);
    }

    /** `get_enabled_servers`: the configured names whose "enabled" is
        missing or truthy, in file order. */
    method GetEnabledServers() returns (r: Result<seq<string>>)
      requires Valid()
      modifies this
      ensures Valid()
      ensures r == EnabledServersResult(old(table), path, file)
      ensures r.Success? ==> table == Some(Cached(old(table), path, file))
      ensures SameMetadata(old(table), table, path, file)
    {
      var c := GetConfig();
      if c.Failure? {
        assert c == LoadResult(path, file);
        assert Failure(c.error) == EnabledServersResult(old(table), path, file);
        return Failure(c.error);
      }
      var t := c.value;
      assert old(table).Some? ==> t == old(table).value;
      var enabled := EnabledNames(t.order, t.entries);
      assert Success(enabled) == EnabledServersResult(old(table), path, file);
      r := Success(enabled);
    }

    /** `is_server_enabled`: False for an unknown name, else the (defaulted)
        "enabled" value. */
    method IsServerEnabled(name: string) returns (r: Result<Json>)
      requires Valid()
      modifies this
      ensures Valid()
      ensures r == EnabledResult(old(table), path, file, name)
      ensures r.Success? && Truthy(r.value) ==> table.Some? && name in table.value.entries
      ensures SameMetadata(old(table), table, path, file)
    {
      var entry := GetServerConfig(name);
      if entry.Failure? {
        return Failure(entry.error);
      }
      if entry.value.None? {
        return Success(Bool(false));
      }
      r := Success(entry.value.value.enabled.value);
    }

    /** `get_server_metadata`: None for an unknown name, else the command,
        the args (default []) and the transport (default "stdio"). */
    method GetServerMetadata(name: string) returns (r: Result<Option<Metadata>>)
      requires Valid()
      modifies this
      ensures Valid()
      ensures r == MetadataResult(old(table), path, file, name)
      ensures SameMetadata(old(table), table, path, file)
    {
      var entry := GetServerConfig(name);
      if entry.Failure? {
        return Failure(entry.error);
      }
      if entry.value.None? {
        return Success(None);
      }
      r := Success(Some(MetadataOf(entry.value.value)));
    }
  }

  /** `get_enabled_servers`' outcome from a cache state. */
  function EnabledServersResult(table: Option<ServerTable>, path: string, file: ConfigFile): (r: Result<seq<string>>)
    requires table.Some? ==> table.value.WellFormed()
    requires FileValid(file)
    ensures r.Failure? <==> table.None? && LoadResult(path, file).Failure?
    ensures r.Success? ==> forall i, j :: 0 <= i < j < |r.value| ==> r.value[i] != r.value[j]
  {
    if table.None? && LoadResult(path, file).Failure? then Failure(LoadResult(path, file).error)
    else
      var t := Cached(table, path, file);
      EnabledDistinct(t.order, t.entries);
      Success(EnabledAmong(t.order, t.entries))
  }

  /** `is_server_enabled`'s outcome from a cache state: False for an unknown
      name, else the "enabled" value, True when absent. */
  function EnabledResult(table: Option<ServerTable>, path: string, file: ConfigFile, name: string): (r: Result<Json>)
    ensures r.Failure? <==> table.None? && LoadResult(path, file).Failure?
    ensures r.Success? && Truthy(r.value) ==> name in Cached(table, path, file).entries
  {
    if table.None? && LoadResult(path, file).Failure? then Failure(LoadResult(path, file).error)
    else
      var t := Cached(table, path, file);
      if name in t.entries then Success(t.entries[name].enabled.GetOr(Bool(true))) else Success(Bool(false))
  }

  /** `get_server_metadata`'s outcome from a cache state. */
  function MetadataResult(table: Option<ServerTable>, path: string, file: ConfigFile, name: string): (r: Result<Option<Metadata>>)
    ensures r.Failure? <==> table.None? && LoadResult(path, file).Failure?
    ensures r.Success? ==> (r.value.Some? <==> name in Cached(table, path, file).entries)
  {
    if table.None? && LoadResult(path, file).Failure? then Failure(LoadResult(path, file).error)
    else
      var t := Cached(table, path, file);
      if name in t.entries then Success(Some(MetadataOf(t.entries[name]))) else Success(None)
  }

  /** Once the cached table holds a server, its metadata is found: the
      "No metadata found" branch of `_get_transport` is closed to a server
      that `is_server_enabled` has just answered truthily for. */
  lemma EnabledServerHasMetadata(t: ServerTable, path: string, file: ConfigFile, name: string)
    requires t.WellFormed() && name in t.entries
    ensures MetadataResult(Some(t), path, file, name) == Success(Some(MetadataOf(t.entries[name])))
  {
  }

  /** Every server's metadata answer is the same from both cache states. */
  ghost predicate SameMetadata(before: Option<ServerTable>, after: Option<ServerTable>, path: string, file: ConfigFile) {
    forall n :: MetadataResult(after, path, file, n) == MetadataResult(before, path, file, n)
  }

  lemma SameMetadataTrans(a: Option<ServerTable>, b: Option<ServerTable>, c: Option<ServerTable>, path: string, file: ConfigFile)
    requires SameMetadata(a, b, path, file) && SameMetadata(b, c, path, file)
    ensures SameMetadata(a, c, path, file)
  {
  }

  /** Writing one entry's defaults into the table changes no server's
      metadata. */
  lemma DefaultsKeepMetadataResult(t: ServerTable, name: string, path: string, file: ConfigFile)
    requires name in t.entries
    ensures SameMetadata(Some(t), Some(t.(entries := t.entries[name := WithDefaults(t.entries[name])])), path, file)
  {
    DefaultsKeepMetadata(t.entries[name]);
  }

  /** The enabled list names each server once, as the file's table does. */
  lemma {:induction false} EnabledDistinct(order: seq<string>, entries: map<string, ServerEntry>)
    requires forall n :: n in order ==> n in entries
    requires forall i, j :: 0 <= i < j < |order| ==> order[i] != order[j]
    ensures forall i, j :: 0 <= i < j < |EnabledAmong(order, entries)| ==>
      EnabledAmong(order, entries)[i] != EnabledAmong(order, entries)[j]
  {
    if order != [] {
      var tail := order[1..];
      assert forall i, j :: 0 <= i < j < |tail| ==> tail[i] == order[i + 1] && tail[j] == order[j + 1];
      EnabledDistinct(tail, entries);
      assert order[0] !in tail;
    }
  }

  /** The table `get_config` hands out: the cached one, else the file's. */
  function Cached(table: Option<ServerTable>, path: string, file: ConfigFile): ServerTable
    requires table.None? ==> LoadResult(path, file).Success?
  {
    if table.Some? then table.value else LoadResult(path, file).value
  }

  /** Filling in defaults twice changes nothing more. */
  lemma DefaultsIdempotent(e: ServerEntry)
    ensures WithDefaults(WithDefaults(e)) == WithDefaults(e)
  {
  }

  /** The defaults never touch what the metadata reports. */
  lemma DefaultsKeepMetadata(e: ServerEntry)
    ensures MetadataOf(WithDefaults(e)) == MetadataOf(e)
  {
  }

  /** Writing defaults into the cached table leaves the enabled list as it
      was: an absent "enabled" counts as true before and after. */
  lemma {:induction false} DefaultsKeepEnabled(order: seq<string>, entries: map<string, ServerEntry>, name: string)
    requires forall n :: n in order ==> n in entries
    requires name in entries
    ensures EnabledAmong(order, entries[name := WithDefaults(entries[name])]) == EnabledAmong(order, entries)
  {
    if order != [] {
      DefaultsKeepEnabled(order[1..], entries, name);
    }
  }

  /** The enabled list keeps file order: it is a subsequence of the names. */
  lemma {:induction false} EnabledInFileOrder(order: seq<string>, entries: map<string, ServerEntry>)
    requires forall n :: n in order ==> n in entries
    ensures IsSubsequence(EnabledAmong(order, entries), order)
  {
    if order != [] {
      EnabledInFileOrder(order[1..], entries);
    }
  }

  predicate IsSubsequence(xs: seq<string>, ys: seq<string>)
    decreases |ys|
  {
    if xs == [] then true
    else if ys == [] then false
    else if xs[0] == ys[0] then IsSubsequence(xs[1..], ys[1..])
    else IsSubsequence(xs, ys[1..])
  }
}
