/** The application configuration: a YAML file in the workspace whose
    "env." strings are replaced by environment variables, validated into
    typed sections, and held by one shared instance. Reading and parsing
    the file and validating its sections are oracles. */
module AppConfig {
  import opened Wrappers
  import opened Json
  import opened Strs

  datatype ModelProvider = ModelProvider(kind: string, name: string, baseUrl: Option<string>, apiKey: Option<string>)

  datatype ModelsConfig = ModelsConfig(provider: seq<ModelProvider>, default: string, fallback: seq<string>)

  datatype AgentInfo = AgentInfo(name: string, version: string, description: string)

  datatype ApiConfig = ApiConfig(host: string, port: int, debug: bool)

  datatype ConfigData = ConfigData(agent: AgentInfo, api: ApiConfig, models: ModelsConfig)

  /** A string that names an environment variable. */
  predicate IsEnvRef(s: string) {
    "env." <= s
  }

  /** No string anywhere in `j` names an environment variable. */
  predicate EnvFree(j: Json) {
    match j
    case Str(s) => !IsEnvRef(s)
    case Arr(items) => forall k :: 0 <= k < |items| ==> EnvFree(items[k])
    case Obj(fields) => forall key :: key in fields ==> EnvFree(fields[key])
    case _ => true
  }

  /** `_resolve_env_values`: dicts key by key and lists item by item; an
      "env." string becomes the named variable's value, or None when it is
      unset; everything else passes through. */
  function ResolveEnvValues(j: Json, env: map<string, string>): (r: Json)
    ensures j.Obj? ==> r.Obj? && r.fields.Keys == j.fields.Keys
    ensures j.Arr? ==> r.Arr? && |r.items| == |j.items|
    ensures j.Str? && IsEnvRef(j.s) ==> r == (if j.s[4..] in env then Str(env[j.s[4..]]) else Null)
    ensures !j.Obj? && !j.Arr? && !(j.Str? && IsEnvRef(j.s)) ==> r == j
  {
    match j
    case Obj(fields) => Obj(map key | key in fields :: ResolveEnvValues(fields[key], env))
    case Arr(items) => Arr(seq(|items|, k requires 0 <= k < |items| => ResolveEnvValues(items[k], env)))
    case Str(s) => if IsEnvRef(s) then (if s[4..] in env then Str(env[s[4..]]) else Null) else j
    case _ => j
  }

  /** A configuration without "env." strings is left as it is. */
  lemma {:induction false} EnvFreeUnchanged(j: Json, env: map<string, string>)
    requires EnvFree(j)
    ensures ResolveEnvValues(j, env) == j
  {
    match j
    case Obj(fields) =>
      forall key | key in fields
        ensures ResolveEnvValues(fields[key], env) == fields[key]
      {
        EnvFreeUnchanged(fields[key], env);
      }
      assert ResolveEnvValues(j, env).fields == fields;
    case Arr(items) =>
      forall k | 0 <= k < |items|
        ensures ResolveEnvValues(items[k], env) == items[k]
      {
        EnvFreeUnchanged(items[k], env);
      }
      assert ResolveEnvValues(j, env).items == items;
    case _ =>
  }

  /** When no variable's value itself starts with "env.", resolution
      leaves no reference behind, so resolving twice is resolving once. */
  lemma {:induction false} ResolutionIsComplete(j: Json, env: map<string, string>)
    requires forall v :: v in env.Values ==> !IsEnvRef(v)
    ensures EnvFree(ResolveEnvValues(j, env))
    ensures ResolveEnvValues(ResolveEnvValues(j, env), env) == ResolveEnvValues(j, env)
  {
    var r := ResolveEnvValues(j, env);
    match j {
    case Obj(fields) =>
      forall key | key in r.fields
        ensures EnvFree(r.fields[key])
      {
        ResolutionIsComplete(fields[key], env);
      }
    case Arr(items) =>
      forall k | 0 <= k < |r.items|
        ensures EnvFree(r.items[k])
      {
        ResolutionIsComplete(items[k], env);
      }
    case Str(s) =>
      if IsEnvRef(s) && s[4..] in env {
        assert env[s[4..]] in env.Values;
      }
    case _ =>
    }
    EnvFreeUnchanged(r, env);
  }

  /** `_resolve_workspace_path`: the explicit argument, then WORKSPACE_DIR,
      then "./workspace". */
  function ResolveWorkspacePath(explicit: Option<string>, env: map<string, string>): (path: string)
    ensures explicit.Some? ==> path == explicit.value
    ensures explicit.None? && "WORKSPACE_DIR" in env ==> path == env["WORKSPACE_DIR"]
    ensures explicit.None? && "WORKSPACE_DIR" !in env ==> path == "./workspace"
  {
    if explicit.Some? then explicit.value
    else if "WORKSPACE_DIR" in env then env["WORKSPACE_DIR"]
    else "./workspace"
  }

  /** The first provider with the given name. */
  function FirstProvider(providers: seq<ModelProvider>, name: string): (r: Option<ModelProvider>)
    ensures r.None? <==> forall k :: 0 <= k < |providers| ==> providers[k].name != name
    ensures r.Some? ==>
      exists k :: (0 <= k < |providers| && providers[k] == r.value && r.value.name == name
                   && forall j :: 0 <= j < k ==> providers[j].name != name)
  {
    if providers == [] then None
    else if providers[0].name == name then Some(providers[0])
    else
      var r := FirstProvider(providers[1..], name);
      assert forall k :: 0 < k < |providers| ==> providers[k] == providers[1..][k - 1];
      r
  }

  /** What the file system and YAML parser give for a path: None when no
      file exists there, else the parse outcome. */
  type Files = string -> Option<Result<Json>>

  /** The shared configuration object. */
  class Config {
    var workspacePath: string
    var configFile: string
    var raw: Json
    var data: Option<ConfigData>
    var initialized: bool

    /** An initialised object holds validated data. */
    ghost predicate Valid()
      reads this
    {
      initialized ==> data.Some?
    }

    /** `__new__` for the first time: an object not yet initialised. */
    constructor ()
      ensures Valid() && !initialized && data.None?
    {
      workspacePath, configFile, raw, data := "", "", Obj(map[]), None;
      initialized := false;
    }

    /** `_load`: a missing file is an error; an empty file is an empty
        mapping; the resolved mapping replaces `data` only when it
        validates. */
    method Load(env: map<string, string>, files: Files, validate: Json -> Result<ConfigData>) returns (r: Result<()>)
      modifies this
      ensures workspacePath == old(workspacePath) && configFile == old(configFile) && initialized == old(initialized)
      ensures old(data).Some? ==> data.Some?
      ensures files(configFile).None? ==>
        r == Failure("Configuration file not found: " + configFile) && data == old(data) && raw == old(raw)
      ensures files(configFile).Some? && files(configFile).value.Failure? ==>
        r == Failure(files(configFile).value.error) && data == old(data) && raw == old(raw)
      ensures files(configFile).Some? && files(configFile).value.Success? ==>
        var parsed := files(configFile).value.value;
        && raw == (if Truthy(parsed) then parsed else Obj(map[]))
        && match validate(ResolveEnvValues(raw, env))
           case Success(d) => r == Success(()) && data == Some(d)
           case Failure(e) => r == Failure(e) && data == old(data)
    {
      var file := files(configFile);
      if file.None? {
        return Failure("Configuration file not found: " + configFile);
      }
      if file.value.Failure? {
        return Failure(file.value.error);
      }
      var parsed := file.value.value;
      raw := if Truthy(parsed) then parsed else Obj(map[]);
      var checked := validate(ResolveEnvValues(raw, env));
      if checked.Failure? {
        return Failure(checked.error);
      }
      data := Some(checked.value);
      r := Success(());
    }

    /** What a first `__init__` leaves behind, by what reading `configFile`
        gives: a missing file raises "Configuration file not found: " and
        the path, a parse failure raises its own error, both with no data;
        otherwise the raw mapping (an empty file is {}) is kept, and the
        object holds the validated mapping after "env." resolution and is
        initialised, or holds no data and raises the validation error.
        `failure` is the error raised, None when none is. */
    ghost predicate FirstInit(failure: Option<string>, env: map<string, string>, files: Files,
                              validate: Json -> Result<ConfigData>)
      reads this
    {
      var file := files(configFile);
      if file.None? then
        failure == Some("Configuration file not found: " + configFile) && raw == Obj(map[]) && data.None? && !initialized
      else if file.value.Failure? then
        failure == Some(file.value.error) && raw == Obj(map[]) && data.None? && !initialized
      else
        var parsed := file.value.value;
        && raw == (if Truthy(parsed) then parsed else Obj(map[]))
        && match validate(ResolveEnvValues(raw, env))
           case Success(d) => failure.None? && data == Some(d) && initialized
           case Failure(e) => failure == Some(e) && data.None? && !initialized
    }

    /** `__init__`: does nothing once initialised; otherwise resolves the
        workspace and loads, and is initialised only if loading succeeded. */
    method Init(explicit: Option<string>, env: map<string, string>, files: Files, validate: Json -> Result<ConfigData>)
      returns (r: Result<()>)
      requires Valid()
      modifies this
      ensures Valid()
      ensures old(initialized) ==> r == Success(()) && unchanged(this)
      ensures !old(initialized) ==>
        && workspacePath == ResolveWorkspacePath(explicit, env)
        && configFile == workspacePath + "/config.yaml"
        && FirstInit(if r.Success? then None else Some(r.error), env, files, validate)
    {
      if initialized {
        return Success(());
      }
      workspacePath := ResolveWorkspacePath(explicit, env);
      configFile := workspacePath + "/config.yaml";
      raw := Obj(map[]);
      data := None;
      r := Load(env, files, validate);
      if r.Success? {
        initialized := true;
      }
    }

    /** The `data` property. */
    function Data(): (r: Result<ConfigData>)
      reads this
      ensures r.Success? <==> data.Some?
      ensures r.Failure? ==> r.error == "Configuration not loaded"
    {
      if data.None? then Failure("Configuration not loaded") else Success(data.value)
    }

    /** `get_model_provider`: the first provider with that name. */
    method GetModelProvider(name: string) returns (r: Result<Option<ModelProvider>>)
      ensures data.None? ==> r == Failure("Configuration not loaded")
      ensures data.Some? ==> r == Success(FirstProvider(data.value.models.provider, name))
    {
      if data.None? {
        return Failure("Configuration not loaded");
      }
      var providers := data.value.models.provider;
      for i := 0 to |providers|
        invariant forall k :: 0 <= k < i ==> providers[k].name != name
      {
        if providers[i].name == name {
          assert FirstProvider(providers, name) == Some(providers[i]) by {
            FirstNamedIsFirst(providers, name, i);
          }
          return Success(Some(providers[i]));
        }
      }
      r := Success(None);
    }

    /** `get_default_model_provider`: the provider named before the first
        '/' of the default model; None when the default has no '/'. */
    method GetDefaultModelProvider() returns (r: Result<Option<ModelProvider>>)
      ensures data.None? ==> r == Failure("Configuration not loaded")
      ensures data.Some? && '/' !in data.value.models.default ==> r == Success(None)
      ensures data.Some? && '/' in data.value.models.default ==>
        r == Success(FirstProvider(data.value.models.provider, SplitFirst(data.value.models.default, '/').0))
    {
      if data.None? {
        return Failure("Configuration not loaded");
      }
      var default := data.value.models.default;
      if '/' !in default {
        return Success(None);
      }
      r := GetModelProvider(SplitFirst(default, '/').0);
    }
  }

  /** A provider found by scanning in order is the first with its name. */
  lemma FirstNamedIsFirst(providers: seq<ModelProvider>, name: string, i: nat)
    requires i < |providers| && providers[i].name == name
    requires forall k :: 0 <= k < i ==> providers[k].name != name
    ensures FirstProvider(providers, name) == Some(providers[i])
  {
    var r := FirstProvider(providers, name);
    var k :| 0 <= k < |providers| && providers[k] == r.value && r.value.name == name
      && forall j :: 0 <= j < k ==> providers[j].name != name;
    assert k == i;
  }

  /** The class attribute `_instance`: the one configuration object. */
  class Registry {
    var instance: Option<Config>

    constructor ()
      ensures instance.None?
    {
      instance := None;
    }

    /** `Config(workspace_path)`: the shared object, made on first use and
        initialised until an initialisation succeeds; the argument is
        ignored once it has. */
    method Obtain(explicit: Option<string>, env: map<string, string>, files: Files, validate: Json -> Result<ConfigData>)
      returns (r: Result<Config>)
      requires instance.Some? ==> instance.value.Valid()
      modifies this, if instance.Some? then {instance.value} else {}
      ensures instance.Some? && instance.value.Valid()
      ensures old(instance).Some? ==> instance == old(instance)
      ensures old(instance).Some? && old(instance.value.initialized) ==>
        r == Success(instance.value) && unchanged(instance.value)
      ensures r.Success? ==> r.value == instance.value && r.value.initialized && r.value.data.Some?
      ensures r.Failure? ==> !instance.value.initialized
      ensures old(instance).None? || !old(instance.value.initialized) ==>
        && instance.value.workspacePath == ResolveWorkspacePath(explicit, env)
        && instance.value.configFile == instance.value.workspacePath + "/config.yaml"
        && instance.value.FirstInit(if r.Success? then None else Some(r.error), env, files, validate)
    {
      if instance.None? {
        var c := new Config();
        instance := Some(c);
      }
      var c := instance.value;
      var init := c.Init(explicit, env, files, validate);
      if init.Failure? {
        return Failure(init.error);
      }
      r := Success(c);
    }

    /** `reset_instance`: the next `Obtain` makes a new object. */
    method Reset()
      modifies this
      ensures instance.None?
    {
      instance := None;
    }
  }
}
