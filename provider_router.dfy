/** The LLM provider router: a request names a model ("provider/model" or a
    bare model), the configured fallback models follow it, and the models
    whose provider was registered are tried in order until one answers.
    What a provider does with a prompt is an oracle `attempt`. */
module ProviderRouter {
  import opened Wrappers
  import opened Strs
  import opened Schemas
  import opened AppConfig
  import opened LlmErrors

  /** A provider instance; the only kind is the OpenAI-compatible client,
      whose model is chosen per request. */
  datatype Provider = OpenAi(baseUrl: Option<string>, apiKey: string)

  /** The `name` every provider instance reports. */
  function ProviderName(p: Provider): string {
    "OpenAI"
  }

  /** `LLMProviderFactory.create_provider`. */
  function CreateProvider(c: ModelProvider): (r: Result<Provider>)
    ensures r.Success? <==> c.kind == "openai-compatible" && Filled(c.apiKey)
    ensures r.Success? ==> r.value == OpenAi(c.baseUrl, c.apiKey.value)
    ensures c.kind != "openai-compatible" ==> r == Failure("Unsupported provider type: " + c.kind)
    ensures c.kind == "openai-compatible" && !Filled(c.apiKey) ==>
      r == Failure("API key is required for provider: " + c.name)
  {
    if c.kind == "openai-compatible" then
      if !Filled(c.apiKey) then Failure("API key is required for provider: " + c.name)
      else Success(OpenAi(c.baseUrl, c.apiKey.value))
    else Failure("Unsupported provider type: " + c.kind)
  }

  /** The providers registered from `configs`, one at a time; a later
      configuration with the same name replaces an earlier one, and one that
      fails to build is skipped. */
  function Registered(configs: seq<ModelProvider>): map<string, Provider> {
    if configs == [] then map[]
    else
      var before := Registered(configs[..|configs| - 1]);
      var c := configs[|configs| - 1];
      match CreateProvider(c)
      case Success(p) => before[c.name := p]
      case Failure(_) => before
  }

  /** A name is registered exactly when some configuration with that name
      builds, and it holds the provider of the last such configuration. */
  lemma {:induction false} RegisteredProviders(configs: seq<ModelProvider>, name: string)
    ensures name in Registered(configs) <==>
      exists i :: 0 <= i < |configs| && configs[i].name == name && CreateProvider(configs[i]).Success?
    ensures forall i :: (0 <= i < |configs| && configs[i].name == name && CreateProvider(configs[i]).Success? &&
      (forall j :: i < j < |configs| && configs[j].name == name ==> CreateProvider(configs[j]).Failure?)) ==>
        name in Registered(configs) && Registered(configs)[name] == CreateProvider(configs[i]).value
  {
    if configs != [] {
      var n := |configs| - 1;
      var init := configs[..n];
      RegisteredProviders(init, name);
      assert forall i :: 0 <= i < n ==> init[i] == configs[i];
      if configs[n].name == name && CreateProvider(configs[n]).Success? {
        assert Registered(configs) == Registered(init)[name := CreateProvider(configs[n]).value];
      } else {
        assert name in Registered(configs) <==> name in Registered(init);
        if name in Registered(configs) {
          assert Registered(configs)[name] == Registered(init)[name];
        }
      }
    }
  }

  /** `_parse_model_string`: "p/m" splits at its first '/'; a bare model
      takes the provider of the default model when the default names one,
      and is its own provider otherwise. */
  function ParseModelString(s: string, default: string): (r: (string, string))
    ensures '/' in s ==> '/' !in r.0 && r.0 + "/" + r.1 == s
    ensures '/' !in s && '/' in default ==> r.1 == s && '/' !in r.0 && r.0 + "/" <= default
    ensures '/' !in s && '/' !in default ==> r == (s, s)
  {
    if '/' in s then SplitFirst(s, '/')
    else if '/' in default then
      var d := SplitFirst(default, '/');
      assert d.0 + "/" + d.1 == default;
      (d.0, s)
    else (s, s)
  }

  /** The model strings of a request: the primary model when it is not
      empty, then each fallback model not already listed. */
  function ModelStrings(primary: string, fallback: seq<string>): seq<string> {
    if fallback == [] then (if primary != "" then [primary] else [])
    else
      var before := ModelStrings(primary, fallback[..|fallback| - 1]);
      var f := fallback[|fallback| - 1];
      if f in before then before else before + [f]
  }

  /** The list starts with a non-empty primary, holds exactly the primary
      and the fallbacks, and names none twice. */
  lemma {:induction false} ModelStringsShape(primary: string, fallback: seq<string>)
    ensures primary != "" ==> |ModelStrings(primary, fallback)| > 0 && ModelStrings(primary, fallback)[0] == primary
    ensures forall m :: m in ModelStrings(primary, fallback) <==> (m == primary && primary != "") || m in fallback
    ensures forall i, j :: 0 <= i < j < |ModelStrings(primary, fallback)| ==>
      ModelStrings(primary, fallback)[i] != ModelStrings(primary, fallback)[j]
  {
    if fallback != [] {
      var init := fallback[..|fallback| - 1];
      ModelStringsShape(primary, init);
      assert fallback == init + [fallback[|fallback| - 1]];
    }
  }

  /** The first loop of `_build_model_chain`. */
  method CollectModelStrings(primary: string, fallback: seq<string>) returns (strings: seq<string>)
    ensures strings == ModelStrings(primary, fallback)
  {
    strings := if primary != "" then [primary] else [];
    for i := 0 to |fallback|
      invariant strings == ModelStrings(primary, fallback[..i])
    {
      assert fallback[..i + 1][..i] == fallback[..i];
      if fallback[i] !in strings {
        strings := strings + [fallback[i]];
      }
    }
    assert fallback[..|fallback|] == fallback;
  }

  /** The chain for a list of model strings: the ones whose provider is
      registered, in order, paired with their model names. */
  function Chain(strings: seq<string>, providers: map<string, Provider>, default: string): (r: seq<(Provider, string)>)
    ensures |r| <= |strings|
  {
    if strings == [] then []
    else
      var before := Chain(strings[..|strings| - 1], providers, default);
      var parsed := ParseModelString(strings[|strings| - 1], default);
      if parsed.0 in providers then before + [(providers[parsed.0], parsed.1)] else before
  }

  /** Dropping unregistered entries never reorders the others: the chain of
      two lists is the chain of the first followed by that of the second. */
  lemma {:induction false} ChainConcat(a: seq<string>, b: seq<string>, providers: map<string, Provider>, default: string)
    ensures Chain(a + b, providers, default) == Chain(a, providers, default) + Chain(b, providers, default)
    decreases |b|
  {
    if b == [] {
      assert a + b == a;
    } else {
      var init := b[..|b| - 1];
      ChainConcat(a, init, providers, default);
      assert (a + b)[..|a + b| - 1] == a + init;
      assert (a + b)[|a + b| - 1] == b[|b| - 1];
    }
  }

  /** One model string adds one entry exactly when its provider is registered. */
  lemma SingleChain(s: string, providers: map<string, Provider>, default: string)
    ensures var parsed := ParseModelString(s, default);
      Chain([s], providers, default) == if parsed.0 in providers then [(providers[parsed.0], parsed.1)] else []
  {
    assert [s][..0] == [];
  }

  /** The "provider/model" names listed in an error. */
  function Names(chain: seq<(Provider, string)>): (r: seq<string>)
    ensures |r| == |chain|
    ensures forall k :: 0 <= k < |chain| ==> r[k] == ProviderName(chain[k].0) + "/" + chain[k].1
  {
    seq(|chain|, k requires 0 <= k < |chain| => ProviderName(chain[k].0) + "/" + chain[k].1)
  }

  /** The answer of a routed call, or the error raised when there is none. */
  datatype Outcome<T> = Answered(value: T) | AllFailed(error: AllProvidersFailed)

  /** The message when every model of a non-empty chain failed. */
  function ExhaustedMessage(n: nat): string {
    "All models failed after trying " + IntToString(n) + " model(s)."
  }

  /** The error for a chain with no entries. */
  function EmptyChainError(): AllProvidersFailed {
    NewAllProvidersFailed("No providers available in the chain", None, Some([]))
  }

  /** The fallback loop of `invoke`, `invoke_with_usage` and
      `invoke_structured`: the entries are tried in order with their own
      model names; the first answer is returned and no later entry is tried.
      `tried` counts the attempts made. */
  method Fallback<T>(chain: seq<(Provider, string)>, attempt: (Provider, string) -> Result<T>)
    returns (r: Outcome<T>, ghost tried: nat)
    ensures tried <= |chain|
    ensures forall k :: 0 <= k < tried - 1 ==> attempt(chain[k].0, chain[k].1).Failure?
    ensures chain == [] ==> r == AllFailed(EmptyChainError())
    ensures r.Answered? ==> 0 < tried && attempt(chain[tried - 1].0, chain[tried - 1].1) == Success(r.value)
    ensures r.AllFailed? && chain != [] ==>
      && tried == |chain|
      && attempt(chain[tried - 1].0, chain[tried - 1].1).Failure?
      && r.error == NewAllProvidersFailed(ExhaustedMessage(|chain|),
           Some(attempt(chain[|chain| - 1].0, chain[|chain| - 1].1).error), Some(Names(chain)))
  {
    tried := 0;
    var names := Names(chain);
    if chain == [] {
      return AllFailed(NewAllProvidersFailed("No providers available in the chain", None, Some(names))), 0;
    }
    var lastError: Option<string> := None;
    var i := 0;
    while i < |chain|
      invariant 0 <= i <= |chain| && tried == i
      invariant forall k :: 0 <= k < i ==> attempt(chain[k].0, chain[k].1).Failure?
      invariant i > 0 ==> lastError == Some(attempt(chain[i - 1].0, chain[i - 1].1).error)
    {
      var provider, model := chain[i].0, chain[i].1;
      var result := attempt(provider, model);
      tried := i + 1;
      if result.Success? {
        return Answered(result.value), tried;
      }
      lastError := Some(result.error);
      i := i + 1;
    }
    r := AllFailed(NewAllProvidersFailed(ExhaustedMessage(|chain|), lastError, Some(names)));
  }

  /** What one streaming attempt emitted before it finished or failed. */
  datatype StreamRun = StreamRun(tokens: seq<string>, error: Option<string>)

  /** The tokens emitted by streaming over `chain`: each attempt's tokens are
      passed on as they come, including those of an attempt that then fails. */
  function Emitted(chain: seq<(Provider, string)>, stream: (Provider, string) -> StreamRun): seq<string> {
    if chain == [] then []
    else
      var run := stream(chain[0].0, chain[0].1);
      if run.error.None? then run.tokens else run.tokens + Emitted(chain[1..], stream)
  }

  /** The fallback loop of `astream`; `r` is the error raised at the end,
      if any. */
  method Stream(chain: seq<(Provider, string)>, stream: (Provider, string) -> StreamRun)
    returns (tokens: seq<string>, r: Option<AllProvidersFailed>)
    ensures tokens == Emitted(chain, stream)
    ensures chain == [] ==> r == Some(EmptyChainError())
    ensures chain != [] ==>
      (r.None? <==> exists k :: 0 <= k < |chain| && stream(chain[k].0, chain[k].1).error.None?)
    ensures r.Some? && chain != [] ==>
      r.value == NewAllProvidersFailed(
        "All models failed during streaming after trying " + IntToString(|chain|) + " model(s).",
        stream(chain[|chain| - 1].0, chain[|chain| - 1].1).error, Some(Names(chain)))
  {
    tokens := [];
    var names := Names(chain);
    if chain == [] {
      return [], Some(NewAllProvidersFailed("No providers available in the chain", None, Some(names)));
    }
    var lastError: Option<string> := None;
    var i := 0;
    while i < |chain|
      invariant 0 <= i <= |chain|
      invariant forall k :: 0 <= k < i ==> stream(chain[k].0, chain[k].1).error.Some?
      invariant tokens + Emitted(chain[i..], stream) == Emitted(chain, stream)
      invariant i > 0 ==> lastError == stream(chain[i - 1].0, chain[i - 1].1).error
    {
      var run := stream(chain[i].0, chain[i].1);
      if run.error.None? {
        tokens := tokens + run.tokens;
        return tokens, None;
      }
      tokens := tokens + run.tokens;
      lastError := run.error;
      assert chain[i..][1..] == chain[i + 1..];
      i := i + 1;
    }
    assert chain[i..] == [];
    r := Some(NewAllProvidersFailed(
      "All models failed during streaming after trying " + IntToString(|chain|) + " model(s).",
      lastError, Some(names)));
  }

  /** Tokens a failed attempt already emitted stay in the output: when the
      first model fails after emitting `t`, the stream starts with `t`. */
  lemma FailedAttemptTokensStay(chain: seq<(Provider, string)>, stream: (Provider, string) -> StreamRun)
    requires chain != [] && stream(chain[0].0, chain[0].1).error.Some?
    ensures stream(chain[0].0, chain[0].1).tokens <= Emitted(chain, stream)
  {
  }

  /** The router: the providers built once from the configuration; every
      request reads the models section it was built from. */
  class Router {
    const models: ModelsConfig
    var providers: map<string, Provider>

    /** `__init__` and `_initialize_providers`. */
    constructor(models: ModelsConfig)
      ensures this.models == models
      ensures providers == Registered(models.provider)
    {
      this.models := models;
      var ps: map<string, Provider> := map[];
      var configs := models.provider;
      for i := 0 to |configs|
        invariant ps == Registered(configs[..i])
      {
        assert configs[..i + 1][..i] == configs[..i];
        var created := CreateProvider(configs[i]);
        if created.Success? {
          ps := ps[configs[i].name := created.value];
        }
      }
      assert configs[..|configs|] == configs;
      providers := ps;
    }

    /** `_build_model_chain`: the model strings, then their registered
        entries. */
    method BuildModelChain(primary: string) returns (chain: seq<(Provider, string)>)
      ensures chain == Chain(ModelStrings(primary, models.fallback), providers, models.default)
    {
      var strings := CollectModelStrings(primary, models.fallback);
      chain := [];
      for i := 0 to |strings|
        invariant chain == Chain(strings[..i], providers, models.default)
      {
        assert strings[..i + 1][..i] == strings[..i];
        var parsed := ParseModelString(strings[i], models.default);
        if parsed.0 in providers {
          chain := chain + [(providers[parsed.0], parsed.1)];
        }
      }
      assert strings[..|strings|] == strings;
    }

    /** `invoke`, `invoke_with_usage` and `invoke_structured`: the request's
        model (the configured default when none is given) heads the chain. */
    method Invoke<T>(requested: Option<string>, attempt: (Provider, string) -> Result<T>)
      returns (r: Outcome<T>, chain: seq<(Provider, string)>, ghost tried: nat)
      ensures chain == Chain(ModelStrings(requested.GetOr(models.default), models.fallback), providers, models.default)
      ensures tried <= |chain|
      ensures forall k :: 0 <= k < tried - 1 ==> attempt(chain[k].0, chain[k].1).Failure?
      ensures chain == [] ==> r == AllFailed(EmptyChainError())
      ensures r.Answered? ==> 0 < tried && attempt(chain[tried - 1].0, chain[tried - 1].1) == Success(r.value)
      ensures r.AllFailed? && chain != [] ==>
        && tried == |chain|
        && attempt(chain[|chain| - 1].0, chain[|chain| - 1].1).Failure?
        && r.error == NewAllProvidersFailed(ExhaustedMessage(|chain|),
             Some(attempt(chain[|chain| - 1].0, chain[|chain| - 1].1).error), Some(Names(chain)))
    {
      chain := BuildModelChain(requested.GetOr(models.default));
      r, tried := Fallback(chain, attempt);
    }
  }
}
