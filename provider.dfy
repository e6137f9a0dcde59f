/**
 * Provider selection of src/agent/provider.ts: which environment variable
 * holds each vendor's key, the default model per vendor, API-key resolution
 * and `createProvider`. The process environment is the parameter `env`; the
 * vendor SDK objects are `ModelHandle` values naming what would be built.
 */
module ProviderModel {
  import opened Common

  datatype ProviderType = Anthropic | OpenAI | Google | Groq | Mistral | Custom

  /** The provider's name as it appears in configuration and messages. */
  function ProviderName(p: ProviderType): string {
    match p
    case Anthropic => "anthropic"
    case OpenAI => "openai"
    case Google => "google"
    case Groq => "groq"
    case Mistral => "mistral"
    case Custom => "custom"
  }

  /** `ModelConfig`; an absent optional field is `None`. */
  datatype ModelConfig = ModelConfig(provider: ProviderType, name: string, apiKey: Option<string>, baseUrl: Option<string>)

  /** The language model `createProvider` builds: a vendor SDK model, or an OpenAI-compatible client at `baseURL`. */
  datatype ModelHandle =
    | VendorModel(vendor: ProviderType, modelName: string)
    | CompatibleModel(baseURL: string, apiKey: string, modelName: string)

  datatype Provider = Provider(model: ModelHandle, name: string, provider: ProviderType)

  /** `getApiKeyEnv`: no two providers share a variable, and each ends in `_API_KEY`. */
  function GetApiKeyEnv(p: ProviderType): (v: string)
    ensures |v| > 8 && v[|v| - 8..] == "_API_KEY"
  {
    match p
    case Anthropic => "ANTHROPIC_API_KEY"
    case OpenAI => "OPENAI_API_KEY"
    case Google => "GOOGLE_GENERATIVE_AI_API_KEY"
    case Groq => "GROQ_API_KEY"
    case Mistral => "MISTRAL_API_KEY"
    case Custom => "CUSTOM_API_KEY"
  }

  /** `getDefaultModel` */
  function GetDefaultModel(p: ProviderType): (m: string)
    ensures m != ""
  {
    match p
    case Anthropic => "claude-sonnet-4-20250514"
    case OpenAI => "gpt-4o"
    case Google => "gemini-2.0-flash"
    case Groq => "llama-3.3-70b-versatile"
    case Mistral => "mistral-large-latest"
    case Custom => "default"
  }

  /** A JavaScript string is truthy exactly when it is non-empty; an absent value is falsy. */
  predicate Truthy(v: Option<string>) {
    v.Some? && v.value != ""
  }

  function EnvLookup(env: map<string, string>, name: string): Option<string> {
    if name in env then Some(env[name]) else None
  }

  function MissingKeyMessage(p: ProviderType): string {
    "API key required for " + ProviderName(p) + ". Set " + GetApiKeyEnv(p) + " env var."
  }

  /** `resolveApiKey`: the configured key when non-empty, else the provider's environment variable when non-empty, else an error. */
  function ResolveApiKey(config: ModelConfig, env: map<string, string>): (r: Result<string, string>)
    ensures r.Ok? <==> Truthy(config.apiKey) || Truthy(EnvLookup(env, GetApiKeyEnv(config.provider)))
    ensures r.Ok? ==> r.value != ""
    ensures r.Ok? && Truthy(config.apiKey) ==> r.value == config.apiKey.value
    ensures r.Ok? && !Truthy(config.apiKey) ==> r.value == env[GetApiKeyEnv(config.provider)]
    ensures r.Err? ==> r.error == MissingKeyMessage(config.provider)
  {
    var fromEnv := EnvLookup(env, GetApiKeyEnv(config.provider));
    var apiKey := if Truthy(config.apiKey) then config.apiKey else fromEnv;
    if !Truthy(apiKey) then Err(MissingKeyMessage(config.provider))
    else Ok(apiKey.value)
  }

  const BaseUrlRequired := "baseUrl is required for custom provider"

  /** `createProvider`: the key is resolved first for every provider; only the custom client receives it. */
  function CreateProvider(config: ModelConfig, env: map<string, string>): (r: Result<Provider, string>)
    ensures r.Ok? ==> r.value.name == config.name && r.value.provider == config.provider
  {
    match ResolveApiKey(config, env)
    case Err(e) => Err(e)
    case Ok(apiKey) =>
      if config.provider == Custom then
        if !Truthy(config.baseUrl) then Err(BaseUrlRequired)
        else Ok(Provider(CompatibleModel(config.baseUrl.value, apiKey, config.name), config.name, Custom))
      else Ok(Provider(VendorModel(config.provider, config.name), config.name, config.provider))
  }

  // ---------------------------------------------------------------- properties

  /** Different providers read different environment variables. */
  lemma ApiKeyEnvDistinct(p: ProviderType, q: ProviderType)
    requires p != q
    ensures GetApiKeyEnv(p) != GetApiKeyEnv(q)
  {
    var a, b := GetApiKeyEnv(p), GetApiKeyEnv(q);
    if |a| == |b| {
      // The equal-length pairs differ in their first character.
      assert a[0] != b[0];
    }
  }

  /**
   * `createProvider` succeeds exactly when a key resolves and, for the custom
   * provider, a non-empty `baseUrl` is given; a missing key is reported first,
   * even when `baseUrl` is missing too.
   */
  lemma CreateProviderSucceedsIff(config: ModelConfig, env: map<string, string>)
    ensures var r := CreateProvider(config, env);
            (r.Ok? <==> ResolveApiKey(config, env).Ok? && (config.provider == Custom ==> Truthy(config.baseUrl))) &&
            (ResolveApiKey(config, env).Err? ==> r == Err(MissingKeyMessage(config.provider))) &&
            (ResolveApiKey(config, env).Ok? && config.provider == Custom && !Truthy(config.baseUrl) ==> r == Err(BaseUrlRequired))
  {
  }

  /** Only the custom client is handed the resolved key and base URL; vendor models are built from the model name alone. */
  lemma KeyReachesOnlyCustom(config: ModelConfig, env: map<string, string>)
    requires CreateProvider(config, env).Ok?
    ensures var m := CreateProvider(config, env).value.model;
            (config.provider == Custom <==> m.CompatibleModel?) &&
            (m.CompatibleModel? ==> m.apiKey == ResolveApiKey(config, env).value && m.baseURL == config.baseUrl.value) &&
            (m.VendorModel? ==> m == VendorModel(config.provider, config.name))
  {
  }

  /** An empty configured key does not shadow the environment. */
  lemma EmptyConfiguredKeyFallsBack(config: ModelConfig, env: map<string, string>)
    requires config.apiKey == Some("")
    ensures ResolveApiKey(config, env) == ResolveApiKey(config.(apiKey := None), env)
  {
  }

  /** The provider tests: a key in the environment builds the anthropic model; no key for openai is an "API key required" error. */
  lemma ProviderScenarios()
    ensures CreateProvider(ModelConfig(Anthropic, "claude-3-sonnet-20240229", None, None), map["ANTHROPIC_API_KEY" := "test-key"])
            == Ok(Provider(VendorModel(Anthropic, "claude-3-sonnet-20240229"), "claude-3-sonnet-20240229", Anthropic))
    ensures var r := CreateProvider(ModelConfig(OpenAI, "gpt-4", None, None), map[]);
            r.Err? && Contains(r.error, "API key required")
  {
    var m := MissingKeyMessage(OpenAI);
    assert m[..16] == "API key required";
    ContainsAt(m, "API key required", 0);
  }
}
