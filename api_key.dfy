/**
 * The credential and base-URL resolvers of app/lib/.server/llm/api-key.ts.
 *
 * Both environments (the Node process environment and the Cloudflare
 * binding) are read-only maps from variable name to value. The shared
 * collaborator `getProviderBaseUrlAndKey` is a function-typed parameter:
 * nothing is assumed about what it returns.
 */
module ApiKey {
  import opened Wrappers
  import opened JsSemantics

  /** An environment: the process `env` or the platform's `cloudflareEnv`. */
  type Env = map<string, string>

  /** The part of `IProviderSetting` the resolvers read. */
  datatype ProviderSetting = ProviderSetting(baseUrl: Option<string>)

  /** The argument object passed to `getProviderBaseUrlAndKey`. */
  datatype LookupRequest = LookupRequest(
    provider: string,
    apiKeys: Option<map<string, string>>,
    providerSettings: Option<map<string, ProviderSetting>>,
    serverEnv: Env,
    defaultBaseUrlKey: string,
    defaultApiTokenKey: string)

  /** What `getProviderBaseUrlAndKey` returns; both fields may be undefined. */
  datatype ProviderConfig = ProviderConfig(baseUrl: Option<string>, apiKey: Option<string>)

  /** The collaborator `getProviderBaseUrlAndKey`, whose definition is not part of this model. */
  type ProviderLookup = LookupRequest -> ProviderConfig

  /** The error `getBaseURL` throws: `.baseUrl` read on an undefined settings entry. */
  datatype UrlError = UndefinedProviderSetting

  /** `e.NAME`: the variable's value, or undefined when it is not set. */
  function EnvValue(e: Env, name: string): Option<string> {
    if name in e then Some(e[name]) else None
  }

  /** `userApiKeys?.[provider]`. */
  function UserKey(userApiKeys: Option<map<string, string>>, provider: string): Option<string> {
    if userApiKeys.Some? && provider in userApiKeys.value then Some(userApiKeys.value[provider]) else None
  }

  /** The request `getAPIKey` sends to the collaborator. */
  function KeyLookupRequest(cloudflareEnv: Env, provider: string, userApiKeys: Option<map<string, string>>): LookupRequest {
    LookupRequest(provider, userApiKeys, None, cloudflareEnv, "", "")
  }

  /** The request `getBaseURL` sends to the collaborator: no user keys, the caller's settings. */
  function UrlLookupRequest(cloudflareEnv: Env, provider: string, providerSettings: Option<map<string, ProviderSetting>>): LookupRequest {
    LookupRequest(provider, Some(map[]), providerSettings, cloudflareEnv, "", "")
  }

  const RunningInDocker := "RUNNING_IN_DOCKER"
  const Localhost := "localhost"
  const DockerHost := "host.docker.internal"
  const TogetherDefault := "https://api.together.xyz/v1"
  const LMStudioDefault := "http://localhost:1234"
  const OllamaDefault := "http://localhost:11434"

  /** `getAPIKey(cloudflareEnv, provider, userApiKeys)`, reading the process environment `env`. */
  function GetAPIKey(cloudflareEnv: Env, env: Env, provider: string,
                     userApiKeys: Option<map<string, string>>, lookup: ProviderLookup): Option<string>
  {
    var userKey := UserKey(userApiKeys, provider);
    if Truthy(userKey) then userKey
    else
      var apiKey := lookup(KeyLookupRequest(cloudflareEnv, provider, userApiKeys)).apiKey;
      if Truthy(apiKey) then apiKey
      else KeyFromEnvironment(cloudflareEnv, env, provider)
  }

  /** The `switch (provider)` of `getAPIKey`: the hardcoded environment variable names. */
  function KeyFromEnvironment(cloudflareEnv: Env, env: Env, provider: string): Option<string> {
    match provider
    case "Anthropic" => FirstTruthy([EnvValue(env, "ANTHROPIC_API_KEY"), EnvValue(cloudflareEnv, "ANTHROPIC_API_KEY")])
    case "OpenAI" => FirstTruthy([EnvValue(env, "OPENAI_API_KEY"), EnvValue(cloudflareEnv, "OPENAI_API_KEY")])
    case "Google" => FirstTruthy([EnvValue(env, "GOOGLE_GENERATIVE_AI_API_KEY"), EnvValue(cloudflareEnv, "GOOGLE_GENERATIVE_AI_API_KEY")])
    case "Groq" => FirstTruthy([EnvValue(env, "GROQ_API_KEY"), EnvValue(cloudflareEnv, "GROQ_API_KEY")])
    case "HuggingFace" => FirstTruthy([EnvValue(env, "HuggingFace_API_KEY"), EnvValue(cloudflareEnv, "HuggingFace_API_KEY")])
    case "OpenRouter" => FirstTruthy([EnvValue(env, "OPEN_ROUTER_API_KEY"), EnvValue(cloudflareEnv, "OPEN_ROUTER_API_KEY")])
    case "Mistral" => FirstTruthy([EnvValue(env, "MISTRAL_API_KEY"), EnvValue(cloudflareEnv, "MISTRAL_API_KEY")])
    case "OpenAILike" => FirstTruthy([EnvValue(env, "OPENAI_LIKE_API_KEY"), EnvValue(cloudflareEnv, "OPENAI_LIKE_API_KEY")])
    case "Together" => FirstTruthy([EnvValue(env, "TOGETHER_API_KEY"), EnvValue(cloudflareEnv, "TOGETHER_API_KEY")])
    case "xAI" => FirstTruthy([EnvValue(env, "XAI_API_KEY"), EnvValue(cloudflareEnv, "XAI_API_KEY")])
    case "Perplexity" => FirstTruthy([EnvValue(env, "PERPLEXITY_API_KEY"), EnvValue(cloudflareEnv, "PERPLEXITY_API_KEY")])
    case "Cohere" => EnvValue(env, "COHERE_API_KEY")
    case "AzureOpenAI" => EnvValue(env, "AZURE_OPENAI_API_KEY")
    case _ => Some("")
  }

  /** `providerSettings?.[provider].baseUrl`: the optional chain stops only at `providerSettings`. */
  function SettingBaseUrl(providerSettings: Option<map<string, ProviderSetting>>, provider: string): Result<Option<string>, UrlError> {
    if providerSettings.None? then Success(None)
    else if provider !in providerSettings.value then Failure(UndefinedProviderSetting)
    else Success(providerSettings.value[provider].baseUrl)
  }

  /**
   * The guard `if (settingBaseUrl && settingBaseUrl.length == 0)`: a truthy
   * string is never of length zero, so the override is never reset.
   */
  function NormalizeSetting(setting: Option<string>): (r: Option<string>)
    ensures r == setting
  {
    if Truthy(setting) && |setting.value| == 0 then None else setting
  }

  /** Ollama's chain, then the rewrite of `localhost` when the process runs in Docker. */
  function OllamaBaseUrl(cloudflareEnv: Env, env: Env, settingBaseUrl: Option<string>): Option<string> {
    var chain := [settingBaseUrl, EnvValue(env, "OLLAMA_API_BASE_URL"), EnvValue(cloudflareEnv, "OLLAMA_API_BASE_URL"), Some(OllamaDefault)];
    assert Truthy(chain[3]);
    var baseUrl := FirstTruthy(chain).value;
    if EnvValue(env, RunningInDocker) == Some("true") then Some(ReplaceFirst(baseUrl, Localhost, DockerHost))
    else Some(baseUrl)
  }

  /** `getBaseURL(cloudflareEnv, provider, providerSettings)`, reading the process environment `env`. */
  function GetBaseURL(cloudflareEnv: Env, env: Env, provider: string,
                      providerSettings: Option<map<string, ProviderSetting>>, lookup: ProviderLookup): Result<Option<string>, UrlError>
  {
    var baseUrl := lookup(UrlLookupRequest(cloudflareEnv, provider, providerSettings)).baseUrl;
    if Truthy(baseUrl) then Success(baseUrl)
    else
      match SettingBaseUrl(providerSettings, provider)
      case Failure(e) => Failure(e)
      case Success(setting) =>
        Success(UrlFromEnvironment(cloudflareEnv, env, provider, NormalizeSetting(setting)))
  }

  /** The `switch (provider)` of `getBaseURL`, after the settings override has been read. */
  function UrlFromEnvironment(cloudflareEnv: Env, env: Env, provider: string, settingBaseUrl: Option<string>): Option<string> {
    match provider
    case "Together" =>
      FirstTruthy([settingBaseUrl, EnvValue(env, "TOGETHER_API_BASE_URL"), EnvValue(cloudflareEnv, "TOGETHER_API_BASE_URL"), Some(TogetherDefault)])
    case "OpenAILike" =>
      FirstTruthy([settingBaseUrl, EnvValue(env, "OPENAI_LIKE_API_BASE_URL"), EnvValue(cloudflareEnv, "OPENAI_LIKE_API_BASE_URL")])
    case "LMStudio" =>
      FirstTruthy([settingBaseUrl, EnvValue(env, "LMSTUDIO_API_BASE_URL"), EnvValue(cloudflareEnv, "LMSTUDIO_API_BASE_URL"), Some(LMStudioDefault)])
    case "Ollama" => OllamaBaseUrl(cloudflareEnv, env, settingBaseUrl)
    case _ => Some("")
  }

  // ---------------------------------------------------------------------
  // The provider switches as declarative tables: the reference definitions
  // the resolvers are proved against.
  // ---------------------------------------------------------------------

  /** A credential variable; `platformFallback` says whether `cloudflareEnv` is read after `env`. */
  datatype KeyVar = KeyVar(name: string, platformFallback: bool)

  const KeyVars: map<string, KeyVar> := map[
    "Anthropic" := KeyVar("ANTHROPIC_API_KEY", true),
    "OpenAI" := KeyVar("OPENAI_API_KEY", true),
    "Google" := KeyVar("GOOGLE_GENERATIVE_AI_API_KEY", true),
    "Groq" := KeyVar("GROQ_API_KEY", true),
    "HuggingFace" := KeyVar("HuggingFace_API_KEY", true),
    "OpenRouter" := KeyVar("OPEN_ROUTER_API_KEY", true),
    "Mistral" := KeyVar("MISTRAL_API_KEY", true),
    "OpenAILike" := KeyVar("OPENAI_LIKE_API_KEY", true),
    "Together" := KeyVar("TOGETHER_API_KEY", true),
    "xAI" := KeyVar("XAI_API_KEY", true),
    "Perplexity" := KeyVar("PERPLEXITY_API_KEY", true),
    "Cohere" := KeyVar("COHERE_API_KEY", false),
    "AzureOpenAI" := KeyVar("AZURE_OPENAI_API_KEY", false)]

  /** The environment candidates for a provider's credential, in the order they are tried. */
  function KeyEnvCandidates(cloudflareEnv: Env, env: Env, provider: string): seq<Option<string>> {
    if provider in KeyVars then
      var v := KeyVars[provider];
      if v.platformFallback then [EnvValue(env, v.name), EnvValue(cloudflareEnv, v.name)] else [EnvValue(env, v.name)]
    else [Some("")]
  }

  /** Every source of a credential, in precedence order. */
  function KeyCandidates(cloudflareEnv: Env, env: Env, provider: string,
                         userApiKeys: Option<map<string, string>>, lookup: ProviderLookup): seq<Option<string>> {
    [UserKey(userApiKeys, provider), lookup(KeyLookupRequest(cloudflareEnv, provider, userApiKeys)).apiKey]
      + KeyEnvCandidates(cloudflareEnv, env, provider)
  }

  /** A base-URL variable and the provider's hardcoded default, if it has one. */
  datatype UrlVar = UrlVar(name: string, default: Option<string>)

  const UrlVars: map<string, UrlVar> := map[
    "Together" := UrlVar("TOGETHER_API_BASE_URL", Some(TogetherDefault)),
    "OpenAILike" := UrlVar("OPENAI_LIKE_API_BASE_URL", None),
    "LMStudio" := UrlVar("LMSTUDIO_API_BASE_URL", Some(LMStudioDefault)),
    "Ollama" := UrlVar("OLLAMA_API_BASE_URL", Some(OllamaDefault))]

  /** The sources of a base URL after the collaborator, in precedence order. */
  function UrlCandidates(cloudflareEnv: Env, env: Env, provider: string, setting: Option<string>): seq<Option<string>> {
    if provider in UrlVars then
      var v := UrlVars[provider];
      if v.default.Some? then [setting, EnvValue(env, v.name), EnvValue(cloudflareEnv, v.name), v.default]
      else [setting, EnvValue(env, v.name), EnvValue(cloudflareEnv, v.name)]
    else [Some("")]
  }

  /** The Docker rewrite: Ollama only, triggered by the process environment alone. */
  function DockerRewrite(env: Env, provider: string, url: Option<string>): Option<string> {
    if provider == "Ollama" && EnvValue(env, RunningInDocker) == Some("true") && url.Some?
    then Some(ReplaceFirst(url.value, Localhost, DockerHost))
    else url
  }

  /** The override read from the settings, undefined when there is no entry for the provider. */
  function SettingOverride(providerSettings: Option<map<string, ProviderSetting>>, provider: string): Option<string> {
    if providerSettings.Some? && provider in providerSettings.value then providerSettings.value[provider].baseUrl else None
  }
}
