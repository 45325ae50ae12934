/** What the two resolvers of app/lib/.server/llm/api-key.ts promise, proved about the model. */
module ApiKeyProperties {
  import opened Wrappers
  import opened JsSemantics
  import opened ApiKey

  // ---------------------------------------------------------------------
  // getAPIKey
  // ---------------------------------------------------------------------

  /** The hardcoded switch of `getAPIKey` agrees with the key table. */
  lemma KeySwitchFollowsKeyTable(cloudflareEnv: Env, env: Env, provider: string)
    ensures KeyFromEnvironment(cloudflareEnv, env, provider) == FirstTruthy(KeyEnvCandidates(cloudflareEnv, env, provider))
  {
    match provider
    case "Anthropic" => assert KeyVars[provider] == KeyVar("ANTHROPIC_API_KEY", true);
    case "OpenAI" => assert KeyVars[provider] == KeyVar("OPENAI_API_KEY", true);
    case "Google" => assert KeyVars[provider] == KeyVar("GOOGLE_GENERATIVE_AI_API_KEY", true);
    case "Groq" => assert KeyVars[provider] == KeyVar("GROQ_API_KEY", true);
    case "HuggingFace" => assert KeyVars[provider] == KeyVar("HuggingFace_API_KEY", true);
    case "OpenRouter" => assert KeyVars[provider] == KeyVar("OPEN_ROUTER_API_KEY", true);
    case "Mistral" => assert KeyVars[provider] == KeyVar("MISTRAL_API_KEY", true);
    case "OpenAILike" => assert KeyVars[provider] == KeyVar("OPENAI_LIKE_API_KEY", true);
    case "Together" => assert KeyVars[provider] == KeyVar("TOGETHER_API_KEY", true);
    case "xAI" => assert KeyVars[provider] == KeyVar("XAI_API_KEY", true);
    case "Perplexity" => assert KeyVars[provider] == KeyVar("PERPLEXITY_API_KEY", true);
    case "Cohere" => assert KeyVars[provider] == KeyVar("COHERE_API_KEY", false);
    case "AzureOpenAI" => assert KeyVars[provider] == KeyVar("AZURE_OPENAI_API_KEY", false);
    case _ =>
  }

  /** `getAPIKey` returns the value of the `||` chain over the user key, the collaborator and the key table. */
  lemma GetAPIKeyFollowsKeyTable(cloudflareEnv: Env, env: Env, provider: string,
                                 userApiKeys: Option<map<string, string>>, lookup: ProviderLookup)
    ensures GetAPIKey(cloudflareEnv, env, provider, userApiKeys, lookup)
         == FirstTruthy(KeyCandidates(cloudflareEnv, env, provider, userApiKeys, lookup))
  {
    var c := KeyCandidates(cloudflareEnv, env, provider, userApiKeys, lookup);
    if !Truthy(c[0]) && !Truthy(c[1]) {
      assert AllFalsy(c[..2]);
      FirstTruthyDropFalsy(c, 2);
      assert c[2..] == KeyEnvCandidates(cloudflareEnv, env, provider);
      KeySwitchFollowsKeyTable(cloudflareEnv, env, provider);
    }
  }

  /** A non-empty user-supplied key is returned as it is, whatever the collaborator and the environments hold. */
  lemma UserKeyWins(cloudflareEnv: Env, env: Env, provider: string,
                    userApiKeys: Option<map<string, string>>, lookup: ProviderLookup)
    requires userApiKeys.Some? && provider in userApiKeys.value && userApiKeys.value[provider] != ""
    ensures GetAPIKey(cloudflareEnv, env, provider, userApiKeys, lookup) == Some(userApiKeys.value[provider])
  {
  }

  /**
   * Without a user key, a non-empty key from the collaborator wins, and the
   * process environment (hence the key table) plays no part.
   */
  lemma CollaboratorKeyWins(cloudflareEnv: Env, env1: Env, env2: Env, provider: string,
                            userApiKeys: Option<map<string, string>>, lookup: ProviderLookup)
    requires !Truthy(UserKey(userApiKeys, provider))
    requires Truthy(lookup(KeyLookupRequest(cloudflareEnv, provider, userApiKeys)).apiKey)
    ensures GetAPIKey(cloudflareEnv, env1, provider, userApiKeys, lookup)
         == lookup(KeyLookupRequest(cloudflareEnv, provider, userApiKeys)).apiKey
    ensures GetAPIKey(cloudflareEnv, env1, provider, userApiKeys, lookup)
         == GetAPIKey(cloudflareEnv, env2, provider, userApiKeys, lookup)
  {
  }

  /** In the environment part of the key chain, the process variable comes before the platform variable. */
  lemma KeyChainPrecedence(cloudflareEnv: Env, env: Env, provider: string)
    requires provider in KeyVars && KeyVars[provider].platformFallback
    ensures var name := KeyVars[provider].name;
            FirstTruthy(KeyEnvCandidates(cloudflareEnv, env, provider))
            == (if Truthy(EnvValue(env, name)) then EnvValue(env, name) else EnvValue(cloudflareEnv, name))
  {
  }

  /**
   * For the providers whose variable is also read from `cloudflareEnv`, a
   * non-empty process value wins; an empty or unset one falls through to the
   * platform value, which may itself be `''` or undefined.
   */
  lemma ProcessKeyBeatsPlatform(cloudflareEnv: Env, env: Env, provider: string,
                                userApiKeys: Option<map<string, string>>, lookup: ProviderLookup)
    requires provider in KeyVars && KeyVars[provider].platformFallback
    requires !Truthy(UserKey(userApiKeys, provider))
    requires !Truthy(lookup(KeyLookupRequest(cloudflareEnv, provider, userApiKeys)).apiKey)
    ensures var name := KeyVars[provider].name;
            GetAPIKey(cloudflareEnv, env, provider, userApiKeys, lookup)
            == (if Truthy(EnvValue(env, name)) then EnvValue(env, name) else EnvValue(cloudflareEnv, name))
  {
    KeySwitchFollowsKeyTable(cloudflareEnv, env, provider);
    KeyChainPrecedence(cloudflareEnv, env, provider);
  }

  /** Exactly Cohere and AzureOpenAI read their credential from the process environment alone. */
  lemma ProcessOnlyProviders(provider: string)
    ensures provider in KeyVars && !KeyVars[provider].platformFallback
        <==> provider == "Cohere" || provider == "AzureOpenAI"
  {
  }

  /**
   * Cohere and AzureOpenAI: once the collaborator misses, the result is the
   * process variable, undefined when unset, and `cloudflareEnv` does not matter.
   */
  lemma ProcessOnlyKeyIgnoresPlatform(cloudflareEnv1: Env, cloudflareEnv2: Env, env: Env, provider: string,
                                      userApiKeys: Option<map<string, string>>, lookup: ProviderLookup)
    requires provider == "Cohere" || provider == "AzureOpenAI"
    requires !Truthy(UserKey(userApiKeys, provider))
    requires !Truthy(lookup(KeyLookupRequest(cloudflareEnv1, provider, userApiKeys)).apiKey)
    requires !Truthy(lookup(KeyLookupRequest(cloudflareEnv2, provider, userApiKeys)).apiKey)
    ensures GetAPIKey(cloudflareEnv1, env, provider, userApiKeys, lookup) == EnvValue(env, KeyVars[provider].name)
    ensures GetAPIKey(cloudflareEnv1, env, provider, userApiKeys, lookup)
         == GetAPIKey(cloudflareEnv2, env, provider, userApiKeys, lookup)
  {
  }

  /** An unrecognised provider gets `''` once the user key and the collaborator miss; no environment is read. */
  lemma UnknownProviderKey(cloudflareEnv: Env, env: Env, provider: string,
                           userApiKeys: Option<map<string, string>>, lookup: ProviderLookup)
    requires provider !in KeyVars
    requires !Truthy(UserKey(userApiKeys, provider))
    requires !Truthy(lookup(KeyLookupRequest(cloudflareEnv, provider, userApiKeys)).apiKey)
    ensures GetAPIKey(cloudflareEnv, env, provider, userApiKeys, lookup) == Some("")
  {
  }

  // ---------------------------------------------------------------------
  // getBaseURL
  // ---------------------------------------------------------------------

  /** The hardcoded switch of `getBaseURL` agrees with the URL table followed by the Docker rewrite. */
  lemma UrlSwitchFollowsUrlTable(cloudflareEnv: Env, env: Env, provider: string, setting: Option<string>)
    ensures UrlFromEnvironment(cloudflareEnv, env, provider, setting)
         == DockerRewrite(env, provider, FirstTruthy(UrlCandidates(cloudflareEnv, env, provider, setting)))
  {
    match provider
    case "Together" => assert UrlVars[provider] == UrlVar("TOGETHER_API_BASE_URL", Some(TogetherDefault));
    case "OpenAILike" => assert UrlVars[provider] == UrlVar("OPENAI_LIKE_API_BASE_URL", None);
    case "LMStudio" => assert UrlVars[provider] == UrlVar("LMSTUDIO_API_BASE_URL", Some(LMStudioDefault));
    case "Ollama" =>
      assert UrlVars[provider] == UrlVar("OLLAMA_API_BASE_URL", Some(OllamaDefault));
      assert Truthy(UrlCandidates(cloudflareEnv, env, provider, setting)[3]);
    case _ =>
  }

  /**
   * `getBaseURL`: a non-empty collaborator URL wins; otherwise the call
   * throws exactly when a settings map is given without an entry for the
   * provider; otherwise the result is the `||` chain over the URL table, with
   * the Docker rewrite applied to it.
   */
  lemma GetBaseURLFollowsUrlTable(cloudflareEnv: Env, env: Env, provider: string,
                                  providerSettings: Option<map<string, ProviderSetting>>, lookup: ProviderLookup)
    ensures var collab := lookup(UrlLookupRequest(cloudflareEnv, provider, providerSettings)).baseUrl;
            Truthy(collab) ==> GetBaseURL(cloudflareEnv, env, provider, providerSettings, lookup) == Success(collab)
    ensures var collab := lookup(UrlLookupRequest(cloudflareEnv, provider, providerSettings)).baseUrl;
            !Truthy(collab) ==>
              (GetBaseURL(cloudflareEnv, env, provider, providerSettings, lookup).Failure?
               <==> providerSettings.Some? && provider !in providerSettings.value)
    ensures var collab := lookup(UrlLookupRequest(cloudflareEnv, provider, providerSettings)).baseUrl;
            var r := GetBaseURL(cloudflareEnv, env, provider, providerSettings, lookup);
            !Truthy(collab) && r.Success? ==>
              r.value == DockerRewrite(env, provider,
                                       FirstTruthy(UrlCandidates(cloudflareEnv, env, provider, SettingOverride(providerSettings, provider))))
  {
    UrlSwitchFollowsUrlTable(cloudflareEnv, env, provider, SettingOverride(providerSettings, provider));
  }

  /** A non-empty settings override wins over both environments and the default (Ollama may still rewrite it). */
  lemma SettingOverrideWins(cloudflareEnv: Env, env: Env, provider: string,
                            providerSettings: map<string, ProviderSetting>, lookup: ProviderLookup)
    requires provider in UrlVars
    requires !Truthy(lookup(UrlLookupRequest(cloudflareEnv, provider, Some(providerSettings))).baseUrl)
    requires provider in providerSettings && Truthy(providerSettings[provider].baseUrl)
    ensures GetBaseURL(cloudflareEnv, env, provider, Some(providerSettings), lookup)
         == Success(DockerRewrite(env, provider, providerSettings[provider].baseUrl))
  {
  }

  /** In the URL chain a blank override and an absent one resolve alike. */
  lemma BlankSettingIsAbsent(cloudflareEnv: Env, env: Env, provider: string)
    ensures FirstTruthy(UrlCandidates(cloudflareEnv, env, provider, Some("")))
         == FirstTruthy(UrlCandidates(cloudflareEnv, env, provider, None))
  {
  }

  /** A blank override `''` is falsy: it resolves exactly as an absent one. */
  lemma BlankOverrideFallsThrough(cloudflareEnv: Env, env: Env, provider: string,
                                  providerSettings: map<string, ProviderSetting>, lookup: ProviderLookup)
    requires !Truthy(lookup(UrlLookupRequest(cloudflareEnv, provider, Some(providerSettings[provider := ProviderSetting(Some(""))]))).baseUrl)
    requires !Truthy(lookup(UrlLookupRequest(cloudflareEnv, provider, Some(providerSettings[provider := ProviderSetting(None)]))).baseUrl)
    ensures GetBaseURL(cloudflareEnv, env, provider, Some(providerSettings[provider := ProviderSetting(Some(""))]), lookup)
         == GetBaseURL(cloudflareEnv, env, provider, Some(providerSettings[provider := ProviderSetting(None)]), lookup)
  {
    var blank := Some(providerSettings[provider := ProviderSetting(Some(""))]);
    var absent := Some(providerSettings[provider := ProviderSetting(None)]);
    GetBaseURLFollowsUrlTable(cloudflareEnv, env, provider, blank, lookup);
    GetBaseURLFollowsUrlTable(cloudflareEnv, env, provider, absent, lookup);
    assert SettingOverride(blank, provider) == Some("") && SettingOverride(absent, provider) == None;
    BlankSettingIsAbsent(cloudflareEnv, env, provider);
  }

  /** In the URL chain after a falsy override, the process variable comes before the platform variable. */
  lemma UrlChainPrecedence(cloudflareEnv: Env, env: Env, provider: string, setting: Option<string>)
    requires provider in UrlVars && !Truthy(setting)
    ensures var name := UrlVars[provider].name;
            Truthy(EnvValue(env, name)) ==> FirstTruthy(UrlCandidates(cloudflareEnv, env, provider, setting)) == EnvValue(env, name)
    ensures var name := UrlVars[provider].name;
            !Truthy(EnvValue(env, name)) && Truthy(EnvValue(cloudflareEnv, name)) ==>
              FirstTruthy(UrlCandidates(cloudflareEnv, env, provider, setting)) == EnvValue(cloudflareEnv, name)
  {
    var c := UrlCandidates(cloudflareEnv, env, provider, setting);
    var name := UrlVars[provider].name;
    assert c[0] == setting && c[1] == EnvValue(env, name) && c[2] == EnvValue(cloudflareEnv, name);
    assert c[..1] == [c[0]];
    assert c[..2] == [c[0], c[1]];
  }

  /**
   * Without a collaborator URL or an override, a non-empty process variable
   * wins; an empty or unset one falls through to a non-empty platform variable.
   */
  lemma ProcessUrlBeatsPlatform(cloudflareEnv: Env, env: Env, provider: string,
                                providerSettings: Option<map<string, ProviderSetting>>, lookup: ProviderLookup)
    requires provider in UrlVars
    requires !Truthy(lookup(UrlLookupRequest(cloudflareEnv, provider, providerSettings)).baseUrl)
    requires SettingBaseUrl(providerSettings, provider).Success? && !Truthy(SettingBaseUrl(providerSettings, provider).value)
    ensures var name := UrlVars[provider].name;
            Truthy(EnvValue(env, name)) ==>
              GetBaseURL(cloudflareEnv, env, provider, providerSettings, lookup)
              == Success(DockerRewrite(env, provider, EnvValue(env, name)))
    ensures var name := UrlVars[provider].name;
            !Truthy(EnvValue(env, name)) && Truthy(EnvValue(cloudflareEnv, name)) ==>
              GetBaseURL(cloudflareEnv, env, provider, providerSettings, lookup)
              == Success(DockerRewrite(env, provider, EnvValue(cloudflareEnv, name)))
  {
    GetBaseURLFollowsUrlTable(cloudflareEnv, env, provider, providerSettings, lookup);
    UrlChainPrecedence(cloudflareEnv, env, provider, SettingOverride(providerSettings, provider));
  }

  /** Together, LMStudio and Ollama always resolve to a non-empty URL when the call does not throw. */
  lemma DefaultedUrlNonEmpty(cloudflareEnv: Env, env: Env, provider: string,
                             providerSettings: Option<map<string, ProviderSetting>>, lookup: ProviderLookup)
    requires provider == "Together" || provider == "LMStudio" || provider == "Ollama"
    requires GetBaseURL(cloudflareEnv, env, provider, providerSettings, lookup).Success?
    ensures Truthy(GetBaseURL(cloudflareEnv, env, provider, providerSettings, lookup).value)
  {
  }

  /** With every source empty or unset, a provider with a default resolves to that default. */
  lemma DefaultUrlWhenUnset(cloudflareEnv: Env, env: Env, provider: string,
                            providerSettings: Option<map<string, ProviderSetting>>, lookup: ProviderLookup)
    requires provider in UrlVars && UrlVars[provider].default.Some?
    requires !Truthy(lookup(UrlLookupRequest(cloudflareEnv, provider, providerSettings)).baseUrl)
    requires SettingBaseUrl(providerSettings, provider).Success? && !Truthy(SettingBaseUrl(providerSettings, provider).value)
    requires !Truthy(EnvValue(env, UrlVars[provider].name)) && !Truthy(EnvValue(cloudflareEnv, UrlVars[provider].name))
    ensures GetBaseURL(cloudflareEnv, env, provider, providerSettings, lookup)
         == Success(DockerRewrite(env, provider, UrlVars[provider].default))
  {
    GetBaseURLFollowsUrlTable(cloudflareEnv, env, provider, providerSettings, lookup);
    var c := UrlCandidates(cloudflareEnv, env, provider, SettingOverride(providerSettings, provider));
    assert c[..3] == [c[0], c[1], c[2]];
    assert AllFalsy(c[..3]);
  }

  /** The collaborator that finds nothing. */
  function NoLookup(): ProviderLookup {
    (req: LookupRequest) => ProviderConfig(None, None)
  }

  /** OpenAILike has no default: with nothing set the URL is undefined, not `''`. */
  lemma OpenAILikeMayBeUndefined()
    ensures GetBaseURL(map[], map[], "OpenAILike", None, NoLookup()) == Success(None)
  {
  }

  /**
   * Ollama under `RUNNING_IN_DOCKER === 'true'` in the process environment:
   * the first `localhost` of the resolved URL, whichever source produced it,
   * is replaced; without the flag, or without `localhost`, the URL is unchanged.
   */
  lemma OllamaDockerRewrite(cloudflareEnv: Env, env: Env,
                            providerSettings: Option<map<string, ProviderSetting>>, lookup: ProviderLookup)
    requires !Truthy(lookup(UrlLookupRequest(cloudflareEnv, "Ollama", providerSettings)).baseUrl)
    requires SettingBaseUrl(providerSettings, "Ollama").Success?
    ensures var u := FirstTruthy(UrlCandidates(cloudflareEnv, env, "Ollama", SettingOverride(providerSettings, "Ollama")));
            var r := GetBaseURL(cloudflareEnv, env, "Ollama", providerSettings, lookup);
            && u.Some?
            && (EnvValue(env, RunningInDocker) == Some("true") ==> r == Success(Some(ReplaceFirst(u.value, Localhost, DockerHost))))
            && (EnvValue(env, RunningInDocker) != Some("true") || IndexOf(u.value, Localhost).None? ==> r == Success(u))
  {
  }

  /** `cloudflareEnv.RUNNING_IN_DOCKER` is ignored: changing it does not change Ollama's URL. */
  lemma OllamaIgnoresPlatformDockerFlag(cloudflareEnv: Env, flag: string, env: Env,
                                        providerSettings: Option<map<string, ProviderSetting>>, lookup: ProviderLookup)
    requires !Truthy(lookup(UrlLookupRequest(cloudflareEnv, "Ollama", providerSettings)).baseUrl)
    requires !Truthy(lookup(UrlLookupRequest(cloudflareEnv[RunningInDocker := flag], "Ollama", providerSettings)).baseUrl)
    ensures GetBaseURL(cloudflareEnv, env, "Ollama", providerSettings, lookup)
         == GetBaseURL(cloudflareEnv[RunningInDocker := flag], env, "Ollama", providerSettings, lookup)
  {
  }

  /**
   * An unrecognised provider gets `''` once the collaborator misses, unless the
   * call throws on a missing settings entry; no environment is read.
   */
  lemma UnknownProviderUrl(cloudflareEnv: Env, env: Env, provider: string,
                           providerSettings: Option<map<string, ProviderSetting>>, lookup: ProviderLookup)
    requires provider !in UrlVars
    requires !Truthy(lookup(UrlLookupRequest(cloudflareEnv, provider, providerSettings)).baseUrl)
    requires providerSettings.None? || provider in providerSettings.value
    ensures GetBaseURL(cloudflareEnv, env, provider, providerSettings, lookup) == Success(Some(""))
  {
  }

  // ---------------------------------------------------------------------
  // Worked examples, with a collaborator that finds nothing
  // ---------------------------------------------------------------------

  lemma ExampleUserKey()
    ensures GetAPIKey(map[], map[], "Anthropic", Some(map["Anthropic" := "sk-user"]), NoLookup()) == Some("sk-user")
  {
  }

  lemma ExampleProcessKey()
    ensures GetAPIKey(map[], map["ANTHROPIC_API_KEY" := "sk-env"], "Anthropic", None, NoLookup()) == Some("sk-env")
  {
  }

  lemma ExampleUnknownProvider()
    ensures GetAPIKey(map[], map[], "UnknownProvider", None, NoLookup()) == Some("")
    ensures GetBaseURL(map[], map[], "UnknownProvider", None, NoLookup()) == Success(Some(""))
  {
  }

  lemma ExampleLMStudioDefault()
    ensures GetBaseURL(map[], map[], "LMStudio", None, NoLookup()) == Success(Some(LMStudioDefault))
  {
  }

  /** Ollama's default URL is `http://`, then `localhost`, then the port. */
  lemma OllamaDefaultParts()
    ensures OllamaDefault == "http://" + Localhost + ":11434"
  {
  }

  /** In a URL `http://localhost…` the host is the first `localhost`, and it is the one rewritten. */
  lemma LocalhostAfterScheme(url: string, rest: string)
    requires url == "http://" + Localhost + rest
    ensures ReplaceFirst(url, Localhost, DockerHost) == "http://" + DockerHost + rest
  {
    ReplaceFirstAfterPrefix("http://", Localhost, rest, DockerHost);
  }

  /** The Docker rewrite of Ollama's default URL. */
  lemma OllamaDefaultInDocker()
    ensures ReplaceFirst(OllamaDefault, Localhost, DockerHost) == "http://" + DockerHost + ":11434"
  {
    OllamaDefaultParts();
    LocalhostAfterScheme(OllamaDefault, ":11434");
  }

  /** Spelled out, the rewritten default is `http://host.docker.internal:11434`. */
  lemma DockerDefaultSpelledOut()
    ensures "http://" + DockerHost + ":11434" == "http://host.docker.internal:11434"
  {
  }

  /**
   * Ollama with nothing configured, inside Docker: `http://localhost:11434`
   * becomes `http://host.docker.internal:11434`.
   */
  lemma OllamaDefaultUrlInDocker(cloudflareEnv: Env, env: Env, lookup: ProviderLookup)
    requires !Truthy(lookup(UrlLookupRequest(cloudflareEnv, "Ollama", None)).baseUrl)
    requires EnvValue(env, RunningInDocker) == Some("true")
    requires !Truthy(EnvValue(env, "OLLAMA_API_BASE_URL")) && !Truthy(EnvValue(cloudflareEnv, "OLLAMA_API_BASE_URL"))
    ensures GetBaseURL(cloudflareEnv, env, "Ollama", None, lookup) == Success(Some("http://host.docker.internal:11434"))
  {
    DefaultUrlWhenUnset(cloudflareEnv, env, "Ollama", None, lookup);
    assert UrlVars["Ollama"].default == Some(OllamaDefault);
    OllamaDefaultInDocker();
    DockerDefaultSpelledOut();
  }

  lemma ExampleOllamaWithoutDocker()
    ensures GetBaseURL(map[], map[RunningInDocker := "false"], "Ollama", None, NoLookup()) == Success(Some(OllamaDefault))
  {
  }

  lemma ExampleBlankTogetherOverride()
    ensures GetBaseURL(map[], map[], "Together", Some(map["Together" := ProviderSetting(Some(""))]), NoLookup())
         == Success(Some(TogetherDefault))
  {
  }
}
