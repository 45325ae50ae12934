# Credential and base-URL resolution for LLM providers

This project models the two resolvers in `app/lib/.server/llm/api-key.ts` of bolt.diy and proves what they promise.

- `getAPIKey(cloudflareEnv, provider, userApiKeys)` picks the API key for a provider. It tries, in order:
  1. a non-empty user-supplied key;
  2. a non-empty `apiKey` from the collaborator `getProviderBaseUrlAndKey`;
  3. the provider's hardcoded variable, first in the process environment, then in the Cloudflare environment (Cohere and AzureOpenAI read only the process environment);
  4. `''` for a provider not in the switch.
- `getBaseURL(cloudflareEnv, provider, providerSettings)` picks the base URL. It tries, in order:
  1. a non-empty `baseUrl` from the collaborator;
  2. the per-provider settings override;
  3. the process variable, then the Cloudflare variable;
  4. a hardcoded default for Together, LMStudio and Ollama.

  For Ollama it then replaces the first `localhost` by `host.docker.internal` when the process variable `RUNNING_IN_DOCKER` is `"true"`.

Files:

- `wrappers.dfy` (module `Wrappers`): `Option` (JavaScript `undefined` is `None`) and `Result` (used for a thrown error).
- `js_semantics.dfy` (module `JsSemantics`): the JavaScript semantics the resolvers depend on.
  - `Truthy`: a string is truthy when it is present and not `''`.
  - `FirstTruthy`: the value of an `a || b || …` chain.
  - `IndexOf` and `ReplaceFirst`: `String.prototype.replace` with a string pattern and a replacement inserted literally (no `$` patterns, which holds for the constant `host.docker.internal` used at line 103).
- `api_key.dfy` (module `ApiKey`): the data model and the two resolvers, `GetAPIKey` and `GetBaseURL`, written branch for branch as in the source. Beside them, the provider switches are restated as declarative tables (`KeyVars`, `UrlVars`). These tables are the reference definitions the resolvers are proved against.
- `api_key_properties.dfy` (module `ApiKeyProperties`): the lemmas.

Inputs:

- The process environment (`env` from `node:process`) and the Cloudflare binding (`cloudflareEnv`) are read-only `map<string, string>` parameters.
- The collaborator `getProviderBaseUrlAndKey` (from `~/utils/constants`) is a function-typed parameter `lookup: LookupRequest -> ProviderConfig`. Nothing is assumed about it. Each lemma states what it needs of the collaborator's answer to the exact request the source sends, with `defaultBaseUrlKey` and `defaultApiTokenKey` both `''`.

Behaviour worth noting:

- A recognised provider can yield `undefined`, not `''`: for example, Cohere with `COHERE_API_KEY` unset, or OpenAILike with nothing configured. Results are therefore `Option<string>`.
- The guard at line 80 can never fire, because a truthy string never has length 0. A blank override still falls through, because `''` is falsy in the `||` chain. `NormalizeSetting` and `BlankOverrideFallsThrough` prove both facts.
- Line 78 throws a `TypeError` when a settings map is given but has no entry for the provider: `providerSettings?.[provider].baseUrl` then reads `.baseUrl` on `undefined`. This happens for every provider, recognised or not, once the collaborator has no URL. `GetBaseURL` returns `Failure(UndefinedProviderSetting)` in exactly that case.

## Model

| member | source | states |
|---|---|---|
| JsSemantics.FirstTruthy | app/lib/.server/llm/api-key.ts:86-100 | A chain of JavaScript or-operators evaluates to its first truthy operand, or to its last operand when none is truthy; the result is truthy exactly when some operand is. |
| JsSemantics.FirstTruthyDropFalsy | app/lib/.server/llm/api-key.ts:86-100 | Falsy operands at the head of an or-chain can be dropped without changing its value. |
| JsSemantics.IndexOf | app/lib/.server/llm/api-key.ts:103 | Finds the first index where the pattern occurs: the pattern occurs there and at no earlier index; `None` means it occurs nowhere. |
| JsSemantics.ReplaceFirst | app/lib/.server/llm/api-key.ts:103 | `replace` with a string pattern and a literal (`$`-free) replacement changes only the first occurrence (prefix, replacement, rest) and returns the string unchanged when the pattern is absent. |
| JsSemantics.ReplaceFirstAt | app/lib/.server/llm/api-key.ts:103 | For `a + pat + b` with no occurrence of `pat` starting inside `a`, the result is `a + rep + b`. |
| JsSemantics.ReplaceFirstAfterPrefix | app/lib/.server/llm/api-key.ts:103 | If the pattern's first character does not appear in `a`, the occurrence right after `a` is the one replaced. |
| JsSemantics.ReplaceFirstChangesIffOccurs | app/lib/.server/llm/api-key.ts:102-104 | With a replacement different from the pattern, the string changes if and only if the pattern occurs in it. |
| JsSemantics.ReplaceFirstNonEmpty | app/lib/.server/llm/api-key.ts:99-106 | Rewriting a non-empty URL with a non-empty host never yields `''`. |
| ApiKey.NormalizeSetting | app/lib/.server/llm/api-key.ts:78-82 | The blank-override guard never changes the override: it is dead code. |
| ApiKeyProperties.KeySwitchFollowsKeyTable | app/lib/.server/llm/api-key.ts:29-61 | The 13-case switch of `getAPIKey` equals the key table: for each listed provider, the or-chain of the process variable and, where listed, the platform variable; `''` otherwise. |
| ApiKeyProperties.GetAPIKeyFollowsKeyTable | app/lib/.server/llm/api-key.ts:5-62 | `getAPIKey` is the or-chain over user key, collaborator key and the table's environment candidates, in that order. |
| ApiKeyProperties.UserKeyWins | app/lib/.server/llm/api-key.ts:11-14 | A non-empty `userApiKeys[provider]` is returned exactly, whatever the collaborator and the environments hold. |
| ApiKeyProperties.CollaboratorKeyWins | app/lib/.server/llm/api-key.ts:16-27 | Without a user key, a non-empty collaborator `apiKey` is returned, and the result does not depend on the process environment. |
| ApiKeyProperties.KeyChainPrecedence | app/lib/.server/llm/api-key.ts:31-54 | For a provider with a platform fallback, the environment chain yields the process value if non-empty, else the platform value (possibly `''` or undefined). |
| ApiKeyProperties.ProcessKeyBeatsPlatform | app/lib/.server/llm/api-key.ts:31-54 | Once user key and collaborator miss, `getAPIKey` returns a non-empty process value, otherwise whatever `cloudflareEnv` holds for that variable. |
| ApiKeyProperties.ProcessOnlyProviders | app/lib/.server/llm/api-key.ts:55-58 | Exactly Cohere and AzureOpenAI read their key from the process environment only. |
| ApiKeyProperties.ProcessOnlyKeyIgnoresPlatform | app/lib/.server/llm/api-key.ts:55-58 | For Cohere and AzureOpenAI, once the collaborator misses, the result is the process variable (undefined when unset) and is the same for any two `cloudflareEnv`s. |
| ApiKeyProperties.UnknownProviderKey | app/lib/.server/llm/api-key.ts:59-60 | An unrecognised provider gets `''` once user key and collaborator miss, whatever the environments hold. |
| ApiKeyProperties.UrlSwitchFollowsUrlTable | app/lib/.server/llm/api-key.ts:84-110 | The switch of `getBaseURL` equals the URL table: override, process variable, platform variable and (where listed) default, followed by the Ollama Docker rewrite; `''` otherwise. |
| ApiKeyProperties.GetBaseURLFollowsUrlTable | app/lib/.server/llm/api-key.ts:64-111 | A non-empty collaborator URL is returned as is. Otherwise the call throws exactly when a settings map lacks the provider's entry, and else returns the table chain, Docker-rewritten for Ollama. |
| ApiKeyProperties.SettingOverrideWins | app/lib/.server/llm/api-key.ts:78-100 | For a provider in the table whose collaborator URL is empty, a non-empty settings override beats both environments and the default (Ollama may still rewrite it). |
| ApiKeyProperties.BlankSettingIsAbsent | app/lib/.server/llm/api-key.ts:80-100 | In the URL chain a blank override and an absent override give the same value. |
| ApiKeyProperties.BlankOverrideFallsThrough | app/lib/.server/llm/api-key.ts:78-100 | `getBaseURL` with an override `''` returns the same as with no override, for every provider. |
| ApiKeyProperties.UrlChainPrecedence | app/lib/.server/llm/api-key.ts:85-100 | After a falsy override, a non-empty process variable wins, and otherwise a non-empty platform variable. |
| ApiKeyProperties.ProcessUrlBeatsPlatform | app/lib/.server/llm/api-key.ts:85-100 | With no collaborator URL and no override, `getBaseURL` returns the non-empty process variable, otherwise the non-empty platform variable (Docker-rewritten for Ollama). |
| ApiKeyProperties.DefaultedUrlNonEmpty | app/lib/.server/llm/api-key.ts:85-106 | Together, LMStudio and Ollama always return a non-empty URL when the call does not throw. |
| ApiKeyProperties.DefaultUrlWhenUnset | app/lib/.server/llm/api-key.ts:85-100 | With every source empty or unset, a provider with a default gets that default (Docker-rewritten for Ollama). |
| ApiKeyProperties.OpenAILikeMayBeUndefined | app/lib/.server/llm/api-key.ts:92-93 | OpenAILike has no default: with nothing configured its URL is undefined, not `''`. |
| ApiKeyProperties.OllamaDockerRewrite | app/lib/.server/llm/api-key.ts:98-106 | Ollama's URL, from whichever source, has its first `localhost` replaced when the process `RUNNING_IN_DOCKER` is `"true"`. It is unchanged without the flag or without `localhost`. |
| ApiKeyProperties.OllamaIgnoresPlatformDockerFlag | app/lib/.server/llm/api-key.ts:102 | Changing `cloudflareEnv.RUNNING_IN_DOCKER` does not change Ollama's URL. |
| ApiKeyProperties.UnknownProviderUrl | app/lib/.server/llm/api-key.ts:108-109 | An unrecognised provider gets `''` once the collaborator misses and the call does not throw, whatever the environments hold. |
| ApiKeyProperties.LocalhostAfterScheme | app/lib/.server/llm/api-key.ts:103 | In `http://localhost…` the host is the occurrence of `localhost` that is rewritten. |
| ApiKeyProperties.OllamaDefaultInDocker | app/lib/.server/llm/api-key.ts:100-103 | Rewriting the default `http://localhost:11434` gives `http://host.docker.internal:11434`. |
| ApiKeyProperties.OllamaDefaultUrlInDocker | app/lib/.server/llm/api-key.ts:98-106 | Ollama with nothing configured, inside Docker, resolves to `http://host.docker.internal:11434`. |
| ApiKeyProperties.ExampleUserKey | app/lib/.server/llm/api-key.ts:12-13 | `{Anthropic: "sk-user"}` yields `"sk-user"` for Anthropic. |
| ApiKeyProperties.ExampleProcessKey | app/lib/.server/llm/api-key.ts:31-32 | `ANTHROPIC_API_KEY = "sk-env"` in the process environment yields `"sk-env"`. |
| ApiKeyProperties.ExampleUnknownProvider | app/lib/.server/llm/api-key.ts:59-60 | An unknown provider with nothing configured yields `''` from both resolvers. |
| ApiKeyProperties.ExampleLMStudioDefault | app/lib/.server/llm/api-key.ts:94-97 | LMStudio with nothing configured yields `http://localhost:1234`. |
| ApiKeyProperties.ExampleOllamaWithoutDocker | app/lib/.server/llm/api-key.ts:98-106 | With `RUNNING_IN_DOCKER = "false"` Ollama keeps `http://localhost:11434`. |
| ApiKeyProperties.ExampleBlankTogetherOverride | app/lib/.server/llm/api-key.ts:78-91 | A blank Together override yields the default `https://api.together.xyz/v1`. |

## Left out

- The internals of `getProviderBaseUrlAndKey`: its source is not part of this model. It is a function parameter, and the lemmas state what they need of its answer.
- How `env` and `cloudflareEnv` are obtained (`node:process`, the Cloudflare `Env` binding): both are immutable map inputs. Keys are compared case-sensitively, so the case-insensitive lookup of `process.env` on Windows (`env.HuggingFace_API_KEY` at line 40 also finding `HUGGINGFACE_API_KEY`) is not modelled. Values are modelled as strings; a non-string value passed through the `as any` cast is not modelled.
- Keys inherited through JavaScript's prototype chain: a lookup such as `userApiKeys['constructor']` on a plain object is not modelled, because maps have only their own keys.
- `IProviderSetting` beyond its optional `baseUrl` field.
- JsSemantics.ReplaceFirst: the replacement string is inserted literally; JavaScript's `$&`, `$$`, `` $` `` and `$'` patterns in a replacement are not interpreted. The only replacement the resolvers pass, `host.docker.internal`, contains no `$`, so the rewrite at line 103 is modelled exactly.
- The throw at line 78 is a `Failure` result, not an exception that unwinds the caller.
- The commented-out Deepseek case (lines 43-44) is not code and is not modelled.
