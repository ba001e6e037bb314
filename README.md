# OpenRouter routing layer — a Dafny model

This project models the layer that lets the agent address upstream LLM
providers (Anthropic, OpenAI, Google, Mistral, xAI, Meta, DeepSeek, Qwen, …)
through OpenRouter. It covers five parts:

- **Identifier mapping.** The provider prefix table, and the mapping from a native
  `(provider, modelId)` pair to OpenRouter's composite id
  `"<prefix>/<modelId>"` and back.
- **Descriptor rewrite.** A model descriptor is rewritten so that requests go to
  OpenRouter's OpenAI-compatible endpoint.
- **Streaming headers.** The streaming pipeline merges the bearer credential and two attribution
  headers into the caller's headers.
- **Enablement and provider resolution.** Whether routing is on is decided by the `OPENROUTER_API_KEY` credential.
  The native provider is recovered from a routed `(provider, modelId)`.
- **Usage normalisation.** OpenRouter's key-info response becomes a usage
  snapshot: an error for a failed status, at most one clamped "Credit" window,
  and a plan label.

Everything in this core is pure, so the model is made of datatypes, functions and
lemmas. The environment variable, the HTTP exchange and the streaming
transport are inputs or are left out (see below).

Modules, one per concern:

- `Wrappers` (`wrappers.dfy`): `Option` stands for `undefined`/`null`. `Result` is
  an outcome that may fail.
- `Text` (`text.dfy`): the string primitives the source calls:
  - `toLowerCase`;
  - `trim`, over the ECMAScript whitespace and line-terminator set;
  - `indexOf`;
  - the decimal rendering of the status code.
- `OpenRouterRouting` (`openrouter_routing.dfy`): `src/agents/openrouter-routing.ts`.
- `OpenRouterUsage` (`openrouter_usage.dfy`): the post-response half of
  `src/infra/provider-usage.fetch.openrouter.ts`.
- `RoutingCases` (`routing_cases.dfy`): the concrete cases of
  `src/agents/openrouter-routing.test.ts` and the default model of
  `src/agents/defaults.ts`, stated as lemmas.

Two behaviours of the code that are easy to misread:

- **Empty model id.** `resolveRealProviderFromOpenRouter` returns `"openrouter"` both for an absent
  model id and for an empty one, because the code tests `!modelId`.
- **Parse result shape.** `parseOpenRouterModelId` returns a plain `{provider, modelId}` record, with
  `"unknown"` as the provider when the id has no slash. It is not a tagged
  resolved/unknown variant.

Two names differ from the source because `label` is a reserved word in Dafny:

- the key-info field `label` is `KeyInfo.keyLabel`;
- a usage window's `label` is `UsageWindow.title`.

## Model

| member | source | states |
|---|---|---|
| `Text.ToLower` | src/agents/openrouter-routing.ts:28 | lower-casing keeps the length and maps every character independently (ASCII letters to lower case, all else unchanged) |
| `Text.Trim` | src/agents/openrouter-routing.ts:20-24 | the result is a slice of the input with only whitespace before and after it; it neither starts nor ends with whitespace; it is empty exactly when the input is all whitespace |
| `Text.TrimPadded` | src/agents/openrouter-routing.ts:24 | trimming whitespace-padded text gives the text back |
| `Text.TrimIdempotent` | src/agents/openrouter-routing.ts:24 | trimming twice is trimming once |
| `Text.IndexOf` | src/agents/openrouter-routing.ts:36 | the result is -1 exactly when the character is absent, otherwise the index of its first occurrence |
| `Text.Decimal` | src/infra/provider-usage.fetch.openrouter.ts:40 | the status is written as a non-empty string of digits with no leading zero, whose value is the status |
| `Text.DecimalInjective` | src/infra/provider-usage.fetch.openrouter.ts:40 | different statuses give different error texts |
| `OpenRouterRouting.PrefixMapSlashFree` | src/agents/openrouter-routing.ts:7-17 | no prefix in the table contains a slash |
| `OpenRouterRouting.ProviderPrefix` | src/agents/openrouter-routing.ts:7-17 | a provider name without a slash gets a prefix without a slash |
| `OpenRouterRouting.ProviderPrefixIgnoresCase` | src/agents/openrouter-routing.ts:28 | the prefix lookup is case-insensitive: a provider and its lower-cased form get the same prefix |
| `OpenRouterRouting.ProviderPrefixFallback` | src/agents/openrouter-routing.ts:28 | a provider whose lower-cased name is not in the table is its own lower-cased prefix, so the lookup is total |
| `OpenRouterRouting.MapUnlistedLowerCase` | src/agents/openrouter-routing.ts:27-30 | a lower-case provider missing from the table is used verbatim before the slash |
| `OpenRouterRouting.PrefixMapKeysLowerCase` | src/agents/openrouter-routing.ts:7-17 | every key of the table is already lower case, so each is reached by the lower-cased lookup |
| `OpenRouterRouting.ProviderPrefixListed` | src/agents/openrouter-routing.ts:28 | a provider whose lower-cased name is in the table gets the table's value for it |
| `OpenRouterRouting.MapToOpenRouterModelId` | src/agents/openrouter-routing.ts:27-30 | the composite id is the prefix, then one slash, then the model id verbatim |
| `OpenRouterRouting.ParseOpenRouterModelId` | src/agents/openrouter-routing.ts:32-44 | without a slash: provider "unknown" and the whole id; with one: a provider without slash that, joined to the model id by a slash, gives the input back (split at the first slash) |
| `OpenRouterRouting.ParseSplitsAtPrefix` | src/agents/openrouter-routing.ts:36-43 | `prefix + "/" + rest` with a slash-free prefix parses to exactly `(prefix, rest)`, whatever slashes `rest` holds |
| `OpenRouterRouting.ParseAfterMap` | src/agents/openrouter-routing.ts:27-43 | round trip: if the prefix has no slash, parsing a mapped id gives back the prefix and the model id exactly |
| `OpenRouterRouting.ParseAfterMapSlashFreeProvider` | src/agents/openrouter-routing.ts:27-43 | the round trip holds for every provider name without a slash |
| `OpenRouterRouting.MapToOpenRouterModelIdAsWritten` | src/agents/openrouter-routing.ts:7-30 | the lookup as written also reads inherited object properties; for every other provider it agrees with MapToOpenRouterModelId |
| `OpenRouterRouting.ConstructorProviderLostAsWritten` | src/agents/openrouter-routing.ts:27-43 | for provider "constructor" the as-written id parses back to the text of the `Object` function, and the corrected one to "constructor" |
| `OpenRouterRouting.CreateOpenRouterModel` | src/agents/openrouter-routing.ts:46-58 | api, baseUrl and provider become OpenRouter's; the id is kept for a descriptor already on OpenRouter and mapped otherwise; every other field is unchanged |
| `OpenRouterRouting.CreateOpenRouterModelIdempotent` | src/agents/openrouter-routing.ts:46-58 | rewriting a rewritten descriptor changes nothing |
| `OpenRouterRouting.RoutedModelResolvesToNativeProvider` | src/agents/openrouter-routing.ts:46-82 | the real-provider resolution recovers the native provider's prefix from a rewritten descriptor |
| `OpenRouterRouting.MergeHeaders` | src/agents/openrouter-routing.ts:64-69 | Authorization, HTTP-Referer and X-Title carry the pipeline's values even when the caller set them; every other caller header keeps its value; no other key is added |
| `OpenRouterRouting.OpenRouterStreamRequest` | src/agents/openrouter-routing.ts:60-71 | the transport gets the caller's model and context unchanged, every non-header option unchanged, and the merged headers (an absent options object or header map counting as empty); the request's options, like the caller's, hold no second `headers` entry |
| `OpenRouterRouting.CallerCannotReplaceCredential` | src/agents/openrouter-routing.ts:63-69 | whatever options the caller passes, the request carries the captured key's bearer credential |
| `OpenRouterRouting.GetOpenRouterApiKey` | src/agents/openrouter-routing.ts:23-25 | a key is returned exactly when the variable is set and not all whitespace; it is the trimmed value and never the empty string |
| `OpenRouterRouting.ApiKeyIsTrimmed` | src/agents/openrouter-routing.ts:23-25 | a returned key is non-empty, has no whitespace at either end and is its own trim |
| `OpenRouterRouting.IsOpenRouterEnabled` | src/agents/openrouter-routing.ts:19-21 | routing is enabled exactly when the variable is set and not all whitespace, which is exactly when a key is returned |
| `OpenRouterRouting.ResolveRealProviderFromOpenRouter` | src/agents/openrouter-routing.ts:73-82 | absent provider gives ""; another provider is returned as is; "openrouter" with an absent or empty model id gives "openrouter"; otherwise the provider parsed from the model id, never containing a slash |
| `OpenRouterUsage.ClampPercent` | src/infra/provider-usage.fetch.openrouter.ts:50 | the result lies in [0, 100], equals the input when it is already there, and is 0 below and 100 above |
| `OpenRouterUsage.CreditWindows` | src/infra/provider-usage.fetch.openrouter.ts:45-55 | at most one window; one exactly when the limit is a positive number; it is labelled "Credit" with usage/limit*100 as its percentage when that is in [0, 100], 0 when it is below and 100 when it is above |
| `OpenRouterUsage.PlanLabel` | src/infra/provider-usage.fetch.openrouter.ts:61 | "Free Tier" when the free-tier flag is true; otherwise the label when present and non-empty; otherwise none; never an empty plan |
| `OpenRouterUsage.NormalizeOpenRouterUsage` | src/infra/provider-usage.fetch.openrouter.ts:35-62 | provider "openrouter" and display name "OpenRouter" always; a failed status gives no windows, no plan and the error "HTTP <status>"; success gives no error; windows exist exactly on success with a positive limit, and the percentage is usage/limit*100 clamped to [0, 100] (the value itself when in range, 0 below, 100 above) |
| `OpenRouterUsage.FailedSnapshotIgnoresBody` | src/infra/provider-usage.fetch.openrouter.ts:35-42 | a failed response's snapshot does not depend on the body |
| `OpenRouterUsage.ErrorNamesStatus` | src/infra/provider-usage.fetch.openrouter.ts:40 | the error is "HTTP " followed by digits whose value is the status |
| `OpenRouterUsage.RateLimitIgnored` | src/infra/provider-usage.fetch.openrouter.ts:4-15 | the `rate_limit` field never changes the snapshot |
| `OpenRouterUsage.MissingUsageIsZeroPercent` | src/infra/provider-usage.fetch.openrouter.ts:45-50 | with a positive limit and no usage the single window reads 0% |
| `OpenRouterUsage.NegativeUsageIsZeroPercent` | src/infra/provider-usage.fetch.openrouter.ts:50 | a negative usage with a positive limit reads 0% |
| `OpenRouterUsage.OverLimitIsFull` | src/infra/provider-usage.fetch.openrouter.ts:50 | usage at or above the limit reads 100% |
| `OpenRouterUsage.NormalizeOpenRouterUsageAsWritten` | src/infra/provider-usage.fetch.openrouter.ts:44-46 | as written, a successful response fails exactly when its JSON body is `null`; otherwise it gives the corrected snapshot |
| `OpenRouterUsage.NullBodyFailsAsWritten` | src/infra/provider-usage.fetch.openrouter.ts:44-62 | a `null` body fails as written; the corrected normaliser reads it as a body without `data` (no window, no plan, no error) |
| `RoutingCases.PrefixTableCases` | src/agents/openrouter-routing.ts:7-17 | mistral→mistralai, xai→x-ai, google-vertex→google, meta→meta-llama, anthropic→anthropic |
| `RoutingCases.MapSameNameCases` | src/agents/openrouter-routing.test.ts:14-28 | ("anthropic", "claude-opus-4-6"), ("openai", "gpt-5.2") and ("google", "gemini-3-pro-preview") map to their provider name, a slash and the model id |
| `RoutingCases.MapRenamedCases` | src/agents/openrouter-routing.test.ts:30-38 | ("mistral", "devstral-medium") maps to "mistralai/devstral-medium" and ("xai", "grok-3") to "x-ai/grok-3" |
| `RoutingCases.MapUnlistedCase` | src/agents/openrouter-routing.test.ts:40-44 | an unlisted provider is used as is |
| `RoutingCases.MapUpperCaseCase` | src/agents/openrouter-routing.test.ts:46-50 | "Anthropic" maps like "anthropic" |
| `RoutingCases.ParseSingleSlashCase` | src/agents/openrouter-routing.test.ts:54-59 | "anthropic/claude-opus-4-6" parses to ("anthropic", "claude-opus-4-6") |
| `RoutingCases.ParseTwoSlashesCase` | src/agents/openrouter-routing.test.ts:61-66 | "meta-llama/llama-4/maverick" parses to ("meta-llama", "llama-4/maverick") |
| `RoutingCases.ParseNoSlashCase` | src/agents/openrouter-routing.test.ts:68-73 | "some-model" parses to ("unknown", "some-model") |
| `RoutingCases.CreateModelCase` | src/agents/openrouter-routing.test.ts:76-116 | the Claude Opus descriptor is rewritten to OpenRouter and keeps name, cost, context window, inputs and reasoning flag |
| `RoutingCases.EnabledCase` | src/agents/openrouter-routing.test.ts:141-144 | a set key enables routing |
| `RoutingCases.DisabledCases` | src/agents/openrouter-routing.test.ts:146-154 | an unset or blank key does not |
| `RoutingCases.ApiKeyCases` | src/agents/openrouter-routing.test.ts:172-180 | "  sk-or-v1-test  " gives "sk-or-v1-test"; unset gives none |
| `RoutingCases.ResolveCases` | src/agents/openrouter-routing.test.ts:184-203 | the four resolution cases of the tests, and the default model (src/agents/defaults.ts:4) resolving to "anthropic" |
| `RoutingCases.UnauthorizedCase` | src/infra/provider-usage.fetch.openrouter.ts:35-42 | a 401 gives no windows and the error "HTTP 401" |
| `RoutingCases.CreditCases` | src/infra/provider-usage.fetch.openrouter.ts:48-55 | usage 50 of limit 100 gives one "Credit" window at 50%; no limit gives no window |

## Findings

| source | as written | input that shows it | evidently intended | confidence | as-written member | corrected member |
|---|---|---|---|---|---|---|
| src/agents/openrouter-routing.ts:28 | `PROVIDER_PREFIX_MAP[key] ?? key` indexes a plain object literal, so the keys it inherits from `Object.prototype` are found too and the fallback is skipped | provider `"constructor"` (or `"__proto__"`): the id becomes `"function Object() { [native code] }/<model>"` (or `"[object Object]/<model>"`) and parses back to that text instead of `"constructor"` | every key the table does not itself hold falls back to the lower-cased provider | not executed; high | `OpenRouterRouting.ConstructorProviderLostAsWritten` (over `MapToOpenRouterModelIdAsWritten`) | `OpenRouterRouting.ParseAfterMapSlashFreeProvider` (over `MapToOpenRouterModelId`) |
| src/infra/provider-usage.fetch.openrouter.ts:44-46 | `data.data?.usage` guards the `data` field but not the parsed body | HTTP 200 whose JSON body is `null`: reading `.data` of `null` raises a TypeError | a `null` body degrades like any other body without `data` (no window, no plan) | not executed; medium | `OpenRouterUsage.NullBodyFailsAsWritten` (over `NormalizeOpenRouterUsageAsWritten`) | `OpenRouterUsage.NormalizeOpenRouterUsage` |

## Left out

- `streamSimple` (src/agents/openrouter-routing.ts:62): the streaming transport itself. The model stops at the request handed to it (`OpenRouterStreamRequest`).
- `fetchJson`, `fetch`, the timeout and `res.json()` (src/infra/provider-usage.fetch.openrouter.ts:22-33, 44): network I/O. The model takes `res.ok`, `res.status` and the parsed body as inputs. `provider-usage.fetch.shared.ts` is not part of this model, and neither are transport errors or a body that fails to parse.
- `process.env.OPENROUTER_API_KEY`: global state, passed in as an `Option<string>` parameter. Reading the variable afresh on each call is therefore not modelled.
- `Text.ToLower`: lower-cases ASCII letters only. JavaScript's `toLowerCase` also maps non-ASCII letters, and some of them map to more than one character.
- `Text.IsSpace`: characters are Unicode scalar values. JavaScript strings are UTF-16 code units, so lone surrogates are not modelled.
- `Text.IndexOf`: the same remark about UTF-16 code units applies.
- `OpenRouterUsage.ClampPercent`: uses exact `real` arithmetic, not IEEE doubles. Rounding of `usage / limit * 100`, `Infinity` and `NaN` are not modelled.
- JSON fields of an unexpected type are not modelled, for instance a string `usage` or a non-boolean `is_free_tier`. Each field is either absent/`null` or has the type its declaration gives it.
- `OpenRouterRouting.ModelDescriptor`: holds only the four fields the layer rewrites. Everything else in the `Model<Api>` type is one opaque `rest` value, carried through unchanged.
- `OpenRouterRouting.MergeHeaders`: header names are compared exactly, as JavaScript object keys are. A caller header such as `authorization`, differing only in case from `Authorization`, is therefore kept beside it; what the transport then sends is outside this model. The order of keys is not modelled.
- src/agents/openrouter-routing.live.test.ts: only calls the live service, and has no logic to model.
