/**
 * The concrete cases the repository's tests pin down, and the default
 * model id, stated as lemmas about the model. Composite ids are written as
 * `prefix + "/" + rest` so that each case reads as the split it checks.
 */
module RoutingCases {
  import opened Wrappers
  import opened Text
  import opened OpenRouterRouting
  import opened OpenRouterUsage

  /** `DEFAULT_PROVIDER` and `DEFAULT_MODEL`. */
  const DefaultProvider := "openrouter"
  const DefaultModel := "anthropic" + "/" + "claude-opus-4-6"

  /** The table's renamed entries, and a listed provider mapping to itself. */
  lemma PrefixTableCases()
    ensures ProviderPrefix("mistral") == "mistralai"
    ensures ProviderPrefix("xai") == "x-ai"
    ensures ProviderPrefix("google-vertex") == "google"
    ensures ProviderPrefix("meta") == "meta-llama"
    ensures ProviderPrefix("anthropic") == "anthropic"
  {
    PrefixMapKeysLowerCase("mistral");
    ProviderPrefixListed("mistral");
    PrefixMapKeysLowerCase("xai");
    ProviderPrefixListed("xai");
    PrefixMapKeysLowerCase("google-vertex");
    ProviderPrefixListed("google-vertex");
    PrefixMapKeysLowerCase("meta");
    ProviderPrefixListed("meta");
    PrefixMapKeysLowerCase("anthropic");
    ProviderPrefixListed("anthropic");
  }

  /** Mistral and xAI get the renamed prefixes. */
  lemma MapRenamedCases()
    ensures MapToOpenRouterModelId("mistral", "devstral-medium") == "mistralai" + "/" + "devstral-medium"
    ensures MapToOpenRouterModelId("xai", "grok-3") == "x-ai" + "/" + "grok-3"
  {
    PrefixMapKeysLowerCase("mistral");
    ProviderPrefixListed("mistral");
    PrefixMapKeysLowerCase("xai");
    ProviderPrefixListed("xai");
  }

  /** Anthropic, OpenAI and Google map to prefixes equal to their names. */
  lemma MapSameNameCases()
    ensures MapToOpenRouterModelId("anthropic", "claude-opus-4-6") == "anthropic" + "/" + "claude-opus-4-6"
    ensures MapToOpenRouterModelId("openai", "gpt-5.2") == "openai" + "/" + "gpt-5.2"
    ensures MapToOpenRouterModelId("google", "gemini-3-pro-preview") == "google" + "/" + "gemini-3-pro-preview"
  {
    PrefixMapKeysLowerCase("anthropic");
    ProviderPrefixListed("anthropic");
    PrefixMapKeysLowerCase("openai");
    ProviderPrefixListed("openai");
    PrefixMapKeysLowerCase("google");
    ProviderPrefixListed("google");
  }

  /** An unlisted provider is used as it is. */
  lemma MapUnlistedCase()
    ensures MapToOpenRouterModelId("custom-provider", "model-1") == "custom-provider" + "/" + "model-1"
  {
    ToLowerOfLower("custom-provider");
    MapUnlistedLowerCase("custom-provider", "model-1");
  }

  /** The provider is lower-cased before the lookup. */
  lemma MapUpperCaseCase()
    ensures MapToOpenRouterModelId("Anthropic", "claude-opus-4-6") == "anthropic" + "/" + "claude-opus-4-6"
  {
    assert ToLower("Anthropic") == "anthropic";
    ProviderPrefixIgnoresCase("Anthropic");
    PrefixMapKeysLowerCase("anthropic");
    ProviderPrefixListed("anthropic");
  }

  /** A composite id splits at its only slash. */
  lemma ParseSingleSlashCase()
    ensures ParseOpenRouterModelId("anthropic" + "/" + "claude-opus-4-6") == NativeModelRef("anthropic", "claude-opus-4-6")
  {
    ParseSplitsAtPrefix("anthropic", "claude-opus-4-6");
  }

  /** Only the first slash separates; the rest stays in the model id. */
  lemma ParseTwoSlashesCase()
    ensures ParseOpenRouterModelId("meta-llama" + "/" + "llama-4/maverick") == NativeModelRef("meta-llama", "llama-4/maverick")
  {
    ParseSplitsAtPrefix("meta-llama", "llama-4/maverick");
  }

  /** Without a slash the provider is "unknown". */
  lemma ParseNoSlashCase()
    ensures ParseOpenRouterModelId("some-model") == NativeModelRef(UnknownProvider, "some-model")
  {
    assert '/' !in "some-model";
  }

  /** The rest of the descriptor in the tests: name, reasoning, input kinds, cost, context window, max tokens. */
  datatype Cost = Cost(input: nat, output: nat, cacheRead: nat, cacheWrite: nat)
  datatype CatalogEntry = CatalogEntry(
    name: string, reasoning: bool, input: seq<string>, cost: Cost, contextWindow: nat, maxTokens: nat)

  /** The descriptor test: Claude Opus routed through OpenRouter keeps its metadata. */
  lemma CreateModelCase(original: ModelDescriptor<CatalogEntry>)
    requires original == ModelDescriptor("claude-opus-4-6", "anthropic-messages", "anthropic", "",
      CatalogEntry("Claude Opus 4.6", false, ["text", "image"], Cost(15, 75, 2, 10), 200000, 8192))
    ensures var routed := CreateOpenRouterModel(original);
      && routed.id == "anthropic" + "/" + "claude-opus-4-6"
      && routed.api == "openai-completions"
      && routed.provider == "openrouter"
      && routed.baseUrl == "https://openrouter.ai/api/v1"
      && routed.rest.name == "Claude Opus 4.6"
      && routed.rest.contextWindow == 200000
      && routed.rest.cost == Cost(15, 75, 2, 10)
      && routed.rest.input == ["text", "image"]
      && !routed.rest.reasoning
  {
    PrefixMapKeysLowerCase("anthropic");
    ProviderPrefixListed("anthropic");
  }

  /** A set key enables routing. */
  lemma EnabledCase(raw: string)
    requires raw == "sk-or-v1-test"
    ensures IsOpenRouterEnabled(Some(raw))
  {
    assert !IsSpace(raw[0]);
  }

  /** An unset or blank key does not. */
  lemma DisabledCases(blank: string)
    requires blank == "   "
    ensures !IsOpenRouterEnabled(None)
    ensures !IsOpenRouterEnabled(Some(blank))
  {
    assert AllSpace(blank);
  }

  /** The key is returned trimmed, and is absent when unset. */
  lemma ApiKeyCases()
    ensures GetOpenRouterApiKey(Some("  " + "sk-or-v1-test" + "  ")) == Some("sk-or-v1-test")
    ensures GetOpenRouterApiKey(None) == None
  {
    TrimPadded("  ", "sk-or-v1-test", "  ");
  }

  /** The real-provider cases of the tests, and the default model. */
  lemma ResolveCases()
    ensures ResolveRealProviderFromOpenRouter(Some("openrouter"), Some("anthropic" + "/" + "claude-opus-4-6")) == "anthropic"
    ensures ResolveRealProviderFromOpenRouter(Some("anthropic"), Some("claude-opus-4-6")) == "anthropic"
    ensures ResolveRealProviderFromOpenRouter(None, Some("model")) == ""
    ensures ResolveRealProviderFromOpenRouter(Some("openrouter"), None) == "openrouter"
    ensures ResolveRealProviderFromOpenRouter(Some(DefaultProvider), Some(DefaultModel)) == "anthropic"
  {
    ParseSingleSlashCase();
  }

  /** A 401 becomes an "HTTP 401" error with no windows. */
  lemma UnauthorizedCase()
    ensures var s := NormalizeOpenRouterUsage(HttpResult(false, 401), KeyInfoResponse(None));
      s.windows == [] && s.error == Some("HTTP " + "401")
  {
    assert Decimal(401) == "401" by {
      assert Decimal(4) == ['4'];
      assert Decimal(40) == Decimal(4) + [DigitChar(0)] == ['4', '0'];
      assert Decimal(401) == Decimal(40) + [DigitChar(1)] == ['4', '0', '1'];
    }
  }

  /** Half the limit used reads 50%; no limit gives no window. */
  lemma CreditCases()
    ensures NormalizeOpenRouterUsage(HttpResult(true, 200),
        KeyInfoResponse(Some(KeyInfo(None, Some(50.0), Some(100.0), None, None)))).windows
      == [UsageWindow("Credit", 50.0)]
    ensures NormalizeOpenRouterUsage(HttpResult(true, 200),
        KeyInfoResponse(Some(KeyInfo(None, Some(50.0), None, None, None)))).windows == []
  {
  }
}
