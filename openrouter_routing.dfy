/**
 * The OpenRouter identity and request-rewriting layer: the provider prefix
 * table, the mapping between a native `(provider, modelId)` pair and
 * OpenRouter's composite `"<prefix>/<modelId>"` id, the model descriptor
 * rewrite, the header merge of the streaming pipeline, and the enablement
 * and real-provider resolution.
 */
module OpenRouterRouting {
  import opened Wrappers
  import opened Text

  const OpenRouterTag := "openrouter"
  const OpenRouterBaseUrl := "https://openrouter.ai/api/v1"
  const OpenAiCompletions := "openai-completions"
  const UnknownProvider := "unknown"

  /** Native provider (lower-case) to the prefix OpenRouter uses for it. */
  const ProviderPrefixMap: map<string, string> := map[
    "anthropic" := "anthropic",
    "openai" := "openai",
    "google" := "google",
    "google-vertex" := "google",
    "mistral" := "mistralai",
    "xai" := "x-ai",
    "meta" := "meta-llama",
    "deepseek" := "deepseek",
    "qwen" := "qwen"
  ]

  /** No prefix in the table contains a slash. */
  lemma PrefixMapSlashFree(key: string)
    requires key in ProviderPrefixMap
    ensures '/' !in ProviderPrefixMap[key]
  {
  }

  /**
   * The prefix for `provider`: the table entry for its lower-cased form,
   * falling back to the lower-cased provider itself. Only keys the table
   * itself holds are consulted (see MapToOpenRouterModelIdAsWritten).
   */
  function ProviderPrefix(provider: string): (prefix: string)
    ensures '/' !in provider ==> '/' !in prefix
  {
    var key := ToLower(provider);
    ToLowerKeepsNonLetters(provider, '/');
    if key in ProviderPrefixMap then ProviderPrefixMap[key] else key
  }

  /** The prefix lookup ignores case. */
  lemma ProviderPrefixIgnoresCase(provider: string)
    ensures ProviderPrefix(provider) == ProviderPrefix(ToLower(provider))
  {
    ToLowerIdempotent(provider);
  }

  /** Every key of the table is already lower case. */
  lemma PrefixMapKeysLowerCase(key: string)
    requires key in ProviderPrefixMap
    ensures ToLower(key) == key
  {
    ToLowerOfLower(key);
  }

  /** A provider whose lower-cased name is listed gets the table's value. */
  lemma ProviderPrefixListed(provider: string)
    requires ToLower(provider) in ProviderPrefixMap
    ensures ProviderPrefix(provider) == ProviderPrefixMap[ToLower(provider)]
  {
  }

  /** An unlisted provider is its own (lower-cased) prefix. */
  lemma ProviderPrefixFallback(provider: string)
    requires ToLower(provider) !in ProviderPrefixMap
    ensures ProviderPrefix(provider) == ToLower(provider)
    ensures |ProviderPrefix(provider)| == |provider|
  {
  }

  /** A lower-case provider missing from the table is used verbatim as the prefix. */
  lemma MapUnlistedLowerCase(provider: string, modelId: string)
    requires ToLower(provider) == provider && provider !in ProviderPrefixMap
    ensures MapToOpenRouterModelId(provider, modelId) == provider + "/" + modelId
  {
  }

  /** `mapToOpenRouterModelId`: `"<prefix>/<modelId>"`, with `modelId` verbatim. */
  function MapToOpenRouterModelId(provider: string, modelId: string): (id: string)
    ensures var prefix := ProviderPrefix(provider);
      && |id| == |prefix| + 1 + |modelId|
      && id[..|prefix|] == prefix
      && id[|prefix|] == '/'
      && id[|prefix| + 1..] == modelId
  {
    ProviderPrefix(provider) + "/" + modelId
  }

  /** A native provider and model id, as the parser recovers them. */
  datatype NativeModelRef = NativeModelRef(provider: string, modelId: string)

  /**
   * `parseOpenRouterModelId`: split at the first slash; without a slash the
   * provider is "unknown" and the whole string is the model id.
   */
  function ParseOpenRouterModelId(openRouterModelId: string): (r: NativeModelRef)
    ensures '/' !in openRouterModelId ==> r == NativeModelRef(UnknownProvider, openRouterModelId)
    ensures '/' in openRouterModelId ==>
      && '/' !in r.provider
      && r.provider + "/" + r.modelId == openRouterModelId
  {
    var slashIndex := IndexOf(openRouterModelId, '/');
    if slashIndex == -1 then
      NativeModelRef(UnknownProvider, openRouterModelId)
    else
      var r := NativeModelRef(openRouterModelId[..slashIndex], openRouterModelId[slashIndex + 1..]);
      assert r.provider + "/" + r.modelId == openRouterModelId;
      r
  }

  /** A composite id whose prefix has no slash parses back to that prefix and the verbatim rest. */
  lemma ParseSplitsAtPrefix(prefix: string, rest: string)
    requires '/' !in prefix
    ensures ParseOpenRouterModelId(prefix + "/" + rest) == NativeModelRef(prefix, rest)
  {
    var s := prefix + "/" + rest;
    IndexOfAfterFreePrefix(prefix, '/', rest);
    assert s[..|prefix|] == prefix;
    assert s[|prefix| + 1..] == rest;
  }

  /** Round trip: parsing a mapped id gives back the prefix and the model id exactly. */
  lemma ParseAfterMap(provider: string, modelId: string)
    requires '/' !in ProviderPrefix(provider)
    ensures ParseOpenRouterModelId(MapToOpenRouterModelId(provider, modelId))
         == NativeModelRef(ProviderPrefix(provider), modelId)
  {
    ParseSplitsAtPrefix(ProviderPrefix(provider), modelId);
  }

  /** For a provider name without a slash the round trip always holds. */
  lemma ParseAfterMapSlashFreeProvider(provider: string, modelId: string)
    requires '/' !in provider
    ensures ParseOpenRouterModelId(MapToOpenRouterModelId(provider, modelId))
         == NativeModelRef(ProviderPrefix(provider), modelId)
  {
    ParseAfterMap(provider, modelId);
  }

  // ---------------------------------------------------------------------
  // The prefix lookup as the source writes it

  /**
   * What a plain JavaScript object literal yields, converted to a string,
   * for a key it does not own but inherits from `Object.prototype`. After
   * lower-casing only two inherited names remain reachable: `constructor`
   * (the `Object` function) and `__proto__` (the prototype object).
   */
  function InheritedProperty(key: string): Option<string> {
    if key == "constructor" then Some(ObjectFunctionText)
    else if key == "__proto__" then Some("[object Object]")
    else None
  }

  /**
   * `mapToOpenRouterModelId` as written: `PROVIDER_PREFIX_MAP[key] ?? key`
   * reads inherited properties too, so the fallback is skipped for the two
   * inherited names. Elsewhere it agrees with MapToOpenRouterModelId.
   */
  function MapToOpenRouterModelIdAsWritten(provider: string, modelId: string): (id: string)
    ensures InheritedProperty(ToLower(provider)).None? ==> id == MapToOpenRouterModelId(provider, modelId)
  {
    var key := ToLower(provider);
    var prefix :=
      if key in ProviderPrefixMap then ProviderPrefixMap[key]
      else match InheritedProperty(key)
        case Some(inherited) => inherited
        case None => key;
    prefix + "/" + modelId
  }

  const ObjectFunctionText := "function Object() { [native code] }"

  lemma ConstructorIsLower()
    ensures ToLower("constructor") == "constructor"
  {
    ToLowerOfLower("constructor");
  }

  lemma MapConstructorAsWritten(modelId: string)
    ensures MapToOpenRouterModelIdAsWritten("constructor", modelId) == ObjectFunctionText + "/" + modelId
  {
    ConstructorIsLower();
  }

  lemma ParseObjectFunctionText(modelId: string)
    ensures ParseOpenRouterModelId(ObjectFunctionText + "/" + modelId).provider == ObjectFunctionText
  {
    ParseSplitsAtPrefix(ObjectFunctionText, modelId);
  }

  lemma MapConstructor(modelId: string)
    ensures MapToOpenRouterModelId("constructor", modelId) == "constructor" + "/" + modelId
  {
    ConstructorIsLower();
    MapUnlistedLowerCase("constructor", modelId);
  }

  /**
   * The provider "constructor" round-trips through the corrected mapper but
   * comes back from the as-written one as the text of the `Object` function.
   */
  lemma ConstructorProviderLostAsWritten(modelId: string)
    ensures ParseOpenRouterModelId(MapToOpenRouterModelIdAsWritten("constructor", modelId)).provider
         == ObjectFunctionText
    ensures ParseOpenRouterModelId(MapToOpenRouterModelId("constructor", modelId)).provider
         == "constructor"
  {
    MapConstructorAsWritten(modelId);
    ParseObjectFunctionText(modelId);
    MapConstructor(modelId);
    ParseSplitsAtPrefix("constructor", modelId);
  }

  // ---------------------------------------------------------------------
  // Model descriptor

  /**
   * A model descriptor: the four fields the routing layer rewrites, and
   * everything else (name, cost, context window, input kinds, reasoning
   * flag, ...) as one opaque `rest`.
   */
  datatype ModelDescriptor<Rest> = ModelDescriptor(
    id: string,
    api: string,
    provider: string,
    baseUrl: string,
    rest: Rest)

  /** `createOpenRouterModel`: the copy of `original` that targets OpenRouter. */
  function CreateOpenRouterModel<Rest>(original: ModelDescriptor<Rest>): (routed: ModelDescriptor<Rest>)
    ensures routed.api == OpenAiCompletions
    ensures routed.baseUrl == OpenRouterBaseUrl
    ensures routed.provider == OpenRouterTag
    ensures routed.rest == original.rest
    ensures original.provider == OpenRouterTag ==> routed.id == original.id
    ensures original.provider != OpenRouterTag ==>
      routed.id == MapToOpenRouterModelId(original.provider, original.id)
  {
    var id :=
      if original.provider == OpenRouterTag then original.id
      else MapToOpenRouterModelId(original.provider, original.id);
    original.(id := id, api := OpenAiCompletions, baseUrl := OpenRouterBaseUrl, provider := OpenRouterTag)
  }

  /** Routing an already routed descriptor changes nothing. */
  lemma CreateOpenRouterModelIdempotent<Rest>(original: ModelDescriptor<Rest>)
    ensures CreateOpenRouterModel(CreateOpenRouterModel(original)) == CreateOpenRouterModel(original)
  {
  }

  /** A routed descriptor still names its native provider, recoverable from its id. */
  lemma RoutedModelResolvesToNativeProvider<Rest>(original: ModelDescriptor<Rest>)
    requires original.provider != OpenRouterTag && '/' !in original.provider
    ensures var routed := CreateOpenRouterModel(original);
      ResolveRealProviderFromOpenRouter(Some(routed.provider), Some(routed.id))
        == ProviderPrefix(original.provider)
  {
    ParseAfterMapSlashFreeProvider(original.provider, original.id);
  }

  // ---------------------------------------------------------------------
  // Streaming pipeline

  type Headers = map<string, string>

  const AuthorizationHeader := "Authorization"
  const RefererHeader := "HTTP-Referer"
  const TitleHeader := "X-Title"
  const Referer := "https://openclaw.ai"
  const Title := "OpenClaw"

  /** The three header names the pipeline always sets. */
  const PipelineHeaderNames: set<string> := {AuthorizationHeader, RefererHeader, TitleHeader}

  /**
   * The caller's headers with the bearer credential and the two attribution
   * headers written last: the pipeline's values win on every collision,
   * every other caller header is kept, and nothing else is added.
   */
  function MergeHeaders(callerHeaders: Headers, apiKey: string): (merged: Headers)
    ensures merged.Keys == callerHeaders.Keys + PipelineHeaderNames
    ensures AuthorizationHeader in merged && merged[AuthorizationHeader] == "Bearer " + apiKey
    ensures RefererHeader in merged && merged[RefererHeader] == Referer
    ensures TitleHeader in merged && merged[TitleHeader] == Title
    ensures forall name :: name in callerHeaders && name !in PipelineHeaderNames ==>
      merged[name] == callerHeaders[name]
  {
    callerHeaders[AuthorizationHeader := "Bearer " + apiKey][RefererHeader := Referer][TitleHeader := Title]
  }

  /**
   * Streaming options: the optional header map and every other option, by
   * name. `others` never holds a "headers" entry: an options object has one
   * `headers` property, which is the `headers` field (see ValidOptions).
   */
  datatype StreamOptions<V> = StreamOptions(headers: Option<Headers>, others: map<string, V>)

  const HeadersOption := "headers"

  /** An options value a JavaScript options object can stand for. */
  predicate ValidOptions<V>(options: StreamOptions<V>) {
    HeadersOption !in options.others
  }

  /** The arguments handed to the generic streaming transport. */
  datatype StreamRequest<M, C, V> = StreamRequest(model: M, context: C, options: StreamOptions<V>)

  /**
   * The stream function `createOpenRouterStreamFn(apiKey)` returns, applied
   * to `(model, context, options)`: the request it hands to the transport.
   */
  function OpenRouterStreamRequest<M, C, V>(apiKey: string, model: M, context: C, options: Option<StreamOptions<V>>)
    : (request: StreamRequest<M, C, V>)
    requires options.Some? ==> ValidOptions(options.value)
    ensures ValidOptions(request.options)
    ensures request.model == model && request.context == context
    ensures request.options.others == if options.Some? then options.value.others else map[]
    ensures var caller := if options.Some? && options.value.headers.Some? then options.value.headers.value else map[];
      request.options.headers == Some(MergeHeaders(caller, apiKey))
  {
    var caller :=
      match options
      case Some(StreamOptions(Some(headers), _)) => headers
      case _ => map[];
    var others := if options.Some? then options.value.others else map[];
    StreamRequest(model, context, StreamOptions(Some(MergeHeaders(caller, apiKey)), others))
  }

  /** Whatever headers the caller passes, the request carries this key's bearer credential. */
  lemma CallerCannotReplaceCredential<M, C, V>(apiKey: string, model: M, context: C, options: Option<StreamOptions<V>>)
    requires options.Some? ==> ValidOptions(options.value)
    ensures var request := OpenRouterStreamRequest(apiKey, model, context, options);
      && request.options.headers.Some?
      && request.options.headers.value[AuthorizationHeader] == "Bearer " + apiKey
  {
  }

  // ---------------------------------------------------------------------
  // Enablement

  /**
   * `getOpenRouterApiKey`, with the value of `OPENROUTER_API_KEY` passed in:
   * the trimmed value, or None when it is unset or blank.
   */
  function GetOpenRouterApiKey(env: Option<string>): (key: Option<string>)
    ensures key.Some? <==> env.Some? && !AllSpace(env.value)
    ensures key.Some? ==> key.value == Trim(env.value)
    ensures key != Some("")
  {
    match env
    case None => None
    case Some(raw) => var trimmed := Trim(raw); if trimmed == "" then None else Some(trimmed)
  }

  /** A returned key has no whitespace at either end. */
  lemma ApiKeyIsTrimmed(env: Option<string>)
    requires GetOpenRouterApiKey(env).Some?
    ensures var key := GetOpenRouterApiKey(env).value;
      key != [] && !IsSpace(key[0]) && !IsSpace(key[|key| - 1])
      && Trim(key) == key
  {
    var key := Trim(env.value);
    assert GetOpenRouterApiKey(env) == Some(key);
    TrimOfTrimmed(key);
  }

  /** `isOpenRouterEnabled`: the credential is set and not blank. */
  function IsOpenRouterEnabled(env: Option<string>): (enabled: bool)
    ensures enabled <==> env.Some? && !AllSpace(env.value)
    ensures enabled <==> GetOpenRouterApiKey(env).Some?
  {
    match env
    case None => false
    case Some(raw) => Trim(raw) != ""
  }

  /**
   * `resolveRealProviderFromOpenRouter`: the native provider behind a
   * possibly routed `(provider, modelId)`; `null` and `undefined` are None.
   */
  function ResolveRealProviderFromOpenRouter(provider: Option<string>, modelId: Option<string>): (native: string)
    ensures provider.None? ==> native == ""
    ensures provider.Some? && provider.value != OpenRouterTag ==> native == provider.value
    ensures provider == Some(OpenRouterTag) && (modelId.None? || modelId.value == "") ==> native == OpenRouterTag
    ensures provider == Some(OpenRouterTag) && modelId.Some? && modelId.value != "" ==>
      native == ParseOpenRouterModelId(modelId.value).provider
    ensures provider == Some(OpenRouterTag) ==> '/' !in native
  {
    if provider != Some(OpenRouterTag) || modelId.None? || modelId.value == "" then
      match provider
      case Some(p) => p
      case None => ""
    else
      ParseOpenRouterModelId(modelId.value).provider
  }
}
