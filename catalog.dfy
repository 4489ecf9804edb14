/** The static model catalog of the chat application's model registry:
    the record types of a provider and of one of its models, the MIME-type
    tables they refer to, the ordered catalog itself and the facts about it
    that the indices and the resolver rely on. */
module Catalog {

  datatype Option<T> = None | Some(value: T)

  /** One model offered through the gateway. `id` is the opaque gateway key
      (conventionally "provider/model"), `name` the display name; the three
      optional fields are capability overrides that the catalog may leave unset. */
  datatype ModelConfig = ModelConfig(
    id: string,
    name: string,
    toolCallUnsupported: Option<bool>,
    imageInputUnsupported: Option<bool>,
    fileMimeTypes: Option<seq<string>>)

  /** A provider and its models, in declaration order. */
  datatype ProviderConfig = ProviderConfig(provider: string, models: seq<ModelConfig>)

  // The MIME-type tables come from a separate module whose contents are not
  // part of this model: each is a fixed sequence whose value is left open.
  const DefaultFilePartMimeTypes: seq<string>
  const OpenAIFileMimeTypes: seq<string>
  const GeminiFileMimeTypes: seq<string>
  const AnthropicFileMimeTypes: seq<string>
  const XaiFileMimeTypes: seq<string>

  /** The gateway id used whenever no usable selection is given. */
  const DefaultModelId: string := "openai/gpt-4.1"

  /** The catalog, in declaration order. */
  const ModelConfigs: seq<ProviderConfig> := [
    ProviderConfig("openai", [
      ModelConfig("openai/gpt-4.1", "gpt-4.1", None, None, Some(OpenAIFileMimeTypes)),
      ModelConfig("openai/gpt-4.1-mini", "gpt-4.1-mini", None, None, Some(OpenAIFileMimeTypes)),
      ModelConfig("openai/o4-mini", "o4-mini", Some(true), None, None),
      ModelConfig("openai/o3", "o3", None, None, None),
      ModelConfig("openai/gpt-5.1-chat-latest", "gpt-5.1-chat", None, None, None),
      ModelConfig("openai/gpt-5.1", "gpt-5.1", None, None, None),
      ModelConfig("openai/gpt-5.1-codex", "gpt-5.1-codex", None, None, None),
      ModelConfig("openai/gpt-5.1-codex-mini", "gpt-5.1-codex-mini", None, None, None)
    ]),
    ProviderConfig("google", [
      ModelConfig("google/gemini-2.5-flash-lite", "gemini-2.5-flash-lite", None, None, Some(GeminiFileMimeTypes)),
      ModelConfig("google/gemini-2.5-flash", "gemini-2.5-flash", None, None, Some(GeminiFileMimeTypes)),
      ModelConfig("google/gemini-3-pro-preview", "gemini-3-pro", None, None, None),
      ModelConfig("google/gemini-2.5-pro", "gemini-2.5-pro", None, None, Some(GeminiFileMimeTypes))
    ]),
    ProviderConfig("anthropic", [
      ModelConfig("anthropic/claude-sonnet-4-5", "sonnet-4.5", None, None, Some(AnthropicFileMimeTypes)),
      ModelConfig("anthropic/claude-haiku-4-5", "haiku-4.5", None, None, None),
      ModelConfig("anthropic/claude-opus-4-5", "opus-4.5", None, None, Some(AnthropicFileMimeTypes))
    ]),
    ProviderConfig("xai", [
      ModelConfig("xai/grok-4-1-fast-non-reasoning", "grok-4-1-fast", None, None, Some(XaiFileMimeTypes)),
      ModelConfig("xai/grok-4-1", "grok-4-1", None, None, Some(XaiFileMimeTypes)),
      ModelConfig("xai/grok-3-mini", "grok-3-mini", None, None, Some(XaiFileMimeTypes))
    ]),
    ProviderConfig("groq", [
      ModelConfig("groq/moonshotai/kimi-k2-instruct", "kimi-k2-instruct", None, None, None),
      ModelConfig("groq/meta-llama/llama-4-scout-17b-16e-instruct", "llama-4-scout-17b", None, None, None),
      ModelConfig("groq/openai/gpt-oss-20b", "gpt-oss-20b", None, None, None),
      ModelConfig("groq/openai/gpt-oss-120b", "gpt-oss-120b", None, None, None),
      ModelConfig("groq/qwen/qwen3-32b", "qwen3-32b", None, None, None)
    ]),
    ProviderConfig("openRouter", [
      ModelConfig("openrouter/openai/gpt-oss-20b:free", "gpt-oss-20b:free", Some(true), None, None),
      ModelConfig("openrouter/qwen/qwen3-8b:free", "qwen3-8b:free", Some(true), None, None),
      ModelConfig("openrouter/qwen/qwen3-14b:free", "qwen3-14b:free", Some(true), None, None),
      ModelConfig("openrouter/qwen/qwen3-coder:free", "qwen3-coder:free", None, None, None),
      ModelConfig("openrouter/deepseek/deepseek-r1-0528:free", "deepseek-r1:free", Some(true), None, None),
      ModelConfig("openrouter/deepseek/deepseek-chat-v3-0324:free", "deepseek-v3:free", None, None, None),
      ModelConfig("openrouter/google/gemini-2.0-flash-exp:free", "gemini-2.0-flash-exp:free", Some(true), None, Some(GeminiFileMimeTypes))
    ])
  ]

  /** (i, j) names the j-th model of the i-th provider of `ps`. */
  predicate IsModelIndex(ps: seq<ProviderConfig>, i: int, j: int) {
    0 <= i < |ps| && 0 <= j < |ps[i].models|
  }

  /** Within each provider, gateway ids occur once. */
  lemma IdsDistinctWithinProviders()
    ensures forall i, j, j' ::
      IsModelIndex(ModelConfigs, i, j) && IsModelIndex(ModelConfigs, i, j') && j < j' ==>
        ModelConfigs[i].models[j].id != ModelConfigs[i].models[j'].id
  {
  }

  /** The first two providers share no gateway id with a later provider. */
  lemma IdsDistinctAcrossFirstProviders()
    ensures forall i, j, i', j' ::
      IsModelIndex(ModelConfigs, i, j) && IsModelIndex(ModelConfigs, i', j') && i < i' && i < 2 ==>
        ModelConfigs[i].models[j].id != ModelConfigs[i'].models[j'].id
  {
  }

  /** The remaining providers share no gateway id with a later provider. */
  lemma IdsDistinctAcrossLastProviders()
    ensures forall i, j, i', j' ::
      IsModelIndex(ModelConfigs, i, j) && IsModelIndex(ModelConfigs, i', j') && 2 <= i < i' ==>
        ModelConfigs[i].models[j].id != ModelConfigs[i'].models[j'].id
  {
  }

  /** Every gateway id occurs once in the whole catalog. */
  lemma CatalogIdsDistinct()
    ensures forall i, j, i', j' ::
      IsModelIndex(ModelConfigs, i, j) && IsModelIndex(ModelConfigs, i', j') && (i, j) != (i', j') ==>
        ModelConfigs[i].models[j].id != ModelConfigs[i'].models[j'].id
  {
    IdsDistinctWithinProviders();
    IdsDistinctAcrossFirstProviders();
    IdsDistinctAcrossLastProviders();
  }

  /** Within each provider, display names occur once. */
  lemma CatalogNamesDistinct()
    ensures forall i, j, j' ::
      IsModelIndex(ModelConfigs, i, j) && IsModelIndex(ModelConfigs, i, j') && j != j' ==>
        ModelConfigs[i].models[j].name != ModelConfigs[i].models[j'].name
  {
  }

  /** Provider names occur once and contain no '/', so "provider/name" keys
      cannot collide across providers. */
  lemma CatalogProvidersDistinct()
    ensures forall i, i' :: 0 <= i < i' < |ModelConfigs| ==> ModelConfigs[i].provider != ModelConfigs[i'].provider
    ensures forall i :: 0 <= i < |ModelConfigs| ==> '/' !in ModelConfigs[i].provider
  {
  }

  /** No gateway id is the empty string. */
  lemma CatalogIdsNonEmpty()
    ensures forall i, j :: IsModelIndex(ModelConfigs, i, j) ==> ModelConfigs[i].models[j].id != ""
  {
  }

  /** The default id is the first model of the first provider, "gpt-4.1" of "openai". */
  lemma DefaultModelInCatalog()
    ensures IsModelIndex(ModelConfigs, 0, 0)
    ensures ModelConfigs[0].provider == "openai" && ModelConfigs[0].models[0].name == "gpt-4.1"
    ensures ModelConfigs[0].models[0].id == DefaultModelId
  {
  }
}
