/** The registry's read API: the handle cache, resolution of a user's
    (provider, model) selection with fallback to the default model, the two
    capability queries and the catalog projection shown to clients. */
module Registry {
  import opened Catalog
  import opened Indices

  /** A backend model handle. Only its gateway id is observable here; two
      handles are the same handle when they are the same object. */
  class LanguageModel {
    const modelId: string

    constructor (modelId: string)
      ensures this.modelId == modelId
    {
      this.modelId := modelId;
    }
  }

  /** The gateway client's factory. It is external; the model assumes that it
      returns a new handle whose `modelId` is the id it was given. */
  method Gateway(gatewayId: string) returns (model: LanguageModel)
    ensures fresh(model) && model.modelId == gatewayId
  {
    model := new LanguageModel(gatewayId);
  }

  /** A user's selection: a provider name and a display name. */
  datatype ChatModel = ChatModel(provider: string, model: string)

  /** The selection's "provider/name" key names no usable gateway id: the
      key is absent, or maps to the empty string, which the source's
      truthiness test also treats as missing. */
  predicate FallsBack(byKey: map<string, string>, chatModel: ChatModel) {
    var key := Key(chatModel.provider, chatModel.model);
    key !in byKey || byKey[key] == ""
  }

  /** The gateway id `getModel` asks the cache for. */
  function ResolveModelId(byKey: map<string, string>, chatModel: Option<ChatModel>): (id: string)
    ensures chatModel.None? ==> id == DefaultModelId
    ensures chatModel.Some? && FallsBack(byKey, chatModel.value) ==> id == DefaultModelId
    ensures chatModel.Some? && !FallsBack(byKey, chatModel.value) ==>
      id == byKey[Key(chatModel.value.provider, chatModel.value.model)] && id != ""
  {
    match chatModel
    case None => DefaultModelId
    case Some(c) =>
      if FallsBack(byKey, c) then DefaultModelId else byKey[Key(c.provider, c.model)]
  }

  /** Whether the model behind `model` cannot take tool calls: the configured
      flag, and false for a model the table does not know or whose flag is unset. */
  function IsToolCallUnsupportedModel(modelConfigMap: map<string, ModelConfig>, model: LanguageModel): (r: bool)
    ensures r ==> model.modelId in modelConfigMap
    ensures model.modelId in modelConfigMap ==>
      (r <==> modelConfigMap[model.modelId].toolCallUnsupported == Some(true))
  {
    if model.modelId !in modelConfigMap then false
    else match modelConfigMap[model.modelId].toolCallUnsupported
      case Some(flag) => flag
      case None => false
  }

  /** The MIME types accepted as file parts: the configured list, and the
      global default list for a model the table does not know or whose list is unset. */
  function GetFilePartSupportedMimeTypes(modelConfigMap: map<string, ModelConfig>, model: LanguageModel): (r: seq<string>)
    ensures model.modelId !in modelConfigMap ==> r == DefaultFilePartMimeTypes
    ensures model.modelId in modelConfigMap ==>
      r == if modelConfigMap[model.modelId].fileMimeTypes.Some?
           then modelConfigMap[model.modelId].fileMimeTypes.value
           else DefaultFilePartMimeTypes
  {
    if model.modelId !in modelConfigMap then DefaultFilePartMimeTypes
    else match modelConfigMap[model.modelId].fileMimeTypes
      case Some(types) => types
      case None => DefaultFilePartMimeTypes
  }

  /** What clients are shown of one model. */
  datatype ModelInfo = ModelInfo(
    name: string,
    isToolCallUnsupported: bool,
    isImageInputUnsupported: bool,
    supportedFileMimeTypes: seq<string>)

  /** What clients are shown of one provider. */
  datatype ProviderInfo = ProviderInfo(provider: string, models: seq<ModelInfo>, hasAPIKey: bool)

  function ModelInfoOf(m: ModelConfig): ModelInfo {
    ModelInfo(
      m.name,
      m.toolCallUnsupported == Some(true),
      m.imageInputUnsupported == Some(true),
      if m.fileMimeTypes.Some? then m.fileMimeTypes.value else [])
  }

  function ProviderInfoOf(p: ProviderConfig): ProviderInfo {
    ProviderInfo(p.provider, seq(|p.models|, j requires 0 <= j < |p.models| => ModelInfoOf(p.models[j])), true)
  }

  /** `modelsInfo`: the catalog projected for display, provider by provider
      and model by model in declaration order, unset flags shown as false and
      an unset MIME list as the empty list; every provider reports an API key. */
  function ModelsInfo(ps: seq<ProviderConfig>): (r: seq<ProviderInfo>)
    ensures |r| == |ps|
    ensures forall i :: 0 <= i < |ps| ==>
      r[i].provider == ps[i].provider && r[i].hasAPIKey && |r[i].models| == |ps[i].models|
    ensures forall i, j :: IsModelIndex(ps, i, j) ==>
      var info, m := r[i].models[j], ps[i].models[j];
      && info.name == m.name
      && (info.isToolCallUnsupported <==> m.toolCallUnsupported == Some(true))
      && (info.isImageInputUnsupported <==> m.imageInputUnsupported == Some(true))
      && (m.fileMimeTypes.None? ==> info.supportedFileMimeTypes == [])
      && (m.fileMimeTypes.Some? ==> info.supportedFileMimeTypes == m.fileMimeTypes.value)
  {
    seq(|ps|, i requires 0 <= i < |ps| => ProviderInfoOf(ps[i]))
  }

  /** The module-level state of the registry: the two tables built once at
      start-up, and the handle cache filled lazily. */
  class ModelRegistry {
    const modelConfigMap: map<string, ModelConfig>
    const modelIdByProviderAndName: map<string, string>
    var modelCache: map<string, LanguageModel>
    /** The ids handed to the gateway factory, in call order. */
    ghost var created: seq<string>
    /** The keys reported by the "model not found" warning, in order. */
    ghost var warnings: seq<string>

    ghost predicate Valid()
      reads this
    {
      && modelConfigMap == ConfigIndex(ModelConfigs)
      && modelIdByProviderAndName == NameIndex(ModelConfigs)
      && (forall id :: id in modelCache ==> modelCache[id].modelId == id)
      && (forall id :: id in modelCache <==> id in created)
      && (forall k, k' :: 0 <= k < k' < |created| ==> created[k] != created[k'])
    }

    /** Module initialisation: build both tables; the cache starts empty. */
    constructor ()
      ensures Valid()
      ensures modelCache == map[] && created == [] && warnings == []
    {
      var byId, byKey := BuildIndices(ModelConfigs);
      modelConfigMap := byId;
      modelIdByProviderAndName := byKey;
      modelCache := map[];
      created := [];
      warnings := [];
    }

    /** `getOrCreateModel`: the cached handle for `gatewayId`, or a new one
        from the factory, which is then cached. */
    method GetOrCreateModel(gatewayId: string) returns (model: LanguageModel)
      requires Valid()
      modifies this
      ensures Valid()
      ensures model.modelId == gatewayId
      ensures gatewayId in modelCache && modelCache[gatewayId] == model
      ensures gatewayId in old(modelCache) ==>
        model == old(modelCache[gatewayId]) && modelCache == old(modelCache) && created == old(created)
      ensures gatewayId !in old(modelCache) ==>
        fresh(model) && modelCache == old(modelCache)[gatewayId := model] && created == old(created) + [gatewayId]
      ensures warnings == old(warnings)
    {
      if gatewayId in modelCache {
        model := modelCache[gatewayId];
      } else {
        model := Gateway(gatewayId);
        modelCache := modelCache[gatewayId := model];
        created := created + [gatewayId];
      }
    }

    /** `getModel`: the handle for the selected model, or for the default
        model when there is no selection or the selection is unknown, in
        which case a warning is recorded. It never fails, and the id it
        resolves to is always one of the catalog's. */
    method GetModel(chatModel: Option<ChatModel>) returns (model: LanguageModel)
      requires Valid()
      modifies this
      ensures Valid()
      ensures model.modelId == ResolveModelId(modelIdByProviderAndName, chatModel)
      ensures model.modelId in modelConfigMap
      ensures model.modelId in modelCache && modelCache[model.modelId] == model
      ensures var id := ResolveModelId(modelIdByProviderAndName, chatModel);
        id in old(modelCache) ==>
          model == old(modelCache[id]) && modelCache == old(modelCache) && created == old(created)
      ensures var id := ResolveModelId(modelIdByProviderAndName, chatModel);
        id !in old(modelCache) ==>
          fresh(model) && modelCache == old(modelCache)[id := model] && created == old(created) + [id]
      ensures warnings == old(warnings) +
        if chatModel.Some? && FallsBack(modelIdByProviderAndName, chatModel.value)
        then [Key(chatModel.value.provider, chatModel.value.model)] else []
    {
      ResolvesToCatalogModel(chatModel);
      if chatModel.None? {
        model := GetOrCreateModel(DefaultModelId);
        return;
      }
      var key := chatModel.value.provider + "/" + chatModel.value.model;
      if key !in modelIdByProviderAndName || modelIdByProviderAndName[key] == "" {
        warnings := warnings + [key];
        model := GetOrCreateModel(DefaultModelId);
        return;
      }
      model := GetOrCreateModel(modelIdByProviderAndName[key]);
    }

    /** Two lookups of selections that resolve to the same id give the same
        handle, and the factory is called at most once between them. */
    method GetModelTwice(c1: Option<ChatModel>, c2: Option<ChatModel>) returns (first: LanguageModel, second: LanguageModel)
      requires Valid()
      requires ResolveModelId(modelIdByProviderAndName, c1) == ResolveModelId(modelIdByProviderAndName, c2)
      modifies this
      ensures Valid()
      ensures first == second && first.modelId == ResolveModelId(modelIdByProviderAndName, c1)
      ensures |created| <= |old(created)| + 1
    {
      first := GetModel(c1);
      second := GetModel(c2);
    }

    /** Asking for no model and asking for openai/gpt-4.1 give the same
        handle object. */
    method DefaultSelectionSharesHandle() returns (unselected: LanguageModel, selected: LanguageModel)
      requires Valid()
      modifies this
      ensures Valid()
      ensures unselected == selected
      ensures unselected.modelId == DefaultModelId
    {
      DefaultSelectionIsNoSelection();
      unselected, selected := GetModelTwice(None, Some(ChatModel("openai", "gpt-4.1")));
    }
  }

  /** Resolution against the catalog's tables always lands on a catalog id. */
  lemma ResolvesToCatalogModel(chatModel: Option<ChatModel>)
    ensures ResolveModelId(NameIndex(ModelConfigs), chatModel) in ConfigIndex(ModelConfigs)
  {
    CatalogIndicesExact();
    var id := ResolveModelId(NameIndex(ModelConfigs), chatModel);
    if id != DefaultModelId {
      IndicesMeaning(ModelConfigs);
      var key := Key(chatModel.value.provider, chatModel.value.model);
      var i, j :| IsModelIndex(ModelConfigs, i, j) && Key(ModelConfigs[i].provider, ModelConfigs[i].models[j].name) == key;
    }
  }

  /** Selecting a catalog model by its provider and display name resolves to
      that model's gateway id, with no warning. */
  lemma ResolveCatalogSelection(i: int, j: int)
    requires IsModelIndex(ModelConfigs, i, j)
    ensures !FallsBack(NameIndex(ModelConfigs), ChatModel(ModelConfigs[i].provider, ModelConfigs[i].models[j].name))
    ensures ResolveModelId(NameIndex(ModelConfigs), Some(ChatModel(ModelConfigs[i].provider, ModelConfigs[i].models[j].name)))
      == ModelConfigs[i].models[j].id
  {
    CatalogIndicesExact();
    CatalogIdsNonEmpty();
  }

  /** A selection falls back to the default, with a warning, exactly when its
      "provider/name" key is not the key of any catalog model. */
  lemma FallsBackIffUnknown(c: ChatModel)
    ensures FallsBack(NameIndex(ModelConfigs), c) <==>
      !exists i, j :: IsModelIndex(ModelConfigs, i, j) &&
        Key(ModelConfigs[i].provider, ModelConfigs[i].models[j].name) == Key(c.provider, c.model)
    ensures FallsBack(NameIndex(ModelConfigs), c) ==> ResolveModelId(NameIndex(ModelConfigs), Some(c)) == DefaultModelId
  {
    CatalogKeysDistinct();
    CatalogIdsNonEmpty();
    FallsBackIffUnlisted(ModelConfigs, c);
  }

  /** For any catalog with distinct keys and non-empty ids, a selection falls
      back exactly when its key is not the key of a listed model. */
  lemma FallsBackIffUnlisted(ps: seq<ProviderConfig>, c: ChatModel)
    requires NestedDistinct(ps, EntryKey)
    requires forall i, j :: IsModelIndex(ps, i, j) ==> ps[i].models[j].id != ""
    ensures FallsBack(NameIndex(ps), c) <==>
      !exists i, j :: IsModelIndex(ps, i, j) && Key(ps[i].provider, ps[i].models[j].name) == Key(c.provider, c.model)
  {
    IndicesMeaning(ps);
    if exists i, j :: IsModelIndex(ps, i, j) && Key(ps[i].provider, ps[i].models[j].name) == Key(c.provider, c.model) {
      var i, j :| IsModelIndex(ps, i, j) && Key(ps[i].provider, ps[i].models[j].name) == Key(c.provider, c.model);
      assert NameIndex(ps)[Key(c.provider, c.model)] == ps[i].models[j].id;
    }
  }

  /** No selection and the selection of the default model give the same id. */
  lemma DefaultSelectionIsNoSelection()
    ensures ResolveModelId(NameIndex(ModelConfigs), Some(ChatModel("openai", "gpt-4.1")))
      == ResolveModelId(NameIndex(ModelConfigs), None)
      == DefaultModelId
  {
    DefaultModelInCatalog();
    ResolveCatalogSelection(0, 0);
  }

  /** An unknown provider falls back to the default model, with a warning. */
  lemma UnknownProviderFallsBack(name: string)
    ensures FallsBack(NameIndex(ModelConfigs), ChatModel("nonexistent", name))
    ensures ResolveModelId(NameIndex(ModelConfigs), Some(ChatModel("nonexistent", name))) == DefaultModelId
  {
    CatalogProvidersDistinct();
    FallsBackIffUnknown(ChatModel("nonexistent", name));
    forall i, j | IsModelIndex(ModelConfigs, i, j)
      ensures Key(ModelConfigs[i].provider, ModelConfigs[i].models[j].name) != Key("nonexistent", name)
    {
      if Key(ModelConfigs[i].provider, ModelConfigs[i].models[j].name) == Key("nonexistent", name) {
        KeyInjective(ModelConfigs[i].provider, ModelConfigs[i].models[j].name, "nonexistent", name);
      }
    }
  }

  /** The capability queries on the handle of a catalog model report that
      model's configuration, the unset fields read as false and as the
      global default list. */
  lemma CapabilitiesOfCatalogModel(model: LanguageModel, i: int, j: int)
    requires IsModelIndex(ModelConfigs, i, j) && model.modelId == ModelConfigs[i].models[j].id
    ensures IsToolCallUnsupportedModel(ConfigIndex(ModelConfigs), model)
      == (ModelConfigs[i].models[j].toolCallUnsupported == Some(true))
    ensures GetFilePartSupportedMimeTypes(ConfigIndex(ModelConfigs), model)
      == if ModelConfigs[i].models[j].fileMimeTypes.Some? then ModelConfigs[i].models[j].fileMimeTypes.value
         else DefaultFilePartMimeTypes
  {
    CatalogIndicesExact();
  }

  /** A handle whose id is not in the catalog is taken to support tool calls
      and the global default MIME list. */
  lemma CapabilitiesOfUnknownModel(model: LanguageModel)
    requires forall i, j :: IsModelIndex(ModelConfigs, i, j) ==> ModelConfigs[i].models[j].id != model.modelId
    ensures !IsToolCallUnsupportedModel(ConfigIndex(ModelConfigs), model)
    ensures GetFilePartSupportedMimeTypes(ConfigIndex(ModelConfigs), model) == DefaultFilePartMimeTypes
  {
    IndicesMeaning(ModelConfigs);
  }

  /** "openai/o4-mini" cannot take tool calls; "openai/gpt-4.1" can;
      "anthropic/claude-sonnet-4-5" accepts the Anthropic MIME list; "openai/o3",
      which configures none, accepts the global default list. */
  lemma CapabilityExamples(o4Mini: LanguageModel, gpt41: LanguageModel, sonnet: LanguageModel, o3: LanguageModel)
    requires o4Mini.modelId == "openai/o4-mini" && gpt41.modelId == "openai/gpt-4.1"
    requires sonnet.modelId == "anthropic/claude-sonnet-4-5" && o3.modelId == "openai/o3"
    ensures IsToolCallUnsupportedModel(ConfigIndex(ModelConfigs), o4Mini)
    ensures !IsToolCallUnsupportedModel(ConfigIndex(ModelConfigs), gpt41)
    ensures GetFilePartSupportedMimeTypes(ConfigIndex(ModelConfigs), sonnet) == AnthropicFileMimeTypes
    ensures GetFilePartSupportedMimeTypes(ConfigIndex(ModelConfigs), o3) == DefaultFilePartMimeTypes
  {
    CapabilitiesOfCatalogModel(o4Mini, 0, 2);
    CapabilitiesOfCatalogModel(gpt41, 0, 0);
    CapabilitiesOfCatalogModel(sonnet, 2, 0);
    CapabilitiesOfCatalogModel(o3, 0, 3);
  }

  /** What `modelsInfo` shows of a catalog model agrees with the capability
      queries on its handle, except that an unset MIME list is shown as the
      empty list while the query answers with the global default list. */
  lemma ModelsInfoAgreesWithQueries(model: LanguageModel, i: int, j: int)
    requires IsModelIndex(ModelConfigs, i, j) && model.modelId == ModelConfigs[i].models[j].id
    ensures ModelsInfo(ModelConfigs)[i].models[j].isToolCallUnsupported
      == IsToolCallUnsupportedModel(ConfigIndex(ModelConfigs), model)
    ensures ModelConfigs[i].models[j].fileMimeTypes.Some? ==>
      ModelsInfo(ModelConfigs)[i].models[j].supportedFileMimeTypes
        == GetFilePartSupportedMimeTypes(ConfigIndex(ModelConfigs), model)
    ensures ModelConfigs[i].models[j].fileMimeTypes.None? ==>
      ModelsInfo(ModelConfigs)[i].models[j].supportedFileMimeTypes == [] &&
      GetFilePartSupportedMimeTypes(ConfigIndex(ModelConfigs), model) == DefaultFilePartMimeTypes
  {
    CapabilitiesOfCatalogModel(model, i, j);
  }
}
