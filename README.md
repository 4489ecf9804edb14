# Model registry of a chat application, in Dafny

This project models the model registry of a chat application
(`src/lib/ai/models.ts`). The registry holds a fixed, ordered catalog of
providers, each listing models with a gateway id, a display name and optional
capability flags. At start-up it builds two lookup tables from the catalog:
gateway id → configuration, and `"provider/name"` → gateway id. Its read API
resolves an optional `{provider, model}` selection to a backend handle through
a lazily filled handle cache, falling back to the default model
`openai/gpt-4.1`. It answers two capability queries with permissive defaults,
and it projects the catalog for display.

The project has three modules, one per concern of the source file:

- `Catalog` (`catalog.dfy`): the `ModelConfig` and `ProviderConfig` records,
  the catalog as a constant (`ModelConfigs`), the default id, and the facts
  the rest relies on. All gateway ids are distinct. Display names are distinct
  within a provider. Provider names are distinct and contain no `/`. No id is
  empty. The default id is the first model of the catalog.
- `Indices` (`indices.dfy`): the nested loop that fills the two tables
  (`BuildIndices`). It is proved equal to a specification fold (`Index` over
  `Entries`) that sets one key per model in visiting order, later writes
  winning, exactly as `Map.set` does. Around it are lemmas on that fold: which
  keys it holds, which value wins, and that with distinct keys no insertion
  overwrites another (`IndicesMeaning`). The `"provider/name"` key is shown to
  be unambiguous for slash-free provider names (`KeyInjective`). So the static
  catalog's tables hold exactly one entry per model (`CatalogIndicesExact`).
- `Registry` (`registry.dfy`): the handle class `LanguageModel`, the gateway
  factory, and the module-level state as the class `ModelRegistry`. That class
  holds the two tables, the handle cache and two ghost logs: the ids handed to
  the factory and the keys warned about. It offers `getOrCreateModel` and
  `getModel` as methods. The capability queries are functions over the id
  table, and `modelsInfo` is a function over the catalog. Lemmas tie each of
  them to the catalog.

Assumptions and modelling choices:

- The gateway factory `gateway(id)` is external. `Gateway` stands in for it
  and returns a fresh handle whose `modelId` is `id`. The capability queries
  depend on that assumption when they read `model.modelId`.
- The MIME-type tables come from a module outside this model. They are
  constants whose values are left open.
- `console.warn` is recorded in the ghost sequence `warnings`, one key per
  warning. The factory calls are recorded in the ghost sequence `created`. The
  registry invariant states that each id appears there at most once: each
  handle is built once.
- The selection type `ChatModel` is defined elsewhere. Here it is a record of
  two strings, `provider` and `model`.
- `getModel` tests `!gatewayId`, so an id that is the empty string counts as
  "not found". The model keeps that case (`FallsBack`). For the static catalog
  it never arises, because no id is empty.
- The tables are built by `Map.set`, which silently overwrites an earlier
  entry with the same key; a malformed catalog would not fail at start-up. The
  model follows the code (last write wins) and proves that the static catalog
  has no duplicate id or key.

## Model

| member | source | states |
|---|---|---|
| Catalog.CatalogIdsDistinct | src/lib/ai/models.ts:31-159 | no two models of the catalog share a gateway id |
| Catalog.CatalogNamesDistinct | src/lib/ai/models.ts:31-159 | within each provider no two models share a display name |
| Catalog.CatalogProvidersDistinct | src/lib/ai/models.ts:31-159 | provider names are pairwise distinct and contain no '/' |
| Catalog.CatalogIdsNonEmpty | src/lib/ai/models.ts:31-159 | no gateway id is the empty string, so the truthiness test of getModel never rejects a catalog id |
| Catalog.DefaultModelInCatalog | src/lib/ai/models.ts:196 | the default id is the id of the catalog's first model, "gpt-4.1" of provider "openai" |
| Indices.IndexDomain | src/lib/ai/models.ts:183-190 | after the writes, every written key is present, and every present key holds the value written by some entry with that key |
| Indices.IndexLastWins | src/lib/ai/models.ts:185-188 | an entry that no later entry overwrites is what the table holds under its key |
| Indices.EntriesAreModels | src/lib/ai/models.ts:183-184 | the nested loop visits exactly the (provider, model) pairs of the catalog |
| Indices.EntriesDistinct | src/lib/ai/models.ts:183-190 | a key that tells the models apart tells apart every two steps of the loop |
| Indices.IndexKeys | src/lib/ai/models.ts:180-190 | the table's keys are exactly the keys of the catalog's models, no other key |
| Indices.IndexExact | src/lib/ai/models.ts:180-190 | when keys are distinct, each model's key maps to that model's value |
| Indices.FirstSlashOfKey | src/lib/ai/models.ts:187 | in "provider/name" with a slash-free provider, the first '/' ends the provider |
| Indices.KeyInjective | src/lib/ai/models.ts:187 | for slash-free providers, the key "provider/name" determines both the provider and the name |
| Indices.CatalogKeysDistinct | src/lib/ai/models.ts:31-159 | the catalog's ids and its "provider/name" keys each tell its models apart |
| Indices.IndicesMeaning | src/lib/ai/models.ts:180-190 | the id table holds exactly the catalog's ids, the name table exactly its keys; with distinct keys, each id maps to its configuration and each key to its id |
| Indices.CatalogIndicesExact | src/lib/ai/models.ts:180-190 | for the static catalog every model is found under its id and under its key, and the default id and the default pair are present |
| Indices.BuildIndices | src/lib/ai/models.ts:180-190 | the nested loop leaves both tables equal to the specification fold over the catalog |
| Registry.Gateway | src/lib/ai/models.ts:170 | the factory returns a new handle whose modelId is the requested id (an assumption about the external SDK) |
| Registry.ResolveModelId | src/lib/ai/models.ts:222-236 | no selection gives the default id; an unusable key gives the default id; otherwise the id the key maps to, which is non-empty |
| Registry.IsToolCallUnsupportedModel | src/lib/ai/models.ts:198-201 | true only for a handle whose id is known and whose flag is set to true; false for an unknown id or an unset flag |
| Registry.GetFilePartSupportedMimeTypes | src/lib/ai/models.ts:203-208 | the configured list of a known id; the global default list for an unknown id or an unset list |
| Registry.ModelsInfo | src/lib/ai/models.ts:210-220 | one entry per provider in order, one per model in order, unset flags shown as false, an unset MIME list as [] (not the global default), hasAPIKey always true |
| Registry.ModelRegistry.constructor | src/lib/ai/models.ts:180-190 | start-up builds both tables from the catalog and leaves the cache empty |
| Registry.ModelRegistry.GetOrCreateModel | src/lib/ai/models.ts:165-174 | on a hit returns the cached handle and changes nothing, without calling the factory; on a miss calls the factory once and adds exactly that id; other entries unchanged |
| Registry.ModelRegistry.GetModel | src/lib/ai/models.ts:222-236 | returns the cached handle of the resolved id, always a catalog id; warns exactly when a given selection's key is unusable |
| Registry.ModelRegistry.GetModelTwice | src/lib/ai/models.ts:222-236 | two lookups of selections that resolve to the same id return the same handle object, the one for that id, with at most one factory call |
| Registry.ModelRegistry.DefaultSelectionSharesHandle | src/lib/ai/models.ts:222-236 | getModel() and getModel({provider: "openai", model: "gpt-4.1"}) return the same handle object, whose id is the default id |
| Registry.ResolvesToCatalogModel | src/lib/ai/models.ts:222-236 | every selection, known, unknown or absent, resolves to an id of the catalog, so getModel never fails |
| Registry.ResolveCatalogSelection | src/lib/ai/models.ts:227-235 | selecting a catalog model by provider and display name resolves to its gateway id without a warning |
| Registry.FallsBackIffUnknown | src/lib/ai/models.ts:227-233 | a selection falls back, with a warning, if and only if its key is not the key of any catalog model |
| Registry.FallsBackIffUnlisted | src/lib/ai/models.ts:227-233 | for any catalog with distinct keys and non-empty ids, a selection falls back exactly when no listed model has its "provider/name" key |
| Registry.DefaultSelectionIsNoSelection | src/lib/ai/models.ts:223-224 | selecting openai/gpt-4.1 and selecting nothing resolve to the same id |
| Registry.UnknownProviderFallsBack | src/lib/ai/models.ts:230-233 | a selection from provider "nonexistent" resolves to the default id with a warning |
| Registry.CapabilitiesOfCatalogModel | src/lib/ai/models.ts:198-208 | on a catalog model's handle the queries return its flag (unset as false) and its list (unset as the global default) |
| Registry.CapabilitiesOfUnknownModel | src/lib/ai/models.ts:198-208 | on a handle whose id is not in the catalog the queries answer false and the global default list |
| Registry.CapabilityExamples | src/lib/ai/models.ts:198-208 | o4-mini cannot take tool calls, gpt-4.1 can; claude-sonnet-4-5 gets the Anthropic list, o3 the global default |
| Registry.ModelsInfoAgreesWithQueries | src/lib/ai/models.ts:210-220 | the display flags agree with the queries; an unset MIME list is shown as [] while the query returns the global default |

## Left out

- The contents of the MIME-type tables: they live in a module that is not part of this model, so the constants are fixed but unspecified.
- The gateway SDK itself (its protocol, authentication and errors): it is replaced by the assumption stated on `Gateway`.
- The text printed by `console.warn`: it is I/O. Only the warned key is recorded, in a ghost log.
- Concurrent first accesses to the cache: the model is single-threaded. The benign race in which two callers both build a handle for one id is not represented.
- The `"server-only"` import and the type-only imports: they are framework plumbing with no behaviour.
- Registry.IsToolCallUnsupportedModel: it takes the id table as a parameter instead of reading module state. Callers pass the registry's `modelConfigMap`.
- Registry.GetFilePartSupportedMimeTypes: it takes the id table as a parameter, for the same reason. It returns the configured sequence by value, so aliasing of the readonly array is not modelled.
- Registry.ModelsInfo: it is a function of the catalog, not a property computed once. The copy made by the spread is not modelled, since values have no identity.
