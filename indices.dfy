/** The two lookup tables built once from the catalog: gateway id to model
    configuration, and "provider/name" to gateway id. They are filled by a
    nested loop that sets one entry per model, later entries overwriting
    earlier ones with the same key, exactly as repeated `Map.set` does. */
module Indices {
  import opened Catalog

  /** A model together with the provider it is listed under. */
  datatype Entry = Entry(provider: string, model: ModelConfig)

  function EntryAt(ps: seq<ProviderConfig>, i: int, j: int): Entry
    requires IsModelIndex(ps, i, j)
  {
    Entry(ps[i].provider, ps[i].models[j])
  }

  /** The selection key "provider/name" of the template string. */
  function Key(provider: string, name: string): string {
    provider + "/" + name
  }

  function EntryId(e: Entry): string { e.model.id }
  function EntryModel(e: Entry): ModelConfig { e.model }
  function EntryKey(e: Entry): string { Key(e.provider, e.model.name) }

  function Tagged(provider: string, ms: seq<ModelConfig>): seq<Entry> {
    seq(|ms|, j requires 0 <= j < |ms| => Entry(provider, ms[j]))
  }

  /** The entries of `ps` in the order the nested loop visits them. */
  function Entries(ps: seq<ProviderConfig>): seq<Entry> {
    if ps == [] then []
    else Entries(ps[..|ps| - 1]) + Tagged(ps[|ps| - 1].provider, ps[|ps| - 1].models)
  }

  /** The map left by setting `key(e)` to `val(e)` for every entry `e` of `es`
      in order, starting from the empty map. */
  function Index<V>(es: seq<Entry>, key: Entry -> string, val: Entry -> V): map<string, V> {
    if es == [] then map[]
    else Index(es[..|es| - 1], key, val)[key(es[|es| - 1]) := val(es[|es| - 1])]
  }

  /** `modelConfigMap` as the loop leaves it. */
  function ConfigIndex(ps: seq<ProviderConfig>): map<string, ModelConfig> {
    Index(Entries(ps), EntryId, EntryModel)
  }

  /** `modelIdByProviderAndName` as the loop leaves it. */
  function NameIndex(ps: seq<ProviderConfig>): map<string, string> {
    Index(Entries(ps), EntryKey, EntryId)
  }

  /** `f` tells apart any two different models of `ps`. */
  ghost predicate NestedDistinct(ps: seq<ProviderConfig>, f: Entry -> string) {
    forall i, j, i', j' ::
      IsModelIndex(ps, i, j) && IsModelIndex(ps, i', j') && (i, j) != (i', j') ==>
        f(EntryAt(ps, i, j)) != f(EntryAt(ps, i', j'))
  }

  /** `f` tells apart any two positions of `es`. */
  ghost predicate DistinctBy(es: seq<Entry>, f: Entry -> string) {
    forall k, k' :: 0 <= k < k' < |es| ==> f(es[k]) != f(es[k'])
  }

  /** Every key written is present, and every key present was written by some
      entry, whose value it holds. */
  lemma {:induction false} IndexDomain<V>(es: seq<Entry>, key: Entry -> string, val: Entry -> V)
    ensures forall k :: 0 <= k < |es| ==> key(es[k]) in Index(es, key, val)
    ensures forall x :: x in Index(es, key, val) ==>
      exists k :: 0 <= k < |es| && key(es[k]) == x && Index(es, key, val)[x] == val(es[k])
  {
    if es != [] {
      var init := es[..|es| - 1];
      IndexDomain(init, key, val);
      forall x | x in Index(es, key, val)
        ensures exists k :: 0 <= k < |es| && key(es[k]) == x && Index(es, key, val)[x] == val(es[k])
      {
        if x != key(es[|es| - 1]) {
          var k :| 0 <= k < |init| && key(init[k]) == x && Index(init, key, val)[x] == val(init[k]);
          assert es[k] == init[k];
        }
      }
      forall k | 0 <= k < |es| ensures key(es[k]) in Index(es, key, val) {
        if k < |init| {
          assert es[k] == init[k];
        }
      }
    }
  }

  /** Later writes win: an entry that no later entry overwrites is what the
      map holds for its key. */
  lemma {:induction false} IndexLastWins<V>(es: seq<Entry>, key: Entry -> string, val: Entry -> V, k: int)
    requires 0 <= k < |es|
    requires forall k' :: k < k' < |es| ==> key(es[k']) != key(es[k])
    ensures key(es[k]) in Index(es, key, val) && Index(es, key, val)[key(es[k])] == val(es[k])
  {
    if k < |es| - 1 {
      var init := es[..|es| - 1];
      assert init[k] == es[k];
      forall k' | k < k' < |init| ensures key(init[k']) != key(init[k]) {
        assert init[k'] == es[k'];
      }
      IndexLastWins(init, key, val, k);
    }
  }

  /** `e` is the entry of some model of `ps`. */
  ghost predicate Listed(ps: seq<ProviderConfig>, e: Entry) {
    exists i, j :: IsModelIndex(ps, i, j) && EntryAt(ps, i, j) == e
  }

  /** The loop visits the models of `ps` and nothing else. */
  lemma {:induction false} EntriesAreModels(ps: seq<ProviderConfig>)
    ensures forall e :: e in Entries(ps) <==> Listed(ps, e)
  {
    if ps != [] {
      var init := ps[..|ps| - 1];
      var n := |ps| - 1;
      var last := Tagged(ps[n].provider, ps[n].models);
      EntriesAreModels(init);
      assert Entries(ps) == Entries(init) + last;
      forall e | e in Entries(ps) ensures Listed(ps, e) {
        if e in Entries(init) {
          var i, j :| IsModelIndex(init, i, j) && EntryAt(init, i, j) == e;
          assert init[i] == ps[i];
          assert EntryAt(ps, i, j) == e;
        } else {
          var j :| 0 <= j < |last| && last[j] == e;
          assert EntryAt(ps, n, j) == e;
        }
      }
      forall e | Listed(ps, e) ensures e in Entries(ps) {
        var i, j :| IsModelIndex(ps, i, j) && EntryAt(ps, i, j) == e;
        if i < n {
          assert init[i] == ps[i];
          assert EntryAt(init, i, j) == e;
          assert Listed(init, e);
        } else {
          assert last[j] == e;
        }
      }
    }
  }

  /** A function that tells the models of `ps` apart tells the positions of
      `Entries(ps)` apart. */
  lemma {:induction false} EntriesDistinct(ps: seq<ProviderConfig>, f: Entry -> string)
    requires NestedDistinct(ps, f)
    ensures DistinctBy(Entries(ps), f)
  {
    if ps != [] {
      var init := ps[..|ps| - 1];
      var n := |ps| - 1;
      var last := Tagged(ps[n].provider, ps[n].models);
      forall i, j, i', j' | IsModelIndex(init, i, j) && IsModelIndex(init, i', j') && (i, j) != (i', j')
        ensures f(EntryAt(init, i, j)) != f(EntryAt(init, i', j'))
      {
        assert EntryAt(init, i, j) == EntryAt(ps, i, j) && EntryAt(init, i', j') == EntryAt(ps, i', j');
      }
      EntriesDistinct(init, f);
      EntriesAreModels(init);
      var es := Entries(ps);
      assert es == Entries(init) + last;
      forall k, k' | 0 <= k < k' < |es| ensures f(es[k]) != f(es[k']) {
        var m := |Entries(init)|;
        if k' < m {
          assert es[k] == Entries(init)[k] && es[k'] == Entries(init)[k'];
        } else if k < m {
          assert Entries(init)[k] == es[k];
          assert es[k] in Entries(init);
          var i, j :| IsModelIndex(init, i, j) && EntryAt(init, i, j) == es[k];
          assert es[k] == EntryAt(ps, i, j);
          assert es[k'] == EntryAt(ps, n, k' - m);
        } else {
          assert es[k] == EntryAt(ps, n, k - m) && es[k'] == EntryAt(ps, n, k' - m);
        }
      }
    }
  }

  /** The index built over `ps` has exactly the keys of the models of `ps`. */
  lemma IndexKeys<V>(ps: seq<ProviderConfig>, key: Entry -> string, val: Entry -> V)
    ensures forall x :: x in Index(Entries(ps), key, val) <==>
      exists i, j :: IsModelIndex(ps, i, j) && key(EntryAt(ps, i, j)) == x
  {
    var es := Entries(ps);
    EntriesAreModels(ps);
    IndexDomain(es, key, val);
    forall x | x in Index(es, key, val)
      ensures exists i, j :: IsModelIndex(ps, i, j) && key(EntryAt(ps, i, j)) == x
    {
      var k :| 0 <= k < |es| && key(es[k]) == x && Index(es, key, val)[x] == val(es[k]);
      assert es[k] in es;
      var i, j :| IsModelIndex(ps, i, j) && EntryAt(ps, i, j) == es[k];
    }
    forall x | exists i, j :: IsModelIndex(ps, i, j) && key(EntryAt(ps, i, j)) == x
      ensures x in Index(es, key, val)
    {
      var i, j :| IsModelIndex(ps, i, j) && key(EntryAt(ps, i, j)) == x;
      assert Listed(ps, EntryAt(ps, i, j));
      var k :| 0 <= k < |es| && es[k] == EntryAt(ps, i, j);
    }
  }

  /** When the key tells the models of `ps` apart, no write overwrites
      another: each model's key holds that model's value. */
  lemma IndexExact<V>(ps: seq<ProviderConfig>, key: Entry -> string, val: Entry -> V)
    requires NestedDistinct(ps, key)
    ensures forall i, j :: IsModelIndex(ps, i, j) ==>
      key(EntryAt(ps, i, j)) in Index(Entries(ps), key, val) &&
      Index(Entries(ps), key, val)[key(EntryAt(ps, i, j))] == val(EntryAt(ps, i, j))
  {
    var es := Entries(ps);
    EntriesDistinct(ps, key);
    EntriesAreModels(ps);
    forall i, j | IsModelIndex(ps, i, j)
      ensures key(EntryAt(ps, i, j)) in Index(es, key, val)
      ensures Index(es, key, val)[key(EntryAt(ps, i, j))] == val(EntryAt(ps, i, j))
    {
      assert Listed(ps, EntryAt(ps, i, j));
      var k :| 0 <= k < |es| && es[k] == EntryAt(ps, i, j);
      IndexLastWins(es, key, val, k);
    }
  }

  /** The position of the first '/' of `s`, or `|s|` when there is none. */
  ghost function FirstSlash(s: string): (r: nat)
    ensures r <= |s|
    ensures forall k :: 0 <= k < r ==> s[k] != '/'
    ensures r < |s| ==> s[r] == '/'
  {
    if s == [] || s[0] == '/' then 0 else 1 + FirstSlash(s[1..])
  }

  /** In a key built from a slash-free provider name, the first '/' is the
      one the template string inserts. */
  lemma {:induction false} FirstSlashOfKey(p: string, n: string)
    requires '/' !in p
    ensures FirstSlash(Key(p, n)) == |p|
  {
    if p != [] {
      assert Key(p, n)[1..] == Key(p[1..], n);
      FirstSlashOfKey(p[1..], n);
    }
  }

  /** Keys built from slash-free provider names are unambiguous: the key
      determines both the provider and the display name. */
  lemma KeyInjective(p: string, n: string, p': string, n': string)
    requires '/' !in p && '/' !in p'
    requires Key(p, n) == Key(p', n')
    ensures p == p' && n == n'
  {
    var s := Key(p, n);
    FirstSlashOfKey(p, n);
    FirstSlashOfKey(p', n');
    assert p == s[..|p|] == p';
    assert n == s[|p| + 1..] == n';
  }

  /** The catalog's ids and its "provider/name" keys each tell its models apart. */
  lemma CatalogKeysDistinct()
    ensures NestedDistinct(ModelConfigs, EntryId)
    ensures NestedDistinct(ModelConfigs, EntryKey)
  {
    CatalogIdsDistinct();
    CatalogNamesDistinct();
    CatalogProvidersDistinct();
    forall i, j, i', j' |
      IsModelIndex(ModelConfigs, i, j) && IsModelIndex(ModelConfigs, i', j') && (i, j) != (i', j')
      ensures EntryKey(EntryAt(ModelConfigs, i, j)) != EntryKey(EntryAt(ModelConfigs, i', j'))
    {
      var p, p' := ModelConfigs[i].provider, ModelConfigs[i'].provider;
      var n, n' := ModelConfigs[i].models[j].name, ModelConfigs[i'].models[j'].name;
      if Key(p, n) == Key(p', n') {
        KeyInjective(p, n, p', n');
      }
    }
  }

  /** One more write extends the fold by one step. */
  lemma IndexSnoc<V>(es: seq<Entry>, e: Entry, key: Entry -> string, val: Entry -> V)
    ensures Index(es + [e], key, val) == Index(es, key, val)[key(e) := val(e)]
  {
    assert (es + [e])[..|es|] == es;
  }

  /** One more model extends a provider's entries by one. */
  lemma TaggedSnoc(provider: string, ms: seq<ModelConfig>, j: int)
    requires 0 <= j < |ms|
    ensures Tagged(provider, ms[..j + 1]) == Tagged(provider, ms[..j]) + [Entry(provider, ms[j])]
  {
    var a, b := Tagged(provider, ms[..j + 1]), Tagged(provider, ms[..j]) + [Entry(provider, ms[j])];
    assert |a| == |b|;
    forall k | 0 <= k < |a| ensures a[k] == b[k] {
      if k < j {
        assert a[k] == Entry(provider, ms[k]) == b[k];
      }
    }
  }

  /** One more provider extends the visiting order by its models. */
  lemma EntriesSnoc(ps: seq<ProviderConfig>, i: int)
    requires 0 <= i < |ps|
    ensures Entries(ps[..i + 1]) == Entries(ps[..i]) + Tagged(ps[i].provider, ps[i].models)
  {
    assert ps[..i + 1][..i] == ps[..i];
  }

  /** What the two tables hold after initialisation: exactly the ids (and the
      "provider/name" keys) of the models of `ps`, and, when these tell the
      models apart, each model's configuration under its id and each model's
      id under its key, no insertion having overwritten another. */
  lemma IndicesMeaning(ps: seq<ProviderConfig>)
    ensures forall id :: id in ConfigIndex(ps) <==>
      exists i, j :: IsModelIndex(ps, i, j) && ps[i].models[j].id == id
    ensures forall key :: key in NameIndex(ps) <==>
      exists i, j :: IsModelIndex(ps, i, j) && Key(ps[i].provider, ps[i].models[j].name) == key
    ensures NestedDistinct(ps, EntryId) ==> forall i, j :: IsModelIndex(ps, i, j) ==>
      ConfigIndex(ps)[ps[i].models[j].id] == ps[i].models[j]
    ensures NestedDistinct(ps, EntryKey) ==> forall i, j :: IsModelIndex(ps, i, j) ==>
      NameIndex(ps)[Key(ps[i].provider, ps[i].models[j].name)] == ps[i].models[j].id
  {
    IndexKeys(ps, EntryId, EntryModel);
    IndexKeys(ps, EntryKey, EntryId);
    if NestedDistinct(ps, EntryId) {
      IndexExact(ps, EntryId, EntryModel);
    }
    if NestedDistinct(ps, EntryKey) {
      IndexExact(ps, EntryKey, EntryId);
    }
  }

  /** For the static catalog no insertion overwrites another: each model's
      id maps to its configuration and each model's "provider/name" key to
      its id; the default id is a catalog id. */
  lemma CatalogIndicesExact()
    ensures forall i, j :: IsModelIndex(ModelConfigs, i, j) ==>
      ModelConfigs[i].models[j].id in ConfigIndex(ModelConfigs) &&
      ConfigIndex(ModelConfigs)[ModelConfigs[i].models[j].id] == ModelConfigs[i].models[j]
    ensures forall i, j :: IsModelIndex(ModelConfigs, i, j) ==>
      Key(ModelConfigs[i].provider, ModelConfigs[i].models[j].name) in NameIndex(ModelConfigs) &&
      NameIndex(ModelConfigs)[Key(ModelConfigs[i].provider, ModelConfigs[i].models[j].name)] == ModelConfigs[i].models[j].id
    ensures DefaultModelId in ConfigIndex(ModelConfigs)
    ensures Key("openai", "gpt-4.1") in NameIndex(ModelConfigs)
    ensures NameIndex(ModelConfigs)[Key("openai", "gpt-4.1")] == DefaultModelId
  {
    CatalogKeysDistinct();
    IndicesMeaning(ModelConfigs);
    DefaultModelInCatalog();
    assert IsModelIndex(ModelConfigs, 0, 0);
  }

  /** The loop of the registry's initialisation: for every model of every
      provider, in order, set its id to its configuration and its
      "provider/name" key to its id. */
  method BuildIndices(ps: seq<ProviderConfig>)
    returns (modelConfigMap: map<string, ModelConfig>, modelIdByProviderAndName: map<string, string>)
    ensures modelConfigMap == ConfigIndex(ps) && modelIdByProviderAndName == NameIndex(ps)
  {
    modelConfigMap, modelIdByProviderAndName := map[], map[];
    ghost var visited: seq<Entry> := [];
    var i := 0;
    while i < |ps|
      invariant 0 <= i <= |ps|
      invariant visited == Entries(ps[..i])
      invariant modelConfigMap == Index(visited, EntryId, EntryModel)
      invariant modelIdByProviderAndName == Index(visited, EntryKey, EntryId)
    {
      var provider := ps[i];
      ghost var done := visited;
      var j := 0;
      assert provider.models[..j] == [];
      while j < |provider.models|
        invariant 0 <= j <= |provider.models|
        invariant visited == done + Tagged(provider.provider, provider.models[..j])
        invariant modelConfigMap == Index(visited, EntryId, EntryModel)
        invariant modelIdByProviderAndName == Index(visited, EntryKey, EntryId)
      {
        var model := provider.models[j];
        modelConfigMap := modelConfigMap[model.id := model];
        var key := provider.provider + "/" + model.name;
        modelIdByProviderAndName := modelIdByProviderAndName[key := model.id];
        ghost var e := Entry(provider.provider, model);
        IndexSnoc(visited, e, EntryId, EntryModel);
        IndexSnoc(visited, e, EntryKey, EntryId);
        TaggedSnoc(provider.provider, provider.models, j);
        visited := visited + [e];
        j := j + 1;
      }
      assert provider.models[..j] == provider.models;
      EntriesSnoc(ps, i);
      i := i + 1;
    }
    assert ps[..i] == ps;
  }
}
