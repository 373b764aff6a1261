/**
 * The reconciliation step of `useAllModels`: the remote model catalog is turned
 * into candidate models, the default model is resolved, and the two custom-model
 * settings are joined, before everything is handed to the model-merging
 * collaborator `collectModelsWithDefaultModel`, which stays uninterpreted here.
 */
module Hooks {
  import opened Wrappers
  import opened CommaList

  /** One entry of the remote `/v1/models` response; only the fields the hook reads are kept. */
  datatype ModelData = ModelData(id: string, ownedBy: string, active: bool)

  datatype Provider = Provider(id: string, providerName: string, providerType: string, sorted: int)

  /** A model as the merging collaborator receives it. */
  datatype Candidate = Candidate(name: string, available: bool, provider: Provider, sorted: int)

  /** The settings read from the access store. */
  datatype AccessStore = AccessStore(customModels: string, defaultModel: Option<string>)

  /** The settings read from the app configuration store. */
  datatype AppConfig = AppConfig(customModels: string)

  /** The three arguments handed to `collectModelsWithDefaultModel`. */
  datatype MergeInput = MergeInput(models: seq<Candidate>, customModels: string, defaultModel: Option<string>)

  /** The first value of the per-model `sorted` counter. */
  const FirstSorted: int := 1000

  /** The `sorted` rank every remote provider gets. */
  const ProviderSorted: int := 1

  /** The model adopted as default when none is configured and the catalog offers it. */
  const PreferredModel: string := "llama-3.3-70b-versatile"

  /** JavaScript truthiness of an optional string: `undefined` and "" are falsy. */
  predicate Truthy(s: Option<string>)
  {
    s.Some? && s.value != ""
  }

  /**
   * The `map` callback: one remote record with the current counter value. The three
   * provider fields agree, and the record can be read back from the candidate.
   */
  function ToCandidate(m: ModelData, sorted: int): (c: Candidate)
    ensures c.provider.id == c.provider.providerName == c.provider.providerType
    ensures c.provider.sorted == ProviderSorted && c.sorted == sorted
    ensures ModelData(c.name, c.provider.id, c.available) == m
  {
    Candidate(m.id, m.active, Provider(m.ownedBy, m.ownedBy, m.ownedBy, ProviderSorted), sorted)
  }

  /** `ms.map(...)` with the counter starting at `start` and going up by one per element. */
  function Convert(ms: seq<ModelData>, start: int): (r: seq<Candidate>)
    ensures |r| == |ms|
  {
    if |ms| == 0 then []
    else [ToCandidate(ms[0], start)] + Convert(ms[1..], start + 1)
  }

  /** Entry `i` of the conversion comes from record `i` and carries counter value `start + i`. */
  lemma {:induction false} ConvertAt(ms: seq<ModelData>, start: int, i: nat)
    requires i < |ms|
    ensures Convert(ms, start)[i] == ToCandidate(ms[i], start + i)
  {
    if i > 0 {
      ConvertAt(ms[1..], start + 1, i - 1);
    }
  }

  /** Field by field: name from `id`, availability from `active`, the provider triple from `owned_by`. */
  lemma {:induction false} ConvertFields(ms: seq<ModelData>, start: int)
    ensures forall i :: 0 <= i < |ms| ==>
      var c := Convert(ms, start)[i];
      && c.name == ms[i].id
      && c.available == ms[i].active
      && c.provider.id == ms[i].ownedBy
      && c.provider.providerName == ms[i].ownedBy
      && c.provider.providerType == ms[i].ownedBy
      && c.provider.sorted == ProviderSorted
      && c.sorted == start + i
  {
    forall i | 0 <= i < |ms| {
      ConvertAt(ms, start, i);
    }
  }

  /** The `sorted` values rise strictly with the position, so they are pairwise distinct. */
  lemma {:induction false} ConvertSortedIncreasing(ms: seq<ModelData>, start: int)
    ensures forall i, j :: 0 <= i < j < |ms| ==> Convert(ms, start)[i].sorted < Convert(ms, start)[j].sorted
    ensures |ms| > 0 ==> Convert(ms, start)[0].sorted == start
  {
    ConvertFields(ms, start);
  }

  /** A name occurs in the conversion exactly when it is the `id` of some remote record. */
  lemma ConvertHasName(ms: seq<ModelData>, start: int, name: string)
    ensures (exists i :: 0 <= i < |ms| && Convert(ms, start)[i].name == name)
        <==> (exists j :: 0 <= j < |ms| && ms[j].id == name)
  {
    ConvertFields(ms, start);
    if j :| 0 <= j < |ms| && ms[j].id == name {
      assert Convert(ms, start)[j].name == name;
    }
  }

  /** `cs.find(m => m.name === name)`: the first candidate with that name, if any. */
  function FindByName(cs: seq<Candidate>, name: string): (r: Option<Candidate>)
    ensures r.None? <==> forall i :: 0 <= i < |cs| ==> cs[i].name != name
    ensures r.Some? ==> exists i :: 0 <= i < |cs| && cs[i] == r.value
                          && (forall j :: 0 <= j < i ==> cs[j].name != name)
    ensures r.Some? ==> r.value.name == name
  {
    if |cs| == 0 then None
    else if cs[0].name == name then Some(cs[0])
    else
      var r := FindByName(cs[1..], name);
      assert r.Some? ==> exists i :: 0 < i < |cs| && cs[i] == r.value
                            && (forall j :: 0 <= j < i ==> cs[j].name != name) by {
        if r.Some? {
          var k :| 0 <= k < |cs| - 1 && cs[1..][k] == r.value
                   && (forall j :: 0 <= j < k ==> cs[1..][j].name != name);
          assert cs[k + 1] == r.value;
        }
      }
      r
  }

  /**
   * Default-model resolution: a truthy configured default is kept; otherwise the
   * preferred model is adopted when the candidates contain it, and the falsy
   * configured value is kept when they do not.
   */
  function ResolveDefault(configured: Option<string>, cs: seq<Candidate>): (r: Option<string>)
    ensures Truthy(configured) ==> r == configured
    ensures (!Truthy(configured) && exists i :: 0 <= i < |cs| && cs[i].name == PreferredModel)
      ==> r == Some(PreferredModel)
    ensures (!Truthy(configured) && forall i :: 0 <= i < |cs| ==> cs[i].name != PreferredModel)
      ==> r == configured
  {
    if Truthy(configured) then configured
    else
      match FindByName(cs, PreferredModel)
      case Some(preferred) => Some(preferred.name)
      case None => configured
  }

  /** The resolved default is truthy exactly when the configured one is or the catalog offers the preferred model. */
  lemma DefaultFromCatalog(configured: Option<string>, apiModels: seq<ModelData>)
    ensures ResolveDefault(configured, Convert(apiModels, FirstSorted)) in {configured, Some(PreferredModel)}
    ensures Truthy(ResolveDefault(configured, Convert(apiModels, FirstSorted)))
        <==> Truthy(configured) || exists j :: 0 <= j < |apiModels| && apiModels[j].id == PreferredModel
  {
    ConvertHasName(apiModels, FirstSorted, PreferredModel);
  }

  /** The local-spec argument: the configuration's custom models, a comma, the access store's custom models. */
  function CustomModelsSpec(config: AppConfig, access: AccessStore): (r: string)
    ensures |r| == |config.customModels| + 1 + |access.customModels|
    ensures r[..|config.customModels|] == config.customModels
    ensures r[|config.customModels|] == Comma
    ensures r[|config.customModels| + 1..] == access.customModels
    ensures Split(r) == Split(config.customModels) + Split(access.customModels)
  {
    JoinPair(config.customModels, access.customModels, [Comma]);
    SplitAppend(config.customModels, access.customModels);
    Join([config.customModels, access.customModels], [Comma])
  }

  /** The arguments the `useMemo` body hands to `collectModelsWithDefaultModel`. */
  function ReconcileInputs(apiModels: seq<ModelData>, access: AccessStore, config: AppConfig): (input: MergeInput)
    ensures |input.models| == |apiModels|
    ensures input.customModels == config.customModels + [Comma] + access.customModels
    ensures input.defaultModel in {access.defaultModel, Some(PreferredModel)}
  {
    var models := Convert(apiModels, FirstSorted);
    MergeInput(models, CustomModelsSpec(config, access), ResolveDefault(access.defaultModel, models))
  }

  /** What the collaborator receives, for every remote catalog and every pair of stores. */
  lemma ReconcileInputsSpec(apiModels: seq<ModelData>, access: AccessStore, config: AppConfig)
    ensures |ReconcileInputs(apiModels, access, config).models| == |apiModels|
    ensures forall i :: 0 <= i < |apiModels| ==>
      ReconcileInputs(apiModels, access, config).models[i] == ToCandidate(apiModels[i], FirstSorted + i)
    ensures ReconcileInputs(apiModels, access, config).customModels
         == config.customModels + [Comma] + access.customModels
    ensures Truthy(access.defaultModel)
      ==> ReconcileInputs(apiModels, access, config).defaultModel == access.defaultModel
    ensures (!Truthy(access.defaultModel) && exists j :: 0 <= j < |apiModels| && apiModels[j].id == PreferredModel)
      ==> ReconcileInputs(apiModels, access, config).defaultModel == Some(PreferredModel)
    ensures (!Truthy(access.defaultModel) && forall j :: 0 <= j < |apiModels| ==> apiModels[j].id != PreferredModel)
      ==> ReconcileInputs(apiModels, access, config).defaultModel == access.defaultModel
  {
    forall i | 0 <= i < |apiModels| {
      ConvertAt(apiModels, FirstSorted, i);
    }
    ConvertHasName(apiModels, FirstSorted, PreferredModel);
    JoinPair(config.customModels, access.customModels, [Comma]);
  }

  /**
   * The body of the `useMemo` callback, step by step: a running counter `sorted`
   * (post-incremented for each record), then a default that is reassigned only
   * when the configured one is falsy and the preferred model is found.
   */
  method MemoBody(apiModels: seq<ModelData>, access: AccessStore, config: AppConfig) returns (input: MergeInput)
    ensures input == ReconcileInputs(apiModels, access, config)
  {
    var sorted := FirstSorted;
    var models: seq<Candidate> := [];
    var i := 0;
    while i < |apiModels|
      invariant 0 <= i <= |apiModels|
      invariant sorted == FirstSorted + i
      invariant |models| == i
      invariant forall k :: 0 <= k < i ==> models[k] == ToCandidate(apiModels[k], FirstSorted + k)
    {
      models := models + [ToCandidate(apiModels[i], sorted)];
      sorted := sorted + 1;
      i := i + 1;
    }
    forall k | 0 <= k < |apiModels|
      ensures models[k] == Convert(apiModels, FirstSorted)[k]
    {
      ConvertAt(apiModels, FirstSorted, k);
    }

    var defaultModel := access.defaultModel;
    if !Truthy(defaultModel) {
      var preferred := FindByName(models, PreferredModel);
      if preferred.Some? {
        defaultModel := Some(preferred.value.name);
      }
    }

    input := MergeInput(models, CustomModelsSpec(config, access), defaultModel);
  }

  /** The list `useAllModels` returns, with the merging collaborator passed in as `collect`. */
  function AllModels<R>(collect: (seq<Candidate>, string, Option<string>) -> R,
                        apiModels: seq<ModelData>, access: AccessStore, config: AppConfig): (models: R)
    ensures models == collect(Convert(apiModels, FirstSorted),
                              config.customModels + [Comma] + access.customModels,
                              ResolveDefault(access.defaultModel, Convert(apiModels, FirstSorted)))
  {
    var input := ReconcileInputs(apiModels, access, config);
    collect(input.models, input.customModels, input.defaultModel)
  }

  /**
   * Before the catalog arrives (`apiModels` is still `[]`) the collaborator gets no
   * candidates, the joined custom models and the configured default unchanged.
   */
  lemma AllModelsBeforeFetch<R>(collect: (seq<Candidate>, string, Option<string>) -> R,
                                access: AccessStore, config: AppConfig)
    ensures AllModels(collect, [], access, config)
         == collect([], config.customModels + [Comma] + access.customModels, access.defaultModel)
  {
  }
}
