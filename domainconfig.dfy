/** Building the Eve `DOMAIN` from resource configurations: the map from a
    model, or a (model, field) pair, to the resource that serves it, which
    every resource configuration receives when it renders. */
module Domain {
  import opened Common

  /** A resource configuration: the model class it serves and its id field. */
  datatype ResourceConfig = ResourceConfig(model: string, idField: string)

  /** A key of the related-resource map: a model class, or a relationship
      field `(model, field)` given in `related_resources`. */
  datatype RelKey = ModelKey(model: string) | FieldKey(model: string, field: string)

  /** The map handed to every configuration's `render`. */
  type RelatedMap = map<RelKey, (string, ResourceConfig)>

  /** `DomainConfig(resource_configs, related_resources)`: endpoint names to
      configurations, and manual overrides from a key to an endpoint name,
      both in insertion order. */
  datatype DomainConfig = DomainConfig(
    resourceConfigs: seq<(string, ResourceConfig)>,
    relatedResources: seq<(RelKey, string)>)

  /** The endpoints of the configuration, in order. */
  function Endpoints(rcs: seq<(string, ResourceConfig)>): (ns: seq<string>)
    ensures |ns| == |rcs| && forall i :: 0 <= i < |rcs| ==> ns[i] == rcs[i].0
  {
    seq(|rcs|, i requires 0 <= i < |rcs| => rcs[i].0)
  }

  /** `resource_configs[name]`. */
  function LookupConfig(rcs: seq<(string, ResourceConfig)>, name: string): (r: Option<ResourceConfig>)
    ensures r.None? <==> forall i :: 0 <= i < |rcs| ==> rcs[i].0 != name
    ensures r.Some? ==> exists i :: 0 <= i < |rcs| && rcs[i] == (name, r.value)
  {
    if rcs == [] then None
    else if rcs[0].0 == name then Some(rcs[0].1)
    else
      var r := LookupConfig(rcs[1..], name);
      assert forall i :: 0 < i < |rcs| ==> rcs[1..][i - 1] == rcs[i];
      r
  }

  /** The number of resources serving `model`. */
  function Users(rcs: seq<(string, ResourceConfig)>, model: string): nat
  {
    if rcs == [] then 0
    else Users(rcs[..|rcs| - 1], model) + (if rcs[|rcs| - 1].1.model == model then 1 else 0)
  }

  /** The last resource serving `model`. */
  function LastUser(rcs: seq<(string, ResourceConfig)>, model: string): (r: Option<(string, ResourceConfig)>)
    ensures r.Some? <==> Users(rcs, model) >= 1
  {
    if rcs == [] then None
    else if rcs[|rcs| - 1].1.model == model then Some(rcs[|rcs| - 1])
    else LastUser(rcs[..|rcs| - 1], model)
  }

  /** The last override given for `k`. */
  function Override(related: seq<(RelKey, string)>, k: RelKey): Option<string>
  {
    if related == [] then None
    else if related[|related| - 1].0 == k then Some(related[|related| - 1].1)
    else Override(related[..|related| - 1], k)
  }

  /** What the related-resource map holds for `k`: the override's endpoint
      when there is one, otherwise the only resource serving the model. */
  function Expected(dc: DomainConfig, k: RelKey): Option<(string, ResourceConfig)>
  {
    match Override(dc.relatedResources, k)
    case Some(name) =>
      (match LookupConfig(dc.resourceConfigs, name)
       case Some(cfg) => Some((name, cfg))
       case None => None)
    case None =>
      if k.ModelKey? && Users(dc.resourceConfigs, k.model) == 1
      then LastUser(dc.resourceConfigs, k.model)
      else None
  }

  /** Every override names a configured endpoint. */
  predicate OverridesKnown(dc: DomainConfig)
  {
    forall j :: 0 <= j < |dc.relatedResources| ==>
      LookupConfig(dc.resourceConfigs, dc.relatedResources[j].1).Some?
  }

  /** A model served by exactly one resource maps to that resource. */
  lemma {:induction false} OnlyUser(rcs: seq<(string, ResourceConfig)>, model: string)
    requires Users(rcs, model) == 1
    ensures exists i :: (0 <= i < |rcs| && rcs[i].1.model == model && LastUser(rcs, model) == Some(rcs[i])
      && forall j :: 0 <= j < |rcs| && j != i ==> rcs[j].1.model != model)
  {
    var n := |rcs| - 1;
    var init := rcs[..n];
    if rcs[n].1.model == model {
      NoUser(init, model);
      assert forall j :: 0 <= j < n ==> init[j] == rcs[j];
    } else {
      OnlyUser(init, model);
      var i :| 0 <= i < |init| && init[i].1.model == model && LastUser(init, model) == Some(init[i])
        && forall j :: 0 <= j < |init| && j != i ==> init[j].1.model != model;
      assert init[i] == rcs[i];
      assert forall j :: 0 <= j < n ==> init[j] == rcs[j];
    }
  }

  lemma {:induction false} NoUser(rcs: seq<(string, ResourceConfig)>, model: string)
    requires Users(rcs, model) == 0
    ensures forall j :: 0 <= j < |rcs| ==> rcs[j].1.model != model
  {
    if rcs != [] {
      var init := rcs[..|rcs| - 1];
      NoUser(init, model);
      assert forall j :: 0 <= j < |init| ==> init[j] == rcs[j];
    }
  }

  /** Without an override, a model served by one resource maps to it, and a
      model served by two or more resources is left out. */
  lemma ModelEntries(dc: DomainConfig, model: string)
    requires Override(dc.relatedResources, ModelKey(model)).None?
    ensures var rcs := dc.resourceConfigs;
      && (Users(rcs, model) == 1 ==>
            exists i :: 0 <= i < |rcs| && rcs[i].1.model == model && Expected(dc, ModelKey(model)) == Some(rcs[i]))
      && (Users(rcs, model) != 1 ==> Expected(dc, ModelKey(model)).None?)
  {
    if Users(dc.resourceConfigs, model) == 1 {
      OnlyUser(dc.resourceConfigs, model);
    }
  }

  /** State of the first loop after the first `i` configurations. */
  ghost predicate Collected(rcs: seq<(string, ResourceConfig)>, i: nat, result: RelatedMap, remove: set<RelKey>)
    requires i <= |rcs|
  {
    && (forall k :: k in result ==> k.ModelKey? && Users(rcs[..i], k.model) >= 1)
    && (forall k :: k in result ==> result[k] == LastUser(rcs[..i], k.model).value)
    && (forall m :: Users(rcs[..i], m) >= 1 ==> ModelKey(m) in result)
    && (forall k :: k in remove <==> k.ModelKey? && Users(rcs[..i], k.model) >= 2)
  }

  lemma CollectStep(rcs: seq<(string, ResourceConfig)>, i: nat, result: RelatedMap, remove: set<RelKey>)
    requires i < |rcs| && Collected(rcs, i, result, remove)
    ensures var key := ModelKey(rcs[i].1.model);
      Collected(rcs, i + 1, result[key := rcs[i]], if key in result then remove + {key} else remove)
  {
    assert rcs[..i + 1][..i] == rcs[..i];
  }

  /** The first two loops of `_create_related_resource_configs`: every model
      to the last resource serving it, then the models served more than once
      dropped. */
  method CollectModels(rcs: seq<(string, ResourceConfig)>) returns (result: RelatedMap)
    ensures forall k :: k in result <==> k.ModelKey? && Users(rcs, k.model) == 1
    ensures forall k :: k in result ==> result[k] == LastUser(rcs, k.model).value
  {
    result := map[];
    var remove: set<RelKey> := {};
    for i := 0 to |rcs|
      invariant Collected(rcs, i, result, remove)
    {
      CollectStep(rcs, i, result, remove);
      var key := ModelKey(rcs[i].1.model);
      if key in result {
        remove := remove + {key};
      }
      result := result[key := rcs[i]];
    }
    assert rcs[..|rcs|] == rcs;
    var left := remove;
    var full := result;
    while left != {}
      invariant left <= remove
      invariant forall k :: k in result <==> k in full && k !in (remove - left)
      invariant forall k :: k in result ==> result[k] == full[k]
      decreases left
    {
      var key :| key in left;
      result := result - {key};
      left := left - {key};
    }
  }

  /** State of the override loop after the first `j` overrides. */
  ghost predicate Overridden(dc: DomainConfig, j: nat, result: RelatedMap)
    requires j <= |dc.relatedResources|
  {
    var dj := DomainConfig(dc.resourceConfigs, dc.relatedResources[..j]);
    forall k :: (k in result <==> Expected(dj, k).Some?) && (k in result ==> result[k] == Expected(dj, k).value)
  }

  lemma OverrideStep(dc: DomainConfig, j: nat, result: RelatedMap, cfg: ResourceConfig)
    requires j < |dc.relatedResources| && Overridden(dc, j, result)
    requires LookupConfig(dc.resourceConfigs, dc.relatedResources[j].1) == Some(cfg)
    ensures Overridden(dc, j + 1, result[dc.relatedResources[j].0 := (dc.relatedResources[j].1, cfg)])
  {
    assert dc.relatedResources[..j + 1][..j] == dc.relatedResources[..j];
  }

  /** `related` is the related-resource map of `dc`: it holds exactly the
      keys `Expected` gives a resource for, with that resource. */
  ghost predicate IsRelatedMap(dc: DomainConfig, related: RelatedMap)
  {
    forall k :: (k in related <==> Expected(dc, k).Some?) && (k in related ==> related[k] == Expected(dc, k).value)
  }

  /** The related-resource map is determined by the configuration. */
  lemma RelatedMapUnique(dc: DomainConfig, a: RelatedMap, b: RelatedMap)
    requires IsRelatedMap(dc, a) && IsRelatedMap(dc, b)
    ensures a == b
  {
    assert a.Keys == b.Keys;
  }

  /** `_create_related_resource_configs()`. An override naming an unknown
      endpoint raises `KeyError`. The map is built afresh; the configuration
      is a value and stays as it was. */
  method CreateRelatedResourceConfigs(dc: DomainConfig) returns (r: Result<RelatedMap>)
    ensures r.Ok? <==> OverridesKnown(dc)
    ensures r.Err? ==> exists j :: (0 <= j < |dc.relatedResources|
      && LookupConfig(dc.resourceConfigs, dc.relatedResources[j].1).None?
      && (forall j' :: 0 <= j' < j ==> LookupConfig(dc.resourceConfigs, dc.relatedResources[j'].1).Some?)
      && r.error == KeyError(dc.relatedResources[j].1))
    ensures r.Ok? ==> IsRelatedMap(dc, r.value)
  {
    var result := CollectModels(dc.resourceConfigs);
    var related := dc.relatedResources;
    assert related[..0] == [];
    for j := 0 to |related|
      invariant Overridden(dc, j, result)
      invariant forall j' :: 0 <= j' < j ==> LookupConfig(dc.resourceConfigs, related[j'].1).Some?
    {
      var name := related[j].1;
      var cfg := LookupConfig(dc.resourceConfigs, name);
      if cfg.None? {
        return Err(KeyError(name));
      }
      OverrideStep(dc, j, result, cfg.value);
      result := result[related[j].0 := (name, cfg.value)];
    }
    assert related[..|related|] == related;
    return Ok(result);
  }

  /** Every endpoint's configuration renders against `related` without raising. */
  predicate RendersAll(rcs: seq<(string, ResourceConfig)>, related: RelatedMap,
                       renderResource: (ResourceConfig, RelatedMap) -> Result<Value>)
  {
    forall i :: 0 <= i < |rcs| ==> renderResource(rcs[i].1, related).Ok?
  }

  /** The position of the first endpoint from `from` on whose rendering raises,
      or `|rcs|` when none does. */
  function FirstFailing(rcs: seq<(string, ResourceConfig)>, related: RelatedMap,
                        renderResource: (ResourceConfig, RelatedMap) -> Result<Value>, from: nat): (f: nat)
    requires from <= |rcs|
    ensures from <= f <= |rcs|
    ensures forall j :: from <= j < f ==> renderResource(rcs[j].1, related).Ok?
    ensures f < |rcs| ==> renderResource(rcs[f].1, related).Err?
    decreases |rcs| - from
  {
    if from == |rcs| || renderResource(rcs[from].1, related).Err? then from
    else FirstFailing(rcs, related, renderResource, from + 1)
  }

  /** Each endpoint paired with its configuration rendered against `related`. */
  function Rendered(rcs: seq<(string, ResourceConfig)>, related: RelatedMap,
                    renderResource: (ResourceConfig, RelatedMap) -> Result<Value>): (d: seq<Entry>)
    requires RendersAll(rcs, related, renderResource)
    ensures Keys(d) == Endpoints(rcs)
    ensures forall i :: 0 <= i < |rcs| ==> d[i].1 == renderResource(rcs[i].1, related).value
  {
    seq(|rcs|, i requires 0 <= i < |rcs| => (rcs[i].0, renderResource(rcs[i].1, related).value))
  }

  lemma RenderedStep(rcs: seq<(string, ResourceConfig)>, i: nat, related: RelatedMap,
                     renderResource: (ResourceConfig, RelatedMap) -> Result<Value>)
    requires i < |rcs| && RendersAll(rcs[..i + 1], related, renderResource)
    ensures RendersAll(rcs[..i], related, renderResource)
    ensures Rendered(rcs[..i + 1], related, renderResource)
      == Rendered(rcs[..i], related, renderResource) + [(rcs[i].0, renderResource(rcs[i].1, related).value)]
  {
    assert forall j :: 0 <= j < i ==> rcs[..i][j] == rcs[..i + 1][j];
    var a := Rendered(rcs[..i + 1], related, renderResource);
    var b := Rendered(rcs[..i], related, renderResource) + [(rcs[i].0, renderResource(rcs[i].1, related).value)];
    assert |a| == |b|;
    forall j | 0 <= j < |a| ensures a[j] == b[j] {
      assert rcs[..i + 1][j] == rcs[j];
    }
  }

  /** The loop of `render`: `domain_def[endpoint] = ...` for every endpoint;
      the first endpoint whose rendering raises ends it with that error. */
  method RenderEndpoints(rcs: seq<(string, ResourceConfig)>, related: RelatedMap,
                         renderResource: (ResourceConfig, RelatedMap) -> Result<Value>)
    returns (r: Result<seq<Entry>>)
    requires Distinct(Endpoints(rcs))
    ensures r.Ok? <==> RendersAll(rcs, related, renderResource)
    ensures r.Ok? ==> r.value == Rendered(rcs, related, renderResource)
    ensures r.Err? ==>
      var f := FirstFailing(rcs, related, renderResource, 0);
      f < |rcs| && r.error == renderResource(rcs[f].1, related).error
  {
    var domainDef := [];
    for i := 0 to |rcs|
      invariant RendersAll(rcs[..i], related, renderResource)
      invariant domainDef == Rendered(rcs[..i], related, renderResource)
    {
      var v := renderResource(rcs[i].1, related);
      RendersPrefix(rcs, related, renderResource, i);
      if v.Err? {
        FirstFailingAt(rcs, related, renderResource, 0, i);
        return Err(v.error);
      }
      RenderGrow(rcs, related, renderResource, i, domainDef);
      domainDef := Put(domainDef, rcs[i].0, v.value);
    }
    assert rcs[..|rcs|] == rcs;
    return Ok(domainDef);
  }

  /** A prefix that renders, read on the whole sequence, and extended by one
      endpoint that renders. */
  lemma RendersPrefix(rcs: seq<(string, ResourceConfig)>, related: RelatedMap,
                      renderResource: (ResourceConfig, RelatedMap) -> Result<Value>, i: nat)
    requires i < |rcs| && RendersAll(rcs[..i], related, renderResource)
    ensures forall j :: 0 <= j < i ==> renderResource(rcs[j].1, related).Ok?
    ensures renderResource(rcs[i].1, related).Ok? ==> RendersAll(rcs[..i + 1], related, renderResource)
  {
    assert forall j :: 0 <= j < i ==> rcs[..i][j] == rcs[j];
    assert forall j :: 0 <= j <= i ==> rcs[..i + 1][j] == rcs[j];
  }

  /** One more endpoint that renders: `domain_def[endpoint] = ...` adds its
      entry at the end, since endpoint names are distinct. */
  lemma RenderGrow(rcs: seq<(string, ResourceConfig)>, related: RelatedMap,
                   renderResource: (ResourceConfig, RelatedMap) -> Result<Value>, i: nat, domainDef: seq<Entry>)
    requires Distinct(Endpoints(rcs)) && i < |rcs|
    requires RendersAll(rcs[..i + 1], related, renderResource)
    requires domainDef == Rendered(rcs[..i], related, renderResource)
    ensures Put(domainDef, rcs[i].0, renderResource(rcs[i].1, related).value)
         == Rendered(rcs[..i + 1], related, renderResource)
  {
    var endpoint := rcs[i].0;
    RenderedStep(rcs, i, related, renderResource);
    assert !HasKey(domainDef, endpoint) by {
      assert Keys(domainDef) == Endpoints(rcs[..i]);
      assert forall j :: 0 <= j < i ==> Endpoints(rcs[..i])[j] == Endpoints(rcs)[j];
      assert endpoint == Endpoints(rcs)[i];
    }
    PutAbsent(domainDef, endpoint, renderResource(rcs[i].1, related).value);
  }

  /** When every endpoint from `from` up to `i` renders and endpoint `i`
      raises, `i` is the first failing one from `from` on. */
  lemma {:induction false} FirstFailingAt(rcs: seq<(string, ResourceConfig)>, related: RelatedMap,
                       renderResource: (ResourceConfig, RelatedMap) -> Result<Value>, from: nat, i: nat)
    requires from <= i < |rcs| && renderResource(rcs[i].1, related).Err?
    requires forall j :: from <= j < i ==> renderResource(rcs[j].1, related).Ok?
    ensures FirstFailing(rcs, related, renderResource, from) == i
    decreases i - from
  {
    if from < i {
      FirstFailingAt(rcs, related, renderResource, from + 1, i);
    }
  }

  /** `DomainConfig.render(...)`: one entry per endpoint, in order, each the
      endpoint's configuration rendered, by `renderResource`, against the
      related-resource map. It raises the `KeyError` of an unknown override,
      or else the error of the first endpoint whose rendering raises. */
  method Render(dc: DomainConfig, renderResource: (ResourceConfig, RelatedMap) -> Result<Value>)
    returns (r: Result<seq<Entry>>)
    requires Distinct(Endpoints(dc.resourceConfigs))
    ensures r.Ok? <==>
      OverridesKnown(dc)
      && exists related :: IsRelatedMap(dc, related) && RendersAll(dc.resourceConfigs, related, renderResource)
    ensures !OverridesKnown(dc) ==> exists j :: (0 <= j < |dc.relatedResources|
      && LookupConfig(dc.resourceConfigs, dc.relatedResources[j].1).None?
      && (forall j' :: 0 <= j' < j ==> LookupConfig(dc.resourceConfigs, dc.relatedResources[j'].1).Some?)
      && r == Err(KeyError(dc.relatedResources[j].1)))
    ensures OverridesKnown(dc) ==> exists related :: (IsRelatedMap(dc, related) &&
      var f := FirstFailing(dc.resourceConfigs, related, renderResource, 0);
      && (f == |dc.resourceConfigs| ==> r == Ok(Rendered(dc.resourceConfigs, related, renderResource)))
      && (f < |dc.resourceConfigs| ==> r == Err(renderResource(dc.resourceConfigs[f].1, related).error)))
    ensures r.Ok? ==> Keys(r.value) == Endpoints(dc.resourceConfigs)
  {
    var related := CreateRelatedResourceConfigs(dc);
    if related.Err? {
      return Err(related.error);
    }
    r := RenderEndpoints(dc.resourceConfigs, related.value, renderResource);
    forall other | IsRelatedMap(dc, other)
      ensures other == related.value
    {
      RelatedMapUnique(dc, other, related.value);
    }
  }
}
