/**
  The lease operations as the program runs them: a parsed document edited in place, key by key, and
  three files written one after another. Each operation is proved to perform exactly the writes its
  specification in ConfigLease names, in that order.
 */
module LeaseFiles {
  import opened Common
  import opened CodexConfig
  import opened ConfigLease

  class Document {
    var top: map<TopKey, Value>
    var features: Table<FeatureKey>
    var agents: Table<AgentKey>
    var providers: Table<ProviderId>

    function View(): Config
      reads this
    {
      Config(top, features, agents, providers)
    }

    constructor Parse(text: Config)
      ensures View() == text
    {
      top, features, agents, providers := text.top, text.features, text.agents, text.providers;
    }

    method WriteTopKey(k: TopKey, v: Option<Value>)
      modifies this
      ensures View() == old(View()).(top := WriteTop(old(top), k, v))
    {
      match v {
        case Some(item) => top := top[k := item];
        case None => top := top - {k};
      }
    }

    method SetFeature(k: FeatureKey, item: Value)
      modifies this
      ensures View() == old(View()).(features := Write(old(features), k, Some(item)))
    {
      if features.None? {
        features := Some(map[]);
      }
      features := Some(features.value[k := item]);
    }

    method RemoveFeature(k: FeatureKey)
      modifies this
      ensures View() == old(View()).(features := Write(old(features), k, None))
    {
      if features.Some? {
        features := Some(features.value - {k});
        if features.value == map[] {
          features := None;
        }
      }
    }

    method SetAgentKey(k: AgentKey, item: Value)
      modifies this
      ensures View() == old(View()).(agents := Write(old(agents), k, Some(item)))
    {
      if agents.None? {
        agents := Some(map[]);
      }
      agents := Some(agents.value[k := item]);
    }

    method RemoveAgentKey(k: AgentKey)
      modifies this
      ensures View() == old(View()).(agents := Write(old(agents), k, None))
    {
      if agents.Some? {
        agents := Some(agents.value - {k});
        if agents.value == map[] {
          agents := None;
        }
      }
    }

    method InsertProvider(id: ProviderId, item: Value)
      modifies this
      ensures View() == old(View()).(providers := Some(Entries(old(providers))[id := item]))
    {
      if providers.None? {
        providers := Some(map[]);
      }
      providers := Some(providers.value[id := item]);
    }

    /** Removes the listed provider tables, and the parent once it is empty. */
    method RemoveProviders(ids: seq<ProviderId>) returns (removed: bool)
      modifies this
      ensures View() == old(View()).(providers := providers)
      ensures providers == if old(providers).None? then None else Prune(Some(old(providers).value - (set id | id in ids)))
      ensures removed <==> exists i :: 0 <= i < |ids| && ids[i] in Entries(old(providers))
    {
      removed := false;
      if providers.Some? {
        ghost var before := providers.value;
        for i := 0 to |ids|
          invariant providers.Some? && providers.value == before - (set id | id in ids[..i])
          invariant View() == old(View()).(providers := providers)
          invariant removed <==> exists j :: 0 <= j < i && ids[j] in before
        {
          removed := removed || ids[i] in providers.value;
          providers := Some(providers.value - {ids[i]});
        }
        assert ids[..|ids|] == ids;
        if providers.value == map[] {
          providers := None;
        }
      }
    }

    method ClearGlobalCompactionKeys()
      modifies this
      ensures View() == old(View()).(top := old(top) - {ModelContextWindow, AutoCompactLimit, AutoCompactLimitScope})
    {
      for i := 0 to |GLOBAL_COMPACTION_OVERRIDES|
        invariant View() == old(View()).(top := old(top) - (set k | k in GLOBAL_COMPACTION_OVERRIDES[..i]))
      {
        WriteTopKey(GLOBAL_COMPACTION_OVERRIDES[i], None);
      }
      assert (set k | k in GLOBAL_COMPACTION_OVERRIDES[..3]) == {ModelContextWindow, AutoCompactLimit, AutoCompactLimitScope} by {
        assert GLOBAL_COMPACTION_OVERRIDES[..3] == [ModelContextWindow, AutoCompactLimit, AutoCompactLimitScope];
      }
    }

    method ApplySubagentKeys(s: Subagent, original: Config)
      modifies this
      ensures View() == WithSubagent(old(View()), s, original)
    {
      match s {
        case Inherit =>
          var model := Get(original.agents, DefaultSubagentModel);
          if model.Some? { SetAgentKey(DefaultSubagentModel, model.value); } else { RemoveAgentKey(DefaultSubagentModel); }
          var effort := Get(original.agents, DefaultSubagentEffort);
          if effort.Some? { SetAgentKey(DefaultSubagentEffort, effort.value); } else { RemoveAgentKey(DefaultSubagentEffort); }
        case Custom(model, effort) =>
          if model.Some? && model.value != "" {
            SetAgentKey(DefaultSubagentModel, Str(model.value));
          } else {
            RemoveAgentKey(DefaultSubagentModel);
          }
          if effort.Some? && effort.value != "" {
            SetAgentKey(DefaultSubagentEffort, Str(effort.value));
          } else {
            RemoveAgentKey(DefaultSubagentEffort);
          }
      }
    }

    /** `scrub_vellum_from_baseline`: reports a change exactly when the document was not pure. */
    method Scrub(catalog: Option<string>, proxyUrl: string) returns (changed: bool)
      modifies this
      ensures View() == Scrubbed(old(View()), catalog, proxyUrl)
      ensures changed <==> !Pure(old(View()), catalog, proxyUrl)
    {
      var topChanged := ScrubTop(catalog, proxyUrl);
      var removed := RemoveProviders(RESERVED_PROVIDERS);
      assert (set id | id in RESERVED_PROVIDERS) == {Vellum, VellumOfficial};
      var agentsChanged := ScrubAgents();
      changed := topChanged || removed || agentsChanged;
    }

    method ScrubTop(catalog: Option<string>, proxyUrl: string) returns (changed: bool)
      modifies this
      ensures View() == old(View()).(top := ScrubbedTop(old(top), catalog, proxyUrl))
      ensures changed <==> || NamesReservedProvider(Lookup(old(top), ModelProvider))
                           || (catalog.Some? && Lookup(old(top), ModelCatalogJson) == Some(Str(catalog.value)))
                           || Lookup(old(top), OpenaiBaseUrl) == Some(Str(proxyUrl))
    {
      changed := false;
      if NamesReservedProvider(Lookup(top, ModelProvider)) {
        WriteTopKey(ModelProvider, None);
        changed := true;
      }
      if catalog.Some? && Lookup(top, ModelCatalogJson) == Some(Str(catalog.value)) {
        WriteTopKey(ModelCatalogJson, None);
        changed := true;
      }
      if Lookup(top, OpenaiBaseUrl) == Some(Str(proxyUrl)) {
        WriteTopKey(OpenaiBaseUrl, None);
        changed := true;
      }
    }

    method ScrubAgents() returns (changed: bool)
      modifies this
      ensures View() == old(View()).(agents := ScrubbedAgents(old(agents), MANAGED_AGENT_KEYS))
      ensures changed <==> exists i :: 0 <= i < |MANAGED_AGENT_KEYS| && NamesCatalogModel(Get(old(agents), MANAGED_AGENT_KEYS[i]))
    {
      changed := false;
      for i := 0 to |MANAGED_AGENT_KEYS|
        invariant View() == old(View()).(agents := ScrubbedAgents(old(agents), MANAGED_AGENT_KEYS[..i]))
        invariant forall j :: i <= j < |MANAGED_AGENT_KEYS| ==> Get(agents, MANAGED_AGENT_KEYS[j]) == Get(old(agents), MANAGED_AGENT_KEYS[j])
        invariant changed <==> exists j :: 0 <= j < i && NamesCatalogModel(Get(old(agents), MANAGED_AGENT_KEYS[j]))
      {
        assert MANAGED_AGENT_KEYS[..i + 1][..i] == MANAGED_AGENT_KEYS[..i];
        if NamesCatalogModel(Get(agents, MANAGED_AGENT_KEYS[i])) {
          RemoveAgentKey(MANAGED_AGENT_KEYS[i]);
          changed := true;
        }
      }
      assert MANAGED_AGENT_KEYS[..|MANAGED_AGENT_KEYS|] == MANAGED_AGENT_KEYS;
    }

    method RelinquishLegacyOpenaiBaseUrl(original: Config, previous: Config)
      modifies this
      ensures View() == old(View()).(top := RelinquishedTop(old(View()), original, Some(previous)))
    {
      if Lookup(top, OpenaiBaseUrl) == Lookup(previous.top, OpenaiBaseUrl) {
        WriteTopKey(OpenaiBaseUrl, Lookup(original.top, OpenaiBaseUrl));
      }
    }

    method RelinquishLegacyImageGeneration(original: Config, previous: Config)
      modifies this
      ensures View() == old(View()).(features := RelinquishedFeatures(old(View()), original, Some(previous)))
    {
      if Get(features, ImageGeneration) == Get(previous.features, ImageGeneration) {
        var item := Get(original.features, ImageGeneration);
        if item.Some? { SetFeature(ImageGeneration, item.value); } else { RemoveFeature(ImageGeneration); }
      }
    }

    /** Overlays Vellum's routing onto a live document. */
    method Overlay(original: Config, previous: Option<Config>, s: Settings)
      requires s.catalogPath.Some?
      modifies this
      ensures View() == Applied(old(View()), original, previous, s)
    {
      ghost var before := View();
      if previous.Some? {
        RelinquishLegacyOpenaiBaseUrl(original, previous.value);
        RelinquishLegacyImageGeneration(original, previous.value);
      }
      WriteTopKey(ModelProvider, Some(Str(VELLUM_PROVIDER_NAME)));
      WriteTopKey(ModelCatalogJson, Some(Str(s.catalogPath.value)));
      SetFeature(StandaloneWebSearch, Bool(true));
      SetFeature(RemoteCompactionV2, Bool(true));
      SetFeature(EnableRequestCompression, Bool(false));
      ClearGlobalCompactionKeys();
      var _ := RemoveProviders(BUILTIN_PROVIDERS);
      assert Entries(providers) == Entries(before.providers) - {AmazonBedrock, Openai, Ollama, LmStudio, Oss, OllamaChat} by {
        assert (set id | id in BUILTIN_PROVIDERS) == {AmazonBedrock, Openai, Ollama, LmStudio, Oss, OllamaChat};
      }
      InsertProvider(Vellum, ProxyProvider(Vellum, s.proxyUrl, s.boundaryKey));
      InsertProvider(VellumOfficial, ProxyProvider(VellumOfficial, s.proxyUrl, s.boundaryKey));
      assert providers == AppliedProviders(before.providers, s);
      ApplySubagentKeys(s.subagent, original);
    }

    method MergeTopKeys(o: Config, a: Config)
      modifies this
      ensures View() == old(View()).(top := MergedEntries(old(top), o.top, a.top, MANAGED_KEYS))
    {
      SameEntries(MergedEntries(top, o.top, a.top, []), top);
      for i := 0 to |MANAGED_KEYS|
        invariant View() == old(View()).(top := top)
        invariant top == MergedEntries(old(top), o.top, a.top, MANAGED_KEYS[..i])
      {
        var k := MANAGED_KEYS[i];
        MergeTopStep(old(top), o.top, a.top, MANAGED_KEYS, i);
        if Lookup(top, k) == Lookup(a.top, k) {
          WriteTopKey(k, Lookup(o.top, k));
        }
      }
      assert MANAGED_KEYS[..|MANAGED_KEYS|] == MANAGED_KEYS;
    }

    method MergeFeatureKeys(o: Config, a: Config)
      modifies this
      ensures View() == old(View()).(features := MergedTable(old(features), o.features, a.features, MANAGED_FEATURE_KEYS))
    {
      MergeStart(features, o.features, a.features);
      for i := 0 to |MANAGED_FEATURE_KEYS|
        invariant View() == old(View()).(features := features)
        invariant features == MergedTable(old(features), o.features, a.features, MANAGED_FEATURE_KEYS[..i])
      {
        var k := MANAGED_FEATURE_KEYS[i];
        MergeStep(old(features), o.features, a.features, MANAGED_FEATURE_KEYS, i);
        if Get(features, k) == Get(a.features, k) {
          var item := Get(o.features, k);
          if item.Some? { SetFeature(k, item.value); } else { RemoveFeature(k); }
        }
      }
      assert MANAGED_FEATURE_KEYS[..|MANAGED_FEATURE_KEYS|] == MANAGED_FEATURE_KEYS;
    }

    method MergeAgentKeys(o: Config, a: Config)
      modifies this
      ensures View() == old(View()).(agents := MergedTable(old(agents), o.agents, a.agents, MANAGED_AGENT_KEYS))
    {
      MergeStart(agents, o.agents, a.agents);
      for i := 0 to |MANAGED_AGENT_KEYS|
        invariant View() == old(View()).(agents := agents)
        invariant agents == MergedTable(old(agents), o.agents, a.agents, MANAGED_AGENT_KEYS[..i])
      {
        var k := MANAGED_AGENT_KEYS[i];
        MergeStep(old(agents), o.agents, a.agents, MANAGED_AGENT_KEYS, i);
        if Get(agents, k) == Get(a.agents, k) {
          var item := Get(o.agents, k);
          if item.Some? { SetAgentKey(k, item.value); } else { RemoveAgentKey(k); }
        }
      }
      assert MANAGED_AGENT_KEYS[..|MANAGED_AGENT_KEYS|] == MANAGED_AGENT_KEYS;
    }

    /** The body of `restore_proxy_config` between reading and writing. */
    method ThreeWayMerge(o: Config, a: Config)
      modifies this
      ensures View() == Restored(old(View()), o, a)
    {
      ghost var c := View();
      var recoverable := [];
      for i := 0 to |RESERVED_PROVIDERS|
        invariant View() == c
        invariant recoverable == (if i >= 1 && Recoverable(c, o, a, Vellum) then [Vellum] else [])
                                 + (if i >= 2 && Recoverable(c, o, a, VellumOfficial) then [VellumOfficial] else [])
      {
        var id := RESERVED_PROVIDERS[i];
        if Get(o.providers, id).None? && Get(providers, id) == Get(a.providers, id) {
          recoverable := recoverable + [id];
        }
      }
      MergeTopKeys(o, a);
      if providers == a.providers {
        providers := o.providers;
      }
      ghost var base := providers;
      MergeFeatureKeys(o, a);
      MergeAgentKeys(o, a);
      for i := 0 to |RESERVED_PROVIDERS|
        invariant View() == Restored(c, o, a).(providers := providers)
        invariant i == 0 ==> providers == base
        invariant i == 1 ==> providers == WithAlias(base, Recoverable(c, o, a, Vellum), Vellum)
        invariant i == 2 ==> providers == RestoredProviders(c, o, a)
      {
        if RESERVED_PROVIDERS[i] in recoverable {
          InsertProvider(RESERVED_PROVIDERS[i], RecoveryAlias(RESERVED_PROVIDERS[i]));
        }
      }
    }
  }

  lemma MergeTopStep(c: map<TopKey, Value>, o: map<TopKey, Value>, a: map<TopKey, Value>, keys: seq<TopKey>, i: nat)
    requires i < |keys| && keys[i] !in keys[..i]
    ensures var done := MergedEntries(c, o, a, keys[..i]);
            MergedEntries(c, o, a, keys[..i + 1]) ==
            if Lookup(done, keys[i]) == Lookup(a, keys[i]) then WriteTop(done, keys[i], Lookup(o, keys[i])) else done
  {
  }

  lemma MergeStart<K(!new)>(c: Table<K>, o: Table<K>, a: Table<K>)
    ensures MergedTable(c, o, a, []) == c
  {
    SameEntries(MergedEntries(Entries(c), Entries(o), Entries(a), []), Entries(c));
  }

  /** Handing back one more key extends the merge by that key, including when the table empties. */
  lemma MergeStep<K(!new)>(c: Table<K>, o: Table<K>, a: Table<K>, keys: seq<K>, i: nat)
    requires i < |keys| && keys[i] !in keys[..i]
    ensures var done := MergedTable(c, o, a, keys[..i]);
            MergedTable(c, o, a, keys[..i + 1]) ==
            if Get(done, keys[i]) == Get(a, keys[i]) then Write(done, keys[i], Get(o, keys[i])) else done
  {
    var k := keys[i];
    var done, next := MergedTable(c, o, a, keys[..i]), MergedTable(c, o, a, keys[..i + 1]);
    var cs, os, as_ := Entries(c), Entries(o), Entries(a);
    assert forall x :: x in keys[..i + 1] <==> x in keys[..i] || x == k;
    TableSlot(c, o, a, keys[..i], k);
    var expected := if Get(done, k) == Get(a, k) then Write(done, k, Get(o, k)) else done;
    forall x: K ensures Lookup(Entries(next), x) == Lookup(Entries(expected), x) {
      TableSlot(c, o, a, keys[..i], x);
      TableSlot(c, o, a, keys[..i + 1], x);
    }
    SameEntries(Entries(next), Entries(expected));
    RelinquishStep(cs, os, as_, keys, i);
  }

  lemma RelinquishStep<K>(c: map<K, Value>, o: map<K, Value>, a: map<K, Value>, keys: seq<K>, i: nat)
    requires i < |keys|
    ensures Relinquishes(c, o, a, keys[..i + 1]) <==>
            Relinquishes(c, o, a, keys[..i]) || (Lookup(c, keys[i]) == Lookup(a, keys[i]) && keys[i] !in o)
  {
  }

  /** Codex's config, Vellum's lease and the managed catalog, with every state a write has produced. */
  class CodexFiles {
    var config: Config
    var lease: Option<Lease>
    var catalog: bool
    ghost var trace: seq<Disk>

    function View(): Disk
      reads this
    {
      Disk(config, lease, catalog)
    }

    constructor (d: Disk)
      ensures View() == d && trace == []
    {
      config, lease, catalog, trace := d.config, d.lease, d.catalog, [];
    }

    method WriteConfig(text: Config)
      modifies this
      ensures View() == old(View()).(config := text) && trace == old(trace) + [View()]
    {
      config := text;
      trace := trace + [Disk(config, lease, catalog)];
    }

    method WriteLease(text: Lease)
      modifies this
      ensures View() == old(View()).(lease := Some(text)) && trace == old(trace) + [View()]
    {
      lease := Some(text);
      trace := trace + [Disk(config, lease, catalog)];
    }

    method RemoveLease()
      modifies this
      ensures View() == old(View()).(lease := None) && trace == old(trace) + [View()]
    {
      lease := None;
      trace := trace + [Disk(config, lease, catalog)];
    }

    method RemoveManagedCatalog()
      modifies this
      ensures View() == old(View()).(catalog := false) && trace == old(trace) + [View()]
    {
      catalog := false;
      trace := trace + [Disk(config, lease, catalog)];
    }

    method ReconcileLease(ownerAlive: bool, me: Owner) returns (ok: bool)
      modifies this
      ensures var e := ReconcileEffect(old(View()), ownerAlive, me);
              ok == e.ok && trace == old(trace) + e.writes && View() == Final(old(View()), e)
    {
      if lease.None? {
        return true;
      }
      if config == lease.value.original {
        RemoveLease();
        RemoveManagedCatalog();
        return true;
      }
      match lease.value {
        case Legacy(_, _) =>
          return false;
        case V2(owner, original, applied) =>
          if ownerAlive {
            return false;
          }
          WriteLease(V2(me.(port := owner.port), original, applied));
          return true;
      }
    }

    method ApplyProxyConfig(s: Settings, me: Owner) returns (ok: bool)
      modifies this
      ensures var e := ApplyEffect(old(View()), s, me);
              ok == e.ok && trace == old(trace) + e.writes && View() == Final(old(View()), e)
    {
      hide Pure, Scrubbed, Applied;
      ghost var d := View();
      var original := if lease.Some? then lease.value.original else config;
      var originalDoc := new Document.Parse(original);
      var repaired := originalDoc.Scrub(s.catalogPath, s.proxyUrl);
      if repaired {
        original := originalDoc.View();
      }
      if s.catalogPath.None? {
        return false;
      }
      var document := new Document.Parse(config);
      document.Overlay(originalDoc.View(), if lease.Some? then Some(lease.value.applied) else None, s);
      var applied := document.View();
      assert applied == AppliedOver(d, s);
      if lease.None? {
        WriteLease(V2(me, original, applied));
      } else if repaired {
        WriteLease(V2(if lease.value.V2? then lease.value.owner else me, original, applied));
        RepairChangesLease(d, s);
      }
      WriteConfig(applied);
      return true;
    }

    method ApplySubagentDefaults(s: Subagent)
      modifies this
      ensures var e := HotUpdateEffect(old(View()), s);
              trace == old(trace) + e.writes && View() == Final(old(View()), e)
    {
      if lease.None? {
        return;
      }
      var stored := lease.value;
      var document := new Document.Parse(config);
      document.ApplySubagentKeys(s, stored.original);
      WriteConfig(document.View());
      var appliedDoc := new Document.Parse(stored.applied);
      appliedDoc.ApplySubagentKeys(s, stored.original);
      WriteLease(stored.(applied := appliedDoc.View()));
    }

    method RestoreProxyConfig() returns (restored: bool)
      modifies this
      ensures var e := RestoreEffect(old(View()));
              trace == old(trace) + e.writes && View() == Final(old(View()), e)
      ensures restored == old(lease).Some?
    {
      if lease.None? {
        RemoveManagedCatalog();
        return false;
      }
      var document := new Document.Parse(config);
      document.ThreeWayMerge(lease.value.original, lease.value.applied);
      WriteConfig(document.View());
      RemoveLease();
      RemoveManagedCatalog();
      return true;
    }
  }

  lemma RepairChangesLease(d: Disk, s: Settings)
    requires d.lease.Some? && s.catalogPath.Some? && !Pure(d.lease.value.original, s.catalogPath, s.proxyUrl)
    ensures Baseline(d.lease.value.original, s.catalogPath, s.proxyUrl) != d.lease.value.original
  {
    ScrubbedIsPure(d.lease.value.original, s.catalogPath, s.proxyUrl);
  }
}
