/**
  Recovery from crashes: whatever a start, a stop or a failed start left on disk, later processes with the
  same settings end where one undisturbed cycle would have.
 */
module LeaseRecovery {
  import opened Common
  import opened CodexConfig
  import opened ConfigLease
  import opened LeaseRuns

  // ===== Configs that interrupted operations leave behind =====

  function BaseOf(x: Config, s: Settings): Config {
    Baseline(x, s.catalogPath, s.proxyUrl)
  }

  /** What a first apply writes over `x`. */
  function Fresh(x: Config, s: Settings): Config
    requires s.catalogPath.Some?
  {
    AppliedOver(Disk(x, None, false), s)
  }

  function LeaseOf(x: Config, s: Settings, owner: Owner): Lease
    requires s.catalogPath.Some?
  {
    V2(owner, BaseOf(x, s), Fresh(x, s))
  }

  predicate OneOf<T(==)>(v: T, x: T, o: T, a: T) {
    v == x || v == o || v == a
  }

  ghost predicate KinEntries<K(!new)>(c: map<K, Value>, x: map<K, Value>, o: map<K, Value>, a: map<K, Value>, managed: seq<K>) {
    forall k: K ::
      if k in managed then OneOf(Lookup(c, k), Lookup(x, k), Lookup(o, k), Lookup(a, k)) else Lookup(c, k) == Lookup(x, k)
  }

  ghost predicate KinProviders(c: Table<ProviderId>, x: Table<ProviderId>, a: Table<ProviderId>) {
    c == a || forall id :: !IsReserved(id) ==> Get(c, id) == Get(x, id)
  }

  /** Every managed slot is as in the first config, the baseline or the applied copy, and every other slot as in the first config. */
  ghost predicate Kin(c: Config, x: Config, s: Settings)
    requires s.catalogPath.Some?
  {
    var o, a := BaseOf(x, s), Fresh(x, s);
    && KinEntries(c.top, x.top, o.top, a.top, MANAGED_KEYS)
    && KinEntries(Entries(c.features), Entries(x.features), Entries(o.features), Entries(a.features), MANAGED_FEATURE_KEYS)
    && KinEntries(Entries(c.agents), Entries(x.agents), Entries(o.agents), Entries(a.agents), MANAGED_AGENT_KEYS)
    && KinProviders(c.providers, x.providers, a.providers)
  }

  lemma KinSelf(x: Config, s: Settings)
    requires s.catalogPath.Some?
    ensures Kin(x, x, s)
  {
  }

  // ----- Slots of the baseline -----

  /** The scrub of one top-level slot. */
  function ScrubbedSlot(k: TopKey, v: Option<Value>, catalog: Option<string>, url: string): Option<Value> {
    match k
    case ModelProvider => if NamesReservedProvider(v) then None else v
    case ModelCatalogJson => if catalog.Some? && v == Some(Str(catalog.value)) then None else v
    case OpenaiBaseUrl => if v == Some(Str(url)) then None else v
    case _ => v
  }

  lemma TopScrub(top: map<TopKey, Value>, catalog: Option<string>, url: string)
    ensures forall k: TopKey :: Lookup(ScrubbedTop(top, catalog, url), k) == ScrubbedSlot(k, Lookup(top, k), catalog, url)
  {
  }

  /** What is left after a cycle depends only on the scrubbed slots. */
  lemma SameAfterCycle(c: Config, x: Config, catalog: Option<string>, url: string)
    requires forall k: TopKey :: ScrubbedSlot(k, Lookup(c.top, k), catalog, url) == ScrubbedSlot(k, Lookup(x.top, k), catalog, url)
    requires forall k: FeatureKey :: Get(c.features, k) == Get(x.features, k)
    requires forall k: AgentKey :: ScrubbedAgent(k, Get(c.agents, k)) == ScrubbedAgent(k, Get(x.agents, k))
    requires forall id: ProviderId :: !IsReserved(id) ==> Get(c.providers, id) == Get(x.providers, id)
    ensures AfterCycle(c, catalog, url) == AfterCycle(x, catalog, url)
  {
    hide ScrubbedTop, ScrubbedSlot, ScrubbedAgents, NamesCatalogModel;
    var cs, xs := Scrubbed(c, catalog, url), Scrubbed(x, catalog, url);
    TopScrub(c.top, catalog, url);
    TopScrub(x.top, catalog, url);
    SameEntries(cs.top, xs.top);
    SameTable(c.features, x.features);
    AgentScrub(c.agents);
    AgentScrub(x.agents);
    forall k: AgentKey ensures Get(cs.agents, k) == Get(xs.agents, k) {
      assert ScrubbedAgent(k, Get(c.agents, k)) == ScrubbedAgent(k, Get(x.agents, k));
    }
    SameTable(cs.agents, xs.agents);
    SameOthers(c.providers, x.providers);
  }

  lemma SameTable<K(!new)>(a: Table<K>, b: Table<K>)
    requires forall k: K :: Get(a, k) == Get(b, k)
    ensures Entries(a) == Entries(b) && Prune(a) == Prune(b)
  {
    forall k: K ensures Lookup(Entries(a), k) == Lookup(Entries(b), k) {
      assert Get(a, k) == Get(b, k);
    }
    SameEntries(Entries(a), Entries(b));
  }

  function ScrubbedAgent(k: AgentKey, v: Option<Value>): Option<Value> {
    if k in MANAGED_AGENT_KEYS && NamesCatalogModel(v) then None else v
  }

  lemma SameOthers(c: Table<ProviderId>, x: Table<ProviderId>)
    requires forall id: ProviderId :: !IsReserved(id) ==> Get(c, id) == Get(x, id)
    ensures Entries(WithoutReserved(c)) == Entries(WithoutReserved(x))
  {
    assert RESERVED_PROVIDERS[0] == Vellum && RESERVED_PROVIDERS[1] == VellumOfficial;
    forall id: ProviderId ensures Get(WithoutReserved(c), id) == Get(WithoutReserved(x), id) {
      assert !IsReserved(id) ==> Get(c, id) == Get(x, id);
    }
    SameTable(WithoutReserved(c), WithoutReserved(x));
  }

  /** The baseline, slot by slot. */
  lemma BaselineSlots(x: Config, s: Settings)
    ensures var o := BaseOf(x, s);
            && (forall k: TopKey :: Lookup(o.top, k) == ScrubbedSlot(k, Lookup(x.top, k), s.catalogPath, s.proxyUrl))
            && o.features == x.features
            && (forall k: AgentKey :: Get(o.agents, k) == ScrubbedAgent(k, Get(x.agents, k)))
            && (forall id: ProviderId :: Get(o.providers, id) == if IsReserved(id) then None else Get(x.providers, id))
            && Pure(o, s.catalogPath, s.proxyUrl)
  {
    assert RESERVED_PROVIDERS[0] == Vellum && RESERVED_PROVIDERS[1] == VellumOfficial;
    BaselineIsScrubbed(x, s.catalogPath, s.proxyUrl);
    ScrubbedIsPure(x, s.catalogPath, s.proxyUrl);
    TopScrub(x.top, s.catalogPath, s.proxyUrl);
    AgentScrub(x.agents);
  }

  lemma BaselineCycle(x: Config, s: Settings)
    ensures AfterCycle(BaseOf(x, s), s.catalogPath, s.proxyUrl) == AfterCycle(x, s.catalogPath, s.proxyUrl)
  {
    BaselineSlots(x, s);
    SameAfterCycle(BaseOf(x, s), x, s.catalogPath, s.proxyUrl);
  }

  // ----- Restoring any of them -----

  /** Restoring a kin config gives one whose next cycle ends where the first config's would. */
  lemma KinRestored(c: Config, x: Config, s: Settings)
    requires s.catalogPath.Some? && Kin(c, x, s)
    ensures var r := Restored(c, BaseOf(x, s), Fresh(x, s));
            Kin(r, x, s) && AfterCycle(r, s.catalogPath, s.proxyUrl) == AfterCycle(x, s.catalogPath, s.proxyUrl)
  {
    hide BaseOf, Fresh, Pure, AfterCycle, ScrubbedSlot, ScrubbedAgent, Restored, KinEntries, KinProviders;
    var o, a := BaseOf(x, s), Fresh(x, s);
    var r := Restored(c, o, a);
    BaselineSlots(x, s);
    RestoredTables(c, x, o, a);
    RestoredOthers(c, x, o, a);
    forall k: TopKey ensures ScrubbedSlot(k, Lookup(r.top, k), s.catalogPath, s.proxyUrl) == ScrubbedSlot(k, Lookup(x.top, k), s.catalogPath, s.proxyUrl) {
      ScrubTwice(k, Lookup(x.top, k), s.catalogPath, s.proxyUrl);
    }
    forall k: AgentKey ensures ScrubbedAgent(k, Get(r.agents, k)) == ScrubbedAgent(k, Get(x.agents, k)) {
      ScrubAgentTwice(k, Get(x.agents, k));
    }
    SameAfterCycle(r, x, s.catalogPath, s.proxyUrl);
  }

  /** After a restore every entry that is not reserved is the first config's. */
  lemma RestoredOthers(c: Config, x: Config, o: Config, a: Config)
    requires KinProviders(c.providers, x.providers, a.providers)
    requires forall id: ProviderId :: Get(o.providers, id) == if IsReserved(id) then None else Get(x.providers, id)
    ensures var r := Restored(c, o, a);
            && (forall id :: !IsReserved(id) ==> Get(r.providers, id) == Get(x.providers, id))
            && KinProviders(r.providers, x.providers, a.providers)
  {
    assert RESERVED_PROVIDERS[0] == Vellum && RESERVED_PROVIDERS[1] == VellumOfficial;
    var r := Restored(c, o, a);
    assert r.providers == RestoredProviders(c, o, a);
    hide Restored;
  }

  lemma ScrubTwice(k: TopKey, v: Option<Value>, catalog: Option<string>, url: string)
    ensures ScrubbedSlot(k, ScrubbedSlot(k, v, catalog, url), catalog, url) == ScrubbedSlot(k, v, catalog, url)
  {
  }

  lemma ScrubAgentTwice(k: AgentKey, v: Option<Value>)
    ensures ScrubbedAgent(k, ScrubbedAgent(k, v)) == ScrubbedAgent(k, v)
  {
  }

  /** After a restore every managed slot is the first config's or the baseline's. */
  lemma RestoredTables(c: Config, x: Config, o: Config, a: Config)
    requires KinEntries(c.top, x.top, o.top, a.top, MANAGED_KEYS)
    requires KinEntries(Entries(c.features), Entries(x.features), Entries(o.features), Entries(a.features), MANAGED_FEATURE_KEYS)
    requires KinEntries(Entries(c.agents), Entries(x.agents), Entries(o.agents), Entries(a.agents), MANAGED_AGENT_KEYS)
    ensures var r := Restored(c, o, a);
            && KinEntries(r.top, x.top, o.top, a.top, MANAGED_KEYS)
            && KinEntries(Entries(r.features), Entries(x.features), Entries(o.features), Entries(a.features), MANAGED_FEATURE_KEYS)
            && KinEntries(Entries(r.agents), Entries(x.agents), Entries(o.agents), Entries(a.agents), MANAGED_AGENT_KEYS)
            && (forall k :: Lookup(r.top, k) == Lookup(x.top, k) || Lookup(r.top, k) == Lookup(o.top, k))
            && (forall k :: Get(r.features, k) == Get(x.features, k) || Get(r.features, k) == Get(o.features, k))
            && (forall k :: Get(r.agents, k) == Get(x.agents, k) || Get(r.agents, k) == Get(o.agents, k))
  {
    var r := Restored(c, o, a);
    KinMerged(c.top, x.top, o.top, a.top, r.top, MANAGED_KEYS);
    forall k ensures Lookup(Entries(r.features), k) == Merged(Entries(c.features), Entries(o.features), Entries(a.features), MANAGED_FEATURE_KEYS, k) {
      TableSlot(c.features, o.features, a.features, MANAGED_FEATURE_KEYS, k);
    }
    forall k ensures Lookup(Entries(r.agents), k) == Merged(Entries(c.agents), Entries(o.agents), Entries(a.agents), MANAGED_AGENT_KEYS, k) {
      TableSlot(c.agents, o.agents, a.agents, MANAGED_AGENT_KEYS, k);
    }
    KinMerged(Entries(c.features), Entries(x.features), Entries(o.features), Entries(a.features), Entries(r.features), MANAGED_FEATURE_KEYS);
    KinMerged(Entries(c.agents), Entries(x.agents), Entries(o.agents), Entries(a.agents), Entries(r.agents), MANAGED_AGENT_KEYS);
  }

  lemma KinMerged<K(!new)>(c: map<K, Value>, x: map<K, Value>, o: map<K, Value>, a: map<K, Value>, r: map<K, Value>, managed: seq<K>)
    requires KinEntries(c, x, o, a, managed)
    requires forall k: K :: Lookup(r, k) == Merged(c, o, a, managed, k)
    ensures KinEntries(r, x, o, a, managed)
    ensures forall k: K :: Lookup(r, k) == Lookup(x, k) || Lookup(r, k) == Lookup(o, k)
  {
  }

  // ----- Applying again over any of them -----

  function Reapplied(c: Config, x: Config, s: Settings): Config
    requires s.catalogPath.Some?
  {
    Applied(c, Scrubbed(BaseOf(x, s), s.catalogPath, s.proxyUrl), Some(Fresh(x, s)), s)
  }

  /** The top-level slots apply does not simply overwrite. */
  lemma GivenBackUrl(c: Config, o: Config, previous: Option<Config>, catalog: string)
    ensures Lookup(AppliedTop(RelinquishedTop(c, o, previous), catalog), OpenaiBaseUrl) ==
            if previous.Some? && Lookup(c.top, OpenaiBaseUrl) == Lookup(previous.value.top, OpenaiBaseUrl)
            then Lookup(o.top, OpenaiBaseUrl) else Lookup(c.top, OpenaiBaseUrl)
  {
  }

  lemma GivenBackImage(c: Config, o: Config, previous: Option<Config>)
    ensures Get(AppliedFeatures(RelinquishedFeatures(c, o, previous)), ImageGeneration) ==
            if previous.Some? && Get(c.features, ImageGeneration) == Get(previous.value.features, ImageGeneration)
            then Get(o.features, ImageGeneration) else Get(c.features, ImageGeneration)
  {
  }

  /** The documents of the first and the repeated apply, part by part. */
  lemma AppliedParts(c: Config, x: Config, s: Settings)
    requires s.catalogPath.Some?
    ensures var o, o', a, r := Scrubbed(x, s.catalogPath, s.proxyUrl), Scrubbed(BaseOf(x, s), s.catalogPath, s.proxyUrl), Fresh(x, s), Reapplied(c, x, s);
            && a.top == AppliedTop(RelinquishedTop(x, o, None), s.catalogPath.value)
            && r.top == AppliedTop(RelinquishedTop(c, o', Some(a)), s.catalogPath.value)
            && a.features == AppliedFeatures(RelinquishedFeatures(x, o, None))
            && r.features == AppliedFeatures(RelinquishedFeatures(c, o', Some(a)))
            && a.agents == WithSubagent(x, s.subagent, o).agents
            && r.agents == WithSubagent(c, s.subagent, o').agents
  {
  }

  /** Scrubbing the baseline once more leaves the slots apply hands back as they are. */
  lemma ScrubbedAgain(x: Config, s: Settings)
    ensures var o, again := BaseOf(x, s), Scrubbed(BaseOf(x, s), s.catalogPath, s.proxyUrl);
            again.top == o.top && again.features == o.features && o.features == x.features
  {
    ScrubbedIsPure(x, s.catalogPath, s.proxyUrl);
    PureIsFixed(BaseOf(x, s), s.catalogPath, s.proxyUrl);
  }

  /** Applying again writes every top-level slot as the first apply did, except a base URL already given back. */
  lemma ReappliedTop(c: Config, x: Config, s: Settings)
    requires s.catalogPath.Some? && Kin(c, x, s)
    ensures var o, a, r := BaseOf(x, s), Fresh(x, s), Reapplied(c, x, s);
            && (forall k :: Lookup(r.top, k) == Lookup(a.top, k) || (k == OpenaiBaseUrl && Lookup(r.top, k) == Lookup(o.top, k)))
            && (forall k :: k !in MANAGED_KEYS ==> Lookup(a.top, k) == Lookup(x.top, k))
  {
    hide Kin, BaseOf, Fresh, Reapplied, Scrubbed, AppliedTop, RelinquishedTop;
    var o, a := BaseOf(x, s), Fresh(x, s);
    var scrubbed, again := Scrubbed(x, s.catalogPath, s.proxyUrl), Scrubbed(o, s.catalogPath, s.proxyUrl);
    KinLookups(c, x, s);
    AppliedParts(c, x, s);
    ScrubbedAgain(x, s);
    TopSlots(x, scrubbed, None, s);
    TopSlots(c, again, Some(a), s);
    GivenBackUrl(x, scrubbed, None, s.catalogPath.value);
    GivenBackUrl(c, again, Some(a), s.catalogPath.value);
    ManagedKeys();
  }

  lemma ReappliedFeatures(c: Config, x: Config, s: Settings)
    requires s.catalogPath.Some? && Kin(c, x, s)
    ensures var a, r := Fresh(x, s), Reapplied(c, x, s);
            && (forall k :: Get(r.features, k) == Get(a.features, k))
            && (forall k :: k !in MANAGED_FEATURE_KEYS ==> Get(a.features, k) == Get(x.features, k))
  {
    hide Kin, BaseOf, Fresh, Reapplied, Scrubbed, AppliedFeatures, RelinquishedFeatures;
    var o, a := BaseOf(x, s), Fresh(x, s);
    var scrubbed, again := Scrubbed(x, s.catalogPath, s.proxyUrl), Scrubbed(o, s.catalogPath, s.proxyUrl);
    KinLookups(c, x, s);
    AppliedParts(c, x, s);
    ScrubbedAgain(x, s);
    FeatureSlots(x, scrubbed, None);
    FeatureSlots(c, again, Some(a));
    GivenBackImage(x, scrubbed, None);
    GivenBackImage(c, again, Some(a));
    ManagedKeys();
  }

  lemma ReappliedAgents(c: Config, x: Config, s: Settings)
    requires s.catalogPath.Some? && Kin(c, x, s)
    ensures var a, r := Fresh(x, s), Reapplied(c, x, s);
            && (forall k :: Get(r.agents, k) == Get(a.agents, k))
            && (forall k :: k !in MANAGED_AGENT_KEYS ==> Get(a.agents, k) == Get(x.agents, k))
  {
    hide Kin, BaseOf, Fresh, Reapplied, Scrubbed, SubagentValue, WithSubagent;
    var o, a := BaseOf(x, s), Fresh(x, s);
    var scrubbed, again := Scrubbed(x, s.catalogPath, s.proxyUrl), Scrubbed(o, s.catalogPath, s.proxyUrl);
    KinLookups(c, x, s);
    AppliedParts(c, x, s);
    SameWanted(x, s);
    AgentSlots(x, s.subagent, scrubbed);
    AgentSlots(c, s.subagent, again);
    ManagedKeys();
  }

  lemma ManagedKeys()
    ensures forall k :: k in MANAGED_KEYS <==> !k.OtherTop?
    ensures forall k :: k in MANAGED_FEATURE_KEYS <==> !k.OtherFeature?
    ensures forall k :: k in MANAGED_AGENT_KEYS <==> !k.OtherAgent?
    ensures forall i :: 0 <= i < |GLOBAL_COMPACTION_OVERRIDES| ==> GLOBAL_COMPACTION_OVERRIDES[i] in MANAGED_KEYS
    ensures GLOBAL_COMPACTION_OVERRIDES[0] == ModelContextWindow && GLOBAL_COMPACTION_OVERRIDES[1] == AutoCompactLimit
            && GLOBAL_COMPACTION_OVERRIDES[2] == AutoCompactLimitScope
  {
    assert MANAGED_KEYS[0] == ModelProvider && MANAGED_KEYS[1] == OpenaiBaseUrl && MANAGED_KEYS[2] == ModelCatalogJson;
    assert MANAGED_KEYS[3] == ModelContextWindow && MANAGED_KEYS[4] == AutoCompactLimit && MANAGED_KEYS[5] == AutoCompactLimitScope;
    assert MANAGED_FEATURE_KEYS[0] == StandaloneWebSearch && MANAGED_FEATURE_KEYS[1] == RemoteCompactionV2;
    assert MANAGED_FEATURE_KEYS[2] == EnableRequestCompression && MANAGED_FEATURE_KEYS[3] == ImageGeneration;
    assert MANAGED_AGENT_KEYS[0] == DefaultSubagentModel && MANAGED_AGENT_KEYS[1] == DefaultSubagentEffort;
  }

  /** The facts about a kin config's slots that applying again depends on. */
  lemma KinLookups(c: Config, x: Config, s: Settings)
    requires s.catalogPath.Some? && Kin(c, x, s)
    ensures var o, a := BaseOf(x, s), Fresh(x, s);
            && OneOf(Lookup(c.top, OpenaiBaseUrl), Lookup(x.top, OpenaiBaseUrl), Lookup(o.top, OpenaiBaseUrl), Lookup(a.top, OpenaiBaseUrl))
            && OneOf(Get(c.features, ImageGeneration), Get(x.features, ImageGeneration), Get(o.features, ImageGeneration), Get(a.features, ImageGeneration))
            && (forall k :: k !in MANAGED_KEYS ==> Lookup(c.top, k) == Lookup(x.top, k))
            && (forall k :: k !in MANAGED_FEATURE_KEYS ==> Get(c.features, k) == Get(x.features, k))
            && (forall k :: k !in MANAGED_AGENT_KEYS ==> Get(c.agents, k) == Get(x.agents, k))
  {
    hide BaseOf, Fresh;
    ManagedKeys();
  }

  /** Both applies want the same sub-agent values. */
  lemma SameWanted(x: Config, s: Settings)
    ensures forall k: AgentKey ::
              SubagentValue(s.subagent, Scrubbed(BaseOf(x, s), s.catalogPath, s.proxyUrl), k) ==
              SubagentValue(s.subagent, Scrubbed(x, s.catalogPath, s.proxyUrl), k)
  {
    BaselineIsScrubbed(x, s.catalogPath, s.proxyUrl);
    ScrubbedIsPure(x, s.catalogPath, s.proxyUrl);
    PureIsFixed(BaseOf(x, s), s.catalogPath, s.proxyUrl);
  }

  lemma SameProviders(c: Config, x: Config, s: Settings)
    requires s.catalogPath.Some? && KinProviders(c.providers, x.providers, Fresh(x, s).providers)
    ensures Reapplied(c, x, s).providers == Fresh(x, s).providers
  {
    var once, again := AppliedProviders(x.providers, s), AppliedProviders(c.providers, s);
    assert Fresh(x, s).providers == once && Reapplied(c, x, s).providers == again;
    hide Fresh, Reapplied;
    ProviderSlots(x.providers, s);
    ProviderSlots(c.providers, s);
    hide AppliedProviders;
    forall id: ProviderId ensures Get(again, id) == Get(once, id) {
      if !IsReserved(id) && id !in BUILTIN_PROVIDERS && c.providers != once {
        assert Get(c.providers, id) == Get(x.providers, id);
      }
    }
    SameTable(again, once);
  }

  lemma ReappliedIsKin(c: Config, x: Config, s: Settings)
    requires s.catalogPath.Some? && Kin(c, x, s)
    ensures Kin(Reapplied(c, x, s), x, s)
  {
    var o, a, r := BaseOf(x, s), Fresh(x, s), Reapplied(c, x, s);
    ReappliedTop(c, x, s);
    ReappliedFeatures(c, x, s);
    ReappliedAgents(c, x, s);
    SameProviders(c, x, s);
    hide BaseOf, Fresh, Reapplied;
    TopLikeApplied(r.top, x.top, o.top, a.top);
    LikeApplied(r.features, x.features, o.features, a.features, MANAGED_FEATURE_KEYS);
    LikeApplied(r.agents, x.agents, o.agents, a.agents, MANAGED_AGENT_KEYS);
    hide KinEntries, Get;
  }

  lemma TopLikeApplied(r: map<TopKey, Value>, x: map<TopKey, Value>, o: map<TopKey, Value>, a: map<TopKey, Value>)
    requires forall k :: Lookup(r, k) == Lookup(a, k) || (k == OpenaiBaseUrl && Lookup(r, k) == Lookup(o, k))
    requires forall k :: k !in MANAGED_KEYS ==> Lookup(a, k) == Lookup(x, k)
    ensures KinEntries(r, x, o, a, MANAGED_KEYS)
  {
    ManagedKeys();
  }

  /** What an apply wrote over any kin config is restored to where one undisturbed cycle would have ended. */
  lemma ReappliedRestores(c: Config, x: Config, s: Settings)
    requires s.catalogPath.Some? && Kin(c, x, s)
    ensures Restored(Reapplied(c, x, s), BaseOf(x, s), Fresh(x, s)) == AfterCycle(x, s.catalogPath, s.proxyUrl)
  {
    var o, a, r := BaseOf(x, s), Fresh(x, s), Reapplied(c, x, s);
    ReappliedTop(c, x, s);
    ReappliedFeatures(c, x, s);
    ReappliedAgents(c, x, s);
    SameProviders(c, x, s);
    FreshRestores(x, s);
    hide BaseOf, Fresh, Reapplied, AfterCycle, Kin;
    SameTopMerge(r.top, o.top, a.top);
    LikeApplied(r.features, x.features, o.features, a.features, MANAGED_FEATURE_KEYS);
    LikeApplied(r.agents, x.agents, o.agents, a.agents, MANAGED_AGENT_KEYS);
    hide MergedTable, MergedEntries, Get;
  }

  lemma SameTopMerge(r: map<TopKey, Value>, o: map<TopKey, Value>, a: map<TopKey, Value>)
    requires forall k :: Lookup(r, k) == Lookup(a, k) || (k == OpenaiBaseUrl && Lookup(r, k) == Lookup(o, k))
    ensures MergedEntries(r, o, a, MANAGED_KEYS) == MergedEntries(a, o, a, MANAGED_KEYS)
  {
    ManagedKeys();
    forall k: TopKey ensures Merged(r, o, a, MANAGED_KEYS, k) == Merged(a, o, a, MANAGED_KEYS, k) {
      assert Lookup(r, k) == Lookup(a, k) || (k == OpenaiBaseUrl && Lookup(r, k) == Lookup(o, k));
    }
    SameEntries(MergedEntries(r, o, a, MANAGED_KEYS), MergedEntries(a, o, a, MANAGED_KEYS));
  }

  /** A table with the applied copy's slots is kin, and merges as the applied copy itself does. */
  lemma LikeApplied<K(!new)>(r: Table<K>, x: Table<K>, o: Table<K>, a: Table<K>, managed: seq<K>)
    requires managed != []
    requires forall k :: Get(r, k) == Get(a, k)
    requires forall k :: k !in managed ==> Get(a, k) == Get(x, k)
    ensures KinEntries(Entries(r), Entries(x), Entries(o), Entries(a), managed)
    ensures MergedTable(r, o, a, managed) == MergedTable(a, o, a, managed)
  {
    SameTable(r, a);
    forall k ensures k !in managed ==> Lookup(Entries(r), k) == Lookup(Entries(x), k) {
      assert k !in managed ==> Get(a, k) == Get(x, k);
    }
    var m := MergedEntries(Entries(a), Entries(o), Entries(a), managed);
    if m == map[] {
      assert Lookup(m, managed[0]) == Lookup(Entries(o), managed[0]);
      assert Relinquishes(Entries(a), Entries(o), Entries(a), managed);
    }
  }

  lemma FreshIsKin(x: Config, s: Settings)
    requires s.catalogPath.Some?
    ensures Kin(Fresh(x, s), x, s)
  {
    var o, a := BaseOf(x, s), Fresh(x, s);
    KinSelf(x, s);
    ReappliedTop(x, x, s);
    ReappliedFeatures(x, x, s);
    ReappliedAgents(x, x, s);
    hide BaseOf, Fresh, Reapplied;
    TopLikeApplied(a.top, x.top, o.top, a.top);
    LikeApplied(a.features, x.features, o.features, a.features, MANAGED_FEATURE_KEYS);
    LikeApplied(a.agents, x.agents, o.agents, a.agents, MANAGED_AGENT_KEYS);
  }

  // ----- Hot updates -----

  function WithSetting(s: Settings, update: Subagent): Settings {
    s.(subagent := update)
  }

  /** Writing the sub-agent keys never leaves an empty table. */
  lemma SubagentPruned(c: Config, s: Subagent, o: Config)
    ensures WithSubagent(c, s, o).agents != Some(map[])
  {
    var one := Write(c.agents, DefaultSubagentModel, SubagentValue(s, o, DefaultSubagentModel));
    var v := SubagentValue(s, o, DefaultSubagentEffort);
    if v.Some? {
      assert DefaultSubagentEffort in Entries(Write(one, DefaultSubagentEffort, v));
    }
  }

  lemma SameUnpruned<K(!new)>(a: Table<K>, b: Table<K>)
    requires a != Some(map[]) && b != Some(map[]) && forall k: K :: Get(a, k) == Get(b, k)
    ensures a == b
  {
    SameTable(a, b);
  }

  /** The last setting written wins. */
  lemma SubagentTwice(c: Config, first: Subagent, o: Config, second: Subagent, o': Config)
    requires o.agents == o'.agents
    ensures WithSubagent(WithSubagent(c, first, o'), second, o).agents == WithSubagent(c, second, o').agents
  {
    var one, two, direct := WithSubagent(c, first, o'), WithSubagent(WithSubagent(c, first, o'), second, o), WithSubagent(c, second, o');
    SubagentPruned(one, second, o);
    SubagentPruned(c, second, o');
    SubagentSlots(c, first, o');
    SubagentSlots(one, second, o);
    SubagentSlots(c, second, o');
    hide WithSubagent;
    forall k ensures Get(two.agents, k) == Get(direct.agents, k) {
      assert k == DefaultSubagentModel || k == DefaultSubagentEffort || Get(two.agents, k) == Get(one.agents, k);
    }
    SameUnpruned(two.agents, direct.agents);
  }

  /** A hot update turns the record of one setting into the record of the other. */
  lemma UpdatedRecord(x: Config, s: Settings, update: Subagent)
    requires s.catalogPath.Some?
    ensures WithSubagent(Fresh(x, s), update, BaseOf(x, s)) == Fresh(x, WithSetting(s, update))
    ensures BaseOf(x, WithSetting(s, update)) == BaseOf(x, s)
    ensures Fresh(x, WithSetting(s, update)) == Fresh(x, s).(agents := Fresh(x, WithSetting(s, update)).agents)
  {
    var s' := WithSetting(s, update);
    var scrubbed := Scrubbed(x, s.catalogPath, s.proxyUrl);
    BaselineIsScrubbed(x, s.catalogPath, s.proxyUrl);
    SubagentTwice(x, s.subagent, BaseOf(x, s), update, scrubbed);
    UpdatedParts(x, s, update);
    hide Fresh, BaseOf, Scrubbed;
    assert WithSubagent(Fresh(x, s), update, BaseOf(x, s)).agents == WithSubagent(WithSubagent(x, s.subagent, scrubbed), update, BaseOf(x, s)).agents;
  }

  lemma UpdatedParts(x: Config, s: Settings, update: Subagent)
    requires s.catalogPath.Some?
    ensures var a, a' := Fresh(x, s), Fresh(x, WithSetting(s, update));
            var scrubbed := Scrubbed(x, s.catalogPath, s.proxyUrl);
            && a'.top == a.top && a'.features == a.features && a'.providers == a.providers
            && a.agents == WithSubagent(x, s.subagent, scrubbed).agents
            && a'.agents == WithSubagent(x, update, scrubbed).agents
  {
    AppliedParts(x, x, s);
    AppliedParts(x, x, WithSetting(s, update));
  }

  /** A hot update keeps a config kin to the first one, now for the new setting. */
  lemma UpdatedIsKin(c: Config, x: Config, s: Settings, update: Subagent)
    requires s.catalogPath.Some? && Kin(c, x, s)
    ensures var r, a := WithSubagent(c, update, BaseOf(x, s)), Fresh(x, WithSetting(s, update));
            && Kin(r, x, WithSetting(s, update))
            && (forall k :: Get(r.agents, k) == Get(a.agents, k))
            && (forall k :: k !in MANAGED_AGENT_KEYS ==> Get(a.agents, k) == Get(x.agents, k))
  {
    var s' := WithSetting(s, update);
    var o, a, r := BaseOf(x, s), Fresh(x, s'), WithSubagent(c, update, BaseOf(x, s));
    KinLookups(c, x, s);
    UpdatedRecord(x, s, update);
    FreshIsKin(x, s');
    KinLookups(a, x, s');
    AgentSlots(c, update, o);
    AgentSlots(Fresh(x, s), update, o);
    assert r == c.(agents := r.agents);
    hide Fresh, BaseOf, WithSubagent, SubagentValue;
    forall k ensures Get(r.agents, k) == Get(a.agents, k) {
    }
    LikeApplied(r.agents, x.agents, o.agents, a.agents, MANAGED_AGENT_KEYS);
  }

  /** And keeps it restorable. */
  lemma UpdatedRestores(c: Config, x: Config, s: Settings, update: Subagent)
    requires s.catalogPath.Some? && Kin(c, x, s)
    requires Restored(c, BaseOf(x, s), Fresh(x, s)) == AfterCycle(x, s.catalogPath, s.proxyUrl)
    ensures Restored(WithSubagent(c, update, BaseOf(x, s)), BaseOf(x, s), Fresh(x, WithSetting(s, update))) == AfterCycle(x, s.catalogPath, s.proxyUrl)
  {
    var s' := WithSetting(s, update);
    var o, a, a', r := BaseOf(x, s), Fresh(x, s), Fresh(x, s'), WithSubagent(c, update, BaseOf(x, s));
    UpdatedIsKin(c, x, s, update);
    UpdatedRecord(x, s, update);
    FreshRestores(x, s');
    assert r == c.(agents := r.agents);
    hide Fresh, BaseOf, WithSubagent, AfterCycle, Kin;
    LikeApplied(r.agents, x.agents, o.agents, a'.agents, MANAGED_AGENT_KEYS);
    hide MergedTable, MergedEntries, Get;
  }

  // ===== Whole runs =====

  /** The disk's lease is what a first apply over `x` recorded, its config is kin to `x`, and a cycle over `x` ends in `home`. */
  ghost predicate Tracks(d: Disk, x: Config, s: Settings, home: Config)
    requires s.catalogPath.Some?
  {
    && d.lease.Some? && d.lease.value.V2?
    && d.lease.value.original == BaseOf(x, s) && d.lease.value.applied == Fresh(x, s)
    && Kin(d.config, x, s)
    && AfterCycle(x, s.catalogPath, s.proxyUrl) == home
  }

  ghost predicate OnTrack(d: Disk, s: Settings, home: Config)
    requires s.catalogPath.Some?
  {
    if d.lease.None? then AfterCycle(d.config, s.catalogPath, s.proxyUrl) == home else exists x :: Tracks(d, x, s, home)
  }

  /** Restoring now would end in `home`. */
  predicate Diverted(d: Disk, home: Config) {
    d.lease.Some? && Restored(d.config, d.lease.value.original, d.lease.value.applied) == home
  }

  lemma ReconcileOnTrack(d: Disk, s: Settings, home: Config, alive: bool, me: Owner)
    requires s.catalogPath.Some? && OnTrack(d, s, home)
    ensures var e := ReconcileEffect(d, alive, me);
            && (forall y :: y in e.writes ==> OnTrack(y, s, home)) && OnTrack(Final(d, e), s, home)
            && (!alive ==> e.ok)
  {
    hide BaseOf, Fresh, Kin, AfterCycle;
    if d.lease.Some? {
      var x :| Tracks(d, x, s, home);
      BaselineCycle(x, s);
      forall y | y in ReconcileEffect(d, alive, me).writes ensures OnTrack(y, s, home) {
        if y.lease.Some? {
          assert Tracks(y, x, s, home);
        }
      }
    }
  }

  lemma ApplyOnTrack(d: Disk, s: Settings, home: Config, me: Owner)
    requires s.catalogPath.Some? && OnTrack(d, s, home)
    ensures var e := ApplyEffect(d, s, me);
            (forall y :: y in e.writes ==> OnTrack(y, s, home)) && Diverted(Final(d, e), home)
  {
    if d.lease.None? {
      FirstApply(d, s, home, me);
    } else {
      var x :| Tracks(d, x, s, home);
      LaterApply(d, x, s, home, me);
    }
  }

  lemma FirstApplyWrites(d: Disk, s: Settings, me: Owner)
    requires s.catalogPath.Some? && d.lease.None?
    ensures var leased := d.(lease := Some(LeaseOf(d.config, s, me)));
            ApplyEffect(d, s, me) == Effect(true, [leased, leased.(config := Fresh(d.config, s))])
  {
    assert AppliedOver(d, s) == Fresh(d.config, s);
    hide AppliedOver, Baseline, Pure;
  }

  lemma FreshRestores(x: Config, s: Settings)
    requires s.catalogPath.Some?
    ensures Restored(Fresh(x, s), BaseOf(x, s), Fresh(x, s)) == AfterCycle(x, s.catalogPath, s.proxyUrl)
  {
    hide AppliedOver, AfterCycle, Restored, Baseline;
    RestoreUndoesFreshApply(Disk(x, None, false), s);
  }

  lemma FirstApply(d: Disk, s: Settings, home: Config, me: Owner)
    requires s.catalogPath.Some? && d.lease.None? && OnTrack(d, s, home)
    ensures var e := ApplyEffect(d, s, me);
            (forall y :: y in e.writes ==> OnTrack(y, s, home)) && Diverted(Final(d, e), home)
  {
    hide Fresh, BaseOf, Kin, AfterCycle, Restored, ApplyEffect;
    var x := d.config;
    FreshRestores(x, s);
    FirstApplyWrites(d, s, me);
    KinSelf(x, s);
    FreshIsKin(x, s);
    forall y | y in ApplyEffect(d, s, me).writes ensures OnTrack(y, s, home) {
      assert Tracks(y, x, s, home);
    }
  }

  lemma LaterApplyWrites(d: Disk, x: Config, s: Settings, home: Config, me: Owner)
    requires s.catalogPath.Some? && Tracks(d, x, s, home)
    ensures ApplyEffect(d, s, me) == Effect(true, [d.(config := Reapplied(d.config, x, s))])
  {
    assert AppliedOver(d, s) == Reapplied(d.config, x, s);
    ScrubbedIsPure(x, s.catalogPath, s.proxyUrl);
    hide AppliedOver, Kin, AfterCycle, Reapplied, Fresh, Pure;
  }

  lemma LaterApply(d: Disk, x: Config, s: Settings, home: Config, me: Owner)
    requires s.catalogPath.Some? && Tracks(d, x, s, home)
    ensures var e := ApplyEffect(d, s, me);
            (forall y :: y in e.writes ==> OnTrack(y, s, home)) && Diverted(Final(d, e), home)
  {
    hide ApplyEffect, Kin, AfterCycle, Restored, Reapplied, Fresh, BaseOf;
    LaterApplyWrites(d, x, s, home, me);
    ReappliedIsKin(d.config, x, s);
    ReappliedRestores(d.config, x, s);
    assert Tracks(d.(config := Reapplied(d.config, x, s)), x, s, home);
  }

  lemma RestoreOnTrack(d: Disk, s: Settings, home: Config)
    requires s.catalogPath.Some? && OnTrack(d, s, home)
    ensures forall y :: y in RestoreEffect(d).writes ==> OnTrack(y, s, home)
    ensures Diverted(d, home) ==> Final(d, RestoreEffect(d)) == Disk(home, None, false)
  {
    hide BaseOf, Fresh, Kin, AfterCycle, Restored;
    if d.lease.Some? {
      var x :| Tracks(d, x, s, home);
      KinRestored(d.config, x, s);
      forall y | y in RestoreEffect(d).writes ensures OnTrack(y, s, home) {
        if y.lease.Some? {
          assert Tracks(y, x, s, home);
        }
      }
    }
  }

  /**
    From any config, even a dirty one: wherever a first start crashes, before, between or after its writes, a
    later process that reconciles, applies with the same settings and stops ends where an undisturbed cycle
    would have.
   */
  lemma CrashedStartRecovers(d: Disk, s: Settings, me: Owner, crashed: Disk, later: Owner)
    requires d.lease.None? && s.catalogPath.Some? && MayLeave(d, ApplyEffect(d, s, me), crashed)
    ensures var e := ReconcileEffect(crashed, false, later);
            && e.ok
            && Cycle(Final(crashed, e), s, later) == Disk(AfterCycle(d.config, s.catalogPath, s.proxyUrl), None, false)
  {
    var home := AfterCycle(d.config, s.catalogPath, s.proxyUrl);
    hide ApplyEffect, RestoreEffect, ReconcileEffect, Diverted, AfterCycle;
    ApplyOnTrack(d, s, home, me);
    ReconcileOnTrack(crashed, s, home, false, later);
    var found := Final(crashed, ReconcileEffect(crashed, false, later));
    ApplyOnTrack(found, s, home, later);
    var applied := Final(found, ApplyEffect(found, s, later));
    assert OnTrack(applied, s, home);
    RestoreOnTrack(applied, s, home);
  }

  /**
    Starts use the same listener, catalog and boundary key, and over a lease also the sub-agent setting last
    completed by a start or a hot update; a hot update is not cut between its two writes, and nobody edits
    the config.
   */
  predicate Steady(w: World, e: Event, current: Settings) {
    match e
    case Start(l, _) => SteadyLaunch(w, l, current)
    case StartCrash(l, _, _) => SteadyLaunch(w, l, current)
    case HotUpdateCrash(_, _, writes) => writes != 1
    case Edit(_) => false
    case _ => true
  }

  predicate SteadyLaunch(w: World, l: Launch, current: Settings) {
    l.settings == current || (w.disk.lease.None? && l.settings == WithSetting(current, l.settings.subagent))
  }

  /** The settings last completed. */
  function CurrentAfter(e: Event, current: Settings): Settings {
    match e
    case Start(l, _) => l.settings
    case StartCrash(l, _, _) => l.settings
    case HotUpdate(_, update) => WithSetting(current, update)
    case HotUpdateCrash(_, update, writes) => if writes == 0 then current else WithSetting(current, update)
    case _ => current
  }

  predicate SteadyRun(w: World, es: seq<Event>, current: Settings)
    decreases |es|
  {
    es == [] || (Steady(w, es[0], current) && SteadyRun(Next(w, es[0]), es[1..], CurrentAfter(es[0], current)))
  }

  lemma HotUpdateOnTrack(d: Disk, s: Settings, home: Config, update: Subagent)
    requires s.catalogPath.Some? && OnTrack(d, s, home) && d.lease.Some?
    ensures var d' := Final(d, HotUpdateEffect(d, update));
            OnTrack(d', WithSetting(s, update), home) && (Diverted(d, home) ==> Diverted(d', home))
  {
    hide BaseOf, Fresh, Kin, AfterCycle, Restored, WithSubagent;
    var x :| Tracks(d, x, s, home);
    UpdatedRecord(x, s, update);
    UpdatedIsKin(d.config, x, s, update);
    if Diverted(d, home) {
      UpdatedRestores(d.config, x, s, update);
    }
    assert Tracks(Final(d, HotUpdateEffect(d, update)), x, WithSetting(s, update), home);
  }

  /** Without a lease the sub-agent setting does not matter. */
  lemma SettingIsFree(d: Disk, s: Settings, home: Config, subagent: Subagent)
    requires s.catalogPath.Some? && OnTrack(d, s, home) && d.lease.None?
    ensures OnTrack(d, WithSetting(s, subagent), home)
  {
  }

  ghost predicate Healthy(w: World, s: Settings, home: Config)
    requires s.catalogPath.Some?
  {
    Inv(w) && OnTrack(w.disk, s, home) && (w.running != {} ==> Diverted(w.disk, home))
  }

  lemma StartOnTrack(w: World, l: Launch, ending: Ending, home: Config)
    requires l.settings.catalogPath.Some? && OnTrack(w.disk, l.settings, home)
    ensures var e := StartEffect(w, l, ending);
            && (forall y :: y in e.writes ==> OnTrack(y, l.settings, home))
            && (e.ok ==> Diverted(Final(w.disk, e), home))
  {
    hide OnTrack, Diverted, ReconcileEffect, ApplyEffect, RestoreEffect, After;
    var s, me := l.settings, OwnerRecord(l);
    var n := if ending.RollsBack? then ending.written else 0;
    ReconcileOnTrack(w.disk, s, home, LeaseOwnerAlive(w, l.probed), me);
    CatalogOnTrack(Found(w, l), s, home);
    var a := ApplyEffect(Committed(w, l), s, me);
    ApplyOnTrack(Committed(w, l), s, home, me);
    ApplyWrites(Committed(w, l), s, me);
    AfterIsReached(Committed(w, l), a, n);
    RestoreOnTrack(After(Committed(w, l), a, n), s, home);
  }

  lemma ApplyWrites(d: Disk, s: Settings, me: Owner)
    requires s.catalogPath.Some?
    ensures ApplyEffect(d, s, me).ok && ApplyEffect(d, s, me).writes != []
  {
    hide AppliedOver, LeaseAfterApply;
  }

  lemma AfterIsReached(d: Disk, e: Effect, n: nat)
    ensures After(d, e, n) == d || After(d, e, n) in e.writes
  {
  }

  lemma CatalogOnTrack(d: Disk, s: Settings, home: Config)
    requires s.catalogPath.Some? && OnTrack(d, s, home)
    ensures OnTrack(d.(catalog := true), s, home)
  {
    hide AfterCycle, Kin, BaseOf, Fresh;
    if d.lease.Some? {
      var x :| Tracks(d, x, s, home);
      assert Tracks(d.(catalog := true), x, s, home);
    }
  }

  lemma StepKeepsHealthy(w: World, e: Event, s: Settings, home: Config)
    requires s.catalogPath.Some? && Healthy(w, s, home) && Legal(w, e) && Steady(w, e, s)
    ensures CurrentAfter(e, s).catalogPath.Some? && Healthy(Next(w, e), CurrentAfter(e, s), home)
  {
    hide OnTrack, Diverted, RestoreEffect, StartEffect, HotUpdateEffect, Inv, LegalLaunch;
    StepKeepsInv(w, e);
    match e {
      case Start(l, ending) => StartKeepsHealthy(w, l, ending, s, home);
      case StartCrash(l, ending, n) =>
        StartKeepsHealthy(w, l, ending, s, home);
        AfterIsReached(w.disk, StartEffect(w, l, ending), n);
      case Stop(_) => RestoreOnTrack(w.disk, s, home);
      case StopCrash(_, n) =>
        RestoreOnTrack(w.disk, s, home);
        AfterIsReached(w.disk, RestoreEffect(w.disk), n);
      case HotUpdate(p, update) =>
        RunnerHasLease(w, p);
        HotUpdateOnTrack(w.disk, s, home, update);
      case HotUpdateCrash(p, update, n) =>
        RunnerHasLease(w, p);
        HotUpdateOnTrack(w.disk, s, home, update);
        UpdateCutShort(w.disk, update, n);
      case _ =>
    }
  }

  /** Whatever a start leaves behind is on track for its own settings; while somebody runs it leaves all as it was. */
  lemma StartKeepsHealthy(w: World, l: Launch, ending: Ending, s: Settings, home: Config)
    requires s.catalogPath.Some? && Healthy(w, s, home) && LegalLaunch(w, l) && SteadyLaunch(w, l, s)
    ensures l.settings.catalogPath.Some? && OnTrack(w.disk, l.settings, home)
    ensures var e := StartEffect(w, l, ending);
            && (forall y :: y in e.writes ==> OnTrack(y, l.settings, home))
            && (e.ok ==> Diverted(Final(w.disk, e), home))
            && (w.running != {} ==> e == Effect(false, []))
  {
    hide OnTrack, Diverted, StartEffect;
    if l.settings != s {
      SettingIsFree(w.disk, s, home, l.settings.subagent);
    }
    StartOnTrack(w, l, ending, home);
    if holder :| holder in w.running {
      StartRefused(w, l, ending, holder);
    }
  }

  lemma RunnerHasLease(w: World, p: Process)
    requires Inv(w) && p in w.running
    ensures w.disk.lease.Some?
  {
  }

  lemma UpdateCutShort(d: Disk, update: Subagent, n: nat)
    requires d.lease.Some? && n != 1
    ensures After(d, HotUpdateEffect(d, update), n) == if n == 0 then d else Final(d, HotUpdateEffect(d, update))
  {
    hide WithSubagent;
  }

  lemma {:induction false} RunKeepsHealthy(w: World, es: seq<Event>, s: Settings, home: Config) returns (last: Settings)
    requires s.catalogPath.Some? && Healthy(w, s, home) && LegalRun(w, es) && SteadyRun(w, es, s)
    ensures last.catalogPath == s.catalogPath && last.proxyUrl == s.proxyUrl && Healthy(Run(w, es), last, home)
    decreases |es|
  {
    hide Healthy, Legal, Next;
    last := s;
    if es != [] {
      StepKeepsHealthy(w, es[0], s, home);
      last := RunKeepsHealthy(Next(w, es[0]), es[1..], CurrentAfter(es[0], s), home);
    }
  }

  /**
    Over every run of any number of processes with one listener, catalog and boundary key, with hot updates
    and no edits, in which a start over a lease uses the sub-agent setting last completed, whatever crashed
    between whichever writes of starts and stops and however often: when a running process stops, the config
    is the first one scrubbed plus the two aliases, and lease and catalog are gone. While nothing is leased, a
    cycle from the config at hand would still end there.
   */
  lemma EveryStopComesHome(d: Disk, live: map<nat, string>, es: seq<Event>, s: Settings)
    requires d.lease.None? && s.catalogPath.Some? && LegalRun(World(d, live, {}), es) && SteadyRun(World(d, live, {}), es, s)
    ensures var w := Run(World(d, live, {}), es);
            var home := AfterCycle(d.config, s.catalogPath, s.proxyUrl);
            && (forall p :: p in w.running ==> Next(w, Stop(p)).disk == Disk(home, None, false))
            && (w.disk.lease.None? ==> AfterCycle(w.disk.config, s.catalogPath, s.proxyUrl) == home)
  {
    hide AfterCycle, Healthy, Steady, Next;
    var home := AfterCycle(d.config, s.catalogPath, s.proxyUrl);
    var w := Run(World(d, live, {}), es);
    IdleIsHealthy(d, live, s);
    var last := RunKeepsHealthy(World(d, live, {}), es, s, home);
    forall p | p in w.running ensures Next(w, Stop(p)).disk == Disk(home, None, false) {
      HealthyStop(w, last, home, p);
    }
    HealthyIdle(w, last, home);
  }

  lemma IdleIsHealthy(d: Disk, live: map<nat, string>, s: Settings)
    requires d.lease.None? && s.catalogPath.Some?
    ensures Healthy(World(d, live, {}), s, AfterCycle(d.config, s.catalogPath, s.proxyUrl))
  {
  }

  lemma HealthyStop(w: World, s: Settings, home: Config, p: Process)
    requires s.catalogPath.Some? && Healthy(w, s, home) && p in w.running
    ensures Next(w, Stop(p)).disk == Disk(home, None, false)
  {
    hide OnTrack, Diverted, RestoreEffect, Inv;
    RestoreOnTrack(w.disk, s, home);
  }

  lemma HealthyIdle(w: World, s: Settings, home: Config)
    requires s.catalogPath.Some? && Healthy(w, s, home)
    ensures w.disk.lease.None? ==> AfterCycle(w.disk.config, s.catalogPath, s.proxyUrl) == home
  {
  }
}
