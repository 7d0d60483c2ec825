/**
  The config lease: what each operation writes, in order, to Codex's `config.toml`, Vellum's
  lease file and the managed catalog file. Every operation is a function from the disk it finds
  to the sequence of disk states its atomic writes produce, so a crash is a proper prefix of it.
 */
module ConfigLease {
  import opened Common
  import opened CodexConfig

  datatype Owner = Owner(pid: nat, startTime: Option<string>, port: nat)

  datatype Lease =
    | V2(owner: Owner, original: Config, applied: Config)
    | Legacy(original: Config, applied: Config)

  datatype Disk = Disk(config: Config, lease: Option<Lease>, catalog: bool)

  datatype Subagent =
    | Inherit
    | Custom(model: Option<string>, effort: Option<string>)

  /** `catalogPath` is None when the catalog path is not absolute, which `apply` refuses. */
  datatype Settings = Settings(proxyUrl: string, boundaryKey: string, catalogPath: Option<string>, subagent: Subagent)

  /** The disk states after each write, oldest first; `ok` is false when the operation returned an error. */
  datatype Effect = Effect(ok: bool, writes: seq<Disk>)

  function Final(d: Disk, e: Effect): Disk {
    if e.writes == [] then d else e.writes[|e.writes| - 1]
  }

  /** Where a crash can leave the disk: before the first write, or after any of them. */
  predicate MayLeave(d: Disk, e: Effect, d': Disk) {
    d' == d || d' in e.writes
  }

  // ----- Sub-agent keys -----

  function NonEmpty(s: Option<string>): Option<Value> {
    if s.Some? && s.value != "" then Some(Str(s.value)) else None
  }

  /** The value Vellum wants under a managed `[agents]` key. */
  function SubagentValue(s: Subagent, original: Config, k: AgentKey): Option<Value> {
    match s
    case Inherit => Get(original.agents, k)
    case Custom(model, effort) => NonEmpty(if k == DefaultSubagentModel then model else effort)
  }

  function WithSubagent(c: Config, s: Subagent, original: Config): Config {
    var one := Write(c.agents, DefaultSubagentModel, SubagentValue(s, original, DefaultSubagentModel));
    c.(agents := Write(one, DefaultSubagentEffort, SubagentValue(s, original, DefaultSubagentEffort)))
  }

  // ----- Apply -----

  function RelinquishedTop(c: Config, original: Config, previous: Option<Config>): map<TopKey, Value> {
    if previous.Some? && Lookup(c.top, OpenaiBaseUrl) == Lookup(previous.value.top, OpenaiBaseUrl)
    then WriteTop(c.top, OpenaiBaseUrl, Lookup(original.top, OpenaiBaseUrl))
    else c.top
  }

  function RelinquishedFeatures(c: Config, original: Config, previous: Option<Config>): Table<FeatureKey> {
    if previous.Some? && Get(c.features, ImageGeneration) == Get(previous.value.features, ImageGeneration)
    then Write(c.features, ImageGeneration, Get(original.features, ImageGeneration))
    else c.features
  }

  function AppliedTop(top: map<TopKey, Value>, catalog: string): map<TopKey, Value> {
    top[ModelProvider := Str(VELLUM_PROVIDER_NAME)][ModelCatalogJson := Str(catalog)]
    - {ModelContextWindow, AutoCompactLimit, AutoCompactLimitScope}
  }

  function AppliedFeatures(t: Table<FeatureKey>): Table<FeatureKey> {
    Some(Entries(t)[StandaloneWebSearch := Bool(true)][RemoteCompactionV2 := Bool(true)][EnableRequestCompression := Bool(false)])
  }

  function AppliedProviders(t: Table<ProviderId>, s: Settings): Table<ProviderId> {
    var kept := Entries(t) - {AmazonBedrock, Openai, Ollama, LmStudio, Oss, OllamaChat};
    Some(kept[Vellum := ProxyProvider(Vellum, s.proxyUrl, s.boundaryKey)]
             [VellumOfficial := ProxyProvider(VellumOfficial, s.proxyUrl, s.boundaryKey)])
  }

  /** The document Vellum writes over a live config, given the scrubbed baseline and the recorded applied copy. */
  function Applied(c: Config, original: Config, previous: Option<Config>, s: Settings): Config
    requires s.catalogPath.Some?
  {
    var edited := Config(
                    AppliedTop(RelinquishedTop(c, original, previous), s.catalogPath.value),
                    AppliedFeatures(RelinquishedFeatures(c, original, previous)),
                    c.agents,
                    AppliedProviders(c.providers, s));
    WithSubagent(edited, s.subagent, original)
  }

  function LeaseSource(d: Disk): Config {
    if d.lease.Some? then d.lease.value.original else d.config
  }

  function PreviousApplied(d: Disk): Option<Config> {
    if d.lease.Some? then Some(d.lease.value.applied) else None
  }

  function AppliedOver(d: Disk, s: Settings): Config
    requires s.catalogPath.Some?
  {
    Applied(d.config, Scrubbed(LeaseSource(d), s.catalogPath, s.proxyUrl), PreviousApplied(d), s)
  }

  /** The lease after `apply`: fresh, repaired, or left exactly as found. */
  function LeaseAfterApply(d: Disk, s: Settings, me: Owner): Lease
    requires s.catalogPath.Some?
  {
    var source := LeaseSource(d);
    var baseline := Baseline(source, s.catalogPath, s.proxyUrl);
    if d.lease.None? then V2(me, baseline, AppliedOver(d, s))
    else if Pure(source, s.catalogPath, s.proxyUrl) then d.lease.value
    else V2(if d.lease.value.V2? then d.lease.value.owner else me, baseline, AppliedOver(d, s))
  }

  function ApplyEffect(d: Disk, s: Settings, me: Owner): Effect {
    if s.catalogPath.None? then Effect(false, [])
    else
      var leased := d.(lease := Some(LeaseAfterApply(d, s, me)));
      var done := leased.(config := AppliedOver(d, s));
      Effect(true, if leased.lease == d.lease then [done] else [leased, done])
  }

  // ----- Sub-agent hot update -----

  function HotUpdateEffect(d: Disk, s: Subagent): Effect {
    if d.lease.None? then Effect(true, [])
    else
      var l := d.lease.value;
      var live := d.(config := WithSubagent(d.config, s, l.original));
      Effect(true, [live, live.(lease := Some(l.(applied := WithSubagent(l.applied, s, l.original))))])
  }

  // ----- Restore -----

  /** A reserved provider entry Vellum may replace by its alias. */
  predicate Recoverable(c: Config, o: Config, a: Config, id: ProviderId) {
    && IsReserved(id)
    && Get(o.providers, id).None?
    && Get(c.providers, id) == Get(a.providers, id)
  }

  function WithAlias(t: Table<ProviderId>, recover: bool, id: ProviderId): Table<ProviderId> {
    if recover then Some(Entries(t)[id := RecoveryAlias(id)]) else t
  }

  function RestoredProviders(c: Config, o: Config, a: Config): Table<ProviderId> {
    var base := if c.providers == a.providers then o.providers else c.providers;
    WithAlias(WithAlias(base, Recoverable(c, o, a, Vellum), Vellum), Recoverable(c, o, a, VellumOfficial), VellumOfficial)
  }

  /** The three-way merge `restore_proxy_config` computes from live config, baseline and applied copy. */
  function Restored(c: Config, o: Config, a: Config): Config {
    Config(
      MergedEntries(c.top, o.top, a.top, MANAGED_KEYS),
      MergedTable(c.features, o.features, a.features, MANAGED_FEATURE_KEYS),
      MergedTable(c.agents, o.agents, a.agents, MANAGED_AGENT_KEYS),
      RestoredProviders(c, o, a))
  }

  function RestoreEffect(d: Disk): Effect {
    if d.lease.None? then Effect(true, [d.(catalog := false)])
    else
      var l := d.lease.value;
      var merged := d.(config := Restored(d.config, l.original, l.applied));
      Effect(true, [merged, merged.(lease := None), merged.(lease := None, catalog := false)])
  }

  // ----- Reconcile -----

  function ReconcileEffect(d: Disk, ownerAlive: bool, me: Owner): Effect {
    if d.lease.None? then Effect(true, [])
    else if d.config == d.lease.value.original then
      Effect(true, [d.(lease := None), d.(lease := None, catalog := false)])
    else
      match d.lease.value
      case Legacy(_, _) => Effect(false, [])
      case V2(owner, original, applied) =>
        if ownerAlive then Effect(false, [])
        else Effect(true, [d.(lease := Some(V2(me.(port := owner.port), original, applied)))])
  }

  // ===== Three-way restore =====

  /**
    Slot by slot, for any live config, baseline and applied copy. Provider entries follow two rules at
    once: a reserved entry still equal to the applied one and absent from the baseline becomes the alias,
    whatever happened to its neighbours; every other entry follows the whole-key rule.
   */
  lemma ThreeWayRestore(c: Config, o: Config, a: Config)
    ensures var r := Restored(c, o, a);
            && (forall k :: Lookup(r.top, k) ==
                 if k in MANAGED_KEYS && Lookup(c.top, k) == Lookup(a.top, k) then Lookup(o.top, k) else Lookup(c.top, k))
            && (forall k :: Get(r.features, k) ==
                 if k in MANAGED_FEATURE_KEYS && Get(c.features, k) == Get(a.features, k) then Get(o.features, k) else Get(c.features, k))
            && (forall k :: Get(r.agents, k) ==
                 if k in MANAGED_AGENT_KEYS && Get(c.agents, k) == Get(a.agents, k) then Get(o.agents, k) else Get(c.agents, k))
            && (forall id :: Get(r.providers, id) ==
                 if id in RESERVED_PROVIDERS && Get(o.providers, id).None? && Get(c.providers, id) == Get(a.providers, id)
                 then Some(RecoveryAlias(id))
                 else if c.providers == a.providers then Get(o.providers, id) else Get(c.providers, id))
  {
    var r := Restored(c, o, a);
    forall k ensures Get(r.features, k) == Merged(Entries(c.features), Entries(o.features), Entries(a.features), MANAGED_FEATURE_KEYS, k) {
      TableSlot(c.features, o.features, a.features, MANAGED_FEATURE_KEYS, k);
    }
    forall k ensures Get(r.agents, k) == Merged(Entries(c.agents), Entries(o.agents), Entries(a.agents), MANAGED_AGENT_KEYS, k) {
      TableSlot(c.agents, o.agents, a.agents, MANAGED_AGENT_KEYS, k);
    }
  }

  /** And so an entry Vellum wrote ends as a way straight to OpenAI, in the config restore leaves. */
  lemma RestoredEntriesReachOpenAI(d: Disk, id: ProviderId)
    requires d.lease.Some? && (id == Vellum || id == VellumOfficial)
    requires Get(d.lease.value.original.providers, id).None?
    requires Get(d.config.providers, id) == Get(d.lease.value.applied.providers, id)
    ensures var left := Get(Final(d, RestoreEffect(d)).config.providers, id);
            left.Some? && ReachesOpenAI(left.value, id == VellumOfficial)
  {
    var l := d.lease.value;
    assert RESERVED_PROVIDERS[0] == Vellum && RESERVED_PROVIDERS[1] == VellumOfficial;
    ThreeWayRestore(d.config, l.original, l.applied);
    AliasMeans(id);
    hide Restored, RecoveryAlias, ReachesOpenAI;
  }

  lemma TableSlot<K(!new)>(c: Table<K>, o: Table<K>, a: Table<K>, managed: seq<K>, k: K)
    ensures Get(MergedTable(c, o, a, managed), k) == Merged(Entries(c), Entries(o), Entries(a), managed, k)
  {
  }

  // ===== Start/stop convergence =====

  /** What one start/stop cycle leaves: the scrubbed original, its two aliases, and no empty table. */
  function AfterCycle(c: Config, catalog: Option<string>, proxyUrl: string): Config {
    var s := Scrubbed(c, catalog, proxyUrl);
    WithAliases(s.(features := Prune(s.features), agents := Prune(s.agents)))
  }

  function WithAliases(c: Config): Config {
    c.(providers := Some(Entries(c.providers)[Vellum := RecoveryAlias(Vellum)][VellumOfficial := RecoveryAlias(VellumOfficial)]))
  }

  /** Apply then restore, as whole operations. */
  function Cycle(d: Disk, s: Settings, me: Owner): Disk {
    var applied := Final(d, ApplyEffect(d, s, me));
    Final(applied, RestoreEffect(applied))
  }

  /** Apply then restore leaves the scrubbed original plus the two recovery aliases, no lease and no catalog. */
  lemma CycleConverges(d: Disk, s: Settings, me: Owner)
    requires d.lease.None? && s.catalogPath.Some?
    ensures Cycle(d, s, me) == Disk(AfterCycle(d.config, s.catalogPath, s.proxyUrl), None, false)
  {
    hide AppliedOver, Baseline, Scrubbed, Pure, AfterCycle, Restored;
    RestoreUndoesFreshApply(d, s);
    var applied := Final(d, ApplyEffect(d, s, me));
    assert applied == Disk(AppliedOver(d, s), Some(V2(me, Baseline(d.config, s.catalogPath, s.proxyUrl), AppliedOver(d, s))), d.catalog);
  }

  lemma RestoreUndoesFreshApply(d: Disk, s: Settings)
    requires d.lease.None? && s.catalogPath.Some?
    ensures var a := AppliedOver(d, s);
            Restored(a, Baseline(d.config, s.catalogPath, s.proxyUrl), a) == AfterCycle(d.config, s.catalogPath, s.proxyUrl)
  {
    var c := d.config;
    var a := AppliedOver(d, s);
    var o := Baseline(c, s.catalogPath, s.proxyUrl);
    ScrubbedIsPure(c, s.catalogPath, s.proxyUrl);
    BaselineIsScrubbed(c, s.catalogPath, s.proxyUrl);
    CycleTop(c, s);
    CycleFeatures(c, o, a);
    assert forall k :: k !in MANAGED_AGENT_KEYS ==> Get(a.agents, k) == Get(c.agents, k) by {
      assert MANAGED_AGENT_KEYS[0] == DefaultSubagentModel && MANAGED_AGENT_KEYS[1] == DefaultSubagentEffort;
      SubagentSlots(c, s.subagent, Scrubbed(c, s.catalogPath, s.proxyUrl));
    }
    CycleAgents(c, o, a);
    CycleProviders(c, o, a, s);
  }

  /** Writing the sub-agent keys sets both managed slots and leaves every other slot alone. */
  lemma SubagentSlots(c: Config, s: Subagent, original: Config)
    ensures var r := WithSubagent(c, s, original);
            && Get(r.agents, DefaultSubagentModel) == SubagentValue(s, original, DefaultSubagentModel)
            && Get(r.agents, DefaultSubagentEffort) == SubagentValue(s, original, DefaultSubagentEffort)
            && (forall k :: k != DefaultSubagentModel && k != DefaultSubagentEffort ==> Get(r.agents, k) == Get(c.agents, k))
  {
  }

  lemma BaselineIsScrubbed(c: Config, catalog: Option<string>, url: string)
    ensures var o := Baseline(c, catalog, url);
            var s := Scrubbed(c, catalog, url);
            && o.top == s.top && o.features == s.features && o.agents == s.agents
            && Entries(o.providers) == Entries(s.providers)
  {
    if Pure(c, catalog, url) {
      PureIsFixed(c, catalog, url);
    }
  }

  lemma CycleTop(c: Config, s: Settings)
    requires s.catalogPath.Some?
    ensures var top := ScrubbedTop(c.top, s.catalogPath, s.proxyUrl);
            var a := AppliedTop(c.top, s.catalogPath.value);
            MergedEntries(a, top, a, MANAGED_KEYS) == top
  {
  }

  /** Handing every managed key of a table back to a baseline that agrees elsewhere prunes the baseline's table. */
  lemma HandBack<K(!new)>(a: Table<K>, o: Table<K>, managed: seq<K>)
    requires managed != []
    requires forall k :: k !in managed ==> Get(a, k) == Get(o, k)
    ensures MergedTable(a, o, a, managed) == Prune(Some(Entries(o)))
  {
    var m := MergedEntries(Entries(a), Entries(o), Entries(a), managed);
    forall k: K ensures Lookup(m, k) == Lookup(Entries(o), k) {
      assert Lookup(m, k) == Merged(Entries(a), Entries(o), Entries(a), managed, k);
      if k !in managed {
        assert Get(a, k) == Get(o, k);
      }
    }
    SameEntries(m, Entries(o));
    if m == map[] {
      assert managed[0] !in Entries(o);
      assert Relinquishes(Entries(a), Entries(o), Entries(a), managed);
    }
  }

  lemma CycleFeatures(c: Config, o: Config, a: Config)
    requires o.features == c.features && a.features == AppliedFeatures(c.features)
    ensures MergedTable(a.features, o.features, a.features, MANAGED_FEATURE_KEYS) == Prune(c.features)
  {
    assert MANAGED_FEATURE_KEYS[0] == StandaloneWebSearch && MANAGED_FEATURE_KEYS[1] == RemoteCompactionV2
           && MANAGED_FEATURE_KEYS[2] == EnableRequestCompression;
    HandBack(a.features, o.features, MANAGED_FEATURE_KEYS);
  }

  lemma CycleAgents(c: Config, o: Config, a: Config)
    requires o.agents == ScrubbedAgents(c.agents, MANAGED_AGENT_KEYS)
    requires forall k :: k !in MANAGED_AGENT_KEYS ==> Get(a.agents, k) == Get(c.agents, k)
    ensures MergedTable(a.agents, o.agents, a.agents, MANAGED_AGENT_KEYS) == Prune(o.agents)
  {
    AgentScrub(c.agents);
    HandBack(a.agents, o.agents, MANAGED_AGENT_KEYS);
  }

  lemma CycleProviders(c: Config, o: Config, a: Config, s: Settings)
    requires Pure(o, s.catalogPath, s.proxyUrl)
    requires Entries(o.providers) == Entries(WithoutReserved(c.providers))
    ensures RestoredProviders(a, o, a) ==
            Some(Entries(o.providers)[Vellum := RecoveryAlias(Vellum)][VellumOfficial := RecoveryAlias(VellumOfficial)])
  {
  }

  /** A cycle gives back the scrubbed original exactly, up to the aliases, if and only if no managed table was present but empty. */
  lemma CycleIsExactIff(c: Config, catalog: Option<string>, url: string)
    ensures AfterCycle(c, catalog, url) == WithAliases(Scrubbed(c, catalog, url))
            <==> c.features != Some(map[]) && c.agents != Some(map[])
  {
    AgentScrub(c.agents);
    if c.agents == Some(map[]) {
      assert ScrubbedAgents(c.agents, MANAGED_AGENT_KEYS) == c.agents;
    }
  }

  /** The failing input: an empty `[features]` header does not survive a cycle. */
  lemma EmptyTableIsLost()
    ensures var c := Config(map[], Some(map[]), None, None);
            AfterCycle(c, Some("/c.json"), "http://p") != WithAliases(Scrubbed(c, Some("/c.json"), "http://p"))
  {
  }

  lemma CycleIsIdempotent(c: Config, catalog: Option<string>, url: string)
    ensures AfterCycle(AfterCycle(c, catalog, url), catalog, url) == AfterCycle(c, catalog, url)
  {
    var s := Scrubbed(c, catalog, url);
    var r := AfterCycle(c, catalog, url);
    var bare := r.(providers := s.providers);
    ScrubbedIsPure(c, catalog, url);
    assert Pure(bare, catalog, url);
    PureIsFixed(bare, catalog, url);
    assert Entries(WithoutReserved(r.providers)) == Entries(s.providers) by {
      assert Entries(r.providers) - {Vellum, VellumOfficial} == Entries(s.providers) - {Vellum, VellumOfficial};
      assert RESERVED_PROVIDERS[0] == Vellum && RESERVED_PROVIDERS[1] == VellumOfficial;
    }
  }

  function Cycles(d: Disk, runs: seq<(Settings, Owner)>): Disk
    decreases |runs|
  {
    if runs == [] then d else Cycles(Cycle(d, runs[0].0, runs[0].1), runs[1..])
  }

  predicate SameListener(runs: seq<(Settings, Owner)>, catalog: Option<string>, url: string) {
    forall i :: 0 <= i < |runs| ==> runs[i].0.catalogPath == catalog && runs[i].0.proxyUrl == url
  }

  /**
    Any number of start/stop cycles ends where the first one did, whatever boundary keys, sub-agent
    settings and processes the cycles used.
   */
  lemma {:induction false} CyclesReachFixedPoint(d: Disk, runs: seq<(Settings, Owner)>, catalog: Option<string>, url: string)
    requires d.lease.None? && catalog.Some? && runs != []
    requires SameListener(runs, catalog, url)
    ensures Cycles(d, runs) == Disk(AfterCycle(d.config, catalog, url), None, false)
    decreases |runs|
  {
    hide Cycle, AfterCycle;
    var first := Cycle(d, runs[0].0, runs[0].1);
    CycleConverges(d, runs[0].0, runs[0].1);
    if |runs| > 1 {
      CyclesReachFixedPoint(first, runs[1..], catalog, url);
      CycleIsIdempotent(d.config, catalog, url);
    } else {
      assert runs[1..] == [];
    }
  }

  // ===== What the applied config promises =====

  /** Codex is routed to the proxy, no global override shadows the catalog, and the user's other slots are kept. */
  lemma AppliedRoutesThroughProxy(d: Disk, s: Settings)
    requires s.catalogPath.Some?
    ensures var a := AppliedOver(d, s);
            && Lookup(a.top, ModelProvider) == Some(Str("vellum"))
            && Lookup(a.top, ModelCatalogJson) == Some(Str(s.catalogPath.value))
            && (forall i :: 0 <= i < |GLOBAL_COMPACTION_OVERRIDES| ==> GLOBAL_COMPACTION_OVERRIDES[i] !in a.top)
            && (forall k: TopKey :: k !in MANAGED_KEYS ==> Lookup(a.top, k) == Lookup(d.config.top, k))
            && Get(a.features, StandaloneWebSearch) == Some(Bool(true))
            && Get(a.features, RemoteCompactionV2) == Some(Bool(true))
            && Get(a.features, EnableRequestCompression) == Some(Bool(false))
            && (forall k :: k !in MANAGED_FEATURE_KEYS ==> Get(a.features, k) == Get(d.config.features, k))
            && (forall id :: IsReserved(id) ==> Get(a.providers, id) == Some(ProxyProvider(id, s.proxyUrl, s.boundaryKey)))
            && (forall id :: id in BUILTIN_PROVIDERS ==> Get(a.providers, id).None?)
            && (forall id :: !IsReserved(id) && id !in BUILTIN_PROVIDERS ==> Get(a.providers, id) == Get(d.config.providers, id))
            && (forall k :: k in MANAGED_AGENT_KEYS ==>
                 Get(a.agents, k) == SubagentValue(s.subagent, Scrubbed(LeaseSource(d), s.catalogPath, s.proxyUrl), k))
            && (forall k :: k !in MANAGED_AGENT_KEYS ==> Get(a.agents, k) == Get(d.config.agents, k))
  {
    var c := d.config;
    var o := Scrubbed(LeaseSource(d), s.catalogPath, s.proxyUrl);
    TopSlots(c, o, PreviousApplied(d), s);
    FeatureSlots(c, o, PreviousApplied(d));
    ProviderSlots(c.providers, s);
    AgentSlots(c, s.subagent, o);
  }

  /** The value a sub-agent setting stands for. */
  function Wanted(s: Subagent, k: AgentKey, inherited: Option<Value>): Option<Value> {
    match s
    case Inherit => inherited
    case Custom(model, effort) =>
      match (if k == DefaultSubagentModel then model else effort)
      case Some(text) => if text == "" then None else Some(Str(text))
      case None => None
  }

  /**
    The config on disk after apply, slot by slot and from any disk. The baseline is the lease's if there is
    one, else the config found, without Vellum's own residue; a base URL or image flag still as recorded goes
    back to it.
   */
  lemma AppliedConfigMeans(d: Disk, s: Settings, me: Owner)
    requires s.catalogPath.Some?
    ensures var c := Final(d, ApplyEffect(d, s, me)).config;
            var o := Scrubbed(if d.lease.Some? then d.lease.value.original else d.config, s.catalogPath, s.proxyUrl);
            && (forall k :: Lookup(c.top, k) ==
                 match k
                 case ModelProvider => Some(Str("vellum"))
                 case ModelCatalogJson => Some(Str(s.catalogPath.value))
                 case OpenaiBaseUrl =>
                   if d.lease.Some? && Lookup(d.config.top, k) == Lookup(d.lease.value.applied.top, k) then Lookup(o.top, k) else Lookup(d.config.top, k)
                 case OtherTop(_) => Lookup(d.config.top, k)
                 case _ => None)
            && (forall k :: Get(c.features, k) ==
                 match k
                 case StandaloneWebSearch => Some(Bool(true))
                 case RemoteCompactionV2 => Some(Bool(true))
                 case EnableRequestCompression => Some(Bool(false))
                 case ImageGeneration =>
                   if d.lease.Some? && Get(d.config.features, k) == Get(d.lease.value.applied.features, k) then Get(o.features, k) else Get(d.config.features, k)
                 case OtherFeature(_) => Get(d.config.features, k))
            && (forall k :: Get(c.agents, k) ==
                 if k.OtherAgent? then Get(d.config.agents, k) else Wanted(s.subagent, k, Get(o.agents, k)))
            && (forall id: ProviderId ::
                 match id
                 case OtherProvider(_) => Get(c.providers, id) == Get(d.config.providers, id)
                 case Vellum => Get(c.providers, id).Some? && ReachesProxy(Get(c.providers, id).value, false, s.proxyUrl, s.boundaryKey)
                 case VellumOfficial => Get(c.providers, id).Some? && ReachesProxy(Get(c.providers, id).value, true, s.proxyUrl, s.boundaryKey)
                 case _ => Get(c.providers, id) == None)
  {
    var o := Scrubbed(LeaseSource(d), s.catalogPath, s.proxyUrl);
    AppliedAtLast(d, s, me);
    AppliedTopMeans(d.config, o, PreviousApplied(d), s.catalogPath.value);
    AppliedFeaturesMean(d.config, o, PreviousApplied(d));
    AppliedAgentsMean(d.config, s.subagent, o);
    AppliedProvidersMean(d.config.providers, s);
    hide AppliedTop, AppliedFeatures, AppliedProviders, WithSubagent, RelinquishedTop, RelinquishedFeatures, Scrubbed, ReachesProxy, ApplyEffect;
  }

  /** The parts of what apply leaves as config. */
  lemma AppliedAtLast(d: Disk, s: Settings, me: Owner)
    requires s.catalogPath.Some?
    ensures var c := Final(d, ApplyEffect(d, s, me)).config;
            var o := Scrubbed(LeaseSource(d), s.catalogPath, s.proxyUrl);
            && c.top == AppliedTop(RelinquishedTop(d.config, o, PreviousApplied(d)), s.catalogPath.value)
            && c.features == AppliedFeatures(RelinquishedFeatures(d.config, o, PreviousApplied(d)))
            && c.agents == WithSubagent(d.config, s.subagent, o).agents
            && c.providers == AppliedProviders(d.config.providers, s)
  {
    hide LeaseAfterApply, Scrubbed, AppliedTop, AppliedFeatures, AppliedProviders, RelinquishedTop, RelinquishedFeatures;
  }

  lemma AppliedTopMeans(c: Config, o: Config, previous: Option<Config>, catalog: string)
    ensures forall k :: Lookup(AppliedTop(RelinquishedTop(c, o, previous), catalog), k) ==
              match k
              case ModelProvider => Some(Str("vellum"))
              case ModelCatalogJson => Some(Str(catalog))
              case OpenaiBaseUrl =>
                if previous.Some? && Lookup(c.top, k) == Lookup(previous.value.top, k) then Lookup(o.top, k) else Lookup(c.top, k)
              case OtherTop(_) => Lookup(c.top, k)
              case _ => None
  {
  }

  lemma AppliedFeaturesMean(c: Config, o: Config, previous: Option<Config>)
    ensures forall k :: Get(AppliedFeatures(RelinquishedFeatures(c, o, previous)), k) ==
              match k
              case StandaloneWebSearch => Some(Bool(true))
              case RemoteCompactionV2 => Some(Bool(true))
              case EnableRequestCompression => Some(Bool(false))
              case ImageGeneration =>
                if previous.Some? && Get(c.features, k) == Get(previous.value.features, k) then Get(o.features, k) else Get(c.features, k)
              case OtherFeature(_) => Get(c.features, k)
  {
  }

  lemma AppliedAgentsMean(c: Config, s: Subagent, o: Config)
    ensures forall k :: Get(WithSubagent(c, s, o).agents, k) ==
              if k.OtherAgent? then Get(c.agents, k) else Wanted(s, k, Get(o.agents, k))
  {
    SubagentSlots(c, s, o);
  }

  lemma AppliedProvidersMean(t: Table<ProviderId>, s: Settings)
    ensures forall id: ProviderId ::
              var p := AppliedProviders(t, s);
              match id
              case OtherProvider(_) => Get(p, id) == Get(t, id)
              case Vellum => Get(p, id).Some? && ReachesProxy(Get(p, id).value, false, s.proxyUrl, s.boundaryKey)
              case VellumOfficial => Get(p, id).Some? && ReachesProxy(Get(p, id).value, true, s.proxyUrl, s.boundaryKey)
              case _ => Get(p, id) == None
  {
    ProxyEntryMeans(Vellum, s.proxyUrl, s.boundaryKey);
    ProxyEntryMeans(VellumOfficial, s.proxyUrl, s.boundaryKey);
    hide ReachesProxy, ProxyProvider;
  }

  lemma TopSlots(c: Config, o: Config, previous: Option<Config>, s: Settings)
    requires s.catalogPath.Some?
    ensures var top := AppliedTop(RelinquishedTop(c, o, previous), s.catalogPath.value);
            && Lookup(top, ModelProvider) == Some(Str("vellum"))
            && Lookup(top, ModelCatalogJson) == Some(Str(s.catalogPath.value))
            && (forall i :: 0 <= i < |GLOBAL_COMPACTION_OVERRIDES| ==> GLOBAL_COMPACTION_OVERRIDES[i] !in top)
            && (forall k: TopKey :: k !in MANAGED_KEYS ==> Lookup(top, k) == Lookup(c.top, k))
  {
  }

  lemma AgentSlots(c: Config, s: Subagent, o: Config)
    ensures var t := WithSubagent(c, s, o).agents;
            && (forall k :: k in MANAGED_AGENT_KEYS ==> Get(t, k) == SubagentValue(s, o, k))
            && (forall k :: k !in MANAGED_AGENT_KEYS ==> Get(t, k) == Get(c.agents, k))
  {
  }

  lemma FeatureSlots(c: Config, o: Config, previous: Option<Config>)
    ensures var t := AppliedFeatures(RelinquishedFeatures(c, o, previous));
            && Get(t, StandaloneWebSearch) == Some(Bool(true))
            && Get(t, RemoteCompactionV2) == Some(Bool(true))
            && Get(t, EnableRequestCompression) == Some(Bool(false))
            && (forall k :: k !in MANAGED_FEATURE_KEYS ==> Get(t, k) == Get(c.features, k))
  {
  }

  lemma ProviderSlots(t: Table<ProviderId>, s: Settings)
    ensures var p := AppliedProviders(t, s);
            && (forall id :: IsReserved(id) ==> Get(p, id) == Some(ProxyProvider(id, s.proxyUrl, s.boundaryKey)))
            && (forall id :: id in BUILTIN_PROVIDERS ==> Get(p, id).None?)
            && (forall id :: !IsReserved(id) && id !in BUILTIN_PROVIDERS ==> Get(p, id) == Get(t, id))
  {
  }

  // ===== Baseline purity and constancy =====

  /** After every apply, from any disk, the lease baseline holds nothing Vellum wrote. */
  lemma ApplyPurifies(d: Disk, s: Settings, me: Owner)
    requires s.catalogPath.Some?
    ensures var d' := Final(d, ApplyEffect(d, s, me));
            && d'.lease.Some?
            && Pure(d'.lease.value.original, s.catalogPath, s.proxyUrl)
            && d'.config != d'.lease.value.original
  {
    ScrubbedIsPure(LeaseSource(d), s.catalogPath, s.proxyUrl);
    AppliedRoutesThroughProxy(d, s);
  }

  /**
    An apply that repairs a lease also refreshes its record, so restore right after it gives every managed slot
    the repaired baseline's value, and the reserved entries their aliases.
   */
  lemma RepairIsUndone(d: Disk, s: Settings, me: Owner)
    requires d.lease.Some? && s.catalogPath.Some? && !Pure(d.lease.value.original, s.catalogPath, s.proxyUrl)
    ensures var d' := Final(d, ApplyEffect(d, s, me));
            var o := Scrubbed(d.lease.value.original, s.catalogPath, s.proxyUrl);
            var r := Final(d', RestoreEffect(d')).config;
            && (forall k :: k in MANAGED_KEYS ==> Lookup(r.top, k) == Lookup(o.top, k))
            && (forall k :: k in MANAGED_FEATURE_KEYS ==> Get(r.features, k) == Get(o.features, k))
            && (forall k :: k in MANAGED_AGENT_KEYS ==> Get(r.agents, k) == Get(o.agents, k))
            && (forall id :: id in RESERVED_PROVIDERS ==> Get(r.providers, id) == Some(RecoveryAlias(id)))
            && (forall id :: id !in RESERVED_PROVIDERS ==> Get(r.providers, id) == Get(o.providers, id))
  {
    hide AppliedOver, Scrubbed, ApplyEffect, Pure, Restored, RecoveryAlias;
    RepairedLease(d, s, me);
    NoReservedLeft(d.lease.value.original, s.catalogPath, s.proxyUrl);
    GivenBackWhole(AppliedOver(d, s), Scrubbed(d.lease.value.original, s.catalogPath, s.proxyUrl));
  }

  lemma NoReservedLeft(c: Config, catalog: Option<string>, url: string)
    ensures forall id :: id in RESERVED_PROVIDERS ==> Get(Scrubbed(c, catalog, url).providers, id).None?
  {
    assert RESERVED_PROVIDERS[0] == Vellum && RESERVED_PROVIDERS[1] == VellumOfficial;
  }

  /** Restoring a config that is still the applied copy. */
  lemma GivenBackWhole(a: Config, o: Config)
    requires forall id :: id in RESERVED_PROVIDERS ==> Get(o.providers, id).None?
    ensures var r := Restored(a, o, a);
            && (forall k :: k in MANAGED_KEYS ==> Lookup(r.top, k) == Lookup(o.top, k))
            && (forall k :: k in MANAGED_FEATURE_KEYS ==> Get(r.features, k) == Get(o.features, k))
            && (forall k :: k in MANAGED_AGENT_KEYS ==> Get(r.agents, k) == Get(o.agents, k))
            && (forall id :: id in RESERVED_PROVIDERS ==> Get(r.providers, id) == Some(RecoveryAlias(id)))
            && (forall id :: id !in RESERVED_PROVIDERS ==> Get(r.providers, id) == Get(o.providers, id))
  {
    ThreeWayRestore(a, o, a);
    hide Restored, RecoveryAlias;
  }

  lemma RepairedLease(d: Disk, s: Settings, me: Owner)
    requires d.lease.Some? && s.catalogPath.Some? && !Pure(d.lease.value.original, s.catalogPath, s.proxyUrl)
    ensures var d' := Final(d, ApplyEffect(d, s, me));
            && d'.config == AppliedOver(d, s) && d'.lease.Some? && d'.lease.value.applied == AppliedOver(d, s)
            && d'.lease.value.original == Scrubbed(d.lease.value.original, s.catalogPath, s.proxyUrl)
  {
    ScrubbedIsPure(d.lease.value.original, s.catalogPath, s.proxyUrl);
    hide AppliedOver, Scrubbed, Pure;
  }

  /** A pure baseline is never replaced while a lease stays on disk: not by apply, hot update or reclaim, nor in any crash state. */
  lemma BaselineIsConstant(d: Disk, s: Settings, me: Owner, alive: bool, d': Disk)
    requires d.lease.Some? && Pure(d.lease.value.original, s.catalogPath, s.proxyUrl)
    requires || MayLeave(d, ApplyEffect(d, s, me), d')
             || MayLeave(d, HotUpdateEffect(d, s.subagent), d')
             || MayLeave(d, ReconcileEffect(d, alive, me), d')
             || MayLeave(d, RestoreEffect(d), d')
    ensures d'.lease.Some? ==> d'.lease.value.original == d.lease.value.original
  {
  }

  // ===== Sub-agent hot updates =====

  function HotUpdates(d: Disk, updates: seq<Subagent>): Disk
    decreases |updates|
  {
    if updates == [] then d else HotUpdates(Final(d, HotUpdateEffect(d, updates[0])), updates[1..])
  }

  predicate AgentsAgree(d: Disk) {
    && d.lease.Some?
    && Get(d.config.agents, DefaultSubagentModel) == Get(d.lease.value.applied.agents, DefaultSubagentModel)
    && Get(d.config.agents, DefaultSubagentEffort) == Get(d.lease.value.applied.agents, DefaultSubagentEffort)
  }

  /** After a fresh apply, any sequence of hot updates keeps config and applied copy in step, so restore returns the baseline's values. */
  lemma HotUpdatesAreUndone(d: Disk, s: Settings, me: Owner, updates: seq<Subagent>)
    requires d.lease.None? && s.catalogPath.Some?
    ensures var d' := HotUpdates(Final(d, ApplyEffect(d, s, me)), updates);
            && AgentsAgree(d')
            && d'.lease.value.original == Baseline(d.config, s.catalogPath, s.proxyUrl)
            && (forall k :: k in MANAGED_AGENT_KEYS ==>
                 Get(Restored(d'.config, d'.lease.value.original, d'.lease.value.applied).agents, k) == Get(d'.lease.value.original.agents, k))
  {
    var start := Final(d, ApplyEffect(d, s, me));
    HotUpdatesKeepStep(start, updates);
    AgreementIsUndone(HotUpdates(start, updates));
  }

  lemma {:induction false} HotUpdatesKeepStep(d: Disk, updates: seq<Subagent>)
    requires AgentsAgree(d)
    ensures var d' := HotUpdates(d, updates);
            AgentsAgree(d') && d'.lease.value.original == d.lease.value.original
    decreases |updates|
  {
    if updates != [] {
      var next := Final(d, HotUpdateEffect(d, updates[0]));
      SubagentSlots(d.config, updates[0], d.lease.value.original);
      SubagentSlots(d.lease.value.applied, updates[0], d.lease.value.original);
      HotUpdatesKeepStep(next, updates[1..]);
    }
  }

  lemma AgreementIsUndone(d: Disk)
    requires AgentsAgree(d)
    ensures forall k :: k in MANAGED_AGENT_KEYS ==>
              Get(Restored(d.config, d.lease.value.original, d.lease.value.applied).agents, k) == Get(d.lease.value.original.agents, k)
  {
  }

  /**
    A second apply over a pure lease does not refresh the recorded applied copy. Restore then gives a
    managed agent key its baseline value exactly when the newly written value is the recorded one or the baseline's own.
   */
  lemma ReapplyUndoesAgentKeyIff(d: Disk, s: Settings, me: Owner, k: AgentKey)
    requires d.lease.Some? && s.catalogPath.Some? && k in MANAGED_AGENT_KEYS
    requires Pure(d.lease.value.original, s.catalogPath, s.proxyUrl)
    ensures var l := d.lease.value;
            var d' := Final(d, ApplyEffect(d, s, me));
            var written := SubagentValue(s.subagent, l.original, k);
            Get(Final(d', RestoreEffect(d')).config.agents, k) == Get(l.original.agents, k)
            <==> written == Get(l.applied.agents, k) || written == Get(l.original.agents, k)
  {
    var l := d.lease.value;
    var d' := Final(d, ApplyEffect(d, s, me));
    PureIsFixed(l.original, s.catalogPath, s.proxyUrl);
    assert d' == d.(config := AppliedOver(d, s));
    assert Get(Scrubbed(l.original, s.catalogPath, s.proxyUrl).agents, k) == Get(l.original.agents, k);
    AppliedRoutesThroughProxy(d, s);
    hide AppliedOver, Scrubbed, Pure, ApplyEffect, ProxyProvider;
    ThreeWayRestore(d'.config, l.original, l.applied);
    hide Restored;
  }

  // ===== Crash safety =====

  /**
    A crash between apply's lease write and its config write, from a pure config: reconcile drops the
    lease and keeps the user's config, whoever looks and whether or not the writer is still alive.
   */
  lemma ApplyCrashIsReconciled(d: Disk, s: Settings, me: Owner, alive: bool, later: Owner)
    requires d.lease.None? && s.catalogPath.Some?
    requires Pure(d.config, s.catalogPath, s.proxyUrl)
    ensures var crashed := ApplyEffect(d, s, me).writes[0];
            var e := ReconcileEffect(crashed, alive, later);
            e.ok && Final(crashed, e) == Disk(d.config, None, false)
  {
  }

  /** The same crash followed by restore keeps the user's config exactly when no hand-back meets an empty table. */
  lemma ApplyCrashIsRestoredIff(d: Disk, s: Settings, me: Owner)
    requires d.lease.None? && s.catalogPath.Some?
    requires Pure(d.config, s.catalogPath, s.proxyUrl)
    ensures var crashed := ApplyEffect(d, s, me).writes[0];
            crashed.config == d.config && crashed.lease.Some?
    ensures var crashed := ApplyEffect(d, s, me).writes[0];
            Final(crashed, RestoreEffect(crashed)).config == d.config
            <==> d.config.features != Some(map[]) && (d.config.agents == Some(map[]) ==> WritesBothAgentKeys(s.subagent))
  {
    hide AppliedOver, Scrubbed, Baseline, ApplyEffect, Pure;
    var c := d.config;
    var a := AppliedOver(d, s);
    var r := Restored(c, c, a);
    PureCrash(d, s, me);
    SameEntries(MergedEntries(c.top, c.top, a.top, MANAGED_KEYS), c.top);
    SelfMerge(c.features, a.features, MANAGED_FEATURE_KEYS);
    SelfMerge(c.agents, a.agents, MANAGED_AGENT_KEYS);
    assert RESERVED_PROVIDERS[0] == Vellum && RESERVED_PROVIDERS[1] == VellumOfficial;
    assert r.providers == c.providers && r.top == c.top;
    hide MergedEntries, MergedTable;
    if c.features == Some(map[]) {
      assert MANAGED_FEATURE_KEYS[3] == ImageGeneration;
      assert Relinquishes(Entries(c.features), Entries(c.features), Entries(a.features), MANAGED_FEATURE_KEYS);
    }
    if c.agents == Some(map[]) {
      assert MANAGED_AGENT_KEYS[0] == DefaultSubagentModel && MANAGED_AGENT_KEYS[1] == DefaultSubagentEffort;
      assert Relinquishes(map[], map[], Entries(a.agents), MANAGED_AGENT_KEYS) <==> !WritesBothAgentKeys(s.subagent);
    }
  }

  /** What the disk looks like between the two writes of a first apply over a pure config. */
  lemma PureCrash(d: Disk, s: Settings, me: Owner)
    requires d.lease.None? && s.catalogPath.Some? && Pure(d.config, s.catalogPath, s.proxyUrl)
    ensures var crashed := ApplyEffect(d, s, me).writes[0];
            crashed == d.(lease := Some(V2(me, d.config, AppliedOver(d, s))))
    ensures Get(AppliedOver(d, s).features, ImageGeneration) == Get(d.config.features, ImageGeneration)
    ensures Get(d.config.providers, Vellum).None? && Get(d.config.providers, VellumOfficial).None?
    ensures Get(AppliedOver(d, s).providers, Vellum).Some? && Get(AppliedOver(d, s).providers, VellumOfficial).Some?
    ensures Get(AppliedOver(d, s).agents, DefaultSubagentModel) == SubagentValue(s.subagent, d.config, DefaultSubagentModel)
    ensures Get(AppliedOver(d, s).agents, DefaultSubagentEffort) == SubagentValue(s.subagent, d.config, DefaultSubagentEffort)
  {
    PureIsFixed(d.config, s.catalogPath, s.proxyUrl);
    SubagentSlots(d.config, s.subagent, Scrubbed(d.config, s.catalogPath, s.proxyUrl));
    assert RESERVED_PROVIDERS[0] == Vellum && RESERVED_PROVIDERS[1] == VellumOfficial;
  }

  predicate WritesBothAgentKeys(s: Subagent) {
    s.Custom? && NonEmpty(s.model).Some? && NonEmpty(s.effort).Some?
  }

  /** Merging a table with itself as baseline keeps every entry; only an empty table can vanish. */
  lemma SelfMerge<K(!new)>(c: Table<K>, a: Table<K>, managed: seq<K>)
    ensures MergedTable(c, c, a, managed) ==
            if c == Some(map[]) && Relinquishes(map[], map[], Entries(a), managed) then None else c
  {
    SameEntries(MergedEntries(Entries(c), Entries(c), Entries(a), managed), Entries(c));
  }

  /** The applied copy recorded by apply: both reserved entries carry the boundary header. Hot updates keep this. */
  predicate RecordedByApply(l: Lease) {
    forall i :: 0 <= i < |RESERVED_PROVIDERS| ==>
      var v := Get(l.applied.providers, RESERVED_PROVIDERS[i]);
      v.Some? && CarriesHeaders(v.value)
  }

  lemma ApplyRecords(d: Disk, s: Settings, me: Owner)
    requires s.catalogPath.Some? && (d.lease.None? || RecordedByApply(d.lease.value))
    ensures RecordedByApply(Final(d, ApplyEffect(d, s, me)).lease.value)
  {
  }

  /**
    A crash between restore's config write and its lease removal is harmless: restoring again from that
    state ends where an uninterrupted restore would have.
   */
  lemma RestoreCrashIsHarmless(d: Disk)
    requires d.lease.Some? && RecordedByApply(d.lease.value)
    ensures var crashed := RestoreEffect(d).writes[0];
            crashed.lease == d.lease && Final(crashed, RestoreEffect(crashed)) == Final(d, RestoreEffect(d))
  {
    RestoreIsIdempotent(d.config, d.lease.value);
  }

  lemma RestoreIsIdempotent(c: Config, l: Lease)
    requires RecordedByApply(l)
    ensures var r := Restored(c, l.original, l.applied);
            Restored(r, l.original, l.applied) == r
  {
    var o, a := l.original, l.applied;
    var r := Restored(c, o, a);
    SameEntries(MergedEntries(r.top, o.top, a.top, MANAGED_KEYS), r.top);
    MergeIsIdempotent(c.features, o.features, a.features, MANAGED_FEATURE_KEYS);
    MergeIsIdempotent(c.agents, o.agents, a.agents, MANAGED_AGENT_KEYS);
    ProvidersAreIdempotent(c, o, a);
  }

  lemma MergeIsIdempotent<K(!new)>(c: Table<K>, o: Table<K>, a: Table<K>, managed: seq<K>)
    ensures var r := MergedTable(c, o, a, managed);
            MergedTable(r, o, a, managed) == r
  {
    var r := MergedTable(c, o, a, managed);
    var m := MergedEntries(Entries(r), Entries(o), Entries(a), managed);
    forall k: K ensures Lookup(m, k) == Lookup(Entries(r), k) {
      TableSlot(c, o, a, managed, k);
      assert Lookup(m, k) == Merged(Entries(r), Entries(o), Entries(a), managed, k);
    }
    SameEntries(m, Entries(r));
    if r == Some(map[]) {
      forall i | 0 <= i < |managed| && Lookup(map[], managed[i]) == Lookup(Entries(a), managed[i]) && managed[i] !in Entries(o)
        ensures Lookup(Entries(c), managed[i]) == Lookup(Entries(a), managed[i])
      {
        TableSlot(c, o, a, managed, managed[i]);
      }
      assert Relinquishes(map[], Entries(o), Entries(a), managed) ==> Relinquishes(Entries(c), Entries(o), Entries(a), managed);
    }
  }

  lemma ProvidersAreIdempotent(c: Config, o: Config, a: Config)
    requires forall i :: 0 <= i < |RESERVED_PROVIDERS| ==>
               var v := Get(a.providers, RESERVED_PROVIDERS[i]); v.Some? && CarriesHeaders(v.value)
    ensures var r := Restored(c, o, a);
            RestoredProviders(r, o, a) == r.providers
  {
    var r := Restored(c, o, a);
    assert RESERVED_PROVIDERS[0] == Vellum && RESERVED_PROVIDERS[1] == VellumOfficial;
    AliasIsHeaderFree(Vellum, "", "");
    AliasIsHeaderFree(VellumOfficial, "", "");
    ThreeWayRestore(c, o, a);
    assert !Recoverable(r, o, a, Vellum);
    assert !Recoverable(r, o, a, VellumOfficial);
  }

  /**
    A crash inside a hot update leaves the live keys ahead of the recorded copy. A later restore then
    keeps Vellum's new value for a key exactly when that value differs from both the recorded and the baseline one.
   */
  lemma HotUpdateCrashLeaksIff(d: Disk, s: Subagent, k: AgentKey)
    requires d.lease.Some? && k in MANAGED_AGENT_KEYS
    ensures var l := d.lease.value;
            var crashed := HotUpdateEffect(d, s).writes[0];
            var written := SubagentValue(s, l.original, k);
            Get(Final(crashed, RestoreEffect(crashed)).config.agents, k) != Get(l.original.agents, k)
            <==> written != Get(l.applied.agents, k) && written != Get(l.original.agents, k)
  {
    var l := d.lease.value;
    SubagentSlots(d.config, s, l.original);
    assert MANAGED_AGENT_KEYS[0] == DefaultSubagentModel && MANAGED_AGENT_KEYS[1] == DefaultSubagentEffort;
    ThreeWayRestore(WithSubagent(d.config, s, l.original), l.original, l.applied);
  }

  /**
    Re-applying over a pure lease with another boundary key or listener: restore turns the live reserved
    entry into its alias exactly when that entry equals the recorded one; otherwise the header stays behind.
   */
  lemma ReapplyRecoversProviderIff(d: Disk, s: Settings, me: Owner, id: ProviderId)
    requires d.lease.Some? && s.catalogPath.Some? && id in RESERVED_PROVIDERS
    requires Pure(d.lease.value.original, s.catalogPath, s.proxyUrl)
    ensures var d' := Final(d, ApplyEffect(d, s, me));
            var left := Get(Final(d', RestoreEffect(d')).config.providers, id);
            var same := Get(d.lease.value.applied.providers, id) == Some(ProxyProvider(id, s.proxyUrl, s.boundaryKey));
            && (left == Some(RecoveryAlias(id)) <==> same)
            && (left.Some? && CarriesHeaders(left.value) <==> !same)
  {
    hide AppliedOver, Pure, ApplyEffect, Restored, ProxyProvider, RecoveryAlias, CarriesHeaders;
    var l := d.lease.value;
    ReservedWritten(d, s, me, id);
    AliasIsHeaderFree(id, s.proxyUrl, s.boundaryKey);
    ReservedRestored(AppliedOver(d, s), l.original, l.applied, id);
  }

  /** A reserved entry absent from the baseline becomes its alias while it is the recorded one, and stays as it is otherwise. */
  lemma ReservedRestored(c: Config, o: Config, a: Config, id: ProviderId)
    requires id in RESERVED_PROVIDERS && Get(o.providers, id).None?
    ensures Get(Restored(c, o, a).providers, id) ==
            if Get(c.providers, id) == Get(a.providers, id) then Some(RecoveryAlias(id)) else Get(c.providers, id)
  {
    ThreeWayRestore(c, o, a);
    hide Restored, RecoveryAlias;
  }

  lemma ReservedWritten(d: Disk, s: Settings, me: Owner, id: ProviderId)
    requires d.lease.Some? && s.catalogPath.Some? && id in RESERVED_PROVIDERS
    requires Pure(d.lease.value.original, s.catalogPath, s.proxyUrl)
    ensures Final(d, ApplyEffect(d, s, me)) == d.(config := AppliedOver(d, s))
    ensures Get(d.lease.value.original.providers, id).None?
    ensures Get(AppliedOver(d, s).providers, id) == Some(ProxyProvider(id, s.proxyUrl, s.boundaryKey))
  {
    ProviderSlots(d.config.providers, s);
    assert AppliedOver(d, s).providers == AppliedProviders(d.config.providers, s);
    hide AppliedOver, AppliedProviders, ProxyProvider;
    assert RESERVED_PROVIDERS[0] == Vellum && RESERVED_PROVIDERS[1] == VellumOfficial;
  }
}
