/**
  Codex's `config.toml` as a document: top-level keys, and the three tables Vellum edits
  (`[features]`, `[agents]`, `[model_providers]`). A table that is present but empty differs
  from an absent one, because the editing helpers drop a table when they empty it.
 */
module CodexConfig {
  import opened Common

  datatype Value =
    | Str(text: string)
    | Bool(flag: bool)
    | Opaque(id: int)
    | Tbl(entries: map<string, Value>)

  datatype TopKey =
    | ModelProvider
    | OpenaiBaseUrl
    | ModelCatalogJson
    | ModelContextWindow
    | AutoCompactLimit
    | AutoCompactLimitScope
    | OtherTop(name: string)

  datatype FeatureKey =
    | StandaloneWebSearch
    | RemoteCompactionV2
    | EnableRequestCompression
    | ImageGeneration
    | OtherFeature(name: string)

  datatype AgentKey =
    | DefaultSubagentModel
    | DefaultSubagentEffort
    | OtherAgent(name: string)

  datatype ProviderId =
    | Vellum
    | VellumOfficial
    | AmazonBedrock
    | Openai
    | Ollama
    | LmStudio
    | Oss
    | OllamaChat
    | OtherProvider(name: string)

  type Table<!K> = Option<map<K, Value>>

  datatype Config = Config(
    top: map<TopKey, Value>,
    features: Table<FeatureKey>,
    agents: Table<AgentKey>,
    providers: Table<ProviderId>)

  // The managed slots. `model_providers` is the seventh managed top-level key; it has its own field.
  const MANAGED_KEYS: seq<TopKey> :=
    [ModelProvider, OpenaiBaseUrl, ModelCatalogJson, ModelContextWindow, AutoCompactLimit, AutoCompactLimitScope]
  const MANAGED_FEATURE_KEYS: seq<FeatureKey> :=
    [StandaloneWebSearch, RemoteCompactionV2, EnableRequestCompression, ImageGeneration]
  const MANAGED_AGENT_KEYS: seq<AgentKey> := [DefaultSubagentModel, DefaultSubagentEffort]
  const GLOBAL_COMPACTION_OVERRIDES: seq<TopKey> := [ModelContextWindow, AutoCompactLimit, AutoCompactLimitScope]
  const RESERVED_PROVIDERS: seq<ProviderId> := [Vellum, VellumOfficial]
  const BUILTIN_PROVIDERS: seq<ProviderId> := [AmazonBedrock, Openai, Ollama, LmStudio, Oss, OllamaChat]

  const VELLUM_PROVIDER_NAME := "vellum"
  const VELLUM_OFFICIAL_PROVIDER_NAME := "vellum-official"
  const OPENAI_THREAD_RECOVERY_BASE_URL := "https://chatgpt.com/backend-api/codex"
  const BOUNDARY_KEY_HEADER := "x-vellum-boundary-key"
  const CATALOG_ID_PREFIX := "vlm-"

  function Entries<K>(t: Table<K>): map<K, Value> {
    if t.Some? then t.value else map[]
  }

  function Get<K>(t: Table<K>, k: K): Option<Value> {
    Lookup(Entries(t), k)
  }

  /** What `set_*` (a value) and `remove_*` (none) do to a table. */
  function Write<K>(t: Table<K>, k: K, v: Option<Value>): Table<K> {
    if v.Some? then Some(Entries(t)[k := v.value])
    else if t.None? then None
    else Prune(Some(t.value - {k}))
  }

  /** Drops a table that is present but empty. */
  function Prune<K>(t: Table<K>): Table<K> {
    if t == Some(map[]) then None else t
  }

  function WriteTop(top: map<TopKey, Value>, k: TopKey, v: Option<Value>): map<TopKey, Value> {
    if v.Some? then top[k := v.value] else top - {k}
  }

  /** Two tables hold the same entries under every key. */
  lemma SameEntries<K(!new)>(a: map<K, Value>, b: map<K, Value>)
    requires forall k: K :: Lookup(a, k) == Lookup(b, k)
    ensures a == b
  {
    forall k: K
      ensures k in a <==> k in b
      ensures k in a && k in b ==> a[k] == b[k]
    {
      assert Lookup(a, k) == Lookup(b, k);
    }
  }

  // ----- Three-way merge -----

  /** The value a managed slot ends with: the baseline's while the live value is still the applied one. */
  function Merged<K>(c: map<K, Value>, o: map<K, Value>, a: map<K, Value>, managed: seq<K>, k: K): Option<Value> {
    if k in managed && Lookup(c, k) == Lookup(a, k) then Lookup(o, k) else Lookup(c, k)
  }

  function MergedEntries<K(!new)>(c: map<K, Value>, o: map<K, Value>, a: map<K, Value>, managed: seq<K>): (m: map<K, Value>)
    ensures forall k: K :: Lookup(m, k) == Merged(c, o, a, managed, k)
  {
    map k | k in c.Keys + o.Keys && Merged(c, o, a, managed, k).Some? :: Merged(c, o, a, managed, k).value
  }

  /** Some managed key is handed back to a baseline that does not have it. */
  predicate Relinquishes<K>(c: map<K, Value>, o: map<K, Value>, a: map<K, Value>, managed: seq<K>) {
    exists i :: 0 <= i < |managed| && Lookup(c, managed[i]) == Lookup(a, managed[i]) && managed[i] !in o
  }

  /** The merge of a whole table, which disappears when a hand-back leaves it empty. */
  function MergedTable<K(!new)>(c: Table<K>, o: Table<K>, a: Table<K>, managed: seq<K>): Table<K> {
    var m := MergedEntries(Entries(c), Entries(o), Entries(a), managed);
    if m == map[] && (c.None? || Relinquishes(Entries(c), Entries(o), Entries(a), managed)) then None else Some(m)
  }

  // ----- Provider entries -----

  predicate IsReserved(id: ProviderId) {
    id in RESERVED_PROVIDERS
  }

  function TrimEndSlashes(url: string): (r: string)
    ensures r <= url
    ensures r == "" || r[|r| - 1] != '/'
    ensures forall i :: |r| <= i < |url| ==> url[i] == '/'
  {
    if url != "" && url[|url| - 1] == '/' then TrimEndSlashes(url[..|url| - 1]) else url
  }

  function DisplayName(id: ProviderId): string {
    if id == VellumOfficial then "OpenAI" else "Vellum"
  }

  function RecoveryName(id: ProviderId): string {
    if id == VellumOfficial then "OpenAI" else "Vellum thread recovery (OpenAI direct)"
  }

  function ProxyProvider(id: ProviderId, proxyUrl: string, boundaryKey: string): Value {
    Tbl(map[
          "name" := Str(DisplayName(id)),
          "base_url" := Str(TrimEndSlashes(proxyUrl)),
          "wire_api" := Str("responses"),
          "requires_openai_auth" := Bool(true),
          "supports_websockets" := Bool(true),
          "http_headers" := Tbl(map[BOUNDARY_KEY_HEADER := Str(boundaryKey)])])
  }

  /** The header-free entry that keeps Vellum-authored threads loadable after the proxy stops. */
  function RecoveryAlias(id: ProviderId): Value {
    Tbl(map[
          "name" := Str(RecoveryName(id)),
          "base_url" := Str(OPENAI_THREAD_RECOVERY_BASE_URL),
          "wire_api" := Str("responses"),
          "requires_openai_auth" := Bool(true),
          "supports_websockets" := Bool(true),
          "supports_standalone_web_search" := Bool(true)])
  }

  /** What Codex must find under a reserved name while the proxy runs. */
  predicate ReachesProxy(v: Value, official: bool, proxyUrl: string, boundaryKey: string) {
    && v.Tbl?
    && Lookup(v.entries, "name") == Some(Str(if official then "OpenAI" else "Vellum"))
    && Lookup(v.entries, "wire_api") == Some(Str("responses"))
    && Lookup(v.entries, "requires_openai_auth") == Some(Bool(true))
    && Lookup(v.entries, "supports_websockets") == Some(Bool(true))
    && Lookup(v.entries, "http_headers") == Some(Tbl(map["x-vellum-boundary-key" := Str(boundaryKey)]))
    && "base_url" in v.entries && v.entries["base_url"].Str?
    && var u := v.entries["base_url"].text;
    u <= proxyUrl && (u == "" || u[|u| - 1] != '/') && forall i :: |u| <= i < |proxyUrl| ==> proxyUrl[i] == '/'
  }

  /** And what it must find there after the proxy has stopped. */
  predicate ReachesOpenAI(v: Value, official: bool) {
    && v.Tbl?
    && Lookup(v.entries, "name") == Some(Str(if official then "OpenAI" else "Vellum thread recovery (OpenAI direct)"))
    && Lookup(v.entries, "base_url") == Some(Str("https://chatgpt.com/backend-api/codex"))
    && Lookup(v.entries, "wire_api") == Some(Str("responses"))
    && Lookup(v.entries, "requires_openai_auth") == Some(Bool(true))
    && Lookup(v.entries, "supports_websockets") == Some(Bool(true))
    && Lookup(v.entries, "supports_standalone_web_search") == Some(Bool(true))
    && "http_headers" !in v.entries
  }

  /** The names of an entry's fields differ. */
  lemma FieldNames()
    ensures "name" != "base_url" && "name" != "wire_api" && "base_url" != "wire_api"
    ensures "http_headers" != "name" && "http_headers" != "base_url" && "http_headers" != "wire_api"
    ensures "requires_openai_auth" != "http_headers" && "requires_openai_auth" != "name"
    ensures "requires_openai_auth" != "base_url" && "requires_openai_auth" != "wire_api"
    ensures "supports_websockets" != "http_headers" && "supports_websockets" != "requires_openai_auth" && "supports_websockets" != "name"
    ensures "supports_websockets" != "base_url" && "supports_websockets" != "wire_api"
    ensures "supports_standalone_web_search" != "name" && "supports_standalone_web_search" != "base_url"
    ensures "supports_standalone_web_search" != "wire_api" && "supports_standalone_web_search" != "requires_openai_auth"
    ensures "supports_standalone_web_search" != "supports_websockets" && "supports_standalone_web_search" != "http_headers"
  {
    assert |"name"| == 4 && |"base_url"| == 8 && |"wire_api"| == 8 && |"http_headers"| == 12;
    assert |"requires_openai_auth"| == 20 && |"supports_websockets"| == 19 && |"supports_standalone_web_search"| == 30;
    assert "base_url"[7] == 'l' && "wire_api"[7] == 'i';
  }

  /** The proxy entry carries the trimmed listener URL and exactly the boundary key header, and only the Official one is named "OpenAI". */
  lemma ProxyEntryMeans(id: ProviderId, proxyUrl: string, boundaryKey: string)
    ensures ReachesProxy(ProxyProvider(id, proxyUrl, boundaryKey), id == VellumOfficial, proxyUrl, boundaryKey)
  {
    FieldNames();
  }

  /** The alias points straight at OpenAI and carries no header. */
  lemma AliasMeans(id: ProviderId)
    ensures ReachesOpenAI(RecoveryAlias(id), id == VellumOfficial)
  {
    FieldNames();
  }

  predicate CarriesHeaders(v: Value) {
    v.Tbl? && "http_headers" in v.entries
  }

  lemma AliasIsHeaderFree(id: ProviderId, url: string, key: string)
    ensures !CarriesHeaders(RecoveryAlias(id))
    ensures CarriesHeaders(ProxyProvider(id, url, key))
  {
  }

  // ----- Scrubbing a baseline of Vellum's own residue -----

  predicate HasPrefix(s: string, p: string) {
    p <= s
  }

  predicate NamesReservedProvider(v: Option<Value>) {
    v == Some(Str(VELLUM_PROVIDER_NAME)) || v == Some(Str(VELLUM_OFFICIAL_PROVIDER_NAME))
  }

  predicate NamesCatalogModel(v: Option<Value>) {
    v.Some? && v.value.Str? && HasPrefix(v.value.text, CATALOG_ID_PREFIX)
  }

  /** Holds no provable trace of Vellum: the property every lease baseline must have. */
  predicate Pure(c: Config, catalog: Option<string>, proxyUrl: string) {
    && !NamesReservedProvider(Lookup(c.top, ModelProvider))
    && (forall i :: 0 <= i < |RESERVED_PROVIDERS| ==> RESERVED_PROVIDERS[i] !in Entries(c.providers))
    && (catalog.Some? ==> Lookup(c.top, ModelCatalogJson) != Some(Str(catalog.value)))
    && Lookup(c.top, OpenaiBaseUrl) != Some(Str(proxyUrl))
    && (forall i :: 0 <= i < |MANAGED_AGENT_KEYS| ==> !NamesCatalogModel(Get(c.agents, MANAGED_AGENT_KEYS[i])))
  }

  function ScrubKey(top: map<TopKey, Value>, k: TopKey, residue: bool): map<TopKey, Value> {
    if residue then top - {k} else top
  }

  function ScrubbedTop(top: map<TopKey, Value>, catalog: Option<string>, proxyUrl: string): map<TopKey, Value> {
    var t1 := ScrubKey(top, ModelProvider, NamesReservedProvider(Lookup(top, ModelProvider)));
    var t2 := ScrubKey(t1, ModelCatalogJson, catalog.Some? && Lookup(t1, ModelCatalogJson) == Some(Str(catalog.value)));
    ScrubKey(t2, OpenaiBaseUrl, Lookup(t2, OpenaiBaseUrl) == Some(Str(proxyUrl)))
  }

  function ScrubbedAgents(t: Table<AgentKey>, keys: seq<AgentKey>): Table<AgentKey> {
    if keys == [] then t
    else
      var rest := ScrubbedAgents(t, keys[..|keys| - 1]);
      var k := keys[|keys| - 1];
      if NamesCatalogModel(Get(rest, k)) then Write(rest, k, None) else rest
  }

  function WithoutReserved(t: Table<ProviderId>): Table<ProviderId> {
    if t.None? then None else Prune(Some(t.value - {Vellum, VellumOfficial}))
  }

  /** The document `scrub_vellum_from_baseline` leaves behind. */
  function Scrubbed(c: Config, catalog: Option<string>, proxyUrl: string): Config {
    Config(
      ScrubbedTop(c.top, catalog, proxyUrl),
      c.features,
      ScrubbedAgents(c.agents, MANAGED_AGENT_KEYS),
      WithoutReserved(c.providers))
  }

  /** The baseline text kept in a lease: rewritten only when the scrub found something. */
  function Baseline(c: Config, catalog: Option<string>, proxyUrl: string): Config {
    if Pure(c, catalog, proxyUrl) then c else Scrubbed(c, catalog, proxyUrl)
  }

  lemma ScrubbedIsPure(c: Config, catalog: Option<string>, proxyUrl: string)
    ensures Pure(Scrubbed(c, catalog, proxyUrl), catalog, proxyUrl)
    ensures Pure(Baseline(c, catalog, proxyUrl), catalog, proxyUrl)
  {
    AgentScrub(c.agents);
    var p := WithoutReserved(c.providers);
    assert Vellum !in Entries(p) && VellumOfficial !in Entries(p);
  }

  /** The scrub, slot by slot: exactly the values Vellum can prove it wrote are gone, and nothing else changes. */
  lemma ScrubMeans(c: Config, catalog: Option<string>, proxyUrl: string)
    ensures var s := Scrubbed(c, catalog, proxyUrl);
            && (forall k :: Lookup(s.top, k) ==
                 if || (k == ModelProvider && (Lookup(c.top, k) == Some(Str("vellum")) || Lookup(c.top, k) == Some(Str("vellum-official"))))
                    || (k == ModelCatalogJson && catalog.Some? && Lookup(c.top, k) == Some(Str(catalog.value)))
                    || (k == OpenaiBaseUrl && Lookup(c.top, k) == Some(Str(proxyUrl)))
                 then None else Lookup(c.top, k))
            && s.features == c.features
            && (forall k: AgentKey ::
                 var v := Get(c.agents, k);
                 Get(s.agents, k) == if !k.OtherAgent? && v.Some? && v.value.Str? && "vlm-" <= v.value.text then None else v)
            && (forall id :: Get(s.providers, id) == if id == Vellum || id == VellumOfficial then None else Get(c.providers, id))
  {
    AgentScrub(c.agents);
    assert MANAGED_AGENT_KEYS[0] == DefaultSubagentModel && MANAGED_AGENT_KEYS[1] == DefaultSubagentEffort;
  }

  /** A config is pure exactly when the scrub finds nothing of this in it. */
  lemma PureMeans(c: Config, catalog: Option<string>, proxyUrl: string)
    ensures Pure(c, catalog, proxyUrl) <==>
            && Lookup(c.top, ModelProvider) != Some(Str("vellum")) && Lookup(c.top, ModelProvider) != Some(Str("vellum-official"))
            && (catalog.Some? ==> Lookup(c.top, ModelCatalogJson) != Some(Str(catalog.value)))
            && Lookup(c.top, OpenaiBaseUrl) != Some(Str(proxyUrl))
            && Get(c.providers, Vellum).None? && Get(c.providers, VellumOfficial).None?
            && (forall k: AgentKey :: !k.OtherAgent? && Get(c.agents, k).Some? && Get(c.agents, k).value.Str? ==> !("vlm-" <= Get(c.agents, k).value.text))
  {
    assert RESERVED_PROVIDERS[0] == Vellum && RESERVED_PROVIDERS[1] == VellumOfficial;
    assert MANAGED_AGENT_KEYS[0] == DefaultSubagentModel && MANAGED_AGENT_KEYS[1] == DefaultSubagentEffort;
  }

  /** The scrub of `[agents]`, key by key. */
  lemma AgentScrub(t: Table<AgentKey>)
    ensures var r := ScrubbedAgents(t, MANAGED_AGENT_KEYS);
            && (forall k :: Get(r, k) ==
                 if k in MANAGED_AGENT_KEYS && NamesCatalogModel(Get(t, k)) then None else Get(t, k))
            && (t.None? ==> r.None?)
            && ((forall k :: k in MANAGED_AGENT_KEYS ==> !NamesCatalogModel(Get(t, k))) ==> r == t)
            && (Prune(t) == t ==> Prune(r) == r)
  {
    var one := ScrubbedAgents(t, [DefaultSubagentModel]);
    assert MANAGED_AGENT_KEYS[..1] == [DefaultSubagentModel];
    assert [DefaultSubagentModel][..0] == [];
    assert ScrubbedAgents(t, []) == t;
    assert ScrubbedAgents(t, MANAGED_AGENT_KEYS) ==
           if NamesCatalogModel(Get(one, DefaultSubagentEffort)) then Write(one, DefaultSubagentEffort, None) else one;
  }

  /** On a pure document the scrub changes nothing but a present-and-empty `[model_providers]`. */
  lemma PureIsFixed(c: Config, catalog: Option<string>, proxyUrl: string)
    requires Pure(c, catalog, proxyUrl)
    ensures Scrubbed(c, catalog, proxyUrl) == c.(providers := Prune(c.providers))
  {
    AgentScrub(c.agents);
    assert RESERVED_PROVIDERS[0] == Vellum && RESERVED_PROVIDERS[1] == VellumOfficial;
    assert MANAGED_AGENT_KEYS[0] == DefaultSubagentModel && MANAGED_AGENT_KEYS[1] == DefaultSubagentEffort;
    if c.providers.Some? {
      assert c.providers.value - {Vellum, VellumOfficial} == c.providers.value;
    }
  }
}
