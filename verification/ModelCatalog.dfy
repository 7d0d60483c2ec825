/**
  The model catalog written for Codex: Official entries first and untouched, then one generated entry per
  third-party model, then the context overrides, then the completion pass. Harness profiles, prompts and
  reasoning levels are inputs.
 */
module ModelCatalog {
  import opened Common

  datatype Field =
    | Slug | DisplayName | Description | Priority | BaseInstructions | ModelMessages | InputModalities
    | SupportedReasoningLevels | DefaultReasoningLevel
    | PreferWebsockets | AdditionalSpeedTiers | ServiceTiers | AvailabilityNux | Upgrade | Visibility | SupportedInApi
    | ContextWindow | MaxContextWindow | EffectiveContextWindowPercent | AutoCompactTokenLimit
    | CompHash | ToolMode | UseResponsesLite | TruncationPolicy
    | ShellType | SupportsParallelToolCalls | SupportsReasoningSummaries | ExperimentalSupportedTools | MultiAgentVersion
    | OtherField(name: string)

  datatype Json =
    | Null
    | Bool(flag: bool)
    | Num(value: int)
    | Str(text: string)
    | Arr(items: seq<Json>)
    | Obj(fields: map<Field, Json>)

  type Object = map<Field, Json>

  const U64_MAX: nat := 0xFFFF_FFFF_FFFF_FFFF
  const DEFAULT_CONTEXT_WINDOW: nat := 121_600

  datatype Policy = Policy(thresholdPercent: nat, outputReserve: nat, toolReserve: nat)

  datatype Route = Route(catalogId: string, displayName: string, contextWindow: Option<nat>, chatWire: bool, vision: bool, levels: Json, defaultLevel: Json)

  /** What a resolved harness profile contributes to an entry. `instructions` ends in the fixed sub-agent contract. */
  datatype Profile = Profile(instructions: string, parallelToolCalls: bool, responsesLite: bool)

  function SlugOf(entry: Json): Option<string> {
    if entry.Obj? && Slug in entry.fields && entry.fields[Slug].Str? then Some(entry.fields[Slug].text) else None
  }

  // ----- Compaction projection -----

  function SatMul(a: nat, b: nat): nat {
    if a * b > U64_MAX then U64_MAX else a * b
  }

  function SatAdd(a: nat, b: nat): nat {
    if a + b > U64_MAX then U64_MAX else a + b
  }

  function SatSub(a: nat, b: nat): nat {
    if a >= b then a - b else 0
  }

  /** A quantity as an unsigned 64-bit counter holds it. */
  function Capped(n: nat): nat {
    if n <= 18_446_744_073_709_551_615 then n else 18_446_744_073_709_551_615
  }

  /** Where compaction starts: the given percentage of the window, less both reserves, and at least one token. */
  function CompactAt(window: nat, percent: nat, outputReserve: nat, toolReserve: nat): (limit: nat)
    ensures limit >= 1
  {
    var share, reserve := Capped(window * percent) / 100, Capped(outputReserve + toolReserve);
    if share > reserve then share - reserve else 1
  }

  /** The threshold share of the window less the reserves, never below one token. */
  function TokenLimit(p: Policy, context: nat): (limit: Option<nat>)
    ensures limit == Some(CompactAt(context, p.thresholdPercent, p.outputReserve, p.toolReserve))
  {
    var room := SatSub(SatMul(context, p.thresholdPercent) / 100, SatAdd(p.outputReserve, p.toolReserve));
    Some(if room >= 1 then room else 1)
  }

  datatype Projection = NotOptedIn | OptedIn(policy: Option<Policy>)

  type Policies = Option<map<string, Policy>>

  function ProjectionFor(policies: Policies, slug: string): Projection {
    if policies.None? then NotOptedIn
    else OptedIn(if slug in policies.value then Some(policies.value[slug]) else None)
  }

  /** Whether to publish the window, and the compaction limit to publish with it. */
  function Resolve(p: Projection, context: nat): (bool, Option<nat>) {
    match p
    case NotOptedIn => (true, None)
    case OptedIn(policy) =>
      var limit := if policy.Some? then TokenLimit(policy.value, context) else None;
      (limit.Some?, limit)
  }

  function WithContext(o: Object, context: nat, p: Projection): Object {
    var (publish, limit) := Resolve(p, context);
    var windowed :=
      if publish
      then o[ContextWindow := Num(context)][MaxContextWindow := Num(context)][EffectiveContextWindowPercent := Num(95)]
      else o - {ContextWindow, MaxContextWindow, EffectiveContextWindowPercent};
    if limit.Some? then windowed[AutoCompactTokenLimit := Num(limit.value)] else windowed - {AutoCompactTokenLimit}
  }

  method ApplyContextAndCompactLimit(entry: Object, context: nat, p: Projection) returns (edited: Object)
    ensures edited == WithContext(entry, context, p)
  {
    edited := entry;
    var (publish, limit) := Resolve(p, context);
    if publish {
      edited := edited[ContextWindow := Num(context)];
      edited := edited[MaxContextWindow := Num(context)];
      edited := edited[EffectiveContextWindowPercent := Num(95)];
    } else {
      edited := edited - {ContextWindow};
      edited := edited - {MaxContextWindow};
      edited := edited - {EffectiveContextWindowPercent};
    }
    match limit {
      case Some(n) => edited := edited[AutoCompactTokenLimit := Num(n)];
      case None => edited := edited - {AutoCompactTokenLimit};
    }
  }

  /** The window fields and the limit all speak of one context, and the limit is there exactly when compaction wants it. */
  predicate Consistent(entry: Json, p: Projection, context: nat) {
    && entry.Obj?
    && var o := entry.fields;
    && (Lookup(o, MaxContextWindow) == Lookup(o, ContextWindow))
    && (ContextWindow in o ==> o[ContextWindow] == Num(context) && Lookup(o, EffectiveContextWindowPercent) == Some(Num(95)))
    && (ContextWindow !in o ==> EffectiveContextWindowPercent !in o)
    && match p
       case NotOptedIn => ContextWindow in o && AutoCompactTokenLimit !in o
       case OptedIn(policy) =>
         && (ContextWindow in o <==> AutoCompactTokenLimit in o)
         && (ContextWindow in o <==> policy.Some?)
         && (policy.Some? ==> Lookup(o, AutoCompactTokenLimit) == Some(Num(TokenLimit(policy.value, context).value)))
  }

  lemma WithContextIsConsistent(o: Object, context: nat, p: Projection)
    ensures Consistent(Obj(WithContext(o, context, p)), p, context)
    ensures SlugOf(Obj(WithContext(o, context, p))) == SlugOf(Obj(o))
  {
  }

  // ----- A generated entry -----

  function ContextOf(r: Route): nat {
    if r.contextWindow.Some? && r.contextWindow.value > 0 then r.contextWindow.value else DEFAULT_CONTEXT_WINDOW
  }

  /**
    What an entry must publish for a route: its own window if it has a positive one, else 121600 tokens, three
    times over, and the compaction point; the window alone without compaction, nothing for a route that
    compaction leaves out.
   */
  predicate Publishes(entry: Json, policies: Policies, r: Route) {
    var window := match r.contextWindow case Some(n) => (if n > 0 then n else 121_600) case None => 121_600;
    && entry.Obj?
    && var o := entry.fields;
    match policies
    case None =>
      && Lookup(o, ContextWindow) == Some(Num(window)) && Lookup(o, MaxContextWindow) == Some(Num(window))
      && Lookup(o, EffectiveContextWindowPercent) == Some(Num(95)) && AutoCompactTokenLimit !in o
    case Some(ps) =>
      if r.catalogId in ps then
        var p := ps[r.catalogId];
        && Lookup(o, ContextWindow) == Some(Num(window)) && Lookup(o, MaxContextWindow) == Some(Num(window))
        && Lookup(o, EffectiveContextWindowPercent) == Some(Num(95))
        && Lookup(o, AutoCompactTokenLimit) == Some(Num(CompactAt(window, p.thresholdPercent, p.outputReserve, p.toolReserve)))
      else
        ContextWindow !in o && MaxContextWindow !in o && EffectiveContextWindowPercent !in o && AutoCompactTokenLimit !in o
  }

  /** An entry consistent with its route's context publishes just that. */
  lemma ConsistentMeans(entry: Json, policies: Policies, r: Route)
    requires Consistent(entry, ProjectionFor(policies, r.catalogId), ContextOf(r))
    ensures Publishes(entry, policies, r)
  {
    hide CompactAt;
  }

  function Structure(r: Route, priority: nat, profile: Profile): Object {
    map[Slug := Str(r.catalogId), DisplayName := Str(r.displayName), Description := Str(r.displayName), Priority := Num(priority),
        BaseInstructions := Str(profile.instructions), ModelMessages := Str(profile.instructions),
        InputModalities := Arr(if r.vision then [Str("text"), Str("image")] else [Str("text")]),
        SupportedReasoningLevels := r.levels, DefaultReasoningLevel := r.defaultLevel,
        PreferWebsockets := Bool(false), AdditionalSpeedTiers := Arr([]), ServiceTiers := Arr([]), AvailabilityNux := Null,
        Upgrade := Null, Visibility := Str("list"), SupportedInApi := Bool(true)]
  }

  function SchemaDefaults(o: Object, profile: Profile): Object {
    o[ShellType := Str("shell_command")][SupportsReasoningSummaries := Bool(false)]
     [SupportsParallelToolCalls := Bool(profile.parallelToolCalls)][UseResponsesLite := Bool(profile.responsesLite)]
     [ExperimentalSupportedTools := Arr([])][TruncationPolicy := Str("tokens")][MultiAgentVersion := Str("v2")]
    - {CompHash, ToolMode}
  }

  function ChatProfile(o: Object): Object {
    (o - {ToolMode})[UseResponsesLite := Bool(false)]
  }

  function ThirdPartyEntry(r: Route, priority: nat, profile: Profile, p: Projection): Json {
    var o := SchemaDefaults(WithContext(Structure(r, priority, profile), ContextOf(r), p), profile);
    Obj(if r.chatWire then ChatProfile(o) else o)
  }

  /** Fields that only Official entries may carry, and those of them a third-party entry sets for itself. */
  const OFFICIAL_ONLY: seq<Field> :=
    [CompHash, AutoCompactTokenLimit, TruncationPolicy, SupportsReasoningSummaries, SupportsParallelToolCalls, ServiceTiers,
     AdditionalSpeedTiers, ExperimentalSupportedTools, ToolMode, UseResponsesLite, AvailabilityNux, Upgrade, SupportedInApi,
     Visibility, PreferWebsockets, Priority, Slug, DisplayName, Description, ContextWindow, MaxContextWindow,
     EffectiveContextWindowPercent, SupportedReasoningLevels, DefaultReasoningLevel]

  predicate SetsItself(f: Field) {
    f.Slug? || f.DisplayName? || f.Description? || f.ContextWindow? || f.MaxContextWindow? || f.EffectiveContextWindowPercent?
    || f.Priority? || f.SupportedReasoningLevels? || f.DefaultReasoningLevel? || f.PreferWebsockets? || f.ServiceTiers?
    || f.AdditionalSpeedTiers? || f.AvailabilityNux? || f.Upgrade? || f.Visibility? || f.SupportedInApi?
  }

  /** The entry built in place: structure, stripping, forced defaults, context, schema, and the chat profile. */
  method BuildThirdPartyEntry(r: Route, priority: nat, profile: Profile, p: Projection) returns (entry: Json)
    ensures entry == ThirdPartyEntry(r, priority, profile, p)
  {
    var fields := Structure(r, priority, profile);
    fields := fields[InputModalities := Arr(if r.vision then [Str("text"), Str("image")] else [Str("text")])];
    for i := 0 to |OFFICIAL_ONLY|
      invariant fields == Structure(r, priority, profile)
    {
      if !SetsItself(OFFICIAL_ONLY[i]) {
        assert OFFICIAL_ONLY[i] !in fields;
        fields := fields - {OFFICIAL_ONLY[i]};
      }
    }
    fields := fields[PreferWebsockets := Bool(false)];
    fields := fields[AdditionalSpeedTiers := Arr([])];
    fields := fields[ServiceTiers := Arr([])];
    fields := fields[AvailabilityNux := Null];
    fields := fields[Upgrade := Null];
    fields := fields[Visibility := Str("list")];
    fields := fields[SupportedInApi := Bool(true)];
    assert fields == Structure(r, priority, profile);
    fields := ApplyContextAndCompactLimit(fields, ContextOf(r), p);
    fields := SchemaDefaults(fields, profile);
    if r.chatWire {
      fields := fields - {ToolMode};
      fields := fields[UseResponsesLite := Bool(false)];
    }
    entry := Obj(fields);
  }

  /** What a generated entry says about its model, field by field. */
  lemma EntryMeans(r: Route, priority: nat, profile: Profile, p: Projection)
    ensures var o := ThirdPartyEntry(r, priority, profile, p).fields;
            && Lookup(o, Slug) == Some(Str(r.catalogId)) && Lookup(o, Priority) == Some(Num(priority))
            && Lookup(o, DisplayName) == Some(Str(r.displayName)) && Lookup(o, Description) == Some(Str(r.displayName))
            && Lookup(o, BaseInstructions) == Some(Str(profile.instructions)) && Lookup(o, ModelMessages) == Some(Str(profile.instructions))
            && Lookup(o, InputModalities) == Some(Arr(if r.vision then [Str("text"), Str("image")] else [Str("text")]))
            && Lookup(o, SupportedReasoningLevels) == Some(r.levels) && Lookup(o, DefaultReasoningLevel) == Some(r.defaultLevel)
            && Lookup(o, Visibility) == Some(Str("list")) && Lookup(o, SupportedInApi) == Some(Bool(true))
  {
    var base := Structure(r, priority, profile);
    assert Lookup(base, Slug) == Some(Str(r.catalogId)) && Lookup(base, Priority) == Some(Num(priority));
    assert Lookup(base, DisplayName) == Some(Str(r.displayName)) && Lookup(base, Description) == Some(Str(r.displayName));
    assert Lookup(base, BaseInstructions) == Some(Str(profile.instructions)) && Lookup(base, ModelMessages) == Some(Str(profile.instructions));
    assert Lookup(base, InputModalities) == Some(Arr(if r.vision then [Str("text"), Str("image")] else [Str("text")]));
    assert Lookup(base, SupportedReasoningLevels) == Some(r.levels) && Lookup(base, DefaultReasoningLevel) == Some(r.defaultLevel);
    assert Lookup(base, Visibility) == Some(Str("list")) && Lookup(base, SupportedInApi) == Some(Bool(true));
    hide Structure;
    forall f | f in {Slug, Priority, DisplayName, Description, BaseInstructions, ModelMessages, InputModalities,
                     SupportedReasoningLevels, DefaultReasoningLevel, Visibility, SupportedInApi}
      ensures Lookup(ThirdPartyEntry(r, priority, profile, p).fields, f) == Lookup(base, f)
    {
      ContextKeeps(base, ContextOf(r), p, f);
      hide WithContext;
      SchemaKeeps(WithContext(base, ContextOf(r), p), profile, f);
    }
  }

  lemma SchemaKeeps(o: Object, profile: Profile, f: Field)
    requires f !in {ShellType, SupportsReasoningSummaries, SupportsParallelToolCalls, UseResponsesLite, ExperimentalSupportedTools,
                    TruncationPolicy, MultiAgentVersion, CompHash, ToolMode}
    ensures Lookup(SchemaDefaults(o, profile), f) == Lookup(o, f)
    ensures Lookup(ChatProfile(SchemaDefaults(o, profile)), f) == Lookup(o, f)
  {
  }

  /** Nothing private to Official models rides along, and a chat route never opts into Responses-Lite. */
  lemma NoOfficialResidue(r: Route, priority: nat, profile: Profile, p: Projection)
    ensures var o := ThirdPartyEntry(r, priority, profile, p).fields;
            && CompHash !in o && ToolMode !in o
            && Lookup(o, SupportsReasoningSummaries) == Some(Bool(false))
            && Lookup(o, SupportsParallelToolCalls) == Some(Bool(profile.parallelToolCalls))
            && Lookup(o, UseResponsesLite) == Some(Bool(!r.chatWire && profile.responsesLite))
            && Lookup(o, ServiceTiers) == Some(Arr([])) && Lookup(o, PreferWebsockets) == Some(Bool(false))
            && Lookup(o, ShellType) == Some(Str("shell_command")) && Lookup(o, ExperimentalSupportedTools) == Some(Arr([]))
            && Lookup(o, TruncationPolicy) == Some(Str("tokens")) && Lookup(o, MultiAgentVersion) == Some(Str("v2"))
  {
    var base := Structure(r, priority, profile);
    assert Lookup(base, ServiceTiers) == Some(Arr([])) && Lookup(base, PreferWebsockets) == Some(Bool(false));
    hide Structure;
    ContextKeeps(base, ContextOf(r), p, ServiceTiers);
    ContextKeeps(base, ContextOf(r), p, PreferWebsockets);
    hide WithContext;
    SchemaFlags(WithContext(base, ContextOf(r), p), profile);
  }

  lemma ContextKeeps(o: Object, context: nat, p: Projection, f: Field)
    requires f != ContextWindow && f != MaxContextWindow && f != EffectiveContextWindowPercent && f != AutoCompactTokenLimit
    ensures Lookup(WithContext(o, context, p), f) == Lookup(o, f)
  {
  }

  lemma SchemaFlags(o: Object, profile: Profile)
    ensures var s := SchemaDefaults(o, profile);
            && CompHash !in s && ToolMode !in s
            && Lookup(s, SupportsReasoningSummaries) == Some(Bool(false))
            && Lookup(s, SupportsParallelToolCalls) == Some(Bool(profile.parallelToolCalls))
            && Lookup(s, UseResponsesLite) == Some(Bool(profile.responsesLite))
            && Lookup(s, ServiceTiers) == Lookup(o, ServiceTiers) && Lookup(s, PreferWebsockets) == Lookup(o, PreferWebsockets)
            && Lookup(s, ShellType) == Some(Str("shell_command")) && Lookup(s, ExperimentalSupportedTools) == Some(Arr([]))
            && Lookup(s, TruncationPolicy) == Some(Str("tokens")) && Lookup(s, MultiAgentVersion) == Some(Str("v2"))
  {
  }

  lemma EntryIsConsistent(r: Route, priority: nat, profile: Profile, p: Projection)
    ensures Consistent(ThirdPartyEntry(r, priority, profile, p), p, ContextOf(r))
    ensures SlugOf(ThirdPartyEntry(r, priority, profile, p)) == Some(r.catalogId)
  {
    var o := WithContext(Structure(r, priority, profile), ContextOf(r), p);
    WithContextIsConsistent(Structure(r, priority, profile), ContextOf(r), p);
    SchemaKeepsWindow(o, profile, p, ContextOf(r));
  }

  lemma SchemaKeepsWindow(o: Object, profile: Profile, p: Projection, context: nat)
    requires Consistent(Obj(o), p, context)
    ensures Consistent(Obj(SchemaDefaults(o, profile)), p, context)
    ensures Consistent(Obj(ChatProfile(SchemaDefaults(o, profile))), p, context)
    ensures SlugOf(Obj(SchemaDefaults(o, profile))) == SlugOf(Obj(o))
    ensures SlugOf(Obj(ChatProfile(SchemaDefaults(o, profile)))) == SlugOf(Obj(o))
  {
  }

  // ----- Generation -----

  function HasSlug(models: seq<Json>, slug: string): bool {
    exists i :: 0 <= i < |models| && SlugOf(models[i]) == Some(slug)
  }

  datatype Inputs = Inputs(official: seq<Json>, policies: Policies, profiles: Route -> Profile)

  /** One entry per route whose id Codex's own catalog does not define. */
  function Generated(inp: Inputs, routes: seq<Route>): seq<Json>
    decreases |routes|
  {
    if routes == [] then []
    else
      var front, r := Generated(inp, routes[..|routes| - 1]), routes[|routes| - 1];
      if HasSlug(inp.official, r.catalogId) then front
      else front + [ThirdPartyEntry(r, 1000 + |front|, inp.profiles(r), ProjectionFor(inp.policies, r.catalogId))]
  }

  // ----- Overrides -----

  /** The first entry with this slug, or the length. */
  function FirstWith(models: seq<Json>, slug: string): (k: nat)
    ensures k <= |models|
    ensures k < |models| ==> SlugOf(models[k]) == Some(slug)
    ensures forall i :: 0 <= i < k ==> SlugOf(models[i]) != Some(slug)
  {
    if models == [] || SlugOf(models[0]) == Some(slug) then 0 else 1 + FirstWith(models[1..], slug)
  }

  function Override(inp: Inputs, models: seq<Json>, r: Route, priority: nat): seq<Json> {
    var p := ProjectionFor(inp.policies, r.catalogId);
    if HasSlug(inp.official, r.catalogId) then models
    else
      var k := FirstWith(models, r.catalogId);
      if k < |models| then models[k := Obj(WithContext(models[k].fields, ContextOf(r), p))]
      else models + [ThirdPartyEntry(r, 2000 + priority, inp.profiles(r), p)]
  }

  function Overridden(inp: Inputs, models: seq<Json>, routes: seq<Route>): seq<Json>
    decreases |routes|
  {
    if routes == [] then models
    else Override(inp, Overridden(inp, models, routes[..|routes| - 1]), routes[|routes| - 1], |routes| - 1)
  }

  // ----- Completion -----

  const CODEX_REQUIRED_INSTRUCTIONS: string :=
    "Official native catalog entry. Instructions are owned by the Codex Official catalog."

  predicate HasInstructions(o: Object) {
    BaseInstructions in o && o[BaseInstructions].Str? && !IsBlank(o[BaseInstructions].text)
  }

  function DefaultTo(o: Object, f: Field, v: Json): Object {
    if f in o then o else o[f := v]
  }

  function CompletedObject(o: Object): Object {
    var filled := if HasInstructions(o) then o else o[BaseInstructions := Str(CODEX_REQUIRED_INSTRUCTIONS)];
    DefaultTo(DefaultTo(filled, ShellType, Str("shell_command")), SupportsParallelToolCalls, Bool(false))
  }

  /** An entry the completion pass accepts: an object with a non-blank slug. */
  predicate Acceptable(entry: Json) {
    SlugOf(entry).Some? && !IsBlank(SlugOf(entry).value)
  }

  predicate AllAcceptable(models: seq<Json>) {
    forall i :: 0 <= i < |models| ==> Acceptable(models[i])
  }

  function Completed(models: seq<Json>): seq<Json>
    requires AllAcceptable(models)
  {
    seq(|models|, i requires 0 <= i < |models| => Obj(CompletedObject(models[i].fields)))
  }

  lemma RequiredInstructionsAreText()
    ensures !IsBlank(CODEX_REQUIRED_INSTRUCTIONS)
  {
    assert CODEX_REQUIRED_INSTRUCTIONS[83] == '.';
  }

  /** Completion adds only what is missing, keeps every other field, and leaves the window and limit alone. */
  lemma CompletionAddsOnlyDefaults(o: Object)
    ensures var c := CompletedObject(o);
            && BaseInstructions in c && c[BaseInstructions].Str? && !IsBlank(c[BaseInstructions].text)
            && ShellType in c && SupportsParallelToolCalls in c
            && (forall f :: f in o && f != BaseInstructions ==> Lookup(c, f) == Lookup(o, f))
            && (BaseInstructions in o && o[BaseInstructions].Str? && !IsBlank(o[BaseInstructions].text) ==> c[BaseInstructions] == o[BaseInstructions])
            && (forall f :: f !in o && f != BaseInstructions && f != ShellType && f != SupportsParallelToolCalls ==> f !in c)
            && SlugOf(Obj(c)) == SlugOf(Obj(o))
            && (!(BaseInstructions in o && o[BaseInstructions].Str? && !IsBlank(o[BaseInstructions].text)) ==>
                 Lookup(c, BaseInstructions) == Some(Str("Official native catalog entry. Instructions are owned by the Codex Official catalog.")))
            && (ShellType !in o ==> Lookup(c, ShellType) == Some(Str("shell_command")))
            && (SupportsParallelToolCalls !in o ==> Lookup(c, SupportsParallelToolCalls) == Some(Bool(false)))
            && CompletedObject(c) == c
  {
    RequiredInstructionsAreText();
  }

  /** A second completion pass changes nothing. */
  lemma CompletionIsIdempotent(models: seq<Json>)
    requires AllAcceptable(models)
    ensures AllAcceptable(Completed(models)) && Completed(Completed(models)) == Completed(models)
  {
    var once := Completed(models);
    forall i | 0 <= i < |models| ensures Acceptable(once[i]) && CompletedObject(once[i].fields) == once[i].fields {
      assert Acceptable(models[i]);
      CompletionAddsOnlyDefaults(models[i].fields);
    }
  }

  lemma CompletionKeepsConsistency(entry: Json, p: Projection, context: nat)
    requires Consistent(entry, p, context)
    ensures Consistent(Obj(CompletedObject(entry.fields)), p, context)
  {
  }

  // ===== The written catalog =====

  function Written(inp: Inputs, routes: seq<Route>, overrides: seq<Route>): seq<Json> {
    Overridden(inp, inp.official + Generated(inp, routes), overrides)
  }

  /** The entry publishes the window of one of the given routes to its slug, which Official does not define, and the compaction point to it. */
  ghost predicate ThirdPartyOk(inp: Inputs, from: set<Route>, entry: Json) {
    && SlugOf(entry).Some?
    && !HasSlug(inp.official, SlugOf(entry).value)
    && exists r :: r in from && SpeaksOfRoute(inp, entry, r)
  }

  predicate SpeaksOfRoute(inp: Inputs, entry: Json, r: Route) {
    SlugOf(entry) == Some(r.catalogId) && Consistent(entry, ProjectionFor(inp.policies, r.catalogId), ContextOf(r))
  }

  ghost predicate CatalogOk(inp: Inputs, from: set<Route>, models: seq<Json>) {
    && |inp.official| <= |models|
    && models[..|inp.official|] == inp.official
    && forall i :: |inp.official| <= i < |models| ==> ThirdPartyOk(inp, from, models[i])
  }

  lemma {:induction false} GeneratedIsOk(inp: Inputs, from: set<Route>, routes: seq<Route>)
    requires forall r :: r in routes ==> r in from
    ensures forall i :: 0 <= i < |Generated(inp, routes)| ==> ThirdPartyOk(inp, from, Generated(inp, routes)[i])
    decreases |routes|
  {
    hide ThirdPartyOk;
    if routes != [] {
      var front, r := routes[..|routes| - 1], routes[|routes| - 1];
      GeneratedIsOk(inp, from, front);
      if !HasSlug(inp.official, r.catalogId) {
        EntryOk(inp, from, r, 1000 + |Generated(inp, front)|);
      }
    }
  }

  lemma EntryOk(inp: Inputs, from: set<Route>, r: Route, priority: nat)
    requires r in from && !HasSlug(inp.official, r.catalogId)
    ensures ThirdPartyOk(inp, from, ThirdPartyEntry(r, priority, inp.profiles(r), ProjectionFor(inp.policies, r.catalogId)))
  {
    hide ThirdPartyEntry;
    var entry := ThirdPartyEntry(r, priority, inp.profiles(r), ProjectionFor(inp.policies, r.catalogId));
    EntryIsConsistent(r, priority, inp.profiles(r), ProjectionFor(inp.policies, r.catalogId));
    assert SpeaksOfRoute(inp, entry, r);
  }

  lemma OverrideIsOk(inp: Inputs, from: set<Route>, models: seq<Json>, r: Route, priority: nat)
    requires r in from && CatalogOk(inp, from, models)
    ensures CatalogOk(inp, from, Override(inp, models, r, priority))
  {
    hide ThirdPartyEntry, WithContext;
    if !HasSlug(inp.official, r.catalogId) {
      var k := FirstWith(models, r.catalogId);
      if k < |models| {
        forall i | 0 <= i < |inp.official| ensures SlugOf(models[i]) != Some(r.catalogId) {
          assert models[i] == models[..|inp.official|][i];
        }
        var p := ProjectionFor(inp.policies, r.catalogId);
        WithContextIsConsistent(models[k].fields, ContextOf(r), p);
        assert SpeaksOfRoute(inp, Obj(WithContext(models[k].fields, ContextOf(r), p)), r);
      } else {
        EntryOk(inp, from, r, 2000 + priority);
      }
    }
  }

  lemma {:induction false} OverriddenIsOk(inp: Inputs, from: set<Route>, models: seq<Json>, routes: seq<Route>)
    requires CatalogOk(inp, from, models) && forall r :: r in routes ==> r in from
    ensures CatalogOk(inp, from, Overridden(inp, models, routes))
    decreases |routes|
  {
    hide CatalogOk, Override;
    if routes != [] {
      var front := routes[..|routes| - 1];
      OverriddenIsOk(inp, from, models, front);
      OverrideIsOk(inp, from, Overridden(inp, models, front), routes[|routes| - 1], |front|);
    }
  }

  function Sources(routes: seq<Route>, overrides: seq<Route>): set<Route> {
    (set r | r in routes) + (set r | r in overrides)
  }

  /**
    The catalog as written. Official entries keep their place and gain only the required defaults. Every other
    entry has a window and a limit computed from the context of one of the routes to its slug: both or neither
    when compaction is opted in, always the window and never the limit when it is not.
   */
  lemma WrittenCatalogIsConsistent(inp: Inputs, routes: seq<Route>, overrides: seq<Route>)
    requires AllAcceptable(Written(inp, routes, overrides))
    ensures var final := Completed(Written(inp, routes, overrides));
            && |inp.official| <= |final|
            && (forall i :: 0 <= i < |inp.official| ==> inp.official[i].Obj? && final[i] == Obj(CompletedObject(inp.official[i].fields)))
            && (forall i :: |inp.official| <= i < |final| ==>
                 SlugOf(final[i]).Some? && !HasSlug(inp.official, SlugOf(final[i]).value) && PublishesOne(inp.policies, Sources(routes, overrides), final[i]))
  {
    hide ThirdPartyOk, CompletedObject, PublishesOne;
    var models := Written(inp, routes, overrides);
    var from := Sources(routes, overrides);
    GeneratedIsOk(inp, from, routes);
    OverriddenIsOk(inp, from, inp.official + Generated(inp, routes), overrides);
    var final := Completed(models);
    forall i | 0 <= i < |inp.official| ensures inp.official[i].Obj? && final[i] == Obj(CompletedObject(inp.official[i].fields)) {
      assert models[i] == models[..|inp.official|][i];
      assert Acceptable(models[i]);
    }
    forall i | |inp.official| <= i < |final|
      ensures SlugOf(final[i]).Some? && !HasSlug(inp.official, SlugOf(final[i]).value) && PublishesOne(inp.policies, from, final[i])
    {
      assert Acceptable(models[i]) && ThirdPartyOk(inp, from, models[i]);
      CompletedThirdParty(inp, from, models[i]);
      ThirdPartyPublishes(inp, from, final[i]);
    }
  }

  /** The entry publishes the window and compaction point of one of the routes to its slug. */
  ghost predicate PublishesOne(policies: Policies, from: set<Route>, entry: Json) {
    exists r :: r in from && SlugOf(entry) == Some(r.catalogId) && Publishes(entry, policies, r)
  }

  lemma ThirdPartyPublishes(inp: Inputs, from: set<Route>, entry: Json)
    requires ThirdPartyOk(inp, from, entry)
    ensures SlugOf(entry).Some? && !HasSlug(inp.official, SlugOf(entry).value) && PublishesOne(inp.policies, from, entry)
  {
    hide Publishes;
    var r :| r in from && SpeaksOfRoute(inp, entry, r);
    ConsistentMeans(entry, inp.policies, r);
  }

  lemma CompletedThirdParty(inp: Inputs, from: set<Route>, entry: Json)
    requires ThirdPartyOk(inp, from, entry)
    ensures entry.Obj? && ThirdPartyOk(inp, from, Obj(CompletedObject(entry.fields)))
  {
    hide CompletedObject;
    var r :| r in from && SpeaksOfRoute(inp, entry, r);
    CompletionAddsOnlyDefaults(entry.fields);
    CompletionKeepsConsistency(entry, ProjectionFor(inp.policies, r.catalogId), ContextOf(r));
    assert SpeaksOfRoute(inp, Obj(CompletedObject(entry.fields)), r);
  }

  /** The entry found under a slug is consistent with this context. */
  predicate SpeaksOf(inp: Inputs, models: seq<Json>, slug: string, context: nat) {
    var k := FirstWith(models, slug);
    k < |models| && Consistent(models[k], ProjectionFor(inp.policies, slug), context)
  }

  /** An override settles its own slug. */
  lemma OverrideSettles(inp: Inputs, models: seq<Json>, r: Route, priority: nat)
    requires !HasSlug(inp.official, r.catalogId)
    ensures SpeaksOf(inp, Override(inp, models, r, priority), r.catalogId, ContextOf(r))
  {
    var p := ProjectionFor(inp.policies, r.catalogId);
    var k := FirstWith(models, r.catalogId);
    if k < |models| {
      WithContextIsConsistent(models[k].fields, ContextOf(r), p);
      FirstStays(models, k, Obj(WithContext(models[k].fields, ContextOf(r), p)), r.catalogId);
    } else {
      var e := ThirdPartyEntry(r, 2000 + priority, inp.profiles(r), p);
      EntryIsConsistent(r, 2000 + priority, inp.profiles(r), p);
      FirstIs(models + [e], |models|, r.catalogId);
    }
  }

  /** A model without an entry of its own gets one at the end, with a priority from 2000 on. */
  lemma OverrideAppends(inp: Inputs, models: seq<Json>, r: Route, priority: nat)
    requires !HasSlug(inp.official, r.catalogId) && !HasSlug(models, r.catalogId)
    ensures var out := Override(inp, models, r, priority);
            && |out| == |models| + 1 && out[..|models|] == models && out[|models|].Obj?
            && SlugOf(out[|models|]) == Some(r.catalogId) && Lookup(out[|models|].fields, Priority) == Some(Num(2000 + priority))
            && Publishes(out[|models|], inp.policies, r)
  {
    var p := ProjectionFor(inp.policies, r.catalogId);
    EntryMeans(r, 2000 + priority, inp.profiles(r), p);
    EntryIsConsistent(r, 2000 + priority, inp.profiles(r), p);
    ConsistentMeans(ThirdPartyEntry(r, 2000 + priority, inp.profiles(r), p), inp.policies, r);
    hide ThirdPartyEntry, Publishes;
  }

  /** And leaves every other slug's entry as it was. */
  lemma OverrideKeepsOthers(inp: Inputs, models: seq<Json>, r: Route, priority: nat, slug: string)
    requires slug != r.catalogId && FirstWith(models, slug) < |models|
    ensures var k := FirstWith(models, slug);
            var out := Override(inp, models, r, priority);
            FirstWith(out, slug) == k && out[k] == models[k]
  {
    var k := FirstWith(models, slug);
    var out := Override(inp, models, r, priority);
    var p := ProjectionFor(inp.policies, r.catalogId);
    var j := FirstWith(models, r.catalogId);
    if j < |models| {
      WithContextIsConsistent(models[j].fields, ContextOf(r), p);
    }
    forall i | 0 <= i <= k ensures SlugOf(out[i]) == SlugOf(models[i]) {}
    FirstIs(out, k, slug);
  }

  /** Of all the overrides of one slug the last decides: its context is the one the entry speaks of. */
  lemma {:induction false} OverrideIsAuthoritative(inp: Inputs, models: seq<Json>, overrides: seq<Route>, i: nat)
    requires i < |overrides| && !HasSlug(inp.official, overrides[i].catalogId)
    requires forall j :: i < j < |overrides| ==> overrides[j].catalogId != overrides[i].catalogId
    ensures SpeaksOf(inp, Overridden(inp, models, overrides), overrides[i].catalogId, ContextOf(overrides[i]))
    decreases |overrides|
  {
    var front, r := overrides[..|overrides| - 1], overrides[|overrides| - 1];
    var before := Overridden(inp, models, front);
    if i == |front| {
      OverrideSettles(inp, before, r, |front|);
    } else {
      OverrideIsAuthoritative(inp, models, front, i);
      OverrideKeepsOthers(inp, before, r, |front|, overrides[i].catalogId);
    }
  }

  lemma CompletedEntry(models: seq<Json>, k: nat, p: Projection, context: nat)
    requires AllAcceptable(models) && k < |models| && Consistent(models[k], p, context)
    ensures |Completed(models)| == |models| && Consistent(Completed(models)[k], p, context)
    ensures SlugOf(Completed(models)[k]) == SlugOf(models[k])
  {
    assert Acceptable(models[k]);
    CompletionAddsOnlyDefaults(models[k].fields);
    CompletionKeepsConsistency(models[k], p, context);
  }

  /** The same holds of the catalog as written, after completion. */
  lemma WrittenContextIsTheOverride(inp: Inputs, routes: seq<Route>, overrides: seq<Route>, i: nat)
    requires AllAcceptable(Written(inp, routes, overrides))
    requires i < |overrides| && !HasSlug(inp.official, overrides[i].catalogId)
    requires forall j :: i < j < |overrides| ==> overrides[j].catalogId != overrides[i].catalogId
    ensures SpeaksOf(inp, Completed(Written(inp, routes, overrides)), overrides[i].catalogId, ContextOf(overrides[i]))
    ensures var final := Completed(Written(inp, routes, overrides));
            exists k :: 0 <= k < |final| && SlugOf(final[k]) == Some(overrides[i].catalogId) && Publishes(final[k], inp.policies, overrides[i])
                          && forall j :: 0 <= j < k ==> SlugOf(final[j]) != Some(overrides[i].catalogId)
  {
    var slug := overrides[i].catalogId;
    var models := Written(inp, routes, overrides);
    OverrideIsAuthoritative(inp, inp.official + Generated(inp, routes), overrides, i);
    var k := FirstWith(models, slug);
    CompletedEntry(models, k, ProjectionFor(inp.policies, slug), ContextOf(overrides[i]));
    forall n | 0 <= n < |models| ensures SlugOf(Completed(models)[n]) == SlugOf(models[n]) {
      assert Acceptable(models[n]);
      CompletionAddsOnlyDefaults(models[n].fields);
    }
    FirstIs(Completed(models), k, slug);
    ConsistentMeans(Completed(models)[k], inp.policies, overrides[i]);
  }

  /** The routes that get a generated entry. */
  function Kept(inp: Inputs, routes: seq<Route>): seq<Route>
    decreases |routes|
  {
    if routes == [] then []
    else
      var front, r := Kept(inp, routes[..|routes| - 1]), routes[|routes| - 1];
      if HasSlug(inp.official, r.catalogId) then front else front + [r]
  }

  lemma {:induction false} GeneratedFromKept(inp: Inputs, routes: seq<Route>, j: nat)
    requires j < |Kept(inp, routes)|
    ensures |Generated(inp, routes)| == |Kept(inp, routes)|
    ensures var r := Kept(inp, routes)[j];
            Generated(inp, routes)[j] == ThirdPartyEntry(r, 1000 + j, inp.profiles(r), ProjectionFor(inp.policies, r.catalogId))
    decreases |routes|
  {
    hide ThirdPartyEntry;
    var front := routes[..|routes| - 1];
    if j < |Kept(inp, front)| {
      GeneratedFromKept(inp, front, j);
    } else if front != [] && Kept(inp, front) != [] {
      GeneratedFromKept(inp, front, 0);
    } else {
      NothingGenerated(inp, front);
    }
  }

  lemma {:induction false} NothingGenerated(inp: Inputs, routes: seq<Route>)
    requires Kept(inp, routes) == []
    ensures Generated(inp, routes) == []
    decreases |routes|
  {
    if routes != [] {
      NothingGenerated(inp, routes[..|routes| - 1]);
    }
  }

  /** No override reaches the entry at `k`: none names its slug, or an earlier entry has the same one. */
  predicate OutOfReach(models: seq<Json>, overrides: seq<Route>, k: nat)
    requires k < |models| && SlugOf(models[k]).Some?
  {
    || (forall i :: 0 <= i < |overrides| ==> Some(overrides[i].catalogId) != SlugOf(models[k]))
    || (exists i :: 0 <= i < k && SlugOf(models[i]) == SlugOf(models[k]))
  }

  lemma {:induction false} OverriddenKeeps(inp: Inputs, models: seq<Json>, overrides: seq<Route>, k: nat)
    requires k < |models| && SlugOf(models[k]).Some? && OutOfReach(models, overrides, k)
    ensures var out := Overridden(inp, models, overrides);
            && |models| <= |out| && out[k] == models[k]
            && (forall i :: 0 <= i < |models| ==> SlugOf(out[i]) == SlugOf(models[i]))
    decreases |overrides|
  {
    if overrides != [] {
      var front, r := overrides[..|overrides| - 1], overrides[|overrides| - 1];
      OverriddenKeeps(inp, models, front, k);
      var before := Overridden(inp, models, front);
      var j := FirstWith(before, r.catalogId);
      if j < |before| {
        WithContextIsConsistent(before[j].fields, ContextOf(r), ProjectionFor(inp.policies, r.catalogId));
      }
    }
  }

  /** An entry no override reaches speaks of its own route's window; so does every later entry of a slug generated twice. */
  lemma WrittenContextIsTheRoute(inp: Inputs, routes: seq<Route>, overrides: seq<Route>, j: nat)
    requires AllAcceptable(Written(inp, routes, overrides)) && j < |Kept(inp, routes)|
    requires || (forall i :: 0 <= i < |overrides| ==> overrides[i].catalogId != Kept(inp, routes)[j].catalogId)
             || (exists i :: 0 <= i < j && Kept(inp, routes)[i].catalogId == Kept(inp, routes)[j].catalogId)
    ensures var r := Kept(inp, routes)[j];
            var final := Completed(Written(inp, routes, overrides));
            var k := |inp.official| + j;
            && k < |final| && SlugOf(final[k]) == Some(r.catalogId)
            && Consistent(final[k], ProjectionFor(inp.policies, r.catalogId), ContextOf(r))
            && Publishes(final[k], inp.policies, r)
  {
    hide Consistent, Completed, AllAcceptable, SlugOf, OutOfReach, Publishes;
    var r := Kept(inp, routes)[j];
    var k := |inp.official| + j;
    KeptAt(inp, routes, j);
    KeptOutOfReach(inp, routes, overrides, j);
    OverriddenKeeps(inp, inp.official + Generated(inp, routes), overrides, k);
    CompletedEntry(Written(inp, routes, overrides), k, ProjectionFor(inp.policies, r.catalogId), ContextOf(r));
    ConsistentMeans(Completed(Written(inp, routes, overrides))[k], inp.policies, r);
  }

  lemma KeptOutOfReach(inp: Inputs, routes: seq<Route>, overrides: seq<Route>, j: nat)
    requires j < |Kept(inp, routes)|
    requires || (forall i :: 0 <= i < |overrides| ==> overrides[i].catalogId != Kept(inp, routes)[j].catalogId)
             || (exists i :: 0 <= i < j && Kept(inp, routes)[i].catalogId == Kept(inp, routes)[j].catalogId)
    ensures var start := inp.official + Generated(inp, routes);
            var k := |inp.official| + j;
            k < |start| && SlugOf(start[k]).Some? && OutOfReach(start, overrides, k)
  {
    hide Consistent, SlugOf;
    var start := inp.official + Generated(inp, routes);
    KeptAt(inp, routes, j);
    if i :| 0 <= i < j && Kept(inp, routes)[i].catalogId == Kept(inp, routes)[j].catalogId {
      KeptAt(inp, routes, i);
      assert SlugOf(start[|inp.official| + i]) == SlugOf(start[|inp.official| + j]);
    }
  }

  lemma KeptAt(inp: Inputs, routes: seq<Route>, j: nat)
    requires j < |Kept(inp, routes)|
    ensures var r := Kept(inp, routes)[j];
            var start := inp.official + Generated(inp, routes);
            var k := |inp.official| + j;
            && k < |start| && SlugOf(start[k]) == Some(r.catalogId)
            && Consistent(start[k], ProjectionFor(inp.policies, r.catalogId), ContextOf(r))
  {
    hide ThirdPartyEntry, Consistent;
    var r := Kept(inp, routes)[j];
    GeneratedFromKept(inp, routes, j);
    EntryIsConsistent(r, 1000 + j, inp.profiles(r), ProjectionFor(inp.policies, r.catalogId));
  }

  lemma FirstIs(models: seq<Json>, k: nat, slug: string)
    requires k < |models| && SlugOf(models[k]) == Some(slug)
    requires forall i :: 0 <= i < k ==> SlugOf(models[i]) != Some(slug)
    ensures FirstWith(models, slug) == k
  {
  }

  lemma FirstStays(models: seq<Json>, k: nat, entry: Json, slug: string)
    requires k == FirstWith(models, slug) && k < |models| && SlugOf(entry) == Some(slug)
    ensures FirstWith(models[k := entry], slug) == k
  {
    FirstIs(models[k := entry], k, slug);
  }

  // ----- The writer -----

  method FindSlug(models: seq<Json>, slug: string) returns (k: nat)
    ensures k == FirstWith(models, slug)
  {
    k := 0;
    while k < |models| && SlugOf(models[k]) != Some(slug)
      invariant k <= |models| && forall i :: 0 <= i < k ==> SlugOf(models[i]) != Some(slug)
    {
      k := k + 1;
    }
  }

  method CatalogJson(inp: Inputs, routes: seq<Route>) returns (models: seq<Json>)
    ensures models == inp.official + Generated(inp, routes)
  {
    var generated: seq<Json> := [];
    for i := 0 to |routes|
      invariant generated == Generated(inp, routes[..i])
    {
      var r := routes[i];
      assert routes[..i + 1][..i] == routes[..i];
      if !HasSlug(inp.official, r.catalogId) {
        var entry := BuildThirdPartyEntry(r, 1000 + |generated|, inp.profiles(r), ProjectionFor(inp.policies, r.catalogId));
        generated := generated + [entry];
      }
    }
    assert routes[..|routes|] == routes;
    models := inp.official + generated;
  }

  /** Fails on the first entry without a usable slug; otherwise completes every entry. */
  method EnsureCatalogReady(models: seq<Json>) returns (ready: Option<seq<Json>>)
    ensures ready.Some? <==> AllAcceptable(models)
    ensures ready.Some? ==> ready.value == Completed(models)
  {
    var done: seq<Json> := [];
    for i := 0 to |models|
      invariant |done| == i
      invariant forall k :: 0 <= k < i ==> Acceptable(models[k]) && done[k] == Obj(CompletedObject(models[k].fields))
    {
      var slug := SlugOf(models[i]);
      if slug.None? || IsBlank(slug.value) {
        assert !Acceptable(models[i]);
        return None;
      }
      var fields := models[i].fields;
      if !HasInstructions(fields) {
        fields := fields[BaseInstructions := Str(CODEX_REQUIRED_INSTRUCTIONS)];
      }
      if ShellType !in fields {
        fields := fields[ShellType := Str("shell_command")];
      }
      if SupportsParallelToolCalls !in fields {
        fields := fields[SupportsParallelToolCalls := Bool(false)];
      }
      done := done + [Obj(fields)];
    }
    ready := Some(done);
  }

  method WriteCatalog(inp: Inputs, routes: seq<Route>, overrides: seq<Route>) returns (catalog: Option<seq<Json>>)
    ensures catalog.Some? <==> AllAcceptable(Written(inp, routes, overrides))
    ensures catalog.Some? ==> catalog.value == Completed(Written(inp, routes, overrides))
  {
    var models := CatalogJson(inp, routes);
    ghost var start := models;
    for i := 0 to |overrides|
      invariant models == Overridden(inp, start, overrides[..i])
    {
      var r := overrides[i];
      assert overrides[..i + 1][..i] == overrides[..i];
      if !HasSlug(inp.official, r.catalogId) {
        var p := ProjectionFor(inp.policies, r.catalogId);
        var k := FindSlug(models, r.catalogId);
        if k < |models| {
          var fields := ApplyContextAndCompactLimit(models[k].fields, ContextOf(r), p);
          models := models[k := Obj(fields)];
        } else {
          var entry := BuildThirdPartyEntry(r, 2000 + i, inp.profiles(r), p);
          models := models + [entry];
        }
      }
    }
    assert overrides[..|overrides|] == overrides;
    catalog := EnsureCatalogReady(models);
  }
}
