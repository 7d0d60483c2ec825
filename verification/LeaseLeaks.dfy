/**
  Runs that end badly: for each promise the lease does not keep, a run of real processes over an empty
  config that reaches the failing side of its condition.
 */
module LeaseLeaks {
  import opened Common
  import opened CodexConfig
  import opened ConfigLease
  import opened LeaseRuns
  import opened LeaseRecovery

  const PLAIN: Config := Config(map[], None, None, None)
  const FIRST: Process := Process(1, "first")
  const SECOND: Process := Process(2, "second")

  function Setup(subagent: Subagent, key: string): Settings {
    Settings("http://127.0.0.1:8080/v1", key, Some("/data/catalog.json"), subagent)
  }

  /** A launch whose own start time is known; the lease owner's is not. */
  function Go(p: Process, s: Settings): Launch {
    Launch(p, s, 8080, Some(p.start), None)
  }

  function Me(p: Process): Owner {
    Owner(p.pid, Some(p.start), 8080)
  }

  function Nobody(): World {
    World(Disk(PLAIN, None, false), map[], {})
  }

  // ----- Worlds along the way -----

  function FirstRuns(s: Settings): World
    requires s.catalogPath.Some?
  {
    World(Disk(Fresh(PLAIN, s), Some(LeaseOf(PLAIN, s, Me(FIRST))), true), map[1 := "first"], {FIRST})
  }

  /** The first process died in the middle of its run and a second one has appeared. */
  function Orphaned(s: Settings): World
    requires s.catalogPath.Some?
  {
    FirstRuns(s).(live := map[2 := "second"], running := {})
  }

  /** The disk the second process applies to: the lease is its own now. */
  function Reclaimed(s: Settings): Disk
    requires s.catalogPath.Some?
  {
    Disk(Fresh(PLAIN, s), Some(LeaseOf(PLAIN, s, Me(SECOND))), true)
  }

  lemma Cons(w: World, e: Event, es: seq<Event>)
    requires Legal(w, e) && LegalRun(Next(w, e), es)
    ensures LegalRun(w, [e] + es) && Run(w, [e] + es) == Run(Next(w, e), es)
  {
    assert ([e] + es)[1..] == es;
  }

  lemma PlainIsPure(s: Settings)
    requires s.catalogPath.Some?
    ensures Pure(PLAIN, s.catalogPath, s.proxyUrl) && BaseOf(PLAIN, s) == PLAIN
    ensures Fresh(PLAIN, s) != PLAIN && Lookup(Fresh(PLAIN, s).top, ModelProvider) == Some(Str("vellum"))
  {
    AppliedRoutesThroughProxy(Disk(PLAIN, None, false), s);
  }

  lemma FirstStarts(s: Settings)
    requires s.catalogPath.Some?
    ensures var w := Nobody().(live := map[1 := "first"]);
            && Legal(Nobody(), Spawn(FIRST)) && Next(Nobody(), Spawn(FIRST)) == w
            && Legal(w, Start(Go(FIRST, s), Succeeds)) && Next(w, Start(Go(FIRST, s), Succeeds)) == FirstRuns(s)
  {
    hide Fresh, BaseOf, ApplyEffect;
    FirstApplyWrites(Disk(PLAIN, None, true), s, Me(FIRST));
  }

  lemma FirstDies(s: Settings)
    requires s.catalogPath.Some?
    ensures var w := FirstRuns(s).(live := map[], running := {});
            && Legal(FirstRuns(s), Crash(FIRST)) && Next(FirstRuns(s), Crash(FIRST)) == w
            && Legal(w, Spawn(SECOND)) && Next(w, Spawn(SECOND)) == Orphaned(s)
  {
    hide Fresh, BaseOf;
  }

  /** What a second start finds: a dead owner's lease over a diverted config. */
  lemma SecondFinds(a: Settings, b: Settings)
    requires a.catalogPath.Some? && b.catalogPath.Some?
    ensures LegalLaunch(Orphaned(a), Go(SECOND, b))
    ensures ReconcileEffect(Orphaned(a).disk, LeaseOwnerAlive(Orphaned(a), None), Me(SECOND)) == Effect(true, [Reclaimed(a)])
  {
    PlainIsPure(a);
    hide Fresh, BaseOf;
  }

  lemma Reaches(a: Settings, es: seq<Event>)
    requires a.catalogPath.Some? && LegalRun(Orphaned(a), es)
    ensures var all := [Spawn(FIRST)] + ([Start(Go(FIRST, a), Succeeds)] + ([Crash(FIRST)] + ([Spawn(SECOND)] + es)));
            LegalRun(Nobody(), all) && Run(Nobody(), all) == Run(Orphaned(a), es)
  {
    hide Legal, Next, LegalRun, Run, Orphaned, FirstRuns;
    FirstDies(a);
    FirstStarts(a);
    Cons(FirstRuns(a).(live := map[], running := {}), Spawn(SECOND), es);
    Cons(FirstRuns(a), Crash(FIRST), [Spawn(SECOND)] + es);
    var w := Nobody().(live := map[1 := "first"]);
    Cons(w, Start(Go(FIRST, a), Succeeds), [Crash(FIRST)] + ([Spawn(SECOND)] + es));
    Cons(Nobody(), Spawn(FIRST), [Start(Go(FIRST, a), Succeeds)] + ([Crash(FIRST)] + ([Spawn(SECOND)] + es)));
  }

  // ===== A restart with other settings =====

  function SecondStartsAndStops(b: Settings): seq<Event> {
    [Start(Go(SECOND, b), Succeeds)] + ([Stop(SECOND)] + [])
  }

  function RestartedWith(a: Settings, b: Settings): seq<Event> {
    [Spawn(FIRST)] + ([Start(Go(FIRST, a), Succeeds)] + ([Crash(FIRST)] + ([Spawn(SECOND)] + SecondStartsAndStops(b))))
  }

  /** The second process reclaims the lease, applies its own settings and restores against the first one's record. */
  lemma RestartRun(a: Settings, b: Settings)
    requires a.catalogPath.Some? && b.catalogPath.Some?
    ensures LegalRun(Nobody(), RestartedWith(a, b))
    ensures var d := Final(Reclaimed(a), ApplyEffect(Reclaimed(a), b, Me(SECOND)));
            Run(Nobody(), RestartedWith(a, b)).disk == Final(d, RestoreEffect(d))
  {
    var w := Next(Orphaned(a), Start(Go(SECOND, b), Succeeds));
    SecondStarts(a, b);
    hide Orphaned, ApplyEffect, RestoreEffect, StartEffect;
    Cons(w, Stop(SECOND), []);
    Cons(Orphaned(a), Start(Go(SECOND, b), Succeeds), [Stop(SECOND)] + []);
    Reaches(a, SecondStartsAndStops(b));
  }

  lemma SecondStarts(a: Settings, b: Settings)
    requires a.catalogPath.Some? && b.catalogPath.Some?
    ensures var w := Next(Orphaned(a), Start(Go(SECOND, b), Succeeds));
            && Legal(Orphaned(a), Start(Go(SECOND, b), Succeeds))
            && w.disk == Final(Reclaimed(a), ApplyEffect(Reclaimed(a), b, Me(SECOND)))
            && Legal(w, Stop(SECOND))
  {
    hide ApplyEffect, ReconcileEffect, Fresh, BaseOf;
    SecondFinds(a, b);
    ApplyWrites(Reclaimed(a), b, Me(SECOND));
  }

  /** The user changes the sub-agent model between a crash and the next start: the new model stays in a config that never had one. */
  lemma RestartLeaksModel(x: string, y: string)
    requires x != y && y != ""
    ensures var a, b := Setup(Custom(Some(x), None), "key"), Setup(Custom(Some(y), None), "key");
            && LegalRun(Nobody(), RestartedWith(a, b))
            && Get(Run(Nobody(), RestartedWith(a, b)).disk.config.agents, DefaultSubagentModel) == Some(Str(y))
  {
    var a, b := Setup(Custom(Some(x), None), "key"), Setup(Custom(Some(y), None), "key");
    RestartRun(a, b);
    PlainIsPure(a);
    PlainIsPure(b);
    ModelWritten(a, b);
    hide Fresh, BaseOf, RestartedWith, Pure, ApplyEffect;
    LaterPureApply(Reclaimed(a), b, Me(SECOND));
    ThreeWayRestore(AppliedOver(Reclaimed(a), b), PLAIN, Fresh(PLAIN, a));
    hide AppliedOver, Restored;
    assert MANAGED_AGENT_KEYS[0] == DefaultSubagentModel;
  }

  lemma ModelWritten(a: Settings, b: Settings)
    requires a.catalogPath.Some? && b.catalogPath.Some? && a.subagent.Custom? && b.subagent.Custom?
    ensures Get(Fresh(PLAIN, a).agents, DefaultSubagentModel) == NonEmpty(a.subagent.model)
    ensures Get(AppliedOver(Reclaimed(a), b).agents, DefaultSubagentModel) == NonEmpty(b.subagent.model)
  {
    assert MANAGED_AGENT_KEYS[0] == DefaultSubagentModel;
    AppliedRoutesThroughProxy(Disk(PLAIN, None, false), a);
    AppliedRoutesThroughProxy(Reclaimed(a), b);
  }

  lemma LaterPureApply(d: Disk, s: Settings, me: Owner)
    requires s.catalogPath.Some? && d.lease.Some? && Pure(d.lease.value.original, s.catalogPath, s.proxyUrl)
    ensures Final(d, ApplyEffect(d, s, me)) == d.(config := AppliedOver(d, s))
  {
    hide AppliedOver, Pure;
  }

  /** The boundary key changes between a crash and the next start: the entry with the new key stays behind after the stop. */
  lemma RestartLeaksBoundaryKey(j: string, k: string)
    requires j != k
    ensures var a, b := Setup(Inherit, j), Setup(Inherit, k);
            var left := Get(Run(Nobody(), RestartedWith(a, b)).disk.config.providers, Vellum);
            && LegalRun(Nobody(), RestartedWith(a, b))
            && left.Some? && CarriesHeaders(left.value)
  {
    var a, b := Setup(Inherit, j), Setup(Inherit, k);
    RestartRun(a, b);
    PlainIsPure(a);
    PlainIsPure(b);
    assert RESERVED_PROVIDERS[0] == Vellum;
    assert Get(Fresh(PLAIN, a).providers, Vellum) == Some(ProxyProvider(Vellum, a.proxyUrl, j));
    KeyShows(Vellum, a.proxyUrl, j, k);
    hide Fresh, BaseOf, RestartedWith, Pure, ApplyEffect, RestoreEffect;
    ReapplyRecoversProviderIff(Reclaimed(a), b, Me(SECOND), Vellum);
  }

  lemma KeyShows(id: ProviderId, url: string, j: string, k: string)
    requires j != k
    ensures ProxyProvider(id, url, j) != ProxyProvider(id, url, k)
  {
    assert ProxyProvider(id, url, j).entries["http_headers"].entries[BOUNDARY_KEY_HEADER] == Str(j);
    assert ProxyProvider(id, url, k).entries["http_headers"].entries[BOUNDARY_KEY_HEADER] == Str(k);
  }

  // ===== A crash inside a hot update =====

  function UpdateInterrupted(s: Settings, update: Subagent): seq<Event> {
    [Spawn(FIRST)] + ([Start(Go(FIRST, s), Succeeds)] + ([HotUpdateCrash(FIRST, update, 1)] + ([Spawn(SECOND)] + ([Stop(SECOND)] + []))))
  }

  /** The process dies between the two writes of a hot update and another one stops: the new model stays. */
  lemma HotUpdateLeaksModel(y: string)
    requires y != ""
    ensures var s := Setup(Inherit, "key");
            var es := UpdateInterrupted(s, Custom(Some(y), None));
            && LegalRun(Nobody(), es)
            && Get(Run(Nobody(), es).disk.config.agents, DefaultSubagentModel) == Some(Str(y))
  {
    var s, update := Setup(Inherit, "key"), Custom(Some(y), None);
    var crashed := HotUpdateEffect(FirstRuns(s).disk, update).writes[0];
    var w := World(crashed, map[], {});
    var w' := World(crashed, map[2 := "second"], {});
    PlainIsPure(s);
    UpdateCrashes(s, update);
    FirstStarts(s);
    NothingRecorded(s, update);
    hide FirstRuns, Fresh, BaseOf, Pure, HotUpdateEffect, StartEffect;
    Cons(w', Stop(SECOND), []);
    Cons(w, Spawn(SECOND), [Stop(SECOND)] + []);
    Cons(FirstRuns(s), HotUpdateCrash(FIRST, update, 1), [Spawn(SECOND)] + ([Stop(SECOND)] + []));
    Cons(Nobody().(live := map[1 := "first"]), Start(Go(FIRST, s), Succeeds),
         [HotUpdateCrash(FIRST, update, 1)] + ([Spawn(SECOND)] + ([Stop(SECOND)] + [])));
    Cons(Nobody(), Spawn(FIRST),
         [Start(Go(FIRST, s), Succeeds)] + ([HotUpdateCrash(FIRST, update, 1)] + ([Spawn(SECOND)] + ([Stop(SECOND)] + []))));
    assert Run(w', [Stop(SECOND)] + []).disk == Final(crashed, RestoreEffect(crashed));
  }

  lemma UpdateCrashes(s: Settings, update: Subagent)
    requires s.catalogPath.Some?
    ensures var crashed := HotUpdateEffect(FirstRuns(s).disk, update).writes[0];
            && Legal(FirstRuns(s), HotUpdateCrash(FIRST, update, 1))
            && Next(FirstRuns(s), HotUpdateCrash(FIRST, update, 1)) == World(crashed, map[], {})
  {
    hide Fresh, BaseOf;
  }

  lemma NothingRecorded(s: Settings, update: Subagent)
    requires s.catalogPath.Some? && s.subagent == Inherit && update.Custom? && NonEmpty(update.model).Some?
    ensures var crashed := HotUpdateEffect(FirstRuns(s).disk, update).writes[0];
            Get(Final(crashed, RestoreEffect(crashed)).config.agents, DefaultSubagentModel) == NonEmpty(update.model)
  {
    assert MANAGED_AGENT_KEYS[0] == DefaultSubagentModel;
    PlainIsPure(s);
    AppliedRoutesThroughProxy(Disk(PLAIN, None, false), s);
    PureIsFixed(PLAIN, s.catalogPath, s.proxyUrl);
    assert Get(Fresh(PLAIN, s).agents, DefaultSubagentModel) == None;
    hide Fresh, BaseOf, Pure;
    var live := WithSubagent(Fresh(PLAIN, s), update, PLAIN);
    SubagentSlots(Fresh(PLAIN, s), update, PLAIN);
    hide WithSubagent;
    ThreeWayRestore(live, PLAIN, Fresh(PLAIN, s));
    hide Restored;
  }

  // ===== A crash between the two writes of a first apply =====

  const WITH_EMPTY_FEATURES: Config := Config(map[], Some(map[]), None, None)

  function DivertedTooLate(s: Settings): seq<Event> {
    [Spawn(FIRST)] + ([StartCrash(Go(FIRST, s), Succeeds, 2)] + ([Spawn(SECOND)] + ([Stop(SECOND)] + [])))
  }

  /** The process dies after the lease write and another one stops: an empty `[features]` is gone though nothing was ever diverted. */
  lemma CrashLosesEmptyTable(s: Settings)
    requires s.catalogPath.Some?
    ensures var w := World(Disk(WITH_EMPTY_FEATURES, None, false), map[], {});
            && LegalRun(w, DivertedTooLate(s))
            && Run(w, DivertedTooLate(s)).disk.config != WITH_EMPTY_FEATURES
  {
    var c := WITH_EMPTY_FEATURES;
    var w := World(Disk(c, None, false), map[], {});
    var w1 := World(Disk(c, None, false), map[1 := "first"], {});
    var crashed := Disk(c, Some(LeaseOf(c, s, Me(FIRST))), true);
    var w3 := World(crashed, map[2 := "second"], {});
    LeaseWritten(c, s);
    ApplyCrashIsRestoredIff(Disk(c, None, true), s, Me(FIRST));
    FirstApplyWrites(Disk(c, None, true), s, Me(FIRST));
    hide Fresh, BaseOf, ApplyEffect, StartEffect, RestoreEffect, LeaseOf;
    Cons(w3, Stop(SECOND), []);
    Cons(World(crashed, map[], {}), Spawn(SECOND), [Stop(SECOND)] + []);
    Cons(w1, StartCrash(Go(FIRST, s), Succeeds, 2), [Spawn(SECOND)] + ([Stop(SECOND)] + []));
    Cons(w, Spawn(FIRST), [StartCrash(Go(FIRST, s), Succeeds, 2)] + ([Spawn(SECOND)] + ([Stop(SECOND)] + [])));
    assert Run(w3, [Stop(SECOND)] + []).disk == Final(crashed, RestoreEffect(crashed));
  }

  lemma LeaseWritten(c: Config, s: Settings)
    requires s.catalogPath.Some?
    ensures var w := World(Disk(c, None, false), map[1 := "first"], {});
            && Legal(w, StartCrash(Go(FIRST, s), Succeeds, 2))
            && Next(w, StartCrash(Go(FIRST, s), Succeeds, 2)) == World(Disk(c, Some(LeaseOf(c, s, Me(FIRST))), true), map[], {})
  {
    hide Fresh, BaseOf, ApplyEffect;
    FirstApplyWrites(Disk(c, None, true), s, Me(FIRST));
  }

  // ===== A start that fails halfway =====

  /** The second process cannot bind its port after reclaiming: its lease now refuses every start, its own included. */
  lemma FailedStartStrands(s: Settings)
    requires s.catalogPath.Some?
    ensures var es := [Start(Go(SECOND, s), FailsEarly(false))] + [];
            && LegalRun(Orphaned(s), es)
            && Stranded(Run(Orphaned(s), es), SECOND)
            && StartEffect(Run(Orphaned(s), es), Go(SECOND, s), Succeeds) == Effect(false, [])
  {
    PlainIsPure(s);
    SecondFinds(s, s);
    hide Fresh, BaseOf, ReconcileEffect, Pure;
    Cons(Orphaned(s), Start(Go(SECOND, s), FailsEarly(false)), []);
    StrandedRefuses(Run(Orphaned(s), [Start(Go(SECOND, s), FailsEarly(false))] + []), SECOND, Go(SECOND, s), Succeeds);
  }

  /** A process that never started stops while another one runs, and can then start beside it. */
  lemma ForeignStopAdmitsSecond(s: Settings)
    requires s.catalogPath.Some?
    ensures var w := FirstRuns(s).(live := map[1 := "first", 2 := "second"]);
            var w' := Next(Next(w, Stop(SECOND)), Start(Go(SECOND, s), Succeeds));
            FIRST in w'.running && SECOND in w'.running
  {
    hide Fresh, BaseOf, Restored, AppliedOver;
  }
}
