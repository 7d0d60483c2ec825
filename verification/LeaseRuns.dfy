/**
  Many Vellum processes sharing one Codex config. A run is any interleaving of spawning, starting,
  stopping, hot-updating, user edits and crashes, where a crash may strike between any two writes.
  Process identifiers are reused freely, and the start-time probe may fail at any time.
 */
module LeaseRuns {
  import opened Common
  import opened CodexConfig
  import opened ConfigLease

  datatype Process = Process(pid: nat, start: string)

  /** `live` is the operating system's view; `running` are the processes whose start succeeded and that have not stopped. */
  datatype World = World(disk: Disk, live: map<nat, string>, running: set<Process>)

  /** `recorded` and `probed` are what the start-time probe answered for this process and for the lease's owner. */
  datatype Launch = Launch(process: Process, settings: Settings, port: nat, recorded: Option<string>, probed: Option<string>)

  /**
    How a start sequence ends: with the config diverted; with an error between reconcile and apply, before
    or after the catalog was written, which returns at once; or with a failure (the readiness check, or
    apply after some of its writes) that is answered by restoring.
   */
  datatype Ending = Succeeds | FailsEarly(catalogWritten: bool) | RollsBack(written: nat)

  datatype Event =
    | Spawn(process: Process)
    | Start(launch: Launch, ending: Ending)
    | StartCrash(launch: Launch, ending: Ending, writes: nat)
    | Stop(process: Process)
    | StopCrash(process: Process, writes: nat)
    | HotUpdate(process: Process, subagent: Subagent)
    | HotUpdateCrash(process: Process, subagent: Subagent, writes: nat)
    | Crash(process: Process)
    | Edit(config: Config)

  predicate IsLive(w: World, p: Process) {
    p.pid in w.live && w.live[p.pid] == p.start
  }

  /** A probe tells the truth or nothing. */
  predicate Truthful(w: World, pid: nat, answer: Option<string>) {
    answer.Some? ==> pid in w.live && answer.value == w.live[pid]
  }

  /** `owner_still_alive`: a live pid whose start time is not known to differ. */
  predicate OwnerStillAlive(w: World, owner: Owner, probed: Option<string>) {
    owner.pid in w.live && (owner.startTime.Some? && probed.Some? ==> owner.startTime == probed)
  }

  predicate LeaseOwnerAlive(w: World, probed: Option<string>) {
    w.disk.lease.Some? && w.disk.lease.value.V2? && OwnerStillAlive(w, w.disk.lease.value.owner, probed)
  }

  function OwnerRecord(l: Launch): Owner {
    Owner(l.process.pid, l.recorded, l.port)
  }

  /** The disk a start finds after reconcile, and the same with the catalog written. */
  function Found(w: World, l: Launch): Disk {
    Final(w.disk, ReconcileEffect(w.disk, LeaseOwnerAlive(w, l.probed), OwnerRecord(l)))
  }

  function Committed(w: World, l: Launch): Disk {
    Found(w, l).(catalog := true)
  }

  /** Reconcile, catalog, apply, as the start sequence runs them. */
  function StartEffect(w: World, l: Launch, ending: Ending): Effect {
    var r := ReconcileEffect(w.disk, LeaseOwnerAlive(w, l.probed), OwnerRecord(l));
    if !r.ok then r
    else
      var a := ApplyEffect(Committed(w, l), l.settings, OwnerRecord(l));
      match ending
      case Succeeds => Effect(a.ok, r.writes + [Committed(w, l)] + a.writes)
      case FailsEarly(written) => Effect(false, r.writes + if written then [Committed(w, l)] else [])
      case RollsBack(n) =>
        var undone := RestoreEffect(After(Committed(w, l), a, n));
        Effect(false, r.writes + [Committed(w, l)] + FirstWrites(a, n) + undone.writes)
  }

  function FirstWrites(e: Effect, n: nat): seq<Disk> {
    if n <= |e.writes| then e.writes[..n] else e.writes
  }

  function After(d: Disk, e: Effect, writes: nat): Disk {
    if writes == 0 || e.writes == [] then d
    else if writes <= |e.writes| then e.writes[writes - 1] else Final(d, e)
  }

  predicate DiffersFromBaseline(d: Disk, c: Config) {
    d.lease.Some? ==> c != d.lease.value.original
  }

  predicate LegalLaunch(w: World, l: Launch) {
    && IsLive(w, l.process)
    && l.settings.catalogPath.Some?
    && Truthful(w, l.process.pid, l.recorded)
    && (w.disk.lease.Some? && w.disk.lease.value.V2? ==> Truthful(w, w.disk.lease.value.owner.pid, l.probed))
  }

  /** Only the running process hot-updates, nobody stops while another process runs, and nothing but restore makes the config equal the baseline. */
  predicate Legal(w: World, e: Event) {
    match e
    case Spawn(p) => p.pid !in w.live
    case Start(l, _) => LegalLaunch(w, l)
    case StartCrash(l, _, _) => LegalLaunch(w, l)
    case Stop(p) => IsLive(w, p) && w.running <= {p}
    case StopCrash(p, _) => IsLive(w, p) && w.running <= {p}
    case HotUpdate(p, s) => p in w.running && DiffersFromBaseline(w.disk, Final(w.disk, HotUpdateEffect(w.disk, s)).config)
    case HotUpdateCrash(p, _, _) => p in w.running
    case Crash(p) => IsLive(w, p)
    case Edit(c) => DiffersFromBaseline(w.disk, c)
  }

  function Dead(w: World, p: Process, d: Disk): World {
    World(d, w.live - {p.pid}, w.running - {p})
  }

  function Next(w: World, e: Event): World {
    match e
    case Spawn(p) => w.(live := w.live[p.pid := p.start])
    case Start(l, ending) =>
      var s := StartEffect(w, l, ending);
      w.(disk := Final(w.disk, s), running := if s.ok then w.running + {l.process} else w.running)
    case StartCrash(l, ending, k) => Dead(w, l.process, After(w.disk, StartEffect(w, l, ending), k))
    case Stop(p) => w.(disk := Final(w.disk, RestoreEffect(w.disk)), running := w.running - {p})
    case StopCrash(p, k) => Dead(w, p, After(w.disk, RestoreEffect(w.disk), k))
    case HotUpdate(_, s) => w.(disk := Final(w.disk, HotUpdateEffect(w.disk, s)))
    case HotUpdateCrash(p, s, k) => Dead(w, p, After(w.disk, HotUpdateEffect(w.disk, s), k))
    case Crash(p) => Dead(w, p, w.disk)
    case Edit(c) => w.(disk := w.disk.(config := c))
  }

  predicate LegalRun(w: World, es: seq<Event>)
    decreases |es|
  {
    es == [] || (Legal(w, es[0]) && LegalRun(Next(w, es[0]), es[1..]))
  }

  function Run(w: World, es: seq<Event>): World
    decreases |es|
  {
    if es == [] then w else Run(Next(w, es[0]), es[1..])
  }

  // ===== Exclusive ownership =====

  predicate HoldsLease(w: World, p: Process) {
    && w.disk.lease.Some?
    && w.disk.lease.value.V2?
    && w.disk.lease.value.owner.pid == p.pid
    && (w.disk.lease.value.owner.startTime.Some? ==> w.disk.lease.value.owner.startTime == Some(p.start))
  }

  ghost predicate Inv(w: World) {
    forall p :: p in w.running ==>
      IsLive(w, p) && HoldsLease(w, p) && w.disk.catalog && w.disk.config != w.disk.lease.value.original
  }

  /** While some process runs, every start, its own included and however it would have ended, is refused without a write. */
  lemma StartRefused(w: World, l: Launch, ending: Ending, holder: Process)
    requires Inv(w) && holder in w.running && LegalLaunch(w, l)
    ensures StartEffect(w, l, ending) == Effect(false, [])
  {
  }

  lemma StartHolds(w: World, l: Launch, ending: Ending)
    requires Inv(w) && LegalLaunch(w, l) && StartEffect(w, l, ending).ok
    ensures w.running == {} && Inv(Next(w, Start(l, ending)))
  {
    if holder :| holder in w.running {
      StartRefused(w, l, ending, holder);
      assert false;
    }
    var me := OwnerRecord(l);
    var a := ApplyEffect(Committed(w, l), l.settings, me);
    ApplyPurifies(Committed(w, l), l.settings, me);
    assert Final(w.disk, StartEffect(w, l, ending)) == Final(Committed(w, l), a);
  }

  lemma StepKeepsInv(w: World, e: Event)
    requires Inv(w) && Legal(w, e)
    ensures Inv(Next(w, e))
  {
    match e {
      case Start(l, ending) =>
        if StartEffect(w, l, ending).ok {
          StartHolds(w, l, ending);
        } else if holder :| holder in w.running {
          StartRefused(w, l, ending, holder);
        }
      case StartCrash(l, ending, k) =>
        if holder :| holder in w.running {
          StartRefused(w, l, ending, holder);
        }
      case HotUpdateCrash(p, s, k) => OnlyOneRuns(w, p);
      case _ =>
    }
  }

  lemma OnlyOneRuns(w: World, p: Process)
    requires Inv(w) && p in w.running
    ensures w.running == {p}
  {
  }

  /**
    Over every legal run from any disk, however dirty: at most one process runs, it is live, the lease names
    it and the catalog is there; and whenever one runs, any further start is refused and leaves all three
    files untouched.
   */
  lemma ExclusiveOwnership(d: Disk, live: map<nat, string>, es: seq<Event>)
    requires LegalRun(World(d, live, {}), es)
    ensures var w := Run(World(d, live, {}), es);
            && (forall p, q :: p in w.running && q in w.running ==> p == q)
            && (forall p :: p in w.running ==> IsLive(w, p) && HoldsLease(w, p) && w.disk.catalog)
            && (forall p, l, ending :: p in w.running && LegalLaunch(w, l) ==> Next(w, Start(l, ending)) == w)
  {
    var w := Run(World(d, live, {}), es);
    RunKeepsInv(World(d, live, {}), es);
    forall p, q | p in w.running && q in w.running ensures p == q {
      OnlyOneRuns(w, p);
    }
    forall p, l, ending | p in w.running && LegalLaunch(w, l) ensures Next(w, Start(l, ending)) == w {
      StartRefused(w, l, ending, p);
    }
  }

  lemma {:induction false} RunKeepsInv(w: World, es: seq<Event>)
    requires Inv(w) && LegalRun(w, es)
    ensures Inv(Run(w, es))
    decreases |es|
  {
    if es != [] {
      StepKeepsInv(w, es[0]);
      RunKeepsInv(Next(w, es[0]), es[1..]);
    }
  }

  /** A start goes through exactly when no lease can be in use: none, already reverted, or a v2 lease whose owner is gone. */
  lemma StartSucceedsIff(w: World, l: Launch)
    requires LegalLaunch(w, l)
    ensures StartEffect(w, l, Succeeds).ok <==>
            || w.disk.lease.None?
            || w.disk.config == w.disk.lease.value.original
            || (w.disk.lease.value.V2?
                && (|| w.disk.lease.value.owner.pid !in w.live
                    || (w.disk.lease.value.owner.startTime.Some? && l.probed.Some? && w.disk.lease.value.owner.startTime != l.probed)))
  {
  }

  /** What a start finds after reconcile: no lease, or the old record under its own name and the old port. */
  lemma FoundMeans(w: World, l: Launch)
    requires LegalLaunch(w, l) && StartEffect(w, l, Succeeds).ok
    ensures var d := Found(w, l);
            && d.config == w.disk.config
            && match w.disk.lease
               case None => d == w.disk
               case Some(was) =>
                 if w.disk.config == was.original then d.lease == None && !d.catalog
                 else
                   && was.V2? && d.catalog == w.disk.catalog
                   && d.lease == Some(V2(Owner(l.process.pid, l.recorded, was.owner.port), was.original, was.applied))
  {
  }

  /** A start that rolls back leaves neither lease nor catalog, and its process does not run. */
  lemma RolledBackMeans(w: World, l: Launch, n: nat)
    requires LegalLaunch(w, l) && StartEffect(w, l, Succeeds).ok
    ensures var e := StartEffect(w, l, RollsBack(n));
            var b := After(Committed(w, l), ApplyEffect(Committed(w, l), l.settings, OwnerRecord(l)), n);
            && !e.ok
            && Final(w.disk, e) == Disk(if b.lease.Some? then Restored(b.config, b.lease.value.original, b.lease.value.applied) else b.config, None, false)
  {
    hide ApplyEffect, ReconcileEffect, Restored, After;
  }

  /** Stopping restores whoever holds the lease, so a stop keeps ownership exclusive if and only if nobody else runs. */
  lemma StopIsSafeIff(w: World, p: Process)
    requires Inv(w) && IsLive(w, p)
    ensures Inv(Next(w, Stop(p))) <==> w.running <= {p}
  {
    if !(w.running <= {p}) {
      var q :| q in w.running && q != p;
      assert q in Next(w, Stop(p)).running;
    }
  }

  // ===== Starts that fail halfway =====

  /** The lease names a live process that does not run, over a config that is not the baseline. */
  predicate Stranded(w: World, p: Process) {
    IsLive(w, p) && p !in w.running && HoldsLease(w, p) && w.disk.config != w.disk.lease.value.original
  }

  /** A start that could have succeeded but fails between reconcile and apply strands its process exactly when it had to reclaim a lease. */
  lemma EarlyFailureStrandsIff(w: World, l: Launch, catalogWritten: bool)
    requires Inv(w) && LegalLaunch(w, l) && StartEffect(w, l, Succeeds).ok
    ensures Stranded(Next(w, Start(l, FailsEarly(catalogWritten))), l.process)
            <==> w.disk.lease.Some? && w.disk.config != w.disk.lease.value.original
  {
    StartHolds(w, l, Succeeds);
    var r := ReconcileEffect(w.disk, LeaseOwnerAlive(w, l.probed), OwnerRecord(l));
    var d := Final(w.disk, StartEffect(w, l, FailsEarly(catalogWritten)));
    assert d == if catalogWritten then Committed(w, l) else Found(w, l);
  }

  /** From then on every start, its own retries included, is refused without a write. */
  lemma StrandedRefuses(w: World, p: Process, l: Launch, ending: Ending)
    requires Stranded(w, p) && LegalLaunch(w, l)
    ensures StartEffect(w, l, ending) == Effect(false, [])
  {
  }

  /** The event ends process `p`, or stops on its behalf or another's. */
  predicate Releases(e: Event, p: Process) {
    match e
    case Crash(q) => q.pid == p.pid
    case StartCrash(l, _, _) => l.process.pid == p.pid
    case Stop(_) => true
    case StopCrash(_, _) => true
    case _ => false
  }

  /** And this lasts, through every legal run, until the process dies or somebody stops. */
  lemma {:induction false} StrandedUntilReleased(w: World, p: Process, es: seq<Event>)
    requires Stranded(w, p) && w.running == {} && LegalRun(w, es)
    requires forall i :: 0 <= i < |es| ==> !Releases(es[i], p)
    ensures Stranded(Run(w, es), p) && Run(w, es).running == {} && Run(w, es).disk.lease == w.disk.lease
    decreases |es|
  {
    if es != [] {
      assert !Releases(es[0], p);
      StrandedStep(w, p, es[0]);
      StrandedUntilReleased(Next(w, es[0]), p, es[1..]);
    }
  }

  lemma StrandedStep(w: World, p: Process, e: Event)
    requires Stranded(w, p) && w.running == {} && Legal(w, e) && !Releases(e, p)
    ensures var w' := Next(w, e); Stranded(w', p) && w'.running == {} && w'.disk.lease == w.disk.lease
  {
    match e {
      case Start(l, ending) => StrandedRefuses(w, p, l, ending);
      case StartCrash(l, ending, _) => StrandedRefuses(w, p, l, ending);
      case _ =>
    }
  }

  /** The process's death, or a stop, lets the next start through. */
  lemma ReleaseFreesStart(w: World, p: Process, e: Event, l: Launch)
    requires Stranded(w, p) && w.running == {} && Legal(w, e) && (e == Crash(p) || e.Stop?)
    requires LegalLaunch(Next(w, e), l)
    ensures StartEffect(Next(w, e), l, Succeeds).ok
  {
  }

  // ===== Baselines over whole runs =====

  /** Every start of the run uses this catalog path and listener. */
  predicate OneListener(es: seq<Event>, catalog: Option<string>, url: string) {
    forall i :: 0 <= i < |es| ==>
      (es[i].Start? || es[i].StartCrash? ==>
         es[i].launch.settings.catalogPath == catalog && es[i].launch.settings.proxyUrl == url)
  }

  ghost predicate PureWhileRunning(w: World, catalog: Option<string>, url: string) {
    w.running != {} ==> w.disk.lease.Some? && Pure(w.disk.lease.value.original, catalog, url)
  }

  /** From any disk, dirty or laundered: whenever a process runs, the lease's baseline is pure. */
  lemma RunningMeansPureBaseline(d: Disk, live: map<nat, string>, es: seq<Event>, catalog: Option<string>, url: string)
    requires LegalRun(World(d, live, {}), es) && OneListener(es, catalog, url)
    ensures PureWhileRunning(Run(World(d, live, {}), es), catalog, url)
  {
    RunKeepsPurity(World(d, live, {}), es, catalog, url);
  }

  lemma {:induction false} RunKeepsPurity(w: World, es: seq<Event>, catalog: Option<string>, url: string)
    requires Inv(w) && PureWhileRunning(w, catalog, url)
    requires LegalRun(w, es) && OneListener(es, catalog, url)
    ensures PureWhileRunning(Run(w, es), catalog, url)
    decreases |es|
  {
    if es != [] {
      StepKeepsInv(w, es[0]);
      StepKeepsPurity(w, es[0], catalog, url);
      RunKeepsPurity(Next(w, es[0]), es[1..], catalog, url);
    }
  }

  lemma StepKeepsPurity(w: World, e: Event, catalog: Option<string>, url: string)
    requires Inv(w) && PureWhileRunning(w, catalog, url) && Legal(w, e) && OneListener([e], catalog, url)
    ensures PureWhileRunning(Next(w, e), catalog, url)
  {
    assert [e][0] == e;
    match e {
      case Start(l, ending) =>
        if StartEffect(w, l, ending).ok {
          ApplyPurifies(Committed(w, l), l.settings, OwnerRecord(l));
        } else if holder :| holder in w.running {
          StartRefused(w, l, ending, holder);
        }
      case StartCrash(l, ending, k) =>
        if holder :| holder in w.running {
          StartRefused(w, l, ending, holder);
        }
      case HotUpdateCrash(p, s, k) => OnlyOneRuns(w, p);
      case _ =>
    }
  }

  /** Some lease is on disk in every state of the run. */
  predicate LeasedThroughout(w: World, es: seq<Event>)
    decreases |es|
  {
    w.disk.lease.Some? && (es == [] || LeasedThroughout(Next(w, es[0]), es[1..]))
  }

  /** Once pure, the baseline never changes as long as a lease stays on disk, across crashes, reclaims and edits. */
  lemma {:induction false} BaselineConstantOverRun(w: World, es: seq<Event>, catalog: Option<string>, url: string)
    requires LegalRun(w, es) && OneListener(es, catalog, url) && LeasedThroughout(w, es)
    requires Pure(w.disk.lease.value.original, catalog, url)
    ensures Run(w, es).disk.lease.Some?
    ensures Run(w, es).disk.lease.value.original == w.disk.lease.value.original
    decreases |es|
  {
    if es != [] {
      assert OneListener([es[0]], catalog, url);
      StepKeepsBaseline(w, es[0], catalog, url);
      BaselineConstantOverRun(Next(w, es[0]), es[1..], catalog, url);
    }
  }

  lemma StepKeepsBaseline(w: World, e: Event, catalog: Option<string>, url: string)
    requires Legal(w, e) && OneListener([e], catalog, url) && w.disk.lease.Some?
    requires Pure(w.disk.lease.value.original, catalog, url)
    ensures var d := Next(w, e).disk; d.lease.Some? ==> d.lease.value.original == w.disk.lease.value.original
  {
    assert [e][0] == e;
    match e {
      case Start(l, ending) => StartKeepsBaseline(w, l, ending, Final(w.disk, StartEffect(w, l, ending)));
      case StartCrash(l, ending, k) => StartKeepsBaseline(w, l, ending, After(w.disk, StartEffect(w, l, ending), k));
      case _ =>
    }
  }

  /** Any lease on this disk has baseline `o`. */
  predicate Keeps(d: Disk, o: Config) {
    d.lease.Some? ==> d.lease.value.original == o
  }

  lemma ReconcileKeeps(d: Disk, alive: bool, me: Owner, o: Config)
    requires d.lease.Some? && d.lease.value.original == o
    ensures var e := ReconcileEffect(d, alive, me);
            && (forall x :: x in e.writes ==> Keeps(x, o))
            && Keeps(Final(d, e), o) && (Final(d, e).lease.None? ==> Final(d, e).config == o)
  {
  }

  lemma ApplyKeeps(d: Disk, s: Settings, me: Owner, o: Config, n: nat)
    requires Keeps(d, o) && (d.lease.None? ==> d.config == o) && Pure(o, s.catalogPath, s.proxyUrl)
    ensures var e := ApplyEffect(d, s, me);
            (forall x :: x in e.writes ==> Keeps(x, o)) && Keeps(After(d, e, n), o)
  {
    hide Pure, AppliedOver;
  }

  lemma RestoreKeeps(d: Disk, o: Config)
    requires Keeps(d, o)
    ensures forall x :: x in RestoreEffect(d).writes ==> Keeps(x, o)
  {
  }

  lemma KeepsMeans(d: Disk, o: Config)
    ensures Keeps(d, o) <==> (d.lease.Some? ==> d.lease.value.original == o)
  {
  }

  lemma StartKeepsBaseline(w: World, l: Launch, ending: Ending, d: Disk)
    requires LegalLaunch(w, l) && w.disk.lease.Some?
    requires Pure(w.disk.lease.value.original, l.settings.catalogPath, l.settings.proxyUrl)
    requires MayLeave(w.disk, StartEffect(w, l, ending), d)
    ensures d.lease.Some? ==> d.lease.value.original == w.disk.lease.value.original
  {
    hide Pure, ReconcileEffect, ApplyEffect, RestoreEffect, After, LegalLaunch, Keeps;
    var me := OwnerRecord(l);
    var o := w.disk.lease.value.original;
    var a := ApplyEffect(Committed(w, l), l.settings, me);
    var n := if ending.RollsBack? then ending.written else 0;
    ReconcileKeeps(w.disk, LeaseOwnerAlive(w, l.probed), me, o);
    KeepsMeans(Found(w, l), o);
    KeepsMeans(Committed(w, l), o);
    ApplyKeeps(Committed(w, l), l.settings, me, o, n);
    RestoreKeeps(After(Committed(w, l), a, n), o);
    assert Keeps(d, o) by {
      KeepsMeans(w.disk, o);
    }
    KeepsMeans(d, o);
  }
}
