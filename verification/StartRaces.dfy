/**
  Starts that overlap. A start reconciles the lease, then binds its port, then writes the catalog and
  applies; other processes can take any of these steps in between. Only the port keeps two of them apart.
 */
module StartRaces {
  import opened Common
  import opened CodexConfig
  import opened ConfigLease
  import opened LeaseRuns
  import opened LeaseRecovery
  import opened LeaseLeaks

  /** `pending` have passed reconcile, `bound` also hold their port, `running` have applied and still hold it. */
  datatype Race = Race(
    disk: Disk,
    live: map<nat, string>,
    pending: map<Process, Launch>,
    bound: map<Process, Launch>,
    running: map<Process, Launch>)

  datatype Step =
    | Appear(process: Process)
    | Reconcile(launch: Launch)
    | Bind(process: Process)
    | Commit(process: Process)
    | GiveUp(process: Process)
    | Halt(process: Process)
    | Die(process: Process)

  function AsWorld(r: Race): World {
    World(r.disk, r.live, r.running.Keys)
  }

  function Holders(r: Race): map<Process, Launch> {
    r.bound + r.running
  }

  predicate PortTaken(r: Race, port: nat) {
    exists p :: p in Holders(r) && Holders(r)[p].port == port
  }

  predicate Busy(r: Race, p: Process) {
    p in r.pending || p in r.bound || p in r.running
  }

  /** A process runs one start at a time, and stops only what it runs. */
  predicate Enabled(r: Race, e: Step) {
    match e
    case Appear(p) => p.pid !in r.live
    case Reconcile(l) => LegalLaunch(AsWorld(r), l) && !Busy(r, l.process)
    case Bind(p) => p in r.pending
    case Commit(p) => p in r.bound
    case GiveUp(p) => p in r.bound
    case Halt(p) => p in r.running
    case Die(p) => IsLive(AsWorld(r), p)
  }

  function Reconciled(r: Race, l: Launch): Effect {
    ReconcileEffect(r.disk, LeaseOwnerAlive(AsWorld(r), l.probed), OwnerRecord(l))
  }

  function Overlaid(r: Race, l: Launch): Disk {
    var d := r.disk.(catalog := true);
    Final(d, ApplyEffect(d, l.settings, OwnerRecord(l)))
  }

  function Move(r: Race, e: Step): Race
    requires Enabled(r, e)
  {
    match e
    case Appear(p) => r.(live := r.live[p.pid := p.start])
    case Reconcile(l) =>
      var e := Reconciled(r, l);
      if e.ok then r.(disk := Final(r.disk, e), pending := r.pending[l.process := l]) else r
    case Bind(p) =>
      var l := r.pending[p];
      if PortTaken(r, l.port) then r.(pending := r.pending - {p})
      else r.(pending := r.pending - {p}, bound := r.bound[p := l])
    case Commit(p) => r.(disk := Overlaid(r, r.bound[p]), bound := r.bound - {p}, running := r.running[p := r.bound[p]])
    case GiveUp(p) => r.(disk := Final(r.disk, RestoreEffect(r.disk)), bound := r.bound - {p})
    case Halt(p) => r.(disk := Final(r.disk, RestoreEffect(r.disk)), running := r.running - {p})
    case Die(p) => r.(live := r.live - {p.pid}, pending := r.pending - {p}, bound := r.bound - {p}, running := r.running - {p})
  }

  predicate IsRun(r: Race, es: seq<Step>)
    decreases |es|
  {
    es == [] || (Enabled(r, es[0]) && IsRun(Move(r, es[0]), es[1..]))
  }

  function Run(r: Race, es: seq<Step>): Race
    requires IsRun(r, es)
    decreases |es|
  {
    if es == [] then r else Run(Move(r, es[0]), es[1..])
  }

  predicate Quiet(r: Race) {
    r.pending == map[] && r.bound == map[] && r.running == map[]
  }

  // ===== The port keeps starts apart =====

  ghost predicate AllLive(r: Race) {
    forall p :: Busy(r, p) ==> IsLive(AsWorld(r), p)
  }

  ghost predicate OneRole(r: Race) {
    && (forall p :: p in r.pending ==> p !in r.bound && p !in r.running)
    && (forall p :: p in r.bound ==> p !in r.running)
  }

  predicate OwnPorts(ls: map<Process, Launch>) {
    forall p, q :: p in ls && q in ls && p != q ==> ls[p].port != ls[q].port
  }

  /** Nobody holds a port twice, in two roles or without being alive. */
  ghost predicate PortsApart(r: Race) {
    AllLive(r) && OneRole(r) && OwnPorts(Holders(r))
  }

  lemma StepKeepsPortsApart(r: Race, e: Step)
    requires PortsApart(r) && Enabled(r, e)
    ensures PortsApart(Move(r, e))
  {
    StepKeepsLive(r, e);
    StepKeepsOneRole(r, e);
    HoldersAfter(r, e);
    hide Move, AllLive, OneRole, Holders, Enabled;
    if e.Bind? && !PortTaken(r, r.pending[e.process].port) {
      FreePort(r, e.process);
    }
  }

  lemma StepKeepsOneRole(r: Race, e: Step)
    requires OneRole(r) && Enabled(r, e)
    ensures OneRole(Move(r, e))
  {
    hide ReconcileEffect, ApplyEffect, RestoreEffect, Final, PortTaken, LegalLaunch;
  }

  lemma StepKeepsLive(r: Race, e: Step)
    requires AllLive(r) && Enabled(r, e)
    ensures AllLive(Move(r, e))
  {
    hide ReconcileEffect, ApplyEffect, RestoreEffect, Final;
    var r' := Move(r, e);
    forall q | Busy(r', q) ensures IsLive(AsWorld(r'), q) {
      assert Busy(r, q) || (e.Reconcile? && q == e.launch.process);
      assert IsLive(AsWorld(r), q);
    }
  }

  /** What a step does to the ports held. */
  lemma HoldersAfter(r: Race, e: Step)
    requires OneRole(r) && Enabled(r, e)
    ensures Holders(Move(r, e)) ==
            if e.Bind? && !PortTaken(r, r.pending[e.process].port) then Holders(r)[e.process := r.pending[e.process]]
            else if e.GiveUp? || e.Halt? || e.Die? then Holders(r) - {e.process}
            else Holders(r)
  {
    hide ReconcileEffect, ApplyEffect, RestoreEffect, Final, PortTaken;
  }

  lemma FreePort(r: Race, p: Process)
    requires p in r.pending && !PortTaken(r, r.pending[p].port)
    ensures forall q :: q in Holders(r) ==> Holders(r)[q].port != r.pending[p].port
  {
  }

  lemma {:induction false} RunKeepsPortsApart(r: Race, es: seq<Step>)
    requires PortsApart(r) && IsRun(r, es)
    ensures PortsApart(Run(r, es))
    decreases |es|
  {
    hide PortsApart;
    if es != [] {
      StepKeepsPortsApart(r, es[0]);
      RunKeepsPortsApart(Move(r, es[0]), es[1..]);
    }
  }

  /** Over every interleaving, two processes that run at once run on different ports. */
  lemma RunnersHaveOwnPorts(r: Race, es: seq<Step>, p: Process, q: Process)
    requires Quiet(r) && IsRun(r, es)
    requires p in Run(r, es).running && q in Run(r, es).running && p != q
    ensures Run(r, es).running[p].port != Run(r, es).running[q].port
  {
    RunKeepsPortsApart(r, es);
    var w := Run(r, es);
    assert p in Holders(w) && q in Holders(w);
  }

  // ===== When the lease names the process that runs =====

  predicate Names(r: Race, p: Process) {
    HoldsLease(AsWorld(r), p)
  }

  /** Applying never takes a lease from its owner: the starter is named if and only if it found no lease, its own, or one without an owner that needed repair. */
  lemma CommitIsNamedIff(r: Race, p: Process)
    requires p in r.bound && r.bound[p].process == p && r.bound[p].settings.catalogPath.Some?
    requires r.bound[p].recorded.Some? ==> r.bound[p].recorded.value == p.start
    ensures var s := r.bound[p].settings;
            Names(Move(r, Commit(p)), p) <==>
            || r.disk.lease.None?
            || Names(r, p)
            || (r.disk.lease.value.Legacy? && !Pure(r.disk.lease.value.original, s.catalogPath, s.proxyUrl))
  {
    hide AppliedOver, Baseline, Pure;
  }

  /** No start stands between its reconcile and its bind when another one applies. */
  predicate Prompt(r: Race, e: Step) {
    e.Commit? ==> r.pending == map[]
  }

  predicate PromptRun(r: Race, es: seq<Step>)
    requires IsRun(r, es)
    decreases |es|
  {
    es == [] || (Prompt(r, es[0]) && PromptRun(Move(r, es[0]), es[1..]))
  }

  /** Every start of the run listens on this port. */
  predicate OnePort(es: seq<Step>, port: nat) {
    forall i :: 0 <= i < |es| && es[i].Reconcile? ==> es[i].launch.port == port
  }

  /** Every launch on record is its own process's, on this port and with a true start time. */
  predicate Own(ls: map<Process, Launch>, port: nat) {
    forall p :: p in ls ==>
      && ls[p].process == p && ls[p].port == port && ls[p].settings.catalogPath.Some?
      && (ls[p].recorded.Some? ==> ls[p].recorded.value == p.start)
  }

  predicate Honest(r: Race, port: nat) {
    Own(r.pending, port) && Own(r.bound, port) && Own(r.running, port)
  }

  /** A lease on disk names everybody who is starting or running, over a config that is not the baseline; whoever runs has one. */
  ghost predicate Named(r: Race) {
    && (r.disk.lease.Some? ==> forall p :: Busy(r, p) ==> Names(r, p) && r.disk.config != r.disk.lease.value.original)
    && (r.running != map[] ==> r.disk.lease.Some? && r.disk.catalog)
  }

  ghost predicate Orderly(r: Race, port: nat) {
    PortsApart(r) && Honest(r, port) && Named(r)
  }

  lemma OnlyHolder(r: Race, port: nat, p: Process)
    requires Orderly(r, port) && p in Holders(r)
    ensures forall q :: q in Holders(r) ==> q == p
  {
    forall q | q in Holders(r) ensures q == p {
      assert Busy(r, p) && Busy(r, q);
    }
  }

  /** Whoever the lease names keeps every other start out. */
  lemma NamedKeepsOut(r: Race, p: Process, l: Launch)
    requires PortsApart(r) && Named(r) && Busy(r, p) && r.disk.lease.Some? && LegalLaunch(AsWorld(r), l)
    ensures Reconciled(r, l) == Effect(false, [])
  {
    assert IsLive(AsWorld(r), p) && Names(r, p);
  }

  lemma ReconcileKeepsNamed(r: Race, l: Launch)
    requires PortsApart(r) && Named(r) && Enabled(r, Reconcile(l))
    ensures Named(Move(r, Reconcile(l)))
  {
    var r' := Move(r, Reconcile(l));
    if r.disk.lease.Some? {
      if p :| Busy(r, p) {
        NamedKeepsOut(r, p, l);
      } else {
        assert r.running == map[] by {
          if r.running != map[] {
            var p :| p in r.running;
            assert Busy(r, p);
          }
        }
        forall p | Busy(r', p) ensures p == l.process {
          assert !Busy(r, p);
        }
      }
    }
  }

  lemma CommitKeepsNamed(r: Race, port: nat, p: Process)
    requires Orderly(r, port) && Enabled(r, Commit(p)) && r.pending == map[]
    ensures Named(Move(r, Commit(p)))
  {
    var l, r' := r.bound[p], Move(r, Commit(p));
    assert Busy(r, p) && p in Holders(r);
    OnlyHolder(r, port, p);
    CommitIsNamedIff(r, p);
    var d := r.disk.(catalog := true);
    ApplyPurifies(d, l.settings, OwnerRecord(l));
    CatalogStays(d, l.settings, OwnerRecord(l));
    hide ApplyEffect;
    forall q | Busy(r', q) ensures q == p {
      assert q != p ==> q in Holders(r);
    }
  }

  lemma CatalogStays(d: Disk, s: Settings, me: Owner)
    ensures Final(d, ApplyEffect(d, s, me)).catalog == d.catalog
  {
    hide AppliedOver, LeaseAfterApply;
  }

  lemma StepKeepsNamed(r: Race, e: Step, port: nat)
    requires Orderly(r, port) && Enabled(r, e) && Prompt(r, e)
    ensures Named(Move(r, e))
  {
    hide ReconcileEffect, ApplyEffect;
    var r' := Move(r, e);
    match e {
      case Reconcile(l) => ReconcileKeepsNamed(r, l);
      case Commit(p) => CommitKeepsNamed(r, port, p);
      case GiveUp(p) =>
        assert p in Holders(r);
        OnlyHolder(r, port, p);
        assert forall q :: q in r.running ==> q in Holders(r);
      case Halt(p) =>
        assert p in Holders(r);
        OnlyHolder(r, port, p);
        assert forall q :: q in r.running ==> q in Holders(r);
      case _ => assert forall q :: Busy(r', q) ==> Busy(r, q) && (Names(r', q) <==> Names(r, q));
    }
  }

  lemma OwnWithout(ls: map<Process, Launch>, p: Process, port: nat)
    requires Own(ls, port)
    ensures Own(ls - {p}, port)
  {
  }

  lemma OwnWith(ls: map<Process, Launch>, p: Process, l: Launch, port: nat)
    requires Own(ls, port) && Own(map[p := l], port)
    ensures Own(ls[p := l], port)
  {
    assert map[p := l][p] == l;
  }

  lemma OwnOne(ls: map<Process, Launch>, p: Process, port: nat)
    requires Own(ls, port) && p in ls
    ensures Own(map[p := ls[p]], port)
  {
  }

  lemma StepKeepsHonest(r: Race, e: Step, port: nat)
    requires Honest(r, port) && Enabled(r, e) && (e.Reconcile? ==> e.launch.port == port)
    ensures Honest(Move(r, e), port)
  {
    if e.Reconcile? {
      assert Own(map[e.launch.process := e.launch], port);
    }
    hide Own, ReconcileEffect, ApplyEffect, RestoreEffect, Final, PortTaken, LegalLaunch;
    match e {
      case Appear(_) =>
      case Reconcile(l) => OwnWith(r.pending, l.process, l, port);
      case Bind(p) =>
        OwnOne(r.pending, p, port);
        OwnWith(r.bound, p, r.pending[p], port);
        OwnWithout(r.pending, p, port);
      case Commit(p) =>
        OwnOne(r.bound, p, port);
        OwnWith(r.running, p, r.bound[p], port);
        OwnWithout(r.bound, p, port);
      case _ =>
        OwnWithout(r.pending, e.process, port);
        OwnWithout(r.bound, e.process, port);
        OwnWithout(r.running, e.process, port);
    }
  }

  lemma {:induction false} RunKeepsOrderly(r: Race, es: seq<Step>, port: nat)
    requires Orderly(r, port) && IsRun(r, es) && PromptRun(r, es) && OnePort(es, port)
    ensures Orderly(Run(r, es), port)
    decreases |es|
  {
    if es != [] {
      StepKeepsPortsApart(r, es[0]);
      StepKeepsHonest(r, es[0], port);
      StepKeepsNamed(r, es[0], port);
      hide PortsApart, Honest, Named;
      RunKeepsOrderly(Move(r, es[0]), es[1..], port);
    }
  }

  /**
    Over every interleaving of starts on one port in which no start stands between its reconcile and its bind
    while another one applies: at most one process runs, it is live, the lease names it, and the config is diverted.
   */
  lemma PromptStartsAreExclusive(r: Race, es: seq<Step>, port: nat)
    requires Quiet(r) && IsRun(r, es) && PromptRun(r, es) && OnePort(es, port)
    ensures var w := Run(r, es);
            && (forall p, q :: p in w.running && q in w.running ==> p == q)
            && (forall p :: p in w.running ==>
                 IsLive(AsWorld(w), p) && Names(w, p) && w.disk.catalog && w.disk.config != w.disk.lease.value.original)
  {
    RunKeepsOrderly(r, es, port);
    var w := Run(r, es);
    forall p | p in w.running
      ensures IsLive(AsWorld(w), p) && Names(w, p) && w.disk.catalog && w.disk.config != w.disk.lease.value.original
      ensures forall q :: q in w.running ==> p == q
    {
      assert Busy(w, p) && p in Holders(w);
      OnlyHolder(w, port, p);
      assert forall q :: q in w.running ==> q in Holders(w);
    }
  }

  // ===== Runs that go wrong =====

  function On(p: Process, s: Settings, port: nat): Launch {
    Go(p, s).(port := port)
  }

  /** Both processes have passed reconcile over an empty config. */
  function Both(s: Settings, a: nat, b: nat): Race {
    Race(Disk(PLAIN, None, false), map[1 := "first", 2 := "second"], map[FIRST := On(FIRST, s, a), SECOND := On(SECOND, s, b)], map[], map[])
  }

  lemma Cons(r: Race, e: Step, es: seq<Step>)
    requires Enabled(r, e) && IsRun(Move(r, e), es)
    ensures IsRun(r, [e] + es) && Run(r, [e] + es) == Run(Move(r, e), es)
  {
    assert ([e] + es)[1..] == es;
  }

  function Idle(): Race {
    Race(Disk(PLAIN, None, false), map[1 := "first", 2 := "second"], map[], map[], map[])
  }

  /** Without a lease both starts pass reconcile. */
  lemma BothReconcile(s: Settings, a: nat, b: nat, es: seq<Step>)
    requires s.catalogPath.Some? && IsRun(Both(s, a, b), es)
    ensures var all := [Reconcile(On(FIRST, s, a))] + ([Reconcile(On(SECOND, s, b))] + es);
            Quiet(Idle()) && IsRun(Idle(), all) && Run(Idle(), all) == Run(Both(s, a, b), es)
  {
    var one := Idle().(pending := map[FIRST := On(FIRST, s, a)]);
    assert Move(Idle(), Reconcile(On(FIRST, s, a))) == one;
    assert Move(one, Reconcile(On(SECOND, s, b))) == Both(s, a, b);
    hide Move, IsRun, Run;
    Cons(one, Reconcile(On(SECOND, s, b)), es);
    Cons(Idle(), Reconcile(On(FIRST, s, a)), [Reconcile(On(SECOND, s, b))] + es);
  }

  function TwoBinds(): seq<Step> {
    [Bind(FIRST)] + ([Bind(SECOND)] + ([Commit(FIRST)] + ([Commit(SECOND)] + [])))
  }

  /** On two different ports both starts go through, and two processes run over one config. */
  lemma TwoPortsTwoRunners(s: Settings, a: nat, b: nat)
    requires s.catalogPath.Some? && a != b
    ensures var all := [Reconcile(On(FIRST, s, a))] + ([Reconcile(On(SECOND, s, b))] + TwoBinds());
            && Quiet(Idle()) && IsRun(Idle(), all)
            && Run(Idle(), all).running == map[FIRST := On(FIRST, s, a), SECOND := On(SECOND, s, b)]
  {
    var f, g := On(FIRST, s, a), On(SECOND, s, b);
    var r1 := Both(s, a, b).(pending := map[SECOND := g], bound := map[FIRST := f]);
    var r2 := Both(s, a, b).(pending := map[], bound := map[FIRST := f, SECOND := g]);
    var r3 := r2.(disk := Overlaid(r2, f), bound := map[SECOND := g], running := map[FIRST := f]);
    var r4 := r3.(disk := Overlaid(r3, g), bound := map[], running := map[FIRST := f, SECOND := g]);
    hide Overlaid;
    assert Move(Both(s, a, b), Bind(FIRST)) == r1 && Move(r1, Bind(SECOND)) == r2;
    assert Move(r2, Commit(FIRST)) == r3 && Move(r3, Commit(SECOND)) == r4;
    assert IsRun(r4, []) && Run(r4, []) == r4;
    hide Move, IsRun, Run;
    Cons(r3, Commit(SECOND), []);
    Cons(r2, Commit(FIRST), [Commit(SECOND)] + []);
    Cons(r1, Bind(SECOND), [Commit(FIRST)] + ([Commit(SECOND)] + []));
    Cons(Both(s, a, b), Bind(FIRST), [Bind(SECOND)] + ([Commit(FIRST)] + ([Commit(SECOND)] + [])));
    BothReconcile(s, a, b, TwoBinds());
  }

  /** Two processes run at once on these ports. */
  ghost predicate Together(r: Race, es: seq<Step>, p: Process, q: Process, a: nat, b: nat) {
    && Quiet(r) && IsRun(r, es) && p != q
    && p in Run(r, es).running && Run(r, es).running[p].port == a
    && q in Run(r, es).running && Run(r, es).running[q].port == b
  }

  /** Some interleaving makes two processes run at once, on ports `a` and `b`, if and only if the ports differ. */
  lemma TwoRunTogetherIff(a: nat, b: nat)
    ensures (exists r, es, p, q :: Together(r, es, p, q, a, b)) <==> a != b
  {
    if a == b {
      forall r, es, p, q ensures !Together(r, es, p, q, a, b) {
        if Together(r, es, p, q, a, b) {
          RunnersHaveOwnPorts(r, es, p, q);
        }
      }
    } else {
      var s := Setup(Inherit, "key");
      TwoPortsTwoRunners(s, a, b);
      var all := [Reconcile(On(FIRST, s, a))] + ([Reconcile(On(SECOND, s, b))] + TwoBinds());
      assert Together(Idle(), all, FIRST, SECOND, a, b);
    }
  }

  function Overtaken(): seq<Step> {
    [Bind(SECOND)] + ([Commit(SECOND)] + ([Die(SECOND)] + ([Bind(FIRST)] + ([Commit(FIRST)] + []))))
  }

  /** On one port a start that is overtaken between its reconcile and its bind runs under the lease of a dead process. */
  lemma OvertakenStartIsUnnamed(s: Settings, port: nat)
    requires s.catalogPath.Some?
    ensures var all := [Reconcile(On(FIRST, s, port))] + ([Reconcile(On(SECOND, s, port))] + Overtaken());
            && Quiet(Idle()) && IsRun(Idle(), all)
            && FIRST in Run(Idle(), all).running && !Names(Run(Idle(), all), FIRST)
  {
    var r1 := Both(s, port, port).(pending := map[FIRST := On(FIRST, s, port)], bound := map[SECOND := On(SECOND, s, port)]);
    var r3 := Deserted(s, port);
    SecondComesAndGoes(s, port);
    FirstComesLate(s, port);
    hide Overlaid, Move, Run, IsRun, Names;
    Cons(Move(r1, Commit(SECOND)), Die(SECOND), [Bind(FIRST)] + ([Commit(FIRST)] + []));
    Cons(r1, Commit(SECOND), [Die(SECOND)] + ([Bind(FIRST)] + ([Commit(FIRST)] + [])));
    Cons(Both(s, port, port), Bind(SECOND), [Commit(SECOND)] + ([Die(SECOND)] + ([Bind(FIRST)] + ([Commit(FIRST)] + []))));
    BothReconcile(s, port, port, Overtaken());
  }

  /** The second process has applied and died, the first one still stands before its bind. */
  function Deserted(s: Settings, port: nat): Race {
    var r1 := Both(s, port, port).(pending := map[FIRST := On(FIRST, s, port)], bound := map[SECOND := On(SECOND, s, port)]);
    Race(Overlaid(r1, On(SECOND, s, port)), map[1 := "first"], map[FIRST := On(FIRST, s, port)], map[], map[])
  }

  lemma SecondComesAndGoes(s: Settings, port: nat)
    ensures var both := Both(s, port, port);
            var r1 := both.(pending := map[FIRST := On(FIRST, s, port)], bound := map[SECOND := On(SECOND, s, port)]);
            && Enabled(both, Bind(SECOND)) && Move(both, Bind(SECOND)) == r1
            && Enabled(r1, Commit(SECOND)) && Enabled(Move(r1, Commit(SECOND)), Die(SECOND))
            && Move(Move(r1, Commit(SECOND)), Die(SECOND)) == Deserted(s, port)
  {
    hide Overlaid;
  }

  lemma FirstComesLate(s: Settings, port: nat)
    requires s.catalogPath.Some?
    ensures var r3 := Deserted(s, port);
            var es := [Bind(FIRST)] + ([Commit(FIRST)] + []);
            IsRun(r3, es) && FIRST in Run(r3, es).running && !Names(Run(r3, es), FIRST)
  {
    var r3, l := Deserted(s, port), On(FIRST, s, port);
    var r1 := Both(s, port, port).(pending := map[FIRST := l], bound := map[SECOND := On(SECOND, s, port)]);
    var r4 := r3.(pending := map[], bound := map[FIRST := l]);
    SecondIsNamed(r1, On(SECOND, s, port));
    CommitIsNamedIff(r4, FIRST);
    hide Overlaid;
    assert Move(r3, Bind(FIRST)) == r4 && FIRST in Move(r4, Commit(FIRST)).running;
    assert IsRun(Move(r4, Commit(FIRST)), []) && Run(Move(r4, Commit(FIRST)), []) == Move(r4, Commit(FIRST));
    assert !Names(r4, FIRST);
    hide Move, IsRun, Run, Names;
    Cons(r4, Commit(FIRST), []);
    Cons(r3, Bind(FIRST), [Commit(FIRST)] + []);
  }

  lemma SecondIsNamed(r: Race, l: Launch)
    requires r.disk.lease.None? && l.settings.catalogPath.Some? && l.process == SECOND
    ensures var d := Overlaid(r, l); d.lease.Some? && d.lease.value.V2? && d.lease.value.owner.pid == 2
  {
    FirstApplyWrites(r.disk.(catalog := true), l.settings, OwnerRecord(l));
    hide ApplyEffect, Fresh, BaseOf;
  }
}
