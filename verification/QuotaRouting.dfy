/**
  Choosing an account for an Official request from the quota pool. Token validation, quota queries and the
  smart router are inputs; the loop that consumes batched reads, excludes members, falls back, retries and
  migrates a running turn is the model.
 */
module QuotaRouting {
  import opened Common
  import opened AccountManager
  import opened QuotaHeadroom

  datatype QuotaReply = Windows(windows: seq<Window>) | Unauthorized | Unavailable

  /** One member's credential check and, if it passed, its first quota query. */
  datatype Read = Read(authenticated: bool, quota: QuotaReply)

  datatype Candidate = Candidate(accountId: AccountId, observation: Option<Observation>)

  datatype Choice = Choice(index: nat, admission: seq<bool>)

  /** The socket's previous account: `account` decides `is_account`. */
  datatype Affinity = Affinity(account: AccountId -> bool, turnInProgress: bool, quotaExhausted: bool)

  /** What one turn of the migration loop finds: whether the pool settings moved, and whether the candidate has a valid credential. */
  datatype Turn = Turn(settingsChanged: bool, authenticated: bool)

  datatype Env = Env(
    now: nat,
    hash: AccountId -> nat,
    exhausted: map<nat, nat>,
    affinity: Option<Affinity>,
    /** The known accounts, in the account table's iteration order. */
    accounts: seq<AccountId>,
    /** Reads issued up front in Balanced mode, by member index. */
    batch: nat -> Read,
    /** Reads made one by one in Rank mode, by position in the routing order. */
    direct: nat -> Read,
    /** By position: the second quota reply after a refresh, none if the refresh fails. */
    retry: nat -> Option<QuotaReply>,
    router: seq<Candidate> -> Choice,
    cached: AccountId -> Option<seq<Window>>,
    turns: nat -> Turn,
    /** The one comparison with the current settings before the pool commits to an account. */
    settingsChanged: bool,
    manual: Option<AccountId>,
    /** The validation of the one account a call settles on outside the loops: the manual or the running one. */
    authenticates: AccountId -> bool)

  /** `Nothing` is success without an account, `Refused` an error. */
  datatype Route = Chosen(account: AccountId) | Nothing | Refused

  ghost predicate RouterInRange(env: Env) {
    forall cs: seq<Candidate> :: cs != [] ==> env.router(cs).index < |cs|
  }

  predicate Exhausted(env: Env, id: AccountId) {
    env.hash(id) in env.exhausted && env.exhausted[env.hash(id)] > env.now
  }

  predicate AffinityExhausted(env: Env, id: AccountId) {
    env.affinity.Some? && !env.affinity.value.turnInProgress && env.affinity.value.quotaExhausted && env.affinity.value.account(id)
  }

  predicate PausedInPool(ms: seq<Member>, id: AccountId) {
    exists i :: 0 <= i < |ms| && ms[i].accountId == id && ms[i].inPool && ms[i].paused
  }

  // ----- What one member contributes -----

  datatype Verdict =
    | Skipped                            // excluded, or no valid credential
    | Spent                              // a valid credential without usable quota
    | Usable(observation: Observation)

  function Judge(windows: seq<Window>, floor: nat, now: nat): Verdict {
    var o := Observe(windows, floor, now);
    if o.Some? && o.value.usable then Usable(o.value) else Spent
  }

  function AfterQuery(env: Env, m: Member, reply: QuotaReply, retry: Option<QuotaReply>): Verdict {
    match reply
    case Windows(ws) => Judge(ws, m.weeklyFloor, env.now)
    case Unauthorized =>
      if retry.Some? && retry.value.Windows? then Judge(retry.value.windows, m.weeklyFloor, env.now) else Spent
    case Unavailable => Spent
  }

  predicate Excluded(env: Env, m: Member) {
    !m.inPool || Exhausted(env, m.accountId) || AffinityExhausted(env, m.accountId) || m.paused
  }

  /** A member together with the answers that belong to it. */
  datatype Row = Row(member: Member, read: Read, retry: Option<QuotaReply>)

  function Examine(env: Env, row: Row): Verdict {
    if Excluded(env, row.member) || !row.read.authenticated then Skipped
    else AfterQuery(env, row.member, row.read.quota, row.retry)
  }

  function Matching(ms: seq<Member>, affinity: AccountId -> bool, wanted: bool): seq<Member>
    decreases |ms|
  {
    if ms == [] then []
    else
      var front, m := ms[..|ms| - 1], ms[|ms| - 1];
      if affinity(m.accountId) == wanted then Matching(front, affinity, wanted) + [m] else Matching(front, affinity, wanted)
  }

  /** Rank's order: the affinity account first, otherwise as configured. */
  function RankOrder(env: Env, ms: seq<Member>): seq<Member> {
    if env.affinity.None? then ms
    else Matching(ms, env.affinity.value.account, true) + Matching(ms, env.affinity.value.account, false)
  }

  /** The members in routing order, each with its own answers. */
  function Rows(env: Env, pool: Pool): seq<Row> {
    if pool.strategy == Balanced
    then seq(|pool.members|, i requires 0 <= i < |pool.members| => Row(pool.members[i], env.batch(i), env.retry(i)))
    else
      var order := RankOrder(env, pool.members);
      seq(|order|, i requires 0 <= i < |order| => Row(order[i], env.direct(i), env.retry(i)))
  }

  // ----- What the whole pass decides -----

  datatype Pass = Pass(fallback: Option<AccountId>, eligible: seq<Candidate>)

  function PassStep(env: Env, p: Pass, row: Row): Pass {
    match Examine(env, row)
    case Skipped => p
    case Spent => p.(fallback := OrElse(p.fallback, Some(row.member.accountId)))
    case Usable(o) =>
      Pass(OrElse(p.fallback, Some(row.member.accountId)), p.eligible + [Candidate(row.member.accountId, Some(o))])
  }

  function PassOver(env: Env, rows: seq<Row>): Pass
    decreases |rows|
  {
    if rows == [] then Pass(None, []) else PassStep(env, PassOver(env, rows[..|rows| - 1]), rows[|rows| - 1])
  }

  /** The manual selection unless it is exhausted or paused in the pool, else the first valid credential met. */
  function FallbackAccount(env: Env, pool: Pool, first: Option<AccountId>): Option<AccountId> {
    if env.manual.Some? && !Exhausted(env, env.manual.value) && !PausedInPool(pool.members, env.manual.value)
       && env.authenticates(env.manual.value)
    then env.manual else first
  }

  function FallbackRoute(env: Env, pool: Pool, first: Option<AccountId>): Route {
    var account := FallbackAccount(env, pool, first);
    if account.None? || env.settingsChanged then Refused else Chosen(account.value)
  }

  function RouterRoute(env: Env, eligible: seq<Candidate>, requireFit: bool): Route
    requires eligible != [] && env.router(eligible).index < |eligible|
  {
    var c := env.router(eligible);
    if env.settingsChanged then Refused
    else if requireFit && !(c.index < |c.admission| && c.admission[c.index]) then Nothing
    else Chosen(eligible[c.index].accountId)
  }

  /** The routing decision for an enabled, non-empty pool with no turn in progress. */
  ghost function PoolRoute(env: Env, pool: Pool, requireFit: bool): Route
    requires RouterInRange(env)
  {
    var p := PassOver(env, Rows(env, pool));
    if p.eligible != [] then
      if pool.strategy == Rank && !requireFit
      then (if env.settingsChanged then Refused else Chosen(p.eligible[0].accountId))
      else RouterRoute(env, p.eligible, requireFit)
    else if requireFit then Nothing
    else FallbackRoute(env, pool, p.fallback)
  }

  // ===== Batched reads stay aligned =====

  /** The batch is issued for exactly these rows, in order. */
  function Queue(rows: seq<Row>): seq<Read>
    decreases |rows|
  {
    if rows == [] then []
    else if rows[0].member.inPool && !rows[0].member.paused then [rows[0].read] + Queue(rows[1..]) else Queue(rows[1..])
  }

  lemma {:induction false} QueueSnoc(rows: seq<Row>, row: Row)
    ensures Queue(rows + [row]) == Queue(rows) + if row.member.inPool && !row.member.paused then [row.read] else []
    decreases |rows|
  {
    if rows == [] {
      assert [] + [row] == [row];
      assert [row][1..] == [];
    } else {
      assert (rows + [row])[1..] == rows[1..] + [row];
      QueueSnoc(rows[1..], row);
    }
  }

  /** Issues the concurrent reads for the members that may be asked. */
  method IssueBatch(env: Env, ms: seq<Member>) returns (issued: seq<Read>)
    ensures issued == Queue(Rows(env, Pool(true, Balanced, ms)))
  {
    issued := [];
    ghost var rows := Rows(env, Pool(true, Balanced, ms));
    for i := 0 to |ms|
      invariant issued == Queue(rows[..i])
    {
      assert rows[..i + 1] == rows[..i] + [rows[i]];
      QueueSnoc(rows[..i], rows[i]);
      if ms[i].inPool && !ms[i].paused {
        issued := issued + [env.batch(i)];
      }
    }
    assert rows[..|ms|] == rows;
  }

  /** A read the loop consumed, and the member it consumed it for. */
  datatype Taken = Taken(index: nat, read: Read)

  /**
    One pass of the selection loop over a member: the exclusions, and the read taken from the front of the
    queue. `later` are the rows still to come; whatever is skipped, their reads stay at the front.
   */
  method ExamineNext(env: Env, strategy: Strategy, m: Member, at: nat, queue: seq<Read>, ghost row: Row, ghost later: seq<Row>)
    returns (verdict: Verdict, used: Option<Read>, rest: seq<Read>)
    requires row.member == m && row.retry == env.retry(at)
    requires strategy == Balanced ==> queue == (if m.inPool && !m.paused then [row.read] else []) + Queue(later)
    requires strategy == Rank ==> queue == [] && row.read == env.direct(at)
    ensures verdict == Examine(env, row)
    ensures used.Some? ==> used.value == row.read
    ensures rest == if strategy == Balanced then Queue(later) else []
  {
    rest := queue;
    if !m.inPool {
      return Skipped, None, rest;
    }
    if Exhausted(env, m.accountId) || AffinityExhausted(env, m.accountId) {
      if strategy == Balanced && !m.paused {
        rest := rest[1..];
      }
      return Skipped, None, rest;
    }
    if m.paused {
      return Skipped, None, rest;
    }
    var read := env.direct(at);
    if rest != [] {
      read := rest[0];
      rest := rest[1..];
    }
    return if read.authenticated then AfterQuery(env, m, read.quota, env.retry(at)) else Skipped, Some(read), rest;
  }

  /**
    The selection loop. Reads are consumed positionally; still every one lands on the member it was
    issued for, so the decision is the one that gives each member its own read.
   */
  method RouteThroughPool(env: Env, pool: Pool, requireFit: bool) returns (route: Route, taken: seq<Taken>)
    requires RouterInRange(env)
    ensures route == PoolRoute(env, pool, requireFit)
    ensures pool.strategy == Balanced ==> forall t :: t in taken ==> t.index < |pool.members| && t.read == env.batch(t.index)
  {
    hide PassOver, Examine, Queue, FallbackRoute, RouterRoute, Rows, RankOrder;
    taken := [];
    var queue := [];
    var order := pool.members;
    ghost var rows := Rows(env, pool);
    if pool.strategy == Balanced {
      queue := IssueBatch(env, pool.members);
      BalancedRows(env, pool);
    } else {
      order := RankOrder(env, pool.members);
    }
    var fallback: Option<AccountId> := None;
    var eligible: seq<Candidate> := [];
    RowsAreOrdered(env, pool);
    for i := 0 to |order|
      invariant |rows| == |order| && forall k :: 0 <= k < |order| ==> rows[k].member == order[k] && rows[k].retry == env.retry(k)
      invariant pool.strategy == Rank ==> forall k :: 0 <= k < |order| ==> rows[k].read == env.direct(k)
      invariant queue == if pool.strategy == Balanced then Queue(rows[i..]) else []
      invariant Pass(fallback, eligible) == PassOver(env, rows[..i])
      invariant pool.strategy == Rank && !requireFit ==> eligible == []
      invariant forall t :: t in taken ==> t.index < |rows| && t.read == rows[t.index].read
    {
      PassSnoc(env, rows, i);
      QueueStep(rows, i);
      var verdict, used;
      verdict, used, queue := ExamineNext(env, pool.strategy, order[i], i, queue, rows[i], rows[i + 1..]);
      if used.Some? {
        taken := taken + [Taken(i, used.value)];
      }
      if !verdict.Skipped? && fallback.None? {
        fallback := Some(order[i].accountId);
      }
      if verdict.Usable? {
        if pool.strategy == Rank && !requireFit {
          FirstEligible(env, rows, i);
          route := if env.settingsChanged then Refused else Chosen(order[i].accountId);
          return;
        }
        eligible := eligible + [Candidate(order[i].accountId, Some(verdict.observation))];
      }
    }
    assert rows[..|order|] == rows;
    if eligible != [] {
      route := RouterRoute(env, eligible, requireFit);
    } else if requireFit {
      route := Nothing;
    } else {
      route := FallbackRoute(env, pool, fallback);
    }
  }

  /** The rows follow the routing order, each with the answers for its position. */
  lemma RowsAreOrdered(env: Env, pool: Pool)
    ensures var order := if pool.strategy == Balanced then pool.members else RankOrder(env, pool.members);
            var rows := Rows(env, pool);
            && |rows| == |order| && rows[0..] == rows && PassOver(env, rows[..0]) == Pass(None, [])
            && (forall k :: 0 <= k < |order| ==> rows[k].member == order[k] && rows[k].retry == env.retry(k))
            && (forall k :: 0 <= k < |order| ==> rows[k].read == if pool.strategy == Balanced then env.batch(k) else env.direct(k))
  {
  }

  lemma BalancedRows(env: Env, pool: Pool)
    requires pool.strategy == Balanced
    ensures Rows(env, Pool(true, Balanced, pool.members)) == Rows(env, pool)
    ensures Rows(env, pool)[0..] == Rows(env, pool)
  {
  }

  lemma QueueStep(rows: seq<Row>, i: nat)
    requires i < |rows|
    ensures Queue(rows[i..]) ==
            (if rows[i].member.inPool && !rows[i].member.paused then [rows[i].read] else []) + Queue(rows[i + 1..])
  {
  }

  lemma PassSnoc(env: Env, rows: seq<Row>, i: nat)
    requires i < |rows|
    ensures PassOver(env, rows[..i + 1]) == PassStep(env, PassOver(env, rows[..i]), rows[i])
  {
    assert rows[..i + 1][..i] == rows[..i];
  }

  /** The first eligible candidate never changes once met. */
  lemma {:induction false} EligibleGrows(env: Env, rows: seq<Row>, i: nat)
    requires i <= |rows|
    ensures PassOver(env, rows[..i]).eligible <= PassOver(env, rows).eligible
    decreases |rows| - i
  {
    if i < |rows| {
      PassSnoc(env, rows, i);
      EligibleGrows(env, rows, i + 1);
    } else {
      assert rows[..i] == rows;
    }
  }

  lemma FirstEligible(env: Env, rows: seq<Row>, i: nat)
    requires i < |rows| && PassOver(env, rows[..i]).eligible == []
    requires Examine(env, rows[i]).Usable?
    ensures PassOver(env, rows).eligible != [] && PassOver(env, rows).eligible[0].accountId == rows[i].member.accountId
  {
    PassSnoc(env, rows, i);
    EligibleGrows(env, rows, i + 1);
  }

  // ===== Exclusion and rank order =====

  /** What one pass over the rows leaves: eligible candidates and a fallback, each from a row not excluded. */
  ghost predicate PassMeans(env: Env, rows: seq<Row>, p: Pass) {
    && (forall c :: c in p.eligible ==> exists i :: 0 <= i < |rows| && IsEligible(env, rows[i], c))
    && (p.fallback.Some? ==> exists i :: 0 <= i < |rows| && !Excluded(env, rows[i].member) && rows[i].member.accountId == p.fallback.value)
    && (p.eligible == [] <==> forall i :: 0 <= i < |rows| ==> !Examine(env, rows[i]).Usable?)
  }

  lemma PassStepMeaning(env: Env, front: seq<Row>, last: Row, p: Pass)
    requires PassMeans(env, front, p)
    ensures PassMeans(env, front + [last], PassStep(env, p, last))
  {
    var rows, p' := front + [last], PassStep(env, p, last);
    var verdict := Examine(env, last);
    assert rows[|front|] == last && forall i :: 0 <= i < |front| ==> rows[i] == front[i];
    assert !verdict.Skipped? ==> !Excluded(env, last.member);
    hide Examine, Excluded;
    forall c | c in p'.eligible ensures exists i :: 0 <= i < |rows| && IsEligible(env, rows[i], c) {
      if c in p.eligible {
        var i :| 0 <= i < |front| && IsEligible(env, front[i], c);
        assert IsEligible(env, rows[i], c);
      } else {
        assert IsEligible(env, rows[|front|], c);
      }
    }
    if p'.fallback.Some? {
      if p.fallback.Some? {
        var i :| 0 <= i < |front| && !Excluded(env, front[i].member) && front[i].member.accountId == p.fallback.value;
        assert rows[i] == front[i];
      } else {
        assert rows[|front|].member.accountId == p'.fallback.value;
      }
    }
  }

  lemma {:induction false} PassMeaning(env: Env, rows: seq<Row>)
    ensures PassMeans(env, rows, PassOver(env, rows))
    decreases |rows|
  {
    if rows != [] {
      var front, last := rows[..|rows| - 1], rows[|rows| - 1];
      PassMeaning(env, front);
      PassStepMeaning(env, front, last, PassOver(env, front));
      assert rows == front + [last];
    }
  }

  /** The pass's own fallback is the first member met with a valid credential, whatever its quota; none if there is none. */
  lemma {:induction false} FallbackIsFirstMet(env: Env, rows: seq<Row>)
    ensures var f := PassOver(env, rows).fallback;
            && (f.None? <==> forall i :: 0 <= i < |rows| ==> Examine(env, rows[i]).Skipped?)
            && (f.Some? ==> exists i :: 0 <= i < |rows| && IsFirstMet(env, rows, i) && rows[i].member.accountId == f.value)
    decreases |rows|
  {
    if rows != [] {
      hide Examine;
      var front, last := rows[..|rows| - 1], rows[|rows| - 1];
      FallbackIsFirstMet(env, front);
      assert forall i :: 0 <= i < |front| ==> rows[i] == front[i];
      if PassOver(env, front).fallback.Some? {
        var i :| 0 <= i < |front| && IsFirstMet(env, front, i) && front[i].member.accountId == PassOver(env, front).fallback.value;
        assert IsFirstMet(env, rows, i);
      } else if !Examine(env, last).Skipped? {
        assert IsFirstMet(env, rows, |front|);
      }
    }
  }

  ghost predicate IsFirstMet(env: Env, rows: seq<Row>, i: nat)
    requires i < |rows|
  {
    && !Examine(env, rows[i]).Skipped?
    && (forall j :: 0 <= j < i ==> Examine(env, rows[j]).Skipped?)
  }

  ghost predicate IsEligible(env: Env, row: Row, c: Candidate) {
    && !Excluded(env, row.member)
    && Examine(env, row).Usable?
    && c == Candidate(row.member.accountId, Some(Examine(env, row).observation))
  }

  lemma RowsAreMembers(env: Env, pool: Pool, i: nat)
    requires i < |Rows(env, pool)|
    ensures Rows(env, pool)[i].member in pool.members
  {
    if pool.strategy == Rank && env.affinity.Some? {
      MatchingRows(pool.members, env.affinity.value.account, true);
      MatchingRows(pool.members, env.affinity.value.account, false);
    }
  }

  /** Stable: a filtered list keeps exactly the matching members, in their order. */
  lemma {:induction false} MatchingRows(ms: seq<Member>, affinity: AccountId -> bool, wanted: bool)
    ensures forall m :: m in Matching(ms, affinity, wanted) <==> m in ms && affinity(m.accountId) == wanted
    ensures multiset(Matching(ms, affinity, true)) + multiset(Matching(ms, affinity, false)) == multiset(ms)
    decreases |ms|
  {
    if ms != [] {
      MatchingRows(ms[..|ms| - 1], affinity, wanted);
      assert ms == ms[..|ms| - 1] + [ms[|ms| - 1]];
    }
  }

  /** Where each row of a filtered list stood in the original one. */
  lemma {:induction false} MatchingIndices(ms: seq<Member>, affinity: AccountId -> bool, wanted: bool) returns (at: seq<nat>)
    ensures |at| == |Matching(ms, affinity, wanted)|
    ensures forall k :: 0 <= k < |at| ==> at[k] < |ms| && ms[at[k]] == Matching(ms, affinity, wanted)[k]
    ensures forall k, l :: 0 <= k < l < |at| ==> at[k] < at[l]
    decreases |ms|
  {
    at := [];
    if ms != [] {
      at := MatchingIndices(ms[..|ms| - 1], affinity, wanted);
      if affinity(ms[|ms| - 1].accountId) == wanted {
        at := at + [|ms| - 1];
      }
    }
  }

  /** `x` stands before `y` in the list. */
  ghost predicate Precedes(ms: seq<Member>, x: Member, y: Member) {
    exists i, j :: 0 <= i < j < |ms| && ms[i] == x && ms[j] == y
  }

  /**
    Rank's order is a permutation of the members in which the affinity account's rows come first, and it is
    stable: two rows on the same side of that line keep the order they were configured in.
   */
  lemma RankOrderIsStable(env: Env, ms: seq<Member>)
    requires env.affinity.Some?
    ensures var r := RankOrder(env, ms);
            var same := env.affinity.value.account;
            && multiset(r) == multiset(ms)
            && (forall i, j :: 0 <= i < j < |r| && same(r[j].accountId) ==> same(r[i].accountId))
            && (forall i, j :: 0 <= i < j < |r| && same(r[i].accountId) == same(r[j].accountId) ==> Precedes(ms, r[i], r[j]))
  {
    var same := env.affinity.value.account;
    var r := RankOrder(env, ms);
    MatchingRows(ms, same, true);
    MatchingRows(ms, same, false);
    var yes, no := Matching(ms, same, true), Matching(ms, same, false);
    forall k | 0 <= k < |no| ensures !same(no[k].accountId) { assert no[k] in no; }
    forall k | 0 <= k < |yes| ensures same(yes[k].accountId) { assert yes[k] in yes; }
    var atYes := MatchingIndices(ms, same, true);
    var atNo := MatchingIndices(ms, same, false);
    forall i, j | 0 <= i < j < |r| && same(r[i].accountId) == same(r[j].accountId) ensures Precedes(ms, r[i], r[j]) {
      if j < |yes| {
        assert atYes[i] < atYes[j];
      } else {
        assert i >= |yes| && r[i] == no[i - |yes|] && r[j] == no[j - |yes|];
        assert atNo[i - |yes|] < atNo[j - |yes|];
      }
    }
  }

  /** Some row of the account is paused in the pool while another of its rows is in the pool and not paused. */
  predicate MixedPause(ms: seq<Member>, id: AccountId) {
    && PausedInPool(ms, id)
    && exists i :: 0 <= i < |ms| && ms[i].accountId == id && ms[i].inPool && !ms[i].paused
  }

  /** Where the chosen account comes from: a row that is not excluded, or the manual selection. */
  lemma ChosenIsRowOrManual(env: Env, pool: Pool, requireFit: bool) returns (m: Option<Member>)
    requires RouterInRange(env) && PoolRoute(env, pool, requireFit).Chosen?
    ensures var id := PoolRoute(env, pool, requireFit).account;
            && (m.Some? ==> m.value in pool.members && m.value.accountId == id && !Excluded(env, m.value))
            && (m.None? ==> !requireFit && PassOver(env, Rows(env, pool)).eligible == [] && !env.settingsChanged
                            && env.manual == Some(id) && !Exhausted(env, id) && !PausedInPool(pool.members, id) && env.authenticates(id))
  {
    var rows := Rows(env, pool);
    var p := PassOver(env, rows);
    var r := PoolRoute(env, pool, requireFit);
    PassMeaning(env, rows);
    m := None;
    if p.eligible != [] {
      var c :| c in p.eligible && c.accountId == r.account;
      var i :| 0 <= i < |rows| && IsEligible(env, rows[i], c);
      RowsAreMembers(env, pool, i);
      m := Some(rows[i].member);
    } else if FallbackAccount(env, pool, None).None? {
      var i :| 0 <= i < |rows| && !Excluded(env, rows[i].member) && rows[i].member.accountId == r.account;
      RowsAreMembers(env, pool, i);
      m := Some(rows[i].member);
    }
  }

  /** The chosen account's exhaustion deadline is past, and if a row of it is paused in the pool, another one is not. */
  lemma RoutingExcludes(env: Env, pool: Pool, requireFit: bool)
    requires RouterInRange(env)
    ensures var r := PoolRoute(env, pool, requireFit);
            r.Chosen? ==>
              && !Exhausted(env, r.account)
              && (PausedInPool(pool.members, r.account) ==> MixedPause(pool.members, r.account))
  {
    if PoolRoute(env, pool, requireFit).Chosen? {
      var m := ChosenIsRowOrManual(env, pool, requireFit);
    }
  }

  /** In this environment only `id` has a valid credential, no quota can be read, and nobody is selected by hand. */
  function OnlyValid(ms: seq<Member>, id: AccountId): Env {
    var read := (i: nat) => Read(i < |ms| && ms[i].accountId == id, Unavailable);
    Env(0, _ => 0, map[], None, [], read, read, _ => None, _ => Choice(0, []), _ => None, _ => Turn(false, false), false, None, _ => false)
  }

  /** A pool that pauses one row of an account and not another sends a request to it, under either strategy. */
  lemma MixedPauseEscapes(pool: Pool, id: AccountId)
    requires MixedPause(pool.members, id)
    ensures RouterInRange(OnlyValid(pool.members, id))
    ensures PoolRoute(OnlyValid(pool.members, id), pool, false) == Chosen(id)
  {
    var env := OnlyValid(pool.members, id);
    var rows := Rows(env, pool);
    PassMeaning(env, rows);
    FallbackIsFirstMet(env, rows);
    var k :| 0 <= k < |pool.members| && pool.members[k].accountId == id && pool.members[k].inPool && !pool.members[k].paused;
    assert rows[k].member == pool.members[k] && Examine(env, rows[k]) == Spent;
    var i :| 0 <= i < |rows| && IsFirstMet(env, rows, i) && rows[i].member.accountId == PassOver(env, rows).fallback.value;
    assert rows[i].read.authenticated;
  }

  /** Paused accounts stay out of the pool's choice. */
  ghost predicate RespectsPause(env: Env, pool: Pool, requireFit: bool) {
    RouterInRange(env) ==>
      var r := PoolRoute(env, pool, requireFit);
      r.Chosen? ==> !PausedInPool(pool.members, r.account)
  }

  /** A pool respects its pauses in every environment if and only if it has no account with both kinds of rows. */
  lemma PauseIsRespectedIff(pool: Pool)
    ensures (forall env, requireFit :: RespectsPause(env, pool, requireFit)) <==> (forall id :: !MixedPause(pool.members, id))
  {
    if forall id :: !MixedPause(pool.members, id) {
      forall env, requireFit ensures RespectsPause(env, pool, requireFit) {
        if RouterInRange(env) {
          RoutingExcludes(env, pool, requireFit);
        }
      }
    } else {
      var id :| MixedPause(pool.members, id);
      MixedPauseEscapes(pool, id);
      assert !RespectsPause(OnlyValid(pool.members, id), pool, false);
    }
  }

  /** Pools accepted by `set_quota_pool` list an account once, so they respect their pauses. */
  lemma UniqueMembersRespectPause(env: Env, pool: Pool, requireFit: bool)
    requires UniqueMembers(pool.members)
    ensures RespectsPause(env, pool, requireFit)
  {
    forall id ensures !MixedPause(pool.members, id) {
    }
    PauseIsRespectedIff(pool);
  }

  /** The failing input: two rows of one account, one of them paused. */
  lemma DuplicateRowsEscapePause(id: AccountId)
    ensures var pool := Pool(true, Rank, [Member(id, true, true, 0, false), Member(id, true, false, 0, false)]);
            !RespectsPause(OnlyValid(pool.members, id), pool, false)
  {
    var ms := [Member(id, true, true, 0, false), Member(id, true, false, 0, false)];
    assert ms[0].paused && !ms[1].paused;
    MixedPauseEscapes(Pool(true, Rank, ms), id);
  }

  /**
    A usage-limit frame keeps its account out of the pool's choice but not out of the manual fallback: the
    pool answers with that account exactly when it is the manual selection, no member is usable, and
    neither the deadline map nor a pause stops it.
   */
  lemma UsageLimitedAccountChosenIff(env: Env, pool: Pool, requireFit: bool)
    requires RouterInRange(env)
    ensures var r := PoolRoute(env, pool, requireFit);
            var rows := Rows(env, pool);
            r.Chosen? && AffinityExhausted(env, r.account) <==>
            && !requireFit && !env.settingsChanged
            && (forall i :: 0 <= i < |rows| ==> !Examine(env, rows[i]).Usable?)
            && env.manual.Some? && AffinityExhausted(env, env.manual.value)
            && !Exhausted(env, env.manual.value) && !PausedInPool(pool.members, env.manual.value)
            && env.authenticates(env.manual.value)
  {
    PassMeaning(env, Rows(env, pool));
    if PoolRoute(env, pool, requireFit).Chosen? {
      var m := ChosenIsRowOrManual(env, pool, requireFit);
    }
  }

  /** The failing request: its socket just reported the usage limit of the only account, which is also the manual selection. */
  lemma UsageLimitEscapes(id: AccountId)
    ensures var pool := Pool(true, Rank, [Member(id, true, false, 0, false)]);
            var env := OnlyValid(pool.members, id).(affinity := Some(Affinity(x => x == id, false, true)), manual := Some(id), authenticates := _ => true);
            RouterInRange(env) && AffinityExhausted(env, id) && PoolRoute(env, pool, false) == Chosen(id)
  {
    var pool := Pool(true, Rank, [Member(id, true, false, 0, false)]);
    var env := OnlyValid(pool.members, id).(affinity := Some(Affinity(x => x == id, false, true)), manual := Some(id), authenticates := _ => true);
    forall i | 0 <= i < |Rows(env, pool)| ensures !Examine(env, Rows(env, pool)[i]).Usable? {
      RowsAreMembers(env, pool, i);
    }
    UsageLimitedAccountChosenIff(env, pool, false);
  }

  /** Rank returns the first usable member of its order, and falls back only when no member is usable. */
  lemma RankPicksFirstUsable(env: Env, pool: Pool)
    requires RouterInRange(env) && pool.strategy == Rank && !env.settingsChanged
    ensures var rows := Rows(env, pool);
            var r := PoolRoute(env, pool, false);
            && (forall i :: 0 <= i < |rows| && Examine(env, rows[i]).Usable?
                  && (forall j :: 0 <= j < i ==> !Examine(env, rows[j]).Usable?)
                  ==> r == Chosen(rows[i].member.accountId))
            && ((forall i :: 0 <= i < |rows| ==> !Examine(env, rows[i]).Usable?)
                  ==> r == FallbackRoute(env, pool, PassOver(env, rows).fallback))
  {
    var rows := Rows(env, pool);
    PassMeaning(env, rows);
    forall i | 0 <= i < |rows| && Examine(env, rows[i]).Usable?
               && (forall j :: 0 <= j < i ==> !Examine(env, rows[j]).Usable?)
      ensures PoolRoute(env, pool, false) == Chosen(rows[i].member.accountId)
    {
      PassMeaning(env, rows[..i]);
      FirstEligible(env, rows, i);
    }
  }

  /** A strict selection returns a usable, unexcluded pool member the router admitted, or nothing, or an error; never a fallback. */
  lemma StrictRouteIsAdmitted(env: Env, pool: Pool)
    requires RouterInRange(env)
    ensures var r := PoolRoute(env, pool, true);
            var e := PassOver(env, Rows(env, pool)).eligible;
            r.Chosen? ==>
              && e != [] && r.account == e[env.router(e).index].accountId
              && env.router(e).index < |env.router(e).admission| && env.router(e).admission[env.router(e).index]
              && exists m :: m in pool.members && m.accountId == r.account && !Excluded(env, m)
  {
    var rows := Rows(env, pool);
    var p := PassOver(env, rows);
    PassMeaning(env, rows);
    if PoolRoute(env, pool, true).Chosen? {
      var c := p.eligible[env.router(p.eligible).index];
      assert c in p.eligible;
      var i :| 0 <= i < |rows| && IsEligible(env, rows[i], c);
      RowsAreMembers(env, pool, i);
    }
  }

  // ===== The decision in plain terms =====

  /** The quota windows read for a member: at once, or after one refresh when the first query was unauthorised. */
  function Answer(row: Row): Option<seq<Window>> {
    match row.read.quota
    case Windows(ws) => Some(ws)
    case Unavailable => None
    case Unauthorized => match row.retry case Some(Windows(ws)) => Some(ws) case _ => None
  }

  /** A deadline in the future is on record for the account. */
  predicate Barred(env: Env, id: AccountId) {
    match Lookup(env.exhausted, env.hash(id))
    case Some(until) => env.now < until
    case None => false
  }

  /** The member may be asked at all: in the pool, not paused, no deadline ahead, and not the account whose socket just reported its limit between turns. */
  predicate MayBeAsked(env: Env, m: Member) {
    && m.inPool && !m.paused && !Barred(env, m.accountId)
    && match env.affinity
       case None => true
       case Some(a) => !(a.account(m.accountId) && a.quotaExhausted && !a.turnInProgress)
  }

  /** What becomes of a member: skipped, spent, or usable with the observation of its own windows and floor. */
  lemma ExamineMeans(env: Env, row: Row)
    ensures var v := Examine(env, row);
            && (v.Skipped? <==> !MayBeAsked(env, row.member) || !row.read.authenticated)
            && (!v.Skipped? ==>
                 match Answer(row)
                 case None => v == Spent
                 case Some(ws) =>
                   var o := Observe(ws, row.member.weeklyFloor, env.now);
                   if o.Some? && o.value.usable then v == Usable(o.value) else v == Spent)
  {
  }

  /** The usable members in routing order, with their observations. */
  function UsableRows(env: Env, rows: seq<Row>): seq<Candidate>
    decreases |rows|
  {
    if rows == [] then []
    else
      (match Examine(env, rows[0]) case Usable(o) => [Candidate(rows[0].member.accountId, Some(o))] case _ => []) + UsableRows(env, rows[1..])
  }

  lemma {:induction false} UsableSnoc(env: Env, rows: seq<Row>, row: Row)
    ensures UsableRows(env, rows + [row]) ==
            UsableRows(env, rows) + match Examine(env, row) case Usable(o) => [Candidate(row.member.accountId, Some(o))] case _ => []
    decreases |rows|
  {
    hide Examine;
    if rows == [] {
      assert (rows + [row])[1..] == [];
    } else {
      assert (rows + [row])[1..] == rows[1..] + [row];
      UsableSnoc(env, rows[1..], row);
    }
  }

  lemma {:induction false} EligibleAreUsable(env: Env, rows: seq<Row>)
    ensures PassOver(env, rows).eligible == UsableRows(env, rows)
    decreases |rows|
  {
    hide Examine;
    if rows != [] {
      var front, last := rows[..|rows| - 1], rows[|rows| - 1];
      EligibleAreUsable(env, front);
      UsableSnoc(env, front, last);
      assert rows == front + [last];
    }
  }

  /**
    With usable members: Rank without a fit requirement takes the first; otherwise the router's index decides
    among all of them, and with a fit requirement it is taken exactly if admitted. Changed settings refuse all.
   */
  lemma RouterDecides(env: Env, pool: Pool, requireFit: bool)
    requires RouterInRange(env) && UsableRows(env, Rows(env, pool)) != []
    ensures var e := UsableRows(env, Rows(env, pool));
            var choice := env.router(e);
            PoolRoute(env, pool, requireFit) ==
            if env.settingsChanged then Refused
            else if requireFit then (if choice.index < |choice.admission| && choice.admission[choice.index] then Chosen(e[choice.index].accountId) else Nothing)
            else if pool.strategy == Balanced then Chosen(e[choice.index].accountId)
            else Chosen(e[0].accountId)
  {
    EligibleAreUsable(env, Rows(env, pool));
  }

  /** The manual selection may stand in: no deadline ahead, no paused row in the pool, and a valid credential. */
  predicate StandsIn(env: Env, pool: Pool, id: AccountId) {
    && env.manual == Some(id) && !Barred(env, id) && env.authenticates(id)
    && forall i :: 0 <= i < |pool.members| && pool.members[i].accountId == id ==> !(pool.members[i].inPool && pool.members[i].paused)
  }

  /**
    Without a usable member: nothing if a fit is required; else the manual selection if it may stand in, else
    the first member met with a valid credential, else a refusal; and a refusal if the settings changed.
   */
  lemma FallbackDecides(env: Env, pool: Pool, requireFit: bool)
    requires RouterInRange(env) && UsableRows(env, Rows(env, pool)) == []
    ensures var rows, r := Rows(env, pool), PoolRoute(env, pool, requireFit);
            if requireFit then r == Nothing
            else if env.settingsChanged then r == Refused
            else if env.manual.Some? && StandsIn(env, pool, env.manual.value) then r == Chosen(env.manual.value)
            else
              && (r == Refused <==> forall i :: 0 <= i < |rows| ==> Examine(env, rows[i]).Skipped?)
              && (r != Refused ==> exists i :: 0 <= i < |rows| && IsFirstMet(env, rows, i) && r == Chosen(rows[i].member.accountId))
  {
    var rows := Rows(env, pool);
    EligibleAreUsable(env, rows);
    FallbackIsFirstMet(env, rows);
    hide Examine, UsableRows, PassOver;
  }

  // ===== Retry after a quota rejection =====

  const FALLBACK_WINDOW_MS: nat := 18_000_000

  /** How long a rejected account stays out: the provider's reset, else an observed one, else five hours. */
  function ExhaustedUntil(now: nat, resetAt: Option<nat>, observed: Option<nat>): (until: nat)
    ensures until > now
    ensures resetAt.Some? && resetAt.value > now ==> until == resetAt.value
    ensures !(resetAt.Some? && resetAt.value > now) && observed.Some? && observed.value > now ==> until == observed.value
    ensures !(resetAt.Some? && resetAt.value > now) && !(observed.Some? && observed.value > now) ==> until == now + 5 * 60 * 60 * 1000
  {
    if resetAt.Some? && resetAt.value > now then resetAt.value
    else if observed.Some? && observed.value > now then observed.value
    else now + FALLBACK_WINDOW_MS
  }

  predicate InPoolByHash(env: Env, pool: Pool, accountHash: nat) {
    exists i :: 0 <= i < |pool.members| && pool.members[i].inPool && env.hash(pool.members[i].accountId) == accountHash
  }

  function Marked(env: Env, accountHash: nat, resetAt: Option<nat>, observed: Option<nat>): Env {
    env.(exhausted := env.exhausted[accountHash := ExhaustedUntil(env.now, resetAt, observed)], affinity := None)
  }

  ghost function RetryRoute(env: Env, pool: Pool, accountHash: nat, resetAt: Option<nat>, observed: Option<nat>, allowRetry: bool): Route
    requires RouterInRange(env)
  {
    if !pool.enabled || !InPoolByHash(env, pool, accountHash) || !allowRetry then Nothing
    else PoolRoute(Marked(env, accountHash, resetAt, observed), pool, true)
  }

  method RetryPoolAfterQuota(env: Env, pool: Pool, accountHash: nat, resetAt: Option<nat>, observed: Option<nat>, allowRetry: bool)
    returns (route: Route, exhausted: map<nat, nat>)
    requires RouterInRange(env)
    ensures route == RetryRoute(env, pool, accountHash, resetAt, observed, allowRetry)
    ensures exhausted == if pool.enabled && InPoolByHash(env, pool, accountHash)
                         then env.exhausted[accountHash := ExhaustedUntil(env.now, resetAt, observed)] else env.exhausted
  {
    if !pool.enabled || !InPoolByHash(env, pool, accountHash) {
      return Nothing, env.exhausted;
    }
    exhausted := env.exhausted[accountHash := ExhaustedUntil(env.now, resetAt, observed)];
    if !allowRetry {
      return Nothing, exhausted;
    }
    var taken;
    route, taken := RouteThroughPool(env.(exhausted := exhausted, affinity := None), pool, true);
  }

  /** A retry is tried exactly for a member of an enabled pool that may be retried; then it selects strictly, without affinity, with the deadline noted. */
  lemma RetryMeans(env: Env, pool: Pool, accountHash: nat, resetAt: Option<nat>, observed: Option<nat>, allowRetry: bool)
    requires RouterInRange(env)
    ensures var tried := pool.enabled && allowRetry && exists i :: 0 <= i < |pool.members| && pool.members[i].inPool && env.hash(pool.members[i].accountId) == accountHash;
            var until := ExhaustedUntil(env.now, resetAt, observed);
            var env' := env.(exhausted := env.exhausted[accountHash := until], affinity := None);
            && RouterInRange(env')
            && RetryRoute(env, pool, accountHash, resetAt, observed, allowRetry) == if tried then PoolRoute(env', pool, true) else Nothing
  {
  }

  /** A retry never returns the account just marked, however it hashes, and never the manual fallback. */
  lemma RetryAvoidsRejected(env: Env, pool: Pool, accountHash: nat, resetAt: Option<nat>, observed: Option<nat>, allowRetry: bool)
    requires RouterInRange(env)
    ensures var r := RetryRoute(env, pool, accountHash, resetAt, observed, allowRetry);
            r.Chosen? ==>
              && env.hash(r.account) != accountHash
              && exists m :: m in pool.members && m.accountId == r.account && m.inPool && !m.paused && !Exhausted(env.(exhausted := env.exhausted - {accountHash}), m.accountId)
  {
    var marked := Marked(env, accountHash, resetAt, observed);
    assert RouterInRange(marked);
    var r := RetryRoute(env, pool, accountHash, resetAt, observed, allowRetry);
    if r.Chosen? {
      StrictRouteIsAdmitted(marked, pool);
      var m :| m in pool.members && m.accountId == r.account && !Excluded(marked, m);
      assert !Exhausted(marked, m.accountId);
    }
  }

  // ===== A running turn =====

  function FloorOf(ms: seq<Member>, id: AccountId): nat {
    var k := Position(ms, id);
    if k < |ms| then ms[k].weeklyFloor else 0
  }

  function CachedObservation(env: Env, id: AccountId, floor: nat): Option<Observation> {
    if env.cached(id).Some? then Observe(env.cached(id).value, floor, env.now) else None
  }

  /** The running turn may leave its account: rejected upstream, or its cached quota is gated. */
  predicate Gated(env: Env, pool: Pool, account: AccountId) {
    || Exhausted(env, account)
    || (env.affinity.Some? && env.affinity.value.quotaExhausted)
    || (var o := CachedObservation(env, account, FloorOf(pool.members, account)); o.Some? && o.value.skipReason.Some?)
  }

  predicate MayMigrateTo(env: Env, m: Member, account: AccountId) {
    && m.inPool && !m.paused && m.accountId != account && !Exhausted(env, m.accountId)
    && CachedObservation(env, m.accountId, m.weeklyFloor).Some?
    && CachedObservation(env, m.accountId, m.weeklyFloor).value.usable
  }

  function Alternatives(env: Env, ms: seq<Member>, account: AccountId): seq<Candidate>
    decreases |ms|
  {
    if ms == [] then []
    else
      var front, m := Alternatives(env, ms[..|ms| - 1], account), ms[|ms| - 1];
      if MayMigrateTo(env, m, account) then front + [Candidate(m.accountId, CachedObservation(env, m.accountId, m.weeklyFloor))] else front
  }

  predicate Admits(env: Env, cs: seq<Candidate>) {
    var c := env.router(cs);
    c.index < |c.admission| && c.admission[c.index]
  }

  /** From turn `n` on: ask the router, try the account it admits, drop it and ask again when it has no valid credential. */
  ghost function Migration(env: Env, cs: seq<Candidate>, n: nat): Option<AccountId>
    requires RouterInRange(env)
    decreases |cs|
  {
    if cs == [] || !Admits(env, cs) || env.turns(n).settingsChanged then None
    else
      var i := env.router(cs).index;
      if env.turns(n).authenticated then Some(cs[i].accountId) else Migration(env, Dropped(cs, i), n + 1)
  }

  ghost function ActiveTurnRoute(env: Env, pool: Pool, account: AccountId): Option<AccountId>
    requires RouterInRange(env)
  {
    if Gated(env, pool, account) then Migration(env, Alternatives(env, pool.members, account), 0) else None
  }

  method ActiveTurnPoolAuth(env: Env, pool: Pool, account: AccountId) returns (migrated: Option<AccountId>)
    requires RouterInRange(env)
    ensures migrated == ActiveTurnRoute(env, pool, account)
  {
    if Gated(env, pool, account) {
      var candidates: seq<Candidate> := [];
      for i := 0 to |pool.members|
        invariant candidates == Alternatives(env, pool.members[..i], account)
      {
        var m := pool.members[i];
        assert pool.members[..i + 1][..i] == pool.members[..i];
        if MayMigrateTo(env, m, account) {
          candidates := candidates + [Candidate(m.accountId, CachedObservation(env, m.accountId, m.weeklyFloor))];
        }
      }
      assert pool.members[..|pool.members|] == pool.members;
      var n := 0;
      while candidates != []
        invariant Migration(env, candidates, n) == Migration(env, Alternatives(env, pool.members, account), 0)
        decreases |candidates|
      {
        var index := env.router(candidates).index;
        if !Admits(env, candidates) {
          break;
        }
        if env.turns(n).settingsChanged {
          break;
        }
        if env.turns(n).authenticated {
          return Some(candidates[index].accountId);
        }
        candidates := candidates[..index] + candidates[index + 1..];
        n := n + 1;
      }
    }
    return None;
  }

  /** A running turn's account must go: a deadline is ahead, its socket reported the limit, or its cached quota against the floor of its first row, or none, gives a reason. */
  lemma GatedMeans(env: Env, pool: Pool, account: AccountId, k: nat)
    requires k <= |pool.members| && (k < |pool.members| ==> pool.members[k].accountId == account)
    requires forall i :: 0 <= i < k ==> pool.members[i].accountId != account
    ensures Gated(env, pool, account) <==>
            || Barred(env, account)
            || (match env.affinity case Some(a) => a.quotaExhausted case None => false)
            || (match env.cached(account)
                case None => false
                case Some(ws) =>
                  var o := Observe(ws, if k < |pool.members| then pool.members[k].weeklyFloor else 0, env.now);
                  o.Some? && o.value.skipReason.Some?)
  {
    assert Position(pool.members, account) == k;
  }

  /** The members a turn may move to, in pool order: others, in the pool, not paused, without a deadline ahead, usable by their cached quota. */
  function Destinations(env: Env, ms: seq<Member>, account: AccountId): seq<Candidate>
    decreases |ms|
  {
    if ms == [] then []
    else
      var m, later := ms[0], Destinations(env, ms[1..], account);
      match env.cached(m.accountId)
      case None => later
      case Some(ws) =>
        var o := Observe(ws, m.weeklyFloor, env.now);
        if m.inPool && !m.paused && m.accountId != account && !Barred(env, m.accountId) && o.Some? && o.value.usable
        then [Candidate(m.accountId, o)] + later else later
  }

  lemma {:induction false} DestinationsSnoc(env: Env, ms: seq<Member>, m: Member, account: AccountId)
    ensures Destinations(env, ms + [m], account) ==
            Destinations(env, ms, account) + if MayMigrateTo(env, m, account) then [Candidate(m.accountId, CachedObservation(env, m.accountId, m.weeklyFloor))] else []
    decreases |ms|
  {
    hide Observe;
    if ms == [] {
      assert (ms + [m])[1..] == [];
    } else {
      assert (ms + [m])[1..] == ms[1..] + [m];
      DestinationsSnoc(env, ms[1..], m, account);
    }
  }

  lemma {:induction false} AlternativesAreDestinations(env: Env, ms: seq<Member>, account: AccountId)
    ensures Alternatives(env, ms, account) == Destinations(env, ms, account)
    decreases |ms|
  {
    hide MayMigrateTo, CachedObservation;
    if ms != [] {
      var front, last := ms[..|ms| - 1], ms[|ms| - 1];
      AlternativesAreDestinations(env, front, account);
      DestinationsSnoc(env, front, last, account);
      assert ms == front + [last];
    }
  }

  /** The router's picks, turn by turn from turn `n`: each admitted, under unchanged settings, and without a valid credential; `left` remains. */
  ghost predicate Trail(env: Env, cs: seq<Candidate>, n: nat, tried: seq<Candidate>, left: seq<Candidate>)
    requires RouterInRange(env)
    decreases |tried|
  {
    if tried == [] then left == cs
    else
      && cs != [] && Admits(env, cs) && !env.turns(n).settingsChanged && !env.turns(n).authenticated
      && tried[0] == cs[env.router(cs).index]
      && Trail(env, Dropped(cs, env.router(cs).index), n + 1, tried[1..], left)
  }

  /** The router's next pick is admitted, the settings hold, and the credential is valid. */
  ghost predicate Lands(env: Env, cs: seq<Candidate>, n: nat, id: AccountId)
    requires RouterInRange(env)
  {
    && cs != [] && !env.turns(n).settingsChanged && env.turns(n).authenticated
    && var c := env.router(cs);
    c.index < |c.admission| && c.admission[c.index] && cs[c.index].accountId == id
  }

  lemma {:induction false} MigrationLeavesTrail(env: Env, cs: seq<Candidate>, n: nat, id: AccountId)
    returns (tried: seq<Candidate>, left: seq<Candidate>)
    requires RouterInRange(env) && Migration(env, cs, n) == Some(id)
    ensures Trail(env, cs, n, tried, left) && Lands(env, left, n + |tried|, id)
    decreases |cs|
  {
    tried, left := [], cs;
    if !env.turns(n).authenticated {
      var i := env.router(cs).index;
      tried, left := MigrationLeavesTrail(env, Dropped(cs, i), n + 1, id);
      tried := [cs[i]] + tried;
    }
  }

  lemma {:induction false} TrailMigrates(env: Env, cs: seq<Candidate>, n: nat, tried: seq<Candidate>, left: seq<Candidate>, id: AccountId)
    requires RouterInRange(env) && Trail(env, cs, n, tried, left) && Lands(env, left, n + |tried|, id)
    ensures Migration(env, cs, n) == Some(id)
    decreases |tried|
  {
    if tried != [] {
      TrailMigrates(env, Dropped(cs, env.router(cs).index), n + 1, tried[1..], left, id);
    }
  }

  /**
    A running turn moves to `id` if and only if its own account is gated and the router, asked again after each
    pick without a valid credential, comes to admit `id` with a valid one before the settings change.
   */
  lemma TurnMovesIff(env: Env, pool: Pool, account: AccountId, id: AccountId)
    requires RouterInRange(env)
    ensures ActiveTurnRoute(env, pool, account) == Some(id) <==>
            && Gated(env, pool, account)
            && exists tried: seq<Candidate>, left: seq<Candidate> ::
                 Trail(env, Destinations(env, pool.members, account), 0, tried, left) && Lands(env, left, |tried|, id)
  {
    AlternativesAreDestinations(env, pool.members, account);
    var cs := Destinations(env, pool.members, account);
    hide Destinations, Gated, Trail, Lands;
    if ActiveTurnRoute(env, pool, account) == Some(id) {
      var tried, left := MigrationLeavesTrail(env, cs, 0, id);
    }
    forall tried: seq<Candidate>, left: seq<Candidate> | Trail(env, cs, 0, tried, left) && Lands(env, left, |tried|, id)
      ensures Migration(env, cs, 0) == Some(id)
    {
      TrailMigrates(env, cs, 0, tried, left, id);
    }
  }

  /** In particular a gated turn whose first pick is admitted and valid must leave. */
  lemma GatedTurnLeaves(env: Env, pool: Pool, account: AccountId, id: AccountId)
    requires RouterInRange(env) && Gated(env, pool, account) && Lands(env, Destinations(env, pool.members, account), 0, id)
    ensures ActiveTurnRoute(env, pool, account) == Some(id)
  {
    assert Trail(env, Destinations(env, pool.members, account), 0, [], Destinations(env, pool.members, account));
    TurnMovesIff(env, pool, account, id);
  }

  lemma {:induction false} AlternativesAreMembers(env: Env, ms: seq<Member>, account: AccountId, c: Candidate)
    requires c in Alternatives(env, ms, account)
    ensures exists m :: m in ms && MayMigrateTo(env, m, account) && m.accountId == c.accountId
    decreases |ms|
  {
    var front, m := ms[..|ms| - 1], ms[|ms| - 1];
    if c in Alternatives(env, front, account) {
      AlternativesAreMembers(env, front, account, c);
      var x :| x in front && MayMigrateTo(env, x, account) && x.accountId == c.accountId;
      assert x in ms;
    } else {
      assert m in ms;
    }
  }

  /** The loop has gone through `tried`, one per turn, none with a valid credential, and has `left` still to ask about. */
  ghost predicate Searched(env: Env, cs: seq<Candidate>, tried: seq<Candidate>, left: seq<Candidate>) {
    && multiset(tried) + multiset(left) == multiset(cs)
    && (forall k :: 0 <= k < |tried| ==> !env.turns(k).settingsChanged && !env.turns(k).authenticated)
  }

  lemma DroppedBag(cs: seq<Candidate>, i: nat)
    requires i < |cs|
    ensures multiset(Dropped(cs, i)) + multiset{cs[i]} == multiset(cs)
  {
    assert cs == cs[..i] + [cs[i]] + cs[i + 1..];
  }

  /** A turn without a valid credential moves one candidate from `left` to `tried`. */
  lemma SearchedStep(env: Env, cs: seq<Candidate>, all: seq<Candidate>, done: seq<Candidate>, i: nat)
    requires Searched(env, all, done, cs) && i < |cs|
    requires !env.turns(|done|).settingsChanged && !env.turns(|done|).authenticated
    ensures Searched(env, all, done + [cs[i]], Dropped(cs, i))
  {
    DroppedBag(cs, i);
    hide Dropped;
  }

  lemma {:induction false} MigrationStops(env: Env, cs: seq<Candidate>, all: seq<Candidate>, done: seq<Candidate>)
    returns (tried: seq<Candidate>, left: seq<Candidate>)
    requires RouterInRange(env) && Searched(env, all, done, cs)
    ensures Searched(env, all, tried, left)
    ensures var r := Migration(env, cs, |done|);
            var last := env.turns(|tried|);
            && (r.Some? ==> left != [] && Admits(env, left) && !last.settingsChanged && last.authenticated
                            && left[env.router(left).index].accountId == r.value)
            && (r.None? ==> left == [] || !Admits(env, left) || last.settingsChanged)
    decreases |cs|
  {
    tried, left := done, cs;
    if cs != [] && Admits(env, cs) && !env.turns(|done|).settingsChanged && !env.turns(|done|).authenticated {
      var i := env.router(cs).index;
      SearchedStep(env, cs, all, done, i);
      hide Searched;
      tried, left := MigrationStops(env, Dropped(cs, i), all, done + [cs[i]]);
    }
  }

  /**
    A running turn leaves its account only when that account is gated, and only for a different pool member
    that is unpaused, unexhausted, usable, authenticated in the turn that settled it, and admitted by the
    router among the candidates then left.
   */
  lemma MigrationIsJustified(env: Env, pool: Pool, account: AccountId)
    requires RouterInRange(env) && ActiveTurnRoute(env, pool, account).Some?
    ensures var id := ActiveTurnRoute(env, pool, account).value;
            && Gated(env, pool, account) && id != account
            && (exists m :: m in pool.members && m.accountId == id && MayMigrateTo(env, m, account))
            && (exists tried: seq<Candidate>, left: seq<Candidate> :: Searched(env, Alternatives(env, pool.members, account), tried, left) && left != []
                                        && Admits(env, left) && left[env.router(left).index].accountId == id
                                        && !env.turns(|tried|).settingsChanged && env.turns(|tried|).authenticated)
  {
    var cs := Alternatives(env, pool.members, account);
    var tried, left := MigrationStops(env, cs, cs, []);
    var c := left[env.router(left).index];
    assert c in multiset(tried) + multiset(left);
    assert c in multiset(cs);
    AlternativesAreMembers(env, pool.members, account, c);
  }

  /** A gated turn stays only when the candidates ran out, the router admitted none, or the settings moved in that turn. */
  lemma StayIsJustified(env: Env, pool: Pool, account: AccountId)
    requires RouterInRange(env) && ActiveTurnRoute(env, pool, account).None? && Gated(env, pool, account)
    ensures exists tried: seq<Candidate>, left: seq<Candidate> :: Searched(env, Alternatives(env, pool.members, account), tried, left)
                                    && (left == [] || !Admits(env, left) || env.turns(|tried|).settingsChanged)
  {
    var cs := Alternatives(env, pool.members, account);
    var tried, left := MigrationStops(env, cs, cs, []);
  }

  // ===== The whole decision =====

  predicate HasPoolMember(pool: Pool) {
    exists i :: 0 <= i < |pool.members| && pool.members[i].inPool
  }

  predicate TurnInProgress(env: Env) {
    env.affinity.Some? && env.affinity.value.turnInProgress
  }

  /** The first known account the affinity names. */
  function FirstNamed(ids: seq<AccountId>, named: AccountId -> bool): (r: Option<AccountId>)
    ensures r.Some? ==> r.value in ids && named(r.value)
    ensures r.None? ==> forall id :: id in ids ==> !named(id)
  {
    if ids == [] then None else if named(ids[0]) then Some(ids[0]) else FirstNamed(ids[1..], named)
  }

  /** The running turn's account, if it is still known. */
  function Incumbent(env: Env): Option<AccountId> {
    if env.affinity.Some? then FirstNamed(env.accounts, env.affinity.value.account) else None
  }

  ghost function RequestRoute(env: Env, pool: Pool, requireFit: bool): Route
    requires RouterInRange(env)
  {
    if pool.enabled && TurnInProgress(env) then
      var incumbent := Incumbent(env);
      if incumbent.None? then Refused
      else
        var moved := ActiveTurnRoute(env, pool, incumbent.value);
        if moved.Some? then Chosen(moved.value)
        else if env.authenticates(incumbent.value) then Chosen(incumbent.value) else Refused
    else if !pool.enabled || !HasPoolMember(pool) then
      if requireFit || env.manual.None? then Nothing
      else if env.authenticates(env.manual.value) then Chosen(env.manual.value) else Refused
    else PoolRoute(env, pool, requireFit)
  }

  method RoutingAuth(env: Env, pool: Pool, requireFit: bool) returns (route: Route)
    requires RouterInRange(env)
    ensures route == RequestRoute(env, pool, requireFit)
  {
    if pool.enabled && TurnInProgress(env) {
      var k := 0;
      while k < |env.accounts| && !env.affinity.value.account(env.accounts[k])
        invariant k <= |env.accounts|
        invariant Incumbent(env) == FirstNamed(env.accounts[k..], env.affinity.value.account)
      {
        assert env.accounts[k..][1..] == env.accounts[k + 1..];
        k := k + 1;
      }
      if k == |env.accounts| {
        return Refused;
      }
      var incumbent := env.accounts[k];
      var moved := ActiveTurnPoolAuth(env, pool, incumbent);
      if moved.Some? {
        return Chosen(moved.value);
      }
      return if env.authenticates(incumbent) then Chosen(incumbent) else Refused;
    }
    if !pool.enabled || !HasPoolMember(pool) {
      if requireFit || env.manual.None? {
        return Nothing;
      }
      return if env.authenticates(env.manual.value) then Chosen(env.manual.value) else Refused;
    }
    var taken;
    route, taken := RouteThroughPool(env, pool, requireFit);
  }

  /**
    A turn in progress is answered with the known account its socket is bound to, unless a justified
    migration moved it; a turn whose account is no longer known is refused, never re-routed.
   */
  lemma TurnStaysOrMoves(env: Env, pool: Pool, requireFit: bool)
    requires RouterInRange(env) && pool.enabled && TurnInProgress(env)
    ensures var r := RequestRoute(env, pool, requireFit);
            && ((forall id :: id in env.accounts ==> !env.affinity.value.account(id)) ==> r == Refused)
            && (r.Chosen? ==>
                 exists id :: id in env.accounts && env.affinity.value.account(id)
                   && (r.account == id
                       || (Gated(env, pool, id) && exists m :: m in pool.members && m.accountId == r.account && MayMigrateTo(env, m, id))))
  {
    var incumbent := Incumbent(env);
    if incumbent.Some? && ActiveTurnRoute(env, pool, incumbent.value).Some? {
      MigrationIsJustified(env, pool, incumbent.value);
    }
  }

  /** Past a disabled pool, or one without members, a request goes to the manual selection, or through unmanaged if there is none. */
  lemma BypassDecides(env: Env, pool: Pool, requireFit: bool)
    requires RouterInRange(env)
    requires !pool.enabled || ((match env.affinity case Some(a) => !a.turnInProgress case None => true)
                               && forall i :: 0 <= i < |pool.members| ==> !pool.members[i].inPool)
    ensures RequestRoute(env, pool, requireFit) ==
            match env.manual
            case None => Nothing
            case Some(id) => if requireFit then Nothing else if env.authenticates(id) then Chosen(id) else Refused
  {
  }

  /** During a turn an enabled pool answers with the first known account the socket names, unless it moves; without one, or without a valid credential, it refuses. */
  lemma TurnDecides(env: Env, pool: Pool, requireFit: bool, k: nat)
    requires RouterInRange(env) && pool.enabled && env.affinity.Some? && env.affinity.value.turnInProgress
    requires k <= |env.accounts| && (k < |env.accounts| ==> env.affinity.value.account(env.accounts[k]))
    requires forall i :: 0 <= i < k ==> !env.affinity.value.account(env.accounts[i])
    ensures RequestRoute(env, pool, requireFit) ==
            if k == |env.accounts| then Refused
            else
              match ActiveTurnRoute(env, pool, env.accounts[k])
              case Some(id) => Chosen(id)
              case None => if env.authenticates(env.accounts[k]) then Chosen(env.accounts[k]) else Refused
  {
    NamedAt(env.accounts, env.affinity.value.account, k);
    hide ActiveTurnRoute, FirstNamed;
  }

  lemma {:induction false} NamedAt(ids: seq<AccountId>, named: AccountId -> bool, k: nat)
    requires k <= |ids| && (k < |ids| ==> named(ids[k])) && forall i :: 0 <= i < k ==> !named(ids[i])
    ensures FirstNamed(ids, named) == if k < |ids| then Some(ids[k]) else None
    decreases k
  {
    if k > 0 {
      NamedAt(ids[1..], named, k - 1);
    }
  }

  /** Between turns an enabled pool with members decides by itself. */
  lemma PoolDecides(env: Env, pool: Pool, requireFit: bool)
    requires RouterInRange(env) && pool.enabled && (exists i :: 0 <= i < |pool.members| && pool.members[i].inPool)
    requires match env.affinity case Some(a) => !a.turnInProgress case None => true
    ensures RequestRoute(env, pool, requireFit) == PoolRoute(env, pool, requireFit)
  {
  }
}
