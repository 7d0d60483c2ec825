/**
  Single-flight token refresh for one managed account (the refresh grant of section 6 of RFC 6749).
  Any number of callers interleave between await points: the unlocked cache check, finding or creating
  the account's lock in the lock table, waiting for it, checking the cache again, and the exchange itself.
  The account is never removed. A caller may fail or be cancelled at any point.
 */
module TokenRefresh {
  import opened Common

  const REFRESH_BUFFER_MS: int := 60_000

  datatype CachedToken = CachedToken(access: nat, expiresAt: int)

  datatype Response = Response(access: nat, expiresAt: int, refresh: Option<nat>)

  datatype Kind =
    | Valid                     // valid_token_for
    | Rejected(token: nat)      // refresh_after_rejection
    | Force                     // force_refresh_default

  datatype Caller =
    | Arrived(kind: Kind)
    | FindingLock(kind: Kind)
    | CreatingLock(kind: Kind)
    | Waiting(kind: Kind, lock: nat)
    | Locked(kind: Kind, lock: nat)
    | Loading(kind: Kind, lock: nat)
    | InFlight(kind: Kind, lock: nat)
    | Saving(kind: Kind, lock: nat, response: Response)
    | Publishing(kind: Kind, lock: nat, response: Response)
    | Done(token: nat)
    | Failed

  /**
    `stored` is the credential on disk, `lockEntry` the account's entry in the lock table, `holders` the
    current holder of each mutex. `presented` lists every refresh token sent, `failures` counts exchanges
    that were sent and not published.
   */
  datatype State = State(
    now: int,
    cache: Option<CachedToken>,
    stored: nat,
    lockEntry: Option<nat>,
    holders: map<nat, nat>,
    callers: map<nat, Caller>,
    presented: seq<nat>,
    published: nat,
    failures: nat)

  datatype Action =
    | Tick(now: int)
    | Arrive(id: nat, kind: Kind)
    | CheckCache(id: nat)
    | LookUpLock(id: nat)
    | InsertLock(id: nat, newLock: nat)
    | Acquire(id: nat)
    | Recheck(id: nat)
    | Send(id: nat)
    | Receive(id: nat, response: Response)
    | Save(id: nat)
    | Publish(id: nat)
    | Abort(id: nat)

  predicate ExpiringSoon(t: CachedToken, now: int) {
    t.expiresAt - now < REFRESH_BUFFER_MS
  }

  /** The cached token a caller of this kind may return without an exchange. */
  predicate Fresh(s: State, kind: Kind) {
    && s.cache.Some?
    && !ExpiringSoon(s.cache.value, s.now)
    && !kind.Force?
    && (kind.Rejected? ==> s.cache.value.access != kind.token)
  }

  predicate HoldsLock(c: Caller) {
    c.Locked? || c.Loading? || c.InFlight? || c.Saving? || c.Publishing?
  }

  predicate Exchanging(c: Caller) {
    c.InFlight? || c.Saving? || c.Publishing?
  }

  predicate Enabled(s: State, a: Action) {
    match a
    case Tick(now) => s.now <= now
    case Arrive(id, _) => id !in s.callers
    case CheckCache(id) => id in s.callers && s.callers[id].Arrived?
    case LookUpLock(id) => id in s.callers && s.callers[id].FindingLock?
    case InsertLock(id, newLock) => id in s.callers && s.callers[id].CreatingLock? && newLock !in s.holders
    case Acquire(id) => id in s.callers && s.callers[id].Waiting? && s.callers[id].lock !in s.holders
    case Recheck(id) => id in s.callers && s.callers[id].Locked?
    case Send(id) => id in s.callers && s.callers[id].Loading?
    case Receive(id, _) => id in s.callers && s.callers[id].InFlight?
    case Save(id) => id in s.callers && s.callers[id].Saving?
    case Publish(id) => id in s.callers && s.callers[id].Publishing?
    case Abort(id) => id in s.callers && !s.callers[id].Done? && !s.callers[id].Failed?
  }

  function Move(s: State, id: nat, c: Caller): State {
    s.(callers := s.callers[id := c])
  }

  /** Leave the critical section with a result, dropping the guard. */
  function Leave(s: State, id: nat, lock: nat, c: Caller): State {
    Move(s.(holders := s.holders - {lock}), id, c)
  }

  function Next(s: State, a: Action): State
    requires Enabled(s, a)
  {
    match a
    case Tick(now) => s.(now := now)
    case Arrive(id, kind) => Move(s, id, Arrived(kind))
    case CheckCache(id) =>
      var kind := s.callers[id].kind;
      if kind.Valid? && Fresh(s, kind) then Move(s, id, Done(s.cache.value.access)) else Move(s, id, FindingLock(kind))
    case LookUpLock(id) =>
      var kind := s.callers[id].kind;
      if s.lockEntry.Some? then Move(s, id, Waiting(kind, s.lockEntry.value)) else Move(s, id, CreatingLock(kind))
    case InsertLock(id, newLock) =>
      var entry := if s.lockEntry.Some? then s.lockEntry.value else newLock;
      Move(s.(lockEntry := Some(entry)), id, Waiting(s.callers[id].kind, entry))
    case Acquire(id) =>
      var c := s.callers[id];
      Move(s.(holders := s.holders[c.lock := id]), id, Locked(c.kind, c.lock))
    case Recheck(id) =>
      var c := s.callers[id];
      if Fresh(s, c.kind) then Leave(s, id, c.lock, Done(s.cache.value.access)) else Move(s, id, Loading(c.kind, c.lock))
    case Send(id) =>
      var c := s.callers[id];
      Move(s.(presented := s.presented + [s.stored]), id, InFlight(c.kind, c.lock))
    case Receive(id, response) =>
      var c := s.callers[id];
      Move(s, id, Saving(c.kind, c.lock, response))
    case Save(id) =>
      var c := s.callers[id];
      var stored := if c.response.refresh.Some? then c.response.refresh.value else s.stored;
      Move(s.(stored := stored), id, Publishing(c.kind, c.lock, c.response))
    case Publish(id) =>
      var c := s.callers[id];
      Leave(s.(cache := Some(CachedToken(c.response.access, c.response.expiresAt)), published := s.published + 1),
            id, c.lock, Done(c.response.access))
    case Abort(id) =>
      var c := s.callers[id];
      if HoldsLock(c) then Leave(s.(failures := s.failures + if Exchanging(c) then 1 else 0), id, c.lock, Failed)
      else Move(s, id, Failed)
  }

  /** No caller yet, nothing sent; the lock table may or may not have the account's entry. */
  predicate Quiet(s: State) {
    s.callers == map[] && s.holders == map[] && s.presented == [] && s.published == 0 && s.failures == 0
  }

  predicate IsRun(s: State, run: seq<Action>)
    decreases |run|
  {
    run == [] || (Enabled(s, run[0]) && IsRun(Next(s, run[0]), run[1..]))
  }

  function Run(s: State, run: seq<Action>): State
    requires IsRun(s, run)
    decreases |run|
  {
    if run == [] then s else Run(Next(s, run[0]), run[1..])
  }

  // ===== At most one exchange in flight =====

  /** Every caller that has a lock has the table's one lock, and whoever is inside holds it. */
  ghost predicate OneLock(s: State) {
    && (forall id :: id in s.callers && (s.callers[id].Waiting? || HoldsLock(s.callers[id])) ==> s.lockEntry == Some(s.callers[id].lock))
    && (forall id :: id in s.callers && HoldsLock(s.callers[id]) ==>
          s.callers[id].lock in s.holders && s.holders[s.callers[id].lock] == id)
  }

  lemma StepKeepsOneLock(s: State, a: Action)
    requires OneLock(s) && Enabled(s, a)
    ensures OneLock(Next(s, a))
  {
  }

  lemma AtMostOneInside(s: State, x: nat, y: nat)
    requires OneLock(s) && x in s.callers && y in s.callers
    requires HoldsLock(s.callers[x]) && HoldsLock(s.callers[y])
    ensures x == y
  {
  }

  lemma NobodyElseInside(s: State, x: nat)
    requires OneLock(s) && x in s.callers && HoldsLock(s.callers[x])
    ensures forall y :: y in s.callers && y != x ==> !HoldsLock(s.callers[y])
  {
  }

  lemma {:induction false} RunKeepsOneLock(s: State, run: seq<Action>)
    requires OneLock(s) && IsRun(s, run)
    ensures OneLock(Run(s, run))
    decreases |run|
  {
    if run != [] {
      StepKeepsOneLock(s, run[0]);
      RunKeepsOneLock(Next(s, run[0]), run[1..]);
    }
  }

  /** Over every run, with any mix of callers, failures and cancellations, two exchanges are never in flight at once. */
  lemma SingleFlight(s: State, run: seq<Action>, x: nat, y: nat)
    requires Quiet(s) && IsRun(s, run)
    requires x in Run(s, run).callers && Exchanging(Run(s, run).callers[x])
    requires y in Run(s, run).callers && Exchanging(Run(s, run).callers[y])
    ensures x == y
  {
    RunKeepsOneLock(s, run);
    AtMostOneInside(Run(s, run), x, y);
  }

  // ===== What a caller returns =====

  /** The cached token serves this caller: good for another minute, not to be forced, and not the one it reported. */
  predicate Serves(s: State, kind: Kind) {
    && s.cache.Some?
    && s.cache.value.expiresAt - s.now >= 60_000
    && kind != Force
    && kind != Rejected(s.cache.value.access)
  }

  /** The step by which a caller comes to return `t`: it publishes its own exchange's token, or is served from the cache. */
  predicate Returns(s: State, a: Action, id: nat, t: nat) {
    && id in s.callers
    && match s.callers[id]
       case Publishing(_, _, response) => a == Publish(id) && t == response.access
       case Arrived(kind) => a == CheckCache(id) && kind == Valid && Serves(s, kind) && t == s.cache.value.access
       case Locked(kind, _) => a == Recheck(id) && Serves(s, kind) && t == s.cache.value.access
       case _ => false
  }

  /** A caller comes to return a token exactly by such a step. */
  lemma ReturnsIff(s: State, a: Action, id: nat, t: nat)
    requires Enabled(s, a) && !(id in s.callers && s.callers[id].Done?)
    ensures id in Next(s, a).callers && Next(s, a).callers[id] == Done(t) <==> Returns(s, a, id, t)
  {
  }

  predicate Returned(s: State, run: seq<Action>, id: nat, t: nat)
    requires IsRun(s, run)
    decreases |run|
  {
    run != [] && (Returns(s, run[0], id, t) || Returned(Next(s, run[0]), run[1..], id, t))
  }

  lemma {:induction false} DoneStays(s: State, run: seq<Action>, id: nat)
    requires IsRun(s, run) && id in s.callers && s.callers[id].Done?
    ensures id in Run(s, run).callers && Run(s, run).callers[id] == s.callers[id]
    ensures forall t :: !Returned(s, run, id, t)
    decreases |run|
  {
    if run != [] {
      assert id in Next(s, run[0]).callers && Next(s, run[0]).callers[id] == s.callers[id];
      DoneStays(Next(s, run[0]), run[1..], id);
    }
  }

  lemma {:induction false} RunReturnsIff(s: State, run: seq<Action>, id: nat, t: nat)
    requires IsRun(s, run) && !(id in s.callers && s.callers[id].Done?)
    ensures id in Run(s, run).callers && Run(s, run).callers[id] == Done(t) <==> Returned(s, run, id, t)
    decreases |run|
  {
    if run != [] {
      var s' := Next(s, run[0]);
      ReturnsIff(s, run[0], id, t);
      if id in s'.callers && s'.callers[id].Done? {
        DoneStays(s', run[1..], id);
        ReturnsIff(s, run[0], id, s'.callers[id].token);
      } else {
        hide Next, Returns;
        RunReturnsIff(s', run[1..], id, t);
      }
    }
  }

  /**
    Over every run: a caller has returned a token exactly if at some step it published that token out of its
    own exchange, or the cache then held it, good for another minute, and the caller neither forced a refresh
    nor had reported that very token as rejected.
   */
  lemma CallerReturnsIff(s: State, run: seq<Action>, id: nat, t: nat)
    requires Quiet(s) && IsRun(s, run)
    ensures id in Run(s, run).callers && Run(s, run).callers[id] == Done(t) <==> Returned(s, run, id, t)
  {
    RunReturnsIff(s, run, id, t);
  }

  /** What a finished exchange leaves: its access token and expiry in the cache, and its refresh token, if it brought one, in the store. */
  lemma ExchangeLeaves(s: State, id: nat)
    ensures Enabled(s, Save(id)) ==>
              var r := s.callers[id].response;
              Next(s, Save(id)).stored == (match r.refresh case Some(t) => t case None => s.stored) && Next(s, Save(id)).cache == s.cache
    ensures Enabled(s, Publish(id)) ==>
              var r := s.callers[id].response;
              Next(s, Publish(id)).cache == Some(CachedToken(r.access, r.expiresAt)) && Next(s, Publish(id)).stored == s.stored
    ensures Enabled(s, Send(id)) ==> Next(s, Send(id)).presented == s.presented + [s.stored]
  {
  }

  // ===== No refresh token is presented twice =====

  /** Sent, and the successor not saved yet: the stored credential is spent. */
  predicate Spends(c: Caller) {
    c.InFlight? || c.Saving?
  }

  /** Every exchange succeeds, rotates to a token never presented before, and its save succeeds; after that a caller may still fail. */
  predicate Rotates(s: State, a: Action)
    requires Enabled(s, a)
  {
    && (a.Receive? ==> a.response.refresh.Some? && a.response.refresh.value !in s.presented)
    && (a.Abort? ==> !Spends(s.callers[a.id]))
  }

  predicate RotatingRun(s: State, run: seq<Action>)
    requires IsRun(s, run)
    decreases |run|
  {
    run == [] || (Rotates(s, run[0]) && RotatingRun(Next(s, run[0]), run[1..]))
  }

  predicate NoRepeats(tokens: seq<nat>) {
    forall i, j :: 0 <= i < j < |tokens| ==> tokens[i] != tokens[j]
  }

  ghost predicate Spending(s: State) {
    exists id :: id in s.callers && Spends(s.callers[id])
  }

  /** The stored credential is unspent, except while the exchange that spent it has not yet saved its successor. */
  ghost predicate Unspent(s: State) {
    && NoRepeats(s.presented)
    && (!Spending(s) ==> s.stored !in s.presented)
    && (forall id :: id in s.callers && s.callers[id].Saving? ==>
          s.callers[id].response.refresh.Some? && s.callers[id].response.refresh.value !in s.presented)
  }

  /** A step other than the save leaves a spending caller spending. */
  lemma SpendingStays(s: State, a: Action, id: nat)
    requires OneLock(s) && Enabled(s, a) && Rotates(s, a) && !a.Save?
    requires id in s.callers && Spends(s.callers[id])
    ensures id in Next(s, a).callers && Spends(Next(s, a).callers[id])
  {
    if !a.Tick? && a.id in s.callers && HoldsLock(s.callers[a.id]) {
      AtMostOneInside(s, id, a.id);
    }
  }

  /** Nobody else spends while one caller is inside. */
  lemma SpenderIsInside(s: State, inside: nat)
    requires OneLock(s) && inside in s.callers && HoldsLock(s.callers[inside]) && !Spends(s.callers[inside])
    ensures !Spending(s)
  {
    if id :| id in s.callers && Spends(s.callers[id]) {
      AtMostOneInside(s, id, inside);
      assert false;
    }
  }

  lemma StepKeepsUnspent(s: State, a: Action)
    requires OneLock(s) && Unspent(s) && Enabled(s, a) && Rotates(s, a)
    ensures Unspent(Next(s, a))
  {
    var s' := Next(s, a);
    if Spending(s) && !a.Save? {
      var id :| id in s.callers && Spends(s.callers[id]);
      SpendingStays(s, a, id);
    }
    if a.Send? {
      SpenderIsInside(s, a.id);
      assert s'.callers[a.id].InFlight?;
    }
    if a.Send? || a.Save? {
      forall id | id in s.callers && HoldsLock(s.callers[id]) ensures id == a.id {
        AtMostOneInside(s, id, a.id);
      }
    }
    hide OneLock;
  }

  /** If every exchange succeeds, rotates and is saved, no refresh token is ever sent twice. */
  lemma NoTokenPresentedTwice(s: State, run: seq<Action>)
    requires Quiet(s) && IsRun(s, run) && RotatingRun(s, run)
    ensures NoRepeats(Run(s, run).presented)
  {
    RunKeepsUnspent(s, run);
  }

  lemma {:induction false} RunKeepsUnspent(s: State, run: seq<Action>)
    requires OneLock(s) && Unspent(s) && IsRun(s, run) && RotatingRun(s, run)
    ensures Unspent(Run(s, run))
    decreases |run|
  {
    if run != [] {
      StepKeepsOneLock(s, run[0]);
      StepKeepsUnspent(s, run[0]);
      RunKeepsUnspent(Next(s, run[0]), run[1..]);
    }
  }

  // ===== When a refresh token is presented twice =====

  /** The server never hands out a token that was already presented; it may fail or not rotate at all. */
  predicate Honest(s: State, a: Action)
    requires Enabled(s, a)
  {
    a.Receive? && a.response.refresh.Some? ==> a.response.refresh.value !in s.presented
  }

  predicate HonestRun(s: State, run: seq<Action>)
    requires IsRun(s, run)
    decreases |run|
  {
    run == [] || (Honest(s, run[0]) && HonestRun(Next(s, run[0]), run[1..]))
  }

  /** Whether the stored token has been sent since it was stored: sending spends it, saving a rotated one replaces it. */
  function SpentAfter(s: State, a: Action, spent: bool): bool
    requires Enabled(s, a)
  {
    if a.Send? then true
    else if a.Save? && s.callers[a.id].response.refresh.Some? then false
    else spent
  }

  /** Some exchange starts although the one before it failed, was cancelled or brought no rotated token that was saved. */
  predicate Resends(s: State, run: seq<Action>, spent: bool)
    requires IsRun(s, run)
    decreases |run|
  {
    run != [] && ((run[0].Send? && spent) || Resends(Next(s, run[0]), run[1..], SpentAfter(s, run[0], spent)))
  }

  /** The stored token is among the presented ones exactly while it is spent, and a token waiting to be saved is not. */
  ghost predicate Tallied(s: State, spent: bool) {
    && (s.stored in s.presented <==> spent)
    && (forall id :: id in s.callers && s.callers[id].Saving? && s.callers[id].response.refresh.Some? ==>
          s.callers[id].response.refresh.value !in s.presented)
  }

  lemma StepKeepsTally(s: State, a: Action, spent: bool)
    requires OneLock(s) && Tallied(s, spent) && Enabled(s, a) && Honest(s, a)
    ensures Tallied(Next(s, a), SpentAfter(s, a, spent))
    ensures Next(s, a).presented == s.presented + if a.Send? then [s.stored] else []
  {
    if a.Send? {
      forall id | id in s.callers && HoldsLock(s.callers[id]) ensures id == a.id {
        AtMostOneInside(s, id, a.id);
      }
    }
    hide OneLock;
  }

  lemma {:induction false} PresentedGrows(s: State, run: seq<Action>)
    requires IsRun(s, run)
    ensures s.presented <= Run(s, run).presented
    decreases |run|
  {
    if run != [] {
      assert s.presented <= Next(s, run[0]).presented;
      PresentedGrows(Next(s, run[0]), run[1..]);
    }
  }

  lemma {:induction false} RepeatsIffResends(s: State, run: seq<Action>, spent: bool)
    requires OneLock(s) && Tallied(s, spent) && NoRepeats(s.presented) && IsRun(s, run) && HonestRun(s, run)
    ensures NoRepeats(Run(s, run).presented) <==> !Resends(s, run, spent)
    decreases |run|
  {
    if run != [] {
      var a, s' := run[0], Next(s, run[0]);
      StepKeepsOneLock(s, a);
      StepKeepsTally(s, a, spent);
      hide OneLock, Tallied, Next;
      if a.Send? && spent {
        PresentedGrows(s', run[1..]);
        var k :| 0 <= k < |s.presented| && s.presented[k] == s.stored;
        assert s'.presented[k] == s'.presented[|s.presented|];
      } else {
        RepeatsIffResends(s', run[1..], SpentAfter(s, a, spent));
      }
    }
  }

  /**
    Over every run against an honest server, whatever fails, is cancelled or does not rotate: some refresh
    token is presented twice if and only if an exchange starts while the token of an earlier one has not been
    replaced by a saved, rotated one.
   */
  lemma TokenPresentedTwiceIff(s: State, run: seq<Action>)
    requires Quiet(s) && IsRun(s, run) && HonestRun(s, run)
    ensures !NoRepeats(Run(s, run).presented) <==> Resends(s, run, false)
  {
    RepeatsIffResends(s, run, false);
  }

  /** One caller goes all the way to sending, and fails there. */
  function FailedTry(id: nat, more: seq<Action>): seq<Action> {
    [Arrive(id, Force)] + ([CheckCache(id)] + ([LookUpLock(id)] + ([Acquire(id)] + ([Recheck(id)] + ([Send(id)] + ([Abort(id)] + more))))))
  }

  lemma Cons(s: State, a: Action, run: seq<Action>)
    requires Enabled(s, a) && IsRun(Next(s, a), run)
    ensures IsRun(s, [a] + run) && Run(s, [a] + run) == Run(Next(s, a), run)
  {
    assert ([a] + run)[1..] == run;
  }

  function AfterFailedTry(s: State, id: nat): State {
    s.(callers := s.callers[id := Failed], presented := s.presented + [s.stored], failures := s.failures + 1)
  }

  function Inside(s: State, id: nat): State
    requires s.lockEntry.Some?
  {
    Move(s.(holders := s.holders[s.lockEntry.value := id]), id, Locked(Force, s.lockEntry.value))
  }

  lemma GetsInside(s: State, id: nat, more: seq<Action>)
    requires id !in s.callers && s.lockEntry.Some? && s.lockEntry.value !in s.holders
    requires IsRun(Inside(s, id), more)
    ensures var run := [Arrive(id, Force)] + ([CheckCache(id)] + ([LookUpLock(id)] + ([Acquire(id)] + more)));
            IsRun(s, run) && Run(s, run) == Run(Inside(s, id), more)
  {
    var s1 := Move(s, id, Arrived(Force));
    var s2 := Move(s, id, FindingLock(Force));
    var s3 := Move(s, id, Waiting(Force, s.lockEntry.value));
    assert Next(s, Arrive(id, Force)) == s1 && Next(s1, CheckCache(id)) == s2 && Next(s2, LookUpLock(id)) == s3;
    assert Next(s3, Acquire(id)) == Inside(s, id);
    hide Next, IsRun, Run;
    Cons(s3, Acquire(id), more);
    Cons(s2, LookUpLock(id), [Acquire(id)] + more);
    Cons(s1, CheckCache(id), [LookUpLock(id)] + ([Acquire(id)] + more));
    Cons(s, Arrive(id, Force), [CheckCache(id)] + ([LookUpLock(id)] + ([Acquire(id)] + more)));
  }

  lemma SendsAndFails(s: State, id: nat, more: seq<Action>)
    requires id !in s.callers && s.lockEntry.Some? && s.lockEntry.value !in s.holders
    requires IsRun(AfterFailedTry(s, id), more)
    ensures var run := [Recheck(id)] + ([Send(id)] + ([Abort(id)] + more));
            IsRun(Inside(s, id), run) && Run(Inside(s, id), run) == Run(AfterFailedTry(s, id), more)
  {
    var l := s.lockEntry.value;
    var held := s.(holders := s.holders[l := id]);
    var s5 := Move(held, id, Loading(Force, l));
    var s6 := Move(held.(presented := s.presented + [s.stored]), id, InFlight(Force, l));
    assert s.holders[l := id] - {l} == s.holders;
    assert Next(Inside(s, id), Recheck(id)) == s5 && Next(s5, Send(id)) == s6;
    assert Next(s6, Abort(id)) == AfterFailedTry(s, id);
    hide Next, IsRun, Run;
    Cons(s6, Abort(id), more);
    Cons(s5, Send(id), [Abort(id)] + more);
    Cons(Inside(s, id), Recheck(id), [Send(id)] + ([Abort(id)] + more));
  }

  lemma TryFails(s: State, id: nat, more: seq<Action>)
    requires id !in s.callers && s.lockEntry.Some? && s.lockEntry.value !in s.holders
    requires IsRun(AfterFailedTry(s, id), more)
    ensures IsRun(s, FailedTry(id, more)) && Run(s, FailedTry(id, more)) == Run(AfterFailedTry(s, id), more)
  {
    hide IsRun, Run, AfterFailedTry, Inside;
    SendsAndFails(s, id, more);
    GetsInside(s, id, [Recheck(id)] + ([Send(id)] + ([Abort(id)] + more)));
  }

  /** The failing run: one exchange is cancelled after it was sent, and the next caller sends the same token again. */
  lemma CancelledExchangeResends(token: nat)
    ensures var s := State(0, None, token, Some(0), map[], map[], [], 0, 0);
            var run := FailedTry(0, FailedTry(1, []));
            && Quiet(s) && IsRun(s, run) && Run(s, run).presented == [token, token]
  {
    var s := State(0, None, token, Some(0), map[], map[], [], 0, 0);
    TryFails(AfterFailedTry(s, 0), 1, []);
    TryFails(s, 0, FailedTry(1, []));
  }

  // ===== One stale token, one exchange =====

  /** The cached token is the one everybody saw: rejected upstream, or absent or about to expire. */
  predicate Stale(s: State) {
    s.cache.Some? ==> ExpiringSoon(s.cache.value, s.now)
  }

  /**
    The run's callers all react to the token cached at its start: rejection callers name it, and plain
    callers take part only when it was already stale. The clock stays within `horizon`, and every
    response brings a different token that is not expiring soon even then.
   */
  predicate Reacts(stale: bool, seen: nat, horizon: int, a: Action) {
    match a
    case Tick(now) => now <= horizon
    case Arrive(_, kind) => kind == Rejected(seen) || (kind.Valid? && stale)
    case Receive(_, r) => r.access != seen && r.expiresAt - horizon >= REFRESH_BUFFER_MS
    case _ => true
  }

  predicate ReactingRun(stale: bool, seen: nat, horizon: int, run: seq<Action>) {
    forall i :: 0 <= i < |run| ==> Reacts(stale, seen, horizon, run[i])
  }

  ghost predicate Busy(s: State) {
    exists id :: id in s.callers && Exchanging(s.callers[id])
  }

  predicate CallerReacts(stale: bool, seen: nat, horizon: int, s: State, c: Caller) {
    && (c.Done? ==> s.published == 1 && s.cache.Some? && c.token == s.cache.value.access)
    && (!c.Done? && !c.Failed? ==> c.kind == Rejected(seen) || (c.kind.Valid? && stale))
    && (c.Loading? || Exchanging(c) ==> s.published == 0)
    && (c.Saving? || c.Publishing? ==> c.response.access != seen && c.response.expiresAt - horizon >= REFRESH_BUFFER_MS)
  }

  ghost predicate CallersReact(stale: bool, seen: nat, horizon: int, s: State) {
    forall id :: id in s.callers ==> CallerReacts(stale, seen, horizon, s, s.callers[id])
  }

  /** What is known of the cache: the old token until the exchange is published, its lasting successor after. */
  predicate CacheReacts(stale: bool, seen: nat, horizon: int, s: State) {
    && s.now <= horizon
    && s.published <= 1
    && (s.published == 0 ==> (s.cache.Some? ==> s.cache.value.access == seen && (stale ==> ExpiringSoon(s.cache.value, s.now))))
    && (s.published == 1 ==>
          s.cache.Some? && s.cache.value.access != seen && s.cache.value.expiresAt - horizon >= REFRESH_BUFFER_MS)
  }

  ghost predicate OneExchange(stale: bool, seen: nat, horizon: int, s: State) {
    && CacheReacts(stale, seen, horizon, s)
    && CallersReact(stale, seen, horizon, s)
    && |s.presented| == s.published + s.failures + (if Busy(s) then 1 else 0)
  }

  /** The caller that moves keeps to the pattern, and so does the cache. */
  lemma MoverReacts(stale: bool, seen: nat, horizon: int, s: State, a: Action)
    requires CacheReacts(stale, seen, horizon, s) && Enabled(s, a) && Reacts(stale, seen, horizon, a)
    requires !a.Tick? && a.id in s.callers ==> CallerReacts(stale, seen, horizon, s, s.callers[a.id])
    ensures CacheReacts(stale, seen, horizon, Next(s, a))
    ensures !a.Tick? ==> CallerReacts(stale, seen, horizon, Next(s, a), Next(s, a).callers[a.id])
  {
  }

  /** The callers that do not move keep to it as well: a publication finds no other caller past its second check. */
  lemma OthersReact(stale: bool, seen: nat, horizon: int, s: State, a: Action, id: nat)
    requires OneLock(s) && CacheReacts(stale, seen, horizon, s) && Enabled(s, a)
    requires id in s.callers && (a.Tick? || id != a.id)
    requires CallerReacts(stale, seen, horizon, s, s.callers[id])
    requires a.Publish? ==> CallerReacts(stale, seen, horizon, s, s.callers[a.id])
    ensures id in Next(s, a).callers && CallerReacts(stale, seen, horizon, Next(s, a), s.callers[id])
    ensures Next(s, a).callers[id] == s.callers[id]
  {
    if a.Publish? {
      NobodyElseInside(s, a.id);
    }
  }

  lemma StepKeepsOneExchange(stale: bool, seen: nat, horizon: int, s: State, a: Action)
    requires OneLock(s) && OneExchange(stale, seen, horizon, s)
    requires Enabled(s, a) && Reacts(stale, seen, horizon, a)
    ensures OneExchange(stale, seen, horizon, Next(s, a))
  {
    var s' := Next(s, a);
    MoverReacts(stale, seen, horizon, s, a);
    OthersStay(s, a);
    CountStep(s, a);
    hide Next, CallerReacts, CacheReacts, OneLock, Busy;
    forall id | id in s'.callers ensures CallerReacts(stale, seen, horizon, s', s'.callers[id]) {
      if a.Tick? || id != a.id {
        OthersReact(stale, seen, horizon, s, a, id);
      }
    }
  }

  /** Sent exchanges are balanced by published, failed and current ones. */
  lemma CountStep(s: State, a: Action)
    requires OneLock(s) && Enabled(s, a) && |s.presented| == s.published + s.failures + (if Busy(s) then 1 else 0)
    ensures var s' := Next(s, a); |s'.presented| == s'.published + s'.failures + (if Busy(s') then 1 else 0)
  {
    BusyStep(s, a);
    hide OneLock, Busy;
  }

  /** Only sending starts an exchange, only publishing or aborting one ends it. */
  lemma BusyStep(s: State, a: Action)
    requires OneLock(s) && Enabled(s, a)
    ensures var s' := Next(s, a);
            && (a.Send? ==> !Busy(s) && Busy(s'))
            && (a.Publish? ==> Busy(s) && !Busy(s'))
            && (a.Abort? ==> (Exchanging(s.callers[a.id]) ==> Busy(s) && !Busy(s')) && (!Exchanging(s.callers[a.id]) ==> (Busy(s) <==> Busy(s'))))
            && (!a.Send? && !a.Publish? && !a.Abort? ==> (Busy(s) <==> Busy(s')))
  {
    var s' := Next(s, a);
    OthersStay(s, a);
    if !a.Tick? {
      MoverExchanges(s, a);
    }
    hide Next;
    if !a.Tick? && a.id in s.callers && HoldsLock(s.callers[a.id]) {
      forall id | id in s.callers && HoldsLock(s.callers[id]) ensures id == a.id {
        AtMostOneInside(s, id, a.id);
      }
    }
    hide OneLock;
    if Busy(s) {
      var id :| id in s.callers && Exchanging(s.callers[id]);
      assert a.Tick? || id != a.id ==> id in s'.callers && Exchanging(s'.callers[id]);
    }
    if Busy(s') {
      var id :| id in s'.callers && Exchanging(s'.callers[id]);
      assert a.Tick? || id != a.id ==> id in s.callers && Exchanging(s.callers[id]);
    }
  }

  lemma OthersStay(s: State, a: Action)
    requires Enabled(s, a)
    ensures forall id :: (a.Tick? || id != a.id) ==> (id in Next(s, a).callers <==> id in s.callers)
    ensures forall id :: (a.Tick? || id != a.id) && id in s.callers ==> Next(s, a).callers[id] == s.callers[id]
  {
  }

  /** Whether the caller that moves was, and is, part of an exchange. */
  lemma MoverExchanges(s: State, a: Action)
    requires Enabled(s, a) && !a.Tick?
    ensures a.id in Next(s, a).callers && (Exchanging(Next(s, a).callers[a.id]) <==> a.Send? || a.Receive? || a.Save?)
    ensures a.id in s.callers && Exchanging(s.callers[a.id]) <==>
            a.Receive? || a.Save? || a.Publish? || (a.Abort? && Exchanging(s.callers[a.id]))
  {
  }

  /**
    Any number of callers that saw the same stale or rejected token: at most one exchange succeeds, every
    caller that succeeds returns the token it brought, and without failures exactly one was sent.
   */
  lemma OneStaleTokenOneExchange(s: State, seen: nat, horizon: int, run: seq<Action>)
    requires Quiet(s) && IsRun(s, run) && s.now <= horizon
    requires s.cache.Some? ==> s.cache.value.access == seen
    requires ReactingRun(Stale(s), seen, horizon, run)
    ensures var s' := Run(s, run);
            && |s'.presented| <= s'.failures + 1
            && (forall id :: id in s'.callers && s'.callers[id].Done? ==>
                  s'.published == 1 && s'.cache.Some? && s'.callers[id].token == s'.cache.value.access && s'.callers[id].token != seen)
            && ((exists id :: id in s'.callers && s'.callers[id].Done?) && s'.failures == 0 ==> |s'.presented| == 1)
  {
    RunKeepsOneExchange(Stale(s), seen, horizon, s, run);
    var s' := Run(s, run);
    RunKeepsOneLock(s, run);
    if Busy(s') {
      var id :| id in s'.callers && Exchanging(s'.callers[id]);
    }
  }

  lemma {:induction false} RunKeepsOneExchange(stale: bool, seen: nat, horizon: int, s: State, run: seq<Action>)
    requires OneLock(s) && OneExchange(stale, seen, horizon, s)
    requires IsRun(s, run) && ReactingRun(stale, seen, horizon, run)
    ensures OneExchange(stale, seen, horizon, Run(s, run))
    decreases |run|
  {
    if run != [] {
      StepKeepsOneLock(s, run[0]);
      StepKeepsOneExchange(stale, seen, horizon, s, run[0]);
      RunKeepsOneExchange(stale, seen, horizon, Next(s, run[0]), run[1..]);
    }
  }
}
