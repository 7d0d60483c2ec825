/**
  Saving the quota pool while accounts are being removed and added. `set_quota_pool` holds the selection lock
  but neither `remove_account` nor a login takes it, so both can run between any two of its awaits: after the
  known accounts were read, after the previous pool was copied, and while the new one is being persisted.
 */
module PoolRaces {
  import opened Common
  import opened AccountManager

  /** `removing` are the accounts already gone from the table whose pool rows are still to be dropped. */
  datatype Shared = Shared(accounts: map<AccountId, Account>, members: seq<Member>, removing: set<AccountId>)

  /** The two halves of `remove_account` that matter here, and a login of a new account. */
  datatype Change = Begin(id: AccountId) | Finish(id: AccountId) | SignIn(id: AccountId, account: Account)

  predicate Enabled(s: Shared, r: Change) {
    match r
    case Begin(id) => id in s.accounts && id !in s.removing
    case Finish(id) => id in s.removing
    case SignIn(_, _) => true
  }

  function Apply(s: Shared, r: Change): Shared {
    match r
    case SignIn(id, account) => s.(accounts := s.accounts[id := account])
    case Begin(id) => s.(accounts := s.accounts - {id}, removing := s.removing + {id})
    case Finish(id) => s.(members := Without(s.members, id), removing := s.removing - {id})
  }

  predicate IsRun(s: Shared, rs: seq<Change>)
    decreases |rs|
  {
    rs == [] || (IsRun(s, rs[..|rs| - 1]) && Enabled(After(s, rs[..|rs| - 1]), rs[|rs| - 1]))
  }

  function After(s: Shared, rs: seq<Change>): Shared
    decreases |rs|
  {
    if rs == [] then s else Apply(After(s, rs[..|rs| - 1]), rs[|rs| - 1])
  }

  /** Accounts whose rows may still be in the pool. */
  function Live(s: Shared): set<AccountId> {
    s.accounts.Keys + s.removing
  }

  function Finished(rs: seq<Change>): set<AccountId> {
    set r | r in rs && r.Finish? :: r.id
  }

  predicate RowsOk(ms: seq<Member>) {
    UniqueMembers(ms) && forall i :: 0 <= i < |ms| ==> MemberOk(ms[i])
  }

  /** What any run of changes does: only finished removals end an account's life, and they drop its rows and no others. */
  lemma {:induction false} ChangesEffect(s: Shared, rs: seq<Change>)
    requires IsRun(s, rs)
    ensures var s' := After(s, rs);
            && Live(s) - Finished(rs) <= Live(s')
            && (forall m :: m in s'.members <==> m in s.members && m.accountId !in Finished(rs))
            && (RowsOk(s.members) ==> RowsOk(s'.members))
    decreases |rs|
  {
    if rs != [] {
      var front, r := rs[..|rs| - 1], rs[|rs| - 1];
      ChangesEffect(s, front);
      FinishedSnoc(front, r);
      assert rs == front + [r];
      hide Finished, UniqueMembers;
      ChangeEffect(After(s, front), r);
    }
  }

  lemma FinishedSnoc(front: seq<Change>, r: Change)
    ensures Finished(front + [r]) == Finished(front) + if r.Finish? then {r.id} else {}
  {
  }

  lemma ChangeEffect(s: Shared, r: Change)
    requires Enabled(s, r)
    ensures var s' := Apply(s, r);
            && (!r.Finish? ==> Live(s) <= Live(s') && s'.members == s.members)
            && (r.Finish? ==> Live(s) - {r.id} <= Live(s')
                              && (forall m :: m in s'.members <==> m in s.members && m.accountId != r.id))
            && (RowsOk(s.members) ==> RowsOk(s'.members))
  {
    if r.Finish? {
      WithoutRows(s.members, r.id);
      if RowsOk(s.members) {
        WithoutStaysUnique(s.members, r.id);
        var kept := Without(s.members, r.id);
        forall i | 0 <= i < |kept| ensures MemberOk(kept[i]) {
          assert kept[i] in kept;
        }
      }
    }
  }

  /** The changes that fall between the awaits of one `set_quota_pool`. */
  datatype Schedule = Schedule(
    beforeCopy: seq<Change>,
    beforePublish: seq<Change>,
    beforePersisted: seq<Change>,
    afterwards: seq<Change>)

  function Copied(s: Shared, t: Schedule): Shared {
    After(s, t.beforeCopy)
  }

  function Published(s: Shared, settings: Pool, t: Schedule): Shared {
    After(Copied(s, t), t.beforePublish).(members := Sanitized(settings, s.accounts).members)
  }

  /** A failed persist puts the copy back. */
  function Settled(s: Shared, settings: Pool, persisted: bool, t: Schedule): Shared {
    var s' := After(Published(s, settings, t), t.beforePersisted);
    if persisted then s' else s'.(members := Copied(s, t).members)
  }

  function Outcome(s: Shared, settings: Pool, persisted: bool, t: Schedule): Shared {
    After(Settled(s, settings, persisted, t), t.afterwards)
  }

  predicate Legal(s: Shared, settings: Pool, persisted: bool, t: Schedule) {
    && IsRun(s, t.beforeCopy)
    && IsRun(Copied(s, t), t.beforePublish)
    && IsRun(Published(s, settings, t), t.beforePersisted)
    && IsRun(Settled(s, settings, persisted, t), t.afterwards)
  }

  /** The rows in force at the end, and the removals that finished while they were held outside the pool. */
  function Written(s: Shared, settings: Pool, persisted: bool, t: Schedule): seq<Member> {
    if persisted then Sanitized(settings, s.accounts).members else Copied(s, t).members
  }

  function Missed(persisted: bool, t: Schedule): set<AccountId> {
    if persisted then Finished(t.beforeCopy) + Finished(t.beforePublish)
    else Finished(t.beforePublish) + Finished(t.beforePersisted)
  }

  /** The removals that finished after those rows were back in the pool. */
  function Noticed(persisted: bool, t: Schedule): set<AccountId> {
    Finished(t.afterwards) + if persisted then Finished(t.beforePersisted) else {}
  }

  lemma Phases(s: Shared, settings: Pool, persisted: bool, t: Schedule)
    requires RowsOk(s.members) && Legal(s, settings, persisted, t)
    requires forall m :: m in s.members ==> m.accountId in Live(s)
    ensures var last := Outcome(s, settings, persisted, t);
            && RowsOk(last.members)
            && (forall m :: m in last.members <==> m in Written(s, settings, persisted, t) && m.accountId !in Noticed(persisted, t))
            && (forall m :: m in Written(s, settings, persisted, t) ==>
                 m.accountId in Live(last) || m.accountId in Missed(persisted, t) || m.accountId in Noticed(persisted, t))
  {
    hide Finished, RowsOk, After, Sanitized;
    ChangesEffect(s, t.beforeCopy);
    ChangesEffect(Copied(s, t), t.beforePublish);
    SanitizedRowsOk(settings, s.accounts);
    ChangesEffect(Published(s, settings, t), t.beforePersisted);
    ChangesEffect(Settled(s, settings, persisted, t), t.afterwards);
  }

  lemma SanitizedRowsOk(settings: Pool, accounts: map<AccountId, Account>)
    ensures RowsOk(Sanitized(settings, accounts).members)
    ensures forall m :: m in Sanitized(settings, accounts).members ==> m.accountId in accounts
  {
    SanitizedIsOk(settings, accounts);
    MembersOkByRow(Sanitized(settings, accounts).members, accounts);
  }

  /**
    Once all removals are through, rows are unique, clamped and paused only in the pool under every schedule;
    and the pool refers to known accounts only if and only if every account in the rows written last whose
    removal finished while those rows were held outside the pool, and not again afterwards, has signed in again.
   */
  lemma RacePoolIsKnownIff(s: Shared, settings: Pool, persisted: bool, t: Schedule)
    requires RowsOk(s.members) && (forall m :: m in s.members ==> m.accountId in Live(s))
    requires Legal(s, settings, persisted, t) && Outcome(s, settings, persisted, t).removing == {}
    ensures var last := Outcome(s, settings, persisted, t);
            && RowsOk(last.members)
            && (MembersOk(last.members, last.accounts) <==>
                forall m :: m in Written(s, settings, persisted, t) && m.accountId in Missed(persisted, t) && m.accountId !in Noticed(persisted, t) ==>
                  m.accountId in last.accounts)
  {
    var last := Outcome(s, settings, persisted, t);
    Phases(s, settings, persisted, t);
    hide Finished, Outcome, Written, Legal, Missed, Noticed;
    assert last.accounts.Keys == Live(last);
    MembersOkByRow(last.members, last.accounts);
  }

  lemma MembersOkByRow(ms: seq<Member>, accounts: map<AccountId, Account>)
    requires RowsOk(ms)
    ensures MembersOk(ms, accounts) <==> forall m :: m in ms ==> m.accountId in accounts
  {
    forall i | 0 <= i < |ms| ensures ms[i] in ms {}
  }

  lemma OneRowIsKept(m: Member, accounts: map<AccountId, Account>)
    requires m.accountId in accounts && MemberOk(m)
    ensures Sanitized(Pool(true, Rank, [m]), accounts).members == [m]
  {
    assert [m][..0] == [] && Retained([], accounts) == [];
    assert Retained([m], accounts) == [m];
  }

  /** The failing schedule: an account is removed after its row passed the check and before the pool is published. */
  lemma RemovedAccountReturns(id: AccountId, account: Account)
    ensures var s := Shared(map[id := account], [], {});
            var settings := Pool(true, Rank, [Member(id, true, false, 0, false)]);
            var t := Schedule([], [Begin(id), Finish(id)], [], []);
            && Legal(s, settings, true, t)
            && Outcome(s, settings, true, t).accounts == map[]
            && Has(Outcome(s, settings, true, t).members, id)
  {
    var s := Shared(map[id := account], [], {});
    var settings := Pool(true, Rank, [Member(id, true, false, 0, false)]);
    var m := settings.members[0];
    OneRowIsKept(m, s.accounts);
    WholeRemoval(s, id);
    hide Sanitized, Without;
    var last := Outcome(s, settings, true, Schedule([], [Begin(id), Finish(id)], [], []));
    assert last.members == [m] && last.members[0].accountId == id;
  }

  lemma WholeRemoval(s: Shared, id: AccountId)
    requires id in s.accounts && id !in s.removing
    ensures IsRun(s, [Begin(id), Finish(id)])
    ensures After(s, [Begin(id), Finish(id)]) == Apply(Apply(s, Begin(id)), Finish(id))
  {
    var one := [Begin(id)];
    assert one[..0] == [] && IsRun(s, []) && After(s, []) == s;
    assert IsRun(s, one) && After(s, one) == Apply(s, Begin(id));
    assert [Begin(id), Finish(id)][..1] == one;
  }
}
