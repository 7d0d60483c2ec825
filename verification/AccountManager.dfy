/**
  The ChatGPT account manager's bookkeeping: accounts, the selected default, and the quota pool.
  Outcomes of storage and of token validation are inputs; every operation says what state it leaves
  on each of them.
 */
module AccountManager {
  import opened Common

  const MAX_REVISION: nat := 0xFFFF_FFFF_FFFF_FFFF
  const MAX_FLOOR: nat := 100

  /** A credential selector: one user principal in one workspace. */
  datatype AccountId = AccountId(text: string)

  datatype Account = Account(workspace: Option<string>, email: Option<string>, authenticatedAt: int)

  datatype Strategy = Rank | Balanced

  datatype Member = Member(accountId: AccountId, inPool: bool, paused: bool, weeklyFloor: nat, maintainFiveHourWindow: bool)

  datatype Pool = Pool(enabled: bool, strategy: Strategy, members: seq<Member>)

  const DEFAULT_POOL := Pool(false, Rank, [])

  /** `credentials` are the accounts whose refresh token is in the encrypted store. */
  datatype State = State(
    accounts: map<AccountId, Account>,
    credentials: set<AccountId>,
    defaultId: Option<AccountId>,
    revision: nat,
    selectedAt: Option<int>,
    verified: bool,
    pool: Pool,
    active: Option<AccountId>)

  // ----- Pool membership -----

  predicate UniqueMembers(ms: seq<Member>) {
    forall i, j :: 0 <= i < j < |ms| ==> ms[i].accountId != ms[j].accountId
  }

  predicate Has(ms: seq<Member>, id: AccountId) {
    exists i :: 0 <= i < |ms| && ms[i].accountId == id
  }

  predicate MemberOk(m: Member) {
    m.weeklyFloor <= MAX_FLOOR && (m.paused ==> m.inPool)
  }

  predicate MembersOk(ms: seq<Member>, accounts: map<AccountId, Account>) {
    && UniqueMembers(ms)
    && (forall i :: 0 <= i < |ms| ==> MemberOk(ms[i]) && ms[i].accountId in accounts)
  }

  /** Known accounts only, and only the first row for each. */
  function Retained(ms: seq<Member>, accounts: map<AccountId, Account>): seq<Member>
    decreases |ms|
  {
    if ms == [] then []
    else
      var front, m := ms[..|ms| - 1], ms[|ms| - 1];
      if m.accountId in accounts && !Has(front, m.accountId) then Retained(front, accounts) + [m] else Retained(front, accounts)
  }

  function Clamped(m: Member): Member {
    m.(weeklyFloor := if m.weeklyFloor <= MAX_FLOOR then m.weeklyFloor else MAX_FLOOR, paused := m.inPool && m.paused)
  }

  function ClampedAll(ms: seq<Member>): seq<Member> {
    seq(|ms|, i requires 0 <= i < |ms| => Clamped(ms[i]))
  }

  function Sanitized(p: Pool, accounts: map<AccountId, Account>): Pool {
    p.(members := ClampedAll(Retained(p.members, accounts)))
  }

  /** `m` is the first row of its account. */
  predicate FirstRow(ms: seq<Member>, m: Member) {
    exists i :: 0 <= i < |ms| && ms[i] == m && !Has(ms[..i], m.accountId)
  }

  lemma FirstRowSnoc(front: seq<Member>, last: Member, m: Member)
    ensures FirstRow(front + [last], m) <==> FirstRow(front, m) || (last == m && !Has(front, m.accountId))
    ensures FirstRow(front, m) ==> Has(front, m.accountId)
  {
    var ms := front + [last];
    assert ms[..|front|] == front;
    forall i | 0 <= i < |front| ensures ms[..i] == front[..i] {}
    if last == m && !Has(front, m.accountId) {
      assert ms[|front|] == m;
    }
    if FirstRow(front, m) {
      var i :| 0 <= i < |front| && front[i] == m && !Has(front[..i], m.accountId);
      assert ms[i] == m;
    }
  }

  /** A retained row is exactly the first row of a known account. */
  lemma {:induction false} RetainedRows(ms: seq<Member>, accounts: map<AccountId, Account>)
    ensures UniqueMembers(Retained(ms, accounts))
    ensures forall m :: m in Retained(ms, accounts) <==> m.accountId in accounts && FirstRow(ms, m)
    decreases |ms|
  {
    if ms != [] {
      hide Has, FirstRow;
      var front, last := ms[..|ms| - 1], ms[|ms| - 1];
      var kept := Retained(front, accounts);
      assert ms == front + [last];
      RetainedRows(front, accounts);
      forall m ensures FirstRow(ms, m) <==> FirstRow(front, m) || (last == m && !Has(front, m.accountId)) {
        FirstRowSnoc(front, last, m);
      }
      if !Has(front, last.accountId) {
        forall k | 0 <= k < |kept| ensures kept[k].accountId != last.accountId {
          assert kept[k] in kept;
          FirstRowSnoc(front, last, kept[k]);
        }
      }
    } else {
      assert forall m :: !FirstRow([], m);
    }
  }

  lemma SanitizedIsOk(p: Pool, accounts: map<AccountId, Account>)
    ensures MembersOk(Sanitized(p, accounts).members, accounts)
  {
    var kept := Retained(p.members, accounts);
    RetainedRows(p.members, accounts);
    forall i | 0 <= i < |kept| ensures kept[i].accountId in accounts {
      assert kept[i] in kept;
    }
  }

  function Without(ms: seq<Member>, id: AccountId): seq<Member>
    decreases |ms|
  {
    if ms == [] then []
    else
      var front, m := ms[..|ms| - 1], ms[|ms| - 1];
      if m.accountId != id then Without(front, id) + [m] else Without(front, id)
  }

  lemma {:induction false} WithoutRows(ms: seq<Member>, id: AccountId)
    ensures forall m :: m in Without(ms, id) <==> m in ms && m.accountId != id
    decreases |ms|
  {
    if ms != [] {
      WithoutRows(ms[..|ms| - 1], id);
      assert ms == ms[..|ms| - 1] + [ms[|ms| - 1]];
    }
  }

  lemma {:induction false} WithoutStaysUnique(ms: seq<Member>, id: AccountId)
    requires UniqueMembers(ms)
    ensures UniqueMembers(Without(ms, id))
    decreases |ms|
  {
    if ms != [] {
      var front, last := ms[..|ms| - 1], ms[|ms| - 1];
      WithoutStaysUnique(front, id);
      WithoutRows(front, id);
      forall k | 0 <= k < |Without(front, id)| ensures Without(front, id)[k].accountId != last.accountId {
        assert Without(front, id)[k] in front;
      }
    }
  }

  // ----- Migrating a legacy row -----

  function Position(ms: seq<Member>, id: AccountId): (k: nat)
    ensures k <= |ms|
    ensures k < |ms| ==> ms[k].accountId == id
    ensures forall i :: 0 <= i < k ==> ms[i].accountId != id
  {
    if ms == [] || ms[0].accountId == id then 0 else 1 + Position(ms[1..], id)
  }

  function Dropped<T>(s: seq<T>, k: nat): seq<T>
    requires k < |s|
  {
    s[..k] + s[k + 1..]
  }

  /** A configured new row keeps its settings unless only the legacy row was in the pool. */
  function Adopted(existing: Member, legacy: Member): Member {
    var kept := if legacy.inPool && !existing.inPool
                then existing.(inPool := true, paused := legacy.paused, weeklyFloor := legacy.weeklyFloor) else existing;
    kept.(maintainFiveHourWindow := kept.maintainFiveHourWindow || legacy.maintainFiveHourWindow)
  }

  function Migrated(ms: seq<Member>, oldId: AccountId, newId: AccountId): seq<Member> {
    var k := Position(ms, oldId);
    if k == |ms| then ms
    else
      var rest := Dropped(ms, k);
      var n := Position(rest, newId);
      if n < |rest| then rest[n := Adopted(rest[n], ms[k])]
      else rest[..k] + [ms[k].(accountId := newId)] + rest[k..]
  }

  /** A migrated row: its own settings, and with an existing row joined in, that row's unless only the old one was in the pool. */
  lemma MigrationMeans(ms: seq<Member>, oldId: AccountId, newId: AccountId, k: nat)
    requires k < |ms| && ms[k].accountId == oldId && forall i :: 0 <= i < k ==> ms[i].accountId != oldId
    ensures var rest := ms[..k] + ms[k + 1..];
            var r, legacy := Migrated(ms, oldId, newId), ms[k];
            && ((forall i :: 0 <= i < |rest| ==> rest[i].accountId != newId) ==>
                 r == ms[k := Member(newId, legacy.inPool, legacy.paused, legacy.weeklyFloor, legacy.maintainFiveHourWindow)])
            && forall n :: 0 <= n < |rest| && rest[n].accountId == newId && (forall i :: 0 <= i < n ==> rest[i].accountId != newId) ==>
                 var joins := legacy.inPool && !rest[n].inPool;
                 r == rest[n := Member(newId, legacy.inPool || rest[n].inPool, if joins then legacy.paused else rest[n].paused,
                                       if joins then legacy.weeklyFloor else rest[n].weeklyFloor,
                                       legacy.maintainFiveHourWindow || rest[n].maintainFiveHourWindow)]
  {
    var rest := Dropped(ms, k);
    assert Position(ms, oldId) == k;
    var n := Position(rest, newId);
    if n == |rest| {
      assert rest[..k] == ms[..k] && rest[k..] == ms[k + 1..];
    }
  }

  /** Without a row of the old id nothing happens. */
  lemma NothingToMigrate(ms: seq<Member>, oldId: AccountId, newId: AccountId)
    requires !Has(ms, oldId)
    ensures Migrated(ms, oldId, newId) == ms
  {
    assert Position(ms, oldId) == |ms|;
  }

  /** Migration replaces the old id by the new one and keeps every other row in place, so the pool stays well formed. */
  lemma MigrationKeepsPool(ms: seq<Member>, oldId: AccountId, newId: AccountId, accounts: map<AccountId, Account>, accounts': map<AccountId, Account>)
    requires MembersOk(ms, accounts) && newId in accounts'
    requires forall id :: id in accounts && id != oldId ==> id in accounts'
    ensures var r := Migrated(ms, oldId, newId);
            && MembersOk(r, accounts')
            && (oldId != newId ==> !Has(r, oldId))
            && (forall m :: m in ms && m.accountId != oldId && m.accountId != newId ==> m in r)
            && (Has(ms, oldId) ==> Has(r, newId))
  {
    var k := Position(ms, oldId);
    if k < |ms| {
      var rest := Dropped(ms, k);
      var n := Position(rest, newId);
      RestIsOk(ms, k, accounts, accounts');
      assert n == |rest| ==> !Has(rest, newId);
      hide MembersOk, Has, MemberOk, Dropped;
      if n < |rest| {
        MergedRow(rest, n, ms[k], accounts');
      } else {
        InsertedRow(rest, k, ms[k].(accountId := newId), accounts');
      }
    }
  }

  /** What is left of the pool without one row. */
  lemma RestIsOk(ms: seq<Member>, k: nat, accounts: map<AccountId, Account>, accounts': map<AccountId, Account>)
    requires k < |ms| && MembersOk(ms, accounts)
    requires forall id :: id in accounts && id != ms[k].accountId ==> id in accounts'
    ensures MembersOk(Dropped(ms, k), accounts') && !Has(Dropped(ms, k), ms[k].accountId) && MemberOk(ms[k])
    ensures forall m :: m in ms && m.accountId != ms[k].accountId ==> m in Dropped(ms, k)
  {
    var rest := Dropped(ms, k);
    DroppedRows(ms, k);
    hide Dropped;
    forall i | 0 <= i < |rest| ensures MemberOk(rest[i]) && rest[i].accountId in accounts' && rest[i].accountId != ms[k].accountId {
      assert rest[i] in rest;
    }
  }

  lemma MergedRow(rest: seq<Member>, n: nat, legacy: Member, accounts: map<AccountId, Account>)
    requires n < |rest| && MembersOk(rest, accounts) && MemberOk(legacy)
    ensures var r := rest[n := Adopted(rest[n], legacy)];
            && MembersOk(r, accounts)
            && (forall id :: Has(r, id) <==> Has(rest, id))
            && (forall m :: m in rest && m.accountId != rest[n].accountId ==> m in r)
            && Has(r, rest[n].accountId)
  {
    var r := rest[n := Adopted(rest[n], legacy)];
    assert forall i :: 0 <= i < |r| ==> r[i].accountId == rest[i].accountId;
    forall m | m in rest && m.accountId != rest[n].accountId ensures m in r {
      var i :| 0 <= i < |rest| && rest[i] == m;
      assert r[i] == m;
    }
  }

  lemma DroppedRows(ms: seq<Member>, k: nat)
    requires k < |ms| && UniqueMembers(ms)
    ensures UniqueMembers(Dropped(ms, k))
    ensures forall m :: m in Dropped(ms, k) <==> m in ms && m.accountId != ms[k].accountId
    ensures forall m :: m in ms && m.accountId != ms[k].accountId ==> exists i :: 0 <= i < |Dropped(ms, k)| && Dropped(ms, k)[i] == m
  {
  }

  lemma InsertedRow(rest: seq<Member>, k: nat, m: Member, accounts: map<AccountId, Account>)
    requires k <= |rest| && MembersOk(rest, accounts) && MemberOk(m) && m.accountId in accounts && !Has(rest, m.accountId)
    ensures var r := rest[..k] + [m] + rest[k..];
            && MembersOk(r, accounts)
            && (forall id :: Has(r, id) <==> id == m.accountId || Has(rest, id))
            && (forall x :: x in rest ==> x in r)
  {
    hide MemberOk;
    var r := rest[..k] + [m] + rest[k..];
    InsertIndices(rest, k, m);
    assert forall j :: 0 <= j < |rest| ==> rest[j].accountId != m.accountId;
    forall x | x in rest ensures x in r {
      var j :| 0 <= j < |rest| && rest[j] == x;
      assert r[if j < k then j else j + 1] == x;
    }
    forall id ensures Has(r, id) <==> id == m.accountId || Has(rest, id) {
      InsertHas(rest, k, m, id);
    }
  }

  lemma InsertIndices(rest: seq<Member>, k: nat, m: Member)
    requires k <= |rest|
    ensures var r := rest[..k] + [m] + rest[k..];
            && |r| == |rest| + 1 && r[k] == m
            && (forall i :: 0 <= i < k ==> r[i] == rest[i])
            && (forall i :: k < i < |r| ==> r[i] == rest[i - 1])
  {
  }

  lemma InsertHas(rest: seq<Member>, k: nat, m: Member, id: AccountId)
    requires k <= |rest|
    ensures Has(rest[..k] + [m] + rest[k..], id) <==> id == m.accountId || Has(rest, id)
  {
    var r := rest[..k] + [m] + rest[k..];
    InsertIndices(rest, k, m);
    if Has(rest, id) {
      var j :| 0 <= j < |rest| && rest[j].accountId == id;
      assert r[if j < k then j else j + 1].accountId == id;
    }
    if id == m.accountId {
      assert r[k].accountId == id;
    }
    if Has(r, id) && id != m.accountId {
      var i :| 0 <= i < |r| && r[i].accountId == id;
      assert rest[if i < k then i else i - 1].accountId == id;
    }
  }

  // ----- Operations -----

  /** The account a login signs in, with the workspace it bills. */
  datatype Identity = Identity(id: AccountId, workspace: string, email: Option<string>)

  datatype Op =
    | SetQuotaPool(settings: Pool, persisted: bool)
    | SetDefault(id: AccountId, grantValid: bool, persisted: bool, now: int)
    | RemoveAccount(id: AccountId, credentialRemoved: bool, order: seq<AccountId>, persisted: bool)
    | Clear(order: seq<AccountId>, removed: nat, persisted: bool)
    | Login(identity: Identity, credentialSaved: bool, legacyRemoved: bool, persisted: bool, now: int)

  datatype Step = Step(ok: bool, state: State)

  function LowerAscii(s: string): (r: string)
    ensures |r| == |s|
    ensures forall i :: 0 <= i < |s| ==> r[i] == if 'A' <= s[i] <= 'Z' then s[i] - 'A' + 'a' else s[i]
    decreases |s|
  {
    if s == "" then "" else [if 'A' <= s[0] <= 'Z' then s[0] - 'A' + 'a' else s[0]] + LowerAscii(s[1..])
  }

  function Trim(s: string): (r: string)
    ensures r == "" || (!IsSpace(r[0]) && !IsSpace(r[|r| - 1]))
    decreases |s|
  {
    if s == "" then ""
    else if IsSpace(s[0]) then Trim(s[1..])
    else if IsSpace(s[|s| - 1]) then Trim(s[..|s| - 1])
    else s
  }

  /** `r` is `s` without the white space around it. */
  predicate IsTrimmed(s: string, r: string, from: nat) {
    && from + |r| <= |s| && s[from..from + |r|] == r
    && (forall i :: 0 <= i < from ==> IsSpace(s[i]))
    && (forall i :: from + |r| <= i < |s| ==> IsSpace(s[i]))
    && (r == "" || (!IsSpace(r[0]) && !IsSpace(r[|r| - 1])))
  }

  lemma {:induction false} TrimMeans(s: string) returns (from: nat)
    ensures IsTrimmed(s, Trim(s), from)
    decreases |s|
  {
    from := 0;
    if s != "" {
      if IsSpace(s[0]) {
        from := TrimMeans(s[1..]);
        from := from + 1;
      } else if IsSpace(s[|s| - 1]) {
        from := TrimMeans(s[..|s| - 1]);
      }
    }
  }

  /** Equal up to the case of ASCII letters. */
  predicate SameIgnoringCase(a: string, b: string) {
    |a| == |b| && forall i :: 0 <= i < |a| ==>
      a[i] == b[i] || ('A' <= a[i] <= 'Z' && b[i] == a[i] - 'A' + 'a') || ('A' <= b[i] <= 'Z' && a[i] == b[i] - 'A' + 'a')
  }

  lemma LowerMeans(a: string, b: string)
    ensures LowerAscii(a) == LowerAscii(b) <==> SameIgnoringCase(a, b)
  {
    var la, lb := LowerAscii(a), LowerAscii(b);
    if la == lb {
      forall i | 0 <= i < |a|
        ensures a[i] == b[i] || ('A' <= a[i] <= 'Z' && b[i] == a[i] - 'A' + 'a') || ('A' <= b[i] <= 'Z' && a[i] == b[i] - 'A' + 'a')
      {
        assert la[i] == lb[i];
      }
    }
    if SameIgnoringCase(a, b) {
      forall i | 0 <= i < |la| ensures la[i] == lb[i] {}
    }
  }

  /** The version-1 row of the same user: keyed by the workspace, with no workspace of its own. */
  function LegacyRow(accounts: map<AccountId, Account>, who: Identity): Option<AccountId> {
    var key := AccountId(who.workspace);
    if who.email.Some? && Trim(who.email.value) != "" && key in accounts && accounts[key].workspace.None?
       && accounts[key].email.Some? && LowerAscii(Trim(accounts[key].email.value)) == LowerAscii(Trim(who.email.value))
    then Some(key) else None
  }

  /** A row is replaced exactly if it is kept under the workspace id, has no workspace of its own, and bears the same address up to case and outer space. */
  lemma LegacyRowMeans(accounts: map<AccountId, Account>, who: Identity, k: AccountId)
    ensures LegacyRow(accounts, who) == Some(k) <==>
            && k == AccountId(who.workspace) && k in accounts && accounts[k].workspace == None
            && who.email.Some? && accounts[k].email.Some?
            && Trim(who.email.value) != "" && SameIgnoringCase(Trim(accounts[k].email.value), Trim(who.email.value))
  {
    if who.email.Some? && k in accounts && accounts[k].email.Some? {
      LowerMeans(Trim(accounts[k].email.value), Trim(who.email.value));
    }
  }

  /** The most recently authenticated account, the later one in `order` (the account table's iteration order) on a tie. */
  function Latest(accounts: map<AccountId, Account>, order: seq<AccountId>): (r: Option<AccountId>)
    ensures r.Some? ==> r.value in accounts
    ensures forall id :: id in order && id in accounts ==>
              r.Some? && accounts[id].authenticatedAt <= accounts[r.value].authenticatedAt
    ensures r.Some? ==> exists i :: 0 <= i < |order| && order[i] == r.value
                          && forall j :: i < j < |order| && order[j] in accounts ==> accounts[order[j]].authenticatedAt < accounts[r.value].authenticatedAt
    decreases |order|
  {
    if order == [] then None
    else
      assert order == order[..|order| - 1] + [order[|order| - 1]];
      var best, id := Latest(accounts, order[..|order| - 1]), order[|order| - 1];
      if id in accounts && (best.None? || accounts[best.value].authenticatedAt <= accounts[id].authenticatedAt) then Some(id) else best
  }

  function SetQuotaPoolStep(s: State, settings: Pool, persisted: bool): Step {
    if !persisted then Step(false, s)
    else Step(true, s.(pool := Sanitized(settings, s.accounts), active := if settings.enabled then s.active else None))
  }

  function SetDefaultStep(s: State, id: AccountId, grantValid: bool, persisted: bool, now: int): Step {
    if id !in s.accounts || !grantValid || !persisted then Step(false, s)
    else
      Step(true, s.(defaultId := Some(id), revision := if s.revision < MAX_REVISION then s.revision + 1 else s.revision,
                    selectedAt := Some(now), verified := true))
  }

  function RemoveAccountStep(s: State, id: AccountId, credentialRemoved: bool, order: seq<AccountId>, persisted: bool): Step {
    if id !in s.accounts then Step(false, s)
    else
      var s' := s.(accounts := s.accounts - {id}, pool := s.pool.(members := Without(s.pool.members, id)),
                   active := if s.active == Some(id) then None else s.active);
      if !credentialRemoved then Step(false, s')
      else
        Step(persisted, s'.(credentials := s.credentials - {id},
                            defaultId := if s.defaultId == Some(id) then Latest(s'.accounts, order) else s.defaultId))
  }

  /** `order` is the account table's iteration order; the credential after the first `removed` ones cannot be removed. */
  function ClearStep(s: State, order: seq<AccountId>, removed: nat, persisted: bool): Step {
    if removed < |order| then Step(false, s.(credentials := s.credentials - (set id | id in order[..removed])))
    else
      Step(persisted, s.(accounts := map[], credentials := s.credentials - (set id | id in order),
                         pool := DEFAULT_POOL, active := None, defaultId := None))
  }

  /** Replacing a legacy row: its pool membership, activity and selection move to the new credential. */
  function Replaced(s: State, legacy: AccountId, id: AccountId, now: int): State {
    var s' := s.(accounts := s.accounts - {legacy}, credentials := s.credentials - {legacy}, pool := s.pool.(members := Migrated(s.pool.members, legacy, id)),
                 active := if s.active == Some(legacy) then Some(id) else s.active);
    if s.defaultId == Some(legacy)
    then s'.(defaultId := Some(id), revision := (s.revision + 1) % (MAX_REVISION + 1), selectedAt := Some(now), verified := true)
    else s'
  }

  function LoginStep(s: State, who: Identity, credentialSaved: bool, legacyRemoved: bool, persisted: bool, now: int): Step {
    var legacy := LegacyRow(s.accounts, who);
    var saved := s.(credentials := s.credentials + {who.id});
    if !credentialSaved then Step(false, s)
    else if legacy.Some? && !legacyRemoved then Step(false, saved)
    else
      var s1 := if legacy.Some? then Replaced(saved, legacy.value, who.id, now) else saved;
      Step(persisted, s1.(accounts := s1.accounts[who.id := Account(Some(who.workspace), who.email, now)],
                          defaultId := if s1.defaultId.None? then Some(who.id) else s1.defaultId))
  }

  function Perform(s: State, op: Op): Step {
    match op
    case SetQuotaPool(settings, persisted) => SetQuotaPoolStep(s, settings, persisted)
    case SetDefault(id, grantValid, persisted, now) => SetDefaultStep(s, id, grantValid, persisted, now)
    case RemoveAccount(id, removed, order, persisted) => RemoveAccountStep(s, id, removed, order, persisted)
    case Clear(order, removed, persisted) => ClearStep(s, order, removed, persisted)
    case Login(who, saved, removed, persisted, now) => LoginStep(s, who, saved, removed, persisted, now)
  }

  function PerformAll(s: State, ops: seq<Op>): State
    decreases |ops|
  {
    if ops == [] then s else PerformAll(Perform(s, ops[0]).state, ops[1..])
  }

  // ===== Invariants over every sequence of operations =====

  predicate PoolOk(s: State) {
    MembersOk(s.pool.members, s.accounts) && s.revision <= MAX_REVISION
  }

  lemma StepKeepsPool(s: State, op: Op)
    requires PoolOk(s)
    ensures PoolOk(Perform(s, op).state)
  {
    match op {
      case SetQuotaPool(settings, _) => SanitizedIsOk(settings, s.accounts);
      case RemoveAccount(id, _, _, _) => RemovalKeepsPool(s, id);
      case Login(who, _, _, _, now) =>
        var legacy := LegacyRow(s.accounts, who);
        if legacy.Some? {
          var accounts' := s.accounts - {legacy.value};
          MigrationKeepsPool(s.pool.members, legacy.value, who.id, s.accounts, accounts'[who.id := Account(Some(who.workspace), who.email, now)]);
        }
      case _ =>
    }
  }

  lemma RemovalKeepsPool(s: State, id: AccountId)
    requires MembersOk(s.pool.members, s.accounts)
    ensures MembersOk(Without(s.pool.members, id), s.accounts - {id})
  {
    var kept := Without(s.pool.members, id);
    WithoutRows(s.pool.members, id);
    WithoutStaysUnique(s.pool.members, id);
    forall i | 0 <= i < |kept| ensures MemberOk(kept[i]) && kept[i].accountId in s.accounts - {id} {
      assert kept[i] in kept;
    }
  }

  /** Members stay unique, known, clamped, and paused only in the pool, whatever fails on the way. */
  lemma {:induction false} PoolInvariant(s: State, ops: seq<Op>)
    requires PoolOk(s)
    ensures PoolOk(PerformAll(s, ops))
    decreases |ops|
  {
    if ops != [] {
      StepKeepsPool(s, ops[0]);
      PoolInvariant(Perform(s, ops[0]).state, ops[1..]);
    }
  }

  /** A stored pool is loaded as it is; the first pool the user saves makes it well formed, and it stays so. */
  lemma {:induction false} SavedPoolIsRepaired(s: State, ops: seq<Op>, k: nat)
    requires s.revision <= MAX_REVISION && k < |ops| && ops[k].SetQuotaPool? && ops[k].persisted
    ensures PoolOk(PerformAll(s, ops))
    decreases |ops|
  {
    var s' := Perform(s, ops[0]).state;
    if k == 0 {
      SanitizedIsOk(ops[0].settings, s.accounts);
      PoolInvariant(s', ops[1..]);
    } else {
      SavedPoolIsRepaired(s', ops[1..], k - 1);
    }
  }

  /** A selection succeeds exactly for a known account with a valid grant whose choice is persisted; it changes only the selection, and a failed one nothing. */
  lemma SelectionMeans(s: State, id: AccountId, grantValid: bool, persisted: bool, now: int)
    ensures var r := Perform(s, SetDefault(id, grantValid, persisted, now));
            && (r.ok <==> id in s.accounts && grantValid && persisted)
            && (!r.ok ==> r.state == s)
            && (r.ok ==> r.state == State(s.accounts, s.credentials, Some(id), if s.revision < 0xFFFF_FFFF_FFFF_FFFF then s.revision + 1 else s.revision,
                                          Some(now), true, s.pool, s.active))
  {
  }

  /** A saved pool keeps the retained rows in order, with floors cut to 100 and pauses only in the pool; a failed save changes nothing. */
  lemma PoolSaveMeans(s: State, settings: Pool, persisted: bool)
    ensures var r := Perform(s, SetQuotaPool(settings, persisted));
            var kept := Retained(settings.members, s.accounts);
            && r.ok == persisted
            && (!persisted ==> r.state == s)
            && (persisted ==>
                 && r.state == s.(pool := r.state.pool, active := if settings.enabled then s.active else None)
                 && r.state.pool.enabled == settings.enabled && r.state.pool.strategy == settings.strategy
                 && |r.state.pool.members| == |kept|
                 && forall i :: 0 <= i < |kept| ==>
                      var m := r.state.pool.members[i];
                      && m.accountId == kept[i].accountId && m.inPool == kept[i].inPool && m.maintainFiveHourWindow == kept[i].maintainFiveHourWindow
                      && m.paused == (kept[i].paused && kept[i].inPool)
                      && m.weeklyFloor == if kept[i].weeklyFloor > 100 then 100 else kept[i].weeklyFloor)
  {
  }

  /**
    A removal forgets a known account, its rows and its activity at once, its credential if that works, and
    then moves the selection to the most recent account left if it was the selected one.
   */
  lemma RemovalMeans(s: State, id: AccountId, credentialRemoved: bool, order: seq<AccountId>, persisted: bool)
    ensures var r := Perform(s, RemoveAccount(id, credentialRemoved, order, persisted));
            && (r.ok <==> id in s.accounts && credentialRemoved && persisted)
            && (id !in s.accounts ==> r.state == s)
            && (id in s.accounts ==>
                 && r.state.accounts == s.accounts - {id} && r.state.revision == s.revision
                 && r.state.selectedAt == s.selectedAt && r.state.verified == s.verified
                 && r.state.pool == s.pool.(members := r.state.pool.members)
                 && (forall m :: m in r.state.pool.members <==> m in s.pool.members && m.accountId != id)
                 && r.state.active == (if s.active == Some(id) then None else s.active)
                 && r.state.credentials == (if credentialRemoved then s.credentials - {id} else s.credentials)
                 && r.state.defaultId == (if credentialRemoved && s.defaultId == Some(id) then Latest(s.accounts - {id}, order) else s.defaultId))
  {
    WithoutRows(s.pool.members, id);
  }

  /** A clear forgets everything but the record of selections, or only some credentials. */
  lemma ClearMeans(s: State, order: seq<AccountId>, removed: nat, persisted: bool)
    requires Enumerates(order, s.accounts)
    ensures var r := Perform(s, Clear(order, removed, persisted));
            if removed < |order| then
              !r.ok && r.state == s.(credentials := r.state.credentials)
              && forall id :: id in r.state.credentials <==> id in s.credentials && id !in order[..removed]
            else
              && r.ok == persisted
              && r.state.accounts == map[] && r.state.defaultId == None && r.state.active == None
              && r.state.pool == Pool(false, Rank, []) && r.state.revision == s.revision
              && forall id :: id in r.state.credentials <==> id in s.credentials && id !in s.accounts
  {
  }

  /** A login adds the account; one that replaces a row also moves that row's selection and activity and retires it. */
  lemma LoginMeans(s: State, who: Identity, credentialSaved: bool, legacyRemoved: bool, persisted: bool, now: int)
    ensures var r := Perform(s, Login(who, credentialSaved, legacyRemoved, persisted, now));
            var legacy := LegacyRow(s.accounts, who);
            var done := credentialSaved && (legacy.Some? ==> legacyRemoved);
            && (r.ok <==> done && persisted)
            && (!done ==> r.state == s.(credentials := if credentialSaved then s.credentials + {who.id} else s.credentials))
            && (done ==>
                 && r.state.accounts == (s.accounts - (if legacy.Some? then {legacy.value} else {}))[who.id := Account(Some(who.workspace), who.email, now)]
                 && r.state.pool == s.pool.(members := if legacy.Some? then Migrated(s.pool.members, legacy.value, who.id) else s.pool.members)
                 && r.state.active == (if legacy.Some? && s.active == legacy then Some(who.id) else s.active)
                 && (if legacy.Some? && s.defaultId == legacy
                     then r.state.defaultId == Some(who.id) && r.state.selectedAt == Some(now) && r.state.verified
                     else r.state.defaultId == (if s.defaultId == None then Some(who.id) else s.defaultId)
                          && r.state.selectedAt == s.selectedAt && r.state.verified == s.verified && r.state.revision == s.revision))
  {
    hide LegacyRow, Migrated;
  }

  // ----- Credentials -----

  /** Every account has its credential. */
  predicate Grounded(s: State) {
    forall id :: id in s.accounts ==> id in s.credentials
  }

  ghost predicate Enumerates(order: seq<AccountId>, accounts: map<AccountId, Account>) {
    && (forall i, j :: 0 <= i < j < |order| ==> order[i] != order[j])
    && (forall id :: id in order <==> id in accounts)
  }

  /**
    An operation leaves an account without its credential in exactly two cases: a clear that stops partway,
    because no account is forgotten until all credentials are gone, and a login whose new id is the legacy
    row's own, because the row's credential is removed after the new one is saved.
   */
  lemma CredentialLostIff(s: State, op: Op)
    requires Grounded(s) && (op.Clear? ==> Enumerates(op.order, s.accounts))
    ensures !Grounded(Perform(s, op).state) <==>
            || (op.Clear? && 0 < op.removed < |op.order|)
            || (op.Login? && op.credentialSaved && op.legacyRemoved && LegacyRow(s.accounts, op.identity) == Some(op.identity.id))
  {
    var s' := Perform(s, op).state;
    if op.Clear? && 0 < op.removed < |op.order| {
      assert op.order[..op.removed][0] == op.order[0];
      assert op.order[0] in s'.accounts && op.order[0] !in s'.credentials;
    }
    hide LegacyRow, Migrated, Sanitized, Without, Latest;
    if op.Login? && op.credentialSaved && op.legacyRemoved && LegacyRow(s.accounts, op.identity) == Some(op.identity.id) {
      assert op.identity.id in s'.accounts && op.identity.id !in s'.credentials;
    }
  }

  /** The failing input: two accounts, and the second credential cannot be removed. */
  lemma PartialClearLosesCredential(a: AccountId, b: AccountId, account: Account)
    requires a != b
    ensures var s := State(map[a := account, b := account], {a, b}, None, 0, None, false, DEFAULT_POOL, None);
            Grounded(s) && !Grounded(Perform(s, Clear([a, b], 1, true)).state)
  {
    var s := State(map[a := account, b := account], {a, b}, None, 0, None, false, DEFAULT_POOL, None);
    assert [a, b][..1] == [a];
    assert a in Perform(s, Clear([a, b], 1, true)).state.accounts;
  }

  /** The other failing input: a user signs in whose credential id is the very workspace id their version-1 row is kept under. */
  lemma LoginLosesOwnCredential(now: int)
    ensures var id := AccountId("w");
            var s := State(map[id := Account(None, Some("u@x"), 0)], {id}, None, 0, None, false, DEFAULT_POOL, None);
            Grounded(s) && !Grounded(Perform(s, Login(Identity(id, "w", Some("u@x")), true, true, true, now)).state)
  {
    var id := AccountId("w");
    var s := State(map[id := Account(None, Some("u@x"), 0)], {id}, None, 0, None, false, DEFAULT_POOL, None);
    assert "u@x"[0] == 'u' && "u@x"[2] == 'x';
    CredentialLostIff(s, Login(Identity(id, "w", Some("u@x")), true, true, true, now));
  }

  /** The login moves the selection from a legacy row to its replacement. */
  predicate MovesSelection(s: State, op: Op) {
    && op.Login? && op.credentialSaved && op.legacyRemoved
    && LegacyRow(s.accounts, op.identity).Some?
    && s.defaultId == LegacyRow(s.accounts, op.identity)
  }

  /** The revision falls in exactly one case: a login moves the selection when the counter is already at its maximum and wraps. */
  lemma RevisionFallsIff(s: State, op: Op)
    requires s.revision <= MAX_REVISION
    ensures Perform(s, op).state.revision < s.revision <==> MovesSelection(s, op) && s.revision == MAX_REVISION
  {
    hide LegacyRow, Migrated, Sanitized, Without, Latest;
  }

  /** The failing input: a user signs in again over their selected version-1 row with the counter at its maximum. */
  lemma LoginWrapsRevision(id: AccountId, now: int)
    ensures var legacy := AccountId("w");
            var s := State(map[legacy := Account(None, Some("u@x"), 0)], {legacy}, Some(legacy), MAX_REVISION, None, true, DEFAULT_POOL, None);
            Perform(s, Login(Identity(id, "w", Some("u@x")), true, true, true, now)).state.revision == 0
  {
    assert "u@x"[0] == 'u' && "u@x"[2] == 'x';
  }

  /** How often the selection was published: by a successful choice, or by a login that moved it. */
  function SelectionsMade(s: State, ops: seq<Op>): nat
    decreases |ops|
  {
    if ops == [] then 0
    else
      (if (ops[0].SetDefault? && Perform(s, ops[0]).ok) || MovesSelection(s, ops[0]) then 1 else 0)
      + SelectionsMade(Perform(s, ops[0]).state, ops[1..])
  }

  predicate NeverWraps(s: State, ops: seq<Op>)
    decreases |ops|
  {
    ops == [] || (!(MovesSelection(s, ops[0]) && s.revision == MAX_REVISION) && NeverWraps(Perform(s, ops[0]).state, ops[1..]))
  }

  lemma RevisionStep(s: State, op: Op)
    requires s.revision <= MAX_REVISION && !(MovesSelection(s, op) && s.revision == MAX_REVISION)
    ensures var published := (op.SetDefault? && Perform(s, op).ok) || MovesSelection(s, op);
            Perform(s, op).state.revision == if published && s.revision < MAX_REVISION then s.revision + 1 else s.revision
  {
  }

  /** Over every run that does not wrap, the revision is the start plus the selections made, saturated at the maximum. */
  lemma {:induction false} RevisionCountsSelections(s: State, ops: seq<Op>)
    requires s.revision <= MAX_REVISION && NeverWraps(s, ops)
    ensures var due := s.revision + SelectionsMade(s, ops);
            PerformAll(s, ops).revision == if due <= MAX_REVISION then due else MAX_REVISION
    decreases |ops|
  {
    if ops != [] {
      RevisionStep(s, ops[0]);
      hide Perform, MovesSelection;
      RevisionCountsSelections(Perform(s, ops[0]).state, ops[1..]);
    }
  }

  // ----- The manager as an object -----

  class CodexOAuthManager {
    var accounts: map<AccountId, Account>
    var credentials: set<AccountId>
    var defaultId: Option<AccountId>
    var revision: nat
    var selectedAt: Option<int>
    var verified: bool
    var pool: Pool
    var active: Option<AccountId>

    function View(): State
      reads this
    {
      State(accounts, credentials, defaultId, revision, selectedAt, verified, pool, active)
    }

    constructor (s: State)
      ensures View() == s
    {
      accounts, credentials, defaultId, revision := s.accounts, s.credentials, s.defaultId, s.revision;
      selectedAt, verified, pool, active := s.selectedAt, s.verified, s.pool, s.active;
    }

    /** A failed persist puts the previous pool back. */
    method SetQuotaPool(settings: Pool, persisted: bool) returns (ok: bool)
      modifies this
      ensures Step(ok, View()) == SetQuotaPoolStep(old(View()), settings, persisted)
    {
      var seen: set<AccountId> := {};
      var kept: seq<Member> := [];
      assert settings.members[..0] == [];
      for i := 0 to |settings.members|
        invariant View() == old(View())
        invariant kept == Retained(settings.members[..i], accounts)
        invariant forall id :: id in seen <==> id in accounts && Has(settings.members[..i], id)
      {
        var m := settings.members[i];
        HasSnoc(settings.members, i);
        if m.accountId in accounts && m.accountId !in seen {
          kept := kept + [m];
        }
        if m.accountId in accounts {
          seen := seen + {m.accountId};
        }
      }
      assert settings.members[..|settings.members|] == settings.members;
      var members: seq<Member> := [];
      for i := 0 to |kept|
        invariant View() == old(View())
        invariant members == ClampedAll(kept[..i])
      {
        var floor := if kept[i].weeklyFloor <= MAX_FLOOR then kept[i].weeklyFloor else MAX_FLOOR;
        members := members + [kept[i].(weeklyFloor := floor, paused := if kept[i].inPool then kept[i].paused else false)];
      }
      assert kept[..|kept|] == kept;
      var previous := pool;
      pool := settings.(members := members);
      if !persisted {
        pool := previous;
        return false;
      }
      if !pool.enabled {
        active := None;
      }
      return true;
    }

    /** A failed persist puts the whole previous selection back. */
    method SetDefault(id: AccountId, grantValid: bool, persisted: bool, now: int) returns (ok: bool)
      modifies this
      ensures Step(ok, View()) == SetDefaultStep(old(View()), id, grantValid, persisted, now)
    {
      if id !in accounts || !grantValid {
        return false;
      }
      var previousId, previousRevision, previousAt, previousVerified := defaultId, revision, selectedAt, verified;
      defaultId := Some(id);
      revision := if previousRevision < MAX_REVISION then previousRevision + 1 else previousRevision;
      selectedAt := Some(now);
      verified := true;
      if !persisted {
        defaultId, revision, selectedAt, verified := previousId, previousRevision, previousAt, previousVerified;
        return false;
      }
      return true;
    }

    method RemoveAccount(id: AccountId, credentialRemoved: bool, order: seq<AccountId>, persisted: bool) returns (ok: bool)
      modifies this
      ensures Step(ok, View()) == RemoveAccountStep(old(View()), id, credentialRemoved, order, persisted)
    {
      if id !in accounts {
        return false;
      }
      accounts := accounts - {id};
      var kept: seq<Member> := [];
      assert pool.members[..0] == [];
      for i := 0 to |pool.members|
        invariant kept == Without(pool.members[..i], id)
        invariant View() == old(View()).(accounts := old(accounts) - {id})
      {
        assert pool.members[..i + 1][..i] == pool.members[..i];
        if pool.members[i].accountId != id {
          kept := kept + [pool.members[i]];
        }
      }
      assert pool.members[..|pool.members|] == pool.members;
      pool := pool.(members := kept);
      if active == Some(id) {
        active := None;
      }
      if !credentialRemoved {
        return false;
      }
      credentials := credentials - {id};
      if defaultId == Some(id) {
        defaultId := Latest(accounts, order);
      }
      return persisted;
    }

    /** Removes the credentials one by one, and forgets the accounts only when all are gone. */
    method Clear(order: seq<AccountId>, removed: nat, persisted: bool) returns (ok: bool)
      modifies this
      ensures Step(ok, View()) == ClearStep(old(View()), order, removed, persisted)
    {
      for i := 0 to |order|
        invariant i <= removed
        invariant View() == old(View()).(credentials := old(credentials) - (set id | id in order[..i]))
      {
        if i == removed {
          return false;
        }
        assert order[..i + 1] == order[..i] + [order[i]];
        credentials := credentials - {order[i]};
      }
      assert order[..|order|] == order;
      accounts, pool, active, defaultId := map[], DEFAULT_POOL, None, None;
      return persisted;
    }

    method MigrateQuotaPoolMember(oldId: AccountId, newId: AccountId)
      modifies this`pool
      ensures pool == old(pool).(members := Migrated(old(pool).members, oldId, newId))
    {
      hide Position;
      var oldIndex := FindMember(pool.members, oldId);
      if oldIndex == |pool.members| {
        return;
      }
      var legacy := pool.members[oldIndex];
      var rest := pool.members[..oldIndex] + pool.members[oldIndex + 1..];
      var index := FindMember(rest, newId);
      if index < |rest| {
        var existing := rest[index];
        if legacy.inPool && !existing.inPool {
          existing := existing.(inPool := true, paused := legacy.paused, weeklyFloor := legacy.weeklyFloor);
        }
        existing := existing.(maintainFiveHourWindow := existing.maintainFiveHourWindow || legacy.maintainFiveHourWindow);
        rest := rest[index := existing];
      } else {
        rest := rest[..oldIndex] + [legacy.(accountId := newId)] + rest[oldIndex..];
      }
      pool := pool.(members := rest);
    }

    /** Moves everything a version-1 row held to the credential that replaces it. */
    method ReplaceLegacy(legacy: AccountId, id: AccountId, now: int)
      modifies this
      ensures View() == Replaced(old(View()), legacy, id, now)
    {
      hide Migrated;
      credentials := credentials - {legacy};
      accounts := accounts - {legacy};
      MigrateQuotaPoolMember(legacy, id);
      if active == Some(legacy) {
        active := Some(id);
      }
      if defaultId == Some(legacy) {
        defaultId := Some(id);
        revision := (revision + 1) % (MAX_REVISION + 1);
        selectedAt := Some(now);
        verified := true;
      }
    }

    method Login(who: Identity, credentialSaved: bool, legacyRemoved: bool, persisted: bool, now: int) returns (ok: bool)
      modifies this
      ensures Step(ok, View()) == LoginStep(old(View()), who, credentialSaved, legacyRemoved, persisted, now)
    {
      hide LegacyRow, Replaced;
      if !credentialSaved {
        return false;
      }
      credentials := credentials + {who.id};
      var legacy := LegacyRow(accounts, who);
      if legacy.Some? {
        if !legacyRemoved {
          return false;
        }
        ReplaceLegacy(legacy.value, who.id, now);
      }
      accounts := accounts[who.id := Account(Some(who.workspace), who.email, now)];
      if defaultId.None? {
        defaultId := Some(who.id);
      }
      return persisted;
    }
  }

  method FindMember(ms: seq<Member>, id: AccountId) returns (k: nat)
    ensures k == Position(ms, id)
  {
    k := 0;
    while k < |ms| && ms[k].accountId != id
      invariant k <= |ms| && forall i :: 0 <= i < k ==> ms[i].accountId != id
    {
      k := k + 1;
    }
  }

  lemma HasSnoc(ms: seq<Member>, i: nat)
    requires i < |ms|
    ensures ms[..i + 1][..i] == ms[..i]
    ensures forall id :: Has(ms[..i + 1], id) <==> Has(ms[..i], id) || ms[i].accountId == id
  {
  }
}
