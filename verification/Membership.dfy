/** Membership: RemoveMember, AcceptInvite, ClaimTenant, CreateOwnedTenant and CreateInvite, any number of them
    interleaved statement by statement, each free to abort at any point.

    READ COMMITTED: a statement sees the rows committed when it began. SELECT ... FOR UPDATE takes the locks of
    those rows one at a time, waiting for each, and drops a row that was deleted meanwhile. A row is a version with
    its own id, so one deleted and inserted again under the same key is not the row an older snapshot saw. */
module Membership {
  import opened Base

  datatype Role = Owner | Member

  type InviteId = Uuid

  /** The primary key of tenant_members. */
  datatype Key = Key(tenant: TenantId, user: UserId)

  datatype Cell = Cell(id: nat, role: Role)

  /** One row version, as a snapshot saw it. */
  datatype Row = Row(key: Key, id: nat, role: Role)

  datatype Invite = Invite(tenant: TenantId, role: Role, maxUses: nat, uses: nat, expires: int)

  /** What the committed transactions did, in commit order. */
  datatype Fact =
    | Founded(tenant: TenantId, user: UserId)
    | Claimed(tenant: TenantId, user: UserId)
    | Joined(tenant: TenantId, user: UserId, invite: InviteId)
    | Removed(tenant: TenantId, user: UserId)

  datatype Db = Db(
    tenants: set<TenantId>,
    members: map<Key, Cell>,
    invites: map<InviteId, Invite>,
    nextId: nat,
    history: seq<Fact>)

  datatype Lock = OnRow(row: Row) | OnInvite(invite: InviteId) | OnTenant(tenant: TenantId)

  /** How far a transaction has come. */
  datatype Txn =
    | RemoveWaits(row: Row)                    // SELECT role ... FOR UPDATE found the row
    | RemoveReads(row: Row)                    // row locked, role known
    | RemoveCounts(row: Row, seen: set<Row>, todo: set<Row>, counted: set<Row>) // owner rows, locked one by one
    | RemoveAllowed(row: Row, counted: set<Row>) // more than one owner counted
    | RemoveDeleted(row: Row, counted: set<Row>) // DELETE done, uncommitted
    | AcceptWaits(invite: InviteId, user: UserId, now: int)
    | AcceptHolds(invite: InviteId, user: UserId) // invite locked, still usable
    | AcceptInserted(invite: InviteId, key: Key, role: Role) // one row inserted, uncommitted
    | AcceptPaid(invite: InviteId, key: Key, role: Role, uses: nat) // uses = uses + 1 done, uncommitted
    | AcceptKnown(invite: InviteId)            // ON CONFLICT DO NOTHING did nothing
    | ClaimWaits(tenant: TenantId, user: UserId)
    | ClaimHolds(tenant: TenantId, user: UserId) // tenant row locked
    | ClaimFree(tenant: TenantId, user: UserId)  // no member seen
    | ClaimInserted(key: Key)                  // owner row inserted, uncommitted
    | CreateInserted(tenant: TenantId, user: UserId) // tenant row inserted, uncommitted
    | CreateOwned(key: Key)                    // and its owner row
    | InviteGate(tenant: TenantId)             // the API saw that the caller is an owner

  datatype State = State(db: Db, locks: map<Lock, TxnId>, txns: map<TxnId, Txn>)

  function Init(): State {
    State(Db({}, map[], map[], 0, []), map[], map[])
  }

  datatype Event =
    | CreateTenant(t: TenantId) // meshd setup: a tenant nobody belongs to
    | BeginRemove(x: TxnId, key: Key)
    | LockTarget(x: TxnId)
    | StartCount(x: TxnId)
    | LockOwner(x: TxnId, row: Row)
    | FinishCount(x: TxnId)
    | Delete(x: TxnId)
    | BeginAccept(x: TxnId, invite: InviteId, user: UserId, now: int)
    | LockInvite(x: TxnId)
    | InsertMember(x: TxnId)
    | CountUse(x: TxnId)
    | BeginClaim(x: TxnId, t: TenantId, user: UserId)
    | LockTenant(x: TxnId)
    | CheckUnclaimed(x: TxnId)
    | InsertClaimer(x: TxnId)
    | BeginCreate(x: TxnId, t: TenantId, user: UserId)
    | InsertFounder(x: TxnId)
    | CheckOwner(x: TxnId, key: Key)
    | InsertInvite(x: TxnId, invite: InviteId, role: Role, maxUses: nat, expires: int)
    | Commit(x: TxnId)
    | Abort(x: TxnId)

  // ---- the tables ----

  predicate Live(db: Db, r: Row) {
    r.key in db.members && db.members[r.key] == Cell(r.id, r.role)
  }

  function RowAt(db: Db, k: Key): Row
    requires k in db.members
  {
    Row(k, db.members[k].id, db.members[k].role)
  }

  function Owners(db: Db, t: TenantId): set<Row> {
    set k | k in db.members && k.tenant == t && db.members[k].role == Owner :: RowAt(db, k)
  }

  predicate HasOwner(db: Db, t: TenantId) {
    exists k :: k in db.members && k.tenant == t && db.members[k].role == Owner
  }

  predicate HasMember(db: Db, t: TenantId) {
    exists k :: k in db.members && k.tenant == t
  }

  predicate Usable(i: Invite, now: int) {
    i.expires > now && i.uses < i.maxUses
  }

  /** The row a transaction has inserted, if any: a second writer of its key waits for it. */
  function Adds(t: Txn): Option<Key> {
    match t
    case AcceptInserted(_, k, _) => Some(k)
    case AcceptPaid(_, k, _, _) => Some(k)
    case ClaimInserted(k) => Some(k)
    case CreateOwned(k) => Some(k)
    case _ => None
  }

  /** Another transaction has an uncommitted insert or delete of the key. */
  predicate KeyBusy(s: State, x: TxnId, k: Key) {
    exists y :: y in s.txns && y != x &&
      (Adds(s.txns[y]) == Some(k) || (s.txns[y].RemoveDeleted? && s.txns[y].row.key == k))
  }

  predicate TenantPending(s: State, t: TenantId) {
    exists y :: y in s.txns &&
      ((s.txns[y].CreateInserted? && s.txns[y].tenant == t) || (s.txns[y].CreateOwned? && s.txns[y].key.tenant == t))
  }

  // ---- steps ----

  /** Rollback or the end of a commit: the transaction is gone and so are its locks. */
  function End(s: State, x: TxnId): State {
    s.(txns := s.txns - {x}, locks := map l | l in s.locks && s.locks[l] != x :: s.locks[l])
  }

  function To(s: State, x: TxnId, t: Txn): State {
    s.(txns := s.txns[x := t])
  }

  function Take(s: State, l: Lock, x: TxnId): State {
    s.(locks := s.locks[l := x])
  }

  predicate Taken(s: State, l: Lock, x: TxnId) {
    l in s.locks && s.locks[l] != x
  }

  /** What one event does. An event that has to wait, or that no program would issue now, changes nothing. */
  function Step(s: State, e: Event): State {
    match e
    case CreateTenant(t) =>
      if t in s.db.tenants || TenantPending(s, t) then s else s.(db := s.db.(tenants := s.db.tenants + {t}))
    case BeginRemove(x, k) =>
      if x in s.txns || k !in s.db.members then s else To(s, x, RemoveWaits(RowAt(s.db, k)))
    case BeginAccept(x, i, u, now) =>
      if x in s.txns || i !in s.db.invites || !Usable(s.db.invites[i], now) then s // ErrInviteInvalid
      else To(s, x, AcceptWaits(i, u, now))
    case BeginClaim(x, t, u) =>
      if x in s.txns || t !in s.db.tenants then s else To(s, x, ClaimWaits(t, u))
    case BeginCreate(x, t, u) => // gen_random_uuid never repeats
      if x in s.txns || t in s.db.tenants || TenantPending(s, t) then s else To(s, x, CreateInserted(t, u))
    case CheckOwner(x, k) =>
      if x in s.txns || k !in s.db.members || s.db.members[k].role != Owner then s
      else To(s, x, InviteGate(k.tenant))
    case InsertInvite(x, i, role, maxUses, expires) =>
      if x !in s.txns || !s.txns[x].InviteGate? || i in s.db.invites || maxUses == 0 then s
      else End(s.(db := AddInvite(s.db, i, Invite(s.txns[x].tenant, role, maxUses, 0, expires))), x)
    case LockOwner(x, r) =>
      if x in s.txns && s.txns[x].RemoveCounts? then StepLockOwner(s, x, s.txns[x], r) else s
    case Commit(x) => if x in s.txns && Committable(s.txns[x]) then End(s.(db := Effect(s.db, s.txns[x])), x) else s
    case Abort(x) => End(s, x)
    case _ => if e.x in s.txns then Advance(s, e.x, s.txns[e.x], e) else s
  }

  function AddInvite(db: Db, i: InviteId, v: Invite): Db {
    db.(invites := db.invites[i := v])
  }

  /** The statements that take only the transaction they belong to. */
  function Advance(s: State, x: TxnId, t: Txn, e: Event): State {
    match (t, e)
    case (RemoveWaits(r), LockTarget(_)) =>
      if Taken(s, OnRow(r), x) then s
      else if !Live(s.db, r) then End(s, x) // ErrNotFound: deleted while we waited
      else To(Take(s, OnRow(r), x), x, RemoveReads(r))
    case (RemoveReads(r), StartCount(_)) =>
      if r.role == Owner then To(s, x, RemoveCounts(r, Owners(s.db, r.key.tenant), Owners(s.db, r.key.tenant), {}))
      else s
    case (RemoveCounts(r, seen, todo, counted), FinishCount(_)) =>
      if todo != {} then s
      else if |counted| <= 1 then End(s, x) // ErrLastOwner
      else To(s, x, RemoveAllowed(r, counted))
    case (RemoveReads(r), Delete(_)) => if r.role == Member then StepDelete(s, x, r, {}) else s
    case (RemoveAllowed(r, counted), Delete(_)) => StepDelete(s, x, r, counted)
    case (AcceptWaits(i, u, now), LockInvite(_)) =>
      if Taken(s, OnInvite(i), x) then s
      else if i !in s.db.invites || !Usable(s.db.invites[i], now) then End(s, x) // ErrInviteInvalid
      else To(Take(s, OnInvite(i), x), x, AcceptHolds(i, u))
    case (AcceptHolds(i, u), InsertMember(_)) => StepInsertMember(s, x, i, u)
    case (AcceptInserted(i, k, role), CountUse(_)) =>
      if i !in s.db.invites then End(s, x) else To(s, x, AcceptPaid(i, k, role, s.db.invites[i].uses + 1))
    case (ClaimWaits(tn, u), LockTenant(_)) =>
      if Taken(s, OnTenant(tn), x) then s else To(Take(s, OnTenant(tn), x), x, ClaimHolds(tn, u))
    case (ClaimHolds(tn, u), CheckUnclaimed(_)) =>
      if HasMember(s.db, tn) then End(s, x) // ErrClaimed
      else To(s, x, ClaimFree(tn, u))
    case (ClaimFree(tn, u), InsertClaimer(_)) =>
      if KeyBusy(s, x, Key(tn, u)) then s
      else if Key(tn, u) in s.db.members then End(s, x) // ErrConflict
      else To(s, x, ClaimInserted(Key(tn, u)))
    case (CreateInserted(tn, u), InsertFounder(_)) => To(s, x, CreateOwned(Key(tn, u)))
    case _ => s
  }

  function StepLockOwner(s: State, x: TxnId, t: Txn, r: Row): State
    requires t.RemoveCounts?
  {
    if r !in t.todo || Taken(s, OnRow(r), x) then s
    else if !Live(s.db, r) then To(s, x, t.(todo := t.todo - {r})) // deleted while we waited: not counted
    else To(Take(s, OnRow(r), x), x, t.(todo := t.todo - {r}, counted := t.counted + {r}))
  }

  /** DELETE ... WHERE tenant_id AND user_id looks the row up again by its key. */
  function StepDelete(s: State, x: TxnId, r: Row, counted: set<Row>): State {
    if r.key !in s.db.members then End(s, x)
    else if Taken(s, OnRow(RowAt(s.db, r.key)), x) then s
    else To(s, x, RemoveDeleted(RowAt(s.db, r.key), counted))
  }

  function StepInsertMember(s: State, x: TxnId, i: InviteId, u: UserId): State {
    if i !in s.db.invites then End(s, x)
    else
      var k := Key(s.db.invites[i].tenant, u);
      if KeyBusy(s, x, k) then s
      else if k in s.db.members then To(s, x, AcceptKnown(i))
      else To(s, x, AcceptInserted(i, k, s.db.invites[i].role))
  }

  predicate Committable(t: Txn) {
    t.RemoveDeleted? || t.AcceptPaid? || t.AcceptKnown? || t.ClaimInserted? || t.CreateOwned?
  }

  function AddRow(db: Db, k: Key, role: Role): Db {
    db.(members := db.members[k := Cell(db.nextId, role)], nextId := db.nextId + 1)
  }

  /** What a commit publishes. */
  function Effect(db: Db, t: Txn): Db
    requires Committable(t)
  {
    match t
    case RemoveDeleted(r, _) =>
      db.(members := db.members - {r.key}, history := db.history + [Removed(r.key.tenant, r.key.user)])
    case AcceptPaid(i, k, role, uses) =>
      if i !in db.invites then db
      else
        AddRow(db, k, role).(invites := db.invites[i := db.invites[i].(uses := uses)],
                             history := db.history + [Joined(k.tenant, k.user, i)])
    case AcceptKnown(_) => db
    case ClaimInserted(k) => AddRow(db, k, Owner).(history := db.history + [Claimed(k.tenant, k.user)])
    case CreateOwned(k) =>
      AddRow(db, k, Owner).(tenants := db.tenants + {k.tenant}, history := db.history + [Founded(k.tenant, k.user)])
  }

  function Run(s: State, es: seq<Event>): State
    decreases |es|
  {
    if es == [] then s else Run(Step(s, es[0]), es[1..])
  }

  // ---- what the history says ----

  function Joins(h: seq<Fact>, i: InviteId): nat {
    if h == [] then 0
    else Joins(h[..|h| - 1], i) + (if h[|h| - 1].Joined? && h[|h| - 1].invite == i then 1 else 0)
  }

  /** How often the tenant got its first owner. */
  function Starts(h: seq<Fact>, t: TenantId): nat {
    if h == [] then 0
    else Starts(h[..|h| - 1], t) +
         (if (h[|h| - 1].Claimed? || h[|h| - 1].Founded?) && h[|h| - 1].tenant == t then 1 else 0)
  }

  lemma HistoryAppend(h: seq<Fact>, f: Fact, i: InviteId, t: TenantId)
    ensures Joins(h + [f], i) == Joins(h, i) + (if f.Joined? && f.invite == i then 1 else 0)
    ensures Starts(h + [f], t) == Starts(h, t) + (if (f.Claimed? || f.Founded?) && f.tenant == t then 1 else 0)
  {
    assert (h + [f])[..|h|] == h;
  }

  // ---- the invariant ----

  ghost predicate InviteOk(db: Db, i: InviteId)
    requires i in db.invites
  {
    && HasOwner(db, db.invites[i].tenant)
    && db.invites[i].uses == Joins(db.history, i) <= db.invites[i].maxUses
  }

  ghost predicate DbOk(db: Db) {
    && (forall k :: k in db.members ==>
          k.tenant in db.tenants && db.members[k].id < db.nextId && HasOwner(db, k.tenant))
    && (forall i :: i in db.invites ==> InviteOk(db, i))
    && (forall f :: f in db.history && f.Joined? ==> f.invite in db.invites)
    && (forall t :: Starts(db.history, t) == if HasOwner(db, t) then 1 else 0)
  }

  /** The locks a transaction relies on. */
  function Needs(t: Txn): set<Lock> {
    match t
    case RemoveWaits(_) => {}
    case RemoveReads(r) => {OnRow(r)}
    case RemoveCounts(r, _, _, counted) => {OnRow(r)} + set c | c in counted :: OnRow(c)
    case RemoveAllowed(r, counted) => {OnRow(r)} + set c | c in counted :: OnRow(c)
    case RemoveDeleted(r, counted) => {OnRow(r)} + set c | c in counted :: OnRow(c)
    case AcceptWaits(_, _, _) => {}
    case AcceptHolds(i, _) => {OnInvite(i)}
    case AcceptInserted(i, _, _) => {OnInvite(i)}
    case AcceptPaid(i, _, _, _) => {OnInvite(i)}
    case AcceptKnown(i) => {OnInvite(i)}
    case ClaimWaits(_, _) => {}
    case ClaimHolds(t, _) => {OnTenant(t)}
    case ClaimFree(t, _) => {OnTenant(t)}
    case ClaimInserted(k) => {OnTenant(k.tenant)}
    case CreateInserted(_, _) => {}
    case CreateOwned(_) => {}
    case InviteGate(_) => {}
  }

  ghost predicate LocksOk(s: State) {
    forall x, l :: x in s.txns && l in Needs(s.txns[x]) ==> l in s.locks && s.locks[l] == x
  }

  ghost predicate OwnersLocked(db: Db, t: TenantId, counted: set<Row>) {
    forall c :: c in counted ==> Live(db, c) && c.role == Owner && c.key.tenant == t
  }

  /** Deleting r leaves one of the counted owners. */
  ghost predicate MayDelete(db: Db, r: Row, counted: set<Row>) {
    && Live(db, r)
    && OwnersLocked(db, r.key.tenant, counted)
    && (r.role == Owner ==> |counted| >= 2)
  }

  ghost predicate InviteHeld(db: Db, i: InviteId) {
    i in db.invites && db.invites[i].uses < db.invites[i].maxUses
  }

  ghost predicate NewMember(db: Db, i: InviteId, k: Key, role: Role) {
    InviteHeld(db, i) && k.tenant == db.invites[i].tenant && role == db.invites[i].role && k !in db.members
  }

  ghost predicate TxnOk(db: Db, t: Txn) {
    match t
    case RemoveWaits(r) => r.id < db.nextId && r.key.tenant in db.tenants
    case RemoveReads(r) => Live(db, r)
    case RemoveCounts(r, seen, todo, counted) =>
      && Live(db, r) && r.role == Owner && r in seen
      && OwnersLocked(db, r.key.tenant, counted)
      && todo <= seen
      && (forall c :: c in counted <==> c in seen && c !in todo && Live(db, c))
      && forall c :: c in seen ==> c.id < db.nextId && c.role == Owner && c.key.tenant == r.key.tenant
    case RemoveAllowed(r, counted) => MayDelete(db, r, counted)
    case RemoveDeleted(r, counted) => MayDelete(db, r, counted)
    case AcceptWaits(i, _, _) => i in db.invites
    case AcceptHolds(i, _) => InviteHeld(db, i)
    case AcceptInserted(i, k, role) => NewMember(db, i, k, role)
    case AcceptPaid(i, k, role, uses) => NewMember(db, i, k, role) && uses == db.invites[i].uses + 1
    case AcceptKnown(i) => InviteHeld(db, i)
    case ClaimWaits(t, _) => t in db.tenants
    case ClaimHolds(t, _) => t in db.tenants
    case ClaimFree(t, _) => t in db.tenants && !HasMember(db, t)
    case ClaimInserted(k) => k.tenant in db.tenants && !HasMember(db, k.tenant)
    case CreateInserted(t, _) => t !in db.tenants
    case CreateOwned(k) => k.tenant !in db.tenants
    case InviteGate(t) => HasOwner(db, t)
  }

  function Creates(t: Txn): Option<TenantId> {
    match t
    case CreateInserted(tn, _) => Some(tn)
    case CreateOwned(k) => Some(k.tenant)
    case _ => None
  }

  /** No two open transactions insert the same member row or the same tenant. */
  ghost predicate NoClash(txns: map<TxnId, Txn>) {
    && (forall x, y :: (x in txns && y in txns && x != y && Adds(txns[x]).Some?) ==> Adds(txns[x]) != Adds(txns[y]))
    && (forall x, y :: (x in txns && y in txns && x != y && Creates(txns[x]).Some?) ==>
          Creates(txns[x]) != Creates(txns[y]))
  }

  ghost predicate Inv(s: State) {
    && DbOk(s.db)
    && LocksOk(s)
    && (forall x :: x in s.txns ==> TxnOk(s.db, s.txns[x]))
    && NoClash(s.txns)
  }

  // ---- preservation: steps that leave the tables alone ----

  lemma EndKeeps(s: State, x: TxnId)
    requires Inv(s)
    ensures Inv(End(s, x))
  {
    hide TxnOk, DbOk, Needs;
  }

  lemma TakeKeeps(s: State, l: Lock, x: TxnId)
    requires Inv(s) && !Taken(s, l, x)
    ensures Inv(Take(s, l, x))
  {
    hide TxnOk, DbOk, Needs;
  }

  predicate Distinct(txns: map<TxnId, Txn>, x: TxnId, t: Txn) {
    && (Adds(t).Some? ==> forall y :: y in txns && y != x ==> Adds(txns[y]) != Adds(t))
    && (Creates(t).Some? ==> forall y :: y in txns && y != x ==> Creates(txns[y]) != Creates(t))
  }

  lemma MoveKeeps(s: State, x: TxnId, t: Txn)
    requires Inv(s) && TxnOk(s.db, t) && Distinct(s.txns, x, t)
    requires forall l :: l in Needs(t) ==> l in s.locks && s.locks[l] == x
    ensures Inv(To(s, x, t))
  {
    hide TxnOk, DbOk, Needs;
  }

  /** What the invariant says of one open transaction. */
  lemma Opened(s: State, x: TxnId)
    requires Inv(s) && x in s.txns
    ensures DbOk(s.db) && TxnOk(s.db, s.txns[x])
    ensures forall l :: l in Needs(s.txns[x]) ==> l in s.locks && s.locks[l] == x
    ensures Distinct(s.txns, x, s.txns[x])
  {
    hide TxnOk, DbOk, Needs;
  }

  lemma BeginWaitsOk(s: State, e: Event)
    requires Inv(s) && (e.BeginRemove? || e.BeginClaim?) && Step(s, e) != s
    ensures e.x in Step(s, e).txns && Step(s, e) == To(s, e.x, Step(s, e).txns[e.x])
    ensures var t := Step(s, e).txns[e.x]; TxnOk(s.db, t) && Needs(t) == {} && Distinct(s.txns, e.x, t)
  {
    hide NoClash, LocksOk, InviteOk, End, Effect, StepLockOwner, Advance, TenantPending;
  }

  lemma BeginInviteOk(s: State, e: Event)
    requires Inv(s) && (e.BeginAccept? || e.CheckOwner?) && Step(s, e) != s
    ensures e.x in Step(s, e).txns && Step(s, e) == To(s, e.x, Step(s, e).txns[e.x])
    ensures var t := Step(s, e).txns[e.x]; TxnOk(s.db, t) && Needs(t) == {} && Distinct(s.txns, e.x, t)
  {
    hide NoClash, LocksOk, InviteOk, End, Effect, StepLockOwner, Advance, TenantPending;
  }

  /** A first statement leaves its transaction with facts read from the committed tables, and no lock. */
  lemma BeginOk(s: State, e: Event)
    requires Inv(s) && (e.BeginRemove? || e.BeginAccept? || e.BeginClaim? || e.CheckOwner?)
    requires Step(s, e) != s
    ensures e.x in Step(s, e).txns && Step(s, e) == To(s, e.x, Step(s, e).txns[e.x])
    ensures var t := Step(s, e).txns[e.x]; TxnOk(s.db, t) && Needs(t) == {} && Distinct(s.txns, e.x, t)
  {
    hide *;
    if e.BeginRemove? || e.BeginClaim? {
      BeginWaitsOk(s, e);
    } else {
      BeginInviteOk(s, e);
    }
  }

  lemma BeginCreateOk(s: State, x: TxnId, t: TenantId, u: UserId)
    requires Inv(s) && Step(s, BeginCreate(x, t, u)) != s
    ensures Step(s, BeginCreate(x, t, u)) == To(s, x, CreateInserted(t, u))
    ensures TxnOk(s.db, CreateInserted(t, u)) && Distinct(s.txns, x, CreateInserted(t, u))
  {
    hide Inv;
  }

  lemma BeginKeeps(s: State, e: Event)
    requires Inv(s)
    requires e.BeginRemove? || e.BeginAccept? || e.BeginClaim? || e.BeginCreate? || e.CheckOwner?
    ensures Inv(Step(s, e))
  {
    hide Inv, Step;
    if Step(s, e) != s {
      if e.BeginCreate? {
        BeginCreateOk(s, e.x, e.t, e.user);
      } else {
        BeginOk(s, e);
      }
      MoveKeeps(s, e.x, Step(s, e).txns[e.x]);
    }
  }

  lemma LockTargetKeeps(s: State, x: TxnId, r: Row)
    requires Inv(s) && x in s.txns && s.txns[x] == RemoveWaits(r)
    ensures Inv(Advance(s, x, RemoveWaits(r), LockTarget(x)))
  {
    hide Inv;
    Opened(s, x);
    EndKeeps(s, x);
    if !Taken(s, OnRow(r), x) && Live(s.db, r) {
      TakeKeeps(s, OnRow(r), x);
      MoveKeeps(Take(s, OnRow(r), x), x, RemoveReads(r));
    }
  }

  /** At its start the count's snapshot holds every owner row, the target among them. */
  lemma CountStartOk(db: Db, r: Row)
    requires DbOk(db) && Live(db, r) && r.role == Owner
    ensures var seen := Owners(db, r.key.tenant); TxnOk(db, RemoveCounts(r, seen, seen, {}))
  {
    assert RowAt(db, r.key) == r;
  }

  lemma StartCountKeeps(s: State, x: TxnId, r: Row)
    requires Inv(s) && x in s.txns && s.txns[x] == RemoveReads(r)
    ensures Inv(Advance(s, x, RemoveReads(r), StartCount(x)))
  {
    hide Inv;
    Opened(s, x);
    if r.role == Owner {
      var seen := Owners(s.db, r.key.tenant);
      CountStartOk(s.db, r);
      MoveKeeps(s, x, RemoveCounts(r, seen, seen, {}));
    }
  }

  /** Each locked owner row is either counted or, deleted meanwhile, dropped. */
  lemma CountStepOk(db: Db, t: Txn, r: Row)
    requires t.RemoveCounts? && TxnOk(db, t) && r in t.todo
    ensures Live(db, r) ==> TxnOk(db, t.(todo := t.todo - {r}, counted := t.counted + {r}))
    ensures !Live(db, r) ==> TxnOk(db, t.(todo := t.todo - {r}))
  {
  }

  lemma LockOwnerKeeps(s: State, x: TxnId, t: Txn, r: Row)
    requires Inv(s) && x in s.txns && s.txns[x] == t && t.RemoveCounts?
    ensures Inv(StepLockOwner(s, x, t, r))
  {
    hide Inv;
    Opened(s, x);
    if r in t.todo && !Taken(s, OnRow(r), x) {
      CountStepOk(s.db, t, r);
      if Live(s.db, r) {
        var u := t.(todo := t.todo - {r}, counted := t.counted + {r});
        TakeKeeps(s, OnRow(r), x);
        assert Needs(u) == Needs(t) + {OnRow(r)};
        MoveKeeps(Take(s, OnRow(r), x), x, u);
      } else {
        MoveKeeps(s, x, t.(todo := t.todo - {r}));
      }
    }
  }

  lemma FinishCountKeeps(s: State, x: TxnId, t: Txn)
    requires Inv(s) && x in s.txns && s.txns[x] == t && t.RemoveCounts?
    ensures Inv(Advance(s, x, t, FinishCount(x)))
  {
    hide Inv;
    Opened(s, x);
    EndKeeps(s, x);
    if t.todo == {} && |t.counted| > 1 {
      MoveKeeps(s, x, RemoveAllowed(t.row, t.counted));
    }
  }

  lemma DeleteKeeps(s: State, x: TxnId, r: Row, counted: set<Row>)
    requires Inv(s) && x in s.txns
    requires s.txns[x] == RemoveAllowed(r, counted) ||
      (s.txns[x] == RemoveReads(r) && r.role == Member && counted == {})
    ensures Inv(StepDelete(s, x, r, counted))
    ensures StepDelete(s, x, r, counted) == To(s, x, RemoveDeleted(r, counted))
  {
    hide Inv;
    Opened(s, x);
    assert RowAt(s.db, r.key) == r && OnRow(r) in Needs(s.txns[x]);
    MoveKeeps(s, x, RemoveDeleted(r, counted));
  }

  lemma LockInviteKeeps(s: State, x: TxnId, i: InviteId, u: UserId, now: int)
    requires Inv(s) && x in s.txns && s.txns[x] == AcceptWaits(i, u, now)
    ensures Inv(Advance(s, x, AcceptWaits(i, u, now), LockInvite(x)))
  {
    hide Inv;
    Opened(s, x);
    EndKeeps(s, x);
    if !Taken(s, OnInvite(i), x) && Usable(s.db.invites[i], now) {
      TakeKeeps(s, OnInvite(i), x);
      MoveKeeps(Take(s, OnInvite(i), x), x, AcceptHolds(i, u));
    }
  }

  lemma InsertMemberKeeps(s: State, x: TxnId, i: InviteId, u: UserId)
    requires Inv(s) && x in s.txns && s.txns[x] == AcceptHolds(i, u)
    ensures Inv(StepInsertMember(s, x, i, u))
  {
    hide Inv;
    Opened(s, x);
    var k := Key(s.db.invites[i].tenant, u);
    if !KeyBusy(s, x, k) {
      MoveKeeps(s, x, if k in s.db.members then AcceptKnown(i) else AcceptInserted(i, k, s.db.invites[i].role));
    }
  }

  lemma CountUseKeeps(s: State, x: TxnId, i: InviteId, k: Key, role: Role)
    requires Inv(s) && x in s.txns && s.txns[x] == AcceptInserted(i, k, role)
    ensures Inv(Advance(s, x, AcceptInserted(i, k, role), CountUse(x)))
  {
    hide Inv;
    Opened(s, x);
    MoveKeeps(s, x, AcceptPaid(i, k, role, s.db.invites[i].uses + 1));
  }

  lemma LockTenantKeeps(s: State, x: TxnId, tn: TenantId, u: UserId)
    requires Inv(s) && x in s.txns && s.txns[x] == ClaimWaits(tn, u)
    ensures Inv(Advance(s, x, ClaimWaits(tn, u), LockTenant(x)))
  {
    hide Inv;
    Opened(s, x);
    if !Taken(s, OnTenant(tn), x) {
      TakeKeeps(s, OnTenant(tn), x);
      MoveKeeps(Take(s, OnTenant(tn), x), x, ClaimHolds(tn, u));
    }
  }

  lemma CheckUnclaimedKeeps(s: State, x: TxnId, tn: TenantId, u: UserId)
    requires Inv(s) && x in s.txns && s.txns[x] == ClaimHolds(tn, u)
    ensures Inv(Advance(s, x, ClaimHolds(tn, u), CheckUnclaimed(x)))
  {
    hide Inv;
    Opened(s, x);
    EndKeeps(s, x);
    if !HasMember(s.db, tn) {
      MoveKeeps(s, x, ClaimFree(tn, u));
    }
  }

  lemma InsertClaimerKeeps(s: State, x: TxnId, tn: TenantId, u: UserId)
    requires Inv(s) && x in s.txns && s.txns[x] == ClaimFree(tn, u)
    ensures Inv(Advance(s, x, ClaimFree(tn, u), InsertClaimer(x)))
  {
    hide Inv;
    Opened(s, x);
    if !KeyBusy(s, x, Key(tn, u)) {
      MoveKeeps(s, x, ClaimInserted(Key(tn, u)));
    }
  }

  /** A row being inserted belongs to a known tenant or to the one its own transaction creates. */
  lemma AddsWhere(db: Db, t: Txn)
    requires DbOk(db) && TxnOk(db, t) && Adds(t).Some?
    ensures t.CreateOwned? || Adds(t).value.tenant in db.tenants
  {
    if t.AcceptInserted? || t.AcceptPaid? {
      assert InviteOk(db, t.invite);
    }
  }

  lemma FounderApart(s: State, x: TxnId, k: Key)
    requires Inv(s) && x in s.txns && s.txns[x] == CreateInserted(k.tenant, k.user)
    ensures Distinct(s.txns, x, CreateOwned(k))
  {
    assert TxnOk(s.db, s.txns[x]);
    forall y | y in s.txns && y != x ensures Adds(s.txns[y]) != Some(k) {
      assert TxnOk(s.db, s.txns[y]) && Creates(s.txns[y]) != Some(k.tenant);
      if Adds(s.txns[y]).Some? {
        AddsWhere(s.db, s.txns[y]);
      }
    }
  }

  lemma FounderKeeps(s: State, x: TxnId, tn: TenantId, u: UserId)
    requires Inv(s) && x in s.txns && s.txns[x] == CreateInserted(tn, u)
    ensures Inv(Advance(s, x, CreateInserted(tn, u), InsertFounder(x)))
  {
    hide Inv;
    Opened(s, x);
    FounderApart(s, x, Key(tn, u));
    MoveKeeps(s, x, CreateOwned(Key(tn, u)));
  }

  lemma AdvanceRemoveKeeps(s: State, x: TxnId, e: Event)
    requires Inv(s) && x in s.txns && !e.CreateTenant? && e.x == x
    requires s.txns[x].RemoveWaits? || s.txns[x].RemoveReads? || s.txns[x].RemoveCounts? || s.txns[x].RemoveAllowed?
    ensures Inv(Advance(s, x, s.txns[x], e))
  {
    hide Inv, StepDelete, StepInsertMember, End, To, Take;
    match (s.txns[x], e)
    case (RemoveWaits(r), LockTarget(_)) => LockTargetKeeps(s, x, r);
    case (RemoveReads(r), StartCount(_)) => StartCountKeeps(s, x, r);
    case (RemoveCounts(r, seen, todo, counted), FinishCount(_)) => FinishCountKeeps(s, x, s.txns[x]);
    case (RemoveReads(r), Delete(_)) =>
      if r.role == Member {
        DeleteKeeps(s, x, r, {});
      }
    case (RemoveAllowed(r, counted), Delete(_)) => DeleteKeeps(s, x, r, counted);
    case _ =>
  }

  lemma AdvanceJoinKeeps(s: State, x: TxnId, e: Event)
    requires Inv(s) && x in s.txns && !e.CreateTenant? && e.x == x
    requires !s.txns[x].RemoveWaits? && !s.txns[x].RemoveReads?
    requires !s.txns[x].RemoveCounts? && !s.txns[x].RemoveAllowed?
    ensures Inv(Advance(s, x, s.txns[x], e))
  {
    hide Inv, StepDelete, StepInsertMember, End, To, Take;
    match (s.txns[x], e)
    case (AcceptWaits(i, u, now), LockInvite(_)) => LockInviteKeeps(s, x, i, u, now);
    case (AcceptHolds(i, u), InsertMember(_)) => InsertMemberKeeps(s, x, i, u);
    case (AcceptInserted(i, k, role), CountUse(_)) => CountUseKeeps(s, x, i, k, role);
    case (ClaimWaits(tn, u), LockTenant(_)) => LockTenantKeeps(s, x, tn, u);
    case (ClaimHolds(tn, u), CheckUnclaimed(_)) => CheckUnclaimedKeeps(s, x, tn, u);
    case (ClaimFree(tn, u), InsertClaimer(_)) => InsertClaimerKeeps(s, x, tn, u);
    case (CreateInserted(tn, u), InsertFounder(_)) => FounderKeeps(s, x, tn, u);
    case _ =>
  }

  // ---- preservation: steps that change the tables ----

  /** Two transactions at work at once do not rely on the same locks, rows or tenants. */
  predicate Apart(t: Txn, u: Txn) {
    Needs(t) !! Needs(u) && (Adds(t).Some? ==> Adds(t) != Adds(u)) && (Creates(t).Some? ==> Creates(t) != Creates(u))
  }

  lemma OpenApart(s: State, x: TxnId, y: TxnId)
    requires Inv(s) && x in s.txns && y in s.txns && x != y
    ensures Apart(s.txns[x], s.txns[y])
  {
    forall l | l in Needs(s.txns[x]) ensures l !in Needs(s.txns[y]) {
      assert s.locks[l] == x;
    }
  }

  /** A tenant loses no owner when an allowed deletion commits. */
  lemma DeleteLeavesOwner(db: Db, r: Row, counted: set<Row>, t: TenantId)
    requires MayDelete(db, r, counted) && HasOwner(db, t)
    ensures HasOwner(Effect(db, RemoveDeleted(r, counted)), t)
  {
    var z := Effect(db, RemoveDeleted(r, counted));
    var k :| k in db.members && k.tenant == t && db.members[k].role == Owner;
    if k == r.key {
      var c := AnotherThan(counted, r);
      assert Live(db, c);
      assert c.key in z.members;
    } else {
      assert k in z.members;
    }
  }

  lemma AnotherThan(counted: set<Row>, r: Row) returns (c: Row)
    requires |counted| >= 2
    ensures c in counted && c != r
  {
    if counted <= {r} {
      SubsetSize(counted, {r});
    }
    c :| c in counted && c != r;
  }

  lemma SubsetSize(a: set<Row>, b: set<Row>)
    requires a <= b
    ensures |a| <= |b|
  {
    assert b == a + (b - a);
  }

  /** Insertions keep every owner where they are. */
  lemma AddKeepsOwners(db: Db, k: Key, role: Role, t: TenantId)
    requires k !in db.members && HasOwner(db, t)
    ensures HasOwner(AddRow(db, k, role), t)
  {
    var o :| o in db.members && o.tenant == t && db.members[o].role == Owner;
    assert o in AddRow(db, k, role).members;
  }

  lemma CommitDeleteOk(db: Db, r: Row, counted: set<Row>)
    requires DbOk(db) && MayDelete(db, r, counted)
    ensures DbOk(Effect(db, RemoveDeleted(r, counted)))
    ensures forall t :: HasOwner(Effect(db, RemoveDeleted(r, counted)), t) == HasOwner(db, t)
  {
    var z := Effect(db, RemoveDeleted(r, counted));
    forall t ensures HasOwner(z, t) == HasOwner(db, t) {
      if HasOwner(db, t) {
        DeleteLeavesOwner(db, r, counted, t);
      }
    }
    forall t ensures Starts(z.history, t) == Starts(db.history, t) {
      HistoryAppend(db.history, Removed(r.key.tenant, r.key.user), 0, t);
    }
    forall i | i in z.invites ensures InviteOk(z, i) {
      assert InviteOk(db, i);
      HistoryAppend(db.history, Removed(r.key.tenant, r.key.user), i, 0);
    }
  }

  lemma CommitAddOk(db: Db, k: Key, role: Role, f: Fact, tenants: set<TenantId>, invites: map<InviteId, Invite>)
    requires DbOk(db) && k !in db.members
    requires db.tenants <= tenants && k.tenant in tenants
    requires role == Owner || HasOwner(db, k.tenant)
    requires f.tenant == k.tenant && !f.Removed?
    requires f.Joined? <==> HasOwner(db, k.tenant)
    requires if !f.Joined? then invites == db.invites else
      && InviteHeld(db, f.invite)
      && invites == db.invites[f.invite := db.invites[f.invite].(uses := db.invites[f.invite].uses + 1)]
    ensures DbOk(AddRow(db, k, role).(tenants := tenants, invites := invites, history := db.history + [f]))
  {
    var z := AddRow(db, k, role).(tenants := tenants, invites := invites, history := db.history + [f]);
    forall t ensures HasOwner(z, t) == (HasOwner(db, t) || t == k.tenant) {
      if HasOwner(db, t) {
        AddKeepsOwners(db, k, role, t);
      } else if t == k.tenant {
        assert k in z.members;
      }
    }
    forall t ensures Starts(z.history, t) == if HasOwner(z, t) then 1 else 0 {
      HistoryAppend(db.history, f, 0, t);
    }
    forall i | i in z.invites ensures InviteOk(z, i) {
      assert InviteOk(db, i);
      HistoryAppend(db.history, f, i, 0);
    }
  }

  lemma EmptyTenantHasNoOwner(db: Db, t: TenantId)
    requires DbOk(db) && (t !in db.tenants || !HasMember(db, t))
    ensures !HasOwner(db, t) && !HasMember(db, t)
  {
  }

  lemma EffectOk(db: Db, t: Txn)
    requires DbOk(db) && TxnOk(db, t) && Committable(t)
    ensures DbOk(Effect(db, t))
    ensures forall n :: HasOwner(db, n) ==> HasOwner(Effect(db, t), n)
  {
    match t
    case RemoveDeleted(r, counted) => CommitDeleteOk(db, r, counted);
    case AcceptPaid(i, k, role, uses) =>
      assert InviteOk(db, i);
      CommitAddOk(db, k, role, Joined(k.tenant, k.user, i), db.tenants, Effect(db, t).invites);
      forall n | HasOwner(db, n) ensures HasOwner(Effect(db, t), n) {
        AddKeepsOwners(db, k, role, n);
      }
    case AcceptKnown(_) =>
    case ClaimInserted(k) =>
      EmptyTenantHasNoOwner(db, k.tenant);
      CommitAddOk(db, k, Owner, Claimed(k.tenant, k.user), db.tenants, db.invites);
      forall n | HasOwner(db, n) ensures HasOwner(Effect(db, t), n) {
        AddKeepsOwners(db, k, Owner, n);
      }
    case CreateOwned(k) =>
      EmptyTenantHasNoOwner(db, k.tenant);
      CommitAddOk(db, k, Owner, Founded(k.tenant, k.user), db.tenants + {k.tenant}, db.invites);
      forall n | HasOwner(db, n) ensures HasOwner(Effect(db, t), n) {
        AddKeepsOwners(db, k, Owner, n);
      }
  }

  /** Rows another transaction has locked stay as they are; rows it saw deleted stay deleted. */
  lemma LiveFrame(db: Db, t: Txn, r: Row)
    requires DbOk(db) && TxnOk(db, t) && Committable(t) && r.id < db.nextId
    ensures Live(Effect(db, t), r) ==> Live(db, r)
    ensures Live(db, r) && OnRow(r) !in Needs(t) ==> Live(Effect(db, t), r)
  {
  }

  lemma RemoveFrame(db: Db, t: Txn, u: Txn)
    requires DbOk(db) && TxnOk(db, t) && TxnOk(db, u) && Committable(t) && Needs(t) !! Needs(u)
    requires u.RemoveWaits? || u.RemoveReads? || u.RemoveCounts? || u.RemoveAllowed? || u.RemoveDeleted?
    ensures TxnOk(Effect(db, t), u)
  {
    var z := Effect(db, t);
    assert z.nextId >= db.nextId && db.tenants <= z.tenants;
    if !u.RemoveWaits? {
      LiveFrame(db, t, u.row);
    }
    if u.RemoveCounts? {
      forall c | c in u.seen ensures Live(z, c) ==> Live(db, c) {
        LiveFrame(db, t, c);
      }
    }
    if u.RemoveCounts? || u.RemoveAllowed? || u.RemoveDeleted? {
      forall c | c in u.counted ensures Live(z, c) {
        assert OnRow(c) in Needs(u);
        LiveFrame(db, t, c);
      }
    }
  }

  lemma AcceptFrame(db: Db, t: Txn, u: Txn)
    requires DbOk(db) && TxnOk(db, t) && TxnOk(db, u) && Committable(t) && Apart(t, u)
    requires u.AcceptWaits? || u.AcceptHolds? || u.AcceptInserted? || u.AcceptPaid? || u.AcceptKnown?
    ensures TxnOk(Effect(db, t), u)
  {
  }

  /** A claim under way keeps out everyone who could add a member. */
  lemma ClaimFrame(db: Db, t: Txn, u: Txn)
    requires DbOk(db) && TxnOk(db, t) && TxnOk(db, u) && Committable(t) && Apart(t, u)
    requires u.ClaimWaits? || u.ClaimHolds? || u.ClaimFree? || u.ClaimInserted?
    ensures TxnOk(Effect(db, t), u)
  {
    var z := Effect(db, t);
    if u.ClaimFree? || u.ClaimInserted? {
      var tn := if u.ClaimFree? then u.tenant else u.key.tenant;
      assert OnTenant(tn) in Needs(u);
      EmptyTenantHasNoOwner(db, tn);
      if t.AcceptPaid? {
        assert InviteOk(db, t.invite);
      }
      assert !HasMember(z, tn);
    }
  }

  lemma OtherFrame(db: Db, t: Txn, u: Txn)
    requires DbOk(db) && TxnOk(db, t) && TxnOk(db, u) && Committable(t) && Apart(t, u)
    requires u.CreateInserted? || u.CreateOwned? || u.InviteGate?
    ensures TxnOk(Effect(db, t), u)
  {
    EffectOk(db, t);
  }

  lemma EffectFrame(db: Db, t: Txn, u: Txn)
    requires DbOk(db) && TxnOk(db, t) && TxnOk(db, u) && Committable(t) && Apart(t, u)
    ensures TxnOk(Effect(db, t), u)
  {
    hide TxnOk, DbOk, Effect;
    if u.RemoveWaits? || u.RemoveReads? || u.RemoveCounts? || u.RemoveAllowed? || u.RemoveDeleted? {
      RemoveFrame(db, t, u);
    } else if u.AcceptWaits? || u.AcceptHolds? || u.AcceptInserted? || u.AcceptPaid? || u.AcceptKnown? {
      AcceptFrame(db, t, u);
    } else if u.ClaimWaits? || u.ClaimHolds? || u.ClaimFree? || u.ClaimInserted? {
      ClaimFrame(db, t, u);
    } else {
      OtherFrame(db, t, u);
    }
  }

  lemma CommitKeeps(s: State, x: TxnId)
    requires Inv(s) && x in s.txns && Committable(s.txns[x])
    ensures Inv(End(s.(db := Effect(s.db, s.txns[x])), x))
    ensures forall n :: HasOwner(s.db, n) ==> HasOwner(Effect(s.db, s.txns[x]), n)
  {
    hide TxnOk, DbOk, Effect, Needs;
    var t := s.txns[x];
    EffectOk(s.db, t);
    forall y | y in s.txns && y != x ensures TxnOk(Effect(s.db, t), s.txns[y]) {
      OpenApart(s, x, y);
      EffectFrame(s.db, t, s.txns[y]);
    }
  }

  lemma NewTenantFrame(db: Db, t: TenantId, u: Txn)
    requires TxnOk(db, u) && Creates(u) != Some(t)
    ensures TxnOk(db.(tenants := db.tenants + {t}), u)
  {
  }

  lemma CreateTenantKeeps(s: State, t: TenantId)
    requires Inv(s) && !TenantPending(s, t)
    ensures Inv(s.(db := s.db.(tenants := s.db.tenants + {t})))
  {
    hide TxnOk, Needs;
    var z := s.(db := s.db.(tenants := s.db.tenants + {t}));
    forall i | i in z.db.invites ensures InviteOk(z.db, i) {
      assert InviteOk(s.db, i);
    }
    assert forall n :: HasOwner(z.db, n) == HasOwner(s.db, n);
    forall y | y in z.txns ensures TxnOk(z.db, z.txns[y]) {
      NewTenantFrame(s.db, t, s.txns[y]);
    }
  }

  lemma InsertInviteKeeps(s: State, i: InviteId, v: Invite)
    requires Inv(s) && HasOwner(s.db, v.tenant) && v.uses == 0 && i !in s.db.invites
    ensures Inv(s.(db := AddInvite(s.db, i, v)))
  {
    var z := s.(db := AddInvite(s.db, i, v));
    NoJoins(s.db.history, i);
    forall j | j in z.db.invites ensures InviteOk(z.db, j) {
      if j != i {
        assert InviteOk(s.db, j);
      }
    }
    assert forall n :: HasOwner(z.db, n) == HasOwner(s.db, n);
    forall y | y in z.txns ensures TxnOk(z.db, z.txns[y]) {
      assert TxnOk(s.db, s.txns[y]);
    }
  }

  lemma {:induction false} NoJoins(h: seq<Fact>, i: InviteId)
    requires forall f :: f in h && f.Joined? ==> f.invite != i
    ensures Joins(h, i) == 0
  {
    if h != [] {
      NoJoins(h[..|h| - 1], i);
    }
  }

  // ---- theorems about every run ----

  /** One event keeps the invariant, and every tenant that has an owner. */
  lemma StepKeeps(s: State, e: Event)
    requires Inv(s)
    ensures Inv(Step(s, e))
    ensures forall n :: HasOwner(s.db, n) ==> HasOwner(Step(s, e).db, n)
  {
    hide Inv, Effect, TxnOk, DbOk, Advance, HasOwner, StepLockOwner;
    match e
    case CreateTenant(t) =>
      if !TenantPending(s, t) {
        CreateTenantKeeps(s, t);
        SameMembers(s.db, s.db.(tenants := s.db.tenants + {t}));
      }
    case InsertInvite(x, i, role, maxUses, expires) =>
      if Step(s, e) != s {
        var v := Invite(s.txns[x].tenant, role, maxUses, 0, expires);
        GateOpen(s, x);
        InsertInviteKeeps(s, i, v);
        EndKeeps(s.(db := AddInvite(s.db, i, v)), x);
        SameMembers(s.db, AddInvite(s.db, i, v));
      }
    case Commit(x) =>
      if x in s.txns && Committable(s.txns[x]) {
        CommitKeeps(s, x);
      }
    case Abort(x) => EndKeeps(s, x);
    case LockOwner(x, r) =>
      if x in s.txns && s.txns[x].RemoveCounts? {
        LockOwnerKeeps(s, x, s.txns[x], r);
        LockOwnerSameDb(s, x, s.txns[x], r);
      }
    case _ => PlainStepKeeps(s, e);
  }

  lemma SameMembers(db: Db, z: Db)
    requires z.members == db.members
    ensures forall n :: HasOwner(z, n) == HasOwner(db, n)
  {
  }

  lemma GateOpen(s: State, x: TxnId)
    requires Inv(s) && x in s.txns && s.txns[x].InviteGate?
    ensures HasOwner(s.db, s.txns[x].tenant)
  {
    assert TxnOk(s.db, s.txns[x]);
  }

  lemma LockOwnerSameDb(s: State, x: TxnId, t: Txn, r: Row)
    requires t.RemoveCounts?
    ensures StepLockOwner(s, x, t, r).db == s.db
  {
  }

  lemma AdvanceSameDb(s: State, x: TxnId, t: Txn, e: Event)
    ensures Advance(s, x, t, e).db == s.db
  {
  }

  lemma PlainStepKeeps(s: State, e: Event)
    requires Inv(s)
    requires !e.CreateTenant? && !e.InsertInvite? && !e.Commit? && !e.Abort? && !e.LockOwner?
    ensures Inv(Step(s, e)) && Step(s, e).db == s.db
  {
    hide Inv, TxnOk, DbOk, Advance;
    if e.BeginRemove? || e.BeginAccept? || e.BeginClaim? || e.BeginCreate? || e.CheckOwner? {
      BeginKeeps(s, e);
    } else if e.x in s.txns {
      AdvanceSameDb(s, e.x, s.txns[e.x], e);
      var t := s.txns[e.x];
      if t.RemoveWaits? || t.RemoveReads? || t.RemoveCounts? || t.RemoveAllowed? {
        AdvanceRemoveKeeps(s, e.x, e);
      } else {
        AdvanceJoinKeeps(s, e.x, e);
      }
    }
  }

  lemma {:induction false} RunKeeps(s: State, es: seq<Event>)
    requires Inv(s)
    ensures Inv(Run(s, es))
    ensures forall n :: HasOwner(s.db, n) ==> HasOwner(Run(s, es).db, n)
    decreases |es|
  {
    hide Inv, Step, HasOwner;
    if es != [] {
      StepKeeps(s, es[0]);
      RunKeeps(Step(s, es[0]), es[1..]);
    }
  }

  lemma {:induction false} RunAppend(s: State, es: seq<Event>, fs: seq<Event>)
    ensures Run(s, es + fs) == Run(Run(s, es), fs)
    decreases |es|
  {
    hide Step;
    if es == [] {
      assert es + fs == fs;
    } else {
      assert (es + fs)[1..] == es[1..] + fs;
      RunAppend(Step(s, es[0]), es[1..], fs);
    }
  }

  lemma Reachable(es: seq<Event>)
    ensures Inv(Run(Init(), es))
  {
    assert Inv(Init());
    RunKeeps(Init(), es);
  }

  ghost predicate LocksOpen(s: State) {
    forall l :: l in s.locks ==> s.locks[l] in s.txns
  }

  lemma AdvanceLocks(s: State, x: TxnId, e: Event)
    requires LocksOpen(s) && x in s.txns
    ensures LocksOpen(Advance(s, x, s.txns[x], e))
    ensures s.txns[x].RemoveCounts? && e.LockOwner? ==> LocksOpen(StepLockOwner(s, x, s.txns[x], e.row))
  {
    hide Live, Usable, Owners, HasMember, KeyBusy;
  }

  lemma StepLocks(s: State, e: Event)
    requires LocksOpen(s)
    ensures LocksOpen(Step(s, e))
  {
    hide Advance, StepLockOwner, Effect, Usable, TenantPending;
    if !e.CreateTenant? && e.x in s.txns {
      AdvanceLocks(s, e.x, e);
    }
  }

  lemma {:induction false} RunLocks(s: State, es: seq<Event>)
    requires LocksOpen(s)
    ensures LocksOpen(Run(s, es))
    decreases |es|
  {
    hide Step, LocksOpen;
    if es != [] {
      StepLocks(s, es[0]);
      RunLocks(Step(s, es[0]), es[1..]);
    }
  }

  /** Whoever holds a lock is still open: whatever a transaction locked is free once it commits or aborts. */
  lemma NoStaleLocks(es: seq<Event>, l: Lock)
    requires l in Run(Init(), es).locks
    ensures Run(Init(), es).locks[l] in Run(Init(), es).txns
  {
    RunLocks(Init(), es);
  }

  /** A tenant that once has an owner always has one, whatever transactions run and wherever they abort. */
  lemma OwnerForever(es: seq<Event>, more: seq<Event>, t: TenantId)
    requires HasOwner(Run(Init(), es).db, t)
    ensures HasOwner(Run(Init(), es + more).db, t)
  {
    hide Inv, Step;
    Reachable(es);
    RunAppend(Init(), es, more);
    RunKeeps(Run(Init(), es), more);
  }

  /** A tenant with members has an owner, and so does a tenant with an invite. */
  lemma MembersHaveOwner(es: seq<Event>, t: TenantId)
    ensures var db := Run(Init(), es).db;
      (HasMember(db, t) <==> HasOwner(db, t)) && forall i :: i in db.invites ==> HasOwner(db, db.invites[i].tenant)
  {
    Reachable(es);
    var db := Run(Init(), es).db;
    forall i | i in db.invites ensures HasOwner(db, db.invites[i].tenant) {
      assert InviteOk(db, i);
    }
  }

  /** Once a tenant has a member it never becomes empty again. */
  lemma NeverEmptied(es: seq<Event>, more: seq<Event>, t: TenantId)
    requires HasMember(Run(Init(), es).db, t)
    ensures HasMember(Run(Init(), es + more).db, t)
  {
    MembersHaveOwner(es, t);
    OwnerForever(es, more, t);
    MembersHaveOwner(es + more, t);
  }

  /** Over a whole run a tenant gets its first owner once: it is founded, or claimed, and never claimed after either. */
  lemma ClaimedOnce(es: seq<Event>, i: nat, j: nat)
    requires i < j < |Run(Init(), es).db.history|
    ensures var h := Run(Init(), es).db.history;
      h[j].Claimed? && (h[i].Claimed? || h[i].Founded?) ==> h[i].tenant != h[j].tenant
  {
    var db := Run(Init(), es).db;
    Reachable(es);
    if db.history[j].Claimed? && (db.history[i].Claimed? || db.history[i].Founded?)
      && db.history[i].tenant == db.history[j].tenant
    {
      TwoStarts(db.history, i, j);
    }
  }

  lemma {:induction false} TwoStarts(h: seq<Fact>, i: nat, j: nat)
    requires i < j < |h| && h[j].Claimed? && (h[i].Claimed? || h[i].Founded?) && h[i].tenant == h[j].tenant
    ensures Starts(h, h[j].tenant) >= 2
  {
    var n := |h| - 1;
    if j < n {
      TwoStarts(h[..n], i, j);
    } else {
      OneStart(h[..n], i);
    }
  }

  lemma {:induction false} OneStart(h: seq<Fact>, i: nat)
    requires i < |h| && (h[i].Claimed? || h[i].Founded?)
    ensures Starts(h, h[i].tenant) >= 1
  {
    var n := |h| - 1;
    if i < n {
      OneStart(h[..n], i);
    }
  }

  /** An invite's use count is the number of memberships it inserted, and within its limit. */
  lemma InviteAccounting(es: seq<Event>, i: InviteId)
    requires i in Run(Init(), es).db.invites
    ensures var db := Run(Init(), es).db; db.invites[i].uses == Joins(db.history, i) <= db.invites[i].maxUses
  {
    Reachable(es);
    assert InviteOk(Run(Init(), es).db, i);
  }

  lemma RemovalDrops(s: State, x: TxnId, r: Row, counted: set<Row>)
    requires x in s.txns && s.txns[x] == RemoveDeleted(r, counted)
    ensures Step(s, Commit(x)).db.members == s.db.members - {r.key}
  {
  }

  /** A committing owner removal holds the locks of two owner rows or more, and one of them survives it. */
  lemma RemovalLeavesLockedOwner(es: seq<Event>, x: TxnId, r: Row, counted: set<Row>) returns (c: Row)
    requires x in Run(Init(), es).txns && Run(Init(), es).txns[x] == RemoveDeleted(r, counted) && r.role == Owner
    ensures var s := Run(Init(), es); var z := Step(s, Commit(x));
      && c != r && c.role == Owner && c.key.tenant == r.key.tenant
      && OnRow(c) in s.locks && s.locks[OnRow(c)] == x
      && Live(s.db, c) && Live(z.db, c)
      && Live(s.db, r) && r.key !in z.db.members
  {
    var s := Run(Init(), es);
    Reachable(es);
    Opened(s, x);
    RemovalDrops(s, x, r, counted);
    hide Run, Inv, DbOk, Distinct, Step;
    c := AnotherThan(counted, r);
    assert Live(s.db, c);
    assert OnRow(c) in Needs(s.txns[x]);
  }

  /** ErrLastOwner is returned exactly when every other owner the count saw has been removed by then. */
  lemma RefusedExactlyWhenAlone(es: seq<Event>, x: TxnId)
    requires x in Run(Init(), es).txns && Run(Init(), es).txns[x].RemoveCounts? && Run(Init(), es).txns[x].todo == {}
    ensures var s := Run(Init(), es); var t := s.txns[x];
      && t.row in t.seen && Live(s.db, t.row)
      && (Step(s, FinishCount(x)) == End(s, x) <==> forall c :: c in t.seen && Live(s.db, c) ==> c == t.row)
      && Step(s, FinishCount(x)).db == s.db
  {
    var s := Run(Init(), es);
    var t := s.txns[x];
    Reachable(es);
    Opened(s, x);
    if |t.counted| <= 1 {
      SubsetSize({t.row}, t.counted);
      forall c | c in t.counted ensures c == t.row {
        if c != t.row {
          SubsetSize({c, t.row}, t.counted);
        }
      }
    } else {
      var c := AnotherThan(t.counted, t.row);
    }
  }

  lemma CommitRoles(db: Db, t: Txn, k: Key)
    requires DbOk(db) && TxnOk(db, t) && Committable(t) && k in db.members
    ensures if t.RemoveDeleted? && t.row == RowAt(db, k) then k !in Effect(db, t).members
            else k in Effect(db, t).members && Effect(db, t).members[k] == db.members[k]
  {
    if Adds(t).Some? {
      AddsWhere(db, t);
    }
  }

  /** No step changes the role of a member, and the only way out is a removal that commits. */
  lemma RolesFixed(es: seq<Event>, e: Event, k: Key)
    requires k in Run(Init(), es).db.members
    ensures var s := Run(Init(), es); var z := Step(s, e);
      if e.Commit? && e.x in s.txns && s.txns[e.x].RemoveDeleted? && s.txns[e.x].row == RowAt(s.db, k)
      then k !in z.db.members
      else k in z.db.members && z.db.members[k] == s.db.members[k]
  {
    var s := Run(Init(), es);
    Reachable(es);
    hide Run, Inv, TxnOk, DbOk, Advance, Effect, StepLockOwner;
    if !e.CreateTenant? && !e.InsertInvite? && !e.Commit? && !e.Abort? && !e.LockOwner? {
      PlainStepKeeps(s, e);
    } else if e.Commit? && e.x in s.txns && Committable(s.txns[e.x]) {
      Opened(s, e.x);
      CommitRoles(s.db, s.txns[e.x], k);
    } else if e.LockOwner? && e.x in s.txns && s.txns[e.x].RemoveCounts? {
      LockOwnerSameDb(s, e.x, s.txns[e.x], e.row);
    }
  }

  /** A commit of AcceptInvite either finds nobody under the key, adds that one member with the invite's uses one
      higher, or changes nothing: someone already in the tenant keeps their role and spends nothing. */
  lemma AcceptOutcome(es: seq<Event>, x: TxnId)
    requires x in Run(Init(), es).txns && (Run(Init(), es).txns[x].AcceptPaid? || Run(Init(), es).txns[x].AcceptKnown?)
    ensures var s := Run(Init(), es); var z := Step(s, Commit(x)).db; var t := s.txns[x];
      if t.AcceptKnown? then z == s.db
      else
        && t.key !in s.db.members && t.invite in s.db.invites
        && t.key.tenant == s.db.invites[t.invite].tenant && t.role == s.db.invites[t.invite].role
        && z.members == s.db.members[t.key := Cell(s.db.nextId, t.role)]
        && z.invites == s.db.invites[t.invite := s.db.invites[t.invite].(uses := s.db.invites[t.invite].uses + 1)]
  {
    hide Run, Inv, DbOk, LocksOk, Distinct, Needs;
    Reachable(es);
    Opened(Run(Init(), es), x);
  }
}
