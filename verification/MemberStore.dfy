/** The membership operations as programs: one session issues its statements in order and branches on the answers,
    and between any two of them the other sessions do whatever they like. */
module MemberStore {
  import opened Base
  import opened Membership
  import opened Session

  datatype Outcome = Done | NotFound | LastOwner | InviteInvalid | AlreadyClaimed | Failed

  predicate Foreign(e: Event, x: TxnId) {
    e.CreateTenant? || e.x != x
  }

  ghost predicate EnvOk(env: Env<Event>, x: TxnId) {
    forall i: nat, j :: 0 <= j < |env.others(i)| ==> Foreign(env.others(i)[j], x)
  }

  predicate Kept(s: State, z: State, x: TxnId) {
    (x in z.txns <==> x in s.txns) && (x in s.txns ==> z.txns[x] == s.txns[x])
  }

  lemma ForeignAdvance(s: State, y: TxnId, t: Txn, e: Event, x: TxnId)
    requires x != y
    ensures Kept(s, Advance(s, y, t, e), x)
  {
  }

  lemma ForeignLock(s: State, y: TxnId, t: Txn, r: Row, x: TxnId)
    requires x != y && t.RemoveCounts?
    ensures Kept(s, StepLockOwner(s, y, t, r), x)
  {
  }

  /** Statements of the others leave our transaction where it is. */
  lemma ForeignStep(s: State, e: Event, x: TxnId)
    requires Foreign(e, x)
    ensures x in Step(s, e).txns <==> x in s.txns
    ensures x in s.txns ==> Step(s, e).txns[x] == s.txns[x]
  {
    if !e.CreateTenant? && e.x in s.txns {
      ForeignAdvance(s, e.x, s.txns[e.x], e, x);
      if e.LockOwner? && s.txns[e.x].RemoveCounts? {
        ForeignLock(s, e.x, s.txns[e.x], e.row, x);
      }
    }
    hide Advance, StepLockOwner, Effect, TenantPending, Usable;
  }

  lemma {:induction false} ForeignRun(s: State, es: seq<Event>, x: TxnId)
    requires forall j :: 0 <= j < |es| ==> Foreign(es[j], x)
    ensures x in Run(s, es).txns <==> x in s.txns
    ensures x in s.txns ==> Run(s, es).txns[x] == s.txns[x]
    decreases |es|
  {
    hide Step;
    if es != [] {
      ForeignStep(s, es[0], x);
      ForeignRun(Step(s, es[0]), es[1..], x);
    }
  }

  // ---- what x's own statements saw ----

  /** Between p and q the i-th event was e, and it met state s. */
  ghost predicate Saw(p: Past<Event>, q: Past<Event>, i: nat, e: Event, s: State) {
    |p.trace| <= i < |q.trace| && q.trace[i] == e && s == Run(Init(), q.trace[..i])
  }

  ghost predicate HeldByAnother(s: State, l: Lock, x: TxnId) {
    l in s.locks && s.locks[l] != x
  }

  /** Another transaction has written the row of key k and not committed yet. */
  ghost predicate WrittenByAnother(s: State, k: Key, x: TxnId) {
    exists y :: y in s.txns && y != x &&
      match s.txns[y]
      case AcceptInserted(_, j, _) => j == k
      case AcceptPaid(_, j, _, _) => j == k
      case ClaimInserted(j) => j == k
      case CreateOwned(j) => j == k
      case RemoveDeleted(r, _) => r.key == k
      case _ => false
  }

  /** The lock or the key that x's statement e needs is in another transaction's hands. */
  ghost predicate Blocked(s: State, e: Event, x: TxnId) {
    x in s.txns &&
    match (s.txns[x], e)
    case (RemoveWaits(r), LockTarget(y)) => y == x && HeldByAnother(s, OnRow(r), x)
    case (RemoveCounts(_, _, _, _), LockOwner(y, r)) => y == x && HeldByAnother(s, OnRow(r), x)
    case (AcceptWaits(i, _, _), LockInvite(y)) => y == x && HeldByAnother(s, OnInvite(i), x)
    case (AcceptHolds(i, u), InsertMember(y)) =>
      y == x && i in s.db.invites && WrittenByAnother(s, Key(s.db.invites[i].tenant, u), x)
    case (ClaimWaits(t, _), LockTenant(y)) => y == x && HeldByAnother(s, OnTenant(t), x)
    case (ClaimFree(t, u), InsertClaimer(y)) => y == x && WrittenByAnother(s, Key(t, u), x)
    case _ => false
  }

  /** Between p and q a statement errored, or found its lock or key still held. */
  ghost predicate GaveUp(p: Past<Event>, q: Past<Event>, x: TxnId, env: Env<Event>) {
    Errored(p, q, env) || exists i, e, s :: Saw(p, q, i, e, s) && Blocked(s, e, x)
  }

  /** ErrNotFound: the row was not there, or was deleted or replaced by the time its lock came free.
      ErrLastOwner: of the owners the count's snapshot showed, the target alone was left when the count ended. */
  ghost predicate RemoveSaw(p: Past<Event>, q: Past<Event>, x: TxnId, k: Key, out: Outcome) {
    match out
    case NotFound =>
      || (exists i, s :: Saw(p, q, i, BeginRemove(x, k), s) && k !in s.db.members)
      || (exists i, s, j, z :: i < j && Saw(p, q, i, BeginRemove(x, k), s) && Saw(p, q, j, LockTarget(x), z)
            && k in s.db.members && (k !in z.db.members || z.db.members[k] != s.db.members[k])
            && !HeldByAnother(z, OnRow(RowAt(s.db, k)), x))
    case LastOwner =>
      exists i, s, j, z :: i < j && Saw(p, q, i, StartCount(x), s) && Saw(p, q, j, FinishCount(x), z)
        && k in z.db.members && z.db.members[k].role == Owner && LeftAlone(s.db.members, z.db.members, k)
    case _ => true
  }

  /** Every other owner of k's tenant in the snapshot is gone, or another row by now. */
  ghost predicate LeftAlone(snapshot: map<Key, Cell>, members: map<Key, Cell>, k: Key) {
    forall u :: u in snapshot && u.tenant == k.tenant && u != k && snapshot[u].role == Owner ==>
      u !in members || members[u] != snapshot[u]
  }

  lemma StatementPast(o: Past<Event>, p: Past<Event>, q: Past<Event>, r: Past<Event>, x: TxnId, e: Event, s: State,
                      i: nat, env: Env<Event>, ok: bool)
    requires Since(o, p) && Since(p, q) && Since(q, r) && q.turn == p.turn + 1 && ok == !env.fails(p.turn)
    requires ok ==> Saw(q, r, i, e, s)
    ensures Since(o, r) && Since(p, r) && (ok ==> Saw(o, r, i, e, s))
    ensures !ok || Blocked(s, e, x) ==> GaveUp(o, r, x, env)
  {
    hide Blocked, Run;
  }

  lemma SawLater(p: Past<Event>, q: Past<Event>, r: Past<Event>, i: nat, e: Event, s: State)
    requires Since(q, r) && Saw(p, q, i, e, s)
    ensures Saw(p, r, i, e, s)
  {
    assert r.trace[..i] == q.trace[..i];
  }

  lemma GaveUpLater(p: Past<Event>, q: Past<Event>, r: Past<Event>, x: TxnId, env: Env<Event>)
    requires Since(q, r) && GaveUp(p, q, x, env)
    ensures GaveUp(p, r, x, env)
  {
    hide Blocked, Saw, Run;
    if !Errored(p, q, env) {
      var i, e, s :| Saw(p, q, i, e, s) && Blocked(s, e, x);
      SawLater(p, q, r, i, e, s);
    }
  }

  /** The invite is missing, expired or used up. */
  ghost predicate Spent(db: Db, i: InviteId, now: int) {
    i !in db.invites || db.invites[i].expires <= now || db.invites[i].uses >= db.invites[i].maxUses
  }

  /** ErrInviteInvalid: the invite was missing, expired or used up, at first sight or once its lock came free.
      Otherwise it was neither when the lock was granted. */
  ghost predicate AcceptSaw(p: Past<Event>, q: Past<Event>, x: TxnId, v: InviteId, u: UserId, now: int, out: Outcome) {
    match out
    case InviteInvalid =>
      exists i, e, s :: Saw(p, q, i, e, s) && Spent(s.db, v, now) &&
        (e == BeginAccept(x, v, u, now) || (e == LockInvite(x) && !HeldByAnother(s, OnInvite(v), x)))
    case Done =>
      exists i, s :: Saw(p, q, i, LockInvite(x), s) && !HeldByAnother(s, OnInvite(v), x) && v in s.db.invites
        && s.db.invites[v].expires > now && s.db.invites[v].uses < s.db.invites[v].maxUses
    case _ => true
  }

  /** At its commit the user is in the tenant already and nothing is written, or there is nobody under the key: then
      the commit adds that member, with the invite's role, and one use. */
  ghost predicate AcceptWrote(p: Past<Event>, q: Past<Event>, x: TxnId, v: InviteId, u: UserId, after: Db) {
    exists i, s, j, z :: i < j && Saw(p, q, i, InsertMember(x), s) && Saw(p, q, j, Commit(x), z)
      && v in s.db.invites && v in z.db.invites
      && var k := Key(s.db.invites[v].tenant, u);
         if k in s.db.members then after == z.db
         else
           && k !in z.db.members
           && after.members == z.db.members[k := Cell(z.db.nextId, s.db.invites[v].role)]
           && after.invites == z.db.invites[v := z.db.invites[v].(uses := z.db.invites[v].uses + 1)]
  }

  /** The commit takes k's row, and nothing else, from the tables it meets. */
  ghost predicate RemoveWrote(p: Past<Event>, q: Past<Event>, x: TxnId, k: Key, after: Db) {
    exists i, s :: Saw(p, q, i, Commit(x), s) && k in s.db.members && after.members == s.db.members - {k}
      && after.tenants == s.db.tenants && after.invites == s.db.invites
  }

  /** The commit adds k as an owner, and k's tenant if it is new, to the tables it meets. */
  ghost predicate OwnerWrote(p: Past<Event>, q: Past<Event>, x: TxnId, k: Key, after: Db) {
    exists i, s :: Saw(p, q, i, Commit(x), s) && (forall j :: j in s.db.members ==> j.tenant != k.tenant)
      && after.members == s.db.members[k := Cell(s.db.nextId, Owner)]
      && after.tenants == s.db.tenants + {k.tenant} && after.invites == s.db.invites
  }

  /** ErrNotFound: there was no such tenant. ErrClaimed: it had a member. */
  ghost predicate ClaimSaw(p: Past<Event>, q: Past<Event>, x: TxnId, t: TenantId, u: UserId, out: Outcome) {
    match out
    case NotFound => exists i, s :: Saw(p, q, i, BeginClaim(x, t, u), s) && t !in s.db.tenants
    case AlreadyClaimed =>
      exists i, s, k :: Saw(p, q, i, CheckUnclaimed(x), s) && k in s.db.members && k.tenant == t
    case _ => true
  }

  /** The API let in who was an owner when it looked, and nobody else. */
  ghost predicate InviteSaw(p: Past<Event>, q: Past<Event>, x: TxnId, k: Key, out: Outcome) {
    out == Failed ||
    exists i, s :: Saw(p, q, i, CheckOwner(x, k), s) &&
      (out == Done <==> k in s.db.members && s.db.members[k].role == Owner)
  }

  /** The generated id was in use. */
  ghost predicate IdInUse(p: Past<Event>, q: Past<Event>, e: Event) {
    exists i, s :: Saw(p, q, i, e, s) &&
      match e
      case BeginCreate(_, t, _) => t in s.db.tenants || TenantPending(s, t)
      case InsertInvite(_, v, _, _, _) => v in s.db.invites
      case _ => false
  }

  lemma SawInUse(p: Past<Event>, q: Past<Event>, r: Past<Event>, i: nat, e: Event, s: State)
    requires Saw(p, q, i, e, s) && Since(q, r)
    requires match e
      case BeginCreate(_, t, _) => t in s.db.tenants || TenantPending(s, t)
      case InsertInvite(_, v, _, _, _) => v in s.db.invites
      case _ => false
    ensures IdInUse(p, r, e)
  {
    hide Saw, Run, TenantPending;
    SawLater(p, q, r, i, e, s);
  }

  lemma SawNoRow(p: Past<Event>, q: Past<Event>, i: nat, x: TxnId, k: Key, s: State)
    requires Saw(p, q, i, BeginRemove(x, k), s) && k !in s.db.members
    ensures RemoveSaw(p, q, x, k, NotFound)
  {
    hide Saw, Run, HeldByAnother, RowAt;
  }

  lemma SawOtherRow(p: Past<Event>, q: Past<Event>, i: nat, j: nat, x: TxnId, k: Key, s: State, z: State)
    requires i < j && Saw(p, q, i, BeginRemove(x, k), s) && Saw(p, q, j, LockTarget(x), z)
    requires k in s.db.members && !Live(z.db, RowAt(s.db, k)) && !Taken(z, OnRow(RowAt(s.db, k)), x)
    ensures RemoveSaw(p, q, x, k, NotFound)
  {
    hide Saw, Run;
  }

  /** The count refused with every owner row of its snapshot dropped but the target's. */
  lemma SawAlone(p: Past<Event>, q: Past<Event>, i: nat, j: nat, x: TxnId, k: Key, s: State, z: State)
    requires i < j && Saw(p, q, i, StartCount(x), s) && Saw(p, q, j, FinishCount(x), z)
    requires x in z.txns && z.txns[x].RemoveCounts? && z.txns[x].row.key == k && z.txns[x].row.role == Owner
    requires z.txns[x].seen == Owners(s.db, k.tenant) && z.txns[x].todo == {} && x !in Step(z, FinishCount(x)).txns
    ensures RemoveSaw(p, q, x, k, LastOwner)
  {
    RefusedExactlyWhenAlone(q.trace[..j], x);
    hide Run, Step;
    assert Saw(p, q, i, StartCount(x), s) && Saw(p, q, j, FinishCount(x), z);
    var a, b := s.db.members, z.db.members;
    forall u | u in a && u.tenant == k.tenant && u != k && a[u].role == Owner ensures u !in b || b[u] != a[u] {
      assert RowAt(s.db, u) in Owners(s.db, k.tenant);
    }
  }

  lemma SawSpent(p: Past<Event>, q: Past<Event>, i: nat, e: Event, x: TxnId, v: InviteId, u: UserId, now: int, s: State)
    requires Saw(p, q, i, e, s) && Spent(s.db, v, now)
    requires e == BeginAccept(x, v, u, now) || (e == LockInvite(x) && !Taken(s, OnInvite(v), x))
    ensures AcceptSaw(p, q, x, v, u, now, InviteInvalid)
  {
    hide Saw, Run, Spent;
  }

  lemma SawUsable(p: Past<Event>, q: Past<Event>, i: nat, x: TxnId, v: InviteId, u: UserId, now: int, s: State)
    requires Saw(p, q, i, LockInvite(x), s) && !Spent(s.db, v, now)
    requires !Taken(s, OnInvite(v), x)
    ensures AcceptSaw(p, q, x, v, u, now, Done)
  {
    hide Saw, Run;
  }

  lemma AcceptSawLater(p: Past<Event>, q: Past<Event>, r: Past<Event>, x: TxnId, v: InviteId, u: UserId, now: int)
    requires Since(q, r) && AcceptSaw(p, q, x, v, u, now, Done)
    ensures AcceptSaw(p, r, x, v, u, now, Done)
  {
    hide Saw, Run, HeldByAnother;
    var i, s :| Saw(p, q, i, LockInvite(x), s) && !HeldByAnother(s, OnInvite(v), x) && v in s.db.invites
      && s.db.invites[v].expires > now && s.db.invites[v].uses < s.db.invites[v].maxUses;
    SawLater(p, q, r, i, LockInvite(x), s);
  }

  lemma AcceptSawElse(p: Past<Event>, q: Past<Event>, x: TxnId, v: InviteId, u: UserId, now: int)
    ensures AcceptSaw(p, q, x, v, u, now, Failed)
  {
  }

  /** What InsertMember found of the invite and the member in the tables db, as the transaction remembers it. */
  ghost predicate Inserts(db: Db, t: Txn, z: Txn) {
    && t.AcceptHolds? && t.invite in db.invites
    && var v := db.invites[t.invite];
       var k := Key(v.tenant, t.user);
       if k in db.members then z == AcceptKnown(t.invite)
       else z.AcceptPaid? && z.invite == t.invite && z.key == k && z.role == v.role
  }

  lemma InsertsKind(db: Db, t: Txn, z: Txn)
    requires Inserts(db, t, z)
    ensures t.AcceptHolds? && (z.AcceptKnown? || z.AcceptPaid?) && z.invite == t.invite
  {
  }

  lemma SawWrite(p: Past<Event>, q: Past<Event>, i: nat, j: nat, x: TxnId, v: InviteId, u: UserId, s: State, z: State,
                 after: Db)
    requires i < j && Saw(p, q, i, InsertMember(x), s) && Saw(p, q, j, Commit(x), z)
    requires x in z.txns && Inserts(s.db, AcceptHolds(v, u), z.txns[x]) && v in z.db.invites
    requires var t := z.txns[x]; t.AcceptKnown? ==> after == z.db
    requires var t := z.txns[x]; t.AcceptPaid? ==>
      after == WithJoined(z.db, v, t.key) && t.key !in z.db.members && t.role == z.db.invites[v].role
    ensures AcceptWrote(p, q, x, v, u, after)
  {
    hide Saw, Run;
  }

  lemma ClaimSawElse(p: Past<Event>, q: Past<Event>, x: TxnId, t: TenantId, u: UserId)
    ensures ClaimSaw(p, q, x, t, u, Failed) && ClaimSaw(p, q, x, t, u, Done)
  {
  }

  lemma SawRemoval(p: Past<Event>, q: Past<Event>, i: nat, x: TxnId, k: Key, s: State)
    requires Saw(p, q, i, Commit(x), s) && k in s.db.members
    ensures RemoveWrote(p, q, x, k, WithoutMember(s.db, k))
  {
    hide Saw, Run;
  }

  lemma SawOwner(p: Past<Event>, q: Past<Event>, i: nat, x: TxnId, k: Key, f: Fact, s: State)
    requires Saw(p, q, i, Commit(x), s) && !HasMember(s.db, k.tenant)
    ensures OwnerWrote(p, q, x, k, WithOwner(s.db, k, f))
  {
    hide Saw, Run;
  }

  lemma SawMember(p: Past<Event>, q: Past<Event>, i: nat, x: TxnId, t: TenantId, u: UserId, s: State)
    requires Saw(p, q, i, CheckUnclaimed(x), s) && HasMember(s.db, t)
    ensures ClaimSaw(p, q, x, t, u, AlreadyClaimed)
  {
    hide Saw, Run;
  }

  class Store {
    var s: State
    /** How many statements were issued here. */
    var turn: nat
    /** Every event so far, everyone's. */
    ghost var trace: seq<Event>

    ghost predicate Valid()
      reads this
    {
      s == Run(Init(), trace) && Inv(s)
    }

    ghost predicate Published(x: TxnId)
      reads this
    {
      Commit(x) in trace
    }

    ghost function Sofar(): Past<Event>
      reads `trace, `turn
    {
      Past(trace, turn)
    }

    constructor ()
      ensures Valid() && s == Init()
    {
      s, turn, trace := Init(), 0, [];
    }

    method Exec(e: Event)
      requires Valid()
      modifies `s, `trace
      ensures Valid() && s == Step(old(s), e) && trace == old(trace) + [e]
    {
      StepKeeps(s, e);
      s := Step(s, e);
      trace := trace + [e];
      RunAppend(Init(), old(trace), [e]);
      assert Run(old(s), [e]) == Run(Step(old(s), e), [e][1..]);
    }

    method Others(es: seq<Event>)
      requires Valid()
      modifies `s, `trace
      ensures Valid() && s == Run(old(s), es) && trace == old(trace) + es
    {
      RunKeeps(s, es);
      s := Run(s, es);
      trace := trace + es;
      RunAppend(Init(), old(trace), es);
    }

    method Rollback(x: TxnId)
      requires Valid()
      modifies `s, `trace
      ensures Valid() && s == End(old(s), x) && x !in s.txns && s.db == old(s.db)
      ensures Since(old(Sofar()), Sofar()) && |trace| == |old(trace)| + 1 && (Published(x) <==> old(Published(x)))
    {
      hide Run, Inv;
      Exec(Abort(x));
    }

    /** A lock that never comes free ends in the deferred rollback. */
    method GiveUp(x: TxnId, env: Env<Event>, ghost p: Past<Event>)
      requires Valid() && Since(p, Sofar()) && GaveUp(p, Sofar(), x, env)
      modifies `s, `trace
      ensures Valid() && x !in s.txns && s.db == old(s.db)
      ensures Since(p, Sofar()) && Since(old(Sofar()), Sofar()) && GaveUp(p, Sofar(), x, env)
      ensures Published(x) <==> old(Published(x))
    {
      hide *;
      ghost var q := Sofar();
      Rollback(x);
      SinceTwice(p, q, Sofar());
      GaveUpLater(p, q, Sofar(), x, env);
    }

    /** A statement that the database carries out. */
    method Issue(x: TxnId, e: Event)
      requires Valid() && !e.CreateTenant? && e.x == x
      modifies `s, `trace
      ensures Valid() && s == Step(old(s), e) && (Published(x) <==> old(Published(x)) || e == Commit(x))
      ensures Since(old(Sofar()), Sofar()) && |trace| == |old(trace)| + 1
      ensures Saw(old(Sofar()), Sofar(), |old(trace)|, e, old(s))
    {
      hide Step, Run, Inv;
      Exec(e);
      assert trace[..|old(trace)|] == old(trace);
    }

    /** What the others do before x's next statement. */
    method Meanwhile(x: TxnId, env: Env<Event>)
      requires Valid() && EnvOk(env, x)
      modifies `s, `trace
      ensures Valid() && s == Run(old(s), env.others(turn)) && (env.others(turn) == [] ==> s == old(s))
      ensures (x in s.txns <==> x in old(s).txns) && (x in s.txns ==> s.txns[x] == old(s).txns[x])
      ensures Since(old(Sofar()), Sofar()) && (Published(x) <==> old(Published(x)))
    {
      assert forall e :: e in env.others(turn) ==> e != Commit(x);
      ForeignRun(s, env.others(turn), x);
      hide Step, Inv, Valid;
      Others(env.others(turn));
    }

    /** One statement of x's transaction: the others first, then ours, or the error that rolls us back.
        Ghost p is where the operation it belongs to began. */
    method Statement(x: TxnId, e: Event, env: Env<Event>, ghost p: Past<Event>)
      returns (ok: bool, ghost before: State, ghost at: nat)
      requires Valid() && EnvOk(env, x) && !e.CreateTenant? && e.x == x && !e.Abort? && Since(p, Sofar())
      modifies this
      ensures Valid() && ok == !env.fails(old(turn))
      ensures before == Run(old(s), env.others(old(turn))) && (Undisturbed(env) ==> ok && before == old(s))
      ensures Inv(before) && (x in before.txns <==> x in old(s).txns)
      ensures x in old(s).txns ==> before.txns[x] == old(s).txns[x]
      ensures s == if ok then Step(before, e) else End(before, x)
      ensures Published(x) <==> old(Published(x)) || (ok && e == Commit(x))
      ensures Since(p, Sofar()) && Since(old(Sofar()), Sofar()) && |old(trace)| <= at < |trace|
      ensures ok ==> Saw(p, Sofar(), at, e, before)
      ensures !ok || Blocked(before, e, x) ==> GaveUp(p, Sofar(), x, env)
    {
      ghost var start := Sofar();
      Meanwhile(x, env);
      before, at := s, |trace|;
      assert Inv(before);
      ok := !env.fails(turn);
      turn := turn + 1;
      ghost var q := Sofar();
      assert Since(start, q) && q.turn == start.turn + 1 && at == |q.trace|;
      hide *;
      if ok {
        Issue(x, e);
      } else {
        Rollback(x);
      }
      StatementPast(p, start, q, Sofar(), x, e, before, at, env, ok);
    }

    /** SELECT role ... FOR UPDATE. */
    method SelectRole(x: TxnId, k: Key, env: Env<Event>, ghost p: Past<Event>) returns (out: Option<Outcome>)
      requires Valid() && x !in s.txns && EnvOk(env, x) && Since(p, Sofar())
      modifies this
      ensures Valid() && (Published(x) <==> old(Published(x))) && Since(p, Sofar())
      ensures out.Some? ==> x !in s.txns && out.value in {NotFound, Failed}
      ensures out.None? ==> x in s.txns && s.txns[x].RemoveReads? && s.txns[x].row.key == k
      ensures out == Some(NotFound) ==> RemoveSaw(p, Sofar(), x, k, NotFound)
      ensures out == Some(Failed) ==> GaveUp(p, Sofar(), x, env)
      ensures Undisturbed(env) && Idle(old(s)) ==>
        if k !in old(s).db.members then out == Some(NotFound) && s == old(s)
        else out == None && Solo(s, old(s).db, x, RemoveReads(RowAt(old(s).db, k)))
    {
      hide Step, Run, Inv, Valid, Published, EnvOk, Live, Taken, Solo, Saw, GaveUp, Blocked, RemoveSaw, Sofar, Since;
      var ok, before, at := Statement(x, BeginRemove(x, k), env, p);
      BeginRemoveStep(before, x, k);
      EndGone(before, x);
      if !ok { return Some(Failed); }
      ghost var q, met, first := Sofar(), before, at;
      if x !in s.txns {
        SawNoRow(p, q, first, x, k, met);
        return Some(NotFound);
      }
      ok, before, at := Statement(x, LockTarget(x), env, p);
      LockTargetStep(before, x);
      if !ok { return Some(Failed); }
      if x !in s.txns {
        SawLater(p, q, Sofar(), first, BeginRemove(x, k), met);
        SawOtherRow(p, Sofar(), first, at, x, k, met, before);
        return Some(NotFound);
      }
      if s.txns[x].RemoveWaits? {
        GiveUp(x, env, p);
        return Some(Failed);
      }
      return None;
    }

    /** SELECT count(*) FROM (... FOR UPDATE): the owner rows of one snapshot, locked one after the other. */
    method CountOwners(x: TxnId, k: Key, env: Env<Event>, ghost p: Past<Event>) returns (out: Option<Outcome>)
      requires Valid() && EnvOk(env, x) && Since(p, Sofar())
      requires x in s.txns && s.txns[x].RemoveReads? && s.txns[x].row.role == Owner && s.txns[x].row.key == k
      modifies this
      ensures Valid() && (Published(x) <==> old(Published(x))) && Since(p, Sofar())
      ensures out.Some? ==> x !in s.txns && out.value in {LastOwner, Failed}
      ensures out.None? ==> x in s.txns && s.txns[x].RemoveAllowed? && s.txns[x].row.key == k
      ensures out == Some(LastOwner) ==> RemoveSaw(p, Sofar(), x, k, LastOwner)
      ensures out == Some(Failed) ==> GaveUp(p, Sofar(), x, env)
      ensures Undisturbed(env) && Solo(old(s), old(s).db, x, RemoveReads(old(s.txns[x].row))) ==>
        CountAlone(old(s.db), s, x, old(s.txns[x].row), out)
    {
      hide *;
      ghost var r, db := s.txns[x].row, s.db;
      ghost var alone := Undisturbed(env) && Solo(s, db, x, RemoveReads(r));
      var ok, before, at := Statement(x, StartCount(x), env, p);
      StartCountStep(before, x);
      if !ok { return Some(Failed); }
      ghost var start, snapshot := at, before;
      while s.txns[x].todo != {}
        invariant Valid() && (Published(x) <==> old(Published(x))) && Since(p, Sofar())
        invariant x in s.txns && s.txns[x].RemoveCounts? && s.txns[x].row == r
        invariant start < |trace| && Saw(p, Sofar(), start, StartCount(x), snapshot)
        invariant s.txns[x].seen == Owners(snapshot.db, k.tenant)
        invariant alone ==> CountingAlone(s, db, x, r)
        decreases s.txns[x].todo
      {
        var o :| o in s.txns[x].todo;
        ghost var q := Sofar();
        ok, before, at := Statement(x, LockOwner(x, o), env, p);
        LockOwnerStep(before, x, o, db, r);
        SawLater(p, q, Sofar(), start, StartCount(x), snapshot);
        if !ok { return Some(Failed); }
        if o in s.txns[x].todo {
          GiveUp(x, env, p);
          return Some(Failed);
        }
      }
      ghost var q := Sofar();
      ok, before, at := Statement(x, FinishCount(x), env, p);
      FinishCountStep(before, x, db, r);
      if !ok { return Some(Failed); }
      if x !in s.txns {
        SawLater(p, q, Sofar(), start, StartCount(x), snapshot);
        SawAlone(p, Sofar(), start, at, x, k, snapshot, before);
        return Some(LastOwner);
      }
      return None;
    }

    /** DELETE and COMMIT. */
    method DeleteRow(x: TxnId, env: Env<Event>, ghost p: Past<Event>) returns (ok: bool)
      requires Valid() && EnvOk(env, x) && x in s.txns && Since(p, Sofar())
      requires s.txns[x].RemoveAllowed? || (s.txns[x].RemoveReads? && s.txns[x].row.role == Member)
      modifies this
      ensures Valid() && x !in s.txns && (Published(x) <==> ok || old(Published(x)))
      ensures ok ==> old(s.txns[x]).row.key !in s.db.members && HasOwner(s.db, old(s.txns[x]).row.key.tenant)
      ensures ok ==> RemoveWrote(p, Sofar(), x, old(s.txns[x]).row.key, s.db)
      ensures !ok ==> GaveUp(p, Sofar(), x, env)
      ensures var t := old(s.txns[x]);
        Undisturbed(env) && Solo(old(s), old(s.db), x, t) ==> ok && s.db == WithoutMember(old(s.db), t.row.key)
    {
      hide Step, Run, Inv, Valid, Published, EnvOk, Saw, GaveUp, Blocked, Sofar, Since, RemoveWrote;
      ghost var db, t := s.db, s.txns[x];
      ghost var before, at;
      ok, before, at := Statement(x, Delete(x), env, p);
      DeleteStep(before, x);
      if !ok { return; }
      ok, before, at := Statement(x, Commit(x), env, p);
      CommitRemovalStep(before, x);
      if ok {
        SawRemoval(p, Sofar(), at, x, t.row.key, before);
      }
    }

    /** members.go RemoveMember. */
    method RemoveMember(x: TxnId, k: Key, env: Env<Event>) returns (out: Outcome)
      requires Valid() && x !in s.txns && !Published(x) && EnvOk(env, x)
      modifies this
      ensures Valid() && x !in s.txns && (Published(x) <==> out == Done)
      ensures out in {Done, NotFound, LastOwner, Failed}
      ensures out == Done ==> k !in s.db.members && HasOwner(s.db, k.tenant)
      ensures out == Done ==> RemoveWrote(old(Sofar()), Sofar(), x, k, s.db)
      ensures RemoveSaw(old(Sofar()), Sofar(), x, k, out)
      ensures out == Failed ==> GaveUp(old(Sofar()), Sofar(), x, env)
      ensures Undisturbed(env) && Idle(old(s)) ==> RemoveAlone(old(s.db), s.db, k, out)
    {
      hide Step, Run, Inv, Valid, Published, EnvOk, Saw, GaveUp, Blocked, Sofar, LeftAlone, Since, RemoveWrote;
      ghost var db, p := s.db, Sofar();
      SinceSelf(p);
      var bad := SelectRole(x, k, env, p);
      if bad.Some? { return bad.value; }
      if s.txns[x].row.role == Owner {
        bad := CountOwners(x, k, env, p);
        if k in db.members && db.members[k].role == Owner {
          OwnersAlone(db, k);
        }
        if bad.Some? { return bad.value; }
      }
      var ok := DeleteRow(x, env, p);
      out := if ok then Done else Failed;
    }

    /** SELECT ... FROM tenant_invites ... FOR UPDATE. */
    method SelectInvite(x: TxnId, i: InviteId, u: UserId, now: int, env: Env<Event>, ghost p: Past<Event>)
      returns (bad: Option<Outcome>)
      requires Valid() && x !in s.txns && EnvOk(env, x) && Since(p, Sofar())
      modifies this
      ensures Valid() && (Published(x) <==> old(Published(x))) && Since(p, Sofar())
      ensures bad.Some? ==> x !in s.txns && bad.value in {InviteInvalid, Failed}
      ensures bad.None? ==> x in s.txns && s.txns[x] == AcceptHolds(i, u)
      ensures bad == Some(InviteInvalid) ==> AcceptSaw(p, Sofar(), x, i, u, now, InviteInvalid)
      ensures bad == None ==> AcceptSaw(p, Sofar(), x, i, u, now, Done)
      ensures bad == Some(Failed) ==> GaveUp(p, Sofar(), x, env)
      ensures var db := old(s.db); Undisturbed(env) && Idle(old(s)) ==>
        if Spent(db, i, now) then bad == Some(InviteInvalid) && s.db == db
        else bad == None && Solo(s, db, x, AcceptHolds(i, u))
    {
      hide Step, Run, Inv, Valid, Published, EnvOk, Solo, Taken, Saw, GaveUp, Blocked, AcceptSaw, Sofar, Since, Spent;
      var ok, before, at := Statement(x, BeginAccept(x, i, u, now), env, p);
      BeginAcceptStep(before, x, i, u, now);
      if !ok { return Some(Failed); }
      if x !in s.txns {
        SawSpent(p, Sofar(), at, BeginAccept(x, i, u, now), x, i, u, now, before);
        return Some(InviteInvalid);
      }
      ok, before, at := Statement(x, LockInvite(x), env, p);
      LockInviteStep(before, x, old(s.db));
      if !ok { return Some(Failed); }
      if x !in s.txns {
        SawSpent(p, Sofar(), at, LockInvite(x), x, i, u, now, before);
        return Some(InviteInvalid);
      }
      if s.txns[x].AcceptWaits? {
        GiveUp(x, env, p);
        return Some(Failed);
      }
      SawUsable(p, Sofar(), at, x, i, u, now, before);
      return None;
    }

    /** INSERT ... ON CONFLICT DO NOTHING and, when it added a row, UPDATE ... SET uses = uses + 1. */
    method InsertMembership(x: TxnId, env: Env<Event>, ghost db: Db, ghost p: Past<Event>)
      returns (ok: bool, ghost met: State, ghost first: nat)
      requires Valid() && EnvOk(env, x) && x in s.txns && s.txns[x].AcceptHolds? && Since(p, Sofar())
      modifies this
      ensures Valid() && (Published(x) <==> old(Published(x))) && Since(p, Sofar()) && Since(old(Sofar()), Sofar())
      ensures if ok then x in s.txns && Inserts(met.db, old(s.txns[x]), s.txns[x]) else x !in s.txns
      ensures ok ==> first < |trace| && Saw(p, Sofar(), first, InsertMember(x), met)
      ensures !ok ==> GaveUp(p, Sofar(), x, env)
      ensures var t := old(s.txns[x]); Undisturbed(env) && Solo(old(s), db, x, t) ==>
        ok && Solo(s, db, x, InsertedAlone(db, t))
    {
      hide Step, Run, Inv, Valid, Published, EnvOk, Solo, End, Saw, GaveUp, Blocked, KeyBusy, Sofar;
      ghost var before, at, t := s, 0, s.txns[x];
      ok, met, first := Statement(x, InsertMember(x), env, p);
      InsertMemberStep(met, x, db);
      if !ok { return; }
      if s.txns[x].AcceptHolds? {
        GiveUp(x, env, p);
        ok := false;
        return;
      }
      if s.txns[x].AcceptInserted? {
        ghost var q := Sofar();
        ok, before, at := Statement(x, CountUse(x), env, p);
        CountUseStep(before, x, db);
        SawLater(p, q, Sofar(), first, InsertMember(x), met);
      }
    }

    /** members.go AcceptInvite, up to its commit. */
    method AcceptInvite(x: TxnId, i: InviteId, u: UserId, now: int, env: Env<Event>) returns (out: Outcome)
      requires Valid() && x !in s.txns && !Published(x) && EnvOk(env, x)
      modifies this
      ensures Valid() && x !in s.txns && (Published(x) <==> out == Done)
      ensures out in {Done, InviteInvalid, Failed}
      ensures AcceptSaw(old(Sofar()), Sofar(), x, i, u, now, out)
      ensures out == Done ==> AcceptWrote(old(Sofar()), Sofar(), x, i, u, s.db)
      ensures out == Failed ==> GaveUp(old(Sofar()), Sofar(), x, env)
      ensures Undisturbed(env) && Idle(old(s)) ==> AcceptAlone(old(s.db), s.db, i, u, now, out)
    {
      hide *;
      ghost var db, p, alone := s.db, Sofar(), Undisturbed(env) && Idle(s);
      SinceSelf(p);
      var bad := SelectInvite(x, i, u, now, env, p);
      AcceptSawElse(p, Sofar(), x, i, u, now);
      if bad.Some? {
        AloneInvalid(db, i, u, now);
        return bad.value;
      }
      ghost var q, t := Sofar(), s.txns[x];
      var ok;
      ghost var met, first;
      ok, met, first := InsertMembership(x, env, db, p);
      if !ok {
        AcceptSawElse(p, Sofar(), x, i, u, now);
        return Failed;
      }
      ghost var r, before, at := Sofar(), s, 0;
      ok, before, at := Statement(x, Commit(x), env, p);
      InsertsKind(met.db, t, before.txns[x]);
      CommitAcceptStep(before, x, db);
      if ok {
        SinceTwice(q, r, Sofar());
        AcceptSawLater(p, q, Sofar(), x, i, u, now);
        SawLater(p, r, Sofar(), first, InsertMember(x), met);
        SawWrite(p, Sofar(), first, at, x, i, u, met, before, s.db);
        if alone {
          AloneJoined(db, s.db, i, u, now, before.txns[x]);
        }
        return Done;
      }
      AcceptSawElse(p, Sofar(), x, i, u, now);
      return Failed;
    }

    /** SELECT id FROM tenants ... FOR UPDATE. */
    method SelectTenant(x: TxnId, t: TenantId, u: UserId, env: Env<Event>, ghost p: Past<Event>)
      returns (bad: Option<Outcome>)
      requires Valid() && x !in s.txns && EnvOk(env, x) && Since(p, Sofar())
      modifies this
      ensures Valid() && (Published(x) <==> old(Published(x))) && Since(p, Sofar())
      ensures bad.Some? ==> x !in s.txns && bad.value in {NotFound, Failed}
      ensures bad.None? ==> x in s.txns && s.txns[x] == ClaimHolds(t, u)
      ensures bad == Some(NotFound) ==> ClaimSaw(p, Sofar(), x, t, u, NotFound)
      ensures bad == Some(Failed) ==> GaveUp(p, Sofar(), x, env)
      ensures var db := old(s.db); Undisturbed(env) && Idle(old(s)) ==>
        if t !in db.tenants then bad == Some(NotFound) && s.db == db
        else bad == None && Solo(s, db, x, ClaimHolds(t, u))
    {
      hide Step, Run, Inv, Valid, Published, EnvOk, Solo, Saw, GaveUp, Blocked, Sofar, Since;
      var ok, before, at := Statement(x, BeginClaim(x, t, u), env, p);
      BeginClaimStep(before, x, t, u);
      if !ok { return Some(Failed); }
      if x !in s.txns { return Some(NotFound); }
      ok, before, at := Statement(x, LockTenant(x), env, p);
      LockTenantStep(before, x, old(s.db));
      if !ok { return Some(Failed); }
      if s.txns[x].ClaimWaits? {
        GiveUp(x, env, p);
        return Some(Failed);
      }
      return None;
    }

    /** members.go ClaimTenant, up to its commit. */
    method ClaimTenant(x: TxnId, t: TenantId, u: UserId, env: Env<Event>) returns (out: Outcome)
      requires Valid() && x !in s.txns && !Published(x) && EnvOk(env, x)
      modifies this
      ensures Valid() && x !in s.txns && (Published(x) <==> out == Done)
      ensures out in {Done, NotFound, AlreadyClaimed, Failed}
      ensures out == Done ==> Key(t, u) in s.db.members && s.db.members[Key(t, u)].role == Owner
      ensures ClaimSaw(old(Sofar()), Sofar(), x, t, u, out)
      ensures out == Done ==> OwnerWrote(old(Sofar()), Sofar(), x, Key(t, u), s.db)
      ensures out == Failed ==> GaveUp(old(Sofar()), Sofar(), x, env)
      ensures Undisturbed(env) && Idle(old(s)) ==> ClaimAlone(old(s.db), s.db, t, u, out)
    {
      hide *;
      ghost var db, p := s.db, Sofar();
      SinceSelf(p);
      var bad := SelectTenant(x, t, u, env, p);
      if bad.Some? {
        ClaimSawElse(p, Sofar(), x, t, u);
        AloneClaim(db, db, t, u);
        return bad.value;
      }
      var ok, before, at := Statement(x, CheckUnclaimed(x), env, p);
      CheckUnclaimedStep(before, x, db);
      ClaimSawElse(p, Sofar(), x, t, u);
      if !ok { return Failed; }
      if x !in s.txns {
        SawMember(p, Sofar(), at, x, t, u, before);
        AloneClaim(db, db, t, u);
        return AlreadyClaimed;
      }
      ok, before, at := Statement(x, InsertClaimer(x), env, p);
      InsertClaimerStep(before, x, db);
      if !ok {
        ClaimSawElse(p, Sofar(), x, t, u);
        return Failed;
      }
      if s.txns[x].ClaimFree? {
        GiveUp(x, env, p);
        ClaimSawElse(p, Sofar(), x, t, u);
        return Failed;
      }
      ok, before, at := Statement(x, Commit(x), env, p);
      CommitOwnerStep(before, x, db);
      ClaimSawElse(p, Sofar(), x, t, u);
      if !ok { return Failed; }
      SawOwner(p, Sofar(), at, x, Key(t, u), Claimed(t, u), before);
      AloneClaim(db, s.db, t, u);
      return Done;
    }

    /** members.go CreateOwnedTenant; t is the id the database generated. */
    method CreateOwnedTenant(x: TxnId, t: TenantId, u: UserId, env: Env<Event>) returns (out: Outcome)
      requires Valid() && x !in s.txns && !Published(x) && EnvOk(env, x)
      modifies this
      ensures Valid() && x !in s.txns && (Published(x) <==> out == Done)
      ensures out == Done ==> Key(t, u) in s.db.members && s.db.members[Key(t, u)].role == Owner
      ensures out in {Done, Failed}
      ensures out == Failed ==>
        GaveUp(old(Sofar()), Sofar(), x, env) || IdInUse(old(Sofar()), Sofar(), BeginCreate(x, t, u))
      ensures out == Done ==> OwnerWrote(old(Sofar()), Sofar(), x, Key(t, u), s.db)
      ensures Undisturbed(env) && Idle(old(s)) && t !in old(s.db).tenants ==>
        out == Done && s.db == WithOwner(old(s.db), Key(t, u), Founded(t, u))
    {
      hide Step, Run, Inv, Valid, Published, EnvOk, Solo, End, Take, Taken, AddRow, HasMember, WithOwner, WithJoined;
      hide Saw, GaveUp, Blocked, Sofar, Since, IdInUse, TenantPending, OwnerWrote;
      ghost var db, p := s.db, Sofar();
      SinceSelf(p);
      var ok, before, at := Statement(x, BeginCreate(x, t, u), env, p);
      BeginCreateStep(before, x, t, u);
      if !ok { return Failed; }
      if x !in s.txns {
        SinceSelf(Sofar());
        SawInUse(p, Sofar(), Sofar(), at, BeginCreate(x, t, u), before);
        return Failed;
      }
      ok, before, at := Statement(x, InsertFounder(x), env, p);
      InsertFounderStep(before, x, db);
      if !ok { return Failed; }
      ok, before, at := Statement(x, Commit(x), env, p);
      CommitOwnerStep(before, x, db);
      if !ok { return Failed; }
      SawOwner(p, Sofar(), at, x, Key(t, u), Founded(t, u), before);
      return Done;
    }

    /** The API's owner check, then members.go CreateInvite as its own statement. */
    method CreateInvite(x: TxnId, k: Key, i: InviteId, role: Role, maxUses: nat, expires: int, env: Env<Event>)
      returns (out: Outcome)
      requires Valid() && x !in s.txns && EnvOk(env, x)
      modifies this
      ensures Valid() && x !in s.txns
      ensures out == Done ==> i in s.db.invites && s.db.invites[i] == Invite(k.tenant, role, maxUses, 0, expires)
      ensures out == Done ==> HasOwner(s.db, k.tenant)
      ensures out == Failed ==>
        (GaveUp(old(Sofar()), Sofar(), x, env) || maxUses == 0 ||
         IdInUse(old(Sofar()), Sofar(), InsertInvite(x, i, role, maxUses, expires)))
      ensures out in {Done, NotFound, Failed} && InviteSaw(old(Sofar()), Sofar(), x, k, out)
      ensures var db := old(s.db); Undisturbed(env) && Idle(old(s)) && i !in db.invites && maxUses > 0 ==>
        if k in db.members && db.members[k].role == Owner
        then out == Done && s.db == AddInvite(db, i, Invite(k.tenant, role, maxUses, 0, expires))
        else out == NotFound && s.db == db
    {
      hide Step, Run, Inv, Valid, EnvOk, HasOwner, Saw, GaveUp, Blocked, Sofar, Since, IdInUse;
      ghost var p := Sofar();
      SinceSelf(p);
      var ok, before, at := Statement(x, CheckOwner(x, k), env, p);
      CheckOwnerStep(before, x, k);
      if !ok { return Failed; }
      if x !in s.txns { return NotFound; }
      ghost var q, met, first := Sofar(), before, at;
      ok, before, at := Statement(x, InsertInvite(x, i, role, maxUses, expires), env, p);
      InsertInviteStep(before, x, i, role, maxUses, expires);
      if !ok { return Failed; }
      if x in s.txns {
        ghost var r := Sofar();
        Rollback(x);
        if maxUses > 0 {
          SawInUse(p, r, Sofar(), at, InsertInvite(x, i, role, maxUses, expires), before);
        }
        return Failed;
      }
      SawLater(p, q, Sofar(), first, CheckOwner(x, k), met);
      return Done;
    }
  }

  ghost predicate Idle(s: State) {
    s.txns == map[] && s.locks == map[]
  }

  /** Only x is open, over tables db. */
  ghost predicate Solo(s: State, db: Db, x: TxnId, t: Txn) {
    s.db == db && s.txns == map[x := t] && forall l :: l in s.locks ==> s.locks[l] == x
  }

  ghost predicate CountingAlone(s: State, db: Db, x: TxnId, r: Row) {
    && x in s.txns && s.txns[x].RemoveCounts? && s.txns[x].todo <= Owners(db, r.key.tenant)
    && var all, todo := Owners(db, r.key.tenant), s.txns[x].todo;
       Solo(s, db, x, RemoveCounts(r, all, todo, all - todo))
  }

  /** Undisturbed, the count refuses exactly when the tenant has at most one owner. */
  ghost predicate CountAlone(db: Db, s: State, x: TxnId, r: Row, out: Option<Outcome>) {
    if |Owners(db, r.key.tenant)| <= 1 then out == Some(LastOwner) && s.db == db
    else out == None && Solo(s, db, x, RemoveAllowed(r, Owners(db, r.key.tenant)))
  }

  function WithoutMember(db: Db, k: Key): Db {
    db.(members := db.members - {k}, history := db.history + [Removed(k.tenant, k.user)])
  }

  /** What RemoveMember does undisturbed: it refuses exactly the only owner. */
  ghost predicate RemoveAlone(db: Db, after: Db, k: Key, out: Outcome) {
    if k !in db.members then out == NotFound && after == db
    else if Owners(db, k.tenant) == {RowAt(db, k)} then out == LastOwner && after == db
    else out == Done && after == WithoutMember(db, k)
  }

  function WithJoined(db: Db, i: InviteId, k: Key): Db
    requires i in db.invites
  {
    AddRow(db, k, db.invites[i].role).(
      invites := db.invites[i := db.invites[i].(uses := db.invites[i].uses + 1)],
      history := db.history + [Joined(k.tenant, k.user, i)])
  }

  function InsertedAlone(db: Db, t: Txn): Txn
    requires t.AcceptHolds?
  {
    if t.invite !in db.invites then t else
    var v := db.invites[t.invite];
    if Key(v.tenant, t.user) in db.members then AcceptKnown(t.invite)
    else AcceptPaid(t.invite, Key(v.tenant, t.user), v.role, v.uses + 1)
  }

  /** What AcceptInvite does undisturbed: a usable invite adds who is not in the tenant yet, and spends one use. */
  ghost predicate AcceptAlone(db: Db, after: Db, i: InviteId, u: UserId, now: int, out: Outcome) {
    if Spent(db, i, now) then out == InviteInvalid && after == db
    else
      var k := Key(db.invites[i].tenant, u);
      out == Done && after == if k in db.members then db else WithJoined(db, i, k)
  }

  lemma AloneInvalid(db: Db, i: InviteId, u: UserId, now: int)
    ensures Spent(db, i, now) ==> AcceptAlone(db, db, i, u, now, InviteInvalid)
  {
  }

  lemma AloneJoined(db: Db, after: Db, i: InviteId, u: UserId, now: int, t: Txn)
    requires !Spent(db, i, now) && t == InsertedAlone(db, AcceptHolds(i, u))
    requires (t.AcceptKnown? ==> after == db) && (t.AcceptPaid? ==> after == WithJoined(db, i, t.key))
    ensures AcceptAlone(db, after, i, u, now, Done)
  {
  }

  function WithOwner(db: Db, k: Key, f: Fact): Db {
    AddRow(db, k, Owner).(tenants := db.tenants + {k.tenant}, history := db.history + [f])
  }

  /** What ClaimTenant does undisturbed: only a tenant without members can be claimed. */
  ghost predicate ClaimAlone(db: Db, after: Db, t: TenantId, u: UserId, out: Outcome) {
    if t !in db.tenants then out == NotFound && after == db
    else if HasMember(db, t) then out == AlreadyClaimed && after == db
    else out == Done && after == WithOwner(db, Key(t, u), Claimed(t, u))
  }

  lemma AloneClaim(db: Db, after: Db, t: TenantId, u: UserId)
    ensures t !in db.tenants ==> ClaimAlone(db, db, t, u, NotFound)
    ensures t in db.tenants && HasMember(db, t) ==> ClaimAlone(db, db, t, u, AlreadyClaimed)
    ensures t in db.tenants && !HasMember(db, t) && after == WithOwner(db, Key(t, u), Claimed(t, u)) ==>
      ClaimAlone(db, after, t, u, Done)
  {
  }

  lemma OwnersAlone(db: Db, k: Key)
    requires k in db.members && db.members[k].role == Owner
    ensures |Owners(db, k.tenant)| <= 1 <==> Owners(db, k.tenant) == {RowAt(db, k)}
  {
    var r, all := RowAt(db, k), Owners(db, k.tenant);
    assert r in all;
    if |all| <= 1 {
      SubsetSize({r}, all);
      forall c | c in all ensures c == r {
        if c != r {
          SubsetSize({c, r}, all);
        }
      }
    }
  }

  // ---- one step of the machine, as its session sees it ----

  lemma EndGone(s: State, x: TxnId)
    ensures Step(s, Abort(x)) == End(s, x) && x !in End(s, x).txns
  {
  }

  lemma BeginRemoveStep(s: State, x: TxnId, k: Key)
    requires x !in s.txns
    ensures Step(s, BeginRemove(x, k)) == if k in s.db.members then To(s, x, RemoveWaits(RowAt(s.db, k))) else s
    ensures Idle(s) && k in s.db.members ==>
      Live(s.db, RowAt(s.db, k)) && Solo(Step(s, BeginRemove(x, k)), s.db, x, RemoveWaits(RowAt(s.db, k)))
  {
  }

  lemma LockTargetStep(s: State, x: TxnId)
    requires x in s.txns && s.txns[x].RemoveWaits?
    ensures x !in End(s, x).txns
    ensures var r := s.txns[x].row; var z := Step(s, LockTarget(x));
      && z == (if Taken(s, OnRow(r), x) then s
               else if !Live(s.db, r) then End(s, x)
               else To(Take(s, OnRow(r), x), x, RemoveReads(r)))
      && (Taken(s, OnRow(r), x) ==> Blocked(s, LockTarget(x), x))
      && (Solo(s, s.db, x, s.txns[x]) && Live(s.db, r) ==> Solo(z, s.db, x, RemoveReads(r)))
  {
    assert map[x := s.txns[x]][x := RemoveReads(s.txns[x].row)] == map[x := RemoveReads(s.txns[x].row)];
  }

  lemma StartCountStep(s: State, x: TxnId)
    requires x in s.txns && s.txns[x].RemoveReads? && s.txns[x].row.role == Owner
    ensures x !in End(s, x).txns
    ensures var r := s.txns[x].row; var seen := Owners(s.db, r.key.tenant);
      && Step(s, StartCount(x)) == To(s, x, RemoveCounts(r, seen, seen, {}))
      && x in Step(s, StartCount(x)).txns && Step(s, StartCount(x)).txns[x] == RemoveCounts(r, seen, seen, {})
      && (Solo(s, s.db, x, RemoveReads(r)) ==> CountingAlone(Step(s, StartCount(x)), s.db, x, r))
  {
    var r := s.txns[x].row;
    var seen := Owners(s.db, r.key.tenant);
    assert map[x := RemoveReads(r)][x := RemoveCounts(r, seen, seen, {})] == map[x := RemoveCounts(r, seen, seen, {})];
    assert seen - seen == {};
  }

  /** Locking one row of the snapshot waits, drops the row or counts it; alone, it counts it. */
  lemma LockOwnerStep(s: State, x: TxnId, o: Row, db: Db, r: Row)
    requires x in s.txns && s.txns[x].RemoveCounts? && o in s.txns[x].todo
    ensures x !in End(s, x).txns
    ensures var z := Step(s, LockOwner(x, o));
      && x in z.txns && z.txns[x].RemoveCounts? && z.txns[x].row == s.txns[x].row && z.txns[x].seen == s.txns[x].seen
      && ((Blocked(s, LockOwner(x, o), x) && z.txns[x].todo == s.txns[x].todo) ||
          z.txns[x].todo == s.txns[x].todo - {o})
    ensures CountingAlone(s, db, x, r) ==>
      var z := Step(s, LockOwner(x, o)); CountingAlone(z, db, x, r) && o !in z.txns[x].todo
  {
    if CountingAlone(s, db, x, r) {
      var all := Owners(db, r.key.tenant);
      assert Live(db, o);
      assert (all - s.txns[x].todo) + {o} == all - (s.txns[x].todo - {o});
      var todo := s.txns[x].todo - {o};
      assert StepLockOwner(s, x, s.txns[x], o).txns == map[x := RemoveCounts(r, all, todo, all - todo)];
    }
  }

  lemma FinishCountStep(s: State, x: TxnId, db: Db, r: Row)
    requires x in s.txns && s.txns[x].RemoveCounts? && s.txns[x].todo == {}
    ensures x !in End(s, x).txns
    ensures var t := s.txns[x]; var z := Step(s, FinishCount(x));
      && (if |t.counted| <= 1 then x !in z.txns
          else x in z.txns && z.txns[x] == RemoveAllowed(t.row, t.counted))
      && (CountingAlone(s, db, x, r) ==>
           CountAlone(db, z, x, r, if |t.counted| <= 1 then Some(LastOwner) else None))
  {
    if CountingAlone(s, db, x, r) {
      assert Owners(db, r.key.tenant) - {} == Owners(db, r.key.tenant);
    }
  }

  lemma DeleteStep(s: State, x: TxnId)
    requires Inv(s) && x in s.txns
    requires s.txns[x].RemoveAllowed? || (s.txns[x].RemoveReads? && s.txns[x].row.role == Member)
    ensures x !in End(s, x).txns
    ensures var r := s.txns[x].row; var counted := if s.txns[x].RemoveAllowed? then s.txns[x].counted else {};
      Step(s, Delete(x)) == To(s, x, RemoveDeleted(r, counted))
  {
    hide Inv;
    DeleteKeeps(s, x, s.txns[x].row, if s.txns[x].RemoveAllowed? then s.txns[x].counted else {});
  }

  lemma RemovalWrites(s: State, x: TxnId)
    requires x in s.txns && s.txns[x].RemoveDeleted?
    ensures x !in End(s, x).txns && x !in Step(s, Commit(x)).txns
    ensures Step(s, Commit(x)).db == WithoutMember(s.db, s.txns[x].row.key) == Effect(s.db, s.txns[x])
  {
  }

  lemma CommitRemovalStep(s: State, x: TxnId)
    requires Inv(s) && x in s.txns && s.txns[x].RemoveDeleted?
    ensures x !in End(s, x).txns
    ensures var k := s.txns[x].row.key; var z := Step(s, Commit(x));
      x !in z.txns && z.db == WithoutMember(s.db, k) && HasOwner(z.db, k.tenant) && k in s.db.members
  {
    hide Inv, LocksOk, Distinct, Needs, Step, Effect, WithoutMember, End;
    RemovalWrites(s, x);
    Opened(s, x);
    CommitKeeps(s, x);
  }

  lemma SoloMoves(s: State, db: Db, x: TxnId, t: Txn, u: Txn, l: Lock)
    requires Solo(s, db, x, t)
    ensures Solo(To(s, x, u), db, x, u) && Solo(To(Take(s, l, x), x, u), db, x, u)
    ensures !Taken(s, l, x) && forall k :: !KeyBusy(s, x, k)
  {
    assert map[x := t][x := u] == map[x := u];
  }

  lemma BeginAcceptStep(s: State, x: TxnId, i: InviteId, u: UserId, now: int)
    requires x !in s.txns
    ensures x !in End(s, x).txns
    ensures var z := Step(s, BeginAccept(x, i, u, now));
      if Spent(s.db, i, now) then z == s
      else z == To(s, x, AcceptWaits(i, u, now)) && (Idle(s) ==> Solo(z, s.db, x, AcceptWaits(i, u, now)))
  {
  }

  lemma LockInviteStep(s: State, x: TxnId, db: Db)
    requires x in s.txns && s.txns[x].AcceptWaits?
    ensures x !in End(s, x).txns
    ensures var t := s.txns[x]; var z := Step(s, LockInvite(x));
      if Taken(s, OnInvite(t.invite), x) then z == s && Blocked(s, LockInvite(x), x)
      else if Spent(s.db, t.invite, t.now) then z == End(s, x)
      else z == To(Take(s, OnInvite(t.invite), x), x, AcceptHolds(t.invite, t.user))
    ensures var t := s.txns[x];
      Solo(s, db, x, t) && !Spent(db, t.invite, t.now) ==>
      Solo(Step(s, LockInvite(x)), db, x, AcceptHolds(t.invite, t.user))
  {
    if Solo(s, db, x, s.txns[x]) {
      SoloMoves(s, db, x, s.txns[x], AcceptHolds(s.txns[x].invite, s.txns[x].user), OnInvite(s.txns[x].invite));
    }
  }

  lemma InsertMemberStep(s: State, x: TxnId, db: Db)
    requires Inv(s) && x in s.txns && s.txns[x].AcceptHolds?
    ensures x !in End(s, x).txns
    ensures var t := s.txns[x]; t.invite in s.db.invites
    ensures var t := s.txns[x]; var z := Step(s, InsertMember(x)); var k := Key(s.db.invites[t.invite].tenant, t.user);
      && (if KeyBusy(s, x, k) then z == s && Blocked(s, InsertMember(x), x)
          else if k in s.db.members then z == To(s, x, AcceptKnown(t.invite))
          else z == To(s, x, AcceptInserted(t.invite, k, s.db.invites[t.invite].role)))
      && (Solo(s, db, x, t) ==>
          s.db == db && Solo(z, db, x, z.txns[x]) &&
          z.txns[x] == if k in db.members then AcceptKnown(t.invite)
                       else AcceptInserted(t.invite, k, db.invites[t.invite].role))
  {
    hide Inv, DbOk, LocksOk, Distinct, Needs;
    Opened(s, x);
    var t := s.txns[x];
    var k := Key(s.db.invites[t.invite].tenant, t.user);
    if Solo(s, db, x, t) {
      SoloMoves(s, db, x, t, if k in db.members then AcceptKnown(t.invite)
                             else AcceptInserted(t.invite, k, db.invites[t.invite].role), OnInvite(t.invite));
    }
  }

  lemma CountUseStep(s: State, x: TxnId, db: Db)
    requires Inv(s) && x in s.txns && s.txns[x].AcceptInserted?
    ensures x !in End(s, x).txns
    ensures var t := s.txns[x]; t.invite in s.db.invites
    ensures var t := s.txns[x]; var u := AcceptPaid(t.invite, t.key, t.role, s.db.invites[t.invite].uses + 1);
      && Step(s, CountUse(x)) == To(s, x, u)
      && (Solo(s, db, x, t) ==> s.db == db && Solo(To(s, x, u), db, x, u))
  {
    Opened(s, x);
    hide Inv;
    var t := s.txns[x];
    if Solo(s, db, x, t) {
      SoloMoves(s, db, x, t, AcceptPaid(t.invite, t.key, t.role, s.db.invites[t.invite].uses + 1), OnInvite(t.invite));
    }
  }

  lemma CommitAcceptStep(s: State, x: TxnId, db: Db)
    requires Inv(s) && x in s.txns && (s.txns[x].AcceptPaid? || s.txns[x].AcceptKnown?)
    ensures x !in End(s, x).txns
    ensures var t := s.txns[x]; var z := Step(s, Commit(x));
      && x !in z.txns
      && (t.AcceptKnown? ==> z.db == s.db)
      && t.invite in s.db.invites
      && (t.AcceptPaid? ==> z.db == WithJoined(s.db, t.invite, t.key))
      && (t.AcceptPaid? ==> t.key !in s.db.members && t.role == s.db.invites[t.invite].role)
      && (forall u :: Solo(s, db, x, u) ==> s.db == db && t == u)
  {
    hide Inv, LocksOk, Distinct, Needs, DbOk;
    Opened(s, x);
  }

  lemma BeginClaimStep(s: State, x: TxnId, t: TenantId, u: UserId)
    requires x !in s.txns
    ensures x !in End(s, x).txns
    ensures var z := Step(s, BeginClaim(x, t, u));
      if t !in s.db.tenants then z == s
      else z == To(s, x, ClaimWaits(t, u)) && (Idle(s) ==> Solo(z, s.db, x, ClaimWaits(t, u)))
  {
  }

  lemma LockTenantStep(s: State, x: TxnId, db: Db)
    requires x in s.txns && s.txns[x].ClaimWaits?
    ensures x !in End(s, x).txns
    ensures var t := s.txns[x]; var z := Step(s, LockTenant(x));
      && (if Blocked(s, LockTenant(x), x) then z == s
          else z == To(Take(s, OnTenant(t.tenant), x), x, ClaimHolds(t.tenant, t.user)))
      && (Solo(s, db, x, t) ==> Solo(z, db, x, ClaimHolds(t.tenant, t.user)))
  {
    if Solo(s, db, x, s.txns[x]) {
      SoloMoves(s, db, x, s.txns[x], ClaimHolds(s.txns[x].tenant, s.txns[x].user), OnTenant(s.txns[x].tenant));
    }
  }

  lemma CheckUnclaimedStep(s: State, x: TxnId, db: Db)
    requires x in s.txns && s.txns[x].ClaimHolds?
    ensures x !in End(s, x).txns
    ensures var t := s.txns[x]; var z := Step(s, CheckUnclaimed(x)); var u := ClaimFree(t.tenant, t.user);
      if HasMember(s.db, t.tenant) then z == End(s, x) && z.db == s.db && (Solo(s, db, x, t) ==> s.db == db)
      else z == To(s, x, u) && x in z.txns && z.txns[x] == u && (Solo(s, db, x, t) ==> s.db == db && Solo(z, db, x, u))
  {
    if Solo(s, db, x, s.txns[x]) {
      SoloMoves(s, db, x, s.txns[x], ClaimFree(s.txns[x].tenant, s.txns[x].user), OnTenant(s.txns[x].tenant));
    }
  }

  lemma InsertClaimerStep(s: State, x: TxnId, db: Db)
    requires Inv(s) && x in s.txns && s.txns[x].ClaimFree?
    ensures x !in End(s, x).txns
    ensures var t := s.txns[x]; var z := Step(s, InsertClaimer(x)); var u := ClaimInserted(Key(t.tenant, t.user));
      && (if Blocked(s, InsertClaimer(x), x) then z == s else z == To(s, x, u) && x in z.txns && z.txns[x] == u)
      && (Solo(s, db, x, t) ==> Solo(z, db, x, u) && !Blocked(s, InsertClaimer(x), x))
  {
    hide Inv, LocksOk, Distinct, Needs, DbOk;
    Opened(s, x);
    var t := s.txns[x];
    if Solo(s, db, x, t) {
      SoloMoves(s, db, x, t, ClaimInserted(Key(t.tenant, t.user)), OnTenant(t.tenant));
    }
  }

  lemma BeginCreateStep(s: State, x: TxnId, t: TenantId, u: UserId)
    requires x !in s.txns
    ensures x !in End(s, x).txns
    ensures var z := Step(s, BeginCreate(x, t, u));
      && (if t in s.db.tenants || TenantPending(s, t) then z == s else z == To(s, x, CreateInserted(t, u)))
      && (Idle(s) && t !in s.db.tenants ==> Solo(z, s.db, x, CreateInserted(t, u)))
  {
  }

  lemma InsertFounderStep(s: State, x: TxnId, db: Db)
    requires x in s.txns && s.txns[x].CreateInserted?
    ensures x !in End(s, x).txns
    ensures var t := s.txns[x]; var u := CreateOwned(Key(t.tenant, t.user));
      && Step(s, InsertFounder(x)) == To(s, x, u)
      && (Solo(s, db, x, t) ==> Solo(To(s, x, u), db, x, u))
  {
    if Solo(s, db, x, s.txns[x]) {
      SoloMoves(s, db, x, s.txns[x], CreateOwned(Key(s.txns[x].tenant, s.txns[x].user)), OnTenant(s.txns[x].tenant));
    }
  }

  lemma NewTenantIsEmpty(db: Db, t: TenantId)
    requires DbOk(db) && t !in db.tenants
    ensures !HasMember(db, t)
  {
    hide HasOwner, InviteOk;
  }

  lemma CommitOwnerStep(s: State, x: TxnId, db: Db)
    requires Inv(s) && x in s.txns && (s.txns[x].ClaimInserted? || s.txns[x].CreateOwned?)
    ensures x !in End(s, x).txns
    ensures var t := s.txns[x]; var k := t.key; var z := Step(s, Commit(x));
      && x !in z.txns && k in z.db.members && z.db.members[k].role == Owner
      && !HasMember(s.db, k.tenant)
      && z.db == WithOwner(s.db, k, if t.ClaimInserted? then Claimed(k.tenant, k.user) else Founded(k.tenant, k.user))
      && (Solo(s, db, x, t) ==> s.db == db)
  {
    hide Inv, DbOk, LocksOk, Distinct, Needs, HasOwner, HasMember, InviteOk;
    Opened(s, x);
    var k := s.txns[x].key;
    if s.txns[x].ClaimInserted? {
      assert s.db.tenants + {k.tenant} == s.db.tenants;
    } else {
      NewTenantIsEmpty(s.db, k.tenant);
    }
  }

  lemma CheckOwnerStep(s: State, x: TxnId, k: Key)
    requires x !in s.txns
    ensures x !in End(s, x).txns
    ensures var z := Step(s, CheckOwner(x, k));
      if k in s.db.members && s.db.members[k].role == Owner then z == To(s, x, InviteGate(k.tenant)) else z == s
  {
  }

  lemma InsertInviteStep(s: State, x: TxnId, i: InviteId, role: Role, maxUses: nat, expires: int)
    requires Inv(s) && x in s.txns && s.txns[x].InviteGate?
    ensures x !in End(s, x).txns
    ensures var v := Invite(s.txns[x].tenant, role, maxUses, 0, expires);
      var z := Step(s, InsertInvite(x, i, role, maxUses, expires));
      if i in s.db.invites || maxUses == 0 then z == s
      else z == End(s.(db := AddInvite(s.db, i, v)), x) && HasOwner(z.db, v.tenant)
  {
    hide Inv, HasOwner;
    GateOpen(s, x);
    SameMembers(s.db, AddInvite(s.db, i, Invite(s.txns[x].tenant, role, maxUses, 0, expires)));
  }
}
