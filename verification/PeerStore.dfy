/** RegisterPeer as a program: one session's statements in order, with the other sessions running in between. */
module PeerStore {
  import opened Base
  import opened Netip
  import opened AddressPool
  import opened Enrollment
  import opened Session

  datatype Outcome = Registered(peer: Peer) | TokenInvalid | PoolExhausted | Conflict | Failed

  predicate Foreign(e: Event, x: TxnId) {
    e.CreateTenant? || e.CreateToken? || e.RevokeToken? || e.x != x
  }

  ghost predicate EnvOk(env: Env<Event>, x: TxnId) {
    forall i: nat, j :: 0 <= j < |env.others(i)| ==> Foreign(env.others(i)[j], x)
  }

  lemma ForeignStep(s: State, e: Event, x: TxnId)
    requires Foreign(e, x)
    ensures x in Step(s, e).txns <==> x in s.txns
    ensures x in s.txns ==> Step(s, e).txns[x] == s.txns[x]
  {
  }

  lemma {:induction false} ForeignRun(s: State, es: seq<Event>, x: TxnId)
    requires forall j :: 0 <= j < |es| ==> Foreign(es[j], x)
    ensures x in Run(s, es).txns <==> x in s.txns
    ensures x in s.txns ==> Run(s, es).txns[x] == s.txns[x]
    decreases |es|
  {
    hide Step;
    if es != [] {
      ForeignStep(s, es[0], x);
      ForeignRun(Step(s, es[0]), es[1..], x);
    }
  }

  /** SELECT mesh_ip FROM peers WHERE tenant_id = $1. */
  function MeshIPs(peers: seq<Peer>, t: TenantId): seq<Addr> {
    if peers == [] then []
    else
      (if peers[0].tenant == t then [peers[0].ip] else []) + MeshIPs(peers[1..], t)
  }

  lemma {:induction false} MeshIPsSet(peers: seq<Peer>, t: TenantId)
    ensures (set a | a in MeshIPs(peers, t)) == Enrollment.UsedAddrs(peers, t)
  {
    if peers != [] {
      MeshIPsSet(peers[1..], t);
      assert peers == [peers[0]] + peers[1..];
      assert Enrollment.UsedAddrs(peers, t) ==
        (if peers[0].tenant == t then {peers[0].ip} else {}) + Enrollment.UsedAddrs(peers[1..], t);
    }
  }

  // ---- what x's own statements saw ----

  /** Between p and q the i-th event was e, and it met state s. */
  ghost predicate Saw(p: Past<Event>, q: Past<Event>, i: nat, e: Event, s: State) {
    |p.trace| <= i < |q.trace| && q.trace[i] == e && s == Run(Init(), q.trace[..i])
  }

  /** Another transaction has inserted the address or the key of peer r for its tenant and not committed yet. */
  ghost predicate InsertedByAnother(s: State, r: Peer, x: TxnId) {
    exists y :: y in s.txns && y != x && (s.txns[y].Inserted? || s.txns[y].Paid?) &&
      s.txns[y].peer.tenant == r.tenant && (s.txns[y].peer.ip == r.ip || s.txns[y].peer.key == r.key)
  }

  /** The token's lock, or the address or key, is in another transaction's hands when x issues e. */
  ghost predicate Blocked(s: State, e: Event, x: TxnId) {
    x in s.txns &&
    match (s.txns[x], e)
    case (Waiting(k, _, _, _), LockToken(y)) => y == x && k in s.locks
    case (Chosen(r), Insert(y)) => y == x && InsertedByAnother(s, r, x)
    case _ => false
  }

  /** Between p and q a statement errored, or found its lock, address or key still held. */
  ghost predicate GaveUp(p: Past<Event>, q: Past<Event>, x: TxnId, env: Env<Event>) {
    Errored(p, q, env) || exists i, e, s :: Saw(p, q, i, e, s) && Blocked(s, e, x)
  }

  /** The committed row of the tenant has the address or the key of peer r. */
  ghost predicate Clashes(db: Db, r: Peer) {
    exists q :: q in db.peers && q.tenant == r.tenant && (q.ip == r.ip || q.key == r.key)
  }

  ghost predicate AddrHeld(db: Db, t: TenantId, a: Addr) {
    exists q :: q in db.peers && q.tenant == t && q.ip == a
  }

  /** Every address the token's tenant may hand out is some committed peer's. */
  ghost predicate PoolFull(db: Db, k: TokenId) {
    && k in db.tokens && db.tokens[k].tenant in db.tenants
    && forall a: Addr :: Allocatable(db.tenants[db.tokens[k].tenant], a) ==> AddrHeld(db, db.tokens[k].tenant, a)
  }

  /** ErrTokenInvalid: the token was missing, revoked, expired or used up, at first sight or once its lock was free.
      ErrPoolExhausted: every address was held. ErrConflict: the address or the key was taken.
      Registered: none of the first when the lock was granted. */
  ghost predicate RegisterSaw(p: Past<Event>, q: Past<Event>, x: TxnId, k: TokenId, name: string, key: string,
                              now: int, out: Outcome) {
    match out
    case TokenInvalid =>
      exists i, e, s :: Saw(p, q, i, e, s) && Unusable(s.db, k, now) &&
        (e == Begin(x, k, name, key, now) || (e == LockToken(x) && k !in s.locks))
    case PoolExhausted => exists i, s :: Saw(p, q, i, Choose(x), s) && PoolFull(s.db, k)
    case Conflict =>
      exists i, s, r: Peer :: Saw(p, q, i, Insert(x), s) && Clashes(s.db, r)
        && r.name == name && r.key == key && r.token == k
    case Registered(_) =>
      exists i, s :: Saw(p, q, i, LockToken(x), s) && k !in s.locks && k in s.db.tokens
        && !s.db.tokens[k].revoked && s.db.tokens[k].expires > now && s.db.tokens[k].uses < s.db.tokens[k].maxUses
    case Failed => true
  }

  /** The commit adds peer r and one use of its token to the tables it meets, where neither r's address nor its key
      is taken. */
  ghost predicate RegisterWrote(p: Past<Event>, q: Past<Event>, x: TxnId, r: Peer, after: Db) {
    exists i, s :: Saw(p, q, i, Commit(x), s) && r.token in s.db.tokens && !Clashes(s.db, r)
      && after.tenants == s.db.tenants && after.peers == s.db.peers + [r]
      && after.tokens == s.db.tokens[r.token := s.db.tokens[r.token].(uses := s.db.tokens[r.token].uses + 1)]
  }

  lemma SawLater(p: Past<Event>, q: Past<Event>, r: Past<Event>, i: nat, e: Event, s: State)
    requires Since(q, r) && Saw(p, q, i, e, s)
    ensures Saw(p, r, i, e, s)
  {
    assert r.trace[..i] == q.trace[..i];
  }

  lemma GaveUpLater(p: Past<Event>, q: Past<Event>, r: Past<Event>, x: TxnId, env: Env<Event>)
    requires Since(q, r) && GaveUp(p, q, x, env)
    ensures GaveUp(p, r, x, env)
  {
    hide Blocked, Saw, Run;
    if !Errored(p, q, env) {
      var i, e, s :| Saw(p, q, i, e, s) && Blocked(s, e, x);
      SawLater(p, q, r, i, e, s);
    }
  }

  lemma SawUnusable(p: Past<Event>, q: Past<Event>, i: nat, e: Event, x: TxnId, k: TokenId, name: string, key: string,
                    now: int, s: State)
    requires Saw(p, q, i, e, s) && Unusable(s.db, k, now)
    requires e == Begin(x, k, name, key, now) || (e == LockToken(x) && k !in s.locks)
    ensures RegisterSaw(p, q, x, k, name, key, now, TokenInvalid)
  {
    hide Saw, Run, Unusable;
  }

  lemma SawUsable(p: Past<Event>, q: Past<Event>, i: nat, x: TxnId, k: TokenId, name: string, key: string, now: int,
                  s: State, r: Peer)
    requires Saw(p, q, i, LockToken(x), s) && !Unusable(s.db, k, now) && k !in s.locks
    ensures RegisterSaw(p, q, x, k, name, key, now, Registered(r))
  {
    hide Saw, Run;
  }

  lemma SawFull(p: Past<Event>, q: Past<Event>, i: nat, x: TxnId, k: TokenId, name: string, key: string, now: int,
                s: State)
    requires Saw(p, q, i, Choose(x), s) && PoolFull(s.db, k)
    ensures RegisterSaw(p, q, x, k, name, key, now, PoolExhausted)
  {
    hide Saw, Run, PoolFull;
  }

  lemma SawClash(p: Past<Event>, q: Past<Event>, i: nat, x: TxnId, now: int, s: State, r: Peer)
    requires Saw(p, q, i, Insert(x), s) && Clashes(s.db, r)
    ensures RegisterSaw(p, q, x, r.token, r.name, r.key, now, Conflict)
  {
    hide Saw, Run, Clashes;
  }

  lemma SawElse(p: Past<Event>, q: Past<Event>, x: TxnId, k: TokenId, name: string, key: string, now: int)
    ensures RegisterSaw(p, q, x, k, name, key, now, Failed)
  {
  }

  lemma SawCommit(p: Past<Event>, q: Past<Event>, i: nat, x: TxnId, s: State, r: Peer, after: Db)
    requires Saw(p, q, i, Commit(x), s) && r.token in s.db.tokens && !Clashes(s.db, r)
    requires after == Enrol(s.db, r, s.db.tokens[r.token].uses + 1)
    ensures RegisterWrote(p, q, x, r, after)
  {
    hide Saw, Run, Clashes;
  }

  class Store {
    var s: State
    /** How many statements were issued here. */
    var turn: nat
    /** Every event so far, everyone's. */
    ghost var trace: seq<Event>

    ghost predicate Valid()
      reads this
    {
      s == Run(Init(), trace) && Inv(s)
    }

    ghost predicate Published(x: TxnId)
      reads this
    {
      Commit(x) in trace
    }

    ghost function Sofar(): Past<Event>
      reads `trace, `turn
    {
      Past(trace, turn)
    }

    lemma ValidInv()
      requires Valid()
      ensures Inv(s)
    {
    }

    constructor ()
      ensures Valid() && s == Init()
    {
      s, turn, trace := Init(), 0, [];
    }

    method Exec(e: Event)
      requires Valid()
      modifies `s, `trace
      ensures Valid() && s == Step(old(s), e) && trace == old(trace) + [e]
      ensures forall y :: Published(y) <==> old(Published(y)) || e == Commit(y)
    {
      StepKeeps(s, e);
      s := Step(s, e);
      trace := trace + [e];
      RunAppend(Init(), old(trace), [e]);
      assert Run(old(s), [e]) == Run(Step(old(s), e), [e][1..]);
    }

    method ExecAll(es: seq<Event>)
      requires Valid()
      modifies `s, `trace
      ensures Valid() && s == Run(old(s), es) && trace == old(trace) + es
    {
      RunKeeps(s, es);
      s := Run(s, es);
      trace := trace + es;
      RunAppend(Init(), old(trace), es);
    }

    method Rollback(x: TxnId)
      requires Valid()
      modifies `s, `trace
      ensures Valid() && x !in s.txns && s.db == old(s.db)
      ensures Since(old(Sofar()), Sofar()) && (Published(x) <==> old(Published(x)))
    {
      hide Run, Inv;
      Exec(Abort(x));
    }

    /** A lock, address or key that never comes free ends in the deferred rollback. */
    method GiveUp(x: TxnId, env: Env<Event>, ghost p: Past<Event>)
      requires Valid() && Since(p, Sofar()) && GaveUp(p, Sofar(), x, env)
      modifies `s, `trace
      ensures Valid() && x !in s.txns && (Published(x) <==> old(Published(x)))
      ensures Since(p, Sofar()) && Since(old(Sofar()), Sofar()) && GaveUp(p, Sofar(), x, env)
    {
      hide *;
      ghost var q := Sofar();
      Rollback(x);
      SinceTwice(p, q, Sofar());
      GaveUpLater(p, q, Sofar(), x, env);
    }

    /** The others run up to our next statement. */
    method Others(x: TxnId, env: Env<Event>)
      requires Valid() && EnvOk(env, x)
      modifies `s, `trace
      ensures Valid() && s == Run(old(s), env.others(turn)) && (env.others(turn) == [] ==> s == old(s))
      ensures (x in s.txns <==> x in old(s).txns) && (x in s.txns ==> s.txns[x] == old(s).txns[x])
      ensures Since(old(Sofar()), Sofar()) && (Published(x) <==> old(Published(x)))
    {
      assert forall e :: e in env.others(turn) ==> e != Commit(x);
      ForeignRun(s, env.others(turn), x);
      hide Step, Inv, Valid;
      ExecAll(env.others(turn));
    }

    /** The others run up to our next statement, and that may error: then we are rolled back.
        Ghost p is where the operation it belongs to began. */
    method Before(x: TxnId, env: Env<Event>, ghost p: Past<Event>) returns (ok: bool)
      requires Valid() && EnvOk(env, x) && Since(p, Sofar())
      modifies this
      ensures Valid() && ok == !env.fails(old(turn)) && (Undisturbed(env) ==> ok && s == old(s))
      ensures if ok then s == Run(old(s), env.others(old(turn))) else x !in s.txns && GaveUp(p, Sofar(), x, env)
      ensures ok ==> (x in s.txns <==> x in old(s).txns) && (x in old(s).txns ==> s.txns[x] == old(s).txns[x])
      ensures Since(p, Sofar()) && Since(old(Sofar()), Sofar()) && (Published(x) <==> old(Published(x)))
    {
      ghost var start := Sofar();
      Others(x, env);
      ok := !env.fails(turn);
      turn := turn + 1;
      ghost var q := Sofar();
      assert Since(start, q) && q.turn == start.turn + 1;
      hide *;
      if !ok {
        Rollback(x);
      }
      BeforePast(p, start, q, Sofar(), x, env, ok);
    }

    /** A statement that the database carries out. */
    method Issue(x: TxnId, e: Event, env: Env<Event>, ghost p: Past<Event>) returns (ghost at: nat)
      requires Valid() && !e.CreateTenant? && !e.CreateToken? && !e.RevokeToken? && e.x == x && Since(p, Sofar())
      modifies `s, `trace
      ensures Valid() && s == Step(old(s), e) && (Published(x) <==> old(Published(x)) || e == Commit(x))
      ensures Since(p, Sofar()) && Since(old(Sofar()), Sofar()) && Saw(p, Sofar(), at, e, old(s))
      ensures Blocked(old(s), e, x) ==> GaveUp(p, Sofar(), x, env)
    {
      hide Step, Run, Inv, Blocked;
      at := |trace|;
      Exec(e);
      assert trace[..at] == old(trace);
    }

    /** store.go usedAddrs: the set the rows fill. */
    method UsedAddrs(rows: seq<Addr>) returns (used: set<Addr>)
      ensures used == set a | a in rows
    {
      used := {};
      for i := 0 to |rows|
        invariant used == set a | a in rows[..i]
      {
        used := used + {rows[i]};
        assert rows[..i + 1] == rows[..i] + [rows[i]];
      }
      assert rows[..|rows|] == rows;
    }

    /** SELECT ... FROM enrollment_tokens ... FOR UPDATE. */
    method SelectToken(x: TxnId, k: TokenId, name: string, key: string, now: int, env: Env<Event>, ghost p: Past<Event>)
      returns (bad: Option<Outcome>, ghost at: nat, ghost met: State)
      requires Valid() && x !in s.txns && EnvOk(env, x) && Since(p, Sofar())
      modifies this
      ensures Valid() && (Published(x) <==> old(Published(x))) && Since(p, Sofar())
      ensures bad.Some? ==> x !in s.txns && bad.value in {TokenInvalid, Failed}
      ensures bad == Some(TokenInvalid) ==> RegisterSaw(p, Sofar(), x, k, name, key, now, TokenInvalid)
      ensures bad == Some(Failed) ==> GaveUp(p, Sofar(), x, env)
      ensures bad.None? ==> x in s.txns && s.txns[x] == Locked(k, name, key)
      ensures bad.None? ==>
        Saw(p, Sofar(), at, LockToken(x), met) && !Unusable(met.db, k, now) && k !in met.locks
      ensures Undisturbed(env) && old(s) == Idle(old(s.db)) ==>
        AfterSelect(old(s.db), s, x, Locked(k, name, key), now, bad)
    {
      hide *;
      ghost var db := s.db;
      SelectSteps(db, x, k, name, key, now);
      var ok := Before(x, env, p);
      if !ok { return Some(Failed), 0, s; }
      met := s;
      BeginStep(s, x, k, name, key, now);
      at := Issue(x, Begin(x, k, name, key, now), env, p);
      if x !in s.txns {
        SawUnusable(p, Sofar(), at, Begin(x, k, name, key, now), x, k, name, key, now, met);
        SelectAlone(db, s, x, Locked(k, name, key), now);
        return Some(TokenInvalid), at, met;
      }
      ok := Before(x, env, p);
      if !ok { return Some(Failed), 0, s; }
      met := s;
      LockTokenStep(s, x);
      at := Issue(x, LockToken(x), env, p);
      if x !in s.txns {
        SawUnusable(p, Sofar(), at, LockToken(x), x, k, name, key, now, met);
        SelectAlone(db, s, x, Locked(k, name, key), now);
        return Some(TokenInvalid), at, met;
      }
      SelectAlone(db, s, x, Locked(k, name, key), now);
      if s.txns[x].Waiting? {
        GiveUp(x, env, p);
        return Some(Failed), at, met;
      }
      return None, at, met;
    }

    /** The address, from the rows one statement sees: the loops and the step of the machine agree. */
    method ChooseAddr(x: TxnId, env: Env<Event>, ghost db: Db, now: int, ghost p: Past<Event>)
      returns (bad: Option<Outcome>)
      requires Valid() && EnvOk(env, x) && x in s.txns && s.txns[x].Locked? && Since(p, Sofar())
      modifies this
      ensures Valid() && (Published(x) <==> old(Published(x))) && Since(p, Sofar()) && Since(old(Sofar()), Sofar())
      ensures bad.Some? ==> x !in s.txns && bad.value in {PoolExhausted, Failed}
      ensures var t := old(s.txns[x]);
        bad == Some(PoolExhausted) ==> RegisterSaw(p, Sofar(), x, t.token, t.name, t.key, now, PoolExhausted)
      ensures bad == Some(Failed) ==> GaveUp(p, Sofar(), x, env)
      ensures bad.None? ==> x in s.txns && s.txns[x].Chosen? && Asks(old(s.txns[x]), s.txns[x].peer)
      ensures var t := old(s.txns[x]); Undisturbed(env) && old(s) == Only(db, t.token, x, t) && DbOk(db) ==>
        AfterChoose(db, s, x, t, bad)
    {
      hide *;
      ghost var t, start := s.txns[x], Sofar();
      var ok := Before(x, env, p);
      if !ok { return Some(Failed); }
      ghost var met, q := s, Sofar();
      ValidInv();
      LockedKnown(s, x);
      var tenant := s.db.tokens[s.txns[x].token].tenant;
      MeshIPsSet(s.db.peers, tenant);
      var used := UsedAddrs(MeshIPs(s.db.peers, tenant));
      var ip := NextFreeAddr(s.db.tenants[tenant], used);
      ChooseStep(s, x, ip, db);
      ghost var at := Issue(x, Choose(x), env, p);
      SinceTwice(start, q, Sofar());
      ChooseAlone(db, s, x, t);
      if ip.None? {
        NothingFree(met.db, t.token);
        SawFull(p, Sofar(), at, x, t.token, t.name, t.key, now, met);
        return Some(PoolExhausted);
      }
      return None;
    }

    /** INSERT INTO peers. */
    method InsertRow(x: TxnId, env: Env<Event>, ghost db: Db, now: int, ghost p: Past<Event>)
      returns (bad: Option<Outcome>)
      requires Valid() && EnvOk(env, x) && x in s.txns && s.txns[x].Chosen? && Since(p, Sofar())
      modifies this
      ensures Valid() && (Published(x) <==> old(Published(x))) && Since(p, Sofar()) && Since(old(Sofar()), Sofar())
      ensures bad.Some? ==> x !in s.txns && bad.value in {Conflict, Failed}
      ensures bad.None? ==> x in s.txns && s.txns[x] == Inserted(old(s.txns[x]).peer)
      ensures var r := old(s.txns[x]).peer;
        bad == Some(Conflict) ==> RegisterSaw(p, Sofar(), x, r.token, r.name, r.key, now, Conflict)
      ensures bad == Some(Failed) ==> GaveUp(p, Sofar(), x, env)
      ensures var r := old(s.txns[x]).peer;
        Undisturbed(env) && old(s) == Only(db, r.token, x, Chosen(r)) && DbOk(db) ==>
        if StillNext(db, r) then bad == None && s == Only(db, r.token, x, Inserted(r))
        else bad == Some(Conflict) && s == Idle(db)
    {
      hide *;
      ghost var start := Sofar();
      var ok := Before(x, env, p);
      if !ok { return Some(Failed); }
      ghost var met, q := s, Sofar();
      ValidInv();
      InsertStep(s, x, db);
      ghost var at := Issue(x, Insert(x), env, p);
      SinceTwice(start, q, Sofar());
      if x !in s.txns {
        SawClash(p, Sofar(), at, x, now, met, met.txns[x].peer);
        return Some(Conflict);
      }
      if s.txns[x].Chosen? {
        q := Sofar();
        GiveUp(x, env, p);
        SinceTwice(start, q, Sofar());
        return Some(Failed);
      }
      return None;
    }

    /** UPDATE enrollment_tokens SET uses = uses + 1, and COMMIT. */
    method PayAndCommit(x: TxnId, env: Env<Event>, ghost db: Db, ghost p: Past<Event>) returns (ok: bool)
      requires Valid() && EnvOk(env, x) && x in s.txns && s.txns[x].Inserted? && Since(p, Sofar())
      modifies this
      ensures Valid() && x !in s.txns && (Published(x) <==> ok || old(Published(x))) && Since(old(Sofar()), Sofar())
      ensures var r := old(s.txns[x]).peer; ok ==> LastPeer(s.db, r) && RegisterWrote(p, Sofar(), x, r, s.db)
      ensures !ok ==> GaveUp(p, Sofar(), x, env)
      ensures var r := old(s.txns[x]).peer;
        Undisturbed(env) && old(s) == Only(db, r.token, x, Inserted(r)) ==>
        ok && r.token in db.tokens && s == Idle(Enrol(db, r, db.tokens[r.token].uses + 1))
    {
      hide *;
      ghost var start := Sofar();
      ok := Before(x, env, p);
      if !ok { return; }
      ghost var q := Sofar();
      ValidInv();
      CountStep(s, x, db);
      ghost var at := Issue(x, CountUse(x), env, p);
      SinceTwice(start, q, Sofar());
      q := Sofar();
      ok := Before(x, env, p);
      SinceTwice(start, q, Sofar());
      if !ok { return; }
      ghost var met := s;
      q := Sofar();
      ValidInv();
      CommitStep(s, x, db);
      at := Issue(x, Commit(x), env, p);
      SinceTwice(start, q, Sofar());
      SawCommit(p, Sofar(), at, x, met, met.txns[x].peer, s.db);
    }

    /** INSERT INTO peers, UPDATE uses, COMMIT. */
    method WriteAndCommit(x: TxnId, env: Env<Event>, ghost db: Db, now: int, ghost p: Past<Event>)
      returns (out: Outcome)
      requires Valid() && EnvOk(env, x) && x in s.txns && s.txns[x].Chosen? && Since(p, Sofar())
      modifies this
      ensures Valid() && x !in s.txns && (Published(x) <==> out.Registered? || old(Published(x)))
      ensures Since(old(Sofar()), Sofar()) && (out.Registered? || out in {Conflict, Failed})
      ensures out.Registered? ==> out.peer == old(s.txns[x]).peer && LastPeer(s.db, out.peer)
      ensures out.Registered? ==> RegisterWrote(p, Sofar(), x, out.peer, s.db)
      ensures var r := old(s.txns[x]).peer;
        out == Conflict ==> RegisterSaw(p, Sofar(), x, r.token, r.name, r.key, now, Conflict)
      ensures out == Failed ==> GaveUp(p, Sofar(), x, env)
      ensures var r := old(s.txns[x]).peer;
        Undisturbed(env) && old(s) == Only(db, r.token, x, Chosen(r)) && DbOk(db) ==>
        AfterWrite(db, s, r, out)
    {
      hide *;
      var r := s.txns[x].peer;
      ghost var start := Sofar();
      var bad := InsertRow(x, env, db, now, p);
      WriteAlone(db, s, r);
      if bad.Some? { return bad.value; }
      ghost var q := Sofar();
      var ok := PayAndCommit(x, env, db, p);
      SinceTwice(start, q, Sofar());
      WriteAlone(db, s, r);
      out := if ok then Registered(r) else Failed;
    }

    /** store.go RegisterPeer. */
    method RegisterPeer(x: TxnId, k: TokenId, name: string, key: string, now: int, env: Env<Event>)
      returns (out: Outcome)
      requires Valid() && x !in s.txns && !Published(x) && EnvOk(env, x)
      modifies this
      ensures Valid() && x !in s.txns && (Published(x) <==> out.Registered?)
      ensures RegisterSaw(old(Sofar()), Sofar(), x, k, name, key, now, out)
      ensures out == Failed ==> GaveUp(old(Sofar()), Sofar(), x, env)
      ensures out.Registered? ==>
        out.peer.name == name && out.peer.key == key && out.peer.token == k && LastPeer(s.db, out.peer)
      ensures out.Registered? ==> RegisterWrote(old(Sofar()), Sofar(), x, out.peer, s.db)
      ensures Undisturbed(env) && old(s) == Idle(old(s.db)) ==> AfterRegister(old(s.db), s, k, name, key, now, out)
    {
      ghost var db, t, quiet := s.db, Locked(k, name, key), Undisturbed(env) && s == Idle(s.db);
      KnownDb(s);
      hide *;
      ghost var p := Sofar();
      SinceSelf(p);
      var bad;
      ghost var at, met;
      bad, at, met := SelectToken(x, k, name, key, now, env, p);
      SawElse(p, Sofar(), x, k, name, key, now);
      if quiet {
        CaseToken(db, s, x, t, now, bad);
      }
      if bad.Some? { return bad.value; }
      ghost var q := Sofar();
      bad := ChooseAddr(x, env, db, now, p);
      SawElse(p, Sofar(), x, k, name, key, now);
      if quiet {
        CasePool(db, s, x, t, now, bad);
      }
      if bad.Some? { return bad.value; }
      ghost var r, m := s.txns[x].peer, Sofar();
      AsksFor(t, r);
      out := WriteAndCommit(x, env, db, now, p);
      SawElse(p, Sofar(), x, k, name, key, now);
      if quiet {
        CaseWrite(db, s, t, now, r, out);
      }
      if out.Registered? {
        SinceTwice(q, m, Sofar());
        SawLater(p, q, Sofar(), at, LockToken(x), met);
        SawUsable(p, Sofar(), at, x, k, name, key, now, met, r);
      }
    }
  }

  // What each part of an undisturbed enrolment leaves behind.

  ghost predicate AfterSelect(db: Db, s: State, x: TxnId, t: Txn, now: int, bad: Option<Outcome>)
    requires t.Locked?
  {
    if Unusable(db, t.token, now) then bad == Some(TokenInvalid) && s == Idle(db)
    else bad == None && s == Only(db, t.token, x, t)
  }

  ghost predicate AfterChoose(db: Db, s: State, x: TxnId, t: Txn, bad: Option<Outcome>)
    requires t.Locked?
  {
    if HasRoom(db, t.token) then bad == None && s == Only(db, t.token, x, Chosen(NextPeer(db, t)))
    else bad == Some(PoolExhausted) && s == Idle(db)
  }

  ghost predicate AfterWrite(db: Db, s: State, p: Peer, out: Outcome) {
    if StillNext(db, p) then
      out.Registered? && p.token in db.tokens && s == Idle(Enrol(db, p, db.tokens[p.token].uses + 1))
    else out == Conflict && s == Idle(db)
  }

  /** Undisturbed, the program refuses exactly the missing, revoked, expired and used-up tokens, registers exactly the
      enrollable, and leaves the tables AfterAlone describes. */
  ghost predicate AfterRegister(db: Db, s: State, k: TokenId, name: string, key: string, now: int, out: Outcome) {
    && s == Idle(AfterAlone(db, k, name, key, now))
    && (out.Registered? <==> Enrollable(db, k, key, now))
    && (out == TokenInvalid <==> Unusable(db, k, now))
  }

  /** p is what the transaction asked for, but for the address. */
  predicate Asks(t: Txn, p: Peer)
    requires t.Locked?
  {
    p.name == t.name && p.key == t.key && p.token == t.token
  }

  /** p is the newest row, and its address the newest of its tenant. */
  ghost predicate LastPeer(db: Db, p: Peer) {
    && |db.peers| > 0 && p == db.peers[|db.peers| - 1]
    && p.tenant in db.tenants
    && p.ip.value == db.tenants[p.tenant].Network() + RESERVED_HOSTS + |Of(db.peers, p.tenant)| - 1
  }

  ghost predicate HasRoom(db: Db, k: TokenId) {
    && k in db.tokens && db.tokens[k].tenant in db.tenants
    && |Of(db.peers, db.tokens[k].tenant)| < Capacity(db.tenants[db.tokens[k].tenant])
  }

  ghost function NextPeer(db: Db, t: Txn): Peer
    requires t.Locked? && HasRoom(db, t.token)
  {
    var tn := db.tokens[t.token].tenant;
    Peer(tn, t.name, t.key, Nth(db.tenants[tn], |Of(db.peers, tn)|), t.token)
  }

  lemma KnownDb(s: State)
    requires Inv(s)
    ensures DbOk(s.db)
  {
  }

  // The cases of an undisturbed enrolment, in the order the program meets them.

  lemma CaseToken(db: Db, s: State, x: TxnId, t: Txn, now: int, bad: Option<Outcome>)
    requires t.Locked? && AfterSelect(db, s, x, t, now, bad)
    ensures match bad
      case Some(out) => AfterRegister(db, s, t.token, t.name, t.key, now, out)
      case None => s == Only(db, t.token, x, t) && !Unusable(db, t.token, now)
  {
  }

  lemma CasePool(db: Db, s: State, x: TxnId, t: Txn, now: int, bad: Option<Outcome>)
    requires t.Locked? && AfterChoose(db, s, x, t, bad) && !Unusable(db, t.token, now)
    ensures match bad
      case Some(out) => AfterRegister(db, s, t.token, t.name, t.key, now, out)
      case None =>
        && HasRoom(db, t.token) && x in s.txns && s.txns[x].Chosen? && s.txns[x].peer == NextPeer(db, t)
        && s == Only(db, s.txns[x].peer.token, x, s.txns[x])
  {
  }

  lemma CaseWrite(db: Db, s: State, t: Txn, now: int, p: Peer, out: Outcome)
    requires t.Locked? && !Unusable(db, t.token, now) && HasRoom(db, t.token)
    requires p == NextPeer(db, t) && AfterWrite(db, s, p, out)
    ensures AfterRegister(db, s, t.token, t.name, t.key, now, out)
  {
  }

  // One step of the machine, as its session sees it.

  lemma BeginStep(s: State, x: TxnId, k: TokenId, name: string, key: string, now: int)
    requires x !in s.txns
    ensures var z := Step(s, Begin(x, k, name, key, now));
      if Unusable(s.db, k, now) then x !in z.txns else x in z.txns && z.txns[x] == Waiting(k, name, key, now)
  {
  }

  lemma LockTokenStep(s: State, x: TxnId)
    requires x in s.txns && s.txns[x].Waiting?
    ensures var t := s.txns[x]; var z := Step(s, LockToken(x));
      if t.token in s.locks then x in z.txns && z.txns[x] == t && Blocked(s, LockToken(x), x)
      else if Unusable(s.db, t.token, t.now) then x !in z.txns
      else x in z.txns && z.txns[x] == Locked(t.token, t.name, t.key)
  {
  }

  /** Alone, the token's row is locked at once. */
  lemma SelectSteps(db: Db, x: TxnId, k: TokenId, name: string, key: string, now: int)
    ensures var w := Step(Idle(db), Begin(x, k, name, key, now)); var z := Step(w, LockToken(x));
      if Unusable(db, k, now) then w == Idle(db)
      else z == Only(db, k, x, Locked(k, name, key)) && x in z.txns && z.txns[x] == Locked(k, name, key)
    ensures x !in Idle(db).txns
  {
    AloneLocks(db, x, k, name, key, now);
    RunTwo(Idle(db), Begin(x, k, name, key, now), LockToken(x));
  }

  lemma SelectAlone(db: Db, s: State, x: TxnId, t: Txn, now: int)
    requires t.Locked?
    ensures Unusable(db, t.token, now) && s == Idle(db) ==> AfterSelect(db, s, x, t, now, Some(TokenInvalid))
    ensures !Unusable(db, t.token, now) && s == Only(db, t.token, x, t) ==> AfterSelect(db, s, x, t, now, None)
  {
  }

  lemma ChooseAlone(db: Db, s: State, x: TxnId, t: Txn)
    requires t.Locked?
    ensures HasRoom(db, t.token) && s == Only(db, t.token, x, Chosen(NextPeer(db, t))) ==>
      AfterChoose(db, s, x, t, None)
    ensures !HasRoom(db, t.token) && s == Idle(db) ==> AfterChoose(db, s, x, t, Some(PoolExhausted))
  {
  }

  lemma NothingFree(db: Db, k: TokenId)
    requires k in db.tokens && db.tokens[k].tenant in db.tenants
    requires IsLowestFree(db.tenants[db.tokens[k].tenant], Enrollment.UsedAddrs(db.peers, db.tokens[k].tenant), None)
    ensures PoolFull(db, k)
  {
  }

  lemma WriteAlone(db: Db, s: State, r: Peer)
    ensures !StillNext(db, r) && s == Idle(db) ==> AfterWrite(db, s, r, Conflict)
    ensures StillNext(db, r) && r.token in db.tokens && s == Idle(Enrol(db, r, db.tokens[r.token].uses + 1)) ==>
      AfterWrite(db, s, r, Registered(r))
  {
  }

  lemma AsksFor(t: Txn, r: Peer)
    requires t.Locked? && Asks(t, r)
    ensures r.name == t.name && r.key == t.key && r.token == t.token
  {
  }

  lemma BeforePast(o: Past<Event>, p: Past<Event>, q: Past<Event>, r: Past<Event>, x: TxnId, env: Env<Event>, ok: bool)
    requires Since(o, p) && Since(p, q) && Since(q, r) && q.turn == p.turn + 1 && ok == !env.fails(p.turn)
    ensures Since(o, r) && Since(p, r) && (!ok ==> GaveUp(o, r, x, env))
  {
    hide Blocked, Run, Saw;
  }

  lemma LockedKnown(s: State, x: TxnId)
    requires Inv(s) && x in s.txns && s.txns[x].Locked?
    ensures s.txns[x].token in s.db.tokens && s.db.tokens[s.txns[x].token].tenant in s.db.tenants
  {
    assert TxnOk(s.db, s.txns[x]);
  }

  /** The machine's choice, given what the lowest free address is. */
  lemma ChooseMoves(s: State, x: TxnId, t: TenantId, ip: Option<Addr>)
    requires x in s.txns && s.txns[x].Locked? && s.txns[x].token in s.db.tokens
    requires s.db.tokens[s.txns[x].token].tenant == t && t in s.db.tenants
    requires ip == LowestFree(s.db.tenants[t], Enrollment.UsedAddrs(s.db.peers, t))
    ensures var u := s.txns[x];
      Step(s, Choose(x)) ==
      if ip.None? then End(s, x) else To(s, x, Chosen(Peer(t, u.name, u.key, ip.value, u.token)))
    ensures x !in End(s, x).txns
  {
    hide LowestFree, Enrollment.UsedAddrs;
    ChooseIs(s, x, t);
  }

  lemma ChooseStep(s: State, x: TxnId, ip: Option<Addr>, db: Db)
    requires Inv(s) && x in s.txns && s.txns[x].Locked?
    requires s.txns[x].token in s.db.tokens && s.db.tokens[s.txns[x].token].tenant in s.db.tenants
    requires var t := s.db.tokens[s.txns[x].token].tenant;
      IsLowestFree(s.db.tenants[t], Enrollment.UsedAddrs(s.db.peers, t), ip)
    ensures var t := s.txns[x]; var z := Step(s, Choose(x));
      if ip.None? then x !in z.txns
      else x in z.txns && z.txns[x].Chosen? && z.txns[x].peer.ip == ip.value && Asks(t, z.txns[x].peer)
    ensures var t := s.txns[x]; s == Only(db, t.token, x, t) && DbOk(db) ==>
      if HasRoom(db, t.token) then ip.Some? && Step(s, Choose(x)) == Only(db, t.token, x, Chosen(NextPeer(db, t)))
      else ip.None? && Step(s, Choose(x)) == Idle(db)
  {
    var t := s.db.tokens[s.txns[x].token].tenant;
    var used := Enrollment.UsedAddrs(s.db.peers, t);
    LowestFreeUnique(s.db.tenants[t], used, ip, LowestFree(s.db.tenants[t], used));
    ChooseMoves(s, x, t, ip);
    hide Inv, IsLowestFree, LowestFree, Enrollment.UsedAddrs, Step, Of, Capacity, Nth, DbOk;
    if s == Only(db, s.txns[x].token, x, s.txns[x]) && DbOk(db) {
      ChooseNext(db, t);
      AloneChooses(db, x, s.txns[x].token, s.txns[x].name, s.txns[x].key);
    }
  }

  lemma InsertMoves(s: State, x: TxnId)
    requires x in s.txns && s.txns[x].Chosen?
    ensures var p := s.txns[x].peer; var z := Step(s, Insert(x));
      || (z == s && Blocked(s, Insert(x), x))
      || (x !in z.txns && Clashes(s.db, p))
      || (x in z.txns && z.txns[x] == Inserted(p))
  {
  }

  lemma InsertStep(s: State, x: TxnId, db: Db)
    requires Inv(s) && x in s.txns && s.txns[x].Chosen?
    ensures var p := s.txns[x].peer; var z := Step(s, Insert(x));
      || (x in z.txns && z.txns[x] == Chosen(p) && Blocked(s, Insert(x), x))
      || (x !in z.txns && Clashes(s.db, p))
      || (x in z.txns && z.txns[x] == Inserted(p))
    ensures var p := s.txns[x].peer; var z := Step(s, Insert(x));
      s == Only(db, p.token, x, Chosen(p)) && DbOk(db) ==>
      if StillNext(db, p) then z == Only(db, p.token, x, Inserted(p)) && x in z.txns && z.txns[x] == Inserted(p)
      else z == Idle(db) && x !in z.txns
  {
    var p := s.txns[x].peer;
    assert TxnOk(s.db, s.txns[x]);
    InsertMoves(s, x);
    hide Inv, TxnOk, Step, DbOk, StillNext, Blocked, Clashes;
    if s == Only(db, p.token, x, Chosen(p)) && DbOk(db) {
      AloneInserts(db, x, p.token, p);
    }
  }

  lemma CountStep(s: State, x: TxnId, db: Db)
    requires Inv(s) && x in s.txns && s.txns[x].Inserted?
    ensures var p := s.txns[x].peer; var z := Step(s, CountUse(x));
      && p.token in s.db.tokens
      && x in z.txns && z.txns[x] == Paid(p, s.db.tokens[p.token].uses + 1)
      && (s == Only(db, p.token, x, Inserted(p)) ==>
            s.db == db && z == Only(db, p.token, x, Paid(p, s.db.tokens[p.token].uses + 1)))
  {
    assert TxnOk(s.db, s.txns[x]);
    hide Inv;
    if s == Only(db, s.txns[x].peer.token, x, s.txns[x]) {
      OnlyEnds(db, s.txns[x].peer.token, x, s.txns[x]);
    }
  }

  /** A row about to be committed has neither the address nor the key of a committed one. */
  lemma FreshRow(db: Db, p: Peer, uses: nat)
    requires DbOk(db) && TxnOk(db, Paid(p, uses))
    ensures p.token in db.tokens && uses == db.tokens[p.token].uses + 1 && !Clashes(db, p)
  {
    var cidr, mine := db.tenants[p.tenant], Of(db.peers, p.tenant);
    assert Contiguous(cidr, mine);
    forall q | q in db.peers && q.tenant == p.tenant ensures q.ip != p.ip && q.key != p.key {
      OfMembers(db.peers, p.tenant, q);
      var i :| 0 <= i < |mine| && mine[i] == q;
      assert q.ip == Nth(cidr, i);
    }
  }

  lemma CommitMoves(s: State, x: TxnId)
    requires x in s.txns && s.txns[x].Paid? && s.txns[x].peer.token in s.db.tokens
    ensures var z := Step(s, Commit(x)); x !in z.txns && z.db == Enrol(s.db, s.txns[x].peer, s.txns[x].uses)
  {
  }

  lemma NewestPeer(db: Db, p: Peer, uses: nat)
    requires DbOk(db) && TxnOk(db, Paid(p, uses))
    ensures p.token in db.tokens && LastPeer(Enrol(db, p, uses), p)
  {
    OfAppend(db.peers, p, p.tenant, p.token);
  }

  lemma PaidKnown(s: State, x: TxnId)
    requires Inv(s) && x in s.txns && s.txns[x].Paid?
    ensures DbOk(s.db) && TxnOk(s.db, s.txns[x]) && s.txns[x].peer.token in s.db.tokens
  {
    hide DbOk;
  }

  lemma PaidAlone(s: State, db: Db, x: TxnId, p: Peer, uses: nat)
    requires s == Only(db, p.token, x, Paid(p, uses)) && p.token in s.db.tokens
    ensures s.db == db && Step(s, Commit(x)) == Idle(Enrol(db, p, uses))
  {
    OnlyEnds(Enrol(db, p, uses), p.token, x, Paid(p, uses));
  }

  lemma CommitStep(s: State, x: TxnId, db: Db)
    requires Inv(s) && x in s.txns && s.txns[x].Paid?
    ensures var p := s.txns[x].peer; var z := Step(s, Commit(x));
      && p.token in s.db.tokens && x !in z.txns && LastPeer(z.db, p) && !Clashes(s.db, p)
      && z.db == Enrol(s.db, p, s.db.tokens[p.token].uses + 1)
      && (s == Only(db, p.token, x, Paid(p, s.txns[x].uses)) ==> s.db == db && z == Idle(Enrol(db, p, s.txns[x].uses)))
  {
    hide *;
    var p, uses := s.txns[x].peer, s.txns[x].uses;
    PaidKnown(s, x);
    FreshRow(s.db, p, uses);
    NewestPeer(s.db, p, uses);
    CommitMoves(s, x);
    if s == Only(db, p.token, x, Paid(p, uses)) {
      PaidAlone(s, db, x, p, uses);
    }
  }
}
