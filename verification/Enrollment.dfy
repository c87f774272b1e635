/** Enrolment: RegisterPeer transactions over the tokens and peers tables, any number of them interleaved.

    READ COMMITTED: a statement sees what was committed when it began, a locked row is checked again
    once its lock is free, and a unique index makes a second writer wait for the first. */
module Enrollment {
  import opened Base
  import opened Netip
  import opened AddressPool

  type TokenId = Uuid

  datatype Token = Token(tenant: TenantId, maxUses: nat, uses: nat, expires: int, revoked: bool)

  datatype Peer = Peer(tenant: TenantId, name: string, key: string, ip: Addr, token: TokenId)

  /** How far a RegisterPeer transaction has come. */
  datatype Txn =
    | Waiting(token: TokenId, name: string, key: string, now: int) // SELECT ... FOR UPDATE found the token row
    | Locked(token: TokenId, name: string, key: string)            // it holds the row, still redeemable
    | Chosen(peer: Peer)                                           // address picked from one snapshot
    | Inserted(peer: Peer)                                         // INSERT INTO peers done, uncommitted
    | Paid(peer: Peer, uses: nat)                                  // uses = uses + 1 done, uncommitted
  {
    /** The uncommitted peer row, if there is one. */
    function Pending(): Option<Peer> {
      match this
      case Inserted(p) => Some(p)
      case Paid(p, _) => Some(p)
      case _ => None
    }
  }

  /** The committed rows, peers in commit order. */
  datatype Db = Db(tenants: map<TenantId, Prefix>, tokens: map<TokenId, Token>, peers: seq<Peer>)

  /** The database together with its row locks and open transactions. */
  datatype State = State(db: Db, locks: map<TokenId, TxnId>, txns: map<TxnId, Txn>)

  function Init(): State {
    State(Db(map[], map[], []), map[], map[])
  }

  datatype Event =
    | CreateTenant(tenant: TenantId, cidr: Prefix)
    | CreateToken(token: TokenId, owner: TenantId, maxUses: nat, expires: int)
    | RevokeToken(token: TokenId)
    | Begin(x: TxnId, token: TokenId, name: string, key: string, now: int)
    | LockToken(x: TxnId)
    | Choose(x: TxnId)
    | Insert(x: TxnId)
    | CountUse(x: TxnId)
    | Commit(x: TxnId)
    | Abort(x: TxnId)

  predicate Redeemable(t: Token, now: int) {
    !t.revoked && t.expires > now && t.uses < t.maxUses
  }

  /** Rollback or the end of a commit: the transaction is gone and so are its locks. */
  function End(s: State, x: TxnId): State {
    s.(txns := s.txns - {x}, locks := map k | k in s.locks && s.locks[k] != x :: s.locks[k])
  }

  function To(s: State, x: TxnId, t: Txn): State {
    s.(txns := s.txns[x := t])
  }

  /** What one event does. An event that has to wait, or that no program would issue now, changes nothing. */
  function Step(s: State, e: Event): State {
    match e
    case CreateTenant(t, cidr) =>
      if t in s.db.tenants then s else s.(db := s.db.(tenants := s.db.tenants[t := cidr]))
    case CreateToken(k, t, maxUses, expires) =>
      if k in s.db.tokens || t !in s.db.tenants || maxUses == 0 then s
      else s.(db := s.db.(tokens := s.db.tokens[k := Token(t, maxUses, 0, expires, false)]))
    case RevokeToken(k) =>
      if k !in s.db.tokens || k in s.locks then s
      else s.(db := s.db.(tokens := s.db.tokens[k := s.db.tokens[k].(revoked := true)]))
    case Begin(x, k, name, key, now) =>
      if x in s.txns || k !in s.db.tokens || !Redeemable(s.db.tokens[k], now) then s // ErrTokenInvalid
      else To(s, x, Waiting(k, name, key, now))
    case LockToken(x) => if x in s.txns && s.txns[x].Waiting? then StepLock(s, x, s.txns[x]) else s
    case Choose(x) => if x in s.txns && s.txns[x].Locked? then StepChoose(s, x, s.txns[x]) else s
    case Insert(x) => if x in s.txns && s.txns[x].Chosen? then StepInsert(s, x, s.txns[x].peer) else s
    case CountUse(x) => if x in s.txns && s.txns[x].Inserted? then StepCount(s, x, s.txns[x].peer) else s
    case Commit(x) => if x in s.txns && s.txns[x].Paid? then StepCommit(s, x, s.txns[x]) else s
    case Abort(x) => End(s, x)
  }

  /** The lock is granted once free, and the row is checked again as it is by then. */
  function StepLock(s: State, x: TxnId, t: Txn): State
    requires t.Waiting?
  {
    if t.token in s.locks then s
    else if t.token !in s.db.tokens || !Redeemable(s.db.tokens[t.token], t.now) then End(s, x) // ErrTokenInvalid
    else To(s.(locks := s.locks[t.token := x]), x, Locked(t.token, t.name, t.key))
  }

  function UsedAddrs(peers: seq<Peer>, t: TenantId): set<Addr> {
    set p | p in peers && p.tenant == t :: p.ip
  }

  function StepChoose(s: State, x: TxnId, t: Txn): State
    requires t.Locked?
  {
    if t.token !in s.db.tokens || s.db.tokens[t.token].tenant !in s.db.tenants then End(s, x)
    else
      var tenant := s.db.tokens[t.token].tenant;
      match LowestFree(s.db.tenants[tenant], UsedAddrs(s.db.peers, tenant))
      case None => End(s, x) // ErrPoolExhausted
      case Some(ip) => To(s, x, Chosen(Peer(tenant, t.name, t.key, ip, t.token)))
  }

  /** UNIQUE (tenant_id, mesh_ip). */
  predicate SameAddr(p: Peer, q: Peer) {
    p.tenant == q.tenant && p.ip == q.ip
  }

  /** UNIQUE (tenant_id, public_key). */
  predicate SameKey(p: Peer, q: Peer) {
    p.tenant == q.tenant && p.key == q.key
  }

  predicate AddrTaken(peers: seq<Peer>, p: Peer) {
    exists q :: q in peers && SameAddr(p, q)
  }

  predicate KeyTaken(peers: seq<Peer>, p: Peer) {
    exists q :: q in peers && SameKey(p, q)
  }

  predicate AddrPending(txns: map<TxnId, Txn>, x: TxnId, p: Peer) {
    exists y :: y in txns && y != x && txns[y].Pending().Some? && SameAddr(p, txns[y].Pending().value)
  }

  predicate KeyPending(txns: map<TxnId, Txn>, x: TxnId, p: Peer) {
    exists y :: y in txns && y != x && txns[y].Pending().Some? && SameKey(p, txns[y].Pending().value)
  }

  /** The two indexes are consulted one after the other: a committed row fails the insert, another writer's makes it
      wait. */
  function StepInsert(s: State, x: TxnId, p: Peer): State {
    if AddrTaken(s.db.peers, p) then End(s, x)  // ErrConflict
    else if AddrPending(s.txns, x, p) then s
    else if KeyTaken(s.db.peers, p) then End(s, x)
    else if KeyPending(s.txns, x, p) then s
    else To(s, x, Inserted(p))
  }

  function StepCount(s: State, x: TxnId, p: Peer): State {
    if p.token !in s.db.tokens then End(s, x) else To(s, x, Paid(p, s.db.tokens[p.token].uses + 1))
  }

  function StepCommit(s: State, x: TxnId, t: Txn): State
    requires t.Paid?
  {
    if t.peer.token !in s.db.tokens then End(s, x)
    else End(s.(db := Enrol(s.db, t.peer, t.uses)), x)
  }

  /** The two writes a commit publishes at once. */
  function Enrol(db: Db, p: Peer, uses: nat): Db
    requires p.token in db.tokens
  {
    db.(peers := db.peers + [p], tokens := db.tokens[p.token := db.tokens[p.token].(uses := uses)])
  }

  function Run(s: State, es: seq<Event>): State
    decreases |es|
  {
    if es == [] then s else Run(Step(s, es[0]), es[1..])
  }

  // ---- what the tables say ----

  /** A tenant's peers in commit order. */
  function Of(peers: seq<Peer>, t: TenantId): seq<Peer> {
    if peers == [] then []
    else Of(peers[..|peers| - 1], t) +
         (if peers[|peers| - 1].tenant == t then [peers[|peers| - 1]] else [])
  }

  function Enrolled(peers: seq<Peer>, k: TokenId): nat {
    if peers == [] then 0
    else Enrolled(peers[..|peers| - 1], k) + (if peers[|peers| - 1].token == k then 1 else 0)
  }

  lemma OfAppend(peers: seq<Peer>, p: Peer, t: TenantId, k: TokenId)
    ensures Of(peers + [p], t) == Of(peers, t) + (if p.tenant == t then [p] else [])
    ensures Enrolled(peers + [p], k) == Enrolled(peers, k) + (if p.token == k then 1 else 0)
  {
    assert (peers + [p])[..|peers|] == peers;
  }

  lemma {:induction false} OfMembers(peers: seq<Peer>, t: TenantId, p: Peer)
    ensures p in Of(peers, t) <==> p in peers && p.tenant == t
  {
    if peers != [] {
      var n := |peers| - 1;
      OfMembers(peers[..n], t, p);
      assert peers == peers[..n] + [peers[n]];
    }
  }

  // ---- the invariant ----

  /** The i-th peer has the i-th address. */
  ghost predicate Contiguous(p: Prefix, mine: seq<Peer>) {
    && |mine| <= Capacity(p)
    && forall i :: 0 <= i < |mine| ==> mine[i].ip == Nth(p, i)
  }

  ghost predicate TokenOk(db: Db, k: TokenId)
    requires k in db.tokens
  {
    db.tokens[k].tenant in db.tenants && db.tokens[k].uses == Enrolled(db.peers, k) <= db.tokens[k].maxUses
  }

  ghost predicate KeysDistinct(peers: seq<Peer>) {
    forall i, j :: 0 <= i < j < |peers| && peers[i].tenant == peers[j].tenant ==> peers[i].key != peers[j].key
  }

  ghost predicate DbOk(db: Db) {
    && (forall t :: t in db.tenants ==> Contiguous(db.tenants[t], Of(db.peers, t)))
    && (forall k :: k in db.tokens ==> TokenOk(db, k))
    && (forall p :: p in db.peers ==> p.tenant in db.tenants && p.token in db.tokens)
    && KeysDistinct(db.peers)
  }

  /** The token a transaction has locked. */
  function Held(t: Txn): Option<TokenId> {
    match t
    case Waiting(_, _, _, _) => None
    case Locked(k, _, _) => Some(k)
    case Chosen(p) => Some(p.token)
    case Inserted(p) => Some(p.token)
    case Paid(p, _) => Some(p.token)
  }

  ghost predicate LocksOk(s: State) {
    forall x :: x in s.txns && Held(s.txns[x]).Some? ==>
      Held(s.txns[x]).value in s.locks && s.locks[Held(s.txns[x]).value] == x
  }

  ghost predicate HasUse(db: Db, k: TokenId) {
    k in db.tokens && db.tokens[k].uses < db.tokens[k].maxUses && db.tokens[k].tenant in db.tenants
  }

  ghost predicate Bound(db: Db, p: Peer) {
    HasUse(db, p.token) && p.tenant == db.tokens[p.token].tenant
  }

  /** An uncommitted peer row is the next of its tenant. */
  ghost predicate NextOfTenant(p: Prefix, mine: seq<Peer>, next: Peer) {
    && |mine| < Capacity(p)
    && next.ip == Nth(p, |mine|)
    && forall q :: q in mine ==> q.key != next.key
  }

  /** The address was the lowest free one in some earlier, possibly outdated, state of the table. */
  ghost predicate OnceNext(p: Prefix, n: nat, ip: Addr) {
    exists m :: 0 <= m <= n && m < Capacity(p) && ip == Nth(p, m)
  }

  ghost predicate TxnOk(db: Db, t: Txn) {
    match t
    case Waiting(_, _, _, _) => true
    case Locked(k, _, _) => HasUse(db, k)
    case Chosen(p) => Bound(db, p) && OnceNext(db.tenants[p.tenant], |Of(db.peers, p.tenant)|, p.ip)
    case Inserted(p) => Bound(db, p) && NextOfTenant(db.tenants[p.tenant], Of(db.peers, p.tenant), p)
    case Paid(p, u) =>
      && Bound(db, p) && NextOfTenant(db.tenants[p.tenant], Of(db.peers, p.tenant), p)
      && u == db.tokens[p.token].uses + 1
  }

  predicate OnePendingPerTenant(txns: map<TxnId, Txn>) {
    forall x, y ::
      (x in txns && y in txns && x != y && txns[x].Pending().Some? && txns[y].Pending().Some?) ==>
      txns[x].Pending().value.tenant != txns[y].Pending().value.tenant
  }

  ghost predicate Inv(s: State) {
    && DbOk(s.db)
    && LocksOk(s)
    && (forall x :: x in s.txns ==> TxnOk(s.db, s.txns[x]))
    && OnePendingPerTenant(s.txns)
  }

  // ---- preservation, one kind of step at a time ----

  lemma EndKeeps(s: State, x: TxnId)
    requires Inv(s)
    ensures Inv(End(s, x))
  {
  }

  lemma {:induction false} NoneOf(peers: seq<Peer>, t: TenantId, k: TokenId)
    ensures (forall p :: p in peers ==> p.tenant != t) ==> Of(peers, t) == []
    ensures (forall p :: p in peers ==> p.token != k) ==> Enrolled(peers, k) == 0
  {
    if peers != [] {
      NoneOf(peers[..|peers| - 1], t, k);
    }
  }

  lemma EmptyContiguous(p: Prefix)
    ensures Contiguous(p, [])
  {
  }

  lemma NewTenantDb(db: Db, t: TenantId, cidr: Prefix)
    requires DbOk(db) && t !in db.tenants
    ensures DbOk(db.(tenants := db.tenants[t := cidr]))
  {
    hide KeysDistinct, Of, Enrolled, Contiguous;
    var z := db.(tenants := db.tenants[t := cidr]);
    NoneOf(db.peers, t, 0);
    EmptyContiguous(cidr);
    assert forall u :: u in z.tenants ==> Contiguous(z.tenants[u], Of(z.peers, u));
    forall k | k in z.tokens ensures TokenOk(z, k) {
      assert TokenOk(db, k);
    }
  }

  lemma NewTenantFrame(db: Db, t: TenantId, cidr: Prefix, u: Txn)
    requires t !in db.tenants && TxnOk(db, u)
    ensures TxnOk(db.(tenants := db.tenants[t := cidr]), u)
  {
    hide NextOfTenant, OnceNext;
  }

  lemma CreateTenantKeeps(s: State, t: TenantId, cidr: Prefix)
    requires Inv(s)
    ensures Inv(Step(s, CreateTenant(t, cidr)))
  {
    hide DbOk, TxnOk;
    if t !in s.db.tenants {
      NewTenantDb(s.db, t, cidr);
      forall y | y in s.txns ensures TxnOk(s.db.(tenants := s.db.tenants[t := cidr]), s.txns[y]) {
        NewTenantFrame(s.db, t, cidr, s.txns[y]);
      }
    }
  }

  lemma TokenTableKeeps(s: State, k: TokenId, t: Token)
    requires Inv(s)
    requires k in s.db.tokens ==> k !in s.locks && t == s.db.tokens[k].(revoked := true)
    requires k !in s.db.tokens ==> t.tenant in s.db.tenants && t.uses == 0
    ensures Inv(s.(db := s.db.(tokens := s.db.tokens[k := t])))
  {
    hide Contiguous, NextOfTenant, OnceNext, KeysDistinct, OnePendingPerTenant, Of, Enrolled;
    var z := s.(db := s.db.(tokens := s.db.tokens[k := t]));
    NoneOf(s.db.peers, 0, k);
    forall j | j in z.db.tokens ensures TokenOk(z.db, j) {
      if j in s.db.tokens {
        assert TokenOk(s.db, j);
      }
    }
    forall y | y in z.txns ensures TxnOk(z.db, z.txns[y]) {
      assert TxnOk(s.db, s.txns[y]);
    }
  }

  lemma LockKeeps(s: State, x: TxnId)
    requires Inv(s)
    ensures Inv(Step(s, LockToken(x)))
  {
    EndKeeps(s, x);
    if x in s.txns && s.txns[x].Waiting? && s.txns[x].token in s.db.tokens {
      assert TokenOk(s.db, s.txns[x].token);
    }
  }

  /** What the allocator answers on a snapshot of the table. */
  lemma ChooseNext(db: Db, t: TenantId)
    requires t in db.tenants && Contiguous(db.tenants[t], Of(db.peers, t))
    ensures var n := |Of(db.peers, t)|;
      LowestFree(db.tenants[t], UsedAddrs(db.peers, t)) ==
      if n < Capacity(db.tenants[t]) then Some(Nth(db.tenants[t], n)) else None
  {
    var mine, used, p := Of(db.peers, t), UsedAddrs(db.peers, t), db.tenants[t];
    forall i | 0 <= i < |mine| ensures Nth(p, i) in used {
      OfMembers(db.peers, t, mine[i]);
    }
    forall a | a in used ensures exists i :: 0 <= i < |mine| && a == Nth(p, i) {
      var q :| q in db.peers && q.tenant == t && q.ip == a;
      OfMembers(db.peers, t, q);
      var i :| 0 <= i < |mine| && mine[i] == q;
      assert a == Nth(p, i);
    }
    LowestFreeOfBlock(p, used, |mine|);
  }

  /** Moving one transaction on, the tables and locks staying as they are. */
  lemma MoveKeeps(s: State, x: TxnId, t: Txn)
    requires Inv(s) && x in s.txns && Held(t) == Held(s.txns[x])
    requires TxnOk(s.db, t)
    requires forall y :: y in s.txns && y != x && t.Pending().Some? && s.txns[y].Pending().Some? ==>
      s.txns[y].Pending().value.tenant != t.Pending().value.tenant
    ensures Inv(To(s, x, t))
  {
  }

  lemma ChooseKeeps(s: State, x: TxnId)
    requires Inv(s)
    ensures Inv(Step(s, Choose(x)))
  {
    EndKeeps(s, x);
    if x in s.txns && s.txns[x].Locked? {
      assert TxnOk(s.db, s.txns[x]);
      var t := s.db.tokens[s.txns[x].token].tenant;
      ChooseNext(s.db, t);
      var n := |Of(s.db.peers, t)|;
      if n < Capacity(s.db.tenants[t]) {
        var p := Peer(t, s.txns[x].name, s.txns[x].key, Nth(s.db.tenants[t], n), s.txns[x].token);
        assert OnceNext(s.db.tenants[t], n, p.ip);
        MoveKeeps(s, x, Chosen(p));
      }
    }
  }

  /** An address from an outdated snapshot is already taken; one from a current snapshot is the next. */
  lemma StaleOrNext(cidr: Prefix, mine: seq<Peer>, p: Peer)
    requires Contiguous(cidr, mine) && OnceNext(cidr, |mine|, p.ip)
    requires forall q :: q in mine ==> q.ip != p.ip && q.key != p.key
    ensures NextOfTenant(cidr, mine, p)
  {
    var m :| 0 <= m <= |mine| && m < Capacity(cidr) && p.ip == Nth(cidr, m);
    assert forall i :: 0 <= i < |mine| ==> mine[i] in mine && mine[i].ip == Nth(cidr, i);
  }

  lemma NoConflictInTenant(peers: seq<Peer>, p: Peer)
    ensures !AddrTaken(peers, p) ==> forall q :: q in Of(peers, p.tenant) ==> q.ip != p.ip
    ensures !KeyTaken(peers, p) ==> forall q :: q in Of(peers, p.tenant) ==> q.key != p.key
  {
    forall q | q in Of(peers, p.tenant)
      ensures (!AddrTaken(peers, p) ==> q.ip != p.ip) && (!KeyTaken(peers, p) ==> q.key != p.key)
    {
      OfMembers(peers, p.tenant, q);
      assert !AddrTaken(peers, p) ==> !SameAddr(p, q);
      assert !KeyTaken(peers, p) ==> !SameKey(p, q);
    }
  }

  lemma InsertKeeps(s: State, x: TxnId)
    requires Inv(s)
    ensures Inv(Step(s, Insert(x)))
  {
    EndKeeps(s, x);
    var z := Step(s, Insert(x));
    if x in s.txns && s.txns[x].Chosen? && z != s && z != End(s, x) {
      InsertedKeeps(s, x, s.txns[x].peer);
    }
  }

  lemma InsertedKeeps(s: State, x: TxnId, p: Peer)
    requires Inv(s) && x in s.txns && s.txns[x] == Chosen(p)
    requires !AddrTaken(s.db.peers, p) && !KeyTaken(s.db.peers, p) && !AddrPending(s.txns, x, p)
    ensures Inv(To(s, x, Inserted(p)))
  {
    assert TxnOk(s.db, s.txns[x]);
    NoConflictInTenant(s.db.peers, p);
    StaleOrNext(s.db.tenants[p.tenant], Of(s.db.peers, p.tenant), p);
    forall y | y in s.txns && y != x && s.txns[y].Pending().Some?
      ensures s.txns[y].Pending().value.tenant != p.tenant
    {
      assert TxnOk(s.db, s.txns[y]);
      assert !SameAddr(p, s.txns[y].Pending().value);
    }
    hide TxnOk, DbOk, Of, AddrTaken, KeyTaken, AddrPending;
    MoveKeeps(s, x, Inserted(p));
  }

  lemma CountKeeps(s: State, x: TxnId)
    requires Inv(s)
    ensures Inv(Step(s, CountUse(x)))
  {
    if x in s.txns && s.txns[x].Inserted? {
      var p := s.txns[x].peer;
      assert TxnOk(s.db, s.txns[x]);
      MoveKeeps(s, x, Paid(p, s.db.tokens[p.token].uses + 1));
    }
  }

  lemma EnrolKeepsDb(db: Db, p: Peer, u: nat)
    requires DbOk(db) && TxnOk(db, Paid(p, u))
    ensures DbOk(Enrol(db, p, u))
  {
    var z := Enrol(db, p, u);
    forall t | t in z.tenants ensures Contiguous(z.tenants[t], Of(z.peers, t)) {
      assert Contiguous(db.tenants[t], Of(db.peers, t));
      OfAppend(db.peers, p, t, p.token);
      if t == p.tenant {
        ContiguousAppend(db.tenants[t], Of(db.peers, t), p);
      }
    }
    forall k | k in z.tokens ensures TokenOk(z, k) {
      assert TokenOk(db, k);
      OfAppend(db.peers, p, p.tenant, k);
    }
    KeysAppend(db.peers, p);
  }

  lemma ContiguousAppend(cidr: Prefix, mine: seq<Peer>, p: Peer)
    requires Contiguous(cidr, mine) && NextOfTenant(cidr, mine, p)
    ensures Contiguous(cidr, mine + [p])
  {
  }

  lemma KeysAppend(peers: seq<Peer>, p: Peer)
    requires KeysDistinct(peers) && forall q :: q in Of(peers, p.tenant) ==> q.key != p.key
    ensures KeysDistinct(peers + [p])
  {
    forall q | q in peers && q.tenant == p.tenant ensures q.key != p.key {
      OfMembers(peers, p.tenant, q);
    }
  }

  /** A commit leaves intact what a transaction on another token, with no row pending in the same tenant, knows. */
  lemma EnrolFrame(db: Db, p: Peer, u: nat, t: Txn)
    requires DbOk(db) && TxnOk(db, Paid(p, u)) && TxnOk(db, t)
    requires Held(t) != Some(p.token)
    requires t.Pending().Some? ==> t.Pending().value.tenant != p.tenant
    ensures TxnOk(Enrol(db, p, u), t)
  {
    hide DbOk, NextOfTenant;
    var z := Enrol(db, p, u);
    if t.Chosen? || t.Inserted? || t.Paid? {
      OfAppend(db.peers, p, t.peer.tenant, p.token);
      assert t.peer.tenant != p.tenant ==> Of(z.peers, t.peer.tenant) == Of(db.peers, t.peer.tenant);
    }
    if t.Chosen? {
      var n := |Of(db.peers, t.peer.tenant)|;
      var m :| 0 <= m <= n && m < Capacity(db.tenants[t.peer.tenant]) && t.peer.ip == Nth(db.tenants[t.peer.tenant], m);
      assert OnceNext(z.tenants[t.peer.tenant], |Of(z.peers, t.peer.tenant)|, t.peer.ip);
    }
  }

  lemma CommitKeeps(s: State, x: TxnId)
    requires Inv(s)
    ensures Inv(Step(s, Commit(x)))
  {
    if x in s.txns && s.txns[x].Paid? {
      var p, u := s.txns[x].peer, s.txns[x].uses;
      assert TxnOk(s.db, s.txns[x]);
      EnrolKeepsDb(s.db, p, u);
      var z := Step(s, Commit(x));
      forall y | y in z.txns ensures TxnOk(z.db, z.txns[y]) {
        EnrolFrame(s.db, p, u, s.txns[y]);
      }
    }
  }

  lemma BeginKeeps(s: State, x: TxnId, k: TokenId, name: string, key: string, now: int)
    requires Inv(s)
    ensures Inv(Step(s, Begin(x, k, name, key, now)))
  {
    hide DbOk, Of;
  }

  lemma StepKeeps(s: State, e: Event)
    requires Inv(s)
    ensures Inv(Step(s, e))
  {
    hide Inv, StepLock, StepChoose, StepInsert, StepCount, StepCommit, TxnOk;
    match e
    case CreateTenant(t, cidr) => CreateTenantKeeps(s, t, cidr);
    case CreateToken(k, t, maxUses, expires) =>
      if Step(s, e) != s {
        TokenTableKeeps(s, k, Token(t, maxUses, 0, expires, false));
      }
    case RevokeToken(k) =>
      if Step(s, e) != s {
        TokenTableKeeps(s, k, s.db.tokens[k].(revoked := true));
      }
    case LockToken(x) => LockKeeps(s, x);
    case Choose(x) => ChooseKeeps(s, x);
    case Insert(x) => InsertKeeps(s, x);
    case CountUse(x) => CountKeeps(s, x);
    case Commit(x) => CommitKeeps(s, x);
    case Abort(x) => EndKeeps(s, x);
    case Begin(x, k, name, key, now) => BeginKeeps(s, x, k, name, key, now);
  }

  lemma {:induction false} RunKeeps(s: State, es: seq<Event>)
    requires Inv(s)
    ensures Inv(Run(s, es))
    decreases |es|
  {
    if es != [] {
      StepKeeps(s, es[0]);
      RunKeeps(Step(s, es[0]), es[1..]);
    }
  }

  // ---- theorems about every run ----

  lemma {:induction false} Reachable(es: seq<Event>)
    ensures Inv(Run(Init(), es))
  {
    RunKeeps(Init(), es);
  }

  /** The i-th peer committed in a tenant holds the i-th address of its prefix: no gap, no duplicate, no overflow. */
  lemma AddressesInOrder(es: seq<Event>, t: TenantId)
    requires t in Run(Init(), es).db.tenants
    ensures var db := Run(Init(), es).db; var mine := Of(db.peers, t);
      && |mine| <= Capacity(db.tenants[t])
      && forall i :: 0 <= i < |mine| ==>
           && mine[i].ip.V4? == db.tenants[t].addr.V4?
           && mine[i].ip.value == db.tenants[t].Network() + RESERVED_HOSTS + i
  {
    Reachable(es);
    assert Contiguous(Run(Init(), es).db.tenants[t], Of(Run(Init(), es).db.peers, t));
  }

  /** So no two peers of a tenant share an address or a key: what the relay and the nodes rely on. */
  lemma PeersDistinct(es: seq<Event>, i: nat, j: nat)
    requires i < j < |Run(Init(), es).db.peers|
    ensures var peers := Run(Init(), es).db.peers;
      peers[i].tenant == peers[j].tenant ==> peers[i].ip != peers[j].ip && peers[i].key != peers[j].key
  {
    var db := Run(Init(), es).db;
    Reachable(es);
    if db.peers[i].tenant == db.peers[j].tenant {
      var t := db.peers[i].tenant;
      OfPositions(db.peers, t, i, j);
      assert db.peers[i] in db.peers;
      assert Contiguous(db.tenants[t], Of(db.peers, t));
    }
  }

  /** Two rows of a tenant stand at different places of its list. */
  lemma {:induction false} OfPositions(peers: seq<Peer>, t: TenantId, i: nat, j: nat)
    requires i < j < |peers| && peers[i].tenant == t == peers[j].tenant
    ensures exists a, b :: 0 <= a < b < |Of(peers, t)| && Of(peers, t)[a] == peers[i] && Of(peers, t)[b] == peers[j]
  {
    var n := |peers| - 1;
    var front := peers[..n];
    if j == n {
      OfMembers(front, t, front[i]);
      var a :| 0 <= a < |Of(front, t)| && Of(front, t)[a] == peers[i];
      assert Of(peers, t)[a] == peers[i] && Of(peers, t)[|Of(front, t)|] == peers[j];
    } else {
      OfPositions(front, t, i, j);
      var a, b :| 0 <= a < b < |Of(front, t)| && Of(front, t)[a] == peers[i] && Of(front, t)[b] == peers[j];
      assert Of(peers, t)[a] == peers[i] && Of(peers, t)[b] == peers[j];
    }
  }

  /** A token's use count is the number of peers enrolled with it, and within its limit. */
  lemma TokenAccounting(es: seq<Event>, k: TokenId)
    requires k in Run(Init(), es).db.tokens
    ensures var db := Run(Init(), es).db; db.tokens[k].uses == Enrolled(db.peers, k) <= db.tokens[k].maxUses
  {
    Reachable(es);
    assert TokenOk(Run(Init(), es).db, k);
  }

  // ---- locks ----

  ghost predicate LocksOpen(s: State) {
    forall k :: k in s.locks ==> s.locks[k] in s.txns
  }

  lemma StepLocks(s: State, e: Event)
    requires LocksOpen(s)
    ensures LocksOpen(Step(s, e))
  {
    hide Redeemable, LowestFree, UsedAddrs, AddrTaken, AddrPending, KeyTaken, KeyPending, Enrol;
  }

  lemma {:induction false} RunLocks(s: State, es: seq<Event>)
    requires LocksOpen(s)
    ensures LocksOpen(Run(s, es))
    decreases |es|
  {
    hide Step, LocksOpen;
    if es != [] {
      StepLocks(s, es[0]);
      RunLocks(Step(s, es[0]), es[1..]);
    }
  }

  /** Whoever holds a token's lock is still open: it is free once they commit or abort. */
  lemma NoStaleLocks(es: seq<Event>, k: TokenId)
    requires k in Run(Init(), es).locks
    ensures Run(Init(), es).locks[k] in Run(Init(), es).txns
  {
    RunLocks(Init(), es);
  }

  // ---- revocation ----

  /** Nobody holds a revoked token: revoking waits for whoever does. */
  ghost predicate Barred(s: State, k: TokenId) {
    k in s.db.tokens && s.db.tokens[k].revoked ==> forall x :: x in s.txns ==> Held(s.txns[x]) != Some(k)
  }

  /** What became of a revoked token's row and of the peers enrolled with it: nothing. */
  ghost predicate Frozen(db: Db, z: Db, k: TokenId) {
    k in db.tokens && db.tokens[k].revoked ==>
      k in z.tokens && z.tokens[k] == db.tokens[k] && Enrolled(z.peers, k) == Enrolled(db.peers, k)
  }

  lemma TxnBars(s: State, e: Event, k: TokenId)
    requires Inv(s) && Barred(s, k)
    requires !e.CreateTenant? && !e.CreateToken? && !e.RevokeToken? && !e.Commit?
    ensures Barred(Step(s, e), k) && Step(s, e).db == s.db
  {
    hide Inv, LowestFree, UsedAddrs, AddrTaken, KeyTaken, AddrPending, KeyPending, Enrolled;
  }

  lemma CommitBars(s: State, x: TxnId, k: TokenId)
    requires Inv(s) && Barred(s, k)
    ensures Barred(Step(s, Commit(x)), k) && Frozen(s.db, Step(s, Commit(x)).db, k)
  {
    hide Inv, Enrolled;
    if x in s.txns && s.txns[x].Paid? && s.txns[x].peer.token in s.db.tokens {
      OfAppend(s.db.peers, s.txns[x].peer, 0, k);
    }
  }

  lemma AdminBars(s: State, e: Event, k: TokenId)
    requires Inv(s) && Barred(s, k) && (e.CreateTenant? || e.CreateToken? || e.RevokeToken?)
    ensures Barred(Step(s, e), k) && Frozen(s.db, Step(s, e).db, k)
  {
    hide DbOk, TxnOk, OnePendingPerTenant, Enrolled;
  }

  lemma StepBars(s: State, e: Event, k: TokenId)
    requires Inv(s) && Barred(s, k)
    ensures Barred(Step(s, e), k) && Frozen(s.db, Step(s, e).db, k)
  {
    hide Inv, Barred, Step, Enrolled;
    if e.CreateTenant? || e.CreateToken? || e.RevokeToken? {
      AdminBars(s, e, k);
    } else if e.Commit? {
      CommitBars(s, e.x, k);
    } else {
      TxnBars(s, e, k);
    }
  }

  lemma {:induction false} RunBars(s: State, es: seq<Event>, k: TokenId)
    requires Inv(s) && Barred(s, k)
    ensures Barred(Run(s, es), k) && Frozen(s.db, Run(s, es).db, k)
    decreases |es|
  {
    hide Inv, Barred, Step, Enrolled;
    if es != [] {
      StepKeeps(s, es[0]);
      StepBars(s, es[0], k);
      RunBars(Step(s, es[0]), es[1..], k);
    }
  }

  /** Once a token is revoked, no run adds a peer enrolled with it or touches its row: not even an enrolment that had
      seen it good. */
  lemma RevokedEnrolsNobody(es: seq<Event>, more: seq<Event>, k: TokenId)
    requires k in Run(Init(), es).db.tokens && Run(Init(), es).db.tokens[k].revoked
    ensures var db, z := Run(Init(), es).db, Run(Init(), es + more).db;
      k in z.tokens && z.tokens[k] == db.tokens[k] && Enrolled(z.peers, k) == Enrolled(db.peers, k)
  {
    hide Step, Enrolled, Held;
    Reachable([]);
    RunBars(Init(), es, k);
    Reachable(es);
    RunAppend(Init(), es, more);
    hide Inv, Run;
    RunBars(Run(Init(), es), more, k);
  }

  lemma {:induction false} RunAppend(s: State, es: seq<Event>, fs: seq<Event>)
    ensures Run(s, es + fs) == Run(Run(s, es), fs)
    decreases |es|
  {
    if es == [] {
      assert es + fs == fs;
    } else {
      assert (es + fs)[1..] == es[1..] + fs;
      RunAppend(Step(s, es[0]), es[1..], fs);
    }
  }

  /** Nothing ever removes a peer or changes its address. */
  lemma {:induction false} PeersOnlyGrow(s: State, es: seq<Event>)
    ensures s.db.peers <= Run(s, es).db.peers
    decreases |es|
  {
    if es != [] {
      PeersOnlyGrow(Step(s, es[0]), es[1..]);
    }
  }

  /** The row an open transaction wants to insert would be the next of its tenant. */
  ghost predicate StillNext(db: Db, p: Peer) {
    p.tenant in db.tenants && NextOfTenant(db.tenants[p.tenant], Of(db.peers, p.tenant), p)
  }

  predicate TenantBusy(txns: map<TxnId, Txn>, t: TenantId) {
    exists y :: y in txns && txns[y].Pending().Some? && txns[y].Pending().value.tenant == t
  }

  /** The address would be the next of its tenant. */
  ghost predicate AddrNext(db: Db, p: Peer) {
    && p.tenant in db.tenants && |Of(db.peers, p.tenant)| < Capacity(db.tenants[p.tenant])
    && p.ip == Nth(db.tenants[p.tenant], |Of(db.peers, p.tenant)|)
  }

  /** The unique indexes see the rows of the tenant. */
  lemma TakenInTenant(peers: seq<Peer>, p: Peer)
    ensures AddrTaken(peers, p) <==> exists q :: q in Of(peers, p.tenant) && q.ip == p.ip
    ensures KeyTaken(peers, p) <==> exists q :: q in Of(peers, p.tenant) && q.key == p.key
  {
    NoConflictInTenant(peers, p);
    if AddrTaken(peers, p) {
      var q :| q in peers && SameAddr(p, q);
      OfMembers(peers, p.tenant, q);
    }
    if KeyTaken(peers, p) {
      var q :| q in peers && SameKey(p, q);
      OfMembers(peers, p.tenant, q);
    }
  }

  /** Of a block of addresses the one past it is free, and an earlier one is not. */
  lemma HeldOrNext(cidr: Prefix, mine: seq<Peer>, ip: Addr)
    requires Contiguous(cidr, mine) && OnceNext(cidr, |mine|, ip)
    ensures (exists q :: q in mine && q.ip == ip) <==> !(|mine| < Capacity(cidr) && ip == Nth(cidr, |mine|))
  {
    var m :| 0 <= m <= |mine| && m < Capacity(cidr) && ip == Nth(cidr, m);
    if m < |mine| {
      assert mine[m] in mine;
    }
  }

  lemma TakenIffStale(db: Db, p: Peer)
    requires DbOk(db) && TxnOk(db, Chosen(p))
    ensures AddrTaken(db.peers, p) <==> !AddrNext(db, p)
    ensures StillNext(db, p) <==> AddrNext(db, p) && !KeyTaken(db.peers, p)
  {
    hide AddrTaken, KeyTaken, Of, Enrolled, Contiguous, OnceNext, KeysDistinct, TokenOk, Nth, Capacity;
    TakenInTenant(db.peers, p);
    HeldOrNext(db.tenants[p.tenant], Of(db.peers, p.tenant), p.ip);
  }

  /** An open writer of the tenant has the next address. */
  lemma BusyIffPending(s: State, x: TxnId, p: Peer)
    requires Inv(s) && x in s.txns && s.txns[x] == Chosen(p) && AddrNext(s.db, p)
    ensures AddrPending(s.txns, x, p) <==> TenantBusy(s.txns, p.tenant)
    ensures KeyPending(s.txns, x, p) ==> TenantBusy(s.txns, p.tenant)
  {
    forall y | y in s.txns && s.txns[y].Pending().Some? && s.txns[y].Pending().value.tenant == p.tenant
      ensures y != x && SameAddr(p, s.txns[y].Pending().value)
    {
      assert TxnOk(s.db, s.txns[y]);
    }
  }

  /** INSERT INTO peers, in every reachable state. It fails when the address, chosen from a snapshot, is no longer the
      next one; otherwise it waits exactly while another writer of the tenant is open, and once none is it fails
      exactly when the key is taken. Failing or waiting leaves the tables alone. */
  lemma InsertOutcome(es: seq<Event>, x: TxnId, p: Peer)
    requires x in Run(Init(), es).txns && Run(Init(), es).txns[x] == Chosen(p)
    ensures var s := Run(Init(), es);
      Step(s, Insert(x)) ==
      if !AddrNext(s.db, p) then End(s, x)
      else if TenantBusy(s.txns, p.tenant) then s
      else if KeyTaken(s.db.peers, p) then End(s, x)
      else To(s, x, Inserted(p))
  {
    var s := Run(Init(), es);
    Reachable(es);
    assert TxnOk(s.db, s.txns[x]);
    TakenIffStale(s.db, p);
    if AddrNext(s.db, p) {
      BusyIffPending(s, x, p);
    }
    hide Run, Inv, TxnOk, DbOk, AddrTaken, KeyTaken, AddrPending, KeyPending, TenantBusy, AddrNext;
  }

  /** What one enrolment does when no other transaction is open. */
  function Alone(x: TxnId, k: TokenId, name: string, key: string, now: int): seq<Event> {
    [Begin(x, k, name, key, now), LockToken(x)] + [Choose(x), Insert(x)] + [CountUse(x), Commit(x)]
  }

  /** The token is missing, revoked, expired or used up. */
  ghost predicate Unusable(db: Db, k: TokenId, now: int) {
    k !in db.tokens || db.tokens[k].revoked || db.tokens[k].expires <= now || db.tokens[k].uses >= db.tokens[k].maxUses
  }

  ghost predicate Enrollable(db: Db, k: TokenId, key: string, now: int) {
    && !Unusable(db, k, now)
    && db.tokens[k].tenant in db.tenants
    && |Of(db.peers, db.tokens[k].tenant)| < Capacity(db.tenants[db.tokens[k].tenant])
    && forall q :: q in Of(db.peers, db.tokens[k].tenant) ==> q.key != key
  }

  lemma RunTwo(s: State, a: Event, b: Event)
    ensures Run(s, [a, b]) == Step(Step(s, a), b)
  {
    assert [a, b][1..] == [b] && [b][1..] == [];
    assert Run(Step(s, a), [b]) == Run(Step(Step(s, a), b), []);
  }

  /** Only x is open, holding the lock on k. */
  function Only(db: Db, k: TokenId, x: TxnId, t: Txn): State {
    State(db, map[k := x], map[x := t])
  }

  function Idle(db: Db): State {
    State(db, map[], map[])
  }

  lemma OnlyEnds(db: Db, k: TokenId, x: TxnId, t: Txn)
    ensures End(Only(db, k, x, t), x) == Idle(db)
    ensures forall u :: To(Only(db, k, x, t), x, u) == Only(db, k, x, u)
  {
    assert (map[x := t] - {x}) == map[];
  }

  lemma AloneLocks(db: Db, x: TxnId, k: TokenId, name: string, key: string, now: int)
    ensures Run(Idle(db), [Begin(x, k, name, key, now), LockToken(x)]) ==
      if Unusable(db, k, now) then Idle(db) else Only(db, k, x, Locked(k, name, key))
  {
    RunTwo(Idle(db), Begin(x, k, name, key, now), LockToken(x));
  }

  lemma ChooseIs(s: State, x: TxnId, t: TenantId)
    requires x in s.txns && s.txns[x].Locked? && s.txns[x].token in s.db.tokens
    requires s.db.tokens[s.txns[x].token].tenant == t && t in s.db.tenants
    ensures StepChoose(s, x, s.txns[x]) ==
      match LowestFree(s.db.tenants[t], UsedAddrs(s.db.peers, t)) {
        case None => End(s, x)
        case Some(ip) => To(s, x, Chosen(Peer(t, s.txns[x].name, s.txns[x].key, ip, s.txns[x].token))) }
  {
  }

  lemma AloneChooses(db: Db, x: TxnId, k: TokenId, name: string, key: string)
    requires DbOk(db) && k in db.tokens && db.tokens[k].tenant in db.tenants
    ensures var t := db.tokens[k].tenant; var n := |Of(db.peers, t)|;
      Step(Only(db, k, x, Locked(k, name, key)), Choose(x)) ==
      if n < Capacity(db.tenants[t]) then Only(db, k, x, Chosen(Peer(t, name, key, Nth(db.tenants[t], n), k)))
      else Idle(db)
  {
    var t := db.tokens[k].tenant;
    var s := Only(db, k, x, Locked(k, name, key));
    assert s.db == db && x in s.txns && s.txns[x] == Locked(k, name, key);
    assert Step(s, Choose(x)) == StepChoose(s, x, s.txns[x]);
    ChooseNext(db, t);
    OnlyEnds(db, k, x, Locked(k, name, key));
    hide *;
    ChooseIs(s, x, t);
  }

  lemma AloneInserts(db: Db, x: TxnId, k: TokenId, p: Peer)
    requires DbOk(db) && TxnOk(db, Chosen(p))
    ensures Step(Only(db, k, x, Chosen(p)), Insert(x)) ==
      if StillNext(db, p) then Only(db, k, x, Inserted(p)) else Idle(db)
  {
    TakenIffStale(db, p);
    OnlyEnds(db, k, x, Chosen(p));
    assert !AddrPending(map[x := Chosen(p)], x, p) && !KeyPending(map[x := Chosen(p)], x, p);
  }

  ghost function NewPeer(db: Db, k: TokenId, name: string, key: string, now: int): Peer
    requires Enrollable(db, k, key, now)
  {
    var t := db.tokens[k].tenant;
    Peer(t, name, key, Nth(db.tenants[t], |Of(db.peers, t)|), k)
  }

  lemma AloneWrites(db: Db, x: TxnId, k: TokenId, name: string, key: string, now: int)
    requires DbOk(db) && !Unusable(db, k, now)
    ensures Run(Only(db, k, x, Locked(k, name, key)), [Choose(x), Insert(x)]) ==
      if Enrollable(db, k, key, now) then Only(db, k, x, Inserted(NewPeer(db, k, name, key, now))) else Idle(db)
  {
    assert TokenOk(db, k);
    RunTwo(Only(db, k, x, Locked(k, name, key)), Choose(x), Insert(x));
    AloneChooses(db, x, k, name, key);
    var t := db.tokens[k].tenant;
    var n := |Of(db.peers, t)|;
    if n < Capacity(db.tenants[t]) {
      var p := Peer(t, name, key, Nth(db.tenants[t], n), k);
      assert OnceNext(db.tenants[t], n, p.ip);
      AloneInserts(db, x, k, p);
    }
  }

  lemma IdleStays(db: Db, x: TxnId)
    ensures Run(Idle(db), [Choose(x), Insert(x)]) == Run(Idle(db), [CountUse(x), Commit(x)]) == Idle(db)
  {
    RunTwo(Idle(db), Choose(x), Insert(x));
    RunTwo(Idle(db), CountUse(x), Commit(x));
  }

  lemma AloneCommits(db: Db, k: TokenId, x: TxnId, p: Peer)
    requires p.token == k && k in db.tokens
    ensures Run(Only(db, k, x, Inserted(p)), [CountUse(x), Commit(x)]) == Idle(Enrol(db, p, db.tokens[k].uses + 1))
  {
    RunTwo(Only(db, k, x, Inserted(p)), CountUse(x), Commit(x));
    OnlyEnds(db, k, x, Inserted(p));
    OnlyEnds(Enrol(db, p, db.tokens[k].uses + 1), k, x, Paid(p, db.tokens[k].uses + 1));
  }

  /** What is left of an enrolment that the token let begin. */
  lemma AloneFinishes(db: Db, x: TxnId, k: TokenId, name: string, key: string, now: int)
    requires DbOk(db) && !Unusable(db, k, now)
    ensures Run(Run(Only(db, k, x, Locked(k, name, key)), [Choose(x), Insert(x)]), [CountUse(x), Commit(x)]) ==
      Idle(AfterAlone(db, k, name, key, now))
  {
    hide *;
    AloneWrites(db, x, k, name, key, now);
    AfterAloneIs(db, k, name, key, now);
    if Enrollable(db, k, key, now) {
      AloneCommits(db, k, x, NewPeer(db, k, name, key, now));
    } else {
      IdleStays(db, x);
    }
  }

  /** The tables after one undisturbed enrolment. */
  ghost function AfterAlone(db: Db, k: TokenId, name: string, key: string, now: int): Db {
    if Enrollable(db, k, key, now) then Enrol(db, NewPeer(db, k, name, key, now), db.tokens[k].uses + 1) else db
  }

  lemma AfterAloneIs(db: Db, k: TokenId, name: string, key: string, now: int)
    ensures !Enrollable(db, k, key, now) ==> AfterAlone(db, k, name, key, now) == db
    ensures Enrollable(db, k, key, now) ==>
      && k in db.tokens && NewPeer(db, k, name, key, now).token == k
      && AfterAlone(db, k, name, key, now) == Enrol(db, NewPeer(db, k, name, key, now), db.tokens[k].uses + 1)
  {
    hide Of, Capacity, Nth;
  }

  /** Undisturbed, enrolment succeeds exactly when the token is neither revoked nor expired nor used up, an address is
      left and the key is new, and then it adds one peer with the next address and spends one use; otherwise it
      changes nothing. */
  lemma AloneOutcome(es: seq<Event>, db: Db, x: TxnId, k: TokenId, name: string, key: string, now: int)
    requires Run(Init(), es) == Idle(db)
    ensures Run(Idle(db), Alone(x, k, name, key, now)) == Idle(AfterAlone(db, k, name, key, now))
  {
    Reachable(es);
    var s1 := Run(Idle(db), [Begin(x, k, name, key, now), LockToken(x)]);
    RunThirds(Idle(db), [Begin(x, k, name, key, now), LockToken(x)], [Choose(x), Insert(x)], [CountUse(x), Commit(x)]);
    AloneLocks(db, x, k, name, key, now);
    if Unusable(db, k, now) {
      IdleStays(db, x);
    } else {
      AloneFinishes(db, x, k, name, key, now);
    }
  }

  lemma RunThirds(s: State, a: seq<Event>, b: seq<Event>, c: seq<Event>)
    ensures Run(s, a + b + c) == Run(Run(Run(s, a), b), c)
  {
    RunAppend(s, a + b, c);
    RunAppend(s, a, b);
  }
}
