/** The relay as one table of registrations searched linearly: what its four indexes together mean. */
module RelayBook {
  import opened Base
  import opened Netip
  import opened Wire

  const SESSION_TTL: int := 90 * SECOND

  /** Mesh addresses are only unique within a tenant. */
  datatype MeshKey = MeshKey(tenant: TenantId, ip: IPv4)

  datatype Sess = Sess(tenant: TenantId, meshIP: IPv4, token: Token, addr: AddrPort, lastSeen: int) {
    function Mesh(): MeshKey {
      MeshKey(tenant, meshIP)
    }

    predicate Live(now: int) {
      addr.At? && now - lastSeen < SESSION_TTL
    }
  }

  /** holder: who was issued a mesh key last, if still registered with it. */
  datatype Book = Book(peers: map<PeerId, Sess>, holder: map<MeshKey, PeerId>)

  const EMPTY := Book(map[], map[])

  datatype Datagram = Datagram(dst: AddrPort, bytes: seq<byte>)

  /** A UDP source always is an address. */
  type Source = a: AddrPort | a.At? witness At(V4(0), 0)

  ghost predicate TokensDistinct(peers: map<PeerId, Sess>) {
    forall p, q :: p in peers && q in peers && p != q ==> peers[p].token != peers[q].token
  }

  ghost predicate AddrsDistinct(peers: map<PeerId, Sess>) {
    forall p, q :: p in peers && q in peers && p != q && peers[p].addr.At? ==> peers[p].addr != peers[q].addr
  }

  ghost predicate HoldersOk(b: Book) {
    forall k :: k in b.holder ==> b.holder[k] in b.peers && b.peers[b.holder[k]].Mesh() == k
  }

  ghost predicate Wf(b: Book) {
    TokensDistinct(b.peers) && AddrsDistinct(b.peers) && HoldersOk(b)
  }

  /** Every registered peer is found under its mesh key. */
  ghost predicate MeshTotal(b: Book) {
    forall p :: p in b.peers ==> b.peers[p].Mesh() in b.holder && b.holder[b.peers[p].Mesh()] == p
  }

  predicate KeyFree(b: Book, p: PeerId, k: MeshKey) {
    forall q :: q in b.peers && q != p ==> b.peers[q].Mesh() != k
  }

  predicate TokenFresh(b: Book, token: Token) {
    forall q :: q in b.peers ==> b.peers[q].token != token
  }

  // ---- operations ----

  function Issue(b: Book, p: PeerId, k: MeshKey, token: Token): Book {
    var kept := map j | j in b.holder && b.holder[j] != p :: b.holder[j];
    Book(b.peers[p := Sess(k.tenant, k.ip, token, Unset, 0)], kept[k := p])
  }

  ghost function ByToken(b: Book, token: Token): Option<PeerId> {
    if p :| p in b.peers && b.peers[p].token == token then Some(p) else None
  }

  ghost function ByAddr(b: Book, a: AddrPort): Option<PeerId> {
    if p :| p in b.peers && b.peers[p].addr == a then Some(p) else None
  }

  /** p is now at src; whoever was there is nowhere. */
  function Place(b: Book, p: PeerId, src: AddrPort, now: int): Book
    requires p in b.peers
  {
    b.(peers := map q | q in b.peers ::
         if q == p then b.peers[q].(addr := src, lastSeen := now)
         else if b.peers[q].addr == src then b.peers[q].(addr := Unset)
         else b.peers[q])
  }

  ghost function Register(b: Book, payload: seq<byte>, src: Source, now: int): (Book, Option<Datagram>) {
    if |payload| < RELAY_TOKEN_LEN then (b, None)
    else
      var token := payload[..RELAY_TOKEN_LEN];
      match ByToken(b, token)
      case None => (b, None)
      case Some(p) => (Place(b, p, src, now), Some(Datagram(src, Encode(TYPE_RELAY_ACK, token))))
  }

  function Seen(b: Book, p: PeerId, now: int): Book
    requires p in b.peers
  {
    b.(peers := b.peers[p := b.peers[p].(lastSeen := now)])
  }

  /** The frame with its address field rewritten. */
  function Readdressed(frame: seq<byte>, ip: IPv4): seq<byte>
    requires |frame| >= RELAY_HEADER_LEN
  {
    frame[..HEADER_LEN] + As4(ip) + frame[RELAY_HEADER_LEN..]
  }

  /** Where p's datagram for a mesh address goes: to whoever holds it in p's tenant, if that is another live peer. */
  function Destination(b: Book, p: PeerId, ip: IPv4, now: int): Option<AddrPort>
    requires p in b.peers
  {
    var k := MeshKey(b.peers[p].tenant, ip);
    if k !in b.holder || b.holder[k] == p || b.holder[k] !in b.peers || !b.peers[b.holder[k]].Live(now) then None
    else Some(b.peers[b.holder[k]].addr)
  }

  ghost function Forward(b: Book, frame: seq<byte>, src: Source, now: int): (Book, Option<Datagram>) {
    if |frame| <= RELAY_HEADER_LEN then (b, None)
    else
      match ByAddr(b, src)
      case None => (b, None)
      case Some(p) =>
        if !b.peers[p].Live(now) then (b, None)
        else
          match Destination(b, p, AddrFrom4(frame[HEADER_LEN..RELAY_HEADER_LEN]), now)
          case None => (Seen(b, p, now), None)
          case Some(dst) => (Seen(b, p, now), Some(Datagram(dst, Readdressed(frame, b.peers[p].meshIP))))
  }

  lemma RegisterFound(b: Book, payload: seq<byte>, src: Source, now: int)
    requires |payload| >= RELAY_TOKEN_LEN
    ensures var token := payload[..RELAY_TOKEN_LEN];
      var p := ByToken(b, token);
      Register(b, payload, src, now) ==
        if p.None? then (b, None) else (Place(b, p.value, src, now), Some(Datagram(src, Encode(TYPE_RELAY_ACK, token))))
  {
  }

  lemma ForwardFound(b: Book, frame: seq<byte>, src: Source, now: int)
    requires |frame| > RELAY_HEADER_LEN
    ensures var p := ByAddr(b, src);
      Forward(b, frame, src, now) ==
        if p.None? || !b.peers[p.value].Live(now) then (b, None)
        else
          var to := Destination(b, p.value, AddrFrom4(frame[HEADER_LEN..RELAY_HEADER_LEN]), now);
          (Seen(b, p.value, now),
           if to.None? then None else Some(Datagram(to.value, Readdressed(frame, b.peers[p.value].meshIP))))
  {
  }

  /** One datagram reaching the relay. */
  ghost function Handle(b: Book, frame: seq<byte>, src: Source, now: int): (Book, Option<Datagram>) {
    match Decode(frame)
    case Frame(typ, payload) =>
      if typ == TYPE_RELAY_REGISTER then Register(b, payload, src, now)
      else if typ == TYPE_RELAY_DATA then Forward(b, frame, src, now)
      else (b, None)
    case _ => (b, None)
  }

  // ---- what every operation keeps ----

  lemma IssueKeeps(b: Book, p: PeerId, k: MeshKey, token: Token)
    requires Wf(b) && TokenFresh(b, token)
    ensures Wf(Issue(b, p, k, token))
    ensures MeshTotal(b) && KeyFree(b, p, k) ==> MeshTotal(Issue(b, p, k, token))
  {
  }

  /** A registration just issued stands under its token and mesh key, is nowhere yet, so nothing is routed from or to
      it, and no other registration is touched. */
  lemma IssueState(b: Book, p: PeerId, k: MeshKey, token: Token)
    requires Wf(b) && TokenFresh(b, token)
    ensures var z := Issue(b, p, k, token);
      && z.peers.Keys == b.peers.Keys + {p} && (forall q :: q in b.peers && q != p ==> z.peers[q] == b.peers[q])
      && ByToken(z, token) == Some(p) && k in z.holder && z.holder[k] == p
      && z.peers[p].tenant == k.tenant && z.peers[p].meshIP == k.ip
      && forall src, ip, now, q :: !Route(z, src, ip, now, p, q) && !Route(z, src, ip, now, q, p)
  {
    IssueKeeps(b, p, k, token);
    FoundByToken(Issue(b, p, k, token), p);
  }

  /** Changing only where and when sessions were seen keeps the rest. */
  lemma SameIdentity(b: Book, z: Book)
    requires Wf(b) && z.peers.Keys == b.peers.Keys && z.holder == b.holder
    requires forall q :: q in b.peers ==>
      z.peers[q].Mesh() == b.peers[q].Mesh() && z.peers[q].token == b.peers[q].token
    ensures TokensDistinct(z.peers) && HoldersOk(z)
    ensures MeshTotal(b) ==> MeshTotal(z)
  {
    assert forall q :: q in z.peers <==> q in b.peers;
  }

  /** Whoever was at src has left it before p arrives. */
  lemma PlaceAddrs(b: Book, p: PeerId, src: Source, now: int)
    requires AddrsDistinct(b.peers) && p in b.peers
    ensures AddrsDistinct(Place(b, p, src, now).peers)
    ensures Place(b, p, src, now).peers.Keys == b.peers.Keys
  {
    var z := Place(b, p, src, now).peers;
    forall q, r | q in z && r in z && q != r && z[q].addr.At? ensures z[q].addr != z[r].addr {
      assert q in b.peers && r in b.peers;
    }
  }

  lemma PlaceKeeps(b: Book, p: PeerId, src: Source, now: int)
    requires Wf(b) && p in b.peers
    ensures Wf(Place(b, p, src, now))
    ensures MeshTotal(b) ==> MeshTotal(Place(b, p, src, now))
  {
    PlaceAddrs(b, p, src, now);
    hide AddrsDistinct, TokensDistinct, HoldersOk, MeshTotal;
    SameIdentity(b, Place(b, p, src, now));
  }

  lemma SeenKeeps(b: Book, p: PeerId, now: int)
    requires Wf(b) && p in b.peers
    ensures Wf(Seen(b, p, now))
    ensures MeshTotal(b) ==> MeshTotal(Seen(b, p, now))
  {
    SameIdentity(b, Seen(b, p, now));
  }

  lemma HandleKeeps(b: Book, frame: seq<byte>, src: Source, now: int)
    requires Wf(b)
    ensures Wf(Handle(b, frame, src, now).0)
    ensures MeshTotal(b) ==> MeshTotal(Handle(b, frame, src, now).0)
  {
    match Decode(frame)
    case Frame(typ, payload) =>
      if typ == TYPE_RELAY_REGISTER && |payload| >= RELAY_TOKEN_LEN {
        var p := ByToken(b, payload[..RELAY_TOKEN_LEN]);
        if p.Some? {
          PlaceKeeps(b, p.value, src, now);
        }
      } else if typ == TYPE_RELAY_DATA && ByAddr(b, src).Some? {
        SeenKeeps(b, ByAddr(b, src).value, now);
      }
    case _ =>
  }

  /** A linear search of a well-formed table has at most one answer. */
  lemma FoundByToken(b: Book, p: PeerId)
    requires Wf(b) && p in b.peers
    ensures ByToken(b, b.peers[p].token) == Some(p)
    ensures b.peers[p].addr.At? ==> ByAddr(b, b.peers[p].addr) == Some(p)
  {
  }

  // ---- forwarding, as a search ----

  /** p may send from src to q: both seen less than 90 seconds ago, in one tenant, and q has the mesh address asked
      for. */
  predicate Route(b: Book, src: Source, ip: IPv4, now: int, p: PeerId, q: PeerId) {
    && p in b.peers && q in b.peers && p != q
    && b.peers[p].addr == src && now - b.peers[p].lastSeen < 90 * SECOND
    && b.peers[q].addr.At? && now - b.peers[q].lastSeen < 90 * SECOND
    && b.peers[q].tenant == b.peers[p].tenant && b.peers[q].meshIP == ip
  }

  lemma RouteForwards(b: Book, frame: seq<byte>, src: Source, now: int, p: PeerId, q: PeerId)
    requires Wf(b) && MeshTotal(b) && |frame| > RELAY_HEADER_LEN
    requires Route(b, src, AddrFrom4(frame[HEADER_LEN..RELAY_HEADER_LEN]), now, p, q)
    ensures p in b.peers && q in b.peers && b.peers[q].addr != src
    ensures Forward(b, frame, src, now) ==
      (Seen(b, p, now), Some(Datagram(b.peers[q].addr, Readdressed(frame, b.peers[p].meshIP))))
  {
    hide AddrFrom4, Readdressed;
    FoundByToken(b, p);
  }

  lemma ForwardsRoute(b: Book, frame: seq<byte>, src: Source, now: int) returns (p: PeerId, q: PeerId)
    requires Wf(b) && |frame| > RELAY_HEADER_LEN && Forward(b, frame, src, now).1.Some?
    ensures Route(b, src, AddrFrom4(frame[HEADER_LEN..RELAY_HEADER_LEN]), now, p, q)
  {
    hide AddrFrom4, Readdressed;
    p := ByAddr(b, src).value;
    q := b.holder[MeshKey(b.peers[p].tenant, AddrFrom4(frame[HEADER_LEN..RELAY_HEADER_LEN]))];
  }

  /** The relay sends exactly when a search of the whole table finds a live sender at src and another live peer of
      its tenant with the address asked for. What it sends goes to that peer, never back to src, and differs from
      what came in only in the four address bytes, now the sender's. Only the sender's lastSeen changes. */
  lemma ForwardIsRouting(b: Book, frame: seq<byte>, src: Source, now: int)
    requires Wf(b) && MeshTotal(b) && |frame| > RELAY_HEADER_LEN
    ensures var ip := AddrFrom4(frame[HEADER_LEN..RELAY_HEADER_LEN]);
      var out := Forward(b, frame, src, now).1;
      && (out.Some? <==> exists p, q :: Route(b, src, ip, now, p, q))
      && forall p, q :: Route(b, src, ip, now, p, q) ==>
           && out == Some(Datagram(b.peers[q].addr, Readdressed(frame, b.peers[p].meshIP)))
           && out.value.dst != src
           && Forward(b, frame, src, now).0 == Seen(b, p, now)
  {
    hide AddrFrom4, Readdressed, Forward, Wf, MeshTotal, Route;
    var ip := AddrFrom4(frame[HEADER_LEN..RELAY_HEADER_LEN]);
    forall p, q | Route(b, src, ip, now, p, q)
      ensures p in b.peers && q in b.peers && b.peers[q].addr != src
      ensures Forward(b, frame, src, now) ==
        (Seen(b, p, now), Some(Datagram(b.peers[q].addr, Readdressed(frame, b.peers[p].meshIP))))
    {
      RouteForwards(b, frame, src, now, p, q);
    }
    if Forward(b, frame, src, now).1.Some? {
      var p, q := ForwardsRoute(b, frame, src, now);
    }
  }

  predicate Sender(b: Book, src: Source, now: int, p: PeerId) {
    p in b.peers && b.peers[p].addr == src && now - b.peers[p].lastSeen < 90 * SECOND
  }

  /** A data frame marks its sender, if seen less than 90 seconds ago, as seen now, and changes nothing else. */
  lemma ForwardState(b: Book, frame: seq<byte>, src: Source, now: int)
    requires Wf(b) && |frame| > RELAY_HEADER_LEN
    ensures var z := Forward(b, frame, src, now).0;
      forall p :: Sender(b, src, now, p) ==>
        z.holder == b.holder && z.peers == b.peers[p := b.peers[p].(lastSeen := now)]
    ensures (forall p :: !Sender(b, src, now, p)) ==> Forward(b, frame, src, now) == (b, None)
  {
    forall p | Sender(b, src, now, p) ensures Forward(b, frame, src, now).0 == Seen(b, p, now) {
      FoundByToken(b, p);
    }
    if ByAddr(b, src).Some? && (forall p :: !Sender(b, src, now, p)) {
      assert !Sender(b, src, now, ByAddr(b, src).value);
    }
  }

  /** Whoever has the token is at src from now on, and whoever else was there is nowhere; that is acknowledged to src,
      and nothing else changes. If nobody has it, nothing happens at all. */
  lemma RegisterState(b: Book, payload: seq<byte>, src: Source, now: int)
    requires Wf(b) && |payload| >= RELAY_TOKEN_LEN
    ensures var token, (z, out) := payload[..RELAY_TOKEN_LEN], Register(b, payload, src, now);
      if forall p :: p in b.peers ==> b.peers[p].token != token then (z, out) == (b, None)
      else
        && out == Some(Datagram(src, Encode(TYPE_RELAY_ACK, token)))
        && z.holder == b.holder && z.peers.Keys == b.peers.Keys
        && forall q :: q in b.peers ==>
             z.peers[q] ==
             if b.peers[q].token == token then b.peers[q].(addr := src, lastSeen := now)
             else if b.peers[q].addr == src then b.peers[q].(addr := Unset)
             else b.peers[q]
  {
    RegisterFound(b, payload, src, now);
    hide Encode;
  }

  /** Readdressing touches the four address bytes and nothing else. */
  lemma ReaddressedBytes(frame: seq<byte>, ip: IPv4)
    requires |frame| >= RELAY_HEADER_LEN
    ensures var f := Readdressed(frame, ip);
      && |f| == |frame|
      && f[HEADER_LEN..RELAY_HEADER_LEN] == As4(ip)
      && forall i :: 0 <= i < |frame| && !(HEADER_LEN <= i < RELAY_HEADER_LEN) ==> f[i] == frame[i]
  {
  }

  // ---- runs ----

  /** The table, and every token ever issued: random tokens do not repeat. */
  datatype Ledger = Ledger(book: Book, used: set<Token>)

  datatype Op = Issued(peer: PeerId, key: MeshKey, token: Token) | Received(frame: seq<byte>, src: Source, now: int)

  ghost function Apply(l: Ledger, op: Op): Ledger {
    match op
    case Issued(p, k, token) =>
      if token in l.used then l else Ledger(Issue(l.book, p, k, token), l.used + {token})
    case Received(frame, src, now) => l.(book := Handle(l.book, frame, src, now).0)
  }

  ghost function RunOps(l: Ledger, ops: seq<Op>): Ledger
    decreases |ops|
  {
    if ops == [] then l else RunOps(Apply(l, ops[0]), ops[1..])
  }

  /** A registration attempt with the token. */
  predicate Registers(frame: seq<byte>, token: Token) {
    && |frame| >= HEADER_LEN + RELAY_TOKEN_LEN && frame[0] == VERSION && frame[1] == TYPE_RELAY_REGISTER
    && frame[HEADER_LEN..HEADER_LEN + RELAY_TOKEN_LEN] == token
  }

  predicate Acknowledges(d: Datagram, token: Token) {
    Decode(d.bytes) == Frame(TYPE_RELAY_ACK, token)
  }

  ghost predicate LedgerOk(l: Ledger) {
    Wf(l.book) && forall p :: p in l.book.peers ==> l.book.peers[p].token in l.used
  }

  lemma HandleTokens(b: Book, frame: seq<byte>, src: Source, now: int)
    ensures var z := Handle(b, frame, src, now).0;
      z.peers.Keys == b.peers.Keys && z.holder == b.holder &&
      forall p :: p in b.peers ==> z.peers[p].token == b.peers[p].token && z.peers[p].Mesh() == b.peers[p].Mesh()
  {
    hide Sess.Live, AddrFrom4, Readdressed, Pow2;
  }

  /** Handling a frame puts nobody anywhere but where the frame came from. */
  lemma HandleAddrs(b: Book, frame: seq<byte>, src: Source, now: int)
    ensures var z := Handle(b, frame, src, now).0;
      forall p :: p in z.peers ==> p in b.peers && z.peers[p].addr in {b.peers[p].addr, Unset, src}
  {
    hide Sess.Live, AddrFrom4, Readdressed, Pow2;
  }

  lemma ApplyKeeps(l: Ledger, op: Op)
    requires LedgerOk(l)
    ensures LedgerOk(Apply(l, op)) && l.used <= Apply(l, op).used
  {
    hide Wf;
    match op
    case Issued(p, k, token) =>
      if token !in l.used {
        IssueKeeps(l.book, p, k, token);
      }
    case Received(frame, src, now) =>
      HandleKeeps(l.book, frame, src, now);
      HandleTokens(l.book, frame, src, now);
  }

  /** An acknowledgement names the token of a registered peer. */
  lemma AckIsCurrent(b: Book, frame: seq<byte>, src: Source, now: int, token: Token)
    requires Handle(b, frame, src, now).1.Some? && Acknowledges(Handle(b, frame, src, now).1.value, token)
    ensures exists p :: p in b.peers && b.peers[p].token == token
  {
    var payload := Decode(frame).payload;
    if Decode(frame).typ == TYPE_RELAY_REGISTER {
      DecodeEncode(TYPE_RELAY_ACK, payload[..RELAY_TOKEN_LEN]);
    }
  }

  /** Once a token is no peer's any more, it stays so in every later run: registering with it changes nothing and
      it is never acknowledged again. */
  lemma {:induction false} RetiredForever(l: Ledger, ops: seq<Op>, token: Token, frame: seq<byte>, src: Source,
                                          now: int)
    requires LedgerOk(l) && token in l.used && TokenFresh(l.book, token)
    ensures var b := RunOps(l, ops).book;
      && TokenFresh(b, token)
      && (Registers(frame, token) ==> Handle(b, frame, src, now) == (b, None))
      && (Handle(b, frame, src, now).1.Some? ==> !Acknowledges(Handle(b, frame, src, now).1.value, token))
    decreases |ops|
  {
    if ops == [] {
      var out := Handle(l.book, frame, src, now).1;
      if out.Some? && Acknowledges(out.value, token) {
        AckIsCurrent(l.book, frame, src, now, token);
      }
      if Registers(frame, token) {
        assert frame[HEADER_LEN..][..RELAY_TOKEN_LEN] == token;
      }
    } else {
      ApplyKeeps(l, ops[0]);
      StaysRetired(l, ops[0], token);
      RetiredForever(Apply(l, ops[0]), ops[1..], token, frame, src, now);
    }
  }

  lemma StaysRetired(l: Ledger, op: Op, token: Token)
    requires LedgerOk(l) && token in l.used && TokenFresh(l.book, token)
    ensures TokenFresh(Apply(l, op).book, token)
  {
    if op.Received? {
      HandleTokens(l.book, op.frame, op.src, op.now);
    }
  }

  /** Replacing a registration is what retires its token. */
  lemma IssueRetires(l: Ledger, p: PeerId, k: MeshKey, token: Token)
    requires LedgerOk(l) && p in l.book.peers && token !in l.used
    ensures var prior := l.book.peers[p].token;
      prior in Apply(l, Issued(p, k, token)).used && TokenFresh(Apply(l, Issued(p, k, token)).book, prior)
  {
  }

  /** Each peer is only ever issued its own mesh key, as the peers table's unique addresses give it. */
  ghost predicate AtHome(ops: seq<Op>, home: map<PeerId, MeshKey>) {
    forall i :: 0 <= i < |ops| && ops[i].Issued? ==> ops[i].peer in home && ops[i].key == home[ops[i].peer]
  }

  ghost predicate HomesDistinct(home: map<PeerId, MeshKey>) {
    forall p, q :: p in home && q in home && p != q ==> home[p] != home[q]
  }

  ghost predicate Housed(b: Book, home: map<PeerId, MeshKey>) {
    forall p :: p in b.peers ==> p in home && b.peers[p].Mesh() == home[p]
  }

  lemma {:induction false} HousedForever(l: Ledger, ops: seq<Op>, home: map<PeerId, MeshKey>)
    requires LedgerOk(l) && MeshTotal(l.book) && Housed(l.book, home)
    requires HomesDistinct(home) && AtHome(ops, home)
    ensures LedgerOk(RunOps(l, ops)) && MeshTotal(RunOps(l, ops).book)
    decreases |ops|
  {
    if ops != [] {
      var z := Apply(l, ops[0]);
      ApplyKeeps(l, ops[0]);
      var op := ops[0];
      if op.Received? {
        HandleKeeps(l.book, op.frame, op.src, op.now);
        HandleTokens(l.book, op.frame, op.src, op.now);
      } else if op.token !in l.used {
        assert KeyFree(l.book, op.peer, op.key);
        IssueKeeps(l.book, op.peer, op.key, op.token);
      }
      assert Housed(z.book, home);
      HousedForever(z, ops[1..], home);
    }
  }

  /** From an empty relay, with distinct mesh addresses per tenant, every registered peer is always found by its own. */
  lemma MeshAlwaysTotal(ops: seq<Op>, home: map<PeerId, MeshKey>)
    requires HomesDistinct(home) && AtHome(ops, home)
    ensures Wf(RunOps(Ledger(EMPTY, {}), ops).book) && MeshTotal(RunOps(Ledger(EMPTY, {}), ops).book)
  {
    HousedForever(Ledger(EMPTY, {}), ops, home);
  }
}
