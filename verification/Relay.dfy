/** The relay as the program keeps it: four maps onto shared sessions, updated in place. */
module Relay {
  import opened Base
  import opened Netip
  import opened Wire
  import opened RelayBook

  class Session {
    const peer: PeerId
    const tenant: TenantId
    const meshIP: IPv4
    const token: Token
    var addr: AddrPort
    var lastSeen: int

    constructor (peer: PeerId, tenant: TenantId, meshIP: IPv4, token: Token)
      ensures this.peer == peer && this.tenant == tenant && this.meshIP == meshIP && this.token == token
      ensures addr == Unset && lastSeen == 0 && Mesh() == MeshKey(tenant, meshIP)
    {
      this.peer, this.tenant, this.meshIP, this.token := peer, tenant, meshIP, token;
      addr, lastSeen := Unset, 0;
    }

    function View(): Sess
      reads this
    {
      Sess(tenant, meshIP, token, addr, lastSeen)
    }

    function Mesh(): MeshKey {
      MeshKey(tenant, meshIP)
    }
  }

  datatype IssueError = NotIPv4 | NoEntropy

  // What each index promises about the sessions registered in byPeer.

  ghost predicate Registered(byPeer: map<PeerId, Session>, s: Session) {
    s.peer in byPeer && byPeer[s.peer] == s
  }

  ghost predicate PeersOk(byPeer: map<PeerId, Session>) {
    forall p :: p in byPeer ==> byPeer[p].peer == p
  }

  /** byToken holds the same sessions as byPeer. */
  ghost predicate TokensOk(byPeer: map<PeerId, Session>, byToken: map<Token, Session>) {
    && (forall p :: p in byPeer ==> byPeer[p].token in byToken && byToken[byPeer[p].token] == byPeer[p])
    && (forall t :: t in byToken ==> byToken[t].token == t && Registered(byPeer, byToken[t]))
  }

  /** Where each registered session currently is. */
  function Places(byPeer: map<PeerId, Session>): map<PeerId, AddrPort>
    reads byPeer.Values`addr
  {
    map p | p in byPeer :: byPeer[p].addr
  }

  /** byAddr is the inverse of the addresses that are set. */
  ghost predicate AddrsOk(byPeer: map<PeerId, Session>, byAddr: map<AddrPort, Session>, at: map<PeerId, AddrPort>) {
    && at.Keys == byPeer.Keys
    && (forall a :: a in byAddr ==> a.At? && Registered(byPeer, byAddr[a]) && at[byAddr[a].peer] == a)
    && (forall p :: p in byPeer && at[p].At? ==> at[p] in byAddr && byAddr[at[p]] == byPeer[p])
  }

  /** byMesh points at registered sessions, each under its own key. */
  ghost predicate MeshOk(byPeer: map<PeerId, Session>, byMesh: map<MeshKey, Session>) {
    forall k :: k in byMesh ==> Registered(byPeer, byMesh[k]) && byMesh[k].Mesh() == k
  }

  lemma ForgetToken(byPeer: map<PeerId, Session>, byToken: map<Token, Session>, s: Session)
    requires PeersOk(byPeer) && TokensOk(byPeer, byToken) && Registered(byPeer, s)
    ensures TokensOk(byPeer - {s.peer}, byToken - {s.token})
  {
  }

  lemma ForgetAddr(byPeer: map<PeerId, Session>, byAddr: map<AddrPort, Session>, s: Session, z: map<AddrPort, Session>)
    requires PeersOk(byPeer) && AddrsOk(byPeer, byAddr, Places(byPeer)) && Registered(byPeer, s)
    requires z == if s.addr in byAddr && byAddr[s.addr] == s then byAddr - {s.addr} else byAddr
    ensures AddrsOk(byPeer - {s.peer}, z, Places(byPeer - {s.peer}))
  {
    forall a | a in z ensures Registered(byPeer - {s.peer}, z[a]) {
      assert byAddr[a] != s;
    }
  }

  lemma ForgetMesh(byPeer: map<PeerId, Session>, byMesh: map<MeshKey, Session>, s: Session, z: map<MeshKey, Session>)
    requires PeersOk(byPeer) && MeshOk(byPeer, byMesh) && Registered(byPeer, s)
    requires z == if s.Mesh() in byMesh && byMesh[s.Mesh()] == s then byMesh - {s.Mesh()} else byMesh
    ensures MeshOk(byPeer - {s.peer}, z)
    ensures z == map k | k in byMesh && byMesh[k].peer != s.peer :: byMesh[k]
  {
  }

  ghost function BookOf(byPeer: map<PeerId, Session>, byMesh: map<MeshKey, Session>): Book
    reads byPeer.Values
  {
    Book(map p | p in byPeer :: byPeer[p].View(), map k | k in byMesh :: byMesh[k].peer)
  }

  /** Replacing a peer's session in the maps is Issue on the table. */
  lemma PlacesAre(byPeer: map<PeerId, Session>)
    ensures Places(byPeer).Keys == byPeer.Keys && forall q :: q in byPeer ==> Places(byPeer)[q] == byPeer[q].addr
  {
  }

  lemma IssueContents(byPeer: map<PeerId, Session>, byMesh: map<MeshKey, Session>, s: Session,
                      kept: map<MeshKey, Session>)
    requires PeersOk(byPeer) && MeshOk(byPeer, byMesh) && s.addr == Unset && s.lastSeen == 0
    requires kept == map k | k in byMesh && byMesh[k].peer != s.peer :: byMesh[k]
    ensures BookOf((byPeer - {s.peer})[s.peer := s], kept[s.Mesh() := s]) ==
      RelayBook.Issue(BookOf(byPeer, byMesh), s.peer, s.Mesh(), s.token)
  {
    var b := BookOf(byPeer, byMesh);
    var z := RelayBook.Issue(b, s.peer, s.Mesh(), s.token);
    assert BookOf((byPeer - {s.peer})[s.peer := s], kept[s.Mesh() := s]).peers == z.peers;
    assert BookOf((byPeer - {s.peer})[s.peer := s], kept[s.Mesh() := s]).holder == z.holder;
  }

  class Relay {
    var byPeer: map<PeerId, Session>
    var byToken: map<Token, Session>
    var byAddr: map<AddrPort, Session>
    var byMesh: map<MeshKey, Session>

    ghost predicate Valid()
      reads this, byPeer.Values
    {
      PeersOk(byPeer) && TokensOk(byPeer, byToken) && AddrsOk(byPeer, byAddr, Places(byPeer)) && MeshOk(byPeer, byMesh)
    }

    /** The one table the four maps stand for. */
    ghost function Contents(): Book
      reads this, byPeer.Values
    {
      BookOf(byPeer, byMesh)
    }

    lemma IndexesOk()
      requires Valid()
      ensures PeersOk(byPeer) && TokensOk(byPeer, byToken)
      ensures AddrsOk(byPeer, byAddr, Places(byPeer)) && MeshOk(byPeer, byMesh)
      ensures Contents() == BookOf(byPeer, byMesh)
    {
    }

    lemma ValidAgain()
      requires PeersOk(byPeer) && TokensOk(byPeer, byToken)
      requires AddrsOk(byPeer, byAddr, Places(byPeer)) && MeshOk(byPeer, byMesh)
      ensures Valid() && Contents() == BookOf(byPeer, byMesh)
    {
    }

    lemma ContentsWf()
      requires Valid()
      ensures Wf(Contents())
    {
    }

    constructor ()
      ensures Valid() && Contents() == EMPTY && byPeer == map[]
    {
      byPeer, byToken, byAddr, byMesh := map[], map[], map[], map[];
    }

    predicate Live(s: Session, now: int)
      reads s
    {
      s.addr.At? && now - s.lastSeen < SESSION_TTL
    }

    /** Drops s from every index that still points at it. */
    method Forget(s: Session)
      requires Valid() && Registered(byPeer, s)
      modifies this
      ensures Valid() && byPeer == old(byPeer) - {s.peer}
      ensures byMesh == map k | k in old(byMesh) && old(byMesh)[k].peer != s.peer :: old(byMesh)[k]
      ensures byToken.Keys == old(byToken).Keys - {s.token}
    {
      hide PeersOk, TokensOk, AddrsOk, MeshOk;
      byToken := byToken - {s.token};
      if s.peer in byPeer && byPeer[s.peer] == s {
        byPeer := byPeer - {s.peer};
      }
      if s.addr in byAddr && byAddr[s.addr] == s {
        byAddr := byAddr - {s.addr};
      }
      if s.Mesh() in byMesh && byMesh[s.Mesh()] == s {
        byMesh := byMesh - {s.Mesh()};
      }
      DropKeeps(old(byPeer), s.peer);
      ForgetToken(old(byPeer), old(byToken), s);
      ForgetAddr(old(byPeer), old(byAddr), s, byAddr);
      ForgetMesh(old(byPeer), old(byMesh), s, byMesh);
    }

    /** relay.go Issue; entropy is what the random source gives, and never a token in use. */
    method Issue(peer: PeerId, tenant: TenantId, meshIP: Addr, entropy: Option<Token>)
      returns (token: Option<Token>, err: Option<IssueError>)
      requires Valid()
      requires entropy.Some? ==> entropy.value !in byToken
      modifies this
      ensures Valid() && fresh(byPeer.Values - old(byPeer.Values))
      ensures err == if !meshIP.V4? then Some(NotIPv4) else if entropy.None? then Some(NoEntropy) else None
      ensures err.Some? ==> token == None && Contents() == old(Contents())
      ensures err.None? ==> token == entropy
      ensures err.None? ==>
        Contents() == RelayBook.Issue(old(Contents()), peer, MeshKey(tenant, meshIP.value), entropy.value)
    {
      if !meshIP.V4? {
        return None, Some(NotIPv4);
      }
      if entropy.None? {
        return None, Some(NoEntropy);
      }
      Install(peer, tenant, meshIP.value, entropy.value);
      return entropy, None;
    }

    /** Forgets the peer's session, if it has one. */
    method Clear(peer: PeerId)
      requires Valid()
      modifies this
      ensures Valid() && byPeer == old(byPeer) - {peer} && byToken.Keys <= old(byToken).Keys
      ensures byMesh == map k | k in old(byMesh) && old(byMesh)[k].peer != peer :: old(byMesh)[k]
    {
      OthersKept(byPeer, byMesh, peer);
      hide PeersOk, TokensOk, AddrsOk, MeshOk;
      if peer in byPeer {
        KnownPeer(byPeer, peer);
        Forget(byPeer[peer]);
      }
    }

    /** A new session takes the place of the peer's earlier one. */
    method Install(peer: PeerId, tenant: TenantId, meshIP: IPv4, token: Token)
      requires Valid() && token !in byToken
      modifies this
      ensures Valid() && fresh(byPeer.Values - old(byPeer.Values))
      ensures Contents() == RelayBook.Issue(old(Contents()), peer, MeshKey(tenant, meshIP), token)
    {
      hide *;
      ghost var p0, m0 := byPeer, byMesh;
      IndexesOk();
      var s := new Session(peer, tenant, meshIP, token);
      Clear(peer);
      IssueContents(p0, m0, s, byMesh);
      assert old(Contents()) == BookOf(p0, m0);
      Enter(s);
    }

    /** Puts a new session, so far nowhere, into the indexes. */
    method Enter(s: Session)
      requires Valid() && s.peer !in byPeer && s.token !in byToken && s.addr == Unset
      modifies `byPeer, `byToken, `byMesh
      ensures Valid() && byPeer == old(byPeer)[s.peer := s] && byMesh == old(byMesh)[s.Mesh() := s]
      ensures Contents() == BookOf(byPeer, byMesh)
    {
      hide *;
      IndexesOk();
      AddKeeps(byPeer, byToken, byAddr, byMesh, s);
      byPeer := byPeer[s.peer := s];
      byToken := byToken[s.token := s];
      byMesh := byMesh[s.Mesh() := s];
      ValidAgain();
    }

    /** s leaves its address. */
    method Leave(s: Session)
      modifies `byAddr
      ensures byAddr ==
        if s.addr in old(byAddr) && old(byAddr)[s.addr] == s then old(byAddr) - {s.addr} else old(byAddr)
    {
      if s.addr in byAddr && byAddr[s.addr] == s {
        byAddr := byAddr - {s.addr};
      }
    }

    /** Whoever is at src, s excepted, is nowhere from now on. */
    method Displace(src: Source, s: Session, ghost at: map<PeerId, AddrPort>)
      requires at.Keys == byPeer.Keys && forall q :: q in byPeer ==> byPeer[q].addr == at[q]
      requires src in byAddr ==> byAddr[src] in byPeer.Values && byAddr[src] != s
      requires forall q :: q in byPeer ==> (at[q] == src <==> src in byAddr && byAddr[src] == byPeer[q])
      modifies byPeer.Values`addr
      ensures forall q :: q in byPeer ==> byPeer[q].addr == if at[q] == src then Unset else at[q]
      ensures s.addr == old(s.addr)
    {
      if src in byAddr {
        byAddr[src].addr := Unset;
      }
    }

    /** s enters src. */
    method Put(s: Session, src: Source, ghost at: map<PeerId, AddrPort>)
      requires Registered(byPeer, s) && at.Keys == byPeer.Keys
      requires forall q :: q in byPeer && q != s.peer ==> byPeer[q] != s
      requires forall q :: q in byPeer ==> byPeer[q].addr == if at[q] == src then Unset else at[q]
      modifies `byAddr, s`addr
      ensures byAddr == old(byAddr)[src := s] && Places(byPeer) == Moved(at, s.peer, src)
    {
      s.addr := src;
      byAddr := byAddr[src := s];
    }

    /** s is at src from now on, and whoever was there is nowhere. */
    method MoveTo(s: Session, src: Source)
      requires Valid() && Registered(byPeer, s) && s.addr != src
      modifies `byAddr, byPeer.Values`addr
      ensures AddrsOk(byPeer, byAddr, Places(byPeer))
      ensures Places(byPeer) == Moved(old(Places(byPeer)), s.peer, src)
    {
      hide *;
      ghost var at := Places(byPeer);
      PlacesAre(byPeer);
      PlacesRead(byPeer, s);
      IndexesOk();
      Leave(s);
      Occupant(byPeer, old(byAddr), at, s, src, byAddr);
      MoveAddr(byPeer, old(byAddr), at, s, src, byAddr);
      Displace(src, s, at);
      Put(s, src, at);
    }

    /** s is at src, whether it was there before or not. */
    method Settle(s: Session, src: Source)
      requires Valid() && Registered(byPeer, s)
      modifies `byAddr, byPeer.Values`addr
      ensures AddrsOk(byPeer, byAddr, Places(byPeer))
      ensures Places(byPeer) == Moved(old(Places(byPeer)), s.peer, src)
    {
      PlacesRead(byPeer, s);
      hide *;
      IndexesOk();
      if s.addr != src {
        MoveTo(s, src);
      } else {
        NotMoved(byPeer, byAddr, Places(byPeer), s, src);
      }
    }

    /** relay.go register. */
    method Register(payload: seq<byte>, src: Source, now: int) returns (ack: Option<Datagram>)
      requires Valid()
      modifies `byAddr, byPeer.Values
      ensures Valid()
      ensures (Contents(), ack) == RelayBook.Register(old(Contents()), payload, src, now)
    {
      if |payload| < RELAY_TOKEN_LEN {
        return None;
      }
      var token := payload[..RELAY_TOKEN_LEN];
      RegisterKnown(byPeer, byToken, byMesh, token);
      RegisterFound(Contents(), payload, src, now);
      assert Contents() == BookOf(byPeer, byMesh);
      hide *;
      if token !in byToken {
        return None;
      }
      ack := Acknowledge(byToken[token], src, now);
    }

    method Acknowledge(s: Session, src: Source, now: int) returns (ack: Option<Datagram>)
      requires Valid() && Registered(byPeer, s)
      modifies `byAddr, byPeer.Values
      ensures Valid() && s.peer in old(Contents()).peers
      ensures Contents() == Place(old(Contents()), s.peer, src, now)
      ensures ack == Some(Datagram(src, Encode(TYPE_RELAY_ACK, s.token)))
    {
      hide *;
      Arrive(s, src, now);
      return Some(Datagram(src, Encode(TYPE_RELAY_ACK, s.token)));
    }

    /** s was heard from src. */
    method Arrive(s: Session, src: Source, now: int)
      requires Valid() && Registered(byPeer, s)
      modifies `byAddr, byPeer.Values
      ensures Valid()
      ensures s.peer in old(Contents()).peers && Contents() == Place(old(Contents()), s.peer, src, now)
    {
      ghost var b, at := Contents(), Places(byPeer);
      BookReads(byPeer, byMesh);
      assert s in byPeer.Values;
      hide *;
      IndexesOk();
      Settle(s, src);
      Noticed(s, src, now, b, at);
    }

    /** s, already at src, was seen now; b is the table before it came. */
    method Noticed(s: Session, src: Source, now: int, ghost b: Book, ghost at: map<PeerId, AddrPort>)
      requires PeersOk(byPeer) && TokensOk(byPeer, byToken)
      requires AddrsOk(byPeer, byAddr, Places(byPeer)) && MeshOk(byPeer, byMesh)
      requires Registered(byPeer, s) && s.peer in byPeer && SameSessions(b, byPeer, byMesh)
      requires b.peers.Keys == byPeer.Keys && at.Keys == byPeer.Keys && Places(byPeer) == Moved(at, s.peer, src)
      requires forall q :: q in byPeer ==> b.peers[q].addr == at[q] && b.peers[q].lastSeen == byPeer[q].lastSeen
      modifies s`lastSeen
      ensures Valid() && Contents() == Place(b, s.peer, src, now)
    {
      hide *;
      Stamp(s, now, b);
      ArriveContents(b, byPeer, byMesh, at, s.peer, src, now);
      ValidAgain();
    }

    method Stamp(s: Session, now: int, ghost b: Book)
      requires Registered(byPeer, s) && PeersOk(byPeer) && b.peers.Keys == byPeer.Keys
      requires forall q :: q in byPeer ==> b.peers[q].lastSeen == byPeer[q].lastSeen
      modifies s`lastSeen
      ensures forall q :: q in byPeer ==> byPeer[q].lastSeen == if q == s.peer then now else b.peers[q].lastSeen
    {
      s.lastSeen := now;
    }

    /** relay.go forward, rewriting the frame in place. */
    method Forward(frame: array<byte>, src: Source, now: int) returns (out: Option<Datagram>)
      requires Valid()
      modifies byPeer.Values`lastSeen, frame
      ensures Valid()
      ensures (Contents(), out) == RelayBook.Forward(old(Contents()), old(frame[..]), src, now)
      ensures frame[..] == if out.Some? then out.value.bytes else old(frame[..])
    {
      if frame.Length <= RELAY_HEADER_LEN {
        return None;
      }
      var dstIP := AddrFrom4(frame[HEADER_LEN..RELAY_HEADER_LEN]);
      assert frame[..][HEADER_LEN..RELAY_HEADER_LEN] == frame[HEADER_LEN..RELAY_HEADER_LEN];
      ghost var b, f := Contents(), frame[..];
      ForwardKnown(byPeer, byAddr, byMesh, src);
      ForwardFound(b, f, src, now);
      hide PeersOk, TokensOk, AddrsOk, MeshOk, RelayBook.Forward, RelayBook.Seen, ByAddr, Destination, AddrFrom4;
      if src !in byAddr || !Live(byAddr[src], now) {
        return None;
      }
      var from := byAddr[src];
      ghost var to0 := Destination(b, from.peer, dstIP, now);
      assert RelayBook.Forward(b, f, src, now) ==
        (RelayBook.Seen(b, from.peer, now),
         if to0.None? then None else Some(Datagram(to0.value, Readdressed(f, from.meshIP))));
      hide *;
      out := Deliver(from, frame, dstIP, now);
    }

    /** Sends a live sender's frame on, if the destination is live. */
    method Deliver(from: Session, frame: array<byte>, dstIP: IPv4, now: int) returns (out: Option<Datagram>)
      requires Valid() && Registered(byPeer, from) && frame.Length > RELAY_HEADER_LEN
      modifies from`lastSeen, frame
      ensures Valid()
      ensures from.peer in old(Contents()).peers && Contents() == RelayBook.Seen(old(Contents()), from.peer, now)
      ensures out == match Destination(old(Contents()), from.peer, dstIP, now) {
                       case None => None
                       case Some(dst) => Some(Datagram(dst, Readdressed(old(frame[..]), from.meshIP))) }
      ensures frame[..] == if out.Some? then out.value.bytes else old(frame[..])
    {
      hide *;
      var to := Seen(from, dstIP, now);
      if to.None? {
        return None;
      }
      Rewrite(frame, from.meshIP);
      return Some(Datagram(to.value, frame[..]));
    }

    /** The sender was heard; where its datagram goes, if anywhere. Looked up in the sender's tenant only. */
    method Seen(from: Session, dstIP: IPv4, now: int) returns (to: Option<AddrPort>)
      requires Valid() && Registered(byPeer, from)
      modifies from`lastSeen
      ensures Valid()
      ensures from.peer in old(Contents()).peers && Contents() == RelayBook.Seen(old(Contents()), from.peer, now)
      ensures to == Destination(old(Contents()), from.peer, dstIP, now)
    {
      ghost var b := Contents();
      BookReads(byPeer, byMesh);
      var k := MeshKey(from.tenant, dstIP);
      MeshKnown(byPeer, byMesh, k, from);
      to := if k !in byMesh || byMesh[k] == from || !Live(byMesh[k], now) then None else Some(byMesh[k].addr);
      hide *;
      IndexesOk();
      Stamp(from, now, b);
      SeenContents(b, byPeer, byMesh, from.peer, now);
      ValidAgain();
    }

    /** The address field of a frame, rewritten in place. */
    method Rewrite(frame: array<byte>, meshIP: IPv4)
      requires frame.Length > RELAY_HEADER_LEN
      modifies frame
      ensures frame[..] == Readdressed(old(frame[..]), meshIP)
    {
      var ip := As4(meshIP);
      forall i | 0 <= i < 4 {
        frame[HEADER_LEN + i] := ip[i];
      }
    }

    /** relay.go HandleFrame. */
    method HandleFrame(frame: array<byte>, src: Source, now: int) returns (out: Option<Datagram>)
      requires Valid()
      modifies this, byPeer.Values, frame
      ensures Valid() && byPeer == old(byPeer)
      ensures (Contents(), out) == Handle(old(Contents()), old(frame[..]), src, now)
    {
      match Decode(frame[..])
      case Frame(typ, payload) =>
        if typ == TYPE_RELAY_REGISTER {
          out := Register(payload, src, now);
        } else if typ == TYPE_RELAY_DATA {
          out := Forward(frame, src, now);
        } else {
          out := None;
        }
      case _ => out := None;
    }
  }


  lemma DropKeeps(byPeer: map<PeerId, Session>, p: PeerId)
    requires PeersOk(byPeer)
    ensures PeersOk(byPeer - {p})
  {
  }

  lemma KnownPeer(byPeer: map<PeerId, Session>, p: PeerId)
    requires PeersOk(byPeer) && p in byPeer
    ensures Registered(byPeer, byPeer[p])
  {
  }

  lemma AddKeeps(byPeer: map<PeerId, Session>, byToken: map<Token, Session>, byAddr: map<AddrPort, Session>,
                 byMesh: map<MeshKey, Session>, s: Session)
    requires PeersOk(byPeer) && TokensOk(byPeer, byToken)
    requires AddrsOk(byPeer, byAddr, Places(byPeer)) && MeshOk(byPeer, byMesh)
    requires s.peer !in byPeer && s.token !in byToken && s.addr == Unset
    ensures PeersOk(byPeer[s.peer := s]) && TokensOk(byPeer[s.peer := s], byToken[s.token := s])
    ensures AddrsOk(byPeer[s.peer := s], byAddr, Places(byPeer[s.peer := s]))
    ensures MeshOk(byPeer[s.peer := s], byMesh[s.Mesh() := s])
  {
  }

  lemma OthersKept(byPeer: map<PeerId, Session>, byMesh: map<MeshKey, Session>, p: PeerId)
    requires MeshOk(byPeer, byMesh)
    ensures p !in byPeer ==>
      byPeer == byPeer - {p} && byMesh == map k | k in byMesh && byMesh[k].peer != p :: byMesh[k]
  {
  }

  function Moved(at: map<PeerId, AddrPort>, p: PeerId, src: AddrPort): map<PeerId, AddrPort> {
    map q | q in at :: if q == p then src else if at[q] == src then Unset else at[q]
  }

  /** Moving s to src, whoever was there going nowhere, keeps the two directions in step. */
  lemma MoveAddr(byPeer: map<PeerId, Session>, byAddr: map<AddrPort, Session>, at: map<PeerId, AddrPort>,
                 s: Session, src: Source, kept: map<AddrPort, Session>)
    requires PeersOk(byPeer) && AddrsOk(byPeer, byAddr, at) && Registered(byPeer, s) && at[s.peer] != src
    requires kept == if at[s.peer] in byAddr && byAddr[at[s.peer]] == s then byAddr - {at[s.peer]} else byAddr
    ensures AddrsOk(byPeer, kept[src := s], Moved(at, s.peer, src))
  {
  }

  /** What the token index answers is what a linear search finds. */
  lemma RegisterKnown(byPeer: map<PeerId, Session>, byToken: map<Token, Session>, byMesh: map<MeshKey, Session>,
                      token: Token)
    requires PeersOk(byPeer) && TokensOk(byPeer, byToken)
    ensures var b := BookOf(byPeer, byMesh);
      if token in byToken
      then Registered(byPeer, byToken[token]) && byToken[token].token == token
        && ByToken(b, token) == Some(byToken[token].peer)
      else ByToken(b, token) == None
  {
    var b := BookOf(byPeer, byMesh);
    forall p | p in b.peers && b.peers[p].token == token ensures token in byToken && p == byToken[token].peer {
      assert byPeer[p].token == token;
    }
    if token in byToken {
      assert b.peers[byToken[token].peer].token == token;
    }
  }

  /** Besides s, only the session byAddr names can be at src. */
  lemma Occupant(byPeer: map<PeerId, Session>, byAddr: map<AddrPort, Session>, at: map<PeerId, AddrPort>,
                 s: Session, src: Source, kept: map<AddrPort, Session>)
    requires PeersOk(byPeer) && AddrsOk(byPeer, byAddr, at) && Registered(byPeer, s) && at[s.peer] != src
    requires kept == if at[s.peer] in byAddr && byAddr[at[s.peer]] == s then byAddr - {at[s.peer]} else byAddr
    ensures s.peer in byPeer && byPeer[s.peer] == s && at.Keys == byPeer.Keys
    ensures src in kept ==> kept[src] in byPeer.Values && kept[src] != s && Registered(byPeer, kept[src])
    ensures forall p :: p in byPeer && p != s.peer ==> byPeer[p] != s
    ensures forall p :: p in byPeer ==> (at[p] == src <==> src in kept && kept[src] == byPeer[p])
  {
  }

  lemma PlacesRead(byPeer: map<PeerId, Session>, s: Session)
    requires Registered(byPeer, s)
    ensures s.peer in Places(byPeer) && Places(byPeer)[s.peer] == s.addr
  {
  }

  /** The unchanging half of each session, as the table records it. */
  ghost predicate SameSessions(b: Book, byPeer: map<PeerId, Session>, byMesh: map<MeshKey, Session>) {
    && b.peers.Keys == byPeer.Keys
    && b.holder == (map k | k in byMesh :: byMesh[k].peer)
    && forall q :: q in byPeer ==>
         && b.peers[q].tenant == byPeer[q].tenant && b.peers[q].meshIP == byPeer[q].meshIP
         && b.peers[q].token == byPeer[q].token
  }

  lemma BookReads(byPeer: map<PeerId, Session>, byMesh: map<MeshKey, Session>)
    ensures SameSessions(BookOf(byPeer, byMesh), byPeer, byMesh)
    ensures Places(byPeer).Keys == byPeer.Keys
    ensures forall q :: q in byPeer ==>
      BookOf(byPeer, byMesh).peers[q].addr == Places(byPeer)[q] == byPeer[q].addr &&
      BookOf(byPeer, byMesh).peers[q].lastSeen == byPeer[q].lastSeen
  {
  }

  /** Nobody else is where s already is. */
  lemma NotMoved(byPeer: map<PeerId, Session>, byAddr: map<AddrPort, Session>, at: map<PeerId, AddrPort>,
                 s: Session, src: Source)
    requires AddrsOk(byPeer, byAddr, at) && Registered(byPeer, s) && at[s.peer] == src
    requires PeersOk(byPeer)
    ensures Moved(at, s.peer, src) == at
  {
  }

  lemma ArriveContents(b: Book, byPeer: map<PeerId, Session>, byMesh: map<MeshKey, Session>, at: map<PeerId, AddrPort>,
                       p: PeerId, src: AddrPort, now: int)
    requires SameSessions(b, byPeer, byMesh) && p in byPeer && at.Keys == byPeer.Keys
    requires forall q :: q in byPeer ==> b.peers[q].addr == at[q]
    requires Places(byPeer) == Moved(at, p, src)
    requires forall q :: q in byPeer ==> byPeer[q].lastSeen == if q == p then now else b.peers[q].lastSeen
    ensures BookOf(byPeer, byMesh) == Place(b, p, src, now)
  {
    forall q | q in byPeer ensures byPeer[q].View() == Place(b, p, src, now).peers[q] {
      assert Places(byPeer)[q] == byPeer[q].addr;
    }
  }

  /** What the address index answers is what a linear search finds. */
  lemma ForwardKnown(byPeer: map<PeerId, Session>, byAddr: map<AddrPort, Session>, byMesh: map<MeshKey, Session>,
                     src: Source)
    requires PeersOk(byPeer) && AddrsOk(byPeer, byAddr, Places(byPeer))
    ensures var b := BookOf(byPeer, byMesh);
      if src in byAddr
      then Registered(byPeer, byAddr[src]) && ByAddr(b, src) == Some(byAddr[src].peer)
        && b.peers[byAddr[src].peer] == byAddr[src].View()
      else ByAddr(b, src) == None
  {
    var b := BookOf(byPeer, byMesh);
    forall p | p in b.peers && b.peers[p].addr == src ensures src in byAddr && p == byAddr[src].peer {
      assert Places(byPeer)[p] == src;
    }
    if src in byAddr {
      assert b.peers[byAddr[src].peer].addr == src;
    }
  }

  lemma MeshKnown(byPeer: map<PeerId, Session>, byMesh: map<MeshKey, Session>, k: MeshKey, from: Session)
    requires PeersOk(byPeer) && MeshOk(byPeer, byMesh) && Registered(byPeer, from)
    ensures var b := BookOf(byPeer, byMesh);
      && from.peer in b.peers && b.peers[from.peer].tenant == from.tenant
      && (k in byMesh <==> k in b.holder)
      && (k in byMesh ==>
           && b.holder[k] == byMesh[k].peer && b.holder[k] in b.peers && b.peers[b.holder[k]] == byMesh[k].View()
           && (byMesh[k] == from <==> b.holder[k] == from.peer))
  {
  }

  lemma SeenContents(b: Book, byPeer: map<PeerId, Session>, byMesh: map<MeshKey, Session>, p: PeerId, now: int)
    requires SameSessions(b, byPeer, byMesh) && p in byPeer
    requires forall q :: q in byPeer ==> b.peers[q].addr == byPeer[q].addr
    requires forall q :: q in byPeer ==> byPeer[q].lastSeen == if q == p then now else b.peers[q].lastSeen
    ensures BookOf(byPeer, byMesh) == RelayBook.Seen(b, p, now)
  {
    forall q | q in byPeer ensures byPeer[q].View() == RelayBook.Seen(b, p, now).peers[q] {
    }
  }
}
