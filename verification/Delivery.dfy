/** A datagram through the relay and back, over any traffic the relay serves meanwhile. */
module Delivery {
  import opened Base
  import opened Netip
  import opened Wire
  import opened RelayBook
  import opened Protocol
  import opened MeshBind

  // ---- directly ----

  /** WireGuard's messages begin with their type, 1 to 4, so never with the version byte of a frame. */
  predicate IsWireGuard(buf: seq<byte>) {
    buf != [] && buf[0] != 0
  }

  /** What a node sends to an endpoint by hand of Send, all writes succeeding. */
  function Outgoing(relay: AddrPort, ep: Target, buf: seq<byte>): Datagram {
    if ep.Via? then Wraps(relay, ep.meshIP, [buf])[0] else Plain(ep.addr, [buf])[0]
  }

  /** A datagram sent to a node's address is handed to WireGuard there as it is, with the address it came from as its
      endpoint, and nothing is answered beside it; what WireGuard sends to that endpoint goes back to that address and
      is handed on likewise. from and back are the sources the two sockets see. */
  lemma DirectDelivery(relay: AddrPort, other: AddrPort, to: AddrPort, from: Source, buf: seq<byte>,
                       back: Source, answer: seq<byte>)
    requires IsWireGuard(buf) && IsWireGuard(answer)
    ensures var d := Outgoing(relay, Target.Direct(to), buf);
      var there := Delivered(other, d.bytes, Unmapped(from));
      && d.dst == to && there == Some(Inbound(buf, Target.Direct(Unmapped(from))))
      && Answer(other, d.bytes, Unmapped(from)) == None
      && var r := Outgoing(other, there.value.from, answer);
         && r.dst == Unmapped(from)
         && Delivered(relay, r.bytes, Unmapped(back)) == Some(Inbound(answer, Target.Direct(Unmapped(back))))
  {
    hide Unmapped;
    assert Plain(to, [buf])[0] == Datagram(to, buf);
    assert Plain(Unmapped(from), [answer])[0] == Datagram(Unmapped(from), answer);
  }

  /** Relayed data is taken from the relay alone: a stranger's data frame reaches nobody and is not answered. */
  lemma OnlyTheRelayRelays(relay: AddrPort, frame: seq<byte>, from: AddrPort)
    requires TypeOf(frame) == Some(TYPE_RELAY_DATA) && from != relay
    ensures Delivered(relay, frame, from) == None && Answer(relay, frame, from) == None
  {
  }

  // ---- through the relay ----

  /** Both registered and seen less than 90 seconds ago, in one tenant, and not the same. */
  predicate Connected(b: Book, now: int, p: PeerId, q: PeerId) {
    && p in b.peers && q in b.peers && p != q && b.peers[p].tenant == b.peers[q].tenant
    && b.peers[p].addr.At? && now - b.peers[p].lastSeen < 90 * SECOND
    && b.peers[q].addr.At? && now - b.peers[q].lastSeen < 90 * SECOND
  }

  /** What the relay sends on, and what is left inside, for the first |buf| bytes it could read. */
  lemma WrappedFrame(ip: IPv4, src: IPv4, buf: seq<byte>)
    ensures var f := Cut(Wrapped(ip, buf)); var body := f[RELAY_HEADER_LEN..];
      && Decode(f) == Frame(TYPE_RELAY_DATA, f[HEADER_LEN..])
      && AddrFrom4(f[HEADER_LEN..RELAY_HEADER_LEN]) == ip
      && body == Wrapped(ip, buf)[RELAY_HEADER_LEN..|f|] == buf[..|body|]
      && |body| == (if |buf| > MAX_FRAME_LEN - RELAY_HEADER_LEN then MAX_FRAME_LEN - RELAY_HEADER_LEN else |buf|)
      && Readdressed(f, src)[RELAY_HEADER_LEN..] == body
      && Readdressed(f, src)[0] == VERSION && Readdressed(f, src)[1] == TYPE_RELAY_DATA
      && AddrFrom4(Readdressed(f, src)[HEADER_LEN..RELAY_HEADER_LEN]) == src
  {
    var w, f := Wrapped(ip, buf), Cut(Wrapped(ip, buf));
    assert w[HEADER_LEN..RELAY_HEADER_LEN] == As4(ip) && w[RELAY_HEADER_LEN..] == buf;
    assert f[HEADER_LEN..RELAY_HEADER_LEN] == As4(ip);
    Addr4RoundTrip(ip);
    Addr4RoundTrip(src);
    assert Readdressed(f, src)[HEADER_LEN..RELAY_HEADER_LEN] == As4(src);
  }

  /** What q's node hands to WireGuard when the node at from sends buf to q's mesh address through the relay. */
  ghost function Carried(b: Book, relay: AddrPort, from: Source, ip: IPv4, buf: seq<byte>, now: int)
    : Option<(AddrPort, Inbound)>
  {
    var out := Serve(b, true, Wrapped(ip, buf), from, now).1;
    if out.None? then None
    else
      match Delivered(relay, out.value.bytes, relay)
      case None => None
      case Some(m) => Some((out.value.dst, m))
  }

  /** A relayed datagram reaches the peer it is for, with the sender's mesh address as its endpoint: all of it
      exactly when it is not empty and fits a frame, otherwise cut to what fits, and an empty one not at all. */
  lemma RelayedDelivery(b: Book, relay: AddrPort, p: PeerId, q: PeerId, from: Source, buf: seq<byte>, now: int)
    requires Wf(b) && MeshTotal(b) && Connected(b, now, p, q) && Unmapped(from) == b.peers[p].addr
    ensures var room := MAX_FRAME_LEN - RELAY_HEADER_LEN;
      Carried(b, relay, from, b.peers[q].meshIP, buf, now) ==
      if buf == [] then None
      else Some((b.peers[q].addr, Inbound(if |buf| <= room then buf else buf[..room], Via(b.peers[p].meshIP))))
    ensures Serve(b, true, Wrapped(b.peers[q].meshIP, buf), from, now).0 ==
      if buf == [] then b else Seen(b, p, now)
  {
    hide Wf, MeshTotal, Serve, Delivered, Readdressed, Wrapped, Cut, Seen, Unmapped;
    Relays(b, p, q, from, buf, now);
    assert buf != [] ==> Serve(b, true, Wrapped(b.peers[q].meshIP, buf), from, now).0 == Seen(b, p, now);
    if buf != [] {
      Unwraps(relay, b.peers[q].meshIP, b.peers[p].meshIP, buf);
    }
  }

  lemma Unwraps(relay: AddrPort, ip: IPv4, src: IPv4, buf: seq<byte>)
    requires buf != []
    ensures var room := MAX_FRAME_LEN - RELAY_HEADER_LEN;
      |Cut(Wrapped(ip, buf))| >= RELAY_HEADER_LEN &&
      Delivered(relay, Readdressed(Cut(Wrapped(ip, buf)), src), relay) ==
        Some(Inbound(if |buf| <= room then buf else buf[..room], Via(src)))
  {
    WrappedFrame(ip, src, buf);
    hide Decode, AddrFrom4;
    assert buf[..|buf|] == buf;
  }

  lemma Relays(b: Book, p: PeerId, q: PeerId, from: Source, buf: seq<byte>, now: int)
    requires Wf(b) && MeshTotal(b) && Connected(b, now, p, q) && Unmapped(from) == b.peers[p].addr
    ensures var f := Cut(Wrapped(b.peers[q].meshIP, buf));
      |f| >= RELAY_HEADER_LEN && Serve(b, true, Wrapped(b.peers[q].meshIP, buf), from, now) ==
        if buf == [] then (b, None)
        else (Seen(b, p, now), Some(Datagram(b.peers[q].addr, Readdressed(f, b.peers[p].meshIP))))
  {
    var ip := b.peers[q].meshIP;
    var f := Cut(Wrapped(ip, buf));
    WrappedFrame(ip, 0, buf);
    ServesData(b, Wrapped(ip, buf), from, now);
    hide AddrFrom4, As4, Wrapped, Readdressed, Encode, Serve, Decode, Cut, Unmapped;
    if buf != [] {
      assert Route(b, b.peers[p].addr, ip, now, p, q);
      hide Wf, MeshTotal, Forward, Connected;
      ForwardIsRouting(b, f, b.peers[p].addr, now);
    } else {
      TooShort(b, f, b.peers[p].addr, now);
    }
  }

  lemma ServesData(b: Book, frame: seq<byte>, src: Source, now: int)
    requires Decode(Cut(frame)).Frame? && Decode(Cut(frame)).typ == TYPE_RELAY_DATA
    ensures Serve(b, true, frame, src, now) == Forward(b, Cut(frame), Unmapped(src), now)
  {
    hide Forward, Cut, Decode;
  }

  lemma TooShort(b: Book, frame: seq<byte>, src: Source, now: int)
    requires |frame| <= RELAY_HEADER_LEN
    ensures Forward(b, frame, src, now) == (b, None)
  {
  }

  // ---- over any traffic ----

  /** What reaches the control plane: a node asks for a token, anyone's datagram arrives, or it restarts. */
  datatype Traffic =
    | Grant(peer: PeerId, key: MeshKey, token: Token)
    | Arrival(datagram: seq<byte>, from: Source, now: int)
    | Restart

  ghost function Next(l: Ledger, e: Traffic): Ledger {
    match e
    case Grant(p, k, t) => Apply(l, Issued(p, k, t))
    case Arrival(datagram, from, now) => l.(book := Serve(l.book, true, datagram, from, now).0)
    case Restart => l.(book := RelayBook.EMPTY)
  }

  ghost function Run(l: Ledger, es: seq<Traffic>): Ledger
    decreases |es|
  {
    if es == [] then l else Run(Next(l, es[0]), es[1..])
  }

  const START := Ledger(RelayBook.EMPTY, {})

  /** Tokens are issued under each peer's own mesh key, as the peers table has it. */
  ghost predicate GrantsHome(es: seq<Traffic>, home: map<PeerId, MeshKey>) {
    forall i :: 0 <= i < |es| && es[i].Grant? ==> es[i].peer in home && es[i].key == home[es[i].peer]
  }

  /** Every registered address is as a socket shows it. */
  ghost predicate AddrsUnmapped(b: Book) {
    forall p :: p in b.peers && b.peers[p].addr.At? ==> Unmapped(b.peers[p].addr) == b.peers[p].addr
  }

  ghost predicate Sound(l: Ledger, home: map<PeerId, MeshKey>) {
    LedgerOk(l) && MeshTotal(l.book) && Housed(l.book, home) && AddrsUnmapped(l.book)
  }

  lemma UnmappedTwice(a: Source)
    ensures Unmapped(Unmapped(a)) == Unmapped(a)
  {
  }

  /** Whatever the socket serves changes the table as the relay's handling does. */
  lemma ServeHandles(b: Book, datagram: seq<byte>, from: Source, now: int)
    ensures Serve(b, true, datagram, from, now).0 == Handle(b, Cut(datagram), Unmapped(from), now).0
  {
    hide Register, Forward, Unmapped, Cut;
  }

  lemma ArrivalKeeps(l: Ledger, datagram: seq<byte>, from: Source, now: int, home: map<PeerId, MeshKey>)
    requires Sound(l, home)
    ensures Sound(Next(l, Arrival(datagram, from, now)), home)
  {
    var f, src := Cut(datagram), Unmapped(from);
    ServeHandles(l.book, datagram, from, now);
    ApplyKeeps(l, Received(f, src, now));
    HandleKeeps(l.book, f, src, now);
    HandleTokens(l.book, f, src, now);
    HandleAddrs(l.book, f, src, now);
    UnmappedTwice(from);
    hide Serve, Handle, Wf, MeshTotal, Unmapped, Cut;
  }

  lemma HomeFree(b: Book, p: PeerId, home: map<PeerId, MeshKey>)
    requires Housed(b, home) && HomesDistinct(home) && p in home
    ensures KeyFree(b, p, home[p])
  {
  }

  lemma IssueHoused(b: Book, p: PeerId, t: Token, home: map<PeerId, MeshKey>)
    requires Housed(b, home) && AddrsUnmapped(b) && p in home
    ensures Housed(Issue(b, p, home[p], t), home) && AddrsUnmapped(Issue(b, p, home[p], t))
  {
    hide Unmapped;
  }

  lemma GrantKeeps(l: Ledger, p: PeerId, k: MeshKey, t: Token, home: map<PeerId, MeshKey>)
    requires Sound(l, home) && HomesDistinct(home) && p in home && k == home[p]
    ensures Sound(Next(l, Grant(p, k, t)), home)
  {
    hide Unmapped, Wf, MeshTotal, Housed, HomesDistinct, AddrsUnmapped, Issue, KeyFree;
    ApplyKeeps(l, Issued(p, k, t));
    if t !in l.used {
      HomeFree(l.book, p, home);
      IssueKeeps(l.book, p, k, t);
      IssueHoused(l.book, p, t, home);
    }
  }

  lemma {:induction false} SoundForever(l: Ledger, es: seq<Traffic>, home: map<PeerId, MeshKey>)
    requires Sound(l, home) && HomesDistinct(home) && GrantsHome(es, home)
    ensures Sound(Run(l, es), home)
    decreases |es|
  {
    if es != [] {
      var e := es[0];
      match e {
        case Grant(p, k, t) => GrantKeeps(l, p, k, t, home);
        case Arrival(datagram, from, now) => ArrivalKeeps(l, datagram, from, now, home);
        case Restart =>
      }
      hide LedgerOk, MeshTotal, Housed, AddrsUnmapped, Serve, Apply;
      SoundForever(Next(l, e), es[1..], home);
    }
  }

  /** Over any traffic, restarts included: every registered peer is found by its mesh address, tokens and addresses are
      distinct, and addresses are as sockets show them, so a peer that writes from where it is registered is known. */
  lemma AlwaysSound(es: seq<Traffic>, home: map<PeerId, MeshKey>)
    requires HomesDistinct(home) && GrantsHome(es, home)
    ensures var b := Run(START, es).book;
      && Wf(b) && MeshTotal(b) && Housed(b, home)
      && forall p :: p in b.peers && b.peers[p].addr.At? ==> Unmapped(b.peers[p].addr) == b.peers[p].addr
  {
    StartSound(home);
    SoundForever(START, es, home);
  }

  /** The answer to a relayed datagram, sent to the endpoint it came with, reaches whoever sent it wherever they are by
      then, whatever the relay served in between, as long as both are live when it is sent. from and back are the
      sources the control plane sees. */
  lemma ReplyComesBack(before: seq<Traffic>, between: seq<Traffic>, home: map<PeerId, MeshKey>, relay: AddrPort,
                       p: PeerId, q: PeerId, from: Source, buf: seq<byte>, now: int,
                       back: Source, answer: seq<byte>, later: int)
    requires HomesDistinct(home) && GrantsHome(before, home) && GrantsHome(between, home)
    requires 0 < |buf| && 0 < |answer| <= MAX_FRAME_LEN - RELAY_HEADER_LEN
    requires var b := Run(START, before).book; Connected(b, now, p, q) && Unmapped(from) == b.peers[p].addr
    requires var l := Run(START, before);
      var z := Run(Next(l, Arrival(Wrapped(l.book.peers[q].meshIP, buf), from, now)), between).book;
      Connected(z, later, p, q) && Unmapped(back) == z.peers[q].addr
    ensures var l := Run(START, before);
      var z := Run(Next(l, Arrival(Wrapped(l.book.peers[q].meshIP, buf), from, now)), between).book;
      var there := Carried(l.book, relay, from, l.book.peers[q].meshIP, buf, now);
      && there.Some? && there.value.0 == l.book.peers[q].addr && there.value.1.from.Via?
      && Carried(z, relay, back, there.value.1.from.meshIP, answer, later) ==
           Some((z.peers[p].addr, Inbound(answer, Via(l.book.peers[q].meshIP))))
  {
    hide *;
    var l := Run(START, before);
    ConnectedIn(l.book, now, p, q);
    var e := Arrival(Wrapped(l.book.peers[q].meshIP, buf), from, now);
    var z := Run(Next(l, e), between);
    StartSound(home);
    SoundForever(START, before, home);
    ArrivalKeeps(l, e.datagram, from, now, home);
    SoundForever(Next(l, e), between, home);
    SoundIs(l, home);
    SoundIs(z, home);
    BothWays(l.book, z.book, home, relay, p, q, from, buf, now, back, answer, later);
  }

  lemma ConnectedIn(b: Book, now: int, p: PeerId, q: PeerId)
    requires Connected(b, now, p, q)
    ensures p in b.peers && q in b.peers
  {
  }

  lemma StartSound(home: map<PeerId, MeshKey>)
    ensures Sound(START, home)
  {
  }

  lemma SoundIs(l: Ledger, home: map<PeerId, MeshKey>)
    requires Sound(l, home)
    ensures Wf(l.book) && MeshTotal(l.book) && Housed(l.book, home)
  {
  }

  /** The same on two tables that give the peers the same mesh keys. */
  lemma BothWays(b: Book, z: Book, home: map<PeerId, MeshKey>, relay: AddrPort, p: PeerId, q: PeerId, from: Source,
                 buf: seq<byte>, now: int, back: Source, answer: seq<byte>, later: int)
    requires Wf(b) && MeshTotal(b) && Housed(b, home) && Wf(z) && MeshTotal(z) && Housed(z, home)
    requires Connected(b, now, p, q) && Unmapped(from) == b.peers[p].addr
    requires Connected(z, later, p, q) && Unmapped(back) == z.peers[q].addr
    requires 0 < |buf| && 0 < |answer| <= MAX_FRAME_LEN - RELAY_HEADER_LEN
    ensures var there := Carried(b, relay, from, b.peers[q].meshIP, buf, now);
      && there.Some? && there.value.0 == b.peers[q].addr && there.value.1.from.Via?
      && Carried(z, relay, back, there.value.1.from.meshIP, answer, later) ==
           Some((z.peers[p].addr, Inbound(answer, Via(b.peers[q].meshIP))))
  {
    hide Carried, Wf, MeshTotal, Sess.Live, Unmapped, Serve, Wrapped, RelayBook.Seen;
    RelayedDelivery(b, relay, p, q, from, buf, now);
    RelayedDelivery(z, relay, q, p, back, answer, later);
    assert z.peers[p].Mesh() == home[p] == b.peers[p].Mesh();
    assert z.peers[q].Mesh() == home[q] == b.peers[q].Mesh();
  }
}
