/** What the control plane's socket and a node's socket answer to one datagram, and why answering ends. */
module Protocol {
  import opened Base
  import opened Netip
  import opened Wire
  import opened RelayBook

  // ---- the control plane's socket: prober and relay behind one address ----

  /** A read into the prober's buffer cuts off what does not fit. */
  function Cut(frame: seq<byte>): seq<byte> {
    if |frame| > MAX_FRAME_LEN then frame[..MAX_FRAME_LEN] else frame
  }

  /** The source as both sockets use it. */
  function Unmapped(src: Source): Source {
    At(Unmap(src.addr), src.port)
  }

  /** prober.go answerBinding. */
  function AnswerBinding(payload: seq<byte>, src: Source): Option<Datagram> {
    if |payload| < BINDING_LEN then None
    else Some(Datagram(src, AppendAddrPort(Encode(TYPE_BINDING_RESPONSE, payload[..NONCE_LEN]), src.addr, src.port)))
  }

  /** One turn of prober.go readLoop, without what it does to the waiters. relay says whether one is set. */
  ghost function Serve(b: Book, relay: bool, datagram: seq<byte>, from: Source, now: int): (Book, Option<Datagram>) {
    var frame, src := Cut(datagram), Unmapped(from);
    match Decode(frame)
    case Frame(typ, payload) =>
      if typ == TYPE_BINDING_REQUEST then (b, AnswerBinding(payload, src))
      else if relay && (typ == TYPE_RELAY_REGISTER || typ == TYPE_RELAY_DATA) then Handle(b, frame, src, now)
      else (b, None)
    case _ => (b, None)
  }

  // ---- a node's socket ----

  /** A datagram for WireGuard, and the endpoint it came from. */
  datatype Inbound = Inbound(bytes: seq<byte>, from: Target)

  /** relay.go unwrapRelayed. */
  function Unwrapped(relay: AddrPort, frame: seq<byte>, from: AddrPort): Option<Inbound> {
    if |frame| <= RELAY_HEADER_LEN || frame[1] != TYPE_RELAY_DATA || from != relay then None
    else Some(Inbound(frame[RELAY_HEADER_LEN..], Via(AddrFrom4(frame[HEADER_LEN..RELAY_HEADER_LEN]))))
  }

  /** What reaches WireGuard. */
  function Delivered(relay: AddrPort, frame: seq<byte>, from: AddrPort): Option<Inbound> {
    if frame == [] then None
    else if frame[0] == VERSION then Unwrapped(relay, frame, from)
    else Some(Inbound(frame, Target.Direct(from)))
  }

  /** wireguard.go answerProbe: the one frame a node answers. */
  function Echo(frame: seq<byte>, from: AddrPort): Option<Datagram> {
    match Decode(frame)
    case Frame(typ, payload) =>
      if typ == TYPE_PROBE && |payload| >= NONCE_LEN
      then Some(Datagram(from, Encode(TYPE_PROBE_REPLY, payload[..NONCE_LEN])))
      else None
    case _ => None
  }

  /** What a node sends back: nothing for what reaches WireGuard. */
  function Answer(relay: AddrPort, frame: seq<byte>, from: AddrPort): Option<Datagram> {
    if frame == [] || frame[0] != VERSION || Unwrapped(relay, frame, from).Some? then None else Echo(frame, from)
  }

  // ---- replies to requests ----

  datatype Kind = Probes | Bindings

  /** What a frame says as a reply: whose nonce it carries and the address it brings, none for a probe. */
  function Reply(kind: Kind, frame: seq<byte>): Option<(Nonce, AddrPort)> {
    match Decode(frame)
    case Frame(typ, payload) =>
      if kind.Probes? && typ == TYPE_PROBE_REPLY && |payload| >= NONCE_LEN then Some((payload[..NONCE_LEN], Unset))
      else if kind.Bindings? && typ == TYPE_BINDING_RESPONSE && |payload| >= BINDING_LEN
      then Some((payload[..NONCE_LEN], ParseAddrPort(payload[NONCE_LEN..])))
      else None
    case _ => None
  }

  // ---- answering ends ----

  datatype Host = Server | Node

  function TypeOf(frame: seq<byte>): Option<byte> {
    match Decode(frame)
    case Frame(typ, _) => Some(typ)
    case _ => None
  }

  /** Whether a datagram can make the host it goes to send one: requests can, replies cannot, and relayed data only
      on its way to the relay. */
  function Rank(h: Host, frame: seq<byte>): nat {
    match TypeOf(frame)
    case None => 0
    case Some(typ) =>
      if h.Server? && typ in {TYPE_BINDING_REQUEST, TYPE_RELAY_REGISTER, TYPE_RELAY_DATA} then 1
      else if h.Node? && typ == TYPE_PROBE then 1
      else 0
  }

  /** Every registered address is a node's. */
  predicate NodesRegistered(b: Book, hosts: map<AddrPort, Host>) {
    forall p :: p in b.peers && b.peers[p].addr in hosts ==> hosts[b.peers[p].addr].Node?
  }

  lemma EncodeRank(h: Host, typ: byte, payload: seq<byte>)
    ensures TypeOf(Encode(typ, payload)) == Some(typ)
    ensures typ !in {TYPE_BINDING_REQUEST, TYPE_RELAY_REGISTER, TYPE_RELAY_DATA, TYPE_PROBE} ==>
      Rank(h, Encode(typ, payload)) == 0
  {
    DecodeEncode(typ, payload);
  }

  /** A node's answer is no longer than what it answers, and ranks lower at any host. */
  lemma AnswerDescends(relay: AddrPort, frame: seq<byte>, from: AddrPort, h: Host)
    ensures var out := Answer(relay, frame, from);
      out.Some? ==>
        out.value.dst == from && |out.value.bytes| <= |frame| && Rank(h, out.value.bytes) < Rank(Node, frame)
  {
    if Answer(relay, frame, from).Some? {
      EncodeRank(h, TYPE_PROBE_REPLY, Decode(frame).payload[..NONCE_LEN]);
    }
  }

  lemma BindingDescends(payload: seq<byte>, src: Source, h: Host)
    requires |payload| >= BINDING_LEN
    ensures var d := AnswerBinding(payload, src).value;
      && d.dst == src && |d.bytes| == HEADER_LEN + BINDING_LEN && Rank(h, d.bytes) == 0
      && Decode(d.bytes) == Frame(TYPE_BINDING_RESPONSE, AppendAddrPort(payload[..NONCE_LEN], src.addr, src.port))
  {
    var d := AnswerBinding(payload, src).value;
    var p := AppendAddrPort(payload[..NONCE_LEN], src.addr, src.port);
    assert d.bytes == Encode(TYPE_BINDING_RESPONSE, p);
    EncodeRank(h, TYPE_BINDING_RESPONSE, p);
    DecodeEncode(TYPE_BINDING_RESPONSE, p);
  }

  predicate Acks(d: Datagram, src: Source) {
    d.dst == src && TypeOf(d.bytes) == Some(TYPE_RELAY_ACK)
  }

  predicate ForwardsTo(d: Datagram, b: Book) {
    TypeOf(d.bytes) == Some(TYPE_RELAY_DATA) && d.dst.At? && exists p :: p in b.peers && b.peers[p].addr == d.dst
  }

  lemma RelayDescends(b: Book, frame: seq<byte>, src: Source, now: int)
    ensures var out := Handle(b, frame, src, now).1;
      out.Some? ==>
        && |out.value.bytes| <= |frame| && TypeOf(frame).Some?
        && (if TypeOf(frame) == Some(TYPE_RELAY_REGISTER) then Acks(out.value, src) else ForwardsTo(out.value, b))
        && (TypeOf(frame) == Some(TYPE_RELAY_REGISTER) || TypeOf(frame) == Some(TYPE_RELAY_DATA))
  {
    if Handle(b, frame, src, now).1.Some? {
      if Decode(frame).typ == TYPE_RELAY_REGISTER {
        DecodeEncode(TYPE_RELAY_ACK, Decode(frame).payload[..RELAY_TOKEN_LEN]);
      } else {
        var p := ByAddr(b, src).value;
        ReaddressedBytes(frame, b.peers[p].meshIP);
        hide AddrFrom4, As4, Readdressed;
      }
    }
  }

  /** The control plane's socket sends at most one datagram for one received, no longer than it, and of lower rank
      wherever it goes, as long as only nodes' addresses are registered. */
  lemma ServeDescends(b: Book, relay: bool, datagram: seq<byte>, from: Source, now: int, hosts: map<AddrPort, Host>)
    requires NodesRegistered(b, hosts)
    ensures var out := Serve(b, relay, datagram, from, now).1;
      out.Some? ==>
        && |out.value.bytes| <= |datagram|
        && (out.value.dst in hosts ==> Rank(hosts[out.value.dst], out.value.bytes) < Rank(Server, Cut(datagram)))
  {
    var frame, src := Cut(datagram), Unmapped(from);
    var out := Serve(b, relay, datagram, from, now).1;
    if out.Some? {
      if Decode(frame).typ == TYPE_BINDING_REQUEST {
        var payload := Decode(frame).payload;
        BindingDescends(payload, src, Server);
        BindingDescends(payload, src, Node);
      } else {
        RelayDescends(b, frame, src, now);
        hide Handle;
        if out.value.dst in hosts {
          var h := hosts[out.value.dst];
          assert TypeOf(frame) == Some(TYPE_RELAY_DATA) ==> h.Node?;
        }
      }
    }
  }

  lemma CutRank(frame: seq<byte>)
    ensures Rank(Server, Cut(frame)) == Rank(Server, frame)
  {
  }
}
