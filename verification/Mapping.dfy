/** What requests bring back: the address an honest prober sees, the echo of a node. */
module Mapping {
  import opened Base
  import opened Netip
  import opened Wire
  import opened RelayBook
  import opened Protocol
  import opened Exchange

  /** One datagram that reached the control plane's socket, and the state it was served in. */
  datatype Seen = Seen(datagram: seq<byte>, from: Source, book: Book, relaySet: bool, now: int)

  /** What the socket sent because of it. */
  ghost function Served(s: Seen): Option<Datagram> {
    Serve(s.book, s.relaySet, s.datagram, s.from, s.now).1
  }

  /** The network drops, delays, repeats and reorders, but whatever arrives from the prober's address the prober sent:
      a probe of its own, or the answer to something it saw. */
  ghost predicate Honest(es: seq<Event>, server: AddrPort, seen: set<Seen>) {
    forall j :: 0 <= j < |es| && es[j].Arrive? && es[j].from == server ==>
      TypeOf(es[j].frame) == Some(TYPE_PROBE) || Sent(seen, es[j].frame)
  }

  ghost predicate Sent(seen: set<Seen>, bytes: seq<byte>) {
    exists s :: s in seen && Served(s).Some? && Served(s).value.bytes == bytes
  }

  predicate Requests(frame: seq<byte>, nonce: Nonce) {
    match Decode(frame)
    case Frame(typ, payload) => typ == TYPE_BINDING_REQUEST && |payload| >= BINDING_LEN && payload[..NONCE_LEN] == nonce
    case _ => false
  }

  /** An address as 18 bytes can carry it: without its zone. */
  function Carriable(a: Source): Source {
    At(if a.addr.V6? then V6(a.addr.value, "") else a.addr, a.port)
  }

  lemma UnmapOnce(src: Source)
    ensures Unmap(Unmapped(src).addr) == Unmapped(src).addr
  {
  }

  /** A binding response tells the source of the request it answers. */
  lemma ResponseTells(s: Seen, nonce: Nonce, v: AddrPort)
    requires s.from.port < 65536 && Served(s).Some? && Reply(Bindings, Served(s).value.bytes) == Some((nonce, v))
    ensures Requests(Cut(s.datagram), nonce) && v == Carriable(Unmapped(s.from))
  {
    var f, src := Cut(s.datagram), Unmapped(s.from);
    UnmapOnce(s.from);
    if Decode(f).typ == TYPE_BINDING_REQUEST {
      var payload := Decode(f).payload;
      BindingDescends(payload, src, Server);
      ParseAppended(payload[..NONCE_LEN], src.addr, src.port, []);
      var p := AppendAddrPort(payload[..NONCE_LEN], src.addr, src.port);
      assert p + [] == p && p[..NONCE_LEN] == payload[..NONCE_LEN];
    } else {
      RelayDescends(s.book, f, src, s.now);
    }
  }

  lemma HeardIsSent(es: seq<Event>, m: nat, nonce: Nonce, server: AddrPort, v: AddrPort, seen: set<Seen>, j: nat)
    requires Heard(Bindings, es, m, nonce, server, v, j) && Honest(es, server, seen)
    ensures exists s :: s in seen && Served(s).Some? && Reply(Bindings, Served(s).value.bytes) == Some((nonce, v))
  {
    hide Served, ParseAddrPort;
    assert TypeOf(es[j].frame) == Some(TYPE_BINDING_RESPONSE);
    assert Sent(seen, es[j].frame);
  }

  /** Whatever address is heard from an honest prober in answer to a nonce is the one the prober saw on a request
      carrying that nonce. */
  lemma MappingIsSeen(es: seq<Event>, m: nat, nonce: Nonce, server: AddrPort, v: AddrPort, seen: set<Seen>)
    requires WasHeard(Bindings, es, m, nonce, server, v) && Honest(es, server, seen)
    requires forall s :: s in seen ==> s.from.port < 65536
    ensures exists s :: s in seen && Requests(Cut(s.datagram), nonce) && v == Carriable(Unmapped(s.from))
  {
    hide Heard, Served, Reply, Requests, Unmapped, Honest;
    var j: nat :| Heard(Bindings, es, m, nonce, server, v, j);
    HeardIsSent(es, m, nonce, server, v, seen, j);
    var s :| s in seen && Served(s).Some? && Reply(Bindings, Served(s).value.bytes) == Some((nonce, v));
    ResponseTells(s, nonce, v);
  }

  // ---- there and back ----

  /** An answer from the peer that was asked ends up in the channel of the request on the table. */
  lemma AnswerCompletes(kind: Kind, s: State, i: Id, nonce: Nonce, v: AddrPort, frame: seq<byte>)
    requires Inv(s) && nonce in s.table && s.table[nonce] == i && Reply(kind, frame) == Some((nonce, v))
    ensures i in s.asks
    ensures var z := Step(kind, Step(kind, s, Arrive(frame, s.asks[i].peer)), Complete(i));
      i in z.asks && z.asks[i].channel == [v] && nonce !in z.table
  {
    assert AskOk(s, i);
    hide Reply, Inv;
  }

  /** Any request DiscoverMapping sends, reaching the control plane from anywhere, is answered there, and the answer
      puts that source into the request's channel, as far as 18 bytes can carry it. */
  lemma MappingRoundTrip(s: State, i: Id, nonce: Nonce, server: AddrPort, sent: seq<Datagram>, k: nat,
                         b: Book, relaySet: bool, from: Source, now: int)
    requires Inv(s) && nonce in s.table && s.table[nonce] == i && s.asks[i].peer == server
    requires Only(sent, BindingRequest(server, nonce)) && k < |sent| && from.port < 65536
    ensures sent[k].dst == server
    ensures var out := Serve(b, relaySet, sent[k].bytes, from, now).1;
      && out.Some? && out.value.dst == Unmapped(from)
      && Reply(Bindings, out.value.bytes) == Some((nonce, Carriable(Unmapped(from))))
      && var z := Step(Bindings, Step(Bindings, s, Arrive(out.value.bytes, server)), Complete(i));
         i in z.asks && z.asks[i].channel == [Carriable(Unmapped(from))]
  {
    var src := Unmapped(from);
    RequestServed(server, nonce, b, relaySet, from, now);
    var d := Serve(b, relaySet, sent[k].bytes, from, now).1.value;
    AnswerCompletes(Bindings, s, i, nonce, Carriable(src), d.bytes);
  }

  lemma RequestServed(server: AddrPort, nonce: Nonce, b: Book, relaySet: bool, from: Source, now: int)
    requires from.port < 65536
    ensures var out := Serve(b, relaySet, BindingRequest(server, nonce).bytes, from, now).1;
      && out.Some? && out.value.dst == Unmapped(from)
      && Reply(Bindings, out.value.bytes) == Some((nonce, Carriable(Unmapped(from))))
  {
    var payload, src := nonce + Zeros(ADDR_PORT_LEN), Unmapped(from);
    DecodeEncode(TYPE_BINDING_REQUEST, payload);
    BindingDescends(payload, src, Server);
    assert payload[..NONCE_LEN] == nonce;
    UnmapOnce(from);
    ParseAppended(nonce, src.addr, src.port, []);
    var p := AppendAddrPort(nonce, src.addr, src.port);
    assert p + [] == p && p[..NONCE_LEN] == nonce;
  }

  /** Any probe Reachable sends is answered by a node it reaches, to where it came from, and the answer, coming from the
      address that was probed, completes the probe. */
  lemma ProbeRoundTrip(s: State, i: Id, nonce: Nonce, target: AddrPort, sent: seq<Datagram>, k: nat,
                       relay: AddrPort, from: AddrPort)
    requires Inv(s) && nonce in s.table && s.table[nonce] == i && s.asks[i].peer == target
    requires Only(sent, Datagram(target, Encode(TYPE_PROBE, nonce))) && k < |sent|
    ensures sent[k].dst == target && Delivered(relay, sent[k].bytes, from) == None
    ensures var out := Protocol.Answer(relay, sent[k].bytes, from);
      && out.Some? && out.value.dst == from && Reply(Probes, out.value.bytes) == Some((nonce, Unset))
      && var z := Step(Probes, Step(Probes, s, Arrive(out.value.bytes, target)), Complete(i));
         i in z.asks && z.asks[i].channel == [Unset]
  {
    EchoOf(nonce, relay, from);
    AnswerCompletes(Probes, s, i, nonce, Unset, Protocol.Answer(relay, sent[k].bytes, from).value.bytes);
  }

  lemma EchoOf(nonce: Nonce, relay: AddrPort, from: AddrPort)
    ensures var probe := Encode(TYPE_PROBE, nonce); var out := Protocol.Answer(relay, probe, from);
      && Delivered(relay, probe, from) == None
      && out.Some? && out.value.dst == from && Reply(Probes, out.value.bytes) == Some((nonce, Unset))
  {
    DecodeEncode(TYPE_PROBE, nonce);
    DecodeEncode(TYPE_PROBE_REPLY, nonce);
    assert nonce[..NONCE_LEN] == nonce;
  }
}
