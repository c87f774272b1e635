/** The prober's socket as its read loop serves it: binding requests, relay frames, probe replies. */
module Prober {
  import opened Base
  import opened Netip
  import opened Wire
  import opened RelayBook
  import opened Protocol
  import Exchange
  import Relay

  class Prober {
    const waiters: Exchange.Exchange
    var relay: Relay.Relay?

    constructor (waiters: Exchange.Exchange)
      requires waiters.kind.Probes?
      ensures this.waiters == waiters && relay == null
    {
      this.waiters, relay := waiters, null;
    }

    /** prober.go SetRelay. */
    method SetRelay(r: Relay.Relay)
      modifies this
      ensures relay == r
    {
      relay := r;
    }

    /** prober.go answerBinding: never more than was received. */
    method AnswerBinding(payload: seq<byte>, src: Source) returns (out: Option<Datagram>)
      ensures out == Protocol.AnswerBinding(payload, src)
    {
      if |payload| < BINDING_LEN {
        return None;
      }
      var reply := Encode(TYPE_BINDING_RESPONSE, payload[..NONCE_LEN]);
      reply := AppendAddrPort(reply, src.addr, src.port);
      return Some(Datagram(src, reply));
    }

    /** The relay's part of a turn. */
    method Hand(r: Relay.Relay, frame: seq<byte>, src: Source, now: int) returns (out: Option<Datagram>)
      requires r.Valid()
      modifies r, r.byPeer.Values
      ensures r.Valid() && r.byPeer == old(r.byPeer)
      ensures (r.Contents(), out) == Handle(old(r.Contents()), frame, src, now)
    {
      hide *;
      var buf := new byte[|frame|](i requires 0 <= i < |frame| => frame[i]);
      assert buf[..] == frame;
      out := r.HandleFrame(buf, src, now);
    }

    /** One turn of prober.go readLoop; others says what happens between taking a waiter and closing its channel. */
    method Turn(datagram: seq<byte>, from: Source, now: int, others: seq<Exchange.Event>)
      returns (out: Option<Datagram>)
      requires waiters.kind.Probes? && waiters.Valid() && (relay != null ==> relay.Valid())
      requires forall e :: e in others ==> !e.Complete?
      modifies waiters, relay, if relay == null then {} else relay.byPeer.Values
      ensures waiters.Valid() && (relay != null ==> relay.Valid())
      ensures relay != null ==>
        (relay.Contents(), out) == Serve(old(relay.Contents()), true, datagram, from, now)
      ensures relay == null ==> out == Serve(EMPTY, false, datagram, from, now).1
      ensures Reply(Probes, Cut(datagram)).None? ==>
        waiters.asks == old(waiters.asks) && waiters.table == old(waiters.table)
      ensures var i := Exchange.Awaiting(Probes, old(waiters.Here()), Cut(datagram), Unmapped(from));
        i.Some? ==> i.value in waiters.asks && waiters.asks[i.value].channel == [Unset]
    {
      hide *;
      out := None;
      var frame, src := Cut(datagram), Unmapped(from);
      ServeCases(if relay == null then EMPTY else relay.Contents(), relay != null, datagram, from, now);
      NobodyAwaits(waiters.Here(), frame, src);
      assert waiters.kind == Probes;
      match Decode(frame) {
        case Frame(typ, payload) =>
          if typ == TYPE_BINDING_REQUEST {
            out := AnswerBinding(payload, src);
          } else if typ == TYPE_RELAY_REGISTER || typ == TYPE_RELAY_DATA {
            if relay != null {
              out := Hand(relay, frame, src, now);
            }
          } else if typ == TYPE_PROBE_REPLY && |payload| >= NONCE_LEN {
            var i := waiters.Dispatch(frame, src, others);
          }
        case _ =>
      }
    }
  }

  /** Serving, by the kind of frame. */
  lemma ServeCases(b: Book, relay: bool, datagram: seq<byte>, from: Source, now: int)
    ensures var frame, src := Cut(datagram), Unmapped(from);
      Serve(b, relay, datagram, from, now) ==
      match Decode(frame) {
        case Frame(typ, payload) =>
          if typ == TYPE_BINDING_REQUEST then (b, Protocol.AnswerBinding(payload, src))
          else if typ == TYPE_RELAY_REGISTER || typ == TYPE_RELAY_DATA then
            if relay then Handle(b, frame, src, now) else (b, None)
          else (b, None)
        case _ => (b, None) }
  {
    hide Handle, Unmapped, Cut, Protocol.AnswerBinding;
  }

  /** Only a probe reply can be awaited. */
  lemma NobodyAwaits(s: Exchange.State, frame: seq<byte>, src: Source)
    ensures match Decode(frame)
      case Frame(typ, payload) =>
        && (Reply(Probes, frame).Some? <==> typ == TYPE_PROBE_REPLY && |payload| >= NONCE_LEN)
        && (typ in {TYPE_BINDING_REQUEST, TYPE_RELAY_REGISTER, TYPE_RELAY_DATA} ==> Reply(Probes, frame) == None)
      case _ => Reply(Probes, frame) == None
    ensures Reply(Probes, frame).None? ==> Exchange.Awaiting(Probes, s, frame, src) == None
    ensures Reply(Probes, frame).Some? ==> Reply(Probes, frame).value.1 == Unset
  {
  }
}
