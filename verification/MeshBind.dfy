/** A node's UDP socket: WireGuard's datagrams, direct or relayed, and what the control plane sends beside them. */
module MeshBind {
  import opened Base
  import opened Netip
  import opened Wire
  import opened RelayBook
  import opened Protocol

  const PEER_REFRESH_INTERVAL: int := 15 * SECOND
  const RELAY_ACK_TIMEOUT: int := 3 * PEER_REFRESH_INTERVAL

  datatype SendError = Closed | NoRelay | WriteFailed

  /** The frame that carries buf to a mesh address through the relay. */
  function Wrapped(ip: IPv4, buf: seq<byte>): seq<byte> {
    Encode(TYPE_RELAY_DATA, As4(ip)) + buf
  }

  function Wraps(relay: AddrPort, ip: IPv4, bufs: seq<seq<byte>>): (out: seq<Datagram>)
    ensures |out| == |bufs|
    ensures forall i :: 0 <= i < |bufs| ==> out[i] == Datagram(relay, Wrapped(ip, bufs[i]))
  {
    if bufs == [] then [] else Wraps(relay, ip, bufs[..|bufs| - 1]) + [Datagram(relay, Wrapped(ip, bufs[|bufs| - 1]))]
  }

  function Plain(to: AddrPort, bufs: seq<seq<byte>>): (out: seq<Datagram>)
    ensures |out| == |bufs|
    ensures forall i :: 0 <= i < |bufs| ==> out[i] == Datagram(to, bufs[i])
  {
    if bufs == [] then [] else Plain(to, bufs[..|bufs| - 1]) + [Datagram(to, bufs[|bufs| - 1])]
  }

  /** all was sent up to the first write that fails. */
  ghost predicate SentUntil(sent: seq<Datagram>, err: Option<SendError>, all: seq<Datagram>, fails: nat -> bool) {
    && sent <= all && (forall i :: 0 <= i < |sent| ==> !fails(i))
    && (if err.None? then sent == all else err == Some(WriteFailed) && |sent| < |all| && fails(|sent|))
  }

  predicate AckOf(token: Token, frame: seq<byte>) {
    && |frame| >= HEADER_LEN + RELAY_TOKEN_LEN && frame[0] == VERSION && frame[1] == TYPE_RELAY_ACK
    && frame[HEADER_LEN..HEADER_LEN + RELAY_TOKEN_LEN] == token
  }

  /** The relay's acknowledgement of this node's own token. */
  predicate AcksOwn(relay: AddrPort, token: Token, frame: seq<byte>, from: AddrPort) {
    from == relay && AckOf(token, frame)
  }

  // ---- what a node knows of its relay ----

  /** The node was given a relay and a token, or a datagram came in. */
  datatype Moment =
    | Given(relay: AddrPort, token: Token)
    | Came(frame: seq<byte>, from: Source, at: int)

  datatype Link = Link(relay: AddrPort, token: Token, acked: Option<int>)

  /** What is left of the past: the relay and token in use, and when that relay last acknowledged that token. */
  ghost function After(past: seq<Moment>): Link {
    if past == [] then Link(Unset, seq(RELAY_TOKEN_LEN, _ => 0), None)
    else
      var l := After(past[..|past| - 1]);
      match past[|past| - 1]
      case Given(relay, token) => Link(relay, token, None)
      case Came(frame, from, at) => if AcksOwn(l.relay, l.token, frame, from) then l.(acked := Some(at)) else l
  }

  lemma AfterOne(past: seq<Moment>, m: Moment)
    ensures After(past + [m]) ==
      match m {
        case Given(relay, token) => Link(relay, token, None)
        case Came(frame, from, at) =>
          if AcksOwn(After(past).relay, After(past).token, frame, from) then After(past).(acked := Some(at))
          else After(past) }
  {
    assert (past + [m])[..|past|] == past;
  }

  /** Moment i is when the node was last given a token. */
  ghost predicate LastGiven(past: seq<Moment>, i: int) {
    0 <= i < |past| && past[i].Given? && forall k :: i < k < |past| ==> past[k].Came?
  }

  /** Moment j is an acknowledgement, by the relay given at moment i, of the token given then. */
  ghost predicate Acked(past: seq<Moment>, i: int, j: int) {
    && 0 <= i < j < |past| && past[i].Given? && past[j].Came?
    && past[j].from == past[i].relay && AckOf(past[i].token, past[j].frame)
  }

  /** The relay acknowledged the token last given, and the latest time it did was less than 45 seconds ago. */
  ghost predicate Acknowledged(past: seq<Moment>, now: int) {
    exists i, j :: LastGiven(past, i) && Acked(past, i, j) && (forall k :: Acked(past, i, k) ==> k <= j)
      && now - past[j].at < 45 * SECOND
  }

  /** After is right about the last token given, and about the last acknowledgement of it. */
  ghost predicate Sums(past: seq<Moment>, i: int) {
    var l := After(past);
    && LastGiven(past, i) && past[i] == Given(l.relay, l.token)
    && match l.acked {
         case None => forall k :: !Acked(past, i, k)
         case Some(at) =>
           exists j :: Acked(past, i, j) && past[j].at == at && forall k :: Acked(past, i, k) ==> k <= j }
  }

  lemma {:induction false} AfterSums(past: seq<Moment>) returns (i: int)
    ensures if i >= 0 then Sums(past, i)
      else After(past) == Link(Unset, seq(RELAY_TOKEN_LEN, _ => 0), None) && forall m :: m in past ==> m.Came?
  {
    if past == [] { return -1; }
    var n := |past| - 1;
    i := AfterSums(past[..n]);
    if past[n].Given? {
      i := n;
    } else if i >= 0 {
      SumsOne(past, i);
    } else {
      assert past == past[..n] + [past[n]];
    }
  }

  lemma SumsOne(past: seq<Moment>, i: int)
    requires past != [] && past[|past| - 1].Came? && Sums(past[..|past| - 1], i)
    ensures Sums(past, i)
  {
    var n := |past| - 1;
    var b, l := past[..n], After(past[..n]);
    assert forall k :: k != n ==> Acked(past, i, k) == Acked(b, i, k);
    if Acked(past, i, n) {
      assert After(past).acked == Some(past[n].at);
    } else if l.acked.Some? {
      var j :| Acked(b, i, j) && b[j].at == l.acked.value && forall k :: Acked(b, i, k) ==> k <= j;
      assert Acked(past, i, j);
    }
  }

  /** Nothing but a recent acknowledgement by the present relay, of the present token, makes the relay up. */
  lemma AcknowledgedExactly(past: seq<Moment>, now: int)
    ensures Acknowledged(past, now) <==> After(past).acked.Some? && now - After(past).acked.value < 45 * SECOND
  {
    var i := AfterSums(past);
    forall k | LastGiven(past, k) ensures k == i {
      assert past[k] in past;
    }
  }

  class MeshBind {
    var open: bool
    var relay: AddrPort
    var relayToken: Token
    /** When the relay last acknowledged relayToken. */
    var relayAcked: Option<int>
    /** Every token given and every datagram received, in order. */
    ghost var past: seq<Moment>

    ghost predicate Valid()
      reads `relay, `relayToken, `relayAcked, `past
    {
      After(past) == Link(relay, relayToken, relayAcked)
    }

    constructor ()
      ensures Valid() && !open && relay == Unset && relayAcked == None && past == []
    {
      open, relay, relayToken, relayAcked := false, Unset, seq(RELAY_TOKEN_LEN, _ => 0), None;
      past := [];
    }

    /** relay.go sendRelayed; fails(i) says whether the i-th write errors. */
    method SendRelayed(bufs: seq<seq<byte>>, dst: IPv4, fails: nat -> bool)
      returns (sent: seq<Datagram>, err: Option<SendError>)
      ensures relay.Unset? ==> sent == [] && err == Some(NoRelay)
      ensures relay.At? ==> SentUntil(sent, err, Wraps(relay, dst, bufs), fails)
    {
      sent := [];
      if relay.Unset? {
        return sent, Some(NoRelay);
      }
      var ip := As4(dst);
      for i := 0 to |bufs|
        invariant |sent| == i && sent <= Wraps(relay, dst, bufs)
        invariant forall j :: 0 <= j < i ==> !fails(j)
      {
        hide As4, Encode;
        var frame := Encode(TYPE_RELAY_DATA, ip) + bufs[i];
        assert frame == Wrapped(dst, bufs[i]);
        if fails(i) {
          return sent, Some(WriteFailed);
        }
        sent := sent + [Datagram(relay, frame)];
      }
      return sent, None;
    }

    /** wireguard.go Send. */
    method Send(bufs: seq<seq<byte>>, ep: Target, fails: nat -> bool)
      returns (sent: seq<Datagram>, err: Option<SendError>)
      ensures !open ==> sent == [] && err == Some(Closed)
      ensures open && ep.Via? && relay.Unset? ==> sent == [] && err == Some(NoRelay)
      ensures open && (ep.Via? ==> relay.At?) ==>
        SentUntil(sent, err, if ep.Via? then Wraps(relay, ep.meshIP, bufs) else Plain(ep.addr, bufs), fails)
    {
      sent := [];
      if !open {
        return sent, Some(Closed);
      }
      if ep.Via? {
        sent, err := SendRelayed(bufs, ep.meshIP, fails);
        return;
      }
      for i := 0 to |bufs|
        invariant |sent| == i && sent <= Plain(ep.addr, bufs)
        invariant forall j :: 0 <= j < i ==> !fails(j)
      {
        if fails(i) {
          return sent, Some(WriteFailed);
        }
        sent := sent + [Datagram(ep.addr, bufs[i])];
      }
      return sent, None;
    }

    /** relay.go unwrapRelayed: the datagram inside is moved to the front of the buffer it came in. */
    method UnwrapRelayed(frame: array<byte>, n: nat, from: AddrPort) returns (got: Option<(nat, Target)>)
      requires n <= frame.Length
      modifies frame
      ensures var was := Unwrapped(relay, old(frame[..n]), from);
        && (was.None? ==> got == None && frame[..] == old(frame[..]))
        && (was.Some? ==>
             && got.Some? && got.value.0 <= n && got.value.1 == was.value.from
             && frame[..] == was.value.bytes + old(frame[..])[got.value.0..])
    {
      if n <= RELAY_HEADER_LEN || frame[1] != TYPE_RELAY_DATA || from != relay {
        return None;
      }
      ghost var f := frame[..n];
      var src := AddrFrom4(frame[HEADER_LEN..RELAY_HEADER_LEN]);
      assert f[HEADER_LEN..RELAY_HEADER_LEN] == frame[HEADER_LEN..RELAY_HEADER_LEN];
      forall i | 0 <= i < n - RELAY_HEADER_LEN {
        frame[i] := frame[i + RELAY_HEADER_LEN];
      }
      assert frame[..] == f[RELAY_HEADER_LEN..] + old(frame[..])[n - RELAY_HEADER_LEN..];
      return Some((n - RELAY_HEADER_LEN, Via(src)));
    }

    /** relay.go useRelay. */
    method UseRelay(relay: AddrPort, token: Token)
      modifies `relay, `relayToken, `relayAcked, `past
      ensures Valid() && past == old(past) + [Given(relay, token)]
      ensures this.relay == relay && relayToken == token && relayAcked == None
    {
      this.relay, this.relayToken, relayAcked := relay, token, None;
      AfterOne(past, Given(relay, token));
      past := past + [Given(relay, token)];
    }

    /** relay.go ackRelay. */
    method AckRelay(payload: seq<byte>, from: AddrPort, now: int)
      modifies `relayAcked
      ensures relayAcked ==
        if |payload| >= RELAY_TOKEN_LEN && from == relay && payload[..RELAY_TOKEN_LEN] == relayToken then Some(now)
        else old(relayAcked)
    {
      if |payload| < RELAY_TOKEN_LEN {
        return;
      }
      if from == relay && payload[..RELAY_TOKEN_LEN] == relayToken {
        relayAcked := Some(now);
      }
    }

    /** relay.go relayUp. */
    predicate RelayUp(now: int): (up: bool)
      requires Valid()
      reads `relay, `relayToken, `relayAcked, `past
      ensures up <==> Acknowledged(past, now)
    {
      AcknowledgedExactly(past, now);
      relayAcked.Some? && now - relayAcked.value < RELAY_ACK_TIMEOUT
    }

    /** relay.go registerRelay. */
    method RegisterRelay(fails: bool) returns (sent: Option<Datagram>, err: Option<SendError>)
      ensures sent ==
        if open && relay.At? && !fails then Some(Datagram(relay, Encode(TYPE_RELAY_REGISTER, relayToken))) else None
      ensures err == if !open then Some(Closed) else if relay.At? && fails then Some(WriteFailed) else None
    {
      if !open {
        return None, Some(Closed);
      }
      if relay.Unset? {
        return None, None;
      }
      if fails {
        return None, Some(WriteFailed);
      }
      return Some(Datagram(relay, Encode(TYPE_RELAY_REGISTER, relayToken))), None;
    }

    /** wireguard.go answerProbe; a binding response is handed on to whoever waits for it. */
    method AnswerProbe(frame: seq<byte>, from: Source, now: int)
      returns (reply: Option<Datagram>, binding: Option<(Nonce, AddrPort)>)
      requires Valid()
      modifies `relayAcked, `past
      ensures Valid() && past == old(past) + [Came(frame, from, now)]
      ensures reply == Echo(frame, from) && binding == Reply(Bindings, frame)
      ensures relayAcked == if AcksOwn(relay, relayToken, frame, from) then Some(now) else old(relayAcked)
    {
      reply, binding := None, None;
      match Decode(frame) {
        case Frame(typ, payload) =>
          if typ == TYPE_BINDING_RESPONSE {
            if |payload| >= BINDING_LEN {
              binding := Some((payload[..NONCE_LEN], ParseAddrPort(payload[NONCE_LEN..])));
            }
          } else if typ == TYPE_RELAY_ACK {
            assert |payload| >= RELAY_TOKEN_LEN ==>
              payload[..RELAY_TOKEN_LEN] == frame[HEADER_LEN..HEADER_LEN + RELAY_TOKEN_LEN];
            AckRelay(payload, from, now);
          } else if typ == TYPE_PROBE && |payload| >= NONCE_LEN {
            reply := Some(Datagram(from, Encode(TYPE_PROBE_REPLY, payload[..NONCE_LEN])));
          }
        case _ =>
      }
      AfterOne(past, Came(frame, from, now));
      past := past + [Came(frame, from, now)];
    }

    /** One datagram of wireguard.go receive, n bytes long: what goes to WireGuard and what is answered in passing. */
    method Receive(frame: array<byte>, n: nat, src: Source, now: int)
      returns (got: Option<(nat, Target)>, reply: Option<Datagram>, binding: Option<(Nonce, AddrPort)>)
      requires Valid() && n <= frame.Length
      modifies `relayAcked, `past, frame
      ensures Valid() && past == old(past) + [Came(old(frame[..n]), Unmapped(src), now)]
      ensures var f, from := old(frame[..n]), Unmapped(src);
        && reply == Answer(relay, f, from)
        && (match Delivered(relay, f, from)
            case None => got == None
            case Some(m) => got.Some? && got.value.0 <= n && got.value.1 == m.from && frame[..got.value.0] == m.bytes)
        && binding == (if Delivered(relay, f, from).None? then Reply(Bindings, f) else None)
        && relayAcked == if AcksOwn(relay, relayToken, f, from) then Some(now) else old(relayAcked)
    {
      got, reply, binding := None, None, None;
      var from := At(Unmap(src.addr), src.port);
      ghost var m := Came(frame[..n], from, now);
      AfterOne(past, m);
      if n == 0 {
        past := past + [m];
        return;
      }
      if frame[0] == VERSION {
        got := UnwrapRelayed(frame, n, from);
        if got.None? {
          reply, binding := AnswerProbe(frame[..n], from, now);
          return;
        }
      } else {
        got := Some((n, Target.Direct(from)));
      }
      past := past + [m];
    }
  }

  class Refresher {
    const bind: MeshBind
    /** When a token was last issued. */
    var relayIssued: Option<int>

    constructor (bind: MeshBind)
      ensures this.bind == bind && relayIssued == None
    {
      this.bind, relayIssued := bind, None;
    }

    /** relay.go refreshRelay: a token is asked for only when the relay stopped acknowledging, and not again before
        the one just issued had its time; grant is what the control plane answers. */
    method RefreshRelay(now: int, grant: Option<(AddrPort, Token)>, fails: bool)
      returns (asked: bool, sent: Option<Datagram>)
      requires bind.Valid()
      modifies this, bind
      ensures bind.Valid()
      ensures asked <==>
        !Acknowledged(old(bind.past), now) && (old(relayIssued).None? || now - old(relayIssued).value > 45 * SECOND)
      ensures bind.past == old(bind.past) +
        if asked && grant.Some? then [Given(grant.value.0, grant.value.1)] else []
      ensures bind.open == old(bind.open)
      ensures asked && grant.Some? ==>
        && bind.relay == grant.value.0 && bind.relayToken == grant.value.1 && bind.relayAcked == None
        && relayIssued == Some(now)
      ensures !asked || grant.None? ==>
        && bind.relay == old(bind.relay) && bind.relayToken == old(bind.relayToken)
        && bind.relayAcked == old(bind.relayAcked) && relayIssued == old(relayIssued)
      ensures sent ==
        if bind.open && bind.relay.At? && !fails && !(asked && grant.None?)
        then Some(Datagram(bind.relay, Encode(TYPE_RELAY_REGISTER, bind.relayToken))) else None
    {
      asked := !bind.RelayUp(now) && (relayIssued.None? || now - relayIssued.value > RELAY_ACK_TIMEOUT);
      if asked {
        if grant.None? {
          return asked, None;
        }
        bind.UseRelay(grant.value.0, grant.value.1);
        relayIssued := Some(now);
      }
      var err;
      sent, err := bind.RegisterRelay(fails);
    }
  }
}
