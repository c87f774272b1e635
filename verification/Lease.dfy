/** A node believes the relay is up while its registration was acknowledged lately. When that belief is right. */
module Lease {
  import opened Base
  import opened Netip
  import opened Wire
  import opened RelayBook
  import opened Protocol
  import opened MeshBind

  /** What the control plane's socket sent, and when. */
  datatype Sent = Sent(bytes: seq<byte>, at: int)

  /** One clock, the relay at its address, one node's past, and what is under way between them. delay bounds how old
      an acknowledgement can be when it arrives; ended are the tokens whose session lost its place. */
  datatype World = World(clock: int, book: Book, used: set<Token>, sent: set<Sent>, relay: Source, past: seq<Moment>,
                         ended: set<Token>)

  datatype Event =
    | Pass(time: nat)
    | Issued(peer: PeerId, key: MeshKey, grant: Token)
    | Reaches(datagram: seq<byte>, from: Source) // anyone's datagram at the control plane's socket
    | Arrives(ack: Sent)                         // one of its datagrams at the node
    | Strays(frame: seq<byte>, sender: Source)   // a datagram of another sender at the node
    | Adopt(grant: Token)                        // the node was given another token
    | Restart                                    // of the control plane

  /** The token's session is registered from some address. */
  ghost predicate Placed(b: Book, t: Token) {
    exists p :: p in b.peers && b.peers[p].token == t && b.peers[p].addr.At?
  }

  ghost function Tokens(b: Book): set<Token> {
    set p | p in b.peers :: b.peers[p].token
  }

  /** The relay's table became z. */
  ghost function Becomes(w: World, z: Book): World {
    w.(book := z,
       ended := set t | t in w.ended + Tokens(w.book) && !Placed(z, t) && (t in w.ended || Placed(w.book, t)))
  }

  ghost function Step(w: World, e: Event, delay: int): World {
    match e
    case Pass(d) => w.(clock := w.clock + d)
    case Issued(p, k, t) => if t in w.used then w else Becomes(w, Issue(w.book, p, k, t)).(used := w.used + {t})
    case Reaches(datagram, from) =>
      var (z, out) := Serve(w.book, true, datagram, from, w.clock);
      Becomes(w, z).(sent := w.sent + if out.None? then {} else {Sent(out.value.bytes, w.clock)})
    case Arrives(ack) =>
      if ack in w.sent && w.clock - ack.at <= delay then w.(past := w.past + [Came(ack.bytes, w.relay, w.clock)]) else w
    case Strays(frame, sender) =>
      if sender != w.relay then w.(past := w.past + [Came(frame, sender, w.clock)]) else w
    case Adopt(t) => if t in w.used then w.(past := w.past + [Given(w.relay, t)]) else w
    case Restart => Becomes(w, EMPTY)
  }

  ghost predicate SeenSince(b: Book, t: Token, at: int) {
    forall p :: p in b.peers && b.peers[p].token == t ==> b.peers[p].lastSeen >= at
  }

  /** The session is where it was, seen since then, or is known to have ended. */
  ghost predicate Vouched(w: World, t: Token, at: int) {
    at <= w.clock && t in w.used && SeenSince(w.book, t, at) && (Placed(w.book, t) || t in w.ended)
  }

  ghost predicate BookOk(w: World) {
    && Wf(w.book) && Tokens(w.book) <= w.used
    && forall p :: p in w.book.peers ==> w.book.peers[p].lastSeen <= w.clock
  }

  ghost predicate Inv(w: World, delay: int) {
    && w.clock >= 0 && BookOk(w)
    && (forall s, t :: s in w.sent && AckOf(t, s.bytes) ==> Vouched(w, t, s.at))
    && LinkOk(w, delay)
  }

  /** The node's last acknowledgement vouches for its session, up to the delay. */
  ghost predicate LinkOk(w: World, delay: int) {
    var l := After(w.past);
    && (l.relay.At? ==> l.relay == w.relay)
    && (l.acked.Some? ==> l.acked.value <= w.clock && Vouched(w, l.token, l.acked.value - delay))
  }

  // ---- one step ----

  /** What a step of the relay's table must not do: forget that a session was seen, or revive a used token. */
  ghost predicate Onward(w: World, z: Book) {
    forall p :: p in z.peers ==>
      z.peers[p].token !in w.used ||
      (p in w.book.peers && z.peers[p].token == w.book.peers[p].token &&
       z.peers[p].lastSeen >= w.book.peers[p].lastSeen)
  }

  lemma VouchedOnward(w: World, z: Book, t: Token, at: int)
    requires Vouched(w, t, at) && Onward(w, z)
    ensures Vouched(Becomes(w, z), t, at)
  {
    if Placed(w.book, t) {
      var p :| p in w.book.peers && w.book.peers[p].token == t && w.book.peers[p].addr.At?;
      assert t in Tokens(w.book);
    }
  }

  lemma InTokens(b: Book, p: PeerId)
    requires p in b.peers
    ensures b.peers[p].token in Tokens(b)
  {
  }

  lemma IssueOnward(w: World, p: PeerId, k: MeshKey, t: Token)
    requires BookOk(w) && t !in w.used && w.clock >= 0
    ensures Onward(w, Issue(w.book, p, k, t))
    ensures BookOk(Becomes(w, Issue(w.book, p, k, t)).(used := w.used + {t}))
  {
    var z := Issue(w.book, p, k, t);
    forall q | q in w.book.peers ensures w.book.peers[q].token in w.used {
      InTokens(w.book, q);
    }
    IssueKeeps(w.book, p, k, t);
    assert Tokens(z) <= w.used + {t};
    hide Wf, Tokens, Placed;
  }

  lemma ServeTable(b: Book, datagram: seq<byte>, from: Source, now: int)
    ensures var z := Serve(b, true, datagram, from, now).0;
      z == b || z == Handle(b, Cut(datagram), Unmapped(from), now).0
  {
    hide Handle;
  }

  /** Serving a datagram changes where and when sessions were seen, and times only go up. */
  lemma ServeOnward(w: World, datagram: seq<byte>, from: Source)
    requires BookOk(w)
    ensures var z := Serve(w.book, true, datagram, from, w.clock).0; Onward(w, z) && BookOk(Becomes(w, z))
  {
    var b, f, src := w.book, Cut(datagram), Unmapped(from);
    ServeTable(b, datagram, from, w.clock);
    HandleKeeps(b, f, src, w.clock);
    HandleTokens(b, f, src, w.clock);
    HandleTimes(b, f, src, w.clock);
    hide Wf, Handle, Serve, Placed;
    var z := Serve(b, true, datagram, from, w.clock).0;
    forall p | p in z.peers ensures z.peers[p].token in w.used {
      InTokens(b, p);
    }
    assert Tokens(z) <= w.used;
  }

  lemma HandleTimes(b: Book, frame: seq<byte>, src: Source, now: int)
    ensures var z := Handle(b, frame, src, now).0;
      z.peers.Keys == b.peers.Keys && forall p :: p in b.peers ==> z.peers[p].lastSeen in {b.peers[p].lastSeen, now}
  {
    hide Sess.Live, AddrFrom4, Readdressed, Pow2;
  }

  /** An acknowledgement goes out only when the session has just been seen and placed. */
  lemma AckVouches(b: Book, datagram: seq<byte>, from: Source, now: int, t: Token)
    requires Wf(b)
    ensures var (z, out) := Serve(b, true, datagram, from, now);
      out.Some? && AckOf(t, out.value.bytes) ==> t in Tokens(z) && Placed(z, t) && SeenSince(z, t, now)
  {
    var f, src := Cut(datagram), Unmapped(from);
    var (z, out) := Serve(b, true, datagram, from, now);
    if out.Some? && AckOf(t, out.value.bytes) {
      if Decode(f).typ == TYPE_BINDING_REQUEST {
        BindingDescends(Decode(f).payload, src, Server);
        assert false;
      } else {
        RelayDescends(b, f, src, now);
        assert TypeOf(out.value.bytes) == Some(TYPE_RELAY_ACK);
        RegisteredNow(b, Decode(f).payload, src, now, t);
      }
    }
  }

  lemma RegisteredNow(b: Book, payload: seq<byte>, src: Source, now: int, t: Token)
    requires Wf(b)
    ensures var (z, out) := Register(b, payload, src, now);
      out.Some? && AckOf(t, out.value.bytes) ==> t in Tokens(z) && Placed(z, t) && SeenSince(z, t, now)
  {
    var (z, out) := Register(b, payload, src, now);
    if out.Some? && AckOf(t, out.value.bytes) {
      assert out.value.bytes[HEADER_LEN..HEADER_LEN + RELAY_TOKEN_LEN] == payload[..RELAY_TOKEN_LEN];
      var p := ByToken(b, t).value;
      assert z.peers[p].token == t && z.peers[p].addr == src;
      PlaceKeeps(b, p, src, now);
    }
  }

  /** What reaches the node, or is given to it, changes its past alone. */
  lemma NodeKeeps(w: World, m: Moment, delay: int)
    requires Inv(w, delay) && delay >= 0
    requires match m
      case Given(relay, t) => relay == w.relay && t in w.used
      case Came(frame, from, at) =>
        at == w.clock && (from == w.relay ==> exists s :: s in w.sent && s.bytes == frame && w.clock - s.at <= delay)
    ensures Inv(w.(past := w.past + [m]), delay)
  {
    AfterOne(w.past, m);
    hide AckOf, After, Placed, Wf, Tokens;
  }

  lemma PassKeeps(w: World, time: nat, delay: int)
    requires Inv(w, delay)
    ensures Inv(w.(clock := w.clock + time), delay)
  {
    hide AckOf, After, Placed, SeenSince, Wf, Tokens;
  }

  lemma StepKeeps(w: World, e: Event, delay: int)
    requires Inv(w, delay) && delay >= 0
    ensures Inv(Step(w, e, delay), delay)
  {
    hide AckOf, After, Placed, SeenSince, Wf, Vouched, Serve, Issue;
    match e
    case Pass(d) => PassKeeps(w, d, delay);
    case Issued(p, k, t) =>
      if t !in w.used {
        IssueOnward(w, p, k, t);
        TableKeeps(w, Issue(w.book, p, k, t), delay);
        UsedKeeps(Becomes(w, Issue(w.book, p, k, t)), t);
      }
    case Reaches(datagram, from) =>
      ServeOnward(w, datagram, from);
      TableKeeps(w, Serve(w.book, true, datagram, from, w.clock).0, delay);
      SentKeeps(w, datagram, from, delay);
      SentMore(Becomes(w, Serve(w.book, true, datagram, from, w.clock).0),
               Serve(w.book, true, datagram, from, w.clock).1);
    case Arrives(ack) =>
      if ack in w.sent && w.clock - ack.at <= delay {
        NodeKeeps(w, Came(ack.bytes, w.relay, w.clock), delay);
      }
    case Strays(frame, sender) =>
      if sender != w.relay {
        NodeKeeps(w, Came(frame, sender, w.clock), delay);
      }
    case Adopt(t) =>
      if t in w.used {
        NodeKeeps(w, Given(w.relay, t), delay);
      }
    case Restart =>
      TableKeeps(w, EMPTY, delay);
      EmptyKeeps(w);
  }

  /** A further token in use vouches for nothing less. */
  lemma UsedKeeps(w: World, t: Token)
    ensures forall u, at :: Vouched(w, u, at) ==> Vouched(w.(used := w.used + {t}), u, at)
  {
  }

  lemma SentMore(w: World, out: Option<Datagram>)
    ensures var z := w.(sent := w.sent + if out.None? then {} else {Sent(out.value.bytes, w.clock)});
      forall u, at :: Vouched(w, u, at) ==> Vouched(z, u, at)
  {
  }

  lemma EmptyKeeps(w: World)
    requires w.clock >= 0
    ensures BookOk(Becomes(w, EMPTY)) && Onward(w, EMPTY)
  {
  }

  lemma TableKeeps(w: World, z: Book, delay: int)
    requires Inv(w, delay) && Onward(w, z)
    ensures var v := Becomes(w, z);
      && (forall s, t :: s in v.sent && AckOf(t, s.bytes) ==> Vouched(v, t, s.at))
      && LinkOk(v, delay)
  {
    hide Vouched, AckOf, BookOk, Onward, After;
    var v := Becomes(w, z);
    forall s, t | s in v.sent && AckOf(t, s.bytes) ensures Vouched(v, t, s.at) {
      VouchedOnward(w, z, t, s.at);
    }
    var l := After(w.past);
    if l.acked.Some? {
      VouchedOnward(w, z, l.token, l.acked.value - delay);
    }
  }

  lemma SentKeeps(w: World, datagram: seq<byte>, from: Source, delay: int)
    requires Inv(w, delay)
    requires BookOk(Becomes(w, Serve(w.book, true, datagram, from, w.clock).0))
    ensures var (z, out) := Serve(w.book, true, datagram, from, w.clock);
      out.Some? ==> forall t :: AckOf(t, out.value.bytes) ==> Vouched(Becomes(w, z), t, w.clock)
  {
    var (z, out) := Serve(w.book, true, datagram, from, w.clock);
    if out.Some? {
      forall t | AckOf(t, out.value.bytes) ensures Vouched(Becomes(w, z), t, w.clock) {
        AckVouches(w.book, datagram, from, w.clock, t);
        hide Serve, AckOf;
      }
    }
  }

  // ---- the theorem ----

  function Start(relay: Source): World {
    World(0, EMPTY, {}, {}, relay, [], {})
  }

  ghost function Run(w: World, es: seq<Event>, delay: int): World
    decreases |es|
  {
    if es == [] then w else Run(Step(w, es[0], delay), es[1..], delay)
  }

  lemma {:induction false} RunKeeps(w: World, es: seq<Event>, delay: int)
    requires Inv(w, delay) && delay >= 0
    ensures Inv(Run(w, es, delay), delay)
    decreases |es|
  {
    if es != [] {
      StepKeeps(w, es[0], delay);
      RunKeeps(Step(w, es[0], delay), es[1..], delay);
    }
  }

  /** The session of token t was seen less than 90 seconds ago, wherever it is placed; and it is placed, unless it lost
      its place since. */
  ghost predicate Serves(w: World, t: Token) {
    && (forall p :: p in w.book.peers && w.book.peers[p].token == t && w.book.peers[p].addr.At? ==>
          w.clock - w.book.peers[p].lastSeen < 90 * SECOND)
    && (Placed(w.book, t) || t in w.ended)
  }

  /** While the node has its acknowledgements, the relay serves its session. */
  ghost predicate Right(w: World) {
    Acknowledged(w.past, w.clock) ==> Serves(w, After(w.past).token)
  }

  lemma AlwaysRight(relay: Source, es: seq<Event>, delay: int)
    requires 0 <= delay <= SESSION_TTL - RELAY_ACK_TIMEOUT
    ensures Right(Run(Start(relay), es, delay))
  {
    RunKeeps(Start(relay), es, delay);
    var w := Run(Start(relay), es, delay);
    assert Inv(w, delay);
    AcknowledgedExactly(w.past, w.clock);
  }

  /** So a node whose socket met the past of any such run finds the relay up only while the relay serves its session. */
  lemma LeaseSafety(relay: Source, es: seq<Event>, delay: int, bind: MeshBind)
    requires 0 <= delay <= SESSION_TTL - RELAY_ACK_TIMEOUT
    requires bind.Valid() && bind.past == Run(Start(relay), es, delay).past
    ensures var w := Run(Start(relay), es, delay); bind.RelayUp(w.clock) ==> Serves(w, bind.relayToken)
  {
    AlwaysRight(relay, es, delay);
  }

  // ---- how a lease is kept ----

  /** The register frame of a node whose token the relay knows, whatever it was before, places the node's session where
      the frame came from, and its acknowledgement, coming from the relay, has the node find the relay up for the next
      45 seconds. */
  lemma RegistrationRenews(b: Book, p: PeerId, past: seq<Moment>, relay: Source, from: Source, now: int, at: int,
                           later: int)
    requires Wf(b) && p in b.peers && After(past).relay == relay && After(past).token == b.peers[p].token
    ensures var (z, out) := Serve(b, true, Encode(TYPE_RELAY_REGISTER, b.peers[p].token), from, now);
      && p in z.peers && z.peers[p] == b.peers[p].(addr := Unmapped(from), lastSeen := now)
      && out.Some? && out.value.dst == Unmapped(from)
      && (Acknowledged(past + [Came(out.value.bytes, relay, at)], later) <==> later - at < 45 * SECOND)
  {
    var t := b.peers[p].token;
    UnmapsOnce(from);
    ServesAs(b, Encode(TYPE_RELAY_REGISTER, t), from, now);
    Registering(b, p, Unmapped(from), now);
    AckIsAck(t);
    hide Serve, Encode, Unmapped, After, Acknowledged, AckOf;
    var ack := Came(Encode(TYPE_RELAY_ACK, t), relay, at);
    AfterOne(past, ack);
    AcknowledgedExactly(past + [ack], later);
  }

  lemma UnmapsOnce(a: Source)
    ensures Unmapped(Unmapped(a)) == Unmapped(a)
  {
  }

  lemma ServesAs(b: Book, datagram: seq<byte>, from: Source, now: int)
    requires Unmapped(Unmapped(from)) == Unmapped(from)
    ensures Serve(b, true, datagram, from, now) == Serve(b, true, datagram, Unmapped(from), now)
  {
    hide Handle, Unmapped, Cut;
  }

  // ---- how a lease ends ----

  /** A registration from where p is, with the token of somebody else. */
  ghost predicate Displaces(b: Book, datagram: seq<byte>, src: Source, p: PeerId)
    requires p in b.peers
  {
    match Decode(Cut(datagram))
    case Frame(typ, payload) =>
      && typ == TYPE_RELAY_REGISTER && |payload| >= RELAY_TOKEN_LEN && b.peers[p].addr == src
      && var q := ByToken(b, payload[..RELAY_TOKEN_LEN]); q.Some? && q.value != p
    case _ => false
  }

  ghost predicate Ends(w: World, e: Event, p: PeerId)
    requires p in w.book.peers
  {
    match e
    case Restart => true
    case Issued(q, _, t) => q == p && t !in w.used
    case Reaches(datagram, from) => Displaces(w.book, datagram, Unmapped(from), p)
    case _ => false
  }

  lemma PlacedIs(b: Book, p: PeerId)
    requires Wf(b) && p in b.peers
    ensures Placed(b, b.peers[p].token) <==> b.peers[p].addr.At?
  {
  }

  lemma ServeMoves(b: Book, datagram: seq<byte>, from: Source, now: int, p: PeerId)
    requires p in b.peers && b.peers[p].addr.At?
    ensures var z := Serve(b, true, datagram, from, now).0;
      p in z.peers && (z.peers[p].addr.Unset? <==> Displaces(b, datagram, Unmapped(from), p))
  {
    hide AddrFrom4, Readdressed, Sess.Live, Pow2, Unmap;
  }

  /** A placed session loses its place only by a restart, by its own peer being issued another token, or by somebody
      else registering from its address. */
  lemma LeaseEnds(w: World, e: Event, delay: int, p: PeerId)
    requires Inv(w, delay) && delay >= 0 && p in w.book.peers && w.book.peers[p].addr.At?
    ensures !Placed(Step(w, e, delay).book, w.book.peers[p].token) <==> Ends(w, e, p)
  {
    var t, z := w.book.peers[p].token, Step(w, e, delay).book;
    PlacedIs(w.book, p);
    InTokens(w.book, p);
    match e
    case Issued(q, k, grant) =>
      if grant !in w.used {
        IssueOnward(w, q, k, grant);
        if q != p {
          assert z.peers[p] == w.book.peers[p];
        }
      }
    case Reaches(datagram, from) =>
      ServeOnward(w, datagram, from);
      ServeTable(w.book, datagram, from, w.clock);
      HandleTokens(w.book, Cut(datagram), Unmapped(from), w.clock);
      ServeMoves(w.book, datagram, from, w.clock, p);
      assert z == Serve(w.book, true, datagram, from, w.clock).0;
      hide Serve, Handle, Displaces, Placed;
      PlacedIs(z, p);
    case _ =>
  }

  // ---- the bound is exact ----

  lemma RunOne(w: World, e: Event, rest: seq<Event>, delay: int)
    ensures Run(w, [e] + rest, delay) == Run(Step(w, e, delay), rest, delay)
  {
    assert ([e] + rest)[1..] == rest;
  }

  /** Registering a known token from an address. */
  lemma Registering(b: Book, p: PeerId, src: Source, now: int)
    requires Wf(b) && p in b.peers && Unmapped(src) == src
    ensures Serve(b, true, Encode(TYPE_RELAY_REGISTER, b.peers[p].token), src, now) ==
      (Place(b, p, src, now), Some(Datagram(src, Encode(TYPE_RELAY_ACK, b.peers[p].token))))
  {
    var t := b.peers[p].token;
    DecodeEncode(TYPE_RELAY_REGISTER, t);
    FoundByToken(b, p);
    assert t[..RELAY_TOKEN_LEN] == t;
    hide Place, ByToken, Decode, Unmap;
  }

  /** One node is issued a token, takes it and registers with it, all at time zero. */
  ghost function Registered(relay: Source, t: Token, delay: int): World {
    Step(Step(Step(Start(relay), Event.Issued(0, MeshKey(0, 0), t), delay), Adopt(t), delay),
         Reaches(Encode(TYPE_RELAY_REGISTER, t), At(V4(0), 1)), delay)
  }

  lemma RegisteredWorld(relay: Source, t: Token, delay: int)
    ensures var w := Registered(relay, t, delay);
      && 0 in w.book.peers && w.book.peers[0] == Sess(0, 0, t, At(V4(0), 1), 0)
      && w.clock == 0 && w.relay == relay && w.past == [Given(relay, t)] && Sent(Encode(TYPE_RELAY_ACK, t), 0) in w.sent
  {
    var w0 := Step(Step(Start(relay), Event.Issued(0, MeshKey(0, 0), t), delay), Adopt(t), delay);
    assert w0.book.peers == map[0 := Sess(0, 0, t, Unset, 0)] && w0.book.holder == map[MeshKey(0, 0) := 0];
    assert Wf(w0.book);
    Registering(w0.book, 0, At(V4(0), 1), 0);
    hide Serve, Wf, Tokens, Placed, Encode;
  }

  lemma AckIsAck(t: Token)
    ensures AckOf(t, Encode(TYPE_RELAY_ACK, t))
  {
    assert Encode(TYPE_RELAY_ACK, t)[HEADER_LEN..HEADER_LEN + RELAY_TOKEN_LEN] == t;
  }

  /** The last three steps: the acknowledgement arrives at the last moment, and the node's belief lasts. */
  lemma LateAck(w: World, t: Token, delay: int)
    requires delay > SESSION_TTL - RELAY_ACK_TIMEOUT && w.clock == 0 && w.past == [Given(w.relay, t)]
    requires 0 in w.book.peers && w.book.peers[0] == Sess(0, 0, t, At(V4(0), 1), 0)
    requires Sent(Encode(TYPE_RELAY_ACK, t), 0) in w.sent
    ensures var v := Step(Step(Step(w, Pass(delay), delay), Arrives(Sent(Encode(TYPE_RELAY_ACK, t), 0)), delay),
                          Pass(RELAY_ACK_TIMEOUT - 1), delay);
      !Right(v)
  {
    AckIsAck(t);
    hide AckOf, Encode;
    var v := Step(Step(Step(w, Pass(delay), delay), Arrives(Sent(Encode(TYPE_RELAY_ACK, t), 0)), delay),
                  Pass(RELAY_ACK_TIMEOUT - 1), delay);
    var ack := Came(Encode(TYPE_RELAY_ACK, t), w.relay, delay);
    assert v.past == w.past + [ack] && v.book == w.book;
    AfterOne([], Given(w.relay, t));
    assert [] + [Given(w.relay, t)] == w.past;
    AfterOne(w.past, ack);
    AcknowledgedExactly(v.past, v.clock);
    assert v.clock - v.book.peers[0].lastSeen >= 90 * SECOND;
  }

  /** With acknowledgements any older than that, a node can find the relay up when its session has expired. */
  lemma LeaseNeedsBound(relay: Source, t: Token, delay: int) returns (es: seq<Event>)
    requires delay > SESSION_TTL - RELAY_ACK_TIMEOUT
    ensures !Right(Run(Start(relay), es, delay))
  {
    RegisteredWorld(relay, t, delay);
    var w := Registered(relay, t, delay);
    LateAck(w, t, delay);
    var e0, e1 := Event.Issued(0, MeshKey(0, 0), t), Adopt(t);
    var e2, e3 := Reaches(Encode(TYPE_RELAY_REGISTER, t), At(V4(0), 1)), Pass(delay);
    var e4, e5 := Arrives(Sent(Encode(TYPE_RELAY_ACK, t), 0)), Pass(RELAY_ACK_TIMEOUT - 1);
    var w2 := Step(Step(Start(relay), e0, delay), e1, delay);
    assert w == Step(w2, e2, delay);
    hide Step, Right, Registered, Encode, Start;
    var last := [e3] + ([e4] + ([e5] + []));
    es := [e0] + ([e1] + ([e2] + last));
    RunOne(Start(relay), e0, [e1] + ([e2] + last), delay);
    RunOne(Step(Start(relay), e0, delay), e1, [e2] + last, delay);
    RunOne(w2, e2, last, delay);
    RunOne(w, e3, [e4] + ([e5] + []), delay);
    RunOne(Step(w, e3, delay), e4, [e5] + [], delay);
    RunOne(Step(Step(w, e3, delay), e4, delay), e5, [], delay);
  }
}
