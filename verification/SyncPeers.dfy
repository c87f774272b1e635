/** What a sync of the peer list asks for and the text it sends: only changes. */
module SyncPeers {
  import opened Base
  import opened Netip
  import opened WireGuard

  const PUNCH_BUDGET: int := 20 * SECOND
  const HANDSHAKE_STALE: int := 180 * SECOND

  /** What was last configured for one peer. */
  datatype WgPeer = WgPeer(meshIP: IPv4, endpoint: AddrPort, since: int, relayed: bool) {
    function Target(): Option<Target> {
      if relayed then Some(Via(meshIP)) else if endpoint.At? then Some(Direct(endpoint)) else None
    }

    /** What the device should hold for it. */
    function Goal(): Held {
      Held(meshIP, Target())
    }
  }

  /** What a device holds for one peer: its mesh address and its last configured endpoint. */
  datatype Held = Held(ip: IPv4, target: Option<Target>)

  /** A row of the control plane's list, its texts parsed: key and meshIP are None where the daemon cannot use them,
      an address that does not parse is Unset, and natEndpoint is None where the list has none. */
  datatype Listed = Listed(id: PeerId, key: Option<Key>, meshIP: Option<IPv4>, direct: bool, endpoint: AddrPort,
                           natEndpoint: Option<AddrPort>)

  /** What a sync sees besides the list. */
  datatype Tick = Tick(self: PeerId, now: int, relayUp: bool, handshakes: map<Key, int>)

  predicate Usable(p: Listed, self: PeerId) {
    p.id != self && p.key.Some? && p.meshIP.Some?
  }

  /** No mesh address is listed twice, as the peers table's unique index gives it. */
  ghost predicate AddrsDistinct(list: seq<Listed>, self: PeerId) {
    forall i, j :: 0 <= i < j < |list| && Usable(list[i], self) && Usable(list[j], self) ==>
      list[i].meshIP != list[j].meshIP
  }

  /** No key is listed twice. */
  ghost predicate KeysDistinct(list: seq<Listed>, self: PeerId) {
    forall i, j :: 0 <= i < j < |list| && Usable(list[i], self) && Usable(list[j], self) ==>
      list[i].key != list[j].key
  }

  predicate Lists(list: seq<Listed>, self: PeerId, k: Key) {
    exists i :: 0 <= i < |list| && Usable(list[i], self) && list[i].key == Some(k)
  }

  function Prev(was: map<Key, WgPeer>, k: Key): Option<WgPeer> {
    if k in was then Some(was[k]) else None
  }

  function PrevTarget(was: map<Key, WgPeer>, k: Key): Option<Target> {
    if k in was then was[k].Target() else None
  }

  /** The endpoint the list gives, if any. */
  function Offered(p: Listed): AddrPort {
    if p.direct then p.endpoint else if p.natEndpoint.Some? then p.natEndpoint.value else Unset
  }

  /** The last endpoint is kept when the list gives none: WireGuard cannot unset one. */
  function EndpointFor(prev: Option<WgPeer>, p: Listed): AddrPort {
    if Offered(p).At? then Offered(p) else if prev.Some? then prev.value.endpoint else Unset
  }

  predicate Stale(k: Key, t: Tick) {
    k !in t.handshakes || t.now - t.handshakes[k] > HANDSHAKE_STALE
  }

  predicate GiveUp(endpoint: AddrPort, since: int, k: Key, t: Tick) {
    t.relayUp && (endpoint.Unset? || (t.now - since > PUNCH_BUDGET && Stale(k, t)))
  }

  function Want(prev: Option<WgPeer>, p: Listed, t: Tick): WgPeer
    requires Usable(p, t.self)
  {
    var ep := EndpointFor(prev, p);
    var same := prev.Some? && ep == prev.value.endpoint;
    var since := if same then prev.value.since else t.now;
    var relayed := (same && prev.value.relayed) || GiveUp(ep, since, p.key.value, t);
    WgPeer(p.meshIP.value, ep, since, relayed)
  }

  /** The peers a sync leaves configured. */
  function Next(was: map<Key, WgPeer>, list: seq<Listed>, t: Tick): map<Key, WgPeer>
    decreases |list|
  {
    if list == [] then map[]
    else
      var n := |list| - 1;
      var next := Next(was, list[..n], t);
      var p := list[n];
      if Usable(p, t.self) then next[p.key.value := Want(Prev(was, p.key.value), p, t)] else next
  }

  /** The lines a list gives: a block for each entry that differs from what was configured. */
  function ListLines(was: map<Key, WgPeer>, list: seq<Listed>, t: Tick): seq<Line>
    decreases |list|
  {
    if list == [] then []
    else ListLines(was, list[..|list| - 1], t) + EntryLines(was, list[|list| - 1], t)
  }

  function EntryLines(was: map<Key, WgPeer>, p: Listed, t: Tick): seq<Line> {
    if !Usable(p, t.self) then [] else PeerLines(was, p.key.value, Want(Prev(was, p.key.value), p, t))
  }

  function PeerLines(was: map<Key, WgPeer>, k: Key, want: WgPeer): seq<Line> {
    if Unchanged(was, k, want) then [] else Block(k, want.meshIP, ToSet(was, k, want))
  }

  predicate Unchanged(was: map<Key, WgPeer>, k: Key, want: WgPeer) {
    k in was && was[k].meshIP == want.meshIP && was[k].Target() == want.Target()
  }

  /** The key is new or gone, or its mesh address or target changed. */
  predicate Changed(was: map<Key, WgPeer>, next: map<Key, WgPeer>, k: Key) {
    if k in next then k !in was || was[k].meshIP != next[k].meshIP || was[k].Target() != next[k].Target() else k in was
  }

  /** The endpoint a block has to set. */
  function ToSet(was: map<Key, WgPeer>, k: Key, want: WgPeer): Option<Target> {
    if want.Target() != PrevTarget(was, k) then want.Target() else None
  }

  /** The lines that take away the peers no longer listed. */
  function RemovalLines(order: seq<Key>): seq<Line> {
    if order == [] then [] else RemovalLines(order[..|order| - 1]) + [PublicKey(order[|order| - 1]), Remove]
  }

  predicate NoRepeat(order: seq<Key>) {
    forall i, j :: 0 <= i < j < |order| ==> order[i] != order[j]
  }

  /** The peers no longer listed, each once, in some order. */
  ghost predicate Leaving(order: seq<Key>, was: map<Key, WgPeer>, next: map<Key, WgPeer>) {
    NoRepeat(order) && forall k :: k in order <==> k in was && k !in next
  }

  /** How many entries of the list have somewhere to send to: what syncPeers reports. */
  function Targets(was: map<Key, WgPeer>, list: seq<Listed>, t: Tick): nat
    decreases |list|
  {
    if list == [] then 0
    else
      var p := list[|list| - 1];
      Targets(was, list[..|list| - 1], t) +
      if Usable(p, t.self) && Want(Prev(was, p.key.value), p, t).Target().Some? then 1 else 0
  }

  // ---- the list, entry by entry ----

  /** Each peer of the result comes from the list's entry for its key. */
  lemma {:induction false} NextFrom(was: map<Key, WgPeer>, list: seq<Listed>, t: Tick, k: Key)
    ensures k in Next(was, list, t) ==>
      exists j :: 0 <= j < |list| && Usable(list[j], t.self) && list[j].key == Some(k) &&
        Next(was, list, t)[k] == Want(Prev(was, k), list[j], t)
    decreases |list|
  {
    if list != [] {
      var n := |list| - 1;
      NextFrom(was, list[..n], t, k);
      hide Want;
      if k in Next(was, list, t) && !(Usable(list[n], t.self) && list[n].key == Some(k)) {
        var j :| 0 <= j < n && Usable(list[..n][j], t.self) && list[..n][j].key == Some(k) &&
          Next(was, list[..n], t)[k] == Want(Prev(was, k), list[..n][j], t);
        assert list[j] == list[..n][j];
      }
    }
  }

  lemma {:induction false} NextKeys(was: map<Key, WgPeer>, list: seq<Listed>, t: Tick, k: Key)
    ensures k in Next(was, list, t) <==> Lists(list, t.self, k)
    decreases |list|
  {
    if list != [] {
      var n := |list| - 1;
      hide Want;
      NextKeys(was, list[..n], t, k);
      if Lists(list[..n], t.self, k) {
        var i :| 0 <= i < n && Usable(list[..n][i], t.self) && list[..n][i].key == Some(k);
        assert list[i] == list[..n][i];
      }
      if Lists(list, t.self, k) {
        var i :| 0 <= i < |list| && Usable(list[i], t.self) && list[i].key == Some(k);
        if i < n {
          assert list[..n][i] == list[i];
        }
      }
    }
  }

  /** In a list that names no key twice an entry's key gets what that entry asks for. */
  lemma NextAt(was: map<Key, WgPeer>, list: seq<Listed>, t: Tick, i: nat)
    requires KeysDistinct(list, t.self) && i < |list| && Usable(list[i], t.self)
    ensures list[i].key.value in Next(was, list, t)
    ensures Next(was, list, t)[list[i].key.value] == Want(Prev(was, list[i].key.value), list[i], t)
  {
    var k := list[i].key.value;
    hide Want, Next;
    NextKeys(was, list, t, k);
    NextFrom(was, list, t, k);
    var j :| 0 <= j < |list| && Usable(list[j], t.self) && list[j].key == Some(k) &&
      Next(was, list, t)[k] == Want(Prev(was, k), list[j], t);
    assert j == i;
  }

  /** A sync never takes a listed peer's target away. */
  lemma TargetKept(prev: WgPeer, p: Listed, t: Tick)
    requires Usable(p, t.self) && prev.Target().Some?
    ensures Want(Some(prev), p, t).Target().Some?
  {
  }

  /** How many peers have somewhere to send to. */
  function Routable(peers: map<Key, WgPeer>): nat {
    |set k | k in peers && peers[k].Target().Some?|
  }

  lemma RoutableAdd(peers: map<Key, WgPeer>, k: Key, want: WgPeer)
    requires k !in peers
    ensures Routable(peers[k := want]) == Routable(peers) + if want.Target().Some? then 1 else 0
  {
    hide WgPeer.Target;
    var z := peers[k := want];
    var before := set j | j in peers && peers[j].Target().Some?;
    var after := set j | j in z && z[j].Target().Some?;
    assert after == before + if want.Target().Some? then {k} else {};
  }

  function Read(dump: Option<seq<DumpLine>>): map<Key, int> {
    if dump.None? then map[] else HandshakesIn(dump.value)
  }

  /** With no key listed twice, that is the number of peers with a target. */
  lemma {:induction false} TargetsAreRoutable(was: map<Key, WgPeer>, list: seq<Listed>, t: Tick)
    requires KeysDistinct(list, t.self)
    ensures Targets(was, list, t) == Routable(Next(was, list, t))
    decreases |list|
  {
    if list != [] {
      var n := |list| - 1;
      var p := list[n];
      TargetsAreRoutable(was, list[..n], t);
      if Usable(p, t.self) {
        KeyUnused(was, list, t, n);
        RoutableAdd(Next(was, list[..n], t), p.key.value, Want(Prev(was, p.key.value), p, t));
      }
      hide Want, Routable, Prev;
    }
  }

  lemma KeyUnused(was: map<Key, WgPeer>, list: seq<Listed>, t: Tick, i: nat)
    requires KeysDistinct(list, t.self) && i < |list| && Usable(list[i], t.self)
    ensures list[i].key.value !in Next(was, list[..i], t)
  {
    hide Want, Next;
    NextKeys(was, list[..i], t, list[i].key.value);
    assert forall j :: 0 <= j < i ==> list[..i][j] == list[j];
  }

  // ---- the text, line by line ----

  /** Entry p yields a block for k. */
  predicate Yields(was: map<Key, WgPeer>, p: Listed, t: Tick, k: Key) {
    Usable(p, t.self) && p.key == Some(k) && !Unchanged(was, k, Want(Prev(was, k), p, t))
  }

  /** ... and that block sets the endpoint. */
  predicate Sets(was: map<Key, WgPeer>, p: Listed, t: Tick, k: Key) {
    Yields(was, p, t, k) && ToSet(was, k, Want(Prev(was, k), p, t)).Some?
  }

  ghost predicate AnyYields(was: map<Key, WgPeer>, list: seq<Listed>, t: Tick, k: Key) {
    exists i :: 0 <= i < |list| && Yields(was, list[i], t, k)
  }

  ghost predicate AnySets(was: map<Key, WgPeer>, list: seq<Listed>, t: Tick, k: Key) {
    exists i :: 0 <= i < |list| && Sets(was, list[i], t, k)
  }

  lemma {:induction false} LineFrom(was: map<Key, WgPeer>, list: seq<Listed>, t: Tick, line: Line)
    ensures line in ListLines(was, list, t) <==>
      exists i :: 0 <= i < |list| && line in EntryLines(was, list[i], t)
    decreases |list|
  {
    hide EntryLines;
    if list != [] {
      var n := |list| - 1;
      LineFrom(was, list[..n], t, line);
      assert forall i :: 0 <= i < n ==> list[..n][i] == list[i];
    }
  }

  lemma {:induction false} RemovalFrom(order: seq<Key>, line: Line)
    ensures line in RemovalLines(order) <==> (line.Remove? && order != []) || (line.PublicKey? && line.key in order)
  {
    if order != [] {
      var n := |order| - 1;
      RemovalFrom(order[..n], line);
      assert order == order[..n] + [order[n]];
    }
  }

  lemma EntrySays(was: map<Key, WgPeer>, p: Listed, t: Tick, k: Key, x: Target)
    ensures PublicKey(k) in EntryLines(was, p, t) <==> Yields(was, p, t, k)
    ensures Endpoint(x) in EntryLines(was, p, t) <==>
      p.key.Some? && Sets(was, p, t, p.key.value) &&
      ToSet(was, p.key.value, Want(Prev(was, p.key.value), p, t)) == Some(x)
  {
    hide Want;
  }

  /** The text has a block for exactly the keys some entry yields one for and those no longer listed. */
  lemma KeysEmitted(was: map<Key, WgPeer>, list: seq<Listed>, t: Tick, order: seq<Key>, k: Key)
    ensures PublicKey(k) in ListLines(was, list, t) + RemovalLines(order) <==> AnyYields(was, list, t, k) || k in order
  {
    LineFrom(was, list, t, PublicKey(k));
    RemovalFrom(order, PublicKey(k));
    forall i | 0 <= i < |list| ensures PublicKey(k) in EntryLines(was, list[i], t) <==> Yields(was, list[i], t, k) {
      EntrySays(was, list[i], t, k, Direct(Unset));
    }
    hide ListLines, EntryLines, RemovalLines, Yields;
  }

  /** With no key listed twice those are exactly the keys that changed. */
  lemma ChangedEmitted(was: map<Key, WgPeer>, list: seq<Listed>, t: Tick, order: seq<Key>, k: Key)
    requires KeysDistinct(list, t.self) && Leaving(order, was, Next(was, list, t))
    ensures PublicKey(k) in ListLines(was, list, t) + RemovalLines(order) <==> Changed(was, Next(was, list, t), k)
  {
    KeysEmitted(was, list, t, order, k);
    NextKeys(was, list, t, k);
    hide ListLines, RemovalLines, Next, Want, NoRepeat;
    if Lists(list, t.self, k) {
      var i :| 0 <= i < |list| && Usable(list[i], t.self) && list[i].key == Some(k);
      NextAt(was, list, t, i);
      assert forall j :: 0 <= j < |list| && Usable(list[j], t.self) && list[j].key == Some(k) ==> j == i;
    }
  }

  lemma EntryEndpoint(was: map<Key, WgPeer>, list: seq<Listed>, t: Tick, i: nat, x: Target)
    requires KeysDistinct(list, t.self) && i < |list| && Usable(list[i], t.self)
    ensures var next, k := Next(was, list, t), list[i].key.value;
      k in next && (Endpoint(x) in EntryLines(was, list[i], t) <==> ToSet(was, k, next[k]) == Some(x))
  {
    EntrySays(was, list[i], t, list[i].key.value, x);
    NextAt(was, list, t, i);
    hide Want, EntryLines, Next;
  }

  lemma Silent(was: map<Key, WgPeer>, p: Listed, t: Tick, line: Line)
    requires line in EntryLines(was, p, t)
    ensures Usable(p, t.self)
  {
  }

  /** An endpoint line is there exactly for a changed target. */
  lemma EndpointsEmitted(was: map<Key, WgPeer>, list: seq<Listed>, t: Tick, order: seq<Key>, x: Target)
    requires KeysDistinct(list, t.self)
    ensures Endpoint(x) in ListLines(was, list, t) + RemovalLines(order) <==>
      exists k :: k in Next(was, list, t) && ToSet(was, k, Next(was, list, t)[k]) == Some(x)
  {
    hide *;
    var next := Next(was, list, t);
    LineFrom(was, list, t, Endpoint(x));
    RemovalFrom(order, Endpoint(x));
    if i :| 0 <= i < |list| && Endpoint(x) in EntryLines(was, list[i], t) {
      Silent(was, list[i], t, Endpoint(x));
      EntryEndpoint(was, list, t, i, x);
    }
    if k :| k in next && ToSet(was, k, next[k]) == Some(x) {
      NextKeys(was, list, t, k);
      var i := EntryFor(list, t.self, k);
      EntryEndpoint(was, list, t, i, x);
    }
  }

  lemma EntryFor(list: seq<Listed>, self: PeerId, k: Key) returns (i: nat)
    requires Lists(list, self, k)
    ensures i < |list| && Usable(list[i], self) && list[i].key == Some(k)
  {
    i :| 0 <= i < |list| && Usable(list[i], self) && list[i].key == Some(k);
  }
}
