/** What holds over any run of syncs. */
module SyncRuns {
  import opened Base
  import opened Netip
  import opened WireGuard
  import opened SyncPeers
  import opened SyncDevice

  // ---- doing it again ----

  /** Asking again for what is already configured changes at most whether the peer is relayed. */
  lemma WantAgain(prev: Option<WgPeer>, p: Listed, t: Tick, u: Tick)
    requires Usable(p, t.self) && t.self == u.self
    ensures var w := Want(prev, p, t); var v := Want(Some(w), p, u);
      && v == w.(relayed := v.relayed) && (w.relayed ==> v.relayed)
      && (t == u ==> v == w)
      && (v.relayed == w.relayed <==> v.Target() == w.Target())
  {
  }

  /** A second sync of the same list sends nothing, whatever the time and whatever the handshakes, exactly when it
      relays the same peers; and at the same moment it always does. */
  lemma RepeatIsQuiet(was: map<Key, WgPeer>, list: seq<Listed>, t: Tick, u: Tick)
    requires KeysDistinct(list, t.self) && t.self == u.self
    ensures var n := Next(was, list, t); var m := Next(n, list, u);
      && n.Keys == m.Keys
      && ((forall k :: !Changed(n, m, k)) <==> (forall k :: k in n ==> m[k].relayed == n[k].relayed))
      && (t == u ==> m == n)
  {
    var n, m := Next(was, list, t), Next(Next(was, list, t), list, u);
    hide Want, Next, WgPeer.Target;
    forall k ensures k in n <==> k in m {
      NextKeys(was, list, t, k);
      NextKeys(n, list, u, k);
    }
    forall k | k in n
      ensures Unchanged(n, k, m[k]) <==> m[k].relayed == n[k].relayed
      ensures t == u ==> m[k] == n[k]
    {
      NextKeys(was, list, t, k);
      var i :| 0 <= i < |list| && Usable(list[i], t.self) && list[i].key == Some(k);
      NextAt(was, list, t, i);
      NextAt(n, list, u, i);
      WantAgain(Prev(was, k), list[i], t, u);
    }
    if forall k :: k in n ==> m[k].relayed == n[k].relayed {
      assert forall k :: !Changed(n, m, k);
    }
    if forall k :: !Changed(n, m, k) {
      forall k | k in n ensures m[k].relayed == n[k].relayed {
        assert !Changed(n, m, k);
      }
    }
  }

  // ---- against configuring everything anew ----

  function AllBlocks(peers: map<Key, WgPeer>, order: seq<Key>): seq<Line>
    requires forall k :: k in order ==> k in peers
  {
    if order == [] then []
    else
      var n := |order| - 1;
      AllBlocks(peers, order[..n]) + Block(order[n], peers[order[n]].meshIP, peers[order[n]].Target())
  }

  ghost predicate IPsDistinct(peers: map<Key, WgPeer>) {
    forall j, k :: j in peers && k in peers && j != k ==> peers[j].meshIP != peers[k].meshIP
  }

  /** One more peer configured on a device without peers at first. */
  lemma BlockAdds(lines: seq<Line>, m: Mid, k: Key, p: WgPeer)
    requires Halfway(Interpret(Cursor(EMPTY, None), lines).device, map[], m)
    requires m.gone == {} && k !in m.held && FreshIP(m, k, p.meshIP)
    ensures Halfway(Interpret(Cursor(EMPTY, None), lines + Block(k, p.meshIP, p.Target())).device, map[],
                    AfterBlock(map[], m, k, p))
  {
    assert ToSet(map[], k, p) == p.Target();
    hide *;
    BlockRuns(EMPTY, map[], m, k, p, lines);
  }

  /** The device once the first of the peers are configured. */
  function Part(peers: map<Key, WgPeer>, order: seq<Key>): Mid {
    Mid(map k | k in peers && k in order :: peers[k].Goal(), set k | k in peers && k in order :: peers[k].meshIP, {})
  }

  lemma PartAdds(peers: map<Key, WgPeer>, rest: seq<Key>, k: Key)
    requires IPsDistinct(peers) && k in peers && k !in rest
    ensures k !in Part(peers, rest).held && FreshIP(Part(peers, rest), k, peers[k].meshIP)
    ensures Part(peers, rest + [k]) == AfterBlock(map[], Part(peers, rest), k, peers[k])
  {
    var m, z := Part(peers, rest), Part(peers, rest + [k]);
    var y := AfterBlock(map[], m, k, peers[k]);
    assert y.held[k] == peers[k].Goal();
    hide WgPeer.Target;
    assert z.held == y.held;
    assert z.taken == y.taken;
  }

  lemma {:induction false} AllBlocksBuild(peers: map<Key, WgPeer>, order: seq<Key>)
    requires IPsDistinct(peers) && NoRepeat(order) && forall k :: k in order ==> k in peers
    ensures Halfway(Interpret(Cursor(EMPTY, None), AllBlocks(peers, order)).device, map[], Part(peers, order))
    decreases |order|
  {
    if order == [] {
      assert Goals(map[]) == map[];
      HalfwayStart(EMPTY, map[]);
      assert Part(peers, order) == START;
    } else {
      var n := |order| - 1;
      var k, rest := order[n], order[..n];
      assert k !in rest && order == rest + [k];
      PartAdds(peers, rest, k);
      AllBlocksBuild(peers, rest);
      BlockAdds(AllBlocks(peers, rest), Part(peers, rest), k, peers[k]);
      hide Halfway, Part, Interpret, Block, IPsDistinct, NoRepeat, FreshIP, AfterBlock;
    }
  }

  lemma SyncedIPsDistinct(d: Device, peers: map<Key, WgPeer>)
    requires Synced(d, peers)
    ensures IPsDistinct(peers)
  {
    assert forall k :: k in peers ==> Goals(peers)[k].ip == peers[k].meshIP;
    hide View, WgPeer.Target;
  }

  lemma AllBlocksSync(peers: map<Key, WgPeer>, order: seq<Key>)
    requires IPsDistinct(peers) && NoRepeat(order) && forall k :: k in order <==> k in peers
    ensures Synced(Interpret(Cursor(EMPTY, None), AllBlocks(peers, order)).device, peers)
  {
    AllBlocksBuild(peers, order);
    assert Part(peers, order).held == Goals(peers);
    HalfwayEnd(Interpret(Cursor(EMPTY, None), AllBlocks(peers, order)).device, map[], Part(peers, order));
    hide Halfway, Interpret, Holds;
  }

  /** A synced device is the one an empty device becomes when every peer is configured from scratch, in any order. */
  lemma EqualsFullConfiguration(d: Device, peers: map<Key, WgPeer>, order: seq<Key>)
    requires Synced(d, peers) && NoRepeat(order) && forall k :: k in order <==> k in peers
    ensures d == Interpret(Cursor(EMPTY, None), AllBlocks(peers, order)).device
  {
    hide *;
    SyncedIPsDistinct(d, peers);
    AllBlocksSync(peers, order);
    SyncedIsUnique(d, Interpret(Cursor(EMPTY, None), AllBlocks(peers, order)).device, peers);
  }

  /** Without distinct mesh addresses no device can hold the peers: an address has one owner. */
  lemma SyncNeedsDistinctIPs(peers: map<Key, WgPeer>, order: seq<Key>)
    requires NoRepeat(order) && forall k :: k in order <==> k in peers
    ensures (exists d :: Synced(d, peers)) <==> IPsDistinct(peers)
  {
    hide *;
    forall d | Synced(d, peers) ensures IPsDistinct(peers) {
      SyncedIPsDistinct(d, peers);
    }
    if IPsDistinct(peers) {
      AllBlocksSync(peers, order);
    }
  }

  // ---- a key listed twice ----

  /** Peers 1 and 2 have one key k between them, and mesh addresses b and a. */
  function Twice(k: Key, a: IPv4, b: IPv4): seq<Listed> {
    [Listed(1, Some(k), Some(b), false, Unset, None), Listed(2, Some(k), Some(a), false, Unset, None)]
  }

  lemma TwiceSettlesAtFirst(k: Key, a: IPv4, b: IPv4, t: Tick)
    requires t == Tick(0, 0, false, map[])
    ensures AllSettle(map[], Twice(k, a, b), t)
  {
    var list := Twice(k, a, b);
    assert list[..1] == [list[0]];
    assert !Sets(map[], list[0], t, k) && Yields(map[], list[1], t, k);
  }

  /** Concretely: from an empty device the first sync of such a list settles, and the second does not. */
  lemma RepeatedKeyDiverges(k: Key, a: IPv4, b: IPv4)
    requires a != b
    ensures var t, list := Tick(0, 0, false, map[]), Twice(k, a, b);
      var first := Next(map[], list, t);
      var d := Result(EMPTY, map[], list, t, []);
      Synced(d, first) && !Synced(Result(d, first, list, t, []), Next(first, list, t))
  {
    var t, list := Tick(0, 0, false, map[]), Twice(k, a, b);
    var first := Next(map[], list, t);
    assert Goals(map[]) == map[];
    assert Usable(list[0], 0) && Usable(list[1], 0) && list[0].key == list[1].key;
    assert Synced(EMPTY, map[]) && AddrsDistinct(list, 0) && !KeysDistinct(list, 0);
    SameKeys(map[], list, t);
    TwiceSettlesAtFirst(k, a, b, t);
    hide *;
    SyncedExactlyWhen(EMPTY, map[], list, t, []);
    RepeatSettlesExactlyWhen(map[], list, t);
    SyncedExactlyWhen(Result(EMPTY, map[], list, t, []), first, list, t, []);
  }

  /** Nobody leaves in the first sync, nor in a second one of the same list. */
  lemma SameKeys(was: map<Key, WgPeer>, list: seq<Listed>, t: Tick)
    requires was == map[]
    ensures Leaving([], was, Next(was, list, t)) && Leaving([], Next(was, list, t), Next(Next(was, list, t), list, t))
  {
    hide Next;
    forall k ensures k in Next(was, list, t) <==> k in Next(Next(was, list, t), list, t) {
      NextKeys(was, list, t, k);
      NextKeys(Next(was, list, t), list, t, k);
    }
  }

  // ---- runs ----

  /** One sync: applied says whether it went through. */
  datatype Sync = Sync(list: seq<Listed>, tick: Tick, applied: bool)

  function After(was: map<Key, WgPeer>, s: Sync): map<Key, WgPeer> {
    if s.applied then Next(was, s.list, s.tick) else was
  }

  function Run(syncs: seq<Sync>): map<Key, WgPeer>
    decreases |syncs|
  {
    if syncs == [] then map[] else After(Run(syncs[..|syncs| - 1]), syncs[|syncs| - 1])
  }

  /** What a sync leaves for k is what one of its entries asks for. */
  lemma StepFrom(was: map<Key, WgPeer>, s: Sync, k: Key) returns (p: Listed)
    requires s.applied && k in After(was, s)
    ensures Usable(p, s.tick.self) && p.key == Some(k) && After(was, s)[k] == Want(Prev(was, k), p, s.tick)
  {
    hide Want, Next;
    NextFrom(was, s.list, s.tick, k);
    var j :| 0 <= j < |s.list| && Usable(s.list[j], s.tick.self) && s.list[j].key == Some(k) &&
      Next(was, s.list, s.tick)[k] == Want(Prev(was, k), s.list[j], s.tick);
    p := s.list[j];
  }

  lemma RunNext(syncs: seq<Sync>, more: seq<Sync>)
    requires more != []
    ensures Run(syncs + more) == After(Run(syncs + more[..|more| - 1]), more[|more| - 1])
  {
    hide After;
    var all := syncs + more;
    assert all[..|all| - 1] == syncs + more[..|more| - 1] && all[|all| - 1] == more[|more| - 1];
  }

  /** A peer that stays listed and once has a target never loses it. */
  lemma {:induction false} TargetNeverLost(syncs: seq<Sync>, more: seq<Sync>, k: Key)
    requires k in Run(syncs) && Run(syncs)[k].Target().Some?
    requires forall i :: 0 <= i < |more| ==> Lists(more[i].list, more[i].tick.self, k)
    ensures k in Run(syncs + more) && Run(syncs + more)[k].Target().Some?
    decreases |more|
  {
    if more == [] {
      assert syncs + more == syncs;
    } else {
      var n := |more| - 1;
      TargetNeverLost(syncs, more[..n], k);
      RunNext(syncs, more);
      var was := Run(syncs + more[..n]);
      hide Run, Want, Next, WgPeer.Target;
      if more[n].applied {
        NextKeys(was, more[n].list, more[n].tick, k);
        var p := StepFrom(was, more[n], k);
        TargetKept(was[k], p, more[n].tick);
      }
    }
  }

  ghost predicate SameEndpoint(syncs: seq<Sync>, more: seq<Sync>, k: Key) {
    k in Run(syncs) &&
    forall m :: 0 <= m <= |more| ==>
      k in Run(syncs + more[..m]) && Run(syncs + more[..m])[k].endpoint == Run(syncs)[k].endpoint
  }

  /** A relayed peer stays relayed while its endpoint stays the same. */
  lemma {:induction false} RelayedStays(syncs: seq<Sync>, more: seq<Sync>, k: Key)
    requires SameEndpoint(syncs, more, k) && Run(syncs)[k].relayed
    ensures k in Run(syncs + more) && Run(syncs + more)[k].relayed
    decreases |more|
  {
    if more == [] {
      assert syncs + more == syncs;
    } else {
      var n := |more| - 1;
      forall m | 0 <= m <= n
        ensures k in Run(syncs + more[..n][..m]) && Run(syncs + more[..n][..m])[k].endpoint == Run(syncs)[k].endpoint
      {
        assert more[..n][..m] == more[..m];
      }
      RelayedStays(syncs, more[..n], k);
      RunNext(syncs, more);
      assert more[..n + 1] == more;
      var was := Run(syncs + more[..n]);
      hide Run;
      if more[n].applied {
        var p := StepFrom(was, more[n], k);
      }
    }
  }

  // ---- when a peer is relayed ----

  function At(syncs: seq<Sync>, m: nat): map<Key, WgPeer>
    requires m <= |syncs|
  {
    Run(syncs[..m])
  }

  /** k's endpoint is the one the i-th sync gave it, and has been ever since. */
  ghost predicate Kept(syncs: seq<Sync>, k: Key, i: nat) {
    && 0 < i <= |syncs| && k in Run(syncs) && Run(syncs)[k].since == syncs[i - 1].tick.now
    && forall m :: i <= m <= |syncs| ==>
         k in At(syncs, m) && At(syncs, m)[k].endpoint == Run(syncs)[k].endpoint
  }

  /** The j-th sync gave up on k's endpoint: no fresh handshake though it was kept long enough, and the relay was up. */
  ghost predicate GaveUp(syncs: seq<Sync>, k: Key, i: nat, j: nat) {
    && 0 < i < j <= |syncs| && syncs[j - 1].tick.relayUp
    && (k in syncs[j - 1].tick.handshakes ==>
          syncs[j - 1].tick.now - syncs[j - 1].tick.handshakes[k] > 180 * SECOND)
    && syncs[j - 1].tick.now - syncs[i - 1].tick.now > 20 * SECOND
    && RelayedSince(syncs, k, j)
  }

  ghost predicate RelayedSince(syncs: seq<Sync>, k: Key, j: nat) {
    forall m :: j <= m <= |syncs| ==> k in At(syncs, m) && At(syncs, m)[k].relayed
  }

  lemma AtPrefix(syncs: seq<Sync>, n: nat, m: nat)
    requires m <= n <= |syncs|
    ensures At(syncs[..n], m) == At(syncs, m)
  {
    assert syncs[..n][..m] == syncs[..m];
  }

  lemma AtEnd(syncs: seq<Sync>)
    ensures At(syncs, |syncs|) == Run(syncs)
  {
    assert syncs[..|syncs|] == syncs;
  }

  lemma KeptExtends(syncs: seq<Sync>, k: Key, i: nat)
    requires syncs != [] && Kept(syncs[..|syncs| - 1], k, i) && k in Run(syncs)
    requires Run(syncs)[k].endpoint == Run(syncs[..|syncs| - 1])[k].endpoint
    requires Run(syncs)[k].since == Run(syncs[..|syncs| - 1])[k].since
    ensures Kept(syncs, k, i)
  {
    var n := |syncs| - 1;
    AtEnd(syncs);
    hide Run;
    forall m | i <= m <= n ensures At(syncs[..n], m) == At(syncs, m) {
      AtPrefix(syncs, n, m);
    }
  }

  lemma {:induction false} EndpointKept(syncs: seq<Sync>, k: Key) returns (i: nat)
    requires k in Run(syncs)
    ensures Kept(syncs, k, i)
    decreases |syncs|
  {
    var n := |syncs| - 1;
    var was, s := Run(syncs[..n]), syncs[n];
    AtEnd(syncs);
    if !s.applied {
      i := EndpointKept(syncs[..n], k);
      KeptExtends(syncs, k, i);
    } else {
      var p := StepFrom(was, s, k);
      if k in was && Run(syncs)[k].endpoint == was[k].endpoint {
        i := EndpointKept(syncs[..n], k);
        KeptExtends(syncs, k, i);
      } else {
        i := |syncs|;
      }
    }
  }

  /** A peer with an endpoint is relayed only after that same endpoint was kept longer than the punch budget without
      a fresh handshake, and has been relayed since. */
  lemma {:induction false} RelayedAfterPunching(syncs: seq<Sync>, k: Key) returns (i: nat, j: nat)
    requires k in Run(syncs) && Run(syncs)[k].relayed && Run(syncs)[k].endpoint.At?
    ensures Kept(syncs, k, i) && GaveUp(syncs, k, i, j)
    decreases |syncs|
  {
    var n := |syncs| - 1;
    var was, s := Run(syncs[..n]), syncs[n];
    AtEnd(syncs);
    if !s.applied {
      i, j := RelayedAfterPunching(syncs[..n], k);
      KeptExtends(syncs, k, i);
      GaveUpExtends(syncs, k, i, j);
    } else {
      var p := StepFrom(was, s, k);
      i := EndpointKept(syncs[..n], k);
      KeptExtends(syncs, k, i);
      if was[k].relayed {
        i, j := RelayedAfterPunching(syncs[..n], k);
        KeptExtends(syncs, k, i);
        GaveUpExtends(syncs, k, i, j);
      } else {
        j := |syncs|;
      }
    }
  }

  lemma RelayedExtends(syncs: seq<Sync>, k: Key, j: nat)
    requires syncs != [] && RelayedSince(syncs[..|syncs| - 1], k, j) && k in Run(syncs) && Run(syncs)[k].relayed
    ensures RelayedSince(syncs, k, j)
  {
    var n := |syncs| - 1;
    AtEnd(syncs);
    hide Run, At;
    forall m | j <= m <= n ensures At(syncs[..n], m) == At(syncs, m) {
      AtPrefix(syncs, n, m);
    }
  }

  lemma GaveUpExtends(syncs: seq<Sync>, k: Key, i: nat, j: nat)
    requires syncs != [] && GaveUp(syncs[..|syncs| - 1], k, i, j) && k in Run(syncs) && Run(syncs)[k].relayed
    ensures GaveUp(syncs, k, i, j)
  {
    RelayedExtends(syncs, k, j);
    hide Run, Stale, RelayedSince;
  }
}
