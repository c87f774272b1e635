/** What the text of a sync makes of the device, and when that is what was recorded. */
module SyncDevice {
  import opened Base
  import opened Netip
  import opened WireGuard
  import opened SyncPeers

  function View(h: Held): DevPeer {
    DevPeer(h.target, if h.target.Some? then KEEPALIVE_SECONDS else 0)
  }

  /** The device has exactly these peers, each with its target and alone with its mesh address. */
  ghost predicate Holds(d: Device, peers: map<Key, Held>) {
    && d.peers == (map k | k in peers :: View(peers[k]))
    && (forall k :: k in peers ==> peers[k].ip in d.allowed && d.allowed[peers[k].ip] == k)
    && (forall ip :: ip in d.allowed ==> d.allowed[ip] in peers && peers[d.allowed[ip]].ip == ip)
  }

  function Goals(peers: map<Key, WgPeer>): map<Key, Held> {
    map k | k in peers :: peers[k].Goal()
  }

  /** The device is as recorded. */
  ghost predicate Synced(d: Device, peers: map<Key, WgPeer>) {
    Holds(d, Goals(peers))
  }

  /** That leaves one device only. */
  lemma SyncedIsUnique(d: Device, e: Device, peers: map<Key, WgPeer>)
    requires Synced(d, peers) && Synced(e, peers)
    ensures d == e
  {
    hide View, WgPeer.Goal;
    assert forall ip :: ip in d.allowed ==> ip in e.allowed && e.allowed[ip] == d.allowed[ip];
    assert forall ip :: ip in e.allowed ==> ip in d.allowed;
    assert d.allowed == e.allowed;
  }

  /** A device holds one set of peers only. */
  lemma HeldIsUnique(d: Device, a: map<Key, Held>, b: map<Key, Held>)
    requires Holds(d, a)
    ensures Holds(d, b) <==> a == b
  {
    if Holds(d, b) {
      assert forall k :: k in a <==> k in d.peers;
      assert forall k :: k in b <==> k in d.peers;
      forall k | k in a ensures a[k] == b[k] {
        assert View(a[k]) == d.peers[k] == View(b[k]);
        assert d.allowed[b[k].ip] == k;
      }
      assert a == b;
    }
  }

  // ---- a sync half done ----

  /** What the device holds for the listed peers so far, the addresses blocks have taken, and the peers removed. */
  datatype Mid = Mid(held: map<Key, Held>, taken: set<IPv4>, gone: set<Key>)

  const START := Mid(map[], {}, {})

  /** Whose address ip is: a block takes it from a peer not handled yet. */
  ghost predicate Claims(was: map<Key, WgPeer>, m: Mid, k: Key, ip: IPv4) {
    if k in m.held then m.held[k].ip == ip
    else k in was && k !in m.gone && was[k].meshIP == ip && ip !in m.taken
  }

  ghost predicate PeersHalfway(d: Device, was: map<Key, WgPeer>, m: Mid) {
    && (forall k :: k in d.peers <==> k in m.held || (k in was && k !in m.gone))
    && (forall k :: k in m.held ==> d.peers[k] == View(m.held[k]))
    && (forall k :: k in was && k !in m.held && k !in m.gone ==> d.peers[k] == View(was[k].Goal()))
  }

  ghost predicate AllowedHalfway(d: Device, was: map<Key, WgPeer>, m: Mid) {
    && (forall ip :: ip in d.allowed ==> Claims(was, m, d.allowed[ip], ip))
    && (forall k, ip :: Claims(was, m, k, ip) ==> ip in d.allowed && d.allowed[ip] == k)
  }

  ghost predicate Halfway(d: Device, was: map<Key, WgPeer>, m: Mid) {
    PeersHalfway(d, was, m) && AllowedHalfway(d, was, m)
  }

  /** What the device holds for k before its next entry. */
  function Before(was: map<Key, WgPeer>, m: Mid, k: Key): Option<Held> {
    if k in m.held then Some(m.held[k]) else if k in was then Some(was[k].Goal()) else None
  }

  function TargetBefore(was: map<Key, WgPeer>, m: Mid, k: Key): Option<Target> {
    if Before(was, m, k).Some? then Before(was, m, k).value.target else None
  }

  /** A block changes the address, and the target only if it sets one. */
  function AfterBlock(was: map<Key, WgPeer>, m: Mid, k: Key, want: WgPeer): Mid {
    var to := ToSet(was, k, want);
    m.(held := m.held[k := Held(want.meshIP, if to.Some? then to else TargetBefore(was, m, k))],
       taken := m.taken + {want.meshIP})
  }

  /** An entry that yields no block changes nothing. */
  function AfterSkip(was: map<Key, WgPeer>, m: Mid, k: Key): Mid
    requires k in was
  {
    m.(held := m.held[k := Before(was, m, k).value])
  }

  function AfterEntry(was: map<Key, WgPeer>, m: Mid, p: Listed, t: Tick): Mid {
    if !Usable(p, t.self) then m
    else
      var k := p.key.value;
      var want := Want(Prev(was, k), p, t);
      if Unchanged(was, k, want) then AfterSkip(was, m, k) else AfterBlock(was, m, k, want)
  }

  function AfterList(was: map<Key, WgPeer>, list: seq<Listed>, t: Tick): Mid
    decreases |list|
  {
    if list == [] then START else AfterEntry(was, AfterList(was, list[..|list| - 1], t), list[|list| - 1], t)
  }

  lemma HalfwayStart(d: Device, was: map<Key, WgPeer>)
    requires Synced(d, was)
    ensures Halfway(d, was, START)
  {
    assert forall k :: k in was ==> Goals(was)[k] == was[k].Goal();
    hide View;
  }

  /** Nobody else has the address, and no block has taken it. */
  ghost predicate FreshIP(m: Mid, k: Key, ip: IPv4) {
    ip !in m.taken && forall j :: j in m.held && j != k ==> m.held[j].ip != ip
  }

  lemma SkipKeepsAllowed(d: Device, was: map<Key, WgPeer>, m: Mid, k: Key)
    requires AllowedHalfway(d, was, m) && k in was && k !in m.held && k !in m.gone && FreshIP(m, k, was[k].meshIP)
    ensures AllowedHalfway(d, was, AfterSkip(was, m, k))
  {
    var z := AfterSkip(was, m, k);
    hide WgPeer.Target;
    forall j, ip ensures Claims(was, z, j, ip) <==> Claims(was, m, j, ip) {
    }
    hide *;
    AllowedAgain(d, was, m, z);
  }

  lemma AllowedAgain(d: Device, was: map<Key, WgPeer>, m: Mid, z: Mid)
    requires AllowedHalfway(d, was, m) && forall j, ip :: Claims(was, z, j, ip) <==> Claims(was, m, j, ip)
    ensures AllowedHalfway(d, was, z)
  {
    hide Claims;
  }

  lemma SkipKeepsPeers(d: Device, was: map<Key, WgPeer>, m: Mid, k: Key)
    requires PeersHalfway(d, was, m) && k in was && k !in m.held && k !in m.gone
    ensures PeersHalfway(d, was, AfterSkip(was, m, k))
  {
    hide View, WgPeer.Target;
  }

  lemma SkipKeeps(d: Device, was: map<Key, WgPeer>, m: Mid, k: Key, want: WgPeer)
    requires Halfway(d, was, m) && FreshIP(m, k, want.meshIP) && Unchanged(was, k, want) && k !in m.gone
    ensures Halfway(d, was, AfterSkip(was, m, k))
  {
    hide PeersHalfway, AllowedHalfway, FreshIP, WgPeer.Target;
    if k in m.held {
      assert AfterSkip(was, m, k) == m;
    } else {
      SkipKeepsPeers(d, was, m, k);
      SkipKeepsAllowed(d, was, m, k);
    }
  }

  lemma BlockKeepsAllowed(d: Device, was: map<Key, WgPeer>, m: Mid, k: Key, want: WgPeer, e: Device)
    requires AllowedHalfway(d, was, m) && FreshIP(m, k, want.meshIP)
    requires e.allowed == Without(d.allowed, k)[want.meshIP := k]
    ensures AllowedHalfway(e, was, AfterBlock(was, m, k, want))
  {
    var z := AfterBlock(was, m, k, want);
    hide ToSet, TargetBefore;
    forall j, ip
      ensures Claims(was, z, j, ip) <==>
        if j == k then ip == want.meshIP else ip != want.meshIP && Claims(was, m, j, ip)
    {
    }
    hide Claims, AfterBlock, FreshIP;
  }

  /** What a block leaves its peer with. */
  lemma BlockSets(d: Device, was: map<Key, WgPeer>, m: Mid, k: Key, want: WgPeer)
    requires PeersHalfway(d, was, m) && k !in m.gone
    ensures Configured(d, k, want.meshIP, ToSet(was, k, want)).peers ==
      d.peers[k := View(AfterBlock(was, m, k, want).held[k])]
  {
    SelectedIs(d, was, m, k);
    hide PeersHalfway, TargetBefore, ToSet;
  }

  lemma SelectedIs(d: Device, was: map<Key, WgPeer>, m: Mid, k: Key)
    requires PeersHalfway(d, was, m) && k !in m.gone
    ensures Selected(d, k).peers == d.peers[k := View(Held(0, TargetBefore(was, m, k)))]
  {
    assert k in d.peers ==> d.peers == d.peers[k := d.peers[k]];
    hide WgPeer.Target;
  }

  lemma BlockKeepsPeers(d: Device, was: map<Key, WgPeer>, m: Mid, k: Key, z: Mid, e: Device)
    requires PeersHalfway(d, was, m) && k in z.held && z.gone == m.gone && e.peers == d.peers[k := View(z.held[k])]
    requires z.held == m.held[k := z.held[k]]
    ensures PeersHalfway(e, was, z)
  {
    hide View;
  }

  lemma BlockKeeps(d: Device, was: map<Key, WgPeer>, m: Mid, k: Key, want: WgPeer)
    requires Halfway(d, was, m) && FreshIP(m, k, want.meshIP) && k !in m.gone
    ensures Halfway(Configured(d, k, want.meshIP, ToSet(was, k, want)), was, AfterBlock(was, m, k, want))
  {
    hide View, ToSet, FreshIP, PeersHalfway, AllowedHalfway, Without, TargetBefore;
    var e := Configured(d, k, want.meshIP, ToSet(was, k, want));
    BlockKeepsAllowed(d, was, m, k, want, e);
    BlockSets(d, was, m, k, want);
    BlockKeepsPeers(d, was, m, k, AfterBlock(was, m, k, want), e);
  }

  function WithGone(m: Mid, k: Key): Mid {
    m.(gone := m.gone + {k})
  }

  lemma RemoveKeeps(d: Device, was: map<Key, WgPeer>, m: Mid, k: Key)
    requires Halfway(d, was, m) && k !in m.held
    ensures Halfway(Removed(d, k), was, WithGone(m, k))
  {
    hide View, WgPeer.Target;
    var e, z := Removed(d, k), WithGone(m, k);
    forall j, ip ensures Claims(was, z, j, ip) <==> j != k && Claims(was, m, j, ip) {
    }
    hide Claims;
  }

  lemma HalfwayEnd(d: Device, was: map<Key, WgPeer>, m: Mid)
    requires Halfway(d, was, m) && forall k :: k in was && k !in m.held ==> k in m.gone
    ensures Holds(d, m.held)
  {
    hide View, WgPeer.Target;
    assert forall k :: k in m.held ==> Claims(was, m, k, m.held[k].ip);
  }

  // ---- the list ----

  /** An entry of the list gives k this mesh address. */
  predicate Gives(list: seq<Listed>, self: PeerId, k: Key, ip: IPv4) {
    exists i :: 0 <= i < |list| && Usable(list[i], self) && list[i].key == Some(k) && list[i].meshIP == Some(ip)
  }

  lemma GivesMore(list: seq<Listed>, self: PeerId, k: Key, ip: IPv4)
    requires list != []
    ensures Gives(list, self, k, ip) <==>
      var p := list[|list| - 1];
      Gives(list[..|list| - 1], self, k, ip) || (Usable(p, self) && p.key == Some(k) && p.meshIP == Some(ip))
  {
    var n := |list| - 1;
    assert forall i :: 0 <= i < n ==> list[..n][i] == list[i];
  }

  lemma EntryHeld(was: map<Key, WgPeer>, m: Mid, p: Listed, t: Tick)
    requires Usable(p, t.self)
    ensures var z := AfterEntry(was, m, p, t); var k := p.key.value; var ip := p.meshIP.value;
      && z.gone == m.gone && k in z.held && z.held == m.held[k := z.held[k]] && z.taken <= m.taken + {ip}
      && (z.held[k].ip == ip || (k in m.held && z.held[k] == m.held[k]))
  {
    hide EndpointFor, GiveUp;
  }

  /** What is held comes from the list. */
  lemma {:induction false} HeldFrom(was: map<Key, WgPeer>, list: seq<Listed>, t: Tick)
    ensures var m := AfterList(was, list, t);
      && m.gone == {} && m.held.Keys == Next(was, list, t).Keys
      && (forall k :: k in m.held ==> Gives(list, t.self, k, m.held[k].ip))
      && (forall ip :: ip in m.taken ==> exists k :: Gives(list, t.self, k, ip))
    decreases |list|
  {
    if list != [] {
      var n := |list| - 1;
      var p, m, z := list[n], AfterList(was, list[..n], t), AfterList(was, list, t);
      HeldFrom(was, list[..n], t);
      if Usable(p, t.self) {
        EntryHeld(was, m, p, t);
        GivesMore(list, t.self, p.key.value, p.meshIP.value);
      }
      hide AfterEntry, Want, Gives;
      forall k | k in z.held ensures Gives(list, t.self, k, z.held[k].ip) {
        GivesMore(list, t.self, k, z.held[k].ip);
      }
      forall ip | ip in z.taken ensures exists k :: Gives(list, t.self, k, ip) {
        if ip in m.taken {
          var k :| Gives(list[..n], t.self, k, ip);
          GivesMore(list, t.self, k, ip);
        } else {
          assert Gives(list, t.self, p.key.value, ip);
        }
      }
    }
  }

  /** An entry finds its mesh address with nobody else. */
  lemma EntryFresh(was: map<Key, WgPeer>, list: seq<Listed>, t: Tick, i: nat)
    requires AddrsDistinct(list, t.self) && i < |list| && Usable(list[i], t.self)
    ensures FreshIP(AfterList(was, list[..i], t), list[i].key.value, list[i].meshIP.value)
  {
    var m := AfterList(was, list[..i], t);
    HeldFrom(was, list[..i], t);
    hide AfterList, Next;
    forall k, ip | Gives(list[..i], t.self, k, ip) ensures ip != list[i].meshIP.value {
      var j :| 0 <= j < i && Usable(list[..i][j], t.self) && list[..i][j].meshIP == Some(ip);
      assert list[..i][j] == list[j];
    }
    hide Gives;
  }

  /** The lines of one entry do to the device what AfterEntry says. */
  lemma EntryKeeps(d: Device, was: map<Key, WgPeer>, m: Mid, p: Listed, t: Tick, cfg: seq<Line>)
    requires m.gone == {} && (Usable(p, t.self) ==> FreshIP(m, p.key.value, p.meshIP.value))
    requires Halfway(Interpret(Cursor(d, None), cfg).device, was, m)
    ensures Halfway(Interpret(Cursor(d, None), cfg + EntryLines(was, p, t)).device, was, AfterEntry(was, m, p, t))
  {
    hide Halfway, FreshIP, Interpret, Block, AfterSkip, AfterBlock, EndpointFor, GiveUp;
    if !Usable(p, t.self) {
      assert cfg + [] == cfg;
    } else {
      var k, c := p.key.value, Interpret(Cursor(d, None), cfg);
      var want := Want(Prev(was, k), p, t);
      if Unchanged(was, k, want) {
        assert cfg + [] == cfg;
        SkipKeeps(c.device, was, m, k, want);
      } else {
        BlockRuns(d, was, m, k, want, cfg);
      }
    }
  }

  lemma BlockRuns(d: Device, was: map<Key, WgPeer>, m: Mid, k: Key, want: WgPeer, cfg: seq<Line>)
    requires m.gone == {} && FreshIP(m, k, want.meshIP)
    requires Halfway(Interpret(Cursor(d, None), cfg).device, was, m)
    ensures Halfway(Interpret(Cursor(d, None), cfg + Block(k, want.meshIP, ToSet(was, k, want))).device, was,
                    AfterBlock(was, m, k, want))
  {
    hide *;
    var c := Interpret(Cursor(d, None), cfg);
    InterpretConcat(Cursor(d, None), cfg, Block(k, want.meshIP, ToSet(was, k, want)));
    BlockConfigures(c, k, want.meshIP, ToSet(was, k, want));
    BlockKeeps(c.device, was, m, k, want);
  }

  lemma {:induction false} ListKeeps(d: Device, was: map<Key, WgPeer>, list: seq<Listed>, t: Tick, n: nat)
    requires Synced(d, was) && AddrsDistinct(list, t.self) && n <= |list|
    ensures Halfway(Interpret(Cursor(d, None), ListLines(was, list[..n], t)).device, was, AfterList(was, list[..n], t))
  {
    if n == 0 {
      HalfwayStart(d, was);
    } else {
      hide Halfway, Synced, AddrsDistinct, FreshIP, Interpret, AfterEntry, EntryLines;
      ListKeeps(d, was, list, t, n - 1);
      assert list[..n][..n - 1] == list[..n - 1];
      HeldFrom(was, list[..n - 1], t);
      if Usable(list[n - 1], t.self) {
        EntryFresh(was, list, t, n - 1);
      }
      EntryKeeps(d, was, AfterList(was, list[..n - 1], t), list[n - 1], t, ListLines(was, list[..n - 1], t));
    }
  }

  function Gone(m: Mid, order: seq<Key>): Mid {
    m.(gone := m.gone + set k | k in order)
  }

  /** Each removal takes one peer, in whatever order. */
  lemma {:induction false} RemovalsKeep(d: Device, was: map<Key, WgPeer>, m: Mid, order: seq<Key>, cfg: seq<Line>)
    requires Halfway(Interpret(Cursor(d, None), cfg).device, was, m) && forall k :: k in order ==> k !in m.held
    ensures Halfway(Interpret(Cursor(d, None), cfg + RemovalLines(order)).device, was, Gone(m, order))
    decreases |order|
  {
    if order == [] {
      assert cfg + RemovalLines(order) == cfg && Gone(m, order) == m;
    } else {
      var n := |order| - 1;
      var k, rest := order[n], order[..n];
      assert order == rest + [k];
      RemovalsKeep(d, was, m, rest, cfg);
      var all := cfg + RemovalLines(rest);
      assert cfg + RemovalLines(order) == all + [PublicKey(k), Remove];
      assert Gone(m, order) == WithGone(Gone(m, rest), k);
      hide Halfway, Interpret, RemovalLines;
      InterpretConcat(Cursor(d, None), all, [PublicKey(k), Remove]);
      RemoveRemoves(Interpret(Cursor(d, None), all), k);
      RemoveKeeps(Interpret(Cursor(d, None), all).device, was, Gone(m, rest), k);
    }
  }

  /** What a whole sync leaves the device with. */
  function Result(d: Device, was: map<Key, WgPeer>, list: seq<Listed>, t: Tick, order: seq<Key>): Device {
    Interpret(Cursor(d, None), ListLines(was, list, t) + RemovalLines(order)).device
  }

  lemma ResultHolds(d: Device, was: map<Key, WgPeer>, list: seq<Listed>, t: Tick, order: seq<Key>)
    requires Synced(d, was) && AddrsDistinct(list, t.self) && Leaving(order, was, Next(was, list, t))
    ensures Holds(Result(d, was, list, t, order), AfterList(was, list, t).held)
  {
    assert list[..|list|] == list;
    ListKeeps(d, was, list, t, |list|);
    HeldFrom(was, list, t);
    var m := AfterList(was, list, t);
    hide Synced, AddrsDistinct, AfterList, Halfway, Interpret, ListLines, RemovalLines, Gives, Next, NoRepeat, Holds;
    RemovalsKeep(d, was, m, order, ListLines(was, list, t));
    HalfwayEnd(Result(d, was, list, t, order), was, Gone(m, order));
  }

  // ---- when the device is as recorded ----

  /** No entry for k comes after l. */
  ghost predicate Last(list: seq<Listed>, self: PeerId, k: Key, l: nat) {
    && l < |list| && Usable(list[l], self) && list[l].key == Some(k)
    && forall j :: l < j < |list| && Usable(list[j], self) ==> list[j].key != Some(k)
  }

  /** Either no earlier entry for k yields a block, or the last one does, and sets the endpoint if an earlier one
      did. */
  ghost predicate Settles(was: map<Key, WgPeer>, list: seq<Listed>, t: Tick, k: Key, l: nat)
    requires l < |list|
  {
    || !AnyYields(was, list[..l], t, k)
    || (Yields(was, list[l], t, k) && (AnySets(was, list[..l], t, k) ==> Sets(was, list[l], t, k)))
  }

  ghost predicate AllSettle(was: map<Key, WgPeer>, list: seq<Listed>, t: Tick) {
    forall k, l: nat :: Last(list, t.self, k, l) ==> Settles(was, list, t, k, l)
  }

  lemma AnyMore(was: map<Key, WgPeer>, list: seq<Listed>, t: Tick, k: Key)
    requires list != []
    ensures var n := |list| - 1;
      && (AnyYields(was, list, t, k) <==> AnyYields(was, list[..n], t, k) || Yields(was, list[n], t, k))
      && (AnySets(was, list, t, k) <==> AnySets(was, list[..n], t, k) || Sets(was, list[n], t, k))
  {
    hide Yields, Sets;
    var n := |list| - 1;
    assert forall i :: 0 <= i < n ==> list[..n][i] == list[i];
  }

  /** What one entry for k does to what is held for k. */
  lemma EntryEffect(was: map<Key, WgPeer>, m: Mid, p: Listed, t: Tick, k: Key)
    ensures var z := AfterEntry(was, m, p, t);
      if !Usable(p, t.self) || p.key != Some(k)
      then (k in z.held <==> k in m.held) && (k in m.held ==> z.held[k] == m.held[k])
      else
        var to := Want(Prev(was, k), p, t).Target();
        && k in z.held
        && (!Yields(was, p, t, k) ==> k in was && Some(z.held[k]) == Before(was, m, k))
        && (Yields(was, p, t, k) ==> z.held[k].ip == p.meshIP.value)
        && (Yields(was, p, t, k) && !Sets(was, p, t, k) ==> z.held[k].target == TargetBefore(was, m, k))
        && (Sets(was, p, t, k) ==> z.held[k].target == to && to.Some? && to != PrevTarget(was, k))
  {
    hide EndpointFor, GiveUp;
  }

  ghost predicate HeldAs(was: map<Key, WgPeer>, list: seq<Listed>, t: Tick, k: Key, h: Held) {
    && (!AnyYields(was, list, t, k) ==> k in was && h == was[k].Goal())
    && (AnyYields(was, list, t, k) ==> Gives(list, t.self, k, h.ip))
    && (!AnySets(was, list, t, k) ==> h.target == PrevTarget(was, k))
    && (AnySets(was, list, t, k) ==> h.target.Some? && h.target != PrevTarget(was, k))
  }

  lemma YieldingIsHeld(was: map<Key, WgPeer>, list: seq<Listed>, t: Tick, k: Key)
    ensures AnyYields(was, list, t, k) || AnySets(was, list, t, k) ==> k in AfterList(was, list, t).held
  {
    HeldFrom(was, list, t);
    NextKeys(was, list, t, k);
    hide AfterList, Next, Want, Gives;
  }

  /** What the device holds for k, in terms of the entries. */
  lemma {:induction false} HeldAt(was: map<Key, WgPeer>, list: seq<Listed>, t: Tick, k: Key)
    requires k in AfterList(was, list, t).held
    ensures HeldAs(was, list, t, k, AfterList(was, list, t).held[k])
    decreases |list|
  {
    var n := |list| - 1;
    var front, p := list[..n], list[n];
    var m, h := AfterList(was, front, t), AfterList(was, list, t).held[k];
    EntryEffect(was, m, p, t, k);
    AnyMore(was, list, t, k);
    YieldingIsHeld(was, front, t, k);
    GivesMore(list, t.self, k, h.ip);
    if k in m.held {
      HeldAt(was, front, t, k);
      GivesMore(list, t.self, k, m.held[k].ip);
    }
    hide AfterList, AfterEntry, AnyYields, AnySets, Gives, Want, Unchanged, ToSet;
  }

  lemma {:induction false} AfterLast(was: map<Key, WgPeer>, list: seq<Listed>, t: Tick, k: Key, l: nat)
    requires Last(list, t.self, k, l)
    ensures var z, m := AfterList(was, list, t).held, AfterList(was, list[..l + 1], t).held;
      k in m && k in z && z[k] == m[k]
    ensures var z, m := Next(was, list, t), Next(was, list[..l + 1], t); k in m && k in z && z[k] == m[k]
    decreases |list|
  {
    var n := |list| - 1;
    EntryEffect(was, AfterList(was, list[..n], t), list[n], t, k);
    if l == n {
      assert list[..l + 1] == list;
    } else {
      assert list[..n][..l + 1] == list[..l + 1];
      assert forall j :: 0 <= j < n ==> list[..n][j] == list[j];
      AfterLast(was, list[..n], t, k, l);
    }
    hide AfterEntry, Want;
  }

  /** Of a want that sets no endpoint the target is the one there was. */
  lemma UnsetTarget(was: map<Key, WgPeer>, p: Listed, t: Tick, k: Key)
    requires Usable(p, t.self) && p.key == Some(k)
    ensures var w := Want(Prev(was, k), p, t);
      ToSet(was, k, w).None? ==> w.Target() == PrevTarget(was, k)
  {
    if k in was && was[k].Target().Some? {
      TargetKept(was[k], p, t);
    }
    hide Want;
  }

  /** The last entry for k leaves the device with what it asks for exactly if k settles. */
  lemma LastEntry(was: map<Key, WgPeer>, list: seq<Listed>, t: Tick, k: Key, l: nat)
    requires AddrsDistinct(list, t.self) && Last(list, t.self, k, l)
    ensures var m := AfterList(was, list[..l + 1], t).held;
      k in m && (m[k] == Want(Prev(was, k), list[l], t).Goal() <==> Settles(was, list, t, k, l))
  {
    var front, p := list[..l], list[l];
    var m := AfterList(was, front, t);
    assert list[..l + 1][..l] == front && list[..l + 1][l] == p;
    assert AfterList(was, list[..l + 1], t) == AfterEntry(was, m, p, t);
    EntryEffect(was, m, p, t, k);
    UnsetTarget(was, p, t, k);
    YieldingIsHeld(was, front, t, k);
    if k in m.held {
      HeldAt(was, front, t, k);
      if AnyYields(was, front, t, k) {
        EarlierAddrs(list, t.self, l, k, m.held[k].ip);
      }
    }
    hide AfterList, AfterEntry, AnyYields, AnySets, Gives, Want, AddrsDistinct, Last;
  }

  lemma EarlierAddrs(list: seq<Listed>, self: PeerId, l: nat, k: Key, ip: IPv4)
    requires AddrsDistinct(list, self) && l < |list| && Usable(list[l], self) && Gives(list[..l], self, k, ip)
    ensures list[l].meshIP != Some(ip)
  {
    assert forall j :: 0 <= j < l ==> list[..l][j] == list[j];
  }

  lemma {:induction false} LastOf(list: seq<Listed>, self: PeerId, k: Key) returns (l: nat)
    requires Lists(list, self, k)
    ensures Last(list, self, k, l)
  {
    var n := |list| - 1;
    if Usable(list[n], self) && list[n].key == Some(k) {
      l := n;
    } else {
      var i := EntryFor(list, self, k);
      assert list[..n][i] == list[i];
      l := LastOf(list[..n], self, k);
      assert forall j :: 0 <= j < n ==> list[..n][j] == list[j];
    }
  }

  /** What is recorded for k is what its last entry asks for. */
  lemma NextIsLast(was: map<Key, WgPeer>, list: seq<Listed>, t: Tick, k: Key, l: nat)
    requires Last(list, t.self, k, l)
    ensures k in Next(was, list, t) && Next(was, list, t)[k] == Want(Prev(was, k), list[l], t)
  {
    AfterLast(was, list, t, k, l);
    assert list[..l + 1][..l] == list[..l] && list[..l + 1][l] == list[l];
    hide Want, AfterList;
  }

  lemma KeySettles(was: map<Key, WgPeer>, list: seq<Listed>, t: Tick, k: Key, l: nat)
    requires AddrsDistinct(list, t.self) && Last(list, t.self, k, l)
    ensures var m, next := AfterList(was, list, t).held, Next(was, list, t);
      k in m && k in next && (m[k] == next[k].Goal() <==> Settles(was, list, t, k, l))
  {
    AfterLast(was, list, t, k, l);
    LastEntry(was, list, t, k, l);
    NextIsLast(was, list, t, k, l);
    hide *;
  }

  lemma GoalsAre(m: map<Key, Held>, next: map<Key, WgPeer>)
    requires m.Keys == next.Keys
    ensures m == Goals(next) <==> forall k :: k in next ==> k in m && m[k] == next[k].Goal()
  {
    hide WgPeer.Goal;
    assert forall k :: k in next ==> Goals(next)[k] == next[k].Goal();
    if forall k :: k in next ==> k in m && m[k] == next[k].Goal() {
      assert m == Goals(next);
    }
  }

  /** A sync of a list that names no mesh address twice leaves the device as recorded exactly when every key settles:
      no entry before its last one yields a block, or the last one does and sets the endpoint if an earlier one did. */
  lemma SyncedExactlyWhen(d: Device, was: map<Key, WgPeer>, list: seq<Listed>, t: Tick, order: seq<Key>)
    requires Synced(d, was) && AddrsDistinct(list, t.self) && Leaving(order, was, Next(was, list, t))
    ensures Synced(Result(d, was, list, t, order), Next(was, list, t)) <==> AllSettle(was, list, t)
  {
    var m, next := AfterList(was, list, t).held, Next(was, list, t);
    ResultHolds(d, was, list, t, order);
    HeldIsUnique(Result(d, was, list, t, order), m, Goals(next));
    HeldFrom(was, list, t);
    GoalsAre(m, next);
    hide AfterList, Next, Result, Gives, Holds, Settles, Last, AddrsDistinct, Leaving, Goals, WgPeer.Goal;
    if AllSettle(was, list, t) {
      forall k | k in next ensures m[k] == next[k].Goal() {
        NextKeys(was, list, t, k);
        var l := LastOf(list, t.self, k);
        KeySettles(was, list, t, k, l);
      }
    }
    if Synced(Result(d, was, list, t, order), next) {
      forall k, l: nat | Last(list, t.self, k, l) ensures Settles(was, list, t, k, l) {
        KeySettles(was, list, t, k, l);
      }
    }
  }

  /** A list that names no key twice always settles. */
  lemma DistinctKeysSettle(was: map<Key, WgPeer>, list: seq<Listed>, t: Tick)
    requires KeysDistinct(list, t.self)
    ensures AllSettle(was, list, t)
  {
    hide Want, Unchanged;
    forall k, l: nat | Last(list, t.self, k, l) ensures Settles(was, list, t, k, l) {
      assert forall j :: 0 <= j < l ==> list[..l][j] == list[j];
    }
  }

  /** The second of two syncs of one list at one moment settles exactly when the list names no key twice: the last
      entry for a key is compared with itself and is silent, the others are not. */
  lemma RepeatSettlesExactlyWhen(was: map<Key, WgPeer>, list: seq<Listed>, t: Tick)
    requires AddrsDistinct(list, t.self)
    ensures AllSettle(Next(was, list, t), list, t) <==> KeysDistinct(list, t.self)
  {
    var n := Next(was, list, t);
    if KeysDistinct(list, t.self) {
      DistinctKeysSettle(n, list, t);
    } else {
      var i: nat, j: nat :| 0 <= i < j < |list| && Usable(list[i], t.self) && Usable(list[j], t.self) &&
        list[i].key == list[j].key;
      var k := list[i].key.value;
      assert Lists(list, t.self, k);
      var l := LastOf(list, t.self, k);
      NextIsLast(was, list, t, k, l);
      assert i < l;
      LastSilent(was, list[l], t, k, n);
      assert list[..l][i] == list[i];
      EarlierYields(n, list, t, k, i, l);
      assert AnyYields(n, list[..l], t, k);
      hide Want, Next, AddrsDistinct, Yields, Sets;
      assert !Settles(n, list, t, k, l);
    }
  }

  lemma LastSilent(was: map<Key, WgPeer>, p: Listed, t: Tick, k: Key, n: map<Key, WgPeer>)
    requires Usable(p, t.self) && p.key == Some(k) && k in n && n[k] == Want(Prev(was, k), p, t)
    ensures !Yields(n, p, t, k)
  {
  }

  lemma EarlierYields(n: map<Key, WgPeer>, list: seq<Listed>, t: Tick, k: Key, i: nat, l: nat)
    requires AddrsDistinct(list, t.self) && i < l < |list| && Usable(list[i], t.self) && Usable(list[l], t.self)
    requires list[i].key == Some(k) && k in n && list[l].meshIP == Some(n[k].meshIP)
    ensures Yields(n, list[i], t, k)
  {
  }
}
