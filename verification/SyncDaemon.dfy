/** The node daemon's syncPeers: the loops that compute the text, and the device that takes it. */
module SyncDaemon {
  import opened Base
  import opened Netip
  import opened WireGuard
  import opened SyncPeers
  import opened SyncDevice

  class Daemon {
    const self: PeerId
    /** What was last given to the device. */
    var wgPeers: map<Key, WgPeer>
    var device: Device

    /** The device is as recorded. */
    ghost predicate Valid()
      reads this
    {
      Synced(device, wgPeers)
    }

    constructor (self: PeerId)
      ensures Valid() && wgPeers == map[] && this.self == self
    {
      this.self, wgPeers, device := self, map[], EMPTY;
      assert Goals(map[]) == map[];
    }

    /** What to configure for one entry. The device's handshakes are read at most once per sync, when first needed. */
    method Decide(p: Listed, now: int, relayUp: bool, dump: Option<seq<DumpLine>>, read: Option<map<Key, int>>)
      returns (want: WgPeer, handshakes: Option<map<Key, int>>)
      requires Usable(p, self) && (read.Some? ==> read.value == Read(dump))
      ensures want == Want(Prev(wgPeers, p.key.value), p, Tick(self, now, relayUp, Read(dump)))
      ensures handshakes.Some? ==> handshakes.value == Read(dump)
    {
      handshakes := read;
      var key, endpoint := p.key.value, Unset;
      if p.direct {
        endpoint := p.endpoint;
      } else if p.natEndpoint.Some? {
        endpoint := p.natEndpoint.value;
      }
      var known := key in wgPeers;
      if endpoint.Unset? && known {
        endpoint := wgPeers[key].endpoint;
      }
      var since, relayed := now, false;
      if known && endpoint == wgPeers[key].endpoint {
        since, relayed := wgPeers[key].since, wgPeers[key].relayed;
      }
      if relayUp && !relayed {
        if endpoint.Unset? {
          relayed := true;
        } else if now - since > PUNCH_BUDGET {
          if handshakes.None? {
            var times := Handshakes(dump);
            handshakes := Some(times);
          }
          if key !in handshakes.value || now - handshakes.value[key] > HANDSHAKE_STALE {
            relayed := true;
          }
        }
      }
      want := WgPeer(p.meshIP.value, endpoint, since, relayed);
    }

    /** The lines for one listed peer. */
    method Lines(key: Key, want: WgPeer) returns (lines: seq<Line>)
      ensures lines == PeerLines(wgPeers, key, want)
    {
      if key in wgPeers && wgPeers[key].meshIP == want.meshIP && wgPeers[key].Target() == want.Target() {
        return [];
      }
      lines := [PublicKey(key), ReplaceAllowedIPs, AllowedIP(want.meshIP)];
      var t := want.Target();
      if t.Some? && t != PrevTarget(wgPeers, key) {
        lines := lines + [Endpoint(t.value), Keepalive(KEEPALIVE_SECONDS)];
      }
    }

    method Entry(p: Listed, now: int, relayUp: bool, dump: Option<seq<DumpLine>>, read: Option<map<Key, int>>,
                 ghost t: Tick)
      returns (want: WgPeer, lines: seq<Line>, handshakes: Option<map<Key, int>>)
      requires t == Tick(self, now, relayUp, Read(dump)) && Usable(p, t.self)
      requires read.Some? ==> read.value == Read(dump)
      ensures want == Want(Prev(wgPeers, p.key.value), p, t) && lines == EntryLines(wgPeers, p, t)
      ensures handshakes.Some? ==> handshakes.value == Read(dump)
    {
      hide Want, PeerLines, Read;
      want, handshakes := Decide(p, now, relayUp, dump, read);
      lines := Lines(p.key.value, want);
    }

    /** The first half of a sync: the listed peers. */
    method Listing(list: seq<Listed>, now: int, relayUp: bool, dump: Option<seq<DumpLine>>)
      returns (next: map<Key, WgPeer>, routable: nat, cfg: seq<Line>)
      ensures var t := Tick(self, now, relayUp, Read(dump));
        && next == Next(wgPeers, list, t) && cfg == ListLines(wgPeers, list, t) && routable == Targets(wgPeers, list, t)
    {
      hide *;
      ghost var t := Tick(self, now, relayUp, Read(dump));
      next, routable, cfg := map[], 0, [];
      var read := None;
      NoneYet(wgPeers, list, t);
      for i := 0 to |list|
        invariant next == Next(wgPeers, list[..i], t) && routable == Targets(wgPeers, list[..i], t)
        invariant cfg == ListLines(wgPeers, list[..i], t) && (read.Some? ==> read.value == Read(dump))
      {
        OneMore(wgPeers, list, t, i);
        var p := list[i];
        if p.id != self && p.key.Some? && p.meshIP.Some? {
          var want, lines;
          want, lines, read := Entry(p, now, relayUp, dump, read, t);
          if want.Target().Some? {
            routable := routable + 1;
          }
          next, cfg := next[p.key.value := want], cfg + lines;
        }
      }
    }

    /** The second half: the peers no longer listed, in no particular order. */
    method Removals(next: map<Key, WgPeer>) returns (cfg: seq<Line>, ghost order: seq<Key>)
      ensures forall k :: PublicKey(k) in cfg <==> k in wgPeers && k !in next
      ensures cfg == RemovalLines(order) && Leaving(order, wgPeers, next)
    {
      cfg, order := [], [];
      var left := wgPeers.Keys;
      while left != {}
        invariant left <= wgPeers.Keys && cfg == RemovalLines(order) && NoRepeat(order)
        invariant forall k :: k in order <==> k in wgPeers && k !in left && k !in next
      {
        var key :| key in left;
        left := left - {key};
        if key !in next {
          assert (order + [key])[..|order|] == order;
          cfg, order := cfg + [PublicKey(key), Remove], order + [key];
        }
      }
      forall k ensures PublicKey(k) in cfg <==> k in order {
        RemovalFrom(order, PublicKey(k));
      }
    }

    /** cmd/meshd/wireguard.go syncPeers; accepts says whether the device takes the text, as a whole or not at all.
        From a device that is as recorded, a list that names no mesh address twice leaves it as recorded exactly when
        every key settles. order is the order of the removals. */
    method SyncPeers(list: seq<Listed>, now: int, relayUp: bool, dump: Option<seq<DumpLine>>, accepts: bool)
      returns (routable: nat, cfg: seq<Line>, ok: bool, ghost order: seq<Key>)
      modifies this
      ensures var was, t := old(wgPeers), Tick(self, now, relayUp, Read(dump));
        && Leaving(order, was, Next(was, list, t))
        && cfg == ListLines(was, list, t) + RemovalLines(order)
        && ok == (accepts || cfg == [])
        && (ok ==> wgPeers == Next(was, list, t) && routable == Targets(was, list, t))
        && (ok && old(Valid()) && AddrsDistinct(list, self) ==> (Valid() <==> AllSettle(was, list, t)))
      ensures ok ==> device == Interpret(Cursor(old(device), None), cfg).device
      ensures !ok ==> wgPeers == old(wgPeers) && device == old(device) && routable == 0
    {
      hide *;
      ghost var t := Tick(self, now, relayUp, Read(dump));
      ValidIs();
      var next, removals;
      next, routable, cfg := Listing(list, now, relayUp, dump);
      removals, order := Removals(next);
      cfg := cfg + removals;
      Meaning(device, wgPeers, list, t, order);
      if cfg != [] && !accepts {
        return 0, cfg, false, order;
      }
      Takes(cfg, next);
      return routable, cfg, true, order;
    }

    lemma ValidIs()
      ensures Valid() <==> Synced(device, wgPeers)
    {
    }

    method Takes(cfg: seq<Line>, next: map<Key, WgPeer>)
      modifies this
      ensures wgPeers == next && device == Interpret(Cursor(old(device), None), cfg).device
      ensures Valid() <==> Synced(Interpret(Cursor(old(device), None), cfg).device, next)
    {
      hide Synced;
      if cfg != [] {
        device := Interpret(Cursor(device, None), cfg).device;
      }
      wgPeers := next;
    }
  }

  lemma NoneYet(was: map<Key, WgPeer>, list: seq<Listed>, t: Tick)
    ensures list[..0] == [] && list[..|list|] == list
    ensures Next(was, [], t) == map[] && ListLines(was, [], t) == [] && Targets(was, [], t) == 0
  {
  }

  lemma OneMore(was: map<Key, WgPeer>, list: seq<Listed>, t: Tick, i: nat)
    requires i < |list|
    ensures var p := list[i];
      if p.id != t.self && p.key.Some? && p.meshIP.Some? then
        var w := Want(Prev(was, p.key.value), p, t);
        && Usable(p, t.self)
        && Next(was, list[..i + 1], t) == Next(was, list[..i], t)[p.key.value := w]
        && ListLines(was, list[..i + 1], t) == ListLines(was, list[..i], t) + EntryLines(was, p, t)
        && Targets(was, list[..i + 1], t) == Targets(was, list[..i], t) + if w.Target().Some? then 1 else 0
      else
        && Next(was, list[..i + 1], t) == Next(was, list[..i], t)
        && ListLines(was, list[..i + 1], t) == ListLines(was, list[..i], t)
        && Targets(was, list[..i + 1], t) == Targets(was, list[..i], t)
  {
    assert list[..i + 1][..i] == list[..i];
    hide EndpointFor, GiveUp, PeerLines, WgPeer.Target;
  }

  /** What the text of a whole sync means, in the words of the contract above. */
  lemma Meaning(d: Device, was: map<Key, WgPeer>, list: seq<Listed>, t: Tick, order: seq<Key>)
    requires Leaving(order, was, Next(was, list, t))
    ensures var e := Interpret(Cursor(d, None), ListLines(was, list, t) + RemovalLines(order)).device;
      Synced(d, was) && AddrsDistinct(list, t.self) ==> (Synced(e, Next(was, list, t)) <==> AllSettle(was, list, t))
  {
    if Synced(d, was) && AddrsDistinct(list, t.self) {
      SyncedExactlyWhen(d, was, list, t, order);
    }
    hide Synced, AddrsDistinct, AllSettle;
  }

  /** With no key and no mesh address listed twice: the device is as recorded, the text has a block for exactly the
      keys that changed and an endpoint for exactly the changed targets, and the count is of peers. */
  lemma DistinctSync(d: Device, was: map<Key, WgPeer>, list: seq<Listed>, t: Tick, order: seq<Key>)
    requires Synced(d, was) && AddrsDistinct(list, t.self) && KeysDistinct(list, t.self)
    requires Leaving(order, was, Next(was, list, t))
    ensures var next, cfg := Next(was, list, t), ListLines(was, list, t) + RemovalLines(order);
      && Synced(Interpret(Cursor(d, None), cfg).device, next)
      && (forall k :: PublicKey(k) in cfg <==> Changed(was, next, k))
      && (forall x :: Endpoint(x) in cfg <==> exists k :: k in next && ToSet(was, k, next[k]) == Some(x))
      && Targets(was, list, t) == Routable(next)
  {
    hide *;
    Meaning(d, was, list, t, order);
    DistinctKeysSettle(was, list, t);
    TargetsAreRoutable(was, list, t);
    forall k
      ensures PublicKey(k) in ListLines(was, list, t) + RemovalLines(order) <==> Changed(was, Next(was, list, t), k)
    {
      ChangedEmitted(was, list, t, order, k);
    }
    forall x
      ensures Endpoint(x) in ListLines(was, list, t) + RemovalLines(order) <==>
        exists k :: k in Next(was, list, t) && ToSet(was, k, Next(was, list, t)[k]) == Some(x)
    {
      EndpointsEmitted(was, list, t, order, x);
    }
  }
}
