/** What each entry of the peer list comes to, in a sync of a list that names no mesh address and no key twice. */
module SyncEntries {
  import opened Base
  import opened Netip
  import opened WireGuard
  import opened SyncPeers
  import opened SyncDevice

  /** The entry is another peer's, with key k and an IPv4 mesh address. */
  predicate IsFor(p: Listed, self: PeerId, k: Key) {
    p.id != self && p.key == Some(k) && p.meshIP.Some?
  }

  /** What is recorded for k goes by its entry and by what was recorded before. A peer that answers directly gets its
      endpoint, another one its address behind NAT, and without either the last one stays. The time it was first tried
      stays as long as it does. */
  ghost predicate EndpointBy(p: Listed, before: Option<WgPeer>, now: int, after: WgPeer) {
    && p.meshIP == Some(after.meshIP)
    && (p.direct && p.endpoint.At? ==> after.endpoint == p.endpoint)
    && (!p.direct && p.natEndpoint.Some? && p.natEndpoint.value.At? ==> after.endpoint == p.natEndpoint.value)
    && ((p.direct && p.endpoint.Unset?) || (!p.direct && (p.natEndpoint.None? || p.natEndpoint.value.Unset?)) ==>
          after.endpoint == if before.Some? then before.value.endpoint else Unset)
    && after.since == if before.Some? && before.value.endpoint == after.endpoint then before.value.since else now
  }

  /** A peer is relayed when it was, with the same endpoint, and once the relay is up also when it has no endpoint, or
      one tried for more than 20 seconds without a handshake in the last 180. */
  ghost predicate RelayedBy(k: Key, before: Option<WgPeer>, t: Tick, after: WgPeer) {
    after.relayed <==>
      || (before.Some? && before.value.relayed && before.value.endpoint == after.endpoint)
      || (t.relayUp && after.endpoint.Unset?)
      || (t.relayUp && t.now - after.since > 20 * SECOND &&
          (k !in t.handshakes || t.now - t.handshakes[k] > 180 * SECOND))
  }

  /** The device sends to a relayed peer through the relay, to another one at its endpoint, keeping either path alive
      every 25 seconds; and its mesh address leads to it. */
  ghost predicate DeviceBy(d: Device, k: Key, peer: WgPeer) {
    && k in d.peers && peer.meshIP in d.allowed && d.allowed[peer.meshIP] == k
    && d.peers[k] ==
       if peer.relayed then DevPeer(Some(Via(peer.meshIP)), 25)
       else if peer.endpoint.At? then DevPeer(Some(Target.Direct(peer.endpoint)), 25)
       else DevPeer(None, 0)
  }

  lemma WantIs(before: Option<WgPeer>, p: Listed, t: Tick)
    requires Usable(p, t.self)
    ensures EndpointBy(p, before, t.now, Want(before, p, t)) && RelayedBy(p.key.value, before, t, Want(before, p, t))
  {
  }

  lemma SyncedIs(d: Device, peers: map<Key, WgPeer>, k: Key)
    requires Synced(d, peers) && k in peers
    ensures DeviceBy(d, k, peers[k])
  {
    assert Goals(peers)[k] == peers[k].Goal();
  }

  /** After the sync exactly the other peers with a usable key and address are configured, each as its entry has it:
      recorded, and on the device. */
  lemma EntriesDecide(d: Device, was: map<Key, WgPeer>, list: seq<Listed>, t: Tick, order: seq<Key>)
    requires Synced(d, was) && AddrsDistinct(list, t.self) && KeysDistinct(list, t.self)
    requires Leaving(order, was, Next(was, list, t))
    ensures var next, e := Next(was, list, t), Result(d, was, list, t, order);
      && (forall k :: k in next <==> exists i :: 0 <= i < |list| && IsFor(list[i], t.self, k))
      && e.peers.Keys == next.Keys
      && forall i, k :: 0 <= i < |list| && IsFor(list[i], t.self, k) ==>
           var before := if k in was then Some(was[k]) else None;
           && k in next && EndpointBy(list[i], before, t.now, next[k]) && RelayedBy(k, before, t, next[k])
           && DeviceBy(e, k, next[k])
  {
    var next, e := Next(was, list, t), Result(d, was, list, t, order);
    DistinctKeysSettle(was, list, t);
    SyncedExactlyWhen(d, was, list, t, order);
    assert forall p: Listed, k :: IsFor(p, t.self, k) <==> Usable(p, t.self) && p.key == Some(k);
    SyncedKeys(e, next);
    hide Want, Next, Result, Synced, EndpointBy, RelayedBy, DeviceBy, AllSettle, AddrsDistinct;
    forall k ensures k in next <==> exists i :: 0 <= i < |list| && IsFor(list[i], t.self, k) {
      NextKeys(was, list, t, k);
    }
    forall i, k | 0 <= i < |list| && IsFor(list[i], t.self, k)
      ensures k in next && EndpointBy(list[i], Prev(was, k), t.now, next[k]) && RelayedBy(k, Prev(was, k), t, next[k])
      ensures DeviceBy(e, k, next[k])
    {
      NextAt(was, list, t, i);
      WantIs(Prev(was, k), list[i], t);
      SyncedIs(e, next, k);
    }
  }

  lemma SyncedKeys(d: Device, peers: map<Key, WgPeer>)
    ensures Synced(d, peers) ==> d.peers.Keys == peers.Keys
  {
    if Synced(d, peers) {
      assert forall k :: k in d.peers <==> k in Goals(peers);
    }
  }
}
