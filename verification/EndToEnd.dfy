/** From the peers table to the relay and the nodes: what enrolment guarantees is what they rely on. */
module EndToEnd {
  import opened Base
  import AddressPool
  import Enrollment
  import RelayBook
  import WireGuard
  import SyncPeers

  /** The mesh key each row of the table has, rows named by their position. */
  function Homes(peers: seq<Enrollment.Peer>): map<PeerId, RelayBook.MeshKey> {
    map i | 0 <= i < |peers| && peers[i].ip.V4? :: RelayBook.MeshKey(peers[i].tenant, peers[i].ip.value)
  }

  lemma HomesAreDistinct(es: seq<Enrollment.Event>)
    ensures RelayBook.HomesDistinct(Homes(Enrollment.Run(Enrollment.Init(), es).db.peers))
  {
    var peers := Enrollment.Run(Enrollment.Init(), es).db.peers;
    var home := Homes(peers);
    forall i, j | i in home && j in home && i != j ensures home[i] != home[j] {
      if i < j {
        Enrollment.PeersDistinct(es, i, j);
      } else {
        Enrollment.PeersDistinct(es, j, i);
      }
    }
  }

  /** Over any run of enrolments and any run of the relay that issues tokens to enrolled peers under the address the
      table has for them, every registered session is found by its mesh address. */
  lemma RelayFindsEnrolled(es: seq<Enrollment.Event>, ops: seq<RelayBook.Op>)
    requires RelayBook.AtHome(ops, Homes(Enrollment.Run(Enrollment.Init(), es).db.peers))
    ensures var b := RelayBook.RunOps(RelayBook.Ledger(RelayBook.EMPTY, {}), ops).book;
      RelayBook.Wf(b) && RelayBook.MeshTotal(b)
  {
    HomesAreDistinct(es);
    RelayBook.MeshAlwaysTotal(ops, Homes(Enrollment.Run(Enrollment.Init(), es).db.peers));
  }

  /** Decoding keys: None for a text that is no key. */
  type Decoder = string -> Option<WireGuard.Key>

  ghost predicate Injective(decode: Decoder) {
    forall a, b :: decode(a).Some? && decode(a) == decode(b) ==> a == b
  }

  /** list is peers of the tenant as a node reads them, each at most once, in any order, whatever it says about
      endpoints: order says which row an entry is. */
  ghost predicate ListsTenant(list: seq<SyncPeers.Listed>, mine: seq<Enrollment.Peer>, order: seq<nat>,
                              decode: Decoder)
  {
    && |list| == |order|
    && (forall i, j :: 0 <= i < j < |order| ==> order[i] != order[j])
    && forall i :: 0 <= i < |list| ==>
         && order[i] < |mine|
         && list[i].key == decode(mine[order[i]].key)
         && list[i].meshIP == if mine[order[i]].ip.V4? then Some(mine[order[i]].ip.value) else None
  }

  lemma {:induction false} OfKeysDistinct(peers: seq<Enrollment.Peer>, t: TenantId, a: nat, b: nat)
    requires Enrollment.KeysDistinct(peers) && a < b < |Enrollment.Of(peers, t)|
    ensures Enrollment.Of(peers, t)[a].key != Enrollment.Of(peers, t)[b].key
  {
    var n := |peers| - 1;
    var front := peers[..n];
    if b < |Enrollment.Of(front, t)| {
      OfKeysDistinct(front, t, a, b);
    } else {
      Enrollment.OfMembers(front, t, Enrollment.Of(front, t)[a]);
      var i :| 0 <= i < n && front[i] == Enrollment.Of(front, t)[a];
      assert peers[i] == front[i];
    }
  }

  /** A node that reads its tenant's peers, in whatever order, gets a list that names no mesh address twice; and none
      that names a key twice, if no two key texts decode to one key. */
  lemma TenantListIsDistinct(es: seq<Enrollment.Event>, t: TenantId, list: seq<SyncPeers.Listed>, order: seq<nat>,
                             decode: Decoder, self: PeerId)
    requires var db := Enrollment.Run(Enrollment.Init(), es).db;
      t in db.tenants && ListsTenant(list, Enrollment.Of(db.peers, t), order, decode)
    ensures SyncPeers.AddrsDistinct(list, self)
    ensures Injective(decode) ==> SyncPeers.KeysDistinct(list, self)
  {
    var db := Enrollment.Run(Enrollment.Init(), es).db;
    var mine := Enrollment.Of(db.peers, t);
    Enrollment.Reachable(es);
    assert Enrollment.Contiguous(db.tenants[t], mine);
    forall i, j | 0 <= i < j < |list| && SyncPeers.Usable(list[i], self) && SyncPeers.Usable(list[j], self)
      ensures list[i].meshIP != list[j].meshIP && (Injective(decode) ==> list[i].key != list[j].key)
    {
      var a, b := order[i], order[j];
      if a < b {
        OfKeysDistinct(db.peers, t, a, b);
      } else {
        OfKeysDistinct(db.peers, t, b, a);
      }
      assert mine[a].ip == AddressPool.Nth(db.tenants[t], a) && mine[b].ip == AddressPool.Nth(db.tenants[t], b);
    }
  }
}
