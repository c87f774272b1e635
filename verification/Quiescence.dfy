/** Any number of datagrams in flight between any hosts: however they are delivered, delayed or lost, the answers to
    them run out. */
module Quiescence {
  import opened Base
  import opened Netip
  import opened RelayBook
  import opened Protocol

  /** src is the address the receiver will see. */
  datatype Flight = Flight(src: Source, dst: AddrPort, bytes: seq<byte>)

  datatype Net = Net(flights: seq<Flight>, book: Book)

  /** The next event: which datagram, whether it is lost, and what the receiver's answer will be seen to come from. */
  datatype Delivery = Delivery(i: nat, lost: bool, relaySet: bool, nodeRelay: AddrPort, seenAs: Source, now: int)

  predicate IsServer(hosts: map<AddrPort, Host>, a: AddrPort) {
    a in hosts && hosts[a].Server?
  }

  /** Control planes do not write to each other. */
  predicate Sane(net: Net, hosts: map<AddrPort, Host>) {
    && Unset !in hosts && NodesRegistered(net.book, hosts)
    && forall i :: 0 <= i < |net.flights| && IsServer(hosts, net.flights[i].dst) ==>
         !IsServer(hosts, Unmapped(net.flights[i].src))
  }

  /** A node's answer is not seen to come from a control plane; a control plane's may be. */
  predicate Allowed(net: Net, hosts: map<AddrPort, Host>, d: Delivery) {
    && d.i < |net.flights|
    && (IsServer(hosts, net.flights[d.i].dst) || !IsServer(hosts, Unmapped(d.seenAs)))
  }

  ghost function Received(net: Net, hosts: map<AddrPort, Host>, d: Delivery): (Book, Option<Datagram>)
    requires Allowed(net, hosts, d)
  {
    var f := net.flights[d.i];
    if d.lost || f.dst !in hosts then (net.book, None)
    else if hosts[f.dst].Server? then Serve(net.book, d.relaySet, f.bytes, f.src, d.now)
    else (net.book, Answer(d.nodeRelay, f.bytes, Unmapped(f.src)))
  }

  function Rest(flights: seq<Flight>, i: nat): seq<Flight>
    requires i < |flights|
  {
    flights[..i] + flights[i + 1..]
  }

  ghost function Deliver(net: Net, hosts: map<AddrPort, Host>, d: Delivery): Net
    requires Allowed(net, hosts, d)
  {
    var (book, out) := Received(net, hosts, d);
    Net(Rest(net.flights, d.i) + (if out.None? then [] else [Flight(d.seenAs, out.value.dst, out.value.bytes)]), book)
  }

  /** One for the datagram, and its rank where it goes. */
  function Weight(f: Flight, hosts: map<AddrPort, Host>): nat {
    1 + if f.dst in hosts then Rank(hosts[f.dst], f.bytes) else 0
  }

  function Load(flights: seq<Flight>, hosts: map<AddrPort, Host>): nat {
    if flights == [] then 0 else Load(flights[..|flights| - 1], hosts) + Weight(flights[|flights| - 1], hosts)
  }

  lemma {:induction false} LoadConcat(a: seq<Flight>, b: seq<Flight>, hosts: map<AddrPort, Host>)
    ensures Load(a + b, hosts) == Load(a, hosts) + Load(b, hosts)
    decreases |b|
  {
    if b == [] {
      assert a + b == a;
    } else {
      LoadConcat(a, b[..|b| - 1], hosts);
      assert (a + b)[..|a + b| - 1] == a + b[..|b| - 1];
    }
  }

  lemma {:induction false} LoadBound(flights: seq<Flight>, hosts: map<AddrPort, Host>)
    ensures Load(flights, hosts) <= 2 * |flights|
  {
    if flights != [] {
      LoadBound(flights[..|flights| - 1], hosts);
    }
  }

  lemma LoadWithout(flights: seq<Flight>, i: nat, hosts: map<AddrPort, Host>)
    requires i < |flights|
    ensures Load(flights, hosts) == Load(Rest(flights, i), hosts) + Weight(flights[i], hosts)
  {
    assert flights == flights[..i] + ([flights[i]] + flights[i + 1..]);
    LoadConcat(flights[..i], [flights[i]] + flights[i + 1..], hosts);
    LoadConcat([flights[i]], flights[i + 1..], hosts);
    LoadConcat(flights[..i], flights[i + 1..], hosts);
    assert [flights[i]][..0] == [];
  }

  lemma ServeRegisters(b: Book, relay: bool, bytes: seq<byte>, from: Source, now: int, hosts: map<AddrPort, Host>)
    requires NodesRegistered(b, hosts) && Unset !in hosts && !IsServer(hosts, Unmapped(from))
    ensures NodesRegistered(Serve(b, relay, bytes, from, now).0, hosts)
  {
    HandleAddrs(b, Cut(bytes), Unmapped(from), now);
    hide Handle;
  }

  lemma DeliverKeeps(net: Net, hosts: map<AddrPort, Host>, d: Delivery)
    requires Sane(net, hosts) && Allowed(net, hosts, d)
    ensures Sane(Deliver(net, hosts, d), hosts)
  {
    var f, z := net.flights[d.i], Deliver(net, hosts, d);
    if IsServer(hosts, f.dst) {
      ServeRegisters(net.book, d.relaySet, f.bytes, f.src, d.now, hosts);
    }
    hide Serve, Answer, NodesRegistered;
    forall i | 0 <= i < |z.flights| && IsServer(hosts, z.flights[i].dst)
      ensures !IsServer(hosts, Unmapped(z.flights[i].src))
    {
      if i < |net.flights| - 1 {
        assert z.flights[i] == net.flights[if i < d.i then i else i + 1];
      }
    }
  }

  lemma DeliverDescends(net: Net, hosts: map<AddrPort, Host>, d: Delivery)
    requires Sane(net, hosts) && Allowed(net, hosts, d)
    ensures Load(Deliver(net, hosts, d).flights, hosts) < Load(net.flights, hosts)
  {
    var f, rest := net.flights[d.i], Rest(net.flights, d.i);
    LoadWithout(net.flights, d.i, hosts);
    var out := Received(net, hosts, d).1;
    if out.None? {
      assert rest + [] == rest;
    } else {
      var g := Flight(d.seenAs, out.value.dst, out.value.bytes);
      if hosts[f.dst].Server? {
        ServeDescends(net.book, d.relaySet, f.bytes, f.src, d.now, hosts);
        CutRank(f.bytes);
      } else {
        AnswerDescends(d.nodeRelay, f.bytes, Unmapped(f.src), Server);
        AnswerDescends(d.nodeRelay, f.bytes, Unmapped(f.src), Node);
      }
      hide Serve, Answer, Rank, Load, Rest;
      assert Weight(g, hosts) < Weight(f, hosts);
      LoadOne(rest, g, hosts);
    }
  }

  lemma LoadOne(rest: seq<Flight>, g: Flight, hosts: map<AddrPort, Host>)
    ensures Load(rest + [g], hosts) == Load(rest, hosts) + Weight(g, hosts)
  {
    assert (rest + [g])[..|rest|] == rest;
  }

  ghost predicate CanRun(net: Net, hosts: map<AddrPort, Host>, ds: seq<Delivery>)
    decreases |ds|
  {
    ds == [] || (Allowed(net, hosts, ds[0]) && CanRun(Deliver(net, hosts, ds[0]), hosts, ds[1..]))
  }

  /** n datagrams cause at most 2n deliveries in all, answers included. */
  lemma AnsweringEnds(net: Net, hosts: map<AddrPort, Host>, ds: seq<Delivery>)
    requires Sane(net, hosts) && CanRun(net, hosts, ds)
    ensures |ds| <= 2 * |net.flights|
  {
    RunBound(net, hosts, ds);
    LoadBound(net.flights, hosts);
  }

  lemma {:induction false} RunBound(net: Net, hosts: map<AddrPort, Host>, ds: seq<Delivery>)
    requires Sane(net, hosts) && CanRun(net, hosts, ds)
    ensures |ds| <= Load(net.flights, hosts)
    decreases |ds|
  {
    if ds != [] {
      hide Sane, Allowed, Deliver, Load;
      DeliverKeeps(net, hosts, ds[0]);
      DeliverDescends(net, hosts, ds[0]);
      RunBound(Deliver(net, hosts, ds[0]), hosts, ds[1..]);
    }
  }
}
