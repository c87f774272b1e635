/** The WireGuard device, as the configuration lines given to it leave it. */
module WireGuard {
  import opened Base
  import opened Netip

  /** A public key, in hex. */
  type Key = string

  datatype DevPeer = DevPeer(endpoint: Option<Target>, keepalive: nat)

  /** allowed says whose an address is: each has one owner, and giving it to one peer takes it from another. */
  datatype Device = Device(peers: map<Key, DevPeer>, allowed: map<IPv4, Key>)

  const EMPTY := Device(map[], map[])

  datatype Line =
    | PublicKey(key: Key)
    | ReplaceAllowedIPs
    | AllowedIP(ip: IPv4)
    | Endpoint(target: Target)
    | Keepalive(seconds: nat)
    | Remove

  /** The device while lines are read, and the peer the next one is about. */
  datatype Cursor = Cursor(device: Device, current: Option<Key>)

  function Without(allowed: map<IPv4, Key>, k: Key): map<IPv4, Key> {
    map ip | ip in allowed && allowed[ip] != k :: allowed[ip]
  }

  function Selected(d: Device, k: Key): Device {
    if k in d.peers then d else d.(peers := d.peers[k := DevPeer(None, 0)])
  }

  function Exec(c: Cursor, line: Line): Cursor {
    if line.PublicKey? then Cursor(Selected(c.device, line.key), Some(line.key))
    else if c.current.None? || c.current.value !in c.device.peers then c
    else ExecOn(c.device, c.current.value, line)
  }

  /** A line about peer k. */
  function ExecOn(d: Device, k: Key, line: Line): Cursor
    requires k in d.peers && !line.PublicKey?
  {
    match line
    case ReplaceAllowedIPs => Cursor(d.(allowed := Without(d.allowed, k)), Some(k))
    case AllowedIP(ip) => Cursor(d.(allowed := d.allowed[ip := k]), Some(k))
    case Endpoint(t) => Cursor(d.(peers := d.peers[k := d.peers[k].(endpoint := Some(t))]), Some(k))
    case Keepalive(n) => Cursor(d.(peers := d.peers[k := d.peers[k].(keepalive := n)]), Some(k))
    case Remove => Cursor(Removed(d, k), None)
  }

  function Interpret(c: Cursor, lines: seq<Line>): Cursor
    decreases |lines|
  {
    if lines == [] then c else Exec(Interpret(c, lines[..|lines| - 1]), lines[|lines| - 1])
  }

  lemma {:induction false} InterpretConcat(c: Cursor, a: seq<Line>, b: seq<Line>)
    ensures Interpret(c, a + b) == Interpret(Interpret(c, a), b)
    decreases |b|
  {
    if b == [] {
      assert a + b == a;
    } else {
      var n := |b| - 1;
      InterpretConcat(c, a, b[..n]);
      assert (a + b)[..|a| + n] == a + b[..n];
    }
  }

  // ---- the two kinds of block ----

  const KEEPALIVE_SECONDS := 25

  /** to is the endpoint to set, if it is to be set. */
  function Block(k: Key, ip: IPv4, to: Option<Target>): seq<Line> {
    [PublicKey(k), ReplaceAllowedIPs, AllowedIP(ip)] +
    if to.None? then [] else [Endpoint(to.value), Keepalive(KEEPALIVE_SECONDS)]
  }

  function Configured(d: Device, k: Key, ip: IPv4, to: Option<Target>): Device {
    var s := Selected(d, k);
    Device(if to.None? then s.peers else s.peers[k := DevPeer(to, KEEPALIVE_SECONDS)],
           Without(d.allowed, k)[ip := k])
  }

  function Removed(d: Device, k: Key): Device {
    Device(d.peers - {k}, Without(d.allowed, k))
  }

  lemma InterpretNext(c: Cursor, lines: seq<Line>, line: Line)
    ensures Interpret(c, lines + [line]) == Exec(Interpret(c, lines), line)
  {
    assert (lines + [line])[..|lines|] == lines;
  }

  lemma BlockConfigures(c: Cursor, k: Key, ip: IPv4, to: Option<Target>)
    ensures Interpret(c, Block(k, ip, to)).device == Configured(c.device, k, ip, to)
  {
    InterpretNext(c, [], PublicKey(k));
    InterpretNext(c, [PublicKey(k)], ReplaceAllowedIPs);
    InterpretNext(c, [PublicKey(k), ReplaceAllowedIPs], AllowedIP(ip));
    var base := [PublicKey(k), ReplaceAllowedIPs, AllowedIP(ip)];
    assert base == [PublicKey(k), ReplaceAllowedIPs] + [AllowedIP(ip)];
    if to.None? {
      assert Block(k, ip, to) == base;
    } else {
      InterpretNext(c, base, Endpoint(to.value));
      InterpretNext(c, base + [Endpoint(to.value)], Keepalive(KEEPALIVE_SECONDS));
      assert Block(k, ip, to) == base + [Endpoint(to.value)] + [Keepalive(KEEPALIVE_SECONDS)];
    }
  }

  lemma RemoveRemoves(c: Cursor, k: Key)
    ensures Interpret(c, [PublicKey(k), Remove]).device == Removed(c.device, k)
  {
    InterpretNext(c, [], PublicKey(k));
    InterpretNext(c, [PublicKey(k)], Remove);
    assert [PublicKey(k), Remove] == [PublicKey(k)] + [Remove];
    assert Removed(Selected(c.device, k), k) == Removed(c.device, k);
  }

  // ---- reading the device back ----

  /** The lines of the device's dump that matter: the rest, and values that do not parse, are Other. */
  datatype DumpLine = DumpKey(key: Key) | HandshakeSec(seconds: int) | Other

  /** What a dump says: the last positive handshake time given under each key, in nanoseconds. */
  function HandshakesIn(dump: seq<DumpLine>): map<Key, int>
    decreases |dump|
  {
    if dump == [] then map[]
    else
      var n := |dump| - 1;
      var out := HandshakesIn(dump[..n]);
      var key := KeyAt(dump[..n]);
      if dump[n].HandshakeSec? && dump[n].seconds > 0 && key != "" then out[key := dump[n].seconds * SECOND] else out
  }

  /** The key the next line is under, empty before the first. */
  function KeyAt(dump: seq<DumpLine>): Key
    decreases |dump|
  {
    if dump == [] then ""
    else if dump[|dump| - 1].DumpKey? then dump[|dump| - 1].key
    else KeyAt(dump[..|dump| - 1])
  }

  /** cmd/meshd/relay.go handshakes; no dump is an IpcGet that failed. */
  method Handshakes(dump: Option<seq<DumpLine>>) returns (out: map<Key, int>)
    ensures out == if dump.None? then map[] else HandshakesIn(dump.value)
  {
    out := map[];
    if dump.None? {
      return;
    }
    var key := "";
    for i := 0 to |dump.value|
      invariant out == HandshakesIn(dump.value[..i]) && key == KeyAt(dump.value[..i])
    {
      assert dump.value[..i + 1][..i] == dump.value[..i];
      match dump.value[i]
      case DumpKey(k) => key := k;
      case HandshakeSec(secs) =>
        if secs > 0 && key != "" {
          out := out[key := secs * SECOND];
        }
      case Other =>
    }
    assert dump.value[..|dump.value|] == dump.value;
  }

  /** One peer's part of a dump: its key, then anything, its handshake time somewhere in it. */
  datatype Entry = Entry(key: Key, before: nat, seconds: int, after: nat)

  function Others(n: nat): seq<DumpLine> {
    seq(n, _ => Other)
  }

  function DumpEntry(e: Entry): seq<DumpLine> {
    [DumpKey(e.key)] + Others(e.before) + [HandshakeSec(e.seconds)] + Others(e.after)
  }

  function DumpOf(es: seq<Entry>): seq<DumpLine> {
    if es == [] then [] else DumpOf(es[..|es| - 1]) + DumpEntry(es[|es| - 1])
  }

  lemma {:induction false} OthersSayNothing(dump: seq<DumpLine>, n: nat)
    ensures HandshakesIn(dump + Others(n)) == HandshakesIn(dump) && KeyAt(dump + Others(n)) == KeyAt(dump)
  {
    if n == 0 {
      assert dump + Others(n) == dump;
    } else {
      OthersSayNothing(dump, n - 1);
      assert (dump + Others(n))[..|dump| + n - 1] == dump + Others(n - 1);
    }
  }

  lemma EntrySays(dump: seq<DumpLine>, e: Entry)
    requires e.key != ""
    ensures HandshakesIn(dump + DumpEntry(e)) ==
      if e.seconds > 0 then HandshakesIn(dump)[e.key := e.seconds * SECOND] else HandshakesIn(dump)
  {
    var d1 := dump + [DumpKey(e.key)];
    assert d1[..|dump|] == dump;
    OthersSayNothing(d1, e.before);
    var d2 := d1 + Others(e.before);
    var d3 := d2 + [HandshakeSec(e.seconds)];
    assert d3[..|d2|] == d2;
    OthersSayNothing(d3, e.after);
    assert dump + DumpEntry(e) == d3 + Others(e.after);
  }

  /** Reading a device's dump gives exactly the handshake times the device has, and no time for a peer without one. */
  lemma {:induction false} HandshakesReadBack(es: seq<Entry>)
    requires forall i :: 0 <= i < |es| ==> es[i].key != ""
    requires forall i, j :: 0 <= i < j < |es| ==> es[i].key != es[j].key
    ensures forall i :: 0 <= i < |es| && es[i].seconds > 0 ==>
      es[i].key in HandshakesIn(DumpOf(es)) && HandshakesIn(DumpOf(es))[es[i].key] == es[i].seconds * SECOND
    ensures forall k :: k in HandshakesIn(DumpOf(es)) ==>
      exists i :: 0 <= i < |es| && es[i].key == k && es[i].seconds > 0
  {
    if es != [] {
      var n := |es| - 1;
      var z := es[..n];
      HandshakesReadBack(z);
      EntrySays(DumpOf(z), es[n]);
      forall k | k in HandshakesIn(DumpOf(es))
        ensures exists i :: 0 <= i < |es| && es[i].key == k && es[i].seconds > 0
      {
        if k in HandshakesIn(DumpOf(z)) {
          var i :| 0 <= i < |z| && z[i].key == k && z[i].seconds > 0;
          assert es[i] == z[i];
        } else {
          assert es[n].key == k && es[n].seconds > 0;
        }
      }
      forall i | 0 <= i < |es| && es[i].seconds > 0
        ensures es[i].key in HandshakesIn(DumpOf(es)) && HandshakesIn(DumpOf(es))[es[i].key] == es[i].seconds * SECOND
      {
        if i < n {
          assert z[i] == es[i];
        }
      }
    }
  }
}
