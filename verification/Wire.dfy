/** Frames of the control plane's UDP protocol, and addresses inside them. */
module Wire {
  import opened Netip

  const VERSION: byte := 0

  const TYPE_PROBE: byte := 1
  const TYPE_PROBE_REPLY: byte := 2
  const TYPE_BINDING_REQUEST: byte := 3
  const TYPE_BINDING_RESPONSE: byte := 4
  const TYPE_RELAY_REGISTER: byte := 5
  const TYPE_RELAY_ACK: byte := 6
  const TYPE_RELAY_DATA: byte := 7

  const HEADER_LEN := 4
  const RELAY_TOKEN_LEN := 16
  const RELAY_HEADER_LEN := HEADER_LEN + 4
  const NONCE_LEN := 16
  const ADDR_PORT_LEN := 18
  const BINDING_LEN := NONCE_LEN + ADDR_PORT_LEN
  const MAX_FRAME_LEN := 2048

  type Token = t: seq<byte> | |t| == RELAY_TOKEN_LEN witness seq(RELAY_TOKEN_LEN, _ => 0)
  type Nonce = n: seq<byte> | |n| == NONCE_LEN witness seq(NONCE_LEN, _ => 0)

  datatype Decoded = ErrShortFrame | ErrVersion(version: byte) | Frame(typ: byte, payload: seq<byte>)

  function Encode(typ: byte, payload: seq<byte>): seq<byte> {
    [VERSION, typ, 0, 0] + payload
  }

  /** Encoding over a buffer, from its start, in two appends: the header, then the payload. Each goes into the array
      at hand if it has room there and else into a new one, so a buffer that only the payload outgrows keeps the header
      in its first four bytes. */
  method EncodeInto(dst: array<byte>, typ: byte, payload: seq<byte>) returns (out: array<byte>, n: nat)
    modifies dst
    ensures n <= out.Length && out[..n] == Encode(typ, payload)
    ensures if HEADER_LEN + |payload| <= dst.Length then out == dst else fresh(out)
    ensures dst.Length < HEADER_LEN ==> dst[..] == old(dst[..])
    ensures dst.Length >= HEADER_LEN ==> dst[..HEADER_LEN] == Encode(typ, [])
    ensures HEADER_LEN <= dst.Length < HEADER_LEN + |payload| ==> dst[HEADER_LEN..] == old(dst[..])[HEADER_LEN..]
  {
    out := dst;
    if HEADER_LEN > out.Length {
      out := new byte[HEADER_LEN](_ => 0);
    }
    out[0], out[1], out[2], out[3] := VERSION, typ, 0, 0;
    n := HEADER_LEN + |payload|;
    if n > out.Length {
      var grown := new byte[n](_ => 0);
      forall i | 0 <= i < HEADER_LEN {
        grown[i] := out[i];
      }
      out := grown;
    }
    assert out[..HEADER_LEN] == Encode(typ, []);
    forall i | 0 <= i < |payload| {
      out[HEADER_LEN + i] := payload[i];
    }
    assert out[..n] == out[..HEADER_LEN] + payload;
  }

  function Decode(buf: seq<byte>): Decoded {
    if |buf| < HEADER_LEN then ErrShortFrame
    else if buf[0] != VERSION then ErrVersion(buf[0])
    else Frame(buf[1], buf[HEADER_LEN..])
  }

  /** Decoding undoes encoding. */
  lemma DecodeEncode(typ: byte, payload: seq<byte>)
    ensures Decode(Encode(typ, payload)) == Frame(typ, payload)
  {
    assert Encode(typ, payload)[HEADER_LEN..] == payload;
  }

  /** Decoding accepts exactly what encoding makes, whatever the two reserved bytes hold. */
  lemma DecodeAccepts(buf: seq<byte>, typ: byte, payload: seq<byte>)
    ensures Decode(buf) == Frame(typ, payload) <==>
      |buf| >= HEADER_LEN && buf == Encode(typ, payload)[2 := buf[2]][3 := buf[3]]
  {
    if |buf| >= HEADER_LEN {
      var e := Encode(typ, payload)[2 := buf[2]][3 := buf[3]];
      if Decode(buf) == Frame(typ, payload) {
        assert forall i :: HEADER_LEN <= i < |buf| ==> buf[i] == payload[i - HEADER_LEN];
        assert buf == e;
      }
      if buf == e {
        assert e[HEADER_LEN..] == payload;
      }
    }
  }

  // ---- addresses ----

  function FromBigEndian(s: seq<byte>): nat {
    if s == [] then 0 else 256 * FromBigEndian(s[..|s| - 1]) + s[|s| - 1]
  }

  lemma {:induction false} BigEndianRoundTrip(v: nat, n: nat)
    requires v < Pow2(8 * n)
    ensures FromBigEndian(BigEndian(v, n)) == v
  {
    if n > 0 {
      Pow2Byte(8 * n - 8);
      BigEndianRoundTrip(v / 256, n - 1);
      assert BigEndian(v, n)[..n - 1] == BigEndian(v / 256, n - 1);
    }
  }

  lemma {:induction false} FromBigEndianBound(s: seq<byte>)
    ensures FromBigEndian(s) < Pow2(8 * |s|)
  {
    if s != [] {
      Pow2Byte(8 * |s| - 8);
      FromBigEndianBound(s[..|s| - 1]);
    }
  }

  lemma {:induction false} FromBigEndianInjective(s: seq<byte>, t: seq<byte>)
    requires |s| == |t| && FromBigEndian(s) == FromBigEndian(t)
    ensures s == t
  {
    if s != [] {
      var n := |s| - 1;
      FromBigEndianInjective(s[..n], t[..n]);
      assert s == s[..n] + [s[n]] && t == t[..n] + [t[n]];
    }
  }

  /** The 128-bit form of an address: an IPv4 one moves under ::ffff:0:0/96. */
  function As16(a: Addr): (v: nat)
    ensures v < V6(0, "").Limit()
  {
    if a.V4? then 0xffff * 0x1_0000_0000 + a.value else a.value
  }

  function AppendAddrPort(dst: seq<byte>, addr: Addr, port: nat): seq<byte> {
    dst + BigEndian(As16(addr), 16) + BigEndian(port, 2)
  }

  function ParseAddrPort(b: seq<byte>): AddrPort
    requires |b| >= ADDR_PORT_LEN
  {
    FromBigEndianBound(b[..16]);
    LimitIsPow2(V6(0, ""));
    At(Unmap(V6(FromBigEndian(b[..16]), "")), FromBigEndian(b[16..ADDR_PORT_LEN]))
  }

  lemma UnmapAs16(addr: Addr)
    ensures Unmap(V6(As16(addr), "")) == if Unmap(addr).V6? then V6(addr.value, "") else Unmap(addr)
  {
    if addr.V4? {
      DivUnique(As16(addr), 0x1_0000_0000, 0xffff);
    }
  }

  /** Parsing what was appended gives the unmapped address back, except that an IPv6 zone is lost. */
  lemma ParseAppended(dst: seq<byte>, addr: Addr, port: nat, tail: seq<byte>)
    requires port < 65536
    ensures ParseAddrPort((AppendAddrPort(dst, addr, port) + tail)[|dst|..]) ==
      At(if Unmap(addr).V6? then V6(addr.value, "") else Unmap(addr), port)
  {
    hide Unmap, As16, FromBigEndian, BigEndian;
    Pow2Byte(0);
    Pow2Byte(8);
    hide Pow2;
    var b := (AppendAddrPort(dst, addr, port) + tail)[|dst|..];
    var ip, p := BigEndian(As16(addr), 16), BigEndian(port, 2);
    assert b == ip + p + tail;
    assert b[..16] == ip && b[16..18] == p;
    LimitIsPow2(V6(0, ""));
    BigEndianRoundTrip(As16(addr), 16);
    BigEndianRoundTrip(port, 2);
    UnmapAs16(addr);
  }

  /** So the round trip is the identity up to unmapping exactly for addresses without a zone, or whose zone
      unmapping drops anyway. */
  lemma AddrPortRoundTrip(addr: Addr, port: nat)
    requires port < 65536
    ensures ParseAddrPort(AppendAddrPort([], addr, port)) == At(Unmap(addr), port) <==>
      (addr.V6? ==> addr.zone == "" || Is4In6(addr))
  {
    ParseAppended([], addr, port, []);
    assert (AppendAddrPort([], addr, port) + [])[0..] == AppendAddrPort([], addr, port);
  }

  /** An IPv4 address is the four bytes a relay frame carries. */
  function As4(ip: IPv4): (s: seq<byte>)
    ensures |s| == 4
  {
    BigEndian(ip, 4)
  }

  function AddrFrom4(s: seq<byte>): IPv4
    requires |s| == 4
  {
    FromBigEndianBound(s);
    LimitIsPow2(V4(0));
    FromBigEndian(s)
  }

  lemma TwoBytes(v: nat)
    ensures BigEndian(v, 2) == [v / 256 % 256, v % 256]
  {
  }

  /** Network order: the most significant byte comes first. */
  lemma NetworkOrder(ip: IPv4, port: nat)
    requires port < 65536
    ensures As4(ip) == [ip / 0x100_0000, ip / 0x1_0000 % 256, ip / 0x100 % 256, ip % 256]
    ensures BigEndian(port, 2) == [port / 256, port % 256]
  {
    TwoBytes(port);
    TwoBytes(ip / 0x1_0000);
    LimitIsPow2(V4(0));
    hide BigEndian;
    FourBytes(ip);
  }

  lemma FourBytes(v: nat)
    ensures BigEndian(v, 4) == BigEndian(v / 0x1_0000, 2) + [v / 0x100 % 256, v % 256]
  {
    assert v / 256 / 256 == v / 0x1_0000;
  }

  lemma Addr4RoundTrip(ip: IPv4)
    ensures AddrFrom4(As4(ip)) == ip
  {
    LimitIsPow2(V4(0));
    BigEndianRoundTrip(ip, 4);
  }
}
