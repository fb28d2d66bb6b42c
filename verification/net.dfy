/** Bytes, addresses and the option type shared by the broker's modules. */
module Net {

  datatype Option<+T> = None | Some(value: T)

  type u8 = x: int | 0 <= x < 0x100
  type u16 = x: int | 0 <= x < 0x1_0000

  /** An address as its octets: four for IPv4, sixteen for IPv6. */
  datatype RawIp = V4(octets: seq<u8>) | V6(octets: seq<u8>)

  type IpAddr = a: RawIp | |a.octets| == (if a.V4? then 4 else 16)
    witness V4([0, 0, 0, 0])

  datatype SocketAddr = SocketAddr(ip: IpAddr, port: u16)

  const ZEROS_10: seq<u8> := [0, 0, 0, 0, 0, 0, 0, 0, 0, 0]

  /** An IPv4-mapped IPv6 address: `::ffff:a.b.c.d`. */
  predicate IsMapped(a: IpAddr) {
    a.V6? && a.octets[..10] == ZEROS_10 && a.octets[10] == 0xff && a.octets[11] == 0xff
  }

  /** IPv4-mapped IPv6 addresses become IPv4; everything else is unchanged. */
  function ToCanonical(a: IpAddr): (r: IpAddr)
    ensures !IsMapped(r)
    ensures r == a || (IsMapped(a) && r.V4? && a.octets == ZEROS_10 + [0xff, 0xff] + r.octets)
    ensures !IsMapped(a) ==> r == a
  {
    if IsMapped(a) then V4(a.octets[12..]) else a
  }

  /** Exactly the mapped addresses change, each to the IPv4 address in its last four
      octets. */
  lemma CanonicalIs(a: IpAddr)
    ensures forall o: seq<u8> :: |o| == 4 ==>
              (a == V6([0, 0, 0, 0, 0, 0, 0, 0, 0, 0, 0xff, 0xff] + o) ==> ToCanonical(a) == V4(o))
    ensures ToCanonical(a) != a ==> a.V6? && a.octets[..12] == [0, 0, 0, 0, 0, 0, 0, 0, 0, 0, 0xff, 0xff]
  {
    forall o: seq<u8> | |o| == 4 && a == V6([0, 0, 0, 0, 0, 0, 0, 0, 0, 0, 0xff, 0xff] + o) ensures ToCanonical(a) == V4(o) {
      assert a.octets[..10] == ZEROS_10 && a.octets[12..] == o;
    }
    if IsMapped(a) {
      assert a.octets[..12] == a.octets[..10] + [a.octets[10], a.octets[11]];
    }
  }

  /** Two addresses share a canonical form only when they are equal or one is
      the mapped form of the other. */
  lemma CanonicalForms(a: IpAddr, b: IpAddr)
    ensures ToCanonical(ToCanonical(a)) == ToCanonical(a)
    ensures ToCanonical(a) == ToCanonical(b) && IsMapped(a) == IsMapped(b) ==> a == b
  {
  }
}
