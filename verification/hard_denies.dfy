/** Addresses that no rule can open, as the ranges they are. */
module HardDenies {
  import opened Net
  import opened HostPatterns
  import opened Decision

  const ZEROS_14: seq<u8> := ZEROS_10 + [0, 0, 0, 0]

  /** Four ranges of each family; single addresses are ranges of full length. */
  const RANGES: seq<IpNet> := [
    Net(V4([169, 254, 0, 0]), 16),
    Net(V4([224, 0, 0, 0]), 4),
    Net(V4([0, 0, 0, 0]), 32),
    Net(V4([255, 255, 255, 255]), 32),
    Net(V6([0xff, 0] + ZEROS_14), 8),
    Net(V6([0, 0] + ZEROS_14), 128),
    Net(V6([0xfe, 0x80] + ZEROS_14), 10),
    Net(V6([0xfd, 0, 0x0e, 0xc2] + ZEROS_10 + [2, 0x54]), 128)
  ]

  //--- ranges by octets --------------------------------------------------------------------------

  function BitOf(octet: u8, j: nat): nat
    requires j < 8
  {
    (octet / [128, 64, 32, 16, 8, 4, 2, 1][j]) % 2
  }

  /** What is left of an octet when only its first `m` bits count. */
  function Top(octet: u8, m: nat): nat
    requires m <= 8
  {
    octet / [256, 128, 64, 32, 16, 8, 4, 2, 1][m]
  }

  predicate TopBitsAgree(x: u8, y: u8, m: nat)
    requires m <= 8
  {
    forall j :: 0 <= j < m ==> BitOf(x, j) == BitOf(y, j)
  }

  lemma TopGrows(octet: u8, m: nat)
    requires m < 8
    ensures Top(octet, m + 1) == 2 * Top(octet, m) + BitOf(octet, m)
  {
    if m < 3 {
      TopGrowsHigh(octet, m);
    } else if m < 6 {
      TopGrowsMiddle(octet, m);
    } else {
      TopGrowsLow(octet, m);
    }
  }

  lemma TopGrowsHigh(octet: u8, m: nat)
    requires m < 3
    ensures Top(octet, m + 1) == 2 * Top(octet, m) + BitOf(octet, m)
  {
    assert m == 0 || m == 1 || m == 2;
  }

  lemma TopGrowsMiddle(octet: u8, m: nat)
    requires 3 <= m < 6
    ensures Top(octet, m + 1) == 2 * Top(octet, m) + BitOf(octet, m)
  {
    assert m == 3 || m == 4 || m == 5;
  }

  lemma TopGrowsLow(octet: u8, m: nat)
    requires 6 <= m < 8
    ensures Top(octet, m + 1) == 2 * Top(octet, m) + BitOf(octet, m)
  {
    assert m == 6 || m == 7;
  }

  lemma {:induction false} TopIsItsBits(x: u8, y: u8, m: nat)
    requires m <= 8
    ensures TopBitsAgree(x, y, m) <==> Top(x, m) == Top(y, m)
  {
    if m > 0 {
      TopIsItsBits(x, y, m - 1);
      TopGrows(x, m - 1);
      TopGrows(y, m - 1);
    }
  }

  /** The whole octets that the range covers agree, and so do the leading bits of
      the next one. */
  predicate SharesPrefix(net: IpNet, a: IpAddr) {
    var k, m := net.prefix / 8, net.prefix % 8;
    && net.base.V4? == a.V4? && net.base.octets[..k] == a.octets[..k]
    && (m > 0 ==> Top(net.base.octets[k], m) == Top(a.octets[k], m))
  }

  /** A range holds exactly the addresses of its family that share its prefix. */
  lemma ContainsByOctets(net: IpNet, a: IpAddr)
    ensures Contains(net, a) <==> SharesPrefix(net, a)
  {
    var k, m := net.prefix / 8, net.prefix % 8;
    if net.base.V4? == a.V4? {
      if Contains(net, a) {
        forall i | 0 <= i < k ensures net.base.octets[i] == a.octets[i] {
          OctetsAgree(net, a, i, 8);
        }
        if m > 0 { OctetsAgree(net, a, k, m); }
      }
      if net.base.octets[..k] == a.octets[..k] && (m > 0 ==> Top(net.base.octets[k], m) == Top(a.octets[k], m)) {
        forall i | 0 <= i < 8 * |a.octets| && i < net.prefix ensures Bit(net.base, i) == Bit(a, i) {
          if i / 8 < k {
            assert net.base.octets[..k][i / 8] == a.octets[..k][i / 8];
          } else {
            TopIsItsBits(net.base.octets[k], a.octets[k], m);
            assert BitOf(net.base.octets[k], i % 8) == BitOf(a.octets[k], i % 8);
          }
        }
      }
    }
  }

  lemma OctetsAgree(net: IpNet, a: IpAddr, i: nat, m: nat)
    requires Contains(net, a) && m <= 8 && 8 * i + m <= net.prefix && i < |a.octets|
    ensures Top(net.base.octets[i], m) == Top(a.octets[i], m)
    ensures m == 8 ==> net.base.octets[i] == a.octets[i]
  {
    forall j | 0 <= j < m ensures BitOf(net.base.octets[i], j) == BitOf(a.octets[i], j) {
      assert Bit(net.base, 8 * i + j) == Bit(a, 8 * i + j);
      assert (8 * i + j) / 8 == i && (8 * i + j) % 8 == j;
    }
    TopIsItsBits(net.base.octets[i], a.octets[i], m);
  }

  //--- hard denies -------------------------------------------------------------------------------

  /** Exactly the addresses in these ranges are hard-denied, whether they are
      written as themselves or as IPv4-mapped IPv6. */
  lemma HardDeniedRanges(a: IpAddr)
    ensures IsHardDenied(a) <==> exists i :: 0 <= i < |RANGES| && Contains(RANGES[i], ToCanonical(a))
  {
    var c := ToCanonical(a);
    if c.V4? {
      V4Ranges(c);
    } else {
      V6Ranges(c);
    }
    assert forall i :: 0 <= i < |RANGES| && Contains(RANGES[i], c) ==> (RANGES[i].base.V4? <==> c.V4?);
  }

  lemma LinkLocalV4(c: IpAddr)
    requires c.V4?
    ensures Contains(RANGES[0], c) <==> c.octets[0] == 169 && c.octets[1] == 254
  {
    ContainsByOctets(RANGES[0], c);
    assert c.octets[..2] == [c.octets[0], c.octets[1]];
    assert [169, 254, 0, 0][..2] == [169, 254];
  }

  lemma MulticastV4(c: IpAddr)
    requires c.V4?
    ensures Contains(RANGES[1], c) <==> 224 <= c.octets[0] < 240
  {
    ContainsByOctets(RANGES[1], c);
  }

  lemma SingleV4(c: IpAddr)
    requires c.V4?
    ensures Contains(RANGES[2], c) <==> c.octets == [0, 0, 0, 0]
    ensures Contains(RANGES[3], c) <==> c.octets == [255, 255, 255, 255]
  {
    ContainsByOctets(RANGES[2], c);
    ContainsByOctets(RANGES[3], c);
    assert c.octets[..4] == c.octets;
  }

  lemma V4Ranges(c: IpAddr)
    requires c.V4?
    ensures IsHardDenied(c) <==>
              Contains(RANGES[0], c) || Contains(RANGES[1], c) || Contains(RANGES[2], c) || Contains(RANGES[3], c)
  {
    LinkLocalV4(c);
    MulticastV4(c);
    SingleV4(c);
  }

  lemma MulticastV6(c: IpAddr)
    requires c.V6?
    ensures Contains(RANGES[4], c) <==> c.octets[0] == 0xff
  {
    ContainsByOctets(RANGES[4], c);
    assert c.octets[..1] == [c.octets[0]];
  }

  lemma LinkLocalV6(c: IpAddr)
    requires c.V6?
    ensures Contains(RANGES[6], c) <==> c.octets[0] == 0xfe && c.octets[1] / 64 == 2
  {
    ContainsByOctets(RANGES[6], c);
    assert c.octets[..1] == [c.octets[0]];
  }

  lemma SingleV6(c: IpAddr)
    requires c.V6?
    ensures Contains(RANGES[5], c) <==> c.octets == ZEROS_10 + [0, 0, 0, 0, 0, 0]
    ensures Contains(RANGES[7], c) <==>
              c.octets == [0xfd, 0, 0x0e, 0xc2, 0, 0, 0, 0, 0, 0, 0, 0, 0, 0, 2, 0x54]
  {
    ContainsByOctets(RANGES[5], c);
    ContainsByOctets(RANGES[7], c);
    assert c.octets[..16] == c.octets;
    assert RANGES[5].base.octets == ZEROS_10 + [0, 0, 0, 0, 0, 0];
    assert RANGES[7].base.octets == [0xfd, 0, 0x0e, 0xc2, 0, 0, 0, 0, 0, 0, 0, 0, 0, 0, 2, 0x54];
  }

  lemma V6Ranges(c: IpAddr)
    requires c.V6? && ToCanonical(c) == c
    ensures IsHardDenied(c) <==>
              Contains(RANGES[4], c) || Contains(RANGES[5], c) || Contains(RANGES[6], c) || Contains(RANGES[7], c)
  {
    MulticastV6(c);
    LinkLocalV6(c);
    SingleV6(c);
  }

  /** The request was well formed, and its address is in none of the ranges. */
  predicate IsOpenTo(admission: Admission) {
    && !admission.malformed
    && forall i :: 0 <= i < |RANGES| ==> !Contains(RANGES[i], ToCanonical(admission.address))
  }

  lemma OpenToIs(admission: Admission)
    ensures IsOpenTo(admission) <==> !admission.malformed && !IsHardDenied(ToCanonical(admission.address))
  {
    CanonicalForms(admission.address, admission.address);
    HardDeniedRanges(ToCanonical(admission.address));
  }

  /** Some mode, rules and grants let the flow through. */
  ghost predicate CanBeAllowed(show: IpAddr -> string, admission: Admission) {
    exists mode, layers, session, now :: DecideLayered(show, admission, mode, layers, session, now).Allow?
  }

  /** A flow can be let through by anything at all exactly when its request was
      well formed and its address lies in none of the ranges. */
  lemma OnlyHardDeniesAreFinal(show: IpAddr -> string, admission: Admission)
    ensures CanBeAllowed(show, admission) <==> IsOpenTo(admission)
    ensures !IsOpenTo(admission) ==>
              forall mode, layers, session, now :: DecideLayered(show, admission, mode, layers, session, now).Deny?
  {
    OpenToIs(admission);
    if !admission.malformed && !IsHardDenied(ToCanonical(admission.address)) {
      assert DecideLayered(show, admission, Open, [], Session(map[]), 0).Allow?;
    }
  }

  /** In open mode nothing else counts: such a flow is allowed and any other is
      denied, nobody is asked, and rules, grants, candidates and the time make no
      difference. */
  lemma OpenModeIff(show: IpAddr -> string, admission: Admission, layers: seq<Rules>, session: Session, now: int,
                    candidates: seq<Chain>, layers': seq<Rules>, session': Session, now': int)
    ensures var d := DecideLayered(show, admission, Open, layers, session, now);
            && (d.Allow? <==> IsOpenTo(admission))
            && (d.Deny? <==> !IsOpenTo(admission))
            && d == DecideLayered(show, admission.(candidates := candidates), Open, layers', session', now')
  {
    OpenToIs(admission);
  }
}
