/** What rules match, and which ranges are rules, in terms of labels and octets. */
module RuleMatches {
  import opened Net
  import opened Grammar
  import opened HostPatterns
  import opened Decision
  import opened HardDenies

  /** A name rule matches a flow by one of its names, in any case: the name itself,
      or with a wildcard any name whose labels end in the rule's. An address rule
      matches by the address, in whichever form it is written, and a range by the
      bits of its prefix. */
  lemma MatchesIff(rule: HostPattern, address: IpAddr, names: Chain)
    ensures Matches(rule, address, names) <==>
              match rule
              case Exact(own) => exists n :: n in names && Lower(n) == own
              case Suffix(own) => exists n :: n in names && LabelsEndWith(Split(Lower(n)), Split(own))
              case Address(own) => ToCanonical(own) == ToCanonical(address)
              case Network(net) => SharesPrefix(net, ToCanonical(address))
  {
    match rule
    case Exact(own) =>
      if n :| n in names && Lower(n) == own { assert MatchesName(rule, n); }
      if n :| n in names && MatchesName(rule, n) { assert Lower(n) == own; }
    case Suffix(own) =>
      if n :| n in names && LabelsEndWith(Split(Lower(n)), Split(own)) { SuffixMatchesByLabels(own, n); }
      if n :| n in names && MatchesName(rule, n) { SuffixMatchesByLabels(own, n); }
    case Address(_) =>
    case Network(net) => ContainsByOctets(net, ToCanonical(address));
  }

  //--- ranges that are rules ---------------------------------------------------------------------

  /** Nothing of the octet is left below its first `m` bits. */
  predicate EndsAfter(octet: u8, m: nat)
    requires m <= 8
  {
    octet % [256, 128, 64, 32, 16, 8, 4, 2, 1][m] == 0
  }

  lemma EndsAfterGrows(octet: u8, m: nat)
    requires m < 8
    ensures EndsAfter(octet, m) <==> EndsAfter(octet, m + 1) && BitOf(octet, m) == 0
  {
    if m < 3 {
      EndsAfterHigh(octet, m);
    } else if m < 6 {
      EndsAfterMiddle(octet, m);
    } else {
      EndsAfterLow(octet, m);
    }
  }

  lemma EndsAfterHigh(octet: u8, m: nat)
    requires m < 3
    ensures EndsAfter(octet, m) <==> EndsAfter(octet, m + 1) && BitOf(octet, m) == 0
  {
    assert m == 0 || m == 1 || m == 2;
  }

  lemma EndsAfterMiddle(octet: u8, m: nat)
    requires 3 <= m < 6
    ensures EndsAfter(octet, m) <==> EndsAfter(octet, m + 1) && BitOf(octet, m) == 0
  {
    assert m == 3 || m == 4 || m == 5;
  }

  lemma EndsAfterLow(octet: u8, m: nat)
    requires 6 <= m < 8
    ensures EndsAfter(octet, m) <==> EndsAfter(octet, m + 1) && BitOf(octet, m) == 0
  {
    assert m == 6 || m == 7;
  }

  lemma {:induction false} EndsAfterIsItsBits(octet: u8, m: nat)
    requires m <= 8
    ensures EndsAfter(octet, m) <==> forall j :: m <= j < 8 ==> BitOf(octet, j) == 0
    decreases 8 - m
  {
    if m < 8 {
      EndsAfterIsItsBits(octet, m + 1);
      EndsAfterGrows(octet, m);
    }
  }

  /** Which of the octet's bits lie behind the range's prefix. */
  function BitsBefore(prefix: nat, i: nat): (m: nat)
    ensures m <= 8
  {
    if prefix >= 8 * i + 8 then 8 else if prefix <= 8 * i then 0 else prefix - 8 * i
  }

  /** The octet's bits behind the prefix are zero. */
  predicate IsClear(net: IpNet, i: nat)
    requires i < |net.base.octets|
  {
    forall j :: 0 <= j < 8 && net.prefix - 8 * i <= j ==> BitOf(net.base.octets[i], j) == 0
  }

  lemma ClearOctetEnds(net: IpNet, i: nat)
    requires i < |net.base.octets|
    ensures EndsAfter(net.base.octets[i], BitsBefore(net.prefix, i)) <==> IsClear(net, i)
  {
    EndsAfterIsItsBits(net.base.octets[i], BitsBefore(net.prefix, i));
  }

  lemma BitOfOctet(net: IpNet, i: nat, j: nat)
    requires i < |net.base.octets| && j < 8
    ensures Bit(net.base, 8 * i + j) == BitOf(net.base.octets[i], j)
  {
    assert (8 * i + j) / 8 == i && (8 * i + j) % 8 == j;
  }

  lemma ZeroBitsClear(net: IpNet, i: nat)
    requires i < |net.base.octets| && HostBitsAreZero(net)
    ensures IsClear(net, i)
  {
    forall j | 0 <= j < 8 && net.prefix - 8 * i <= j ensures BitOf(net.base.octets[i], j) == 0 {
      BitOfOctet(net, i, j);
    }
  }

  lemma ClearBitIsZero(net: IpNet, b: nat)
    requires net.prefix <= b < 8 * |net.base.octets| && IsClear(net, b / 8)
    ensures Bit(net.base, b) == 0
  {
    assert BitOf(net.base.octets[b / 8], b % 8) == 0;
  }

  lemma HostBitsByOctets(net: IpNet)
    ensures HostBitsAreZero(net) <==> forall i :: 0 <= i < |net.base.octets| ==> IsClear(net, i)
  {
    if HostBitsAreZero(net) {
      forall i | 0 <= i < |net.base.octets| ensures IsClear(net, i) { ZeroBitsClear(net, i); }
    }
    if forall i :: 0 <= i < |net.base.octets| ==> IsClear(net, i) {
      forall b | 0 <= b < 8 * |net.base.octets| && b >= net.prefix ensures Bit(net.base, b) == 0 {
        ClearBitIsZero(net, b);
      }
    }
  }

  /** The base of the range has no bits behind the prefix. */
  predicate IsTruncated(net: IpNet) {
    forall i :: 0 <= i < |net.base.octets| ==> EndsAfter(net.base.octets[i], BitsBefore(net.prefix, i))
  }

  /** Text with a slash is a rule exactly when it reads as a range whose base ends
      with the range's prefix, octet by octet; and then it is that range. */
  lemma RangesThatParse(text: IpText, input: string)
    requires '/' in input
    ensures Parse(text, input).Pattern? <==>
              text.parseNet(input).Some? && IsTruncated(text.parseNet(input).value)
    ensures Parse(text, input).Pattern? ==> Parse(text, input).pattern == Network(text.parseNet(input).value)
  {
    if text.parseNet(input).Some? {
      var net := text.parseNet(input).value;
      HostBitsByOctets(net);
      forall i | 0 <= i < |net.base.octets|
        ensures EndsAfter(net.base.octets[i], BitsBefore(net.prefix, i)) <==> IsClear(net, i)
      {
        ClearOctetEnds(net, i);
      }
    }
  }

  //--- text that is a rule -----------------------------------------------------------------------

  ghost predicate IsNameRule(input: string, p: HostPattern) {
    var wildcard := |input| >= 2 && input[..2] == "*.";
    var name := if wildcard then input[2..] else input;
    IsLdhName(name) && !AllDigits(LastLabel(name)) && p == if wildcard then Suffix(Lower(name)) else Exact(Lower(name))
  }

  /** What text is which rule: a range, else an address, else a host name in lower
      case, with an optional wildcard before it. */
  lemma ParsesIff(text: IpText, input: string, p: HostPattern)
    ensures Parse(text, input) == Pattern(p) <==>
              if '/' in input then
                && text.parseNet(input).Some?
                && p == Network(text.parseNet(input).value) && IsTruncated(text.parseNet(input).value)
              else if text.parseIp(input).Some? then p == Address(text.parseIp(input).value)
              else IsNameRule(input, p)
  {
    if '/' in input {
      RangesThatParse(text, input);
    } else if text.parseIp(input).None? {
      NamesThatParse(text, input);
      assert HasWildcard(input) <==> |input| >= 2 && input[..2] == "*.";
    }
  }

  /** Why text is no rule: what does not read as a range, a range with bits behind its
      prefix, what the hostname grammar refuses, or a name that ends in a number. */
  lemma ComplaintsAre(text: IpText, input: string)
    ensures var name := if |input| >= 2 && input[..2] == "*." then input[2..] else input;
            var isName := '/' !in input && text.parseIp(input).None?;
            && (Parse(text, input) == Rejected(Cidr) <==> '/' in input && text.parseNet(input).None?)
            && (Parse(text, input) == Rejected(HostBits) <==>
                  '/' in input && text.parseNet(input).Some? && !IsTruncated(text.parseNet(input).value))
            && (forall error :: Parse(text, input) == Rejected(Malformed(error)) <==>
                  isName && ValidateHostname(name) == Invalid(error))
            && (Parse(text, input) == Rejected(NumericTld) <==> isName && IsLdhName(name) && AllDigits(LastLabel(name)))
  {
    assert HasWildcard(input) <==> |input| >= 2 && input[..2] == "*.";
    ValidatesExactlyLdhNames(if HasWildcard(input) then input[2..] else input);
    if '/' in input { RangesThatParse(text, input); }
  }
}
