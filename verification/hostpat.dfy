/** The four kinds of rule: how they parse, print and match. */
module HostPatterns {
  import opened Net
  import opened Grammar

  datatype RawNet = Net(base: IpAddr, prefix: nat)

  type IpNet = n: RawNet | n.prefix <= 8 * |n.base.octets|
    witness Net(V4([0, 0, 0, 0]), 0)

  datatype HostPattern =
    | Exact(name: string)
    | Suffix(name: string)
    | Address(address: IpAddr)
    | Network(net: IpNet)

  datatype PatternError = Malformed(error: GrammarError) | Cidr | HostBits | NumericTld

  datatype Parsed = Pattern(pattern: HostPattern) | Rejected(error: PatternError)

  /** Bit `i` of an address, the most significant first. */
  function Bit(a: IpAddr, i: nat): nat
    requires i < 8 * |a.octets|
  {
    (a.octets[i / 8] / [128, 64, 32, 16, 8, 4, 2, 1][i % 8]) % 2
  }

  predicate Contains(net: IpNet, a: IpAddr) {
    && net.base.V4? == a.V4?
    && forall i :: 0 <= i < 8 * |a.octets| && i < net.prefix ==> Bit(net.base, i) == Bit(a, i)
  }

  /** `net.trunc() == net`. */
  predicate HostBitsAreZero(net: IpNet) {
    forall i :: 0 <= i < 8 * |net.base.octets| && i >= net.prefix ==> Bit(net.base, i) == 0
  }

  //--- matching ----------------------------------------------------------------------------------

  predicate EndsWith(s: string, suffix: string) {
    |suffix| <= |s| && s[|s| - |suffix|..] == suffix
  }

  predicate MatchesName(p: HostPattern, name: string) {
    var lower := Lower(name);
    match p
    case Exact(exact) => lower == exact
    case Suffix(suffix) =>
      lower == suffix ||
      (EndsWith(lower, suffix) && EndsWith(lower[..|lower| - |suffix|], "."))
    case _ => false
  }

  predicate MatchesAddress(p: HostPattern, address: IpAddr) {
    var a := ToCanonical(address);
    match p
    case Address(own) => ToCanonical(own) == a
    case Network(net) => Contains(net, a)
    case _ => false
  }

  predicate LabelsEndWith(labels: seq<string>, suffix: seq<string>) {
    |suffix| <= |labels| && labels[|labels| - |suffix|..] == suffix
  }

  lemma SuffixLabels(suffix: string, lower: string)
    requires EndsWith(lower, suffix) && EndsWith(lower[..|lower| - |suffix|], ".")
    ensures LabelsEndWith(Split(lower), Split(suffix))
  {
    var front := lower[..|lower| - |suffix|];
    var stem := front[..|front| - 1];
    assert lower == stem + "." + suffix;
    SplitAtDot(stem, suffix);
  }

  lemma FrontAndBack(labels: seq<string>, back: seq<string>)
    requires LabelsEndWith(labels, back)
    ensures labels == labels[..|labels| - |back|] + back
  {
  }

  lemma LabelsSuffix(labels: seq<string>, back: seq<string>)
    requires LabelsEndWith(labels, back) && back != []
    ensures labels == back || Join(labels) == Join(labels[..|labels| - |back|]) + "." + Join(back)
  {
    var front := labels[..|labels| - |back|];
    FrontAndBack(labels, back);
    if front == [] {
      assert front + back == back;
    } else {
      JoinAppend(front, back);
    }
  }

  lemma DottedEnd(all: string, stem: string, suffix: string)
    requires all == stem + "." + suffix
    ensures EndsWith(all, suffix) && EndsWith(all[..|all| - |suffix|], ".")
  {
    assert all[|all| - |suffix|..] == suffix;
    assert all[..|all| - |suffix|] == stem + ".";
  }

  predicate IsOrIsBelow(lower: string, suffix: string) {
    lower == suffix || (EndsWith(lower, suffix) && EndsWith(lower[..|lower| - |suffix|], "."))
  }

  lemma BelowByLabels(suffix: string, lower: string)
    requires LabelsEndWith(Split(lower), Split(suffix))
    ensures IsOrIsBelow(lower, suffix)
  {
    LabelsSuffix(Split(lower), Split(suffix));
    JoinSplit(lower);
    JoinSplit(suffix);
    if lower != suffix {
      DottedEnd(lower, Join(Split(lower)[..|Split(lower)| - |Split(suffix)|]), suffix);
    }
  }

  /** `*.s` matches exactly the names whose labels end with the labels of `s`,
      whatever their case: never `evils` for `s`. */
  lemma SuffixMatchesByLabels(suffix: string, name: string)
    ensures MatchesName(Suffix(suffix), name) <==> LabelsEndWith(Split(Lower(name)), Split(suffix))
  {
    var lower := Lower(name);
    assert MatchesName(Suffix(suffix), name) <==> IsOrIsBelow(lower, suffix);
    if LabelsEndWith(Split(lower), Split(suffix)) {
      BelowByLabels(suffix, lower);
    } else if lower != suffix && IsOrIsBelow(lower, suffix) {
      SuffixLabels(suffix, lower);
    }
  }

  lemma {:induction false} JoinAppend(front: seq<string>, back: seq<string>)
    requires front != [] && back != []
    ensures Join(front + back) == Join(front) + "." + Join(back)
  {
    if |front| == 1 {
      assert (front + back)[1..] == back;
    } else {
      JoinAppend(front[1..], back);
      assert (front + back)[1..] == front[1..] + back;
    }
  }

  //--- text --------------------------------------------------------------------------------------

  /** The standard library's text forms of addresses and ranges. */
  datatype IpText = IpText(
    parseIp: string -> Option<IpAddr>,
    showIp: IpAddr -> string,
    parseNet: string -> Option<IpNet>,
    showNet: IpNet -> string
  )

  predicate AllDigits(s: string) {
    forall i :: 0 <= i < |s| ==> '0' <= s[i] <= '9'
  }

  function LastLabel(s: string): string {
    Split(s)[|Split(s)| - 1]
  }

  /** What the model needs of them: printing is read back, only a range has a
      slash, and an address literal has a colon or ends in a number. */
  ghost predicate Faithful(text: IpText) {
    && (forall a :: text.parseIp(text.showIp(a)) == Some(a) && '/' !in text.showIp(a))
    && (forall n :: text.parseNet(text.showNet(n)) == Some(n) && '/' in text.showNet(n))
    && (forall s :: text.parseIp(s).Some? ==> ':' in s || AllDigits(LastLabel(s)))
  }

  predicate HasWildcard(input: string) {
    |input| >= 2 && input[0] == '*' && input[1] == '.'
  }

  /** `from_str`. */
  function Parse(text: IpText, input: string): Parsed {
    if '/' in input then
      match text.parseNet(input)
      case None => Rejected(Cidr)
      case Some(net) => if HostBitsAreZero(net) then Pattern(Network(net)) else Rejected(HostBits)
    else
      match text.parseIp(input)
      case Some(address) => Pattern(Address(address))
      case None => ParseName(if HasWildcard(input) then input[2..] else input, HasWildcard(input))
  }

  function ParseName(name: string, wildcard: bool): Parsed {
    match ValidateHostname(name)
    case Invalid(error) => Rejected(Malformed(error))
    case Name(_) =>
      if AllDigits(LastLabel(name)) then Rejected(NumericTld)
      else if wildcard then Pattern(Suffix(Lower(name)))
      else Pattern(Exact(Lower(name)))
  }

  /** `Display`. */
  function Print(text: IpText, p: HostPattern): string {
    match p
    case Exact(name) => name
    case Suffix(name) => "*." + name
    case Address(address) => text.showIp(address)
    case Network(net) => text.showNet(net)
  }

  lemma NameCharsOnly(s: string)
    requires ValidateHostname(s).Name?
    ensures '/' !in s && ':' !in s && '*' !in s && s != []
  {
    assert FirstInvalid(s) == |s|;
  }

  /** Lower case keeps the name and the kind of its last label. */
  lemma LowerIsName(s: string)
    requires ValidateHostname(s).Name? && !AllDigits(LastLabel(s))
    ensures ValidateHostname(Lower(s)).Name? && !AllDigits(LastLabel(Lower(s)))
  {
    LowerKeepsValid(s);
    SplitLower(s);
    var last := LastLabel(s);
    assert LastLabel(Lower(s)) == Lower(last);
    var i :| 0 <= i < |last| && !('0' <= last[i] <= '9');
    assert Lower(last)[i] == LowerChar(last[i]);
  }

  /** A name pattern prints as something that is never an address or a range,
      and reads back as itself. */
  lemma NamesRoundTrip(text: IpText, name: string, wildcard: bool)
    requires Faithful(text) && ValidateHostname(name).Name? && !AllDigits(LastLabel(name))
    ensures var p := if wildcard then Suffix(Lower(name)) else Exact(Lower(name));
            Parse(text, Print(text, p)) == Pattern(p)
  {
    var lower := Lower(name);
    LowerIsName(name);
    NameCharsOnly(lower);
    LowerTwice(name);
    if wildcard {
      var printed := "*." + lower;
      assert printed == "*" + "." + lower;
      SplitAtDot("*", lower);
      assert LastLabel(printed) == LastLabel(lower);
      assert printed[2..] == lower;
      assert ':' !in printed && '/' !in printed;
    } else {
      assert !HasWildcard(lower);
    }
  }

  /** What is a rule by name: text that is neither a range nor an address parses
      exactly when it is an LDH name, after an optional `*.`, whose last label
      is not a number; and then it is that name in lower case. */
  lemma NamesThatParse(text: IpText, input: string)
    requires '/' !in input && text.parseIp(input).None?
    ensures var name := if HasWildcard(input) then input[2..] else input;
            && (Parse(text, input).Pattern? <==> IsLdhName(name) && !AllDigits(LastLabel(name)))
            && (Parse(text, input).Pattern? ==>
                  Parse(text, input).pattern == if HasWildcard(input) then Suffix(Lower(name)) else Exact(Lower(name)))
  {
    ValidatesExactlyLdhNames(if HasWildcard(input) then input[2..] else input);
  }

  /** Every pattern that parses prints as text that parses to the same pattern. */
  lemma PrintRoundTrips(text: IpText, input: string)
    requires Faithful(text) && Parse(text, input).Pattern?
    ensures var p := Parse(text, input).pattern;
            Parse(text, Print(text, p)) == Pattern(p)
  {
    if '/' !in input && text.parseIp(input).None? {
      NamesRoundTrip(text, if HasWildcard(input) then input[2..] else input, HasWildcard(input));
    }
  }

  /** Text forms with these properties exist. */
  lemma FaithfulTextExists() returns (text: IpText)
    ensures Faithful(text)
  {
    text := IpText(ReadIp, ShowIp, ReadNet, ShowNet);
    forall a: IpAddr ensures ReadIp(ShowIp(a)) == Some(a) && '/' !in ShowIp(a) {
      assert |ShowIp(a)| == 1 + |a.octets|;
      assert Octets(ShowIp(a)[1..]) == a.octets;
    }
    forall n: IpNet ensures ReadNet(ShowNet(n)) == Some(n) && '/' in ShowNet(n) {
      var s := ShowNet(n);
      assert s[0] == '/';
      assert s[n.prefix + 1] == '.' && forall i :: 1 <= i < n.prefix + 1 ==> s[i] == '-';
      DashesAre(s[1..], n.prefix);
      assert s[n.prefix + 2..] == ShowIp(n.base);
      assert ReadIp(ShowIp(n.base)) == Some(n.base) by {
        assert |ShowIp(n.base)| == 1 + |n.base.octets|;
        assert Octets(ShowIp(n.base)[1..]) == n.base.octets;
      }
    }
    forall s: string | ReadIp(s).Some? ensures ':' in s {
      assert s[0] == ':';
    }
  }

  function ShowIp(a: IpAddr): string {
    ":" + seq(|a.octets|, i requires 0 <= i < |a.octets| => (a.octets[i] as int + 1000) as char)
  }

  function Octets(s: string): seq<u8> {
    seq(|s|, i requires 0 <= i < |s| => if 1000 <= s[i] as int < 1256 then s[i] as int - 1000 else 0)
  }

  function ReadIp(s: string): Option<IpAddr> {
    if |s| == 5 && s[0] == ':' then Some(V4(Octets(s[1..])))
    else if |s| == 17 && s[0] == ':' then Some(V6(Octets(s[1..])))
    else None
  }

  function ShowNet(n: IpNet): string {
    "/" + seq(n.prefix, i => '-') + "." + ShowIp(n.base)
  }

  function Dashes(s: string): nat
    ensures Dashes(s) <= |s|
  {
    if s != [] && s[0] == '-' then 1 + Dashes(s[1..]) else 0
  }

  lemma {:induction false} DashesAre(s: string, n: nat)
    requires n < |s| && s[n] != '-' && forall i :: 0 <= i < n ==> s[i] == '-'
    ensures Dashes(s) == n
  {
    if n > 0 { DashesAre(s[1..], n - 1); }
  }

  function ReadNet(s: string): Option<IpNet> {
    if s == [] then None
    else
      var n := Dashes(s[1..]);
      if n + 2 > |s| || ReadIp(s[n + 2..]).None? then None
      else
        var base := ReadIp(s[n + 2..]).value;
        if n <= 8 * |base.octets| then Some(Net(base, n)) else None
  }
}
