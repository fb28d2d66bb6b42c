/** The subjects of an answer, what writing them down does to a kitchen's rules
    and grants, and when the flow is then decided as answered. */
module Answers {
  import opened Grammar
  import opened Net
  import opened HostPatterns
  import opened Decision
  import opened DecisionLaws
  import opened RuleEdits

  /** Allowed in every kitchen. */
  const BUILTIN := Exact("ntp.ubuntu.com")

  /** A kitchen file's rules: its lists as parsed, plus the built-in allow. */
  function ReadRules(text: IpText, t: Table): Rules {
    Rules(Patterns(text, ValuesOf(t, AllowList)) + [BUILTIN], Patterns(text, ValuesOf(t, DenyList)))
  }

  //--- subjects ----------------------------------------------------------------------------------

  function ParseAll(text: IpText, names: seq<string>): (r: seq<HostPattern>)
    ensures forall p :: p in r <==> exists n :: n in names && Parse(text, n) == Pattern(p)
  {
    if names == [] then []
    else
      var rest := ParseAll(text, names[1..]);
      var first := Parse(text, names[0]);
      assert forall n :: n in names <==> n == names[0] || n in names[1..];
      if first.Pattern? then [first.pattern] + rest else rest
  }

  function QueryNames(candidates: seq<Chain>): (r: seq<string>)
    ensures forall n :: n in r <==> exists c :: c in candidates && c != [] && c[0] == n
  {
    if candidates == [] then []
    else
      assert forall c :: c in candidates <==> c == candidates[0] || c in candidates[1..];
      (if candidates[0] != [] then [candidates[0][0]] else []) + QueryNames(candidates[1..])
  }

  function Unverdicted(verdicts: seq<(string, Option<bool>)>): (r: seq<string>)
    ensures forall n :: n in r <==> exists i :: 0 <= i < |verdicts| && verdicts[i] == (n, None)
  {
    if verdicts == [] then []
    else
      var rest := Unverdicted(verdicts[1..]);
      assert forall i :: 1 <= i < |verdicts| ==> verdicts[i] == verdicts[1..][i - 1];
      if verdicts[0].1.None? then [verdicts[0].0] + rest else rest
  }

  /** What an answer will be written down for (`PromptKind::subjects`): only the
      undecided candidates of a disagreement, and only names that parse. */
  function Subjects(text: IpText, kind: PromptKind, admission: Admission): seq<HostPattern> {
    match kind
    case Unresolved => [Address(ToCanonical(admission.address))]
    case Unknown => ParseAll(text, QueryNames(admission.candidates))
    case Disagreement(verdicts) => ParseAll(text, Unverdicted(verdicts))
  }

  /** The session key of a rule; suffixes and ranges have none. */
  function SessionKey(text: IpText, p: HostPattern): Option<string> {
    match p
    case Exact(name) => Some(name)
    case Address(address) => Some(text.showIp(ToCanonical(address)))
    case _ => None
  }

  //--- applying ----------------------------------------------------------------------------------

  /** One `set_network_rule` on the kitchen file; a failed edit changes nothing. */
  function SetOne(text: IpText, t: Table, list: RuleList, rule: HostPattern): Table {
    if Editable(t) then WithRule(text, t, list, rule) else t
  }

  function SetAll(text: IpText, t: Table, list: RuleList, subjects: seq<HostPattern>): Table {
    if subjects == [] then t
    else SetOne(text, SetAll(text, t, list, subjects[..|subjects| - 1]), list, subjects[|subjects| - 1])
  }

  function GrantAll(text: IpText, session: Session, subjects: seq<HostPattern>, until: int): Session {
    if subjects == [] then session
    else
      var before := GrantAll(text, session, subjects[..|subjects| - 1], until);
      var key := SessionKey(text, subjects[|subjects| - 1]);
      if key.Some? then before.Grant(key.value, until) else before
  }

  lemma {:induction false} SetAllMoves(text: IpText, t: Table, list: RuleList, subjects: seq<HostPattern>)
    requires Editable(t) && forall p :: p in subjects ==> Printable(text, p)
    ensures var t' := SetAll(text, t, list, subjects);
            && Editable(t')
            && (forall p :: HasRule(text, ValuesOf(t', list), p) <==> p in subjects || HasRule(text, ValuesOf(t, list), p))
            && (forall p :: HasRule(text, ValuesOf(t', list.Other()), p) <==>
                  p !in subjects && HasRule(text, ValuesOf(t, list.Other()), p))
  {
    if subjects != [] {
      var n := |subjects| - 1;
      SetAllMoves(text, t, list, subjects[..n]);
      var before, t' := SetAll(text, t, list, subjects[..n]), SetAll(text, t, list, subjects);
      assert t' == WithRule(text, before, list, subjects[n]);
      forall p
        ensures HasRule(text, ValuesOf(t', list), p) <==> p in subjects || HasRule(text, ValuesOf(t, list), p)
        ensures HasRule(text, ValuesOf(t', list.Other()), p) <==>
                  p !in subjects && HasRule(text, ValuesOf(t, list.Other()), p)
      {
        SetRuleMoves(text, before, list, subjects[n], p);
        assert p in subjects <==> p in subjects[..n] || p == subjects[n];
      }
    }
  }

  lemma {:induction false} GrantAllGrants(text: IpText, session: Session, subjects: seq<HostPattern>, until: int, key: string)
    ensures var after := GrantAll(text, session, subjects, until);
            if exists p :: p in subjects && SessionKey(text, p) == Some(key)
            then key in after.grants && after.grants[key] == until
            else (key in after.grants <==> key in session.grants)
                 && (key in session.grants ==> after.grants[key] == session.grants[key])
  {
    if subjects != [] {
      var n := |subjects| - 1;
      GrantAllGrants(text, session, subjects[..n], until, key);
      assert subjects == subjects[..n] + [subjects[n]];
      assert (exists p :: p in subjects && SessionKey(text, p) == Some(key)) <==>
             SessionKey(text, subjects[n]) == Some(key)
             || (exists p :: p in subjects[..n] && SessionKey(text, p) == Some(key)) by {
        assert forall p :: p in subjects <==> p == subjects[n] || p in subjects[..n];
      }
    }
  }

  //--- what is unverdicted -----------------------------------------------------------------------

  /** Some subject is about the chain: it matches the address or one of its names. */
  predicate Covered(subjects: seq<HostPattern>, address: IpAddr, chain: Chain) {
    exists p :: p in subjects && Matches(p, address, chain)
  }

  predicate AnyMatches(rules: seq<HostPattern>, address: IpAddr, chain: Chain) {
    exists r :: r in rules && Matches(r, address, chain)
  }

  lemma WildcardMatchesItself(rest: string, name: string)
    requires name == "*." + rest
    ensures MatchesName(Suffix(Lower(rest)), name)
  {
    var lower := Lower(name);
    assert lower[2..] == Lower(rest) && lower[..2] == "*.";
  }

  /** A name pattern matches the name it was parsed from. */
  lemma PatternMatchesItsName(text: IpText, name: string)
    requires Parse(text, name).Pattern?
    ensures var p := Parse(text, name).pattern; p.Exact? || p.Suffix? ==> MatchesName(p, name)
  {
    if '/' !in name && text.parseIp(name).None? && HasWildcard(name) {
      WildcardMatchesItself(name[2..], name);
    }
  }

  /** What a prompt about candidates lists: all of them when no one has a stored
      verdict, else each with its own. */
  lemma PromptLists(show: IpAddr -> string, admission: Admission, layers: seq<Rules>, session: Session, now: int)
    requires var d := DecideLayered(show, admission, Enforce, layers, session, now); d.Prompt? && !d.kind.Unresolved?
    ensures var kind := DecideLayered(show, admission, Enforce, layers, session, now).kind;
            var candidates := NonEmpty(admission.candidates);
            var verdicts := Verdicts(ToCanonical(admission.address), candidates, layers, session, now);
            && Decidable(admission, Enforce)
            && (kind.Unknown? ==> forall i :: 0 <= i < |verdicts| ==> verdicts[i].None?)
            && (kind.Disagreement? ==>
                  && |kind.verdicts| == |candidates|
                  && forall i :: 0 <= i < |candidates| ==>
                       && kind.verdicts[i].0 == candidates[i][0]
                       && (kind.verdicts[i].1.None? <==> verdicts[i].None?)
                       && (verdicts[i].Some? ==> kind.verdicts[i].1 == Some(verdicts[i].value.allow)))
  {
  }

  /** Where a subject comes from: a nonempty candidate that no rule speaks about. */
  lemma SubjectIsUnruled(text: IpText, admission: Admission, layers: seq<Rules>, session: Session, now: int, p: HostPattern)
    returns (chain: Chain)
    requires var d := DecideLayered(text.showIp, admission, Enforce, layers, session, now);
             d.Prompt? && !d.kind.Unresolved? && p in Subjects(text, d.kind, admission)
    ensures chain in admission.candidates && chain != [] && Parse(text, chain[0]) == Pattern(p)
    ensures RuleVerdict(ToCanonical(admission.address), chain, layers, false).None?
  {
    PromptLists(text.showIp, admission, layers, session, now);
    var kind := DecideLayered(text.showIp, admission, Enforce, layers, session, now).kind;
    var candidates := NonEmpty(admission.candidates);
    var i: nat;
    if kind.Unknown? {
      i := UnknownName(text, admission, p);
    } else {
      i := ListedName(text, kind.verdicts, p);
    }
    chain := candidates[i];
    assert chain in candidates;
  }

  lemma UnknownName(text: IpText, admission: Admission, p: HostPattern) returns (i: nat)
    requires p in Subjects(text, Unknown, admission)
    ensures var candidates := NonEmpty(admission.candidates);
            i < |candidates| && Parse(text, candidates[i][0]) == Pattern(p)
  {
    var n :| n in QueryNames(admission.candidates) && Parse(text, n) == Pattern(p);
    var chain :| chain in admission.candidates && chain != [] && chain[0] == n;
    assert chain in NonEmpty(admission.candidates);
    i :| 0 <= i < |NonEmpty(admission.candidates)| && NonEmpty(admission.candidates)[i] == chain;
  }

  lemma ListedName(text: IpText, verdicts: seq<(string, Option<bool>)>, p: HostPattern) returns (i: nat)
    requires p in ParseAll(text, Unverdicted(verdicts))
    ensures i < |verdicts| && verdicts[i].1.None? && Parse(text, verdicts[i].0) == Pattern(p)
  {
    var n :| n in Unverdicted(verdicts) && Parse(text, n) == Pattern(p);
    i :| 0 <= i < |verdicts| && verdicts[i] == (n, None);
  }

  /** A subject that is already one of the kitchen's rules matches nothing here:
      it looks like an address or a range, and not this flow's. */
  lemma OldSubjectsMatchNothing(text: IpText, admission: Admission, layers: seq<Rules>, session: Session, now: int,
                                p: HostPattern, chain: Chain)
    requires layers != [] && (p in layers[0].allow || p in layers[0].deny)
    requires var d := DecideLayered(text.showIp, admission, Enforce, layers, session, now);
             d.Prompt? && !d.kind.Unresolved? && p in Subjects(text, d.kind, admission)
    ensures !Matches(p, ToCanonical(admission.address), chain)
  {
    var address := ToCanonical(admission.address);
    var own := SubjectIsUnruled(text, admission, layers, session, now, p);
    FindMatchIs(layers[0].allow, address, own);
    FindMatchIs(layers[0].deny, address, own);
    assert !Matches(p, address, own);
    PatternMatchesItsName(text, own[0]);
    assert own[0] in own;
  }

  lemma SubjectsArePrintable(text: IpText, kind: PromptKind, admission: Admission)
    requires Faithful(text)
    ensures forall p :: p in Subjects(text, kind, admission) ==> Printable(text, p)
  {
    forall p | p in Subjects(text, kind, admission) ensures Printable(text, p) {
      if !kind.Unresolved? {
        var names := if kind.Unknown? then QueryNames(admission.candidates) else Unverdicted(kind.verdicts);
        var n :| n in names && Parse(text, n) == Pattern(p);
        PrintRoundTrips(text, n);
      }
    }
  }

  //--- re-deciding -------------------------------------------------------------------------------

  /** The kitchen layer after the answer: the subjects moved into `list`. */
  lemma AnsweredLayer(text: IpText, t: Table, list: RuleList, subjects: seq<HostPattern>, address: IpAddr, chain: Chain)
    requires Editable(t) && forall p :: p in subjects ==> Printable(text, p)
    requires forall p :: p in subjects && (p in ReadRules(text, t).allow || p in ReadRules(text, t).deny) ==>
               !Matches(p, address, chain)
    ensures var before, after := ReadRules(text, t), ReadRules(text, SetAll(text, t, list, subjects));
            && (AnyMatches(after.allow, address, chain) <==>
                  AnyMatches(before.allow, address, chain) || (list.AllowList? && Covered(subjects, address, chain)))
            && (AnyMatches(after.deny, address, chain) <==>
                  AnyMatches(before.deny, address, chain) || (list.DenyList? && Covered(subjects, address, chain)))
  {
    var t' := SetAll(text, t, list, subjects);
    SetAllMoves(text, t, list, subjects);
    PatternsAre(text, ValuesOf(t, AllowList));
    PatternsAre(text, ValuesOf(t, DenyList));
    PatternsAre(text, ValuesOf(t', AllowList));
    PatternsAre(text, ValuesOf(t', DenyList));
    var before, after := ReadRules(text, t), ReadRules(text, t');
    assert forall p :: p in after.allow && p !in before.allow ==> list.AllowList? && p in subjects;
    assert forall p :: p in before.allow && p !in after.allow ==> p in subjects;
    assert forall p :: list.AllowList? && p in subjects ==> p in after.allow;
    assert forall p :: p in after.deny && p !in before.deny ==> list.DenyList? && p in subjects;
    assert forall p :: p in before.deny && p !in after.deny ==> p in subjects;
    assert forall p :: list.DenyList? && p in subjects ==> p in after.deny;
  }

  /** A chain's stored verdict after Allow. */
  lemma AllowedChain(text: IpText, t: Table, globals: seq<Rules>, subjects: seq<HostPattern>, address: IpAddr,
                     chain: Chain, session: Session, now: int)
    requires Editable(t) && forall p :: p in subjects ==> Printable(text, p)
    requires forall p :: p in subjects && (p in ReadRules(text, t).allow || p in ReadRules(text, t).deny) ==>
               !Matches(p, address, chain)
    ensures Gives(ChainVerdict(address, chain, Layers(text, SetAll(text, t, AllowList, subjects), globals), session, now), true)
            <==> Gives(ChainVerdict(address, chain, Layers(text, t, globals), session, now), true)
                 || (Covered(subjects, address, chain) && !AnyMatches(ReadRules(text, t).deny, address, chain))
  {
    AnsweredLayer(text, t, AllowList, subjects, address, chain);
    SameBelow(text, t, SetAll(text, t, AllowList, subjects), globals, address, chain);
  }

  /** A chain's stored verdict after Deny. */
  lemma DeniedChain(text: IpText, t: Table, globals: seq<Rules>, subjects: seq<HostPattern>, address: IpAddr,
                    chain: Chain, session: Session, now: int)
    requires Editable(t) && forall p :: p in subjects ==> Printable(text, p)
    requires forall p :: p in subjects && (p in ReadRules(text, t).allow || p in ReadRules(text, t).deny) ==>
               !Matches(p, address, chain)
    ensures Gives(ChainVerdict(address, chain, Layers(text, SetAll(text, t, DenyList, subjects), globals), session, now), false)
            <==> Gives(ChainVerdict(address, chain, Layers(text, t, globals), session, now), false)
                 || Covered(subjects, address, chain)
  {
    AnsweredLayer(text, t, DenyList, subjects, address, chain);
    SameBelow(text, t, SetAll(text, t, DenyList, subjects), globals, address, chain);
  }

  /** The rule verdict, read off the kitchen layer and the ones below it. */
  lemma SameBelow(text: IpText, t: Table, t': Table, globals: seq<Rules>, address: IpAddr, chain: Chain)
    ensures KitchenFirst(text, t, globals, address, chain) && KitchenFirst(text, t', globals, address, chain)
  {
    forall table | table == t || table == t' ensures KitchenFirst(text, table, globals, address, chain) {
      var kitchen := ReadRules(text, table);
      FindMatchIs(kitchen.deny, address, chain);
      FindMatchIs(kitchen.allow, address, chain);
      assert Layers(text, table, globals)[1..] == globals;
    }
  }

  ghost predicate KitchenFirst(text: IpText, t: Table, globals: seq<Rules>, address: IpAddr, chain: Chain) {
    var v := RuleVerdict(address, chain, Layers(text, t, globals), false);
    if AnyMatches(ReadRules(text, t).deny, address, chain) then Gives(v, false)
    else if AnyMatches(ReadRules(text, t).allow, address, chain) then Gives(v, true)
    else v == RuleVerdict(address, chain, globals, true)
  }

  //--- answers stick -----------------------------------------------------------------------------

  /** The kitchen file's rules come first. */
  function Layers(text: IpText, t: Table, globals: seq<Rules>): seq<Rules> {
    [ReadRules(text, t)] + globals
  }

  /** The flow was asked about, for the given reason. */
  ghost predicate Asked(text: IpText, t: Table, globals: seq<Rules>, admission: Admission, session: Session, now: int,
                        kind: PromptKind) {
    && Faithful(text) && Editable(t)
    && DecideLayered(text.showIp, admission, Enforce, Layers(text, t, globals), session, now) == Prompt(kind)
  }

  lemma AskedFacts(text: IpText, t: Table, globals: seq<Rules>, admission: Admission, session: Session, now: int,
                   kind: PromptKind)
    requires Asked(text, t, globals, admission, session, now, kind) && !kind.Unresolved?
    ensures Decidable(admission, Enforce)
    ensures var subjects := Subjects(text, kind, admission);
            && (forall p :: p in subjects ==> Printable(text, p))
            && (forall p, c: Chain :: p in subjects && (p in ReadRules(text, t).allow || p in ReadRules(text, t).deny) ==>
                  !Matches(p, ToCanonical(admission.address), c))
  {
    SubjectsArePrintable(text, kind, admission);
    var subjects := Subjects(text, kind, admission);
    forall p, c: Chain | p in subjects && (p in ReadRules(text, t).allow || p in ReadRules(text, t).deny)
      ensures !Matches(p, ToCanonical(admission.address), c)
    {
      OldSubjectsMatchNothing(text, admission, Layers(text, t, globals), session, now, p, c);
    }
  }

  /** After Allow, the same flow is allowed exactly when every candidate either
      still has an allowing verdict of its own, or is covered by what was added
      and not denied by the kitchen file. */
  lemma AllowSticksIff(text: IpText, t: Table, globals: seq<Rules>, admission: Admission, session: Session, asked: int,
                       kind: PromptKind, now: int)
    requires Asked(text, t, globals, admission, session, asked, kind) && !kind.Unresolved?
    ensures var address, subjects := ToCanonical(admission.address), Subjects(text, kind, admission);
            DecideLayered(text.showIp, admission, Enforce, Layers(text, SetAll(text, t, AllowList, subjects), globals),
                          session, now).Allow?
            <==> forall c :: c in admission.candidates && c != [] ==>
                   || Gives(ChainVerdict(address, c, Layers(text, t, globals), session, now), true)
                   || (Covered(subjects, address, c) && !AnyMatches(ReadRules(text, t).deny, address, c))
  {
    AskedFacts(text, t, globals, admission, session, asked, kind);
    var address, subjects := ToCanonical(admission.address), Subjects(text, kind, admission);
    var layers := Layers(text, SetAll(text, t, AllowList, subjects), globals);
    DecidedByAll(text.showIp, admission, Enforce, layers, session, now, true);
    forall c ensures Gives(ChainVerdict(address, c, layers, session, now), true) <==>
                       || Gives(ChainVerdict(address, c, Layers(text, t, globals), session, now), true)
                       || (Covered(subjects, address, c) && !AnyMatches(ReadRules(text, t).deny, address, c))
    {
      AllowedChain(text, t, globals, subjects, address, c, session, now);
    }
  }

  /** After Deny, the same flow is denied exactly when every candidate either
      has a denying verdict of its own, or is covered by what was added. */
  lemma DenySticksIff(text: IpText, t: Table, globals: seq<Rules>, admission: Admission, session: Session, asked: int,
                      kind: PromptKind, now: int)
    requires Asked(text, t, globals, admission, session, asked, kind) && !kind.Unresolved?
    ensures var address, subjects := ToCanonical(admission.address), Subjects(text, kind, admission);
            DecideLayered(text.showIp, admission, Enforce, Layers(text, SetAll(text, t, DenyList, subjects), globals),
                          session, now).Deny?
            <==> forall c :: c in admission.candidates && c != [] ==>
                   || Gives(ChainVerdict(address, c, Layers(text, t, globals), session, now), false)
                   || Covered(subjects, address, c)
  {
    AskedFacts(text, t, globals, admission, session, asked, kind);
    var address, subjects := ToCanonical(admission.address), Subjects(text, kind, admission);
    var layers := Layers(text, SetAll(text, t, DenyList, subjects), globals);
    DecidedByAll(text.showIp, admission, Enforce, layers, session, now, false);
    forall c ensures Gives(ChainVerdict(address, c, layers, session, now), false) <==>
                       || Gives(ChainVerdict(address, c, Layers(text, t, globals), session, now), false)
                       || Covered(subjects, address, c)
    {
      DeniedChain(text, t, globals, subjects, address, c, session, now);
    }
  }

  /** The answer granted one of the chain's names. */
  predicate Granted(text: IpText, subjects: seq<HostPattern>, chain: Chain) {
    exists p :: p in subjects && SessionKey(text, p).Some? && SessionKey(text, p).value in chain
  }

  lemma GrantedChain(text: IpText, session: Session, subjects: seq<HostPattern>, until: int, chain: Chain, now: int)
    requires now < until
    ensures SessionAllows(GrantAll(text, session, subjects, until), chain, now) <==>
              SessionAllows(session, chain, now) || Granted(text, subjects, chain)
  {
    var after := GrantAll(text, session, subjects, until);
    forall key ensures after.Allows(key, now) <==>
                         session.Allows(key, now) || exists p :: p in subjects && SessionKey(text, p) == Some(key)
    {
      GrantAllGrants(text, session, subjects, until, key);
    }
    if p :| p in subjects && SessionKey(text, p).Some? && SessionKey(text, p).value in chain {
      assert after.Allows(SessionKey(text, p).value, now);
    }
    if n :| n in chain && session.Allows(n, now) {
      assert after.Allows(n, now);
    }
  }

  /** After Temp and until it expires, the same flow is allowed exactly when no
      candidate is denied by a rule and every one without a rule has a live
      grant, an earlier one or this one. */
  lemma TempSticksIff(text: IpText, t: Table, globals: seq<Rules>, admission: Admission, session: Session, asked: int,
                      kind: PromptKind, until: int, now: int)
    requires Asked(text, t, globals, admission, session, asked, kind) && !kind.Unresolved? && now < until
    ensures var address, subjects := ToCanonical(admission.address), Subjects(text, kind, admission);
            var layers := Layers(text, t, globals);
            DecideLayered(text.showIp, admission, Enforce, layers, GrantAll(text, session, subjects, until), now).Allow?
            <==> forall c :: c in admission.candidates && c != [] ==>
                   || Gives(ChainVerdict(address, c, layers, session, now), true)
                   || (RuleVerdict(address, c, layers, false).None? && Granted(text, subjects, c))
  {
    AskedFacts(text, t, globals, admission, session, asked, kind);
    var address, subjects := ToCanonical(admission.address), Subjects(text, kind, admission);
    var layers, after := Layers(text, t, globals), GrantAll(text, session, subjects, until);
    DecidedByAll(text.showIp, admission, Enforce, layers, after, now, true);
    forall c ensures SessionAllows(after, c, now) <==> SessionAllows(session, c, now) || Granted(text, subjects, c) {
      GrantedChain(text, session, subjects, until, c, now);
    }
  }

  //--- the promise -------------------------------------------------------------------------------

  /** No candidate has the opposite stored verdict. */
  ghost predicate NoneOpposed(text: IpText, t: Table, globals: seq<Rules>, admission: Admission, session: Session, now: int,
                              allow: bool) {
    forall c :: c in admission.candidates && c != [] ==>
      !Gives(ChainVerdict(ToCanonical(admission.address), c, Layers(text, t, globals), session, now), !allow)
  }

  /** Every query name is an exact host name, spelled as rules spell it. */
  predicate NamesAreExact(text: IpText, admission: Admission) {
    forall c :: c in admission.candidates && c != [] ==> Parse(text, c[0]) == Pattern(Exact(c[0]))
  }

  /** Grants that counted when the flow was asked about still count. */
  predicate GrantsLast(session: Session, admission: Admission, asked: int, now: int) {
    forall c :: c in admission.candidates && SessionAllows(session, c, asked) ==> SessionAllows(session, c, now)
  }

  /** An undecided candidate is among the subjects, so the answer covers it. */
  lemma UnverdictedIsSubject(text: IpText, t: Table, globals: seq<Rules>, admission: Admission, session: Session,
                             now: int, kind: PromptKind, c: Chain)
    requires Asked(text, t, globals, admission, session, now, kind) && !kind.Unresolved?
    requires c in admission.candidates && c != [] && Parse(text, c[0]) == Pattern(Exact(c[0]))
    requires ChainVerdict(ToCanonical(admission.address), c, Layers(text, t, globals), session, now).None?
    ensures Exact(c[0]) in Subjects(text, kind, admission)
    ensures Covered(Subjects(text, kind, admission), ToCanonical(admission.address), c)
    ensures Granted(text, Subjects(text, kind, admission), c)
  {
    PromptLists(text.showIp, admission, Layers(text, t, globals), session, now);
    var candidates := NonEmpty(admission.candidates);
    assert c in candidates;
    var i :| 0 <= i < |candidates| && candidates[i] == c;
    if kind.Unknown? {
      assert c[0] in QueryNames(admission.candidates);
    } else {
      assert kind.verdicts[i] == (c[0], None);
      assert c[0] in Unverdicted(kind.verdicts);
    }
    PatternMatchesItsName(text, c[0]);
    assert Matches(Exact(c[0]), ToCanonical(admission.address), c);
    assert SessionKey(text, Exact(c[0])).value in c;
  }

  /** Allow sticks: with no candidate denied and exact query names, the same
      flow is then allowed for as long as the grants it leaned on last. */
  lemma AllowSticks(text: IpText, t: Table, globals: seq<Rules>, admission: Admission, session: Session, asked: int,
                    kind: PromptKind, now: int)
    requires Asked(text, t, globals, admission, session, asked, kind) && !kind.Unresolved?
    requires NoneOpposed(text, t, globals, admission, session, asked, true) && NamesAreExact(text, admission)
    requires GrantsLast(session, admission, asked, now)
    ensures DecideLayered(text.showIp, admission, Enforce,
                          Layers(text, SetAll(text, t, AllowList, Subjects(text, kind, admission)), globals), session, now).Allow?
  {
    var address, subjects := ToCanonical(admission.address), Subjects(text, kind, admission);
    var layers := Layers(text, t, globals);
    forall c | c in admission.candidates && c != []
      ensures || Gives(ChainVerdict(address, c, layers, session, now), true)
              || (Covered(subjects, address, c) && !AnyMatches(ReadRules(text, t).deny, address, c))
    {
      var v := ChainVerdict(address, c, layers, session, asked);
      SameBelow(text, t, t, globals, address, c);
      if v.None? {
        UnverdictedIsSubject(text, t, globals, admission, session, asked, kind, c);
      } else {
        assert !Gives(v, false);
      }
    }
    AllowSticksIff(text, t, globals, admission, session, asked, kind, now);
  }

  /** Deny sticks, at every later time. */
  lemma DenySticks(text: IpText, t: Table, globals: seq<Rules>, admission: Admission, session: Session, asked: int,
                   kind: PromptKind, now: int)
    requires Asked(text, t, globals, admission, session, asked, kind) && !kind.Unresolved?
    requires NoneOpposed(text, t, globals, admission, session, asked, false) && NamesAreExact(text, admission)
    ensures DecideLayered(text.showIp, admission, Enforce,
                          Layers(text, SetAll(text, t, DenyList, Subjects(text, kind, admission)), globals), session, now).Deny?
  {
    var address, subjects := ToCanonical(admission.address), Subjects(text, kind, admission);
    var layers := Layers(text, t, globals);
    forall c | c in admission.candidates && c != []
      ensures Gives(ChainVerdict(address, c, layers, session, now), false) || Covered(subjects, address, c)
    {
      var v := ChainVerdict(address, c, layers, session, asked);
      if v.None? {
        UnverdictedIsSubject(text, t, globals, admission, session, asked, kind, c);
      } else {
        assert !Gives(v, true);
      }
    }
    DenySticksIff(text, t, globals, admission, session, asked, kind, now);
  }

  /** Temp sticks until it expires, or until an older grant does that another
      candidate leaned on. */
  lemma TempSticks(text: IpText, t: Table, globals: seq<Rules>, admission: Admission, session: Session, asked: int,
                   kind: PromptKind, until: int, now: int)
    requires Asked(text, t, globals, admission, session, asked, kind) && !kind.Unresolved? && now < until
    requires NoneOpposed(text, t, globals, admission, session, asked, true) && NamesAreExact(text, admission)
    requires GrantsLast(session, admission, asked, now)
    ensures DecideLayered(text.showIp, admission, Enforce, Layers(text, t, globals),
                          GrantAll(text, session, Subjects(text, kind, admission), until), now).Allow?
  {
    var address, subjects := ToCanonical(admission.address), Subjects(text, kind, admission);
    var layers := Layers(text, t, globals);
    forall c | c in admission.candidates && c != []
      ensures || Gives(ChainVerdict(address, c, layers, session, now), true)
              || (RuleVerdict(address, c, layers, false).None? && Granted(text, subjects, c))
    {
      var v := ChainVerdict(address, c, layers, session, asked);
      if v.None? {
        UnverdictedIsSubject(text, t, globals, admission, session, asked, kind, c);
      } else {
        assert !Gives(v, false);
      }
    }
    TempSticksIff(text, t, globals, admission, session, asked, kind, until, now);
  }

  /** What decides a flow that has no candidates. */
  lemma UnresolvedDecision(show: IpAddr -> string, admission: Admission, layers: seq<Rules>, session: Session, now: int)
    requires !admission.malformed && !IsHardDenied(ToCanonical(admission.address))
    requires NonEmpty(admission.candidates) == []
    ensures var d := DecideLayered(show, admission, Enforce, layers, session, now);
            var v := RuleVerdict(ToCanonical(admission.address), [], layers, false);
            && (d.Allow? <==> Gives(v, true) || (v.None? && session.Allows(show(ToCanonical(admission.address)), now)))
            && (d.Deny? <==> Gives(v, false))
            && (d.Prompt? ==> d.kind.Unresolved?)
  {
  }

  lemma AskedUnresolved(text: IpText, t: Table, globals: seq<Rules>, admission: Admission, session: Session, now: int)
    requires Asked(text, t, globals, admission, session, now, Unresolved)
    ensures !admission.malformed && !IsHardDenied(ToCanonical(admission.address))
    ensures NonEmpty(admission.candidates) == []
    ensures RuleVerdict(ToCanonical(admission.address), [], Layers(text, t, globals), false).None?
  {
  }

  /** The unresolved address, moved into a list, is what the kitchen layer says. */
  lemma AddressMoves(text: IpText, t: Table, globals: seq<Rules>, address: IpAddr, list: RuleList)
    requires Faithful(text) && Editable(t) && ToCanonical(address) == address
    requires RuleVerdict(address, [], Layers(text, t, globals), false).None?
    ensures Gives(RuleVerdict(address, [], Layers(text, SetAll(text, t, list, [Address(address)]), globals), false),
                  list.AllowList?)
  {
    var rule := Address(address);
    var t' := SetAll(text, t, list, [rule]);
    assert Printable(text, rule);
    SameBelow(text, t, t', globals, address, []);
    assert Matches(rule, address, []);
    assert rule !in ReadRules(text, t).allow && rule !in ReadRules(text, t).deny;
    AnsweredLayer(text, t, list, [rule], address, []);
    assert Covered([rule], address, []);
  }

  /** With no candidates at all, whatever is answered sticks. */
  lemma UnresolvedSticks(text: IpText, t: Table, globals: seq<Rules>, admission: Admission, session: Session, asked: int,
                         until: int, now: int)
    requires Asked(text, t, globals, admission, session, asked, Unresolved)
    ensures var subjects := Subjects(text, Unresolved, admission);
            && DecideLayered(text.showIp, admission, Enforce, Layers(text, SetAll(text, t, AllowList, subjects), globals),
                             session, now).Allow?
            && DecideLayered(text.showIp, admission, Enforce, Layers(text, SetAll(text, t, DenyList, subjects), globals),
                             session, now).Deny?
            && (now < until ==>
                  DecideLayered(text.showIp, admission, Enforce, Layers(text, t, globals),
                                GrantAll(text, session, subjects, until), now).Allow?)
  {
    var address, subjects := ToCanonical(admission.address), Subjects(text, Unresolved, admission);
    AskedUnresolved(text, t, globals, admission, session, asked);
    AddressMoves(text, t, globals, address, AllowList);
    AddressMoves(text, t, globals, address, DenyList);
    UnresolvedDecision(text.showIp, admission, Layers(text, SetAll(text, t, AllowList, subjects), globals), session, now);
    UnresolvedDecision(text.showIp, admission, Layers(text, SetAll(text, t, DenyList, subjects), globals), session, now);
    var after := GrantAll(text, session, subjects, until);
    UnresolvedDecision(text.showIp, admission, Layers(text, t, globals), after, now);
    assert SessionKey(text, subjects[0]) == Some(text.showIp(address));
    GrantAllGrants(text, session, subjects, until, text.showIp(address));
  }

  //--- where answers do not stick ----------------------------------------------------------------

  lemma {:induction false} NoneParse(text: IpText, names: seq<string>)
    requires forall n :: n in names ==> Parse(text, n).Rejected?
    ensures ParseAll(text, names) == []
  {
    if names != [] {
      assert names[0] in names;
      NoneParse(text, names[1..]);
    }
  }

  /** When no query name is a rule, an answer has no subjects and leaves no
      trace: the flow is asked about again. */
  lemma UnnamableIsForgotten(text: IpText, t: Table, list: RuleList, admission: Admission, session: Session,
                             kind: PromptKind, until: int)
    requires !kind.Unresolved? && forall c :: c in admission.candidates && c != [] ==> Parse(text, c[0]).Rejected?
    requires kind.Disagreement? ==> forall v :: v in kind.verdicts ==> Parse(text, v.0).Rejected?
    ensures Subjects(text, kind, admission) == []
    ensures SetAll(text, t, list, Subjects(text, kind, admission)) == t
    ensures GrantAll(text, session, Subjects(text, kind, admission), until) == session
  {
    var subjects := Subjects(text, kind, admission);
    var names := if kind.Unknown? then QueryNames(admission.candidates) else Unverdicted(kind.verdicts);
    forall n | n in names ensures Parse(text, n).Rejected? {
      if kind.Disagreement? {
        var i :| 0 <= i < |kind.verdicts| && kind.verdicts[i] == (n, None);
        assert kind.verdicts[i] in kind.verdicts;
      }
    }
    NoneParse(text, names);
  }

  /** A chain that meets only the built-in rule's name is left to the session. */
  lemma OnlyBuiltin(text: IpText, address: IpAddr, name: string, session: Session, now: int)
    requires |name| != |BUILTIN.name|
    ensures ChainVerdict(address, [name], Layers(text, map[], []), session, now)
            == if session.Allows(name, now) then Some(Verdict(true, SessionGrant)) else None
  {
    var kitchen := ReadRules(text, map[]);
    assert kitchen == Rules([BUILTIN], []);
    assert !Matches(BUILTIN, address, [name]);
    SameBelow(text, map[], map[], [], address, [name]);
    assert RuleVerdict(address, [name], Layers(text, map[], []), false).None?;
    assert SessionAllows(session, [name], now) <==> session.Allows(name, now) by {
      assert name in [name];
    }
  }

  /** A host name that ends in a number can be queried but is no rule. */
  lemma NumericNamesAreNoRules(text: IpText)
    requires text.parseIp("h.1").None?
    ensures ValidateHostname("h.1").Name? && Parse(text, "h.1").Rejected?
  {
    SplitAtDot("h", "1");
    SplitPlain("h");
    SplitPlain("1");
    assert "h" + "." + "1" == "h.1";
    assert Split("h.1") == ["h", "1"];
    assert CheckLabels(["h", "1"]) == Fine;
  }

  lemma UnknownIsAsked(text: IpText, name: string)
    requires |name| != |BUILTIN.name|
    ensures DecideLayered(text.showIp, Admission(V4([203, 0, 113, 1]), 443, [[name]], false), Enforce,
                          Layers(text, map[], []), Session(map[]), 0) == Prompt(Unknown)
  {
    var address: IpAddr := V4([203, 0, 113, 1]);
    OnlyBuiltin(text, address, name, Session(map[]), 0);
    assert NonEmpty([[name]]) == [[name]];
    assert Verdicts(address, [[name]], Layers(text, map[], []), Session(map[]), 0) == [None];
  }

  /** So the answers to this flow are lost. */
  lemma NumericNamesAreForgotten(text: IpText, list: RuleList, until: int)
    requires Faithful(text) && text.parseIp("h.1").None?
    ensures var admission := Admission(V4([203, 0, 113, 1]), 443, [["h.1"]], false);
            && Asked(text, map[], [], admission, Session(map[]), 0, Unknown)
            && SetAll(text, map[], list, Subjects(text, Unknown, admission)) == map[]
            && GrantAll(text, Session(map[]), Subjects(text, Unknown, admission), until) == Session(map[])
  {
    var address: IpAddr := V4([203, 0, 113, 1]);
    var admission := Admission(address, 443, [["h.1"]], false);
    UnknownIsAsked(text, "h.1");
    NumericNamesAreNoRules(text);
    UnnamableIsForgotten(text, map[], list, admission, Session(map[]), Unknown, until);
  }

  /** A temporary allow ends before it expires when another name of the address
      was passing on an older grant. */
  lemma TempEndsWithOlderGrant(text: IpText)
    requires Faithful(text) && text.parseIp("b.c").None?
    ensures var admission := Admission(V4([203, 0, 113, 1]), 443, [["a.c"], ["b.c"]], false);
            var session, layers := Session(map["a.c" := 100]), Layers(text, map[], []);
            var kind := Disagreement([("a.c", Some(true)), ("b.c", None)]);
            && Asked(text, map[], [], admission, session, 50, kind)
            && var after := GrantAll(text, session, Subjects(text, kind, admission), 350);
               && DecideLayered(text.showIp, admission, Enforce, layers, after, 99).Allow?
               && DecideLayered(text.showIp, admission, Enforce, layers, after, 100).Prompt?
  {
    var address: IpAddr := V4([203, 0, 113, 1]);
    var admission := Admission(address, 443, [["a.c"], ["b.c"]], false);
    var session, layers := Session(map["a.c" := 100]), Layers(text, map[], []);
    var kind := Disagreement([("a.c", Some(true)), ("b.c", None)]);
    LetterName(text, 'b');
    assert ['b'] + ".c" == "b.c";
    assert NonEmpty(admission.candidates) == [["a.c"], ["b.c"]] by {
      assert admission.candidates[1..] == [["b.c"]];
      assert NonEmpty([["b.c"]]) == [["b.c"]];
    }
    SubjectsOfPair(text, admission);
    var after := GrantAll(text, session, [Exact("b.c")], 350);
    assert SessionKey(text, [Exact("b.c")][0]) == Some("b.c");
    assert after == GrantAll(text, session, [], 350).Grant("b.c", 350);
    assert "a.c"[0] != "b.c"[0];
    PairDecision(text, session, 50);
    PairDecision(text, after, 99);
    PairDecision(text, after, 100);
  }

  lemma LetterLabels(x: char)
    requires 'a' <= x <= 'z'
    ensures Split([x] + ".c") == [[x], "c"] && CheckLabels([[x], "c"]) == Fine
    ensures Lower([x] + ".c") == [x] + ".c"
  {
    SplitAtDot([x], "c");
    SplitPlain([x]);
    SplitPlain("c");
    assert [x] + "." + "c" == [x] + ".c";
    assert CheckLabel([x]) == Fine && CheckLabel("c") == Fine;
    assert [[x], "c"][1..] == ["c"] && CheckLabels(["c"]) == Fine;
  }

  /** A letter, a dot and another letter are an exact rule. */
  lemma LetterName(text: IpText, x: char)
    requires Faithful(text) && 'a' <= x <= 'z'
    ensures Parse(text, [x] + ".c") == Pattern(Exact([x] + ".c"))
    ensures Lower([x] + ".c") == [x] + ".c"
  {
    var name := [x] + ".c";
    LetterLabels(x);
    assert name[0] == x && name[1] == '.' && name[2] == 'c';
    assert ValidateHostname(name) == Name(name);
    assert LastLabel(name) == "c" && !AllDigits("c") by { assert "c"[0] == 'c'; }
    NameCharsOnly(name);
  }

  lemma SubjectsOfPair(text: IpText, admission: Admission)
    requires Parse(text, "b.c") == Pattern(Exact("b.c"))
    ensures Subjects(text, Disagreement([("a.c", Some(true)), ("b.c", None)]), admission) == [Exact("b.c")]
  {
    assert Unverdicted([("b.c", None)]) == ["b.c"];
    assert [("a.c", Some(true)), ("b.c", None)][1..] == [("b.c", None)];
    assert ParseAll(text, ["b.c"]) == [Exact("b.c")];
  }

  lemma PairDecision(text: IpText, session: Session, now: int)
    ensures var admission := Admission(V4([203, 0, 113, 1]), 443, [["a.c"], ["b.c"]], false);
            var d := DecideLayered(text.showIp, admission, Enforce, Layers(text, map[], []), session, now);
            var a, b := session.Allows("a.c", now), session.Allows("b.c", now);
            && (a && b ==> d.Allow?)
            && (!a || !b ==> d.Prompt?)
            && (a && !b ==> d.kind == Disagreement([("a.c", Some(true)), ("b.c", None)]))
  {
    var address: IpAddr := V4([203, 0, 113, 1]);
    OnlyBuiltin(text, address, "a.c", session, now);
    OnlyBuiltin(text, address, "b.c", session, now);
    var candidates: seq<Chain> := [["a.c"], ["b.c"]];
    assert NonEmpty(candidates) == candidates by {
      assert candidates[1..] == [["b.c"]];
      assert NonEmpty([["b.c"]]) == [["b.c"]];
    }
    var yes := Some(Verdict(true, SessionGrant));
    var verdicts := Verdicts(address, candidates, Layers(text, map[], []), session, now);
    assert verdicts == [if session.Allows("a.c", now) then yes else None, if session.Allows("b.c", now) then yes else None];
    PairOutcome(verdicts, candidates);
  }

  lemma PairOutcome(verdicts: seq<Option<Verdict>>, candidates: seq<Chain>)
    requires |verdicts| == |candidates| == 2 && candidates[0] != [] && candidates[1] != []
    requires forall i :: 0 <= i < 2 && verdicts[i].Some? ==> verdicts[i].value.allow
    ensures var d := DecideCandidates(verdicts, candidates);
            && (verdicts[0].Some? && verdicts[1].Some? ==> d.Allow?)
            && (verdicts[0].None? || verdicts[1].None? ==> d.Prompt?)
            && (verdicts[0].Some? && verdicts[1].None? ==>
                  d.kind == Disagreement([(candidates[0][0], Some(true)), (candidates[1][0], None)]))
  {
  }
}
