/** What an answer does to flows that come later: not only to the one that was
    asked about, but to any flow of the sandbox. */
module LaterFlows {
  import opened Grammar
  import opened Net
  import opened HostPatterns
  import opened Decision
  import opened DecisionLaws
  import opened RuleEdits
  import opened Answers
  import opened Registry
  import Q = ApprovalQueue

  //--- parts of a flow ---------------------------------------------------------------------------

  /** The decision engine can be asked for a prompt. */
  predicate IsOpen(admission: Admission) {
    !admission.malformed && !IsHardDenied(ToCanonical(admission.address))
  }

  /** A flow is decided part by part: rules match `names`, grants match `keys`.
      Without candidates there is one part, the address by itself. */
  predicate IsPart(text: IpText, admission: Admission, names: Chain, keys: Chain) {
    if NonEmpty(admission.candidates) == [] then names == [] && keys == [text.showIp(ToCanonical(admission.address))]
    else names != [] && names in admission.candidates && keys == names
  }

  function PartVerdict(address: IpAddr, names: Chain, keys: Chain, layers: seq<Rules>, session: Session, now: int)
    : Option<Verdict>
  {
    var verdict := RuleVerdict(address, names, layers, false);
    if verdict.Some? then verdict
    else if SessionAllows(session, keys, now) then Some(Verdict(true, SessionGrant))
    else None
  }

  /** A flow is allowed (denied) exactly when all its parts are. */
  lemma DecidedByParts(text: IpText, admission: Admission, layers: seq<Rules>, session: Session, now: int, allow: bool)
    requires IsOpen(admission)
    ensures var d := DecideLayered(text.showIp, admission, Enforce, layers, session, now);
            (if allow then d.Allow? else d.Deny?) <==>
              forall names, keys :: IsPart(text, admission, names, keys) ==>
                Gives(PartVerdict(ToCanonical(admission.address), names, keys, layers, session, now), allow)
  {
    var address := ToCanonical(admission.address);
    if NonEmpty(admission.candidates) == [] {
      var keys := [text.showIp(address)];
      UnresolvedDecision(text.showIp, admission, layers, session, now);
      assert IsPart(text, admission, [], keys);
      assert keys[0] in keys;
    } else {
      DecidedByAll(text.showIp, admission, Enforce, layers, session, now, allow);
      forall c | c in admission.candidates && c != [] ensures IsPart(text, admission, c, c) {
      }
      assert forall c :: PartVerdict(address, c, c, layers, session, now) == ChainVerdict(address, c, layers, session, now);
    }
  }

  //--- the kitchen file after an answer ----------------------------------------------------------

  /** Every subject is in `list` and out of the other; nothing else moved. */
  lemma MovedRules(text: IpText, t: Table, list: RuleList, subjects: seq<HostPattern>, p: HostPattern)
    requires Editable(t) && forall q :: q in subjects ==> Printable(text, q)
    ensures var before, after := ReadRules(text, t), ReadRules(text, SetAll(text, t, list, subjects));
            && (list.AllowList? ==>
                  && (p in after.allow <==> p in before.allow || p in subjects)
                  && (p in after.deny <==> p in before.deny && p !in subjects))
            && (list.DenyList? ==>
                  && (p in after.deny <==> p in before.deny || p in subjects)
                  && (p !in subjects ==> (p in after.allow <==> p in before.allow)))
  {
    var t' := SetAll(text, t, list, subjects);
    SetAllMoves(text, t, list, subjects);
    PatternsAre(text, ValuesOf(t, AllowList));
    PatternsAre(text, ValuesOf(t, DenyList));
    PatternsAre(text, ValuesOf(t', AllowList));
    PatternsAre(text, ValuesOf(t', DenyList));
  }

  /** A deny rule of the kitchen file that the answer leaves where it is. */
  predicate DeniedByOthers(text: IpText, t: Table, subjects: seq<HostPattern>, address: IpAddr, names: Chain) {
    exists r :: r in ReadRules(text, t).deny && r !in subjects && Matches(r, address, names)
  }

  lemma KitchenAfterAllow(text: IpText, t: Table, subjects: seq<HostPattern>, address: IpAddr, names: Chain)
    requires Editable(t) && forall q :: q in subjects ==> Printable(text, q)
    ensures var after := ReadRules(text, SetAll(text, t, AllowList, subjects));
            && (AnyMatches(after.deny, address, names) <==> DeniedByOthers(text, t, subjects, address, names))
            && (AnyMatches(after.allow, address, names) <==>
                  AnyMatches(ReadRules(text, t).allow, address, names) || Covered(subjects, address, names))
  {
    forall p ensures var after := ReadRules(text, SetAll(text, t, AllowList, subjects));
                     && (p in after.allow <==> p in ReadRules(text, t).allow || p in subjects)
                     && (p in after.deny <==> p in ReadRules(text, t).deny && p !in subjects)
    {
      MovedRules(text, t, AllowList, subjects, p);
    }
  }

  lemma KitchenAfterDeny(text: IpText, t: Table, subjects: seq<HostPattern>, address: IpAddr, names: Chain)
    requires Editable(t) && forall q :: q in subjects ==> Printable(text, q)
    ensures var before, after := ReadRules(text, t), ReadRules(text, SetAll(text, t, DenyList, subjects));
            && (AnyMatches(after.deny, address, names) <==>
                  AnyMatches(before.deny, address, names) || Covered(subjects, address, names))
            && (!Covered(subjects, address, names) ==>
                  (AnyMatches(after.allow, address, names) <==> AnyMatches(before.allow, address, names)))
  {
    forall p ensures var before, after := ReadRules(text, t), ReadRules(text, SetAll(text, t, DenyList, subjects));
                     && (p in after.deny <==> p in before.deny || p in subjects)
                     && (p !in subjects ==> (p in after.allow <==> p in before.allow))
    {
      MovedRules(text, t, DenyList, subjects, p);
    }
  }

  //--- grants after an answer --------------------------------------------------------------------

  predicate IsKeyOf(text: IpText, subjects: seq<HostPattern>, key: string) {
    exists p :: p in subjects && SessionKey(text, p) == Some(key)
  }

  /** A grant that is not the answer's counts: the answer's own ones are set
      anew, even when they would have lasted longer. */
  predicate OlderGrant(text: IpText, session: Session, subjects: seq<HostPattern>, keys: Chain, now: int) {
    exists n :: n in keys && !IsKeyOf(text, subjects, n) && session.Allows(n, now)
  }

  lemma GrantsAfter(text: IpText, session: Session, subjects: seq<HostPattern>, until: int, keys: Chain, now: int)
    ensures SessionAllows(GrantAll(text, session, subjects, until), keys, now) <==>
              (now < until && Answers.Granted(text, subjects, keys)) || OlderGrant(text, session, subjects, keys, now)
  {
    var after := GrantAll(text, session, subjects, until);
    forall key ensures after.Allows(key, now) <==>
                         if IsKeyOf(text, subjects, key) then now < until else session.Allows(key, now)
    {
      GrantAllGrants(text, session, subjects, until, key);
    }
    if n :| n in keys && after.Allows(n, now) {
      if IsKeyOf(text, subjects, n) {
        var p :| p in subjects && SessionKey(text, p) == Some(n);
        assert SessionKey(text, p).value in keys;
      }
    }
    if now < until && Answers.Granted(text, subjects, keys) {
      var p :| p in subjects && SessionKey(text, p).Some? && SessionKey(text, p).value in keys;
      assert IsKeyOf(text, subjects, SessionKey(text, p).value);
      assert after.Allows(SessionKey(text, p).value, now);
    }
    if OlderGrant(text, session, subjects, keys, now) {
      var n :| n in keys && !IsKeyOf(text, subjects, n) && session.Allows(n, now);
      assert after.Allows(n, now);
    }
  }

  //--- any later flow ----------------------------------------------------------------------------

  /** The answer is about this part of the flow, and could be written down. */
  predicate Reaches(t: Table, subjects: seq<HostPattern>, address: IpAddr, names: Chain) {
    Editable(t) && Covered(subjects, address, names)
  }

  /** A part of a flow is allowed once `outcome` was applied about `subjects`, in
      terms of what was stored before. */
  ghost predicate AllowsAfter(text: IpText, globals: seq<Rules>, s: Sandbox, subjects: seq<HostPattern>, outcome: Q.Outcome,
                              until: int, address: IpAddr, names: Chain, keys: Chain, now: int) {
    var layers := Layers(text, s.table, globals);
    var before := PartVerdict(address, names, keys, layers, s.session, now);
    match outcome
    case Allow =>
      Gives(before, true)
      || (Reaches(s.table, subjects, address, names) && !DeniedByOthers(text, s.table, subjects, address, names))
    case Deny => Gives(before, true) && !Reaches(s.table, subjects, address, names)
    case Temp =>
      var rules := RuleVerdict(address, names, layers, false);
      if rules.Some? then rules.value.allow
      else (now < until && Answers.Granted(text, subjects, keys)) || OlderGrant(text, s.session, subjects, keys, now)
    case _ => Gives(before, true)
  }

  ghost predicate DeniesAfter(text: IpText, globals: seq<Rules>, s: Sandbox, subjects: seq<HostPattern>, outcome: Q.Outcome,
                              address: IpAddr, names: Chain) {
    var before := RuleVerdict(address, names, Layers(text, s.table, globals), false);
    match outcome
    case Allow =>
      Gives(before, false)
      && (Reaches(s.table, subjects, address, names) ==> DeniedByOthers(text, s.table, subjects, address, names))
    case Deny => Gives(before, false) || Reaches(s.table, subjects, address, names)
    case _ => Gives(before, false)
  }

  lemma RulesAfterAllow(text: IpText, t: Table, globals: seq<Rules>, subjects: seq<HostPattern>, address: IpAddr, names: Chain)
    requires Editable(t) && forall q :: q in subjects ==> Printable(text, q)
    ensures var before, after := RuleVerdict(address, names, Layers(text, t, globals), false),
                                 RuleVerdict(address, names, Layers(text, SetAll(text, t, AllowList, subjects), globals), false);
            if DeniedByOthers(text, t, subjects, address, names) then Gives(after, false)
            else if Covered(subjects, address, names) then Gives(after, true)
            else after.Some? == before.Some? && (Gives(after, true) <==> Gives(before, true))
  {
    KitchenAfterAllow(text, t, subjects, address, names);
    SameBelow(text, t, SetAll(text, t, AllowList, subjects), globals, address, names);
  }

  lemma RulesAfterDeny(text: IpText, t: Table, globals: seq<Rules>, subjects: seq<HostPattern>, address: IpAddr, names: Chain)
    requires Editable(t) && forall q :: q in subjects ==> Printable(text, q)
    ensures var before, after := RuleVerdict(address, names, Layers(text, t, globals), false),
                                 RuleVerdict(address, names, Layers(text, SetAll(text, t, DenyList, subjects), globals), false);
            if Covered(subjects, address, names) then Gives(after, false)
            else after.Some? == before.Some? && (Gives(after, true) <==> Gives(before, true))
  {
    KitchenAfterDeny(text, t, subjects, address, names);
    SameBelow(text, t, SetAll(text, t, DenyList, subjects), globals, address, names);
  }

  /** A file that cannot be edited stays as it is. */
  lemma {:induction false} NothingIsSet(text: IpText, t: Table, list: RuleList, subjects: seq<HostPattern>)
    requires !Editable(t)
    ensures SetAll(text, t, list, subjects) == t
  {
    if subjects != [] {
      NothingIsSet(text, t, list, subjects[..|subjects| - 1]);
    }
  }

  lemma PartAfter(text: IpText, globals: seq<Rules>, s: Sandbox, subjects: seq<HostPattern>, outcome: Q.Outcome, until: int,
                  address: IpAddr, names: Chain, keys: Chain, now: int)
    requires forall q :: q in subjects ==> Printable(text, q)
    ensures var after := Applied(text, s, subjects, outcome, until);
            var v := PartVerdict(address, names, keys, Layers(text, after.table, globals), after.session, now);
            && (Gives(v, true) <==> AllowsAfter(text, globals, s, subjects, outcome, until, address, names, keys, now))
            && (Gives(v, false) <==> DeniesAfter(text, globals, s, subjects, outcome, address, names))
  {
    if Editable(s.table) {
      EditedPartAfter(text, globals, s, subjects, outcome, until, address, names, keys, now);
    } else if outcome.Allow? || outcome.Deny? {
      NothingIsSet(text, s.table, if outcome.Allow? then AllowList else DenyList, subjects);
    } else if outcome.Temp? {
      GrantsAfter(text, s.session, subjects, until, keys, now);
    }
  }

  lemma EditedPartAfter(text: IpText, globals: seq<Rules>, s: Sandbox, subjects: seq<HostPattern>, outcome: Q.Outcome,
                        until: int, address: IpAddr, names: Chain, keys: Chain, now: int)
    requires Editable(s.table) && forall q :: q in subjects ==> Printable(text, q)
    ensures var after := Applied(text, s, subjects, outcome, until);
            var v := PartVerdict(address, names, keys, Layers(text, after.table, globals), after.session, now);
            && (Gives(v, true) <==> AllowsAfter(text, globals, s, subjects, outcome, until, address, names, keys, now))
            && (Gives(v, false) <==> DeniesAfter(text, globals, s, subjects, outcome, address, names))
  {
    SameBelow(text, s.table, s.table, globals, address, names);
    match outcome
    case Allow => RulesAfterAllow(text, s.table, globals, subjects, address, names);
    case Deny => RulesAfterDeny(text, s.table, globals, subjects, address, names);
    case Temp => GrantsAfter(text, s.session, subjects, until, keys, now);
    case _ =>
  }

  /** Once an answer was written down, a flow of the sandbox, whichever it is, is
      allowed exactly when every part of it is allowed by what was stored before
      together with the answer, denied exactly when every part is denied by them,
      and asked about otherwise. */
  lemma LaterFlowIff(text: IpText, globals: seq<Rules>, s: Sandbox, subjects: seq<HostPattern>, outcome: Q.Outcome, until: int,
                     later: Admission, now: int)
    requires forall q :: q in subjects ==> Printable(text, q)
    requires IsOpen(later)
    ensures var after := Applied(text, s, subjects, outcome, until);
            var d := DecideLayered(text.showIp, later, Enforce, Layers(text, after.table, globals), after.session, now);
            && (d.Allow? <==> forall names, keys :: IsPart(text, later, names, keys) ==>
                  AllowsAfter(text, globals, s, subjects, outcome, until, ToCanonical(later.address), names, keys, now))
            && (d.Deny? <==> forall names, keys :: IsPart(text, later, names, keys) ==>
                  DeniesAfter(text, globals, s, subjects, outcome, ToCanonical(later.address), names))
  {
    var after := Applied(text, s, subjects, outcome, until);
    var layers := Layers(text, after.table, globals);
    var address := ToCanonical(later.address);
    DecidedByParts(text, later, layers, after.session, now, true);
    DecidedByParts(text, later, layers, after.session, now, false);
    forall names, keys | IsPart(text, later, names, keys)
      ensures Gives(PartVerdict(address, names, keys, layers, after.session, now), true) <==>
                AllowsAfter(text, globals, s, subjects, outcome, until, address, names, keys, now)
      ensures Gives(PartVerdict(address, names, keys, layers, after.session, now), false) <==>
                DeniesAfter(text, globals, s, subjects, outcome, address, names)
    {
      PartAfter(text, globals, s, subjects, outcome, until, address, names, keys, now);
    }
  }

  //--- asked again -------------------------------------------------------------------------------

  /** A chain that meets none of the kitchen's rules and has no grant. */
  lemma Unspoken(text: IpText, t: Table, address: IpAddr, c: Chain, now: int)
    requires !AnyMatches(ReadRules(text, t).allow, address, c) && !AnyMatches(ReadRules(text, t).deny, address, c)
    ensures RuleVerdict(address, c, Layers(text, t, []), false).None?
    ensures ChainVerdict(address, c, Layers(text, t, []), Session(map[]), now).None?
  {
    SameBelow(text, t, t, [], address, c);
  }

  const ONE_RULE: Table := map[AllowList := Array([Text("e.c")])]

  lemma OneRule(text: IpText)
    requires Faithful(text)
    ensures ReadRules(text, ONE_RULE) == Rules([Exact("e.c"), BUILTIN], []) && Editable(ONE_RULE)
  {
    LetterName(text, 'e');
    assert ['e'] + ".c" == "e.c";
    assert ValuesOf(ONE_RULE, AllowList) == [Text("e.c")];
    assert Patterns(text, [Text("e.c")][..0]) == [];
    assert Patterns(text, [Text("e.c")]) == [Exact("e.c")];
  }

  lemma RuleOn(n: string)
    requires Lower(n) == n && |n| == 3
    ensures MatchesName(Exact("e.c"), n) <==> n == "e.c"
    ensures !MatchesName(BUILTIN, n)
  {
  }

  /** Which chains of short names the kitchen's rule matches. */
  lemma OneRuleMatches(text: IpText, address: IpAddr, c: Chain)
    requires Faithful(text) && forall n :: n in c ==> Lower(n) == n && |n| == 3
    ensures AnyMatches(ReadRules(text, ONE_RULE).allow, address, c) <==> "e.c" in c
    ensures !AnyMatches(ReadRules(text, ONE_RULE).deny, address, c)
  {
    OneRule(text);
    var rules := ReadRules(text, ONE_RULE);
    assert forall r :: r in rules.allow <==> r == Exact("e.c") || r == BUILTIN;
    forall n | n in c ensures (MatchesName(Exact("e.c"), n) <==> n == "e.c") && !MatchesName(BUILTIN, n) {
      RuleOn(n);
    }
    if "e.c" in c {
      assert Matches(Exact("e.c"), address, c);
    }
  }

  ghost predicate IsShort(text: IpText, n: string) {
    Lower(n) == n && |n| == 3 && Parse(text, n) == Pattern(Exact(n))
  }

  lemma ShortName(text: IpText, x: char, n: string)
    requires Faithful(text) && 'a' <= x <= 'z' && n == [x] + ".c"
    ensures IsShort(text, n)
  {
    LetterName(text, x);
  }

  lemma ShortNames(text: IpText)
    requires Faithful(text)
    ensures IsShort(text, "a.c") && IsShort(text, "d.c") && IsShort(text, "e.c")
    ensures "a.c" != "d.c" && "a.c" != "e.c" && "d.c" != "e.c"
  {
    assert ['a'] + ".c" == "a.c" && ['d'] + ".c" == "d.c" && ['e'] + ".c" == "e.c";
    ShortName(text, 'a', "a.c");
    ShortName(text, 'd', "d.c");
    ShortName(text, 'e', "e.c");
    assert "a.c"[0] != "d.c"[0] && "a.c"[0] != "e.c"[0] && "d.c"[0] != "e.c"[0];
  }

  /** A flow with two names, the first with an alias that a rule allows. */
  const ALIASED := Admission(V4([203, 0, 113, 1]), 443, [["a.c", "e.c"], ["d.c"]], false)

  /** The same query names at another address, without the alias. */
  const PLAIN := Admission(V4([203, 0, 113, 2]), 443, [["a.c"], ["d.c"]], false)

  const KITCHEN := Sandbox(Enforce, false, Session(map[]), ONE_RULE)

  lemma AliasedVerdicts(text: IpText, now: int)
    requires Faithful(text)
    ensures Gives(ChainVerdict(ALIASED.address, ["a.c", "e.c"], Layers(text, ONE_RULE, []), Session(map[]), now), true)
    ensures ChainVerdict(ALIASED.address, ["d.c"], Layers(text, ONE_RULE, []), Session(map[]), now).None?
  {
    ShortNames(text);
    OneRuleMatches(text, ALIASED.address, ["a.c", "e.c"]);
    OneRuleMatches(text, ALIASED.address, ["d.c"]);
    SameBelow(text, ONE_RULE, ONE_RULE, [], ALIASED.address, ["a.c", "e.c"]);
    assert "e.c" in ["a.c", "e.c"];
    Unspoken(text, ONE_RULE, ALIASED.address, ["d.c"], now);
  }

  const ALIASED_KIND := Disagreement([("a.c", Some(true)), ("d.c", None)])

  lemma AliasedIsAsked(text: IpText, now: int)
    requires Faithful(text)
    ensures Asked(text, ONE_RULE, [], ALIASED, Session(map[]), now, ALIASED_KIND)
    ensures Subjects(text, ALIASED_KIND, ALIASED) == [Exact("d.c")]
  {
    OneRule(text);
    AliasedVerdicts(text, now);
    TwoCandidates(text, ALIASED.address, ["a.c", "e.c"], ["d.c"], Layers(text, ONE_RULE, []), now);
    ShortNames(text);
    SubjectOf(text, "a.c", "d.c");
  }

  lemma TwoCandidates(text: IpText, address: IpAddr, a: Chain, b: Chain, layers: seq<Rules>, now: int)
    requires a != [] && b != [] && ToCanonical(address) == address && !IsHardDenied(address)
    requires Gives(ChainVerdict(address, a, layers, Session(map[]), now), true)
    requires ChainVerdict(address, b, layers, Session(map[]), now).None?
    ensures DecideLayered(text.showIp, Admission(address, 443, [a, b], false), Enforce, layers, Session(map[]), now)
            == Prompt(Disagreement([(a[0], Some(true)), (b[0], None)]))
  {
    assert NonEmpty([a, b]) == [a, b] by {
      assert [a, b][1..] == [b];
      assert NonEmpty([b]) == [b];
    }
    PairOutcome(Verdicts(address, [a, b], layers, Session(map[]), now), [a, b]);
  }

  lemma OneParses(text: IpText, n: string)
    requires IsShort(text, n)
    ensures ParseAll(text, [n]) == [Exact(n)]
  {
    assert ParseAll(text, []) == [];
  }

  lemma SubjectOf(text: IpText, m: string, n: string)
    requires IsShort(text, n)
    ensures ParseAll(text, Unverdicted([(m, Some(true)), (n, None)])) == [Exact(n)]
  {
    OneParses(text, n);
    assert Unverdicted([(n, None)]) == [n];
    assert [(m, Some(true)), (n, None)][1..] == [(n, None)];
  }

  lemma AliasedIsRememberable(text: IpText, now: int, until: int, later: int)
    requires Faithful(text)
    ensures Rememberable(text, [], KITCHEN, ALIASED, Q.Allow, now, until, later)
  {
    AliasedVerdicts(text, now);
    ShortNames(text);
    assert forall c :: c in ALIASED.candidates <==> c == ["a.c", "e.c"] || c == ["d.c"];
  }

  /** After Allow for the flow with the alias, nothing allows the other's first
      name, and nothing denies it. */
  lemma PlainIsOpen(text: IpText, until: int, later: int)
    requires Faithful(text)
    ensures !AllowsAfter(text, [], KITCHEN, [Exact("d.c")], Q.Allow, until, PLAIN.address, ["a.c"], ["a.c"], later)
    ensures !DeniesAfter(text, [], KITCHEN, [Exact("d.c")], Q.Allow, PLAIN.address, ["a.c"])
  {
    OneRule(text);
    ShortNames(text);
    OneRuleMatches(text, PLAIN.address, ["a.c"]);
    Unspoken(text, ONE_RULE, PLAIN.address, ["a.c"], later);
    assert !Matches(Exact("d.c"), PLAIN.address, ["a.c"]);
  }

  lemma PlainPart(text: IpText)
    ensures IsOpen(PLAIN) && IsPart(text, PLAIN, ["a.c"], ["a.c"])
  {
    assert ["a.c"] in NonEmpty(PLAIN.candidates);
  }

  lemma PlainIsAsked(text: IpText, until: int, later: int)
    requires Faithful(text)
    ensures var after := Applied(text, KITCHEN, [Exact("d.c")], Q.Allow, until);
            DecideLayered(text.showIp, PLAIN, Enforce, Layers(text, after.table, []), after.session, later).Prompt?
  {
    OneRule(text);
    ShortNames(text);
    PrintRoundTrips(text, "d.c");
    PlainIsOpen(text, until, later);
    PlainPart(text);
    LaterFlowIff(text, [], KITCHEN, [Exact("d.c")], Q.Allow, until, PLAIN, later);
  }

  /** Two flows with one prompt's subject and port. The first is asked about and
      allowed, and would not be asked about again; the second only begins then,
      and is asked about all the same, whatever it is answered. */
  lemma AliasesAskAgain(text: IpText, now: int, until: int, later: int, again: Q.Outcome, until': int)
    requires Faithful(text)
    ensures SubjectText(text, ALIASED) == SubjectText(text, PLAIN) && ALIASED.port == PLAIN.port
    ensures var first := AdmitFlow(text, [], KITCHEN, ALIASED, Q.Allow, now, until);
            && first.asked && Rememberable(text, [], KITCHEN, ALIASED, Q.Allow, now, until, later)
            && AdmitFlow(text, [], first.after, ALIASED, again, later, until') == Admitted(true, false, first.after)
            && AdmitFlow(text, [], first.after, PLAIN, again, later, until').asked
  {
    AliasedIsAsked(text, now);
    AliasedIsRememberable(text, now, until, later);
    OneRule(text);
    AskedOnce(text, [], KITCHEN, ALIASED, Q.Allow, now, until, again, later, until');
    PlainIsAsked(text, until, later);
    assert QueryNames([["d.c"]]) == ["d.c"];
    assert ALIASED.candidates[1..] == [["d.c"]] && PLAIN.candidates[1..] == [["d.c"]];
  }

  /** A flow with one name, and a kitchen that says nothing. */
  const UNKNOWN := Admission(V4([203, 0, 113, 1]), 443, [["b.c"]], false)

  const QUIET := Sandbox(Enforce, false, Session(map[]), map[])

  lemma TempIsGranted(text: IpText, until: int)
    requires Faithful(text)
    ensures AdmitFlow(text, [], QUIET, UNKNOWN, Q.Temp, 0, until)
            == Admitted(true, true, QUIET.(session := Session(map["b.c" := until])))
  {
    assert ['b'] + ".c" == "b.c";
    ShortName(text, 'b', "b.c");
    UnknownIsAsked(text, "b.c");
    PromptedFlow(text, [], QUIET, UNKNOWN, Q.Temp, 0, until, Unknown);
    UnknownSubject(text, "b.c");
    OneGrant(text, "b.c", until);
  }

  lemma UnknownSubject(text: IpText, n: string)
    requires IsShort(text, n)
    ensures Subjects(text, Unknown, Admission(V4([203, 0, 113, 1]), 443, [[n]], false)) == [Exact(n)]
  {
    assert QueryNames([[n]]) == [n];
    OneParses(text, n);
  }

  lemma PromptedFlow(text: IpText, globals: seq<Rules>, s: Sandbox, admission: Admission, outcome: Q.Outcome, now: int,
                     until: int, kind: PromptKind)
    requires !s.limited && Q.IsAnswer(outcome)
    requires DecideLayered(text.showIp, admission, s.mode, Layers(text, s.table, globals), s.session, now) == Prompt(kind)
    ensures AdmitFlow(text, globals, s, admission, outcome, now, until)
            == Admitted(Passes(outcome), true, Applied(text, s, Subjects(text, kind, admission), outcome, until))
  {
  }

  /** An expired temporary allow: the same flow is asked about again. */
  lemma ExpiredTempAsksAgain(text: IpText, until: int, later: int, again: Q.Outcome, until': int)
    requires Faithful(text) && later >= until
    ensures var first := AdmitFlow(text, [], QUIET, UNKNOWN, Q.Temp, 0, until);
            first.asked && first.allowed && AdmitFlow(text, [], first.after, UNKNOWN, again, later, until').asked
  {
    TempIsGranted(text, until);
    OneName(text, UNKNOWN.address, "b.c", Session(map["b.c" := until]), later);
  }

  lemma OneGrant(text: IpText, n: string, until: int)
    ensures GrantAll(text, Session(map[]), [Exact(n)], until) == Session(map[n := until])
  {
    assert SessionKey(text, [Exact(n)][0]) == Some(n);
    assert GrantAll(text, Session(map[]), [Exact(n)][..0], until) == Session(map[]);
  }

  lemma OneName(text: IpText, address: IpAddr, n: string, session: Session, now: int)
    requires |n| != |BUILTIN.name| && !session.Allows(n, now) && !IsHardDenied(address) && ToCanonical(address) == address
    ensures DecideLayered(text.showIp, Admission(address, 443, [[n]], false), Enforce, Layers(text, map[], []), session, now)
            == Prompt(Unknown)
  {
    OnlyBuiltin(text, address, n, session, now);
    assert NonEmpty([[n]]) == [[n]];
    assert Verdicts(address, [[n]], Layers(text, map[], []), session, now) == [None];
  }
}
