/** One admission from end to end: who passes, who is refused and who is asked
    about, in terms of the kitchen file's entries, the global rules and the
    grants. */
module Admissions {
  import opened Net
  import opened Grammar
  import opened HostPatterns
  import opened Decision
  import opened DecisionLaws
  import opened HardDenies
  import opened RuleEdits
  import opened Answers
  import opened LaterFlows
  import opened Registry
  import Q = ApprovalQueue

  //--- what the rules say ------------------------------------------------------------------------

  /** Some entry of the file's list reads as a rule that matches. */
  predicate Lists(text: IpText, t: Table, list: RuleList, address: IpAddr, names: Chain) {
    && list in t && t[list].Array?
    && exists v :: v in t[list].values && v.Text? && Parse(text, v.s).Pattern?
         && Matches(Parse(text, v.s).pattern, address, names)
  }

  /** The kitchen file denies what its deny list matches; else it allows what its
      allow list matches, and the time server by name. */
  predicate FileSays(text: IpText, t: Table, address: IpAddr, names: Chain, allow: bool) {
    var denied := Lists(text, t, DenyList, address, names);
    if allow then
      !denied && (Lists(text, t, AllowList, address, names) || exists n :: n in names && Lower(n) == "ntp.ubuntu.com")
    else denied
  }

  /** What the kitchen file says goes; where it says nothing, the first global
      layer that says anything decides. */
  ghost predicate RulesSay(text: IpText, t: Table, globals: seq<Rules>, address: IpAddr, names: Chain, allow: bool) {
    || FileSays(text, t, address, names, allow)
    || (!FileSays(text, t, address, names, !allow) && exists i: nat :: FirstSays(globals, i, address, names, allow))
  }

  ghost predicate RulesAreSilent(text: IpText, t: Table, globals: seq<Rules>, address: IpAddr, names: Chain) {
    !RulesSay(text, t, globals, address, names, true) && !RulesSay(text, t, globals, address, names, false)
  }

  predicate IsGranted(session: Session, keys: Chain, now: int) {
    exists k :: k in keys && k in session.grants && now < session.grants[k]
  }

  /** A part of a flow is allowed (denied) by what is stored: its rules, or a
      grant where they are silent. */
  ghost predicate StoredSays(text: IpText, s: Sandbox, globals: seq<Rules>, address: IpAddr, names: Chain, keys: Chain,
                             now: int, allow: bool) {
    || RulesSay(text, s.table, globals, address, names, allow)
    || (allow && RulesAreSilent(text, s.table, globals, address, names) && IsGranted(s.session, keys, now))
  }

  lemma ListsIs(text: IpText, t: Table, list: RuleList, address: IpAddr, names: Chain)
    ensures Lists(text, t, list, address, names) <==> AnyMatches(Patterns(text, ValuesOf(t, list)), address, names)
  {
    PatternsAre(text, ValuesOf(t, list));
    if Lists(text, t, list, address, names) {
      var v :| v in t[list].values && v.Text? && Parse(text, v.s).Pattern?
               && Matches(Parse(text, v.s).pattern, address, names);
      assert IsRule(text, v, Parse(text, v.s).pattern);
    }
    if r :| r in Patterns(text, ValuesOf(t, list)) && Matches(r, address, names) {
      var v :| v in ValuesOf(t, list) && IsRule(text, v, r);
    }
  }

  lemma BuiltinMatches(address: IpAddr, names: Chain)
    ensures Matches(BUILTIN, address, names) <==> exists n :: n in names && Lower(n) == "ntp.ubuntu.com"
  {
    if n :| n in names && Lower(n) == "ntp.ubuntu.com" { assert MatchesName(BUILTIN, n); }
    if n :| n in names && MatchesName(BUILTIN, n) { assert Lower(n) == "ntp.ubuntu.com"; }
  }

  lemma FileSaysIs(text: IpText, t: Table, address: IpAddr, names: Chain, allow: bool)
    ensures FileSays(text, t, address, names, allow) <==> LayerSays(ReadRules(text, t), address, names, allow)
  {
    ListsIs(text, t, AllowList, address, names);
    ListsIs(text, t, DenyList, address, names);
    BuiltinMatches(address, names);
    var rules := ReadRules(text, t);
    assert forall r :: r in rules.allow <==> r in Patterns(text, ValuesOf(t, AllowList)) || r == BUILTIN;
    assert AnyMatches(rules.allow, address, names) <==>
           AnyMatches(Patterns(text, ValuesOf(t, AllowList)), address, names) || Matches(BUILTIN, address, names);
  }

  /** The walk over the layers finds what the rules say. */
  lemma RulesSayIs(text: IpText, t: Table, globals: seq<Rules>, address: IpAddr, names: Chain, allow: bool)
    ensures RulesSay(text, t, globals, address, names, allow)
            <==> Gives(RuleVerdict(address, names, Layers(text, t, globals), false), allow)
  {
    FileSaysIs(text, t, address, names, true);
    FileSaysIs(text, t, address, names, false);
    SameBelow(text, t, t, globals, address, names);
    RuleVerdictIs(address, names, globals, true, allow);
  }

  lemma StoredSaysIs(text: IpText, s: Sandbox, globals: seq<Rules>, address: IpAddr, names: Chain, keys: Chain, now: int,
                     allow: bool)
    ensures StoredSays(text, s, globals, address, names, keys, now, allow)
            <==> Gives(PartVerdict(address, names, keys, Layers(text, s.table, globals), s.session, now), allow)
  {
    RulesSayIs(text, s.table, globals, address, names, true);
    RulesSayIs(text, s.table, globals, address, names, false);
    assert IsGranted(s.session, keys, now) <==> SessionAllows(s.session, keys, now) by {
      if n :| n in keys && s.session.Allows(n, now) { assert n in s.session.grants && now < s.session.grants[n]; }
      if k :| k in keys && k in s.session.grants && now < s.session.grants[k] { assert s.session.Allows(k, now); }
    }
  }

  //--- who passes --------------------------------------------------------------------------------

  /** All parts of the flow are allowed (denied) by what is stored. */
  ghost predicate EveryPartSays(text: IpText, s: Sandbox, globals: seq<Rules>, admission: Admission, now: int, allow: bool) {
    forall names, keys :: IsPart(text, admission, names, keys) ==>
      StoredSays(text, s, globals, ToCanonical(admission.address), names, keys, now, allow)
  }

  lemma EveryPartSaysIs(text: IpText, s: Sandbox, globals: seq<Rules>, admission: Admission, now: int, allow: bool)
    requires IsOpen(admission)
    ensures var d := DecideLayered(text.showIp, admission, Enforce, Layers(text, s.table, globals), s.session, now);
            (if allow then d.Allow? else d.Deny?) <==> EveryPartSays(text, s, globals, admission, now, allow)
  {
    DecidedByParts(text, admission, Layers(text, s.table, globals), s.session, now, allow);
    forall names, keys ensures
      StoredSays(text, s, globals, ToCanonical(admission.address), names, keys, now, allow) <==>
      Gives(PartVerdict(ToCanonical(admission.address), names, keys, Layers(text, s.table, globals), s.session, now), allow)
    {
      StoredSaysIs(text, s, globals, ToCanonical(admission.address), names, keys, now, allow);
    }
  }

  /** What is stored lets the flow pass without asking. */
  ghost predicate StoredAllows(text: IpText, s: Sandbox, globals: seq<Rules>, admission: Admission, now: int) {
    IsOpenTo(admission) && (s.mode.Open? || EveryPartSays(text, s, globals, admission, now, true))
  }

  ghost predicate StoredDenies(text: IpText, s: Sandbox, globals: seq<Rules>, admission: Admission, now: int) {
    !IsOpenTo(admission) || (s.mode.Enforce? && EveryPartSays(text, s, globals, admission, now, false))
  }

  lemma DecisionIs(text: IpText, s: Sandbox, globals: seq<Rules>, admission: Admission, now: int)
    ensures var d := DecideLayered(text.showIp, admission, s.mode, Layers(text, s.table, globals), s.session, now);
            && (d.Allow? <==> StoredAllows(text, s, globals, admission, now))
            && (d.Deny? <==> StoredDenies(text, s, globals, admission, now))
  {
    OpenToIs(admission);
    if IsOpenTo(admission) && s.mode.Enforce? {
      EveryPartSaysIs(text, s, globals, admission, now, true);
      EveryPartSaysIs(text, s, globals, admission, now, false);
    } else {
      OpenModeIff(text.showIp, admission, Layers(text, s.table, globals), s.session, now, admission.candidates,
                  Layers(text, s.table, globals), s.session, now);
      assert !IsOpenTo(admission) ==>
        DecideLayered(text.showIp, admission, s.mode, Layers(text, s.table, globals), s.session, now).Deny?;
    }
  }

  /** Every admission: a limited sandbox's flows are refused; else what is stored
      allows or denies the flow; else a human is asked, and only an Allow or a
      Temp lets it pass. Nothing but asking changes anything, and asking without
      an answer changes at most the limit. */
  lemma AdmittedIff(text: IpText, globals: seq<Rules>, s: Sandbox, admission: Admission, outcome: Q.Outcome, now: int,
                    until: int)
    ensures var r := AdmitFlow(text, globals, s, admission, outcome, now, until);
            && (r.asked <==> !s.limited && !StoredAllows(text, s, globals, admission, now)
                             && !StoredDenies(text, s, globals, admission, now))
            && (r.allowed <==> if r.asked then outcome.Allow? || outcome.Temp?
                               else !s.limited && StoredAllows(text, s, globals, admission, now))
            && (!r.asked ==> r.after == s)
            && (r.asked && !outcome.Allow? && !outcome.Deny? && !outcome.Temp? ==>
                  r.after == s.(limited := outcome.RateLimited?))
  {
    DecisionIs(text, s, globals, admission, now);
  }

  /** A flow that claims a name has that name for its only part. */
  lemma ClaimedPart(text: IpText, address: IpAddr, port: u16, n: string, names: Chain, keys: Chain)
    ensures IsPart(text, Admission(ToCanonical(address), port, [[n]], false), names, keys) <==> names == keys == [n]
  {
    assert [n] in [[n]];
  }

  /** In enforce mode, outside the hard denies, an unlimited flow that claims a
      name passes unasked exactly when the rules allow the name or the address, or
      are silent while a grant for the name lasts; it is refused unasked exactly
      when they deny it. */
  lemma ClaimedNameIff(text: IpText, globals: seq<Rules>, s: Sandbox, address: IpAddr, port: u16, n: string,
                       outcome: Q.Outcome, now: int, until: int)
    requires !s.limited && s.mode.Enforce?
    requires forall i :: 0 <= i < |RANGES| ==> !Contains(RANGES[i], ToCanonical(address))
    ensures var r := AdmitFlow(text, globals, s, Admission(ToCanonical(address), port, [[n]], false), outcome, now, until);
            var a := ToCanonical(address);
            && (r.allowed && !r.asked <==>
                  || RulesSay(text, s.table, globals, a, [n], true)
                  || (RulesAreSilent(text, s.table, globals, a, [n]) && n in s.session.grants && now < s.session.grants[n]))
            && (!r.allowed && !r.asked <==> RulesSay(text, s.table, globals, a, [n], false))
  {
    var admission := Admission(ToCanonical(address), port, [[n]], false);
    CanonicalForms(address, address);
    AdmittedIff(text, globals, s, admission, outcome, now, until);
    ClaimedPart(text, address, port, n, [n], [n]);
    forall names, keys | IsPart(text, admission, names, keys) ensures names == keys == [n] {
      ClaimedPart(text, address, port, n, names, keys);
    }
    assert n in [n];
    SaysOne(text, s, globals, ToCanonical(address), n, now);
  }

  /** The rules never say both. */
  lemma SaysOne(text: IpText, s: Sandbox, globals: seq<Rules>, address: IpAddr, n: string, now: int)
    ensures !(StoredSays(text, s, globals, address, [n], [n], now, true)
              && StoredSays(text, s, globals, address, [n], [n], now, false))
  {
    StoredSaysIs(text, s, globals, address, [n], [n], now, true);
    StoredSaysIs(text, s, globals, address, [n], [n], now, false);
  }

  //--- what an answer is about -------------------------------------------------------------------

  predicate AllEmpty(candidates: seq<Chain>) {
    forall c :: c in candidates ==> c == []
  }

  lemma NoCandidates(candidates: seq<Chain>)
    ensures AllEmpty(candidates) <==> NonEmpty(candidates) == []
  {
    if NonEmpty(candidates) != [] { assert NonEmpty(candidates)[0] in NonEmpty(candidates); }
  }

  /** Some candidate that what is stored leaves open has this query name. */
  ghost predicate IsUndecidedName(text: IpText, s: Sandbox, globals: seq<Rules>, admission: Admission, now: int,
                                  p: HostPattern) {
    exists c :: c in admission.candidates && c != [] && Parse(text, c[0]) == Pattern(p)
      && IsUndecided(text, s, globals, admission, now, c)
  }

  ghost predicate IsUndecided(text: IpText, s: Sandbox, globals: seq<Rules>, admission: Admission, now: int, c: Chain) {
    var address := ToCanonical(admission.address);
    !StoredSays(text, s, globals, address, c, c, now, true) && !StoredSays(text, s, globals, address, c, c, now, false)
  }

  lemma UndecidedIs(text: IpText, s: Sandbox, globals: seq<Rules>, admission: Admission, now: int, c: Chain)
    ensures IsUndecided(text, s, globals, admission, now, c)
            <==> ChainVerdict(ToCanonical(admission.address), c, Layers(text, s.table, globals), s.session, now).None?
  {
    StoredSaysIs(text, s, globals, ToCanonical(admission.address), c, c, now, true);
    StoredSaysIs(text, s, globals, ToCanonical(admission.address), c, c, now, false);
  }

  /** A disagreement lists the candidates in order, by their query names, with what
      is stored about each. */
  ghost predicate IsListed(text: IpText, s: Sandbox, globals: seq<Rules>, admission: Admission, now: int,
                           entry: (string, Option<bool>), c: Chain) {
    var address := ToCanonical(admission.address);
    && c != [] && entry.0 == c[0]
    && (entry.1 == Some(true) <==> StoredSays(text, s, globals, address, c, c, now, true))
    && (entry.1 == Some(false) <==> StoredSays(text, s, globals, address, c, c, now, false))
  }

  /** Which kind a prompt is of: the address is unresolved when there are no
      candidates, unknown when what is stored leaves all of them open, and else
      they disagree. */
  lemma KindIff(text: IpText, s: Sandbox, globals: seq<Rules>, admission: Admission, now: int)
    requires DecideLayered(text.showIp, admission, Enforce, Layers(text, s.table, globals), s.session, now).Prompt?
    ensures var kind := DecideLayered(text.showIp, admission, Enforce, Layers(text, s.table, globals), s.session, now).kind;
            var candidates := NonEmpty(admission.candidates);
            && (kind.Unresolved? <==> AllEmpty(admission.candidates))
            && (kind.Unknown? <==> !AllEmpty(admission.candidates)
                                   && forall c :: c in candidates ==> IsUndecided(text, s, globals, admission, now, c))
            && (kind.Disagreement? ==>
                  && |kind.verdicts| == |candidates|
                  && forall i :: 0 <= i < |candidates| ==>
                       IsListed(text, s, globals, admission, now, kind.verdicts[i], candidates[i]))
  {
    NoCandidates(admission.candidates);
    var layers := Layers(text, s.table, globals);
    PromptKinds(text.showIp, admission, Enforce, layers, s.session, now);
    var kind := DecideLayered(text.showIp, admission, Enforce, layers, s.session, now).kind;
    var candidates := NonEmpty(admission.candidates);
    if !kind.Unresolved? {
      PromptLists(text.showIp, admission, layers, s.session, now);
      if kind.Disagreement? { var j := SomeIsDecided(text.showIp, admission, layers, s.session, now); }
      forall i | 0 <= i < |candidates|
        ensures IsUndecided(text, s, globals, admission, now, candidates[i])
                <==> ChainVerdict(ToCanonical(admission.address), candidates[i], layers, s.session, now).None?
        ensures kind.Disagreement? ==> IsListed(text, s, globals, admission, now, kind.verdicts[i], candidates[i])
      {
        UndecidedIs(text, s, globals, admission, now, candidates[i]);
        StoredSaysIs(text, s, globals, ToCanonical(admission.address), candidates[i], candidates[i], now, true);
        StoredSaysIs(text, s, globals, ToCanonical(admission.address), candidates[i], candidates[i], now, false);
      }
    }
  }

  /** In a disagreement not every candidate was left open. */
  lemma SomeIsDecided(show: IpAddr -> string, admission: Admission, layers: seq<Rules>, session: Session, now: int)
    returns (i: nat)
    requires var d := DecideLayered(show, admission, Enforce, layers, session, now); d.Prompt? && d.kind.Disagreement?
    ensures var candidates := NonEmpty(admission.candidates);
            i < |candidates| && ChainVerdict(ToCanonical(admission.address), candidates[i], layers, session, now).Some?
  {
    var verdicts := Verdicts(ToCanonical(admission.address), NonEmpty(admission.candidates), layers, session, now);
    i :| 0 <= i < |verdicts| && verdicts[i].Some?;
  }

  /** What the answer to a prompt is written down for: the address, when the flow
      has no candidates; else exactly the query names, as far as they are rules, of
      the candidates that what is stored neither allows nor denies. */
  lemma SubjectsIff(text: IpText, s: Sandbox, globals: seq<Rules>, admission: Admission, now: int, p: HostPattern)
    requires DecideLayered(text.showIp, admission, Enforce, Layers(text, s.table, globals), s.session, now).Prompt?
    ensures var kind := DecideLayered(text.showIp, admission, Enforce, Layers(text, s.table, globals), s.session, now).kind;
            p in Subjects(text, kind, admission)
            <==> if AllEmpty(admission.candidates) then p == Address(ToCanonical(admission.address))
                 else IsUndecidedName(text, s, globals, admission, now, p)
  {
    NoCandidates(admission.candidates);
    var layers := Layers(text, s.table, globals);
    PromptKinds(text.showIp, admission, Enforce, layers, s.session, now);
    var kind := DecideLayered(text.showIp, admission, Enforce, layers, s.session, now).kind;
    if !kind.Unresolved? {
      PromptLists(text.showIp, admission, layers, s.session, now);
      if p in Subjects(text, kind, admission) { SubjectIsUndecided(text, s, globals, admission, now, p); }
      if IsUndecidedName(text, s, globals, admission, now, p) {
        var c :| c in admission.candidates && c != [] && Parse(text, c[0]) == Pattern(p)
                 && IsUndecided(text, s, globals, admission, now, c);
        UndecidedIs(text, s, globals, admission, now, c);
        UndecidedIsSubject(text, admission, layers, s.session, now, c);
      }
    }
  }

  lemma UndecidedIsSubject(text: IpText, admission: Admission, layers: seq<Rules>, session: Session, now: int, c: Chain)
    requires c in admission.candidates && c != [] && Parse(text, c[0]).Pattern?
    requires ChainVerdict(ToCanonical(admission.address), c, layers, session, now).None?
    requires var d := DecideLayered(text.showIp, admission, Enforce, layers, session, now); d.Prompt? && !d.kind.Unresolved?
    ensures var kind := DecideLayered(text.showIp, admission, Enforce, layers, session, now).kind;
            Parse(text, c[0]).pattern in Subjects(text, kind, admission)
  {
    PromptLists(text.showIp, admission, layers, session, now);
    var kind := DecideLayered(text.showIp, admission, Enforce, layers, session, now).kind;
    if kind.Unknown? {
      assert c[0] in QueryNames(admission.candidates);
    } else {
      var candidates := NonEmpty(admission.candidates);
      assert c in candidates;
      var i :| 0 <= i < |candidates| && candidates[i] == c;
      assert kind.verdicts[i] == (c[0], None);
      assert c[0] in Unverdicted(kind.verdicts);
    }
  }

  lemma SubjectIsUndecided(text: IpText, s: Sandbox, globals: seq<Rules>, admission: Admission, now: int, p: HostPattern)
    requires var d := DecideLayered(text.showIp, admission, Enforce, Layers(text, s.table, globals), s.session, now);
             d.Prompt? && !d.kind.Unresolved? && p in Subjects(text, d.kind, admission)
    ensures IsUndecidedName(text, s, globals, admission, now, p)
  {
    var layers := Layers(text, s.table, globals);
    PromptLists(text.showIp, admission, layers, s.session, now);
    var kind := DecideLayered(text.showIp, admission, Enforce, layers, s.session, now).kind;
    var candidates := NonEmpty(admission.candidates);
    var i: nat;
    if kind.Unknown? { i := UnknownName(text, admission, p); } else { i := ListedName(text, kind.verdicts, p); }
    assert candidates[i] in candidates;
    UndecidedIs(text, s, globals, admission, now, candidates[i]);
  }

  /** The rule is what the answer is about: the address, or the query name of a
      candidate that was left open. */
  ghost predicate IsAbout(text: IpText, s: Sandbox, globals: seq<Rules>, admission: Admission, now: int, p: HostPattern) {
    if AllEmpty(admission.candidates) then p == Address(ToCanonical(admission.address))
    else IsUndecidedName(text, s, globals, admission, now, p)
  }

  predicate IsIn(text: IpText, t: Table, list: RuleList, p: HostPattern) {
    HasRule(text, ValuesOf(t, list), p)
  }

  lemma AskedSubjects(text: IpText, globals: seq<Rules>, s: Sandbox, admission: Admission, outcome: Q.Outcome, now: int,
                      until: int)
    returns (subjects: seq<HostPattern>)
    requires AdmitFlow(text, globals, s, admission, outcome, now, until).asked
    ensures forall p :: p in subjects <==> IsAbout(text, s, globals, admission, now, p)
    ensures Faithful(text) ==> forall p :: p in subjects ==> Printable(text, p)
    ensures !s.limited
    ensures AdmitFlow(text, globals, s, admission, outcome, now, until).after
            == Applied(text, s.(limited := outcome.RateLimited?), subjects, outcome, until)
  {
    var layers := Layers(text, s.table, globals);
    PromptKinds(text.showIp, admission, s.mode, layers, s.session, now);
    var kind := DecideLayered(text.showIp, admission, s.mode, layers, s.session, now).kind;
    subjects := Subjects(text, kind, admission);
    forall p ensures p in subjects <==> IsAbout(text, s, globals, admission, now, p) {
      SubjectsIff(text, s, globals, admission, now, p);
    }
    if Faithful(text) { SubjectsArePrintable(text, kind, admission); }
  }

  /** What an admission that was asked about leaves behind: Allow and Deny move
      exactly the rules that the answer is about into their list and out of the
      other, unless the file cannot be edited; a Temp grants exactly their keys until
      it expires; and nothing else changes but a limit that tripped. */
  lemma AnswerIsWritten(text: IpText, globals: seq<Rules>, s: Sandbox, admission: Admission, outcome: Q.Outcome, now: int,
                        until: int, p: HostPattern, key: string, later: int)
    requires Faithful(text) && AdmitFlow(text, globals, s, admission, outcome, now, until).asked
    ensures var after := AdmitFlow(text, globals, s, admission, outcome, now, until).after;
            && after.mode == s.mode && after.limited == outcome.RateLimited?
            && (!outcome.Temp? ==> after.session == s.session)
            && ((!outcome.Allow? && !outcome.Deny?) || !Editable(s.table) ==> after.table == s.table)
            && ((outcome.Allow? || outcome.Deny?) && Editable(s.table) ==>
                  var list := if outcome.Allow? then AllowList else DenyList;
                  && (IsIn(text, after.table, list, p) <==>
                        IsIn(text, s.table, list, p) || IsAbout(text, s, globals, admission, now, p))
                  && (IsIn(text, after.table, list.Other(), p) <==>
                        IsIn(text, s.table, list.Other(), p) && !IsAbout(text, s, globals, admission, now, p)))
            && (outcome.Temp? ==>
                  (after.session.Allows(key, later) <==>
                     if exists q :: IsAbout(text, s, globals, admission, now, q) && IsGrantedAs(text, q, key) then later < until
                     else key in s.session.grants && later < s.session.grants[key]))
  {
    var subjects := AskedSubjects(text, globals, s, admission, outcome, now, until);
    if outcome.Allow? || outcome.Deny? {
      var list := if outcome.Allow? then AllowList else DenyList;
      if Editable(s.table) {
        SetAllMoves(text, s.table, list, subjects);
      } else {
        NothingIsSet(text, s.table, list, subjects);
      }
    } else if outcome.Temp? {
      GrantsIff(text, s.session, subjects, until, key, later);
      assert (exists q :: q in subjects && IsGrantedAs(text, q, key))
             <==> exists q :: IsAbout(text, s, globals, admission, now, q) && IsGrantedAs(text, q, key);
    }
  }

  /** The key that a rule is granted under. */
  predicate IsGrantedAs(text: IpText, p: HostPattern, key: string) {
    p == Exact(key) || (p.Address? && text.showIp(ToCanonical(p.address)) == key)
  }

  /** What a temporary allow grants: the exact names and the addresses among the
      subjects, until it expires, also where an older grant would last longer. All
      other grants stand. */
  lemma GrantsIff(text: IpText, session: Session, subjects: seq<HostPattern>, until: int, key: string, now: int)
    ensures GrantAll(text, session, subjects, until).Allows(key, now)
            <==> if exists p :: p in subjects && IsGrantedAs(text, p, key)
                 then now < until else key in session.grants && now < session.grants[key]
  {
    GrantAllGrants(text, session, subjects, until, key);
    forall p ensures SessionKey(text, p) == Some(key)
                     <==> IsGrantedAs(text, p, key)
    {
    }
  }

  /** A decision is marked ambiguous exactly when the flow has several candidates
      and they decided it. */
  lemma AmbiguousIff(text: IpText, admission: Admission, mode: Mode, layers: seq<Rules>, session: Session, now: int)
    requires !DecideLayered(text.showIp, admission, mode, layers, session, now).Prompt?
    ensures DecideLayered(text.showIp, admission, mode, layers, session, now).ambiguous
            <==> mode.Enforce? && IsOpenTo(admission) && |NonEmpty(admission.candidates)| > 1
  {
    OpenToIs(admission);
  }
}
