/** How decisions react to changed rules and candidates. */
module DecisionLaws {
  import opened Net
  import opened HostPatterns
  import opened Decision

  //--- monotonicity ------------------------------------------------------------------------------

  predicate Subset(small: seq<HostPattern>, large: seq<HostPattern>) {
    forall r :: r in small ==> r in large
  }

  /** Deny rules were added, at any positions of any layers. */
  predicate AddsDenies(layers: seq<Rules>, layers': seq<Rules>) {
    && |layers| == |layers'|
    && forall i :: 0 <= i < |layers| ==> layers'[i].allow == layers[i].allow && Subset(layers[i].deny, layers'[i].deny)
  }

  predicate AddsAllows(layers: seq<Rules>, layers': seq<Rules>) {
    && |layers| == |layers'|
    && forall i :: 0 <= i < |layers| ==> layers'[i].deny == layers[i].deny && Subset(layers[i].allow, layers'[i].allow)
  }

  lemma MoreRulesMatchMore(small: seq<HostPattern>, large: seq<HostPattern>, address: IpAddr, names: Chain)
    requires Subset(small, large)
    ensures FindMatch(small, address, names).Some? ==> FindMatch(large, address, names).Some?
  {
    FindMatchIs(small, address, names);
    FindMatchIs(large, address, names);
  }

  predicate Gives(v: Option<Verdict>, allow: bool) {
    v.Some? && v.value.allow == allow
  }

  lemma {:induction false} DeniesOnlyDeny(address: IpAddr, names: Chain, layers: seq<Rules>, layers': seq<Rules>, global: bool)
    requires AddsDenies(layers, layers')
    ensures var v, v' := RuleVerdict(address, names, layers, global), RuleVerdict(address, names, layers', global);
            (Gives(v', true) ==> Gives(v, true)) && (v'.None? ==> v.None?)
  {
    if layers != [] {
      MoreRulesMatchMore(layers[0].deny, layers'[0].deny, address, names);
      DeniesOnlyDeny(address, names, layers[1..], layers'[1..], true);
    }
  }

  lemma {:induction false} AllowsOnlyAllow(address: IpAddr, names: Chain, layers: seq<Rules>, layers': seq<Rules>, global: bool)
    requires AddsAllows(layers, layers')
    ensures var v, v' := RuleVerdict(address, names, layers, global), RuleVerdict(address, names, layers', global);
            Gives(v', false) ==> Gives(v, false)
  {
    if layers != [] {
      MoreRulesMatchMore(layers[0].allow, layers'[0].allow, address, names);
      AllowsOnlyAllow(address, names, layers[1..], layers'[1..], true);
    }
  }

  /** A decidable flow is allowed (denied) exactly when all its chain verdicts say so. */
  lemma DecidedByAll(show: IpAddr -> string, admission: Admission, mode: Mode, layers: seq<Rules>, session: Session,
                     now: int, allow: bool)
    requires Decidable(admission, mode)
    ensures var d := DecideLayered(show, admission, mode, layers, session, now);
            (if allow then d.Allow? else d.Deny?) <==>
              forall c :: c in admission.candidates && c != [] ==>
                Gives(ChainVerdict(ToCanonical(admission.address), c, layers, session, now), allow)
  {
    var address := ToCanonical(admission.address);
    var candidates := NonEmpty(admission.candidates);
    var verdicts := Verdicts(address, candidates, layers, session, now);
    forall c | c in admission.candidates && c != [] ensures exists i :: 0 <= i < |candidates| && candidates[i] == c {
      assert c in candidates;
    }
    assert candidates[0] in candidates;
  }

  /** Adding deny rules anywhere never creates an Allow. */
  lemma DenyRulesNeverAllow(show: IpAddr -> string, admission: Admission, mode: Mode, layers: seq<Rules>,
                            layers': seq<Rules>, session: Session, now: int)
    requires AddsDenies(layers, layers')
    requires DecideLayered(show, admission, mode, layers', session, now).Allow?
    ensures DecideLayered(show, admission, mode, layers, session, now).Allow?
  {
    var address := ToCanonical(admission.address);
    if Decidable(admission, mode) {
      forall c | c in admission.candidates && c != []
        ensures Gives(ChainVerdict(address, c, layers', session, now), true) ==>
                  Gives(ChainVerdict(address, c, layers, session, now), true)
      {
        DeniesOnlyDeny(address, c, layers, layers', false);
      }
      DecidedByAll(show, admission, mode, layers, session, now, true);
      DecidedByAll(show, admission, mode, layers', session, now, true);
    } else {
      DeniesOnlyDeny(address, [], layers, layers', false);
    }
  }

  /** Adding allow rules anywhere never creates a Deny. */
  lemma AllowRulesNeverDeny(show: IpAddr -> string, admission: Admission, mode: Mode, layers: seq<Rules>,
                            layers': seq<Rules>, session: Session, now: int)
    requires AddsAllows(layers, layers')
    requires DecideLayered(show, admission, mode, layers', session, now).Deny?
    ensures DecideLayered(show, admission, mode, layers, session, now).Deny?
  {
    var address := ToCanonical(admission.address);
    if Decidable(admission, mode) {
      forall c | c in admission.candidates && c != []
        ensures Gives(ChainVerdict(address, c, layers', session, now), false) ==>
                  Gives(ChainVerdict(address, c, layers, session, now), false)
      {
        AllowsOnlyAllow(address, c, layers, layers', false);
      }
      DecidedByAll(show, admission, mode, layers, session, now, false);
      DecidedByAll(show, admission, mode, layers', session, now, false);
    } else {
      AllowsOnlyAllow(address, [], layers, layers', false);
    }
  }

  /** More candidates for a flow that has some never turn another decision into
      Allow, nor into Deny. */
  lemma MoreCandidatesNeverDecide(show: IpAddr -> string, admission: Admission, more: Admission, mode: Mode,
                                  layers: seq<Rules>, session: Session, now: int)
    requires more == admission.(candidates := more.candidates)
    requires forall c :: c in admission.candidates ==> c in more.candidates
    requires exists c :: c in admission.candidates && c != []
    ensures var d := DecideLayered(show, admission, mode, layers, session, now);
            var d' := DecideLayered(show, more, mode, layers, session, now);
            (d'.Allow? ==> d.Allow?) && (d'.Deny? ==> d.Deny?)
  {
    var c :| c in admission.candidates && c != [];
    assert c in NonEmpty(admission.candidates) && c in NonEmpty(more.candidates);
    if Decidable(admission, mode) {
      DecidedByAll(show, admission, mode, layers, session, now, true);
      DecidedByAll(show, admission, mode, layers, session, now, false);
      DecidedByAll(show, more, mode, layers, session, now, true);
      DecidedByAll(show, more, mode, layers, session, now, false);
    }
  }

  //--- locality ----------------------------------------------------------------------------------

  /** The rule matches the address or some name the flow might go by. */
  predicate Concerns(rule: HostPattern, address: IpAddr, candidates: seq<Chain>) {
    MatchesAddress(rule, address) || exists c :: c in candidates && Matches(rule, address, c)
  }

  /** `fewer` is `rules` without some rules that do not concern the flow. */
  predicate DropsUnrelated(rules: seq<HostPattern>, fewer: seq<HostPattern>, address: IpAddr, candidates: seq<Chain>) {
    if rules == [] then fewer == []
    else
      || (!Concerns(rules[0], address, candidates) && DropsUnrelated(rules[1..], fewer, address, candidates))
      || (fewer != [] && fewer[0] == rules[0] && DropsUnrelated(rules[1..], fewer[1..], address, candidates))
  }

  predicate LayersDropUnrelated(layers: seq<Rules>, fewer: seq<Rules>, address: IpAddr, candidates: seq<Chain>) {
    && |layers| == |fewer|
    && forall i :: 0 <= i < |layers| ==>
         && DropsUnrelated(layers[i].allow, fewer[i].allow, address, candidates)
         && DropsUnrelated(layers[i].deny, fewer[i].deny, address, candidates)
  }

  lemma {:induction false} SameFirstMatch(rules: seq<HostPattern>, fewer: seq<HostPattern>, address: IpAddr,
                                          candidates: seq<Chain>, names: Chain)
    requires DropsUnrelated(rules, fewer, address, candidates)
    requires names in candidates || names == []
    ensures FindMatch(fewer, address, names) == FindMatch(rules, address, names)
  {
    if rules != [] {
      if !Concerns(rules[0], address, candidates) && DropsUnrelated(rules[1..], fewer, address, candidates) {
        SameFirstMatch(rules[1..], fewer, address, candidates, names);
      } else {
        SameFirstMatch(rules[1..], fewer[1..], address, candidates, names);
      }
    }
  }

  lemma {:induction false} SameRuleVerdict(layers: seq<Rules>, fewer: seq<Rules>, address: IpAddr,
                                           candidates: seq<Chain>, names: Chain, global: bool)
    requires LayersDropUnrelated(layers, fewer, address, candidates)
    requires names in candidates || names == []
    ensures RuleVerdict(address, names, fewer, global) == RuleVerdict(address, names, layers, global)
  {
    if layers != [] {
      SameFirstMatch(layers[0].deny, fewer[0].deny, address, candidates, names);
      SameFirstMatch(layers[0].allow, fewer[0].allow, address, candidates, names);
      SameRuleVerdict(layers[1..], fewer[1..], address, candidates, names, true);
    }
  }

  /** Deleting rules that match neither the address nor a candidate name leaves
      the whole decision unchanged, its reason and its prompt included. */
  lemma UnrelatedRulesDoNotMatter(show: IpAddr -> string, admission: Admission, mode: Mode, layers: seq<Rules>,
                                  fewer: seq<Rules>, session: Session, now: int)
    requires LayersDropUnrelated(layers, fewer, ToCanonical(admission.address), admission.candidates)
    ensures DecideLayered(show, admission, mode, fewer, session, now)
            == DecideLayered(show, admission, mode, layers, session, now)
  {
    var address := ToCanonical(admission.address);
    var candidates := NonEmpty(admission.candidates);
    SameRuleVerdict(layers, fewer, address, admission.candidates, [], false);
    forall i | 0 <= i < |candidates|
      ensures ChainVerdict(address, candidates[i], fewer, session, now)
              == ChainVerdict(address, candidates[i], layers, session, now)
    {
      assert candidates[i] in candidates;
      SameRuleVerdict(layers, fewer, address, admission.candidates, candidates[i], false);
    }
    assert Verdicts(address, candidates, fewer, session, now) == Verdicts(address, candidates, layers, session, now);
  }

  //--- reasons -----------------------------------------------------------------------------------

  /** Rule `k` is the first of the list that matches. */
  ghost predicate IsFirstMatch(rules: seq<HostPattern>, k: nat, address: IpAddr, names: Chain) {
    && k < |rules| && Matches(rules[k], address, names)
    && forall j :: 0 <= j < k ==> !Matches(rules[j], address, names)
  }

  ghost predicate FirstMatchIs(rules: seq<HostPattern>, rule: HostPattern, address: IpAddr, names: Chain) {
    exists k: nat :: IsFirstMatch(rules, k, address, names) && rules[k] == rule
  }

  /** A search through a list finds its first match. */
  lemma {:induction false} FindsFirst(rules: seq<HostPattern>, address: IpAddr, names: Chain)
    requires FindMatch(rules, address, names).Some?
    ensures FirstMatchIs(rules, FindMatch(rules, address, names).value, address, names)
  {
    if Matches(rules[0], address, names) {
      assert IsFirstMatch(rules, 0, address, names);
    } else {
      FindsFirst(rules[1..], address, names);
      var k: nat :| IsFirstMatch(rules[1..], k, address, names)
                    && rules[1..][k] == FindMatch(rules[1..], address, names).value;
      assert forall j :: 1 <= j < k + 1 ==> rules[j] == rules[1..][j - 1];
      assert IsFirstMatch(rules, k + 1, address, names);
    }
  }

  /** The verdict cites the first rule that matches in the deny or the allow list
      of layer `i`, which is the first that says anything; it is a global rule
      unless the layer is the kitchen's. */
  ghost predicate CitedAt(v: Verdict, layers: seq<Rules>, i: nat, global: bool, address: IpAddr, names: Chain) {
    && FirstSays(layers, i, address, names, v.allow)
    && match v.reason
       case DenyRule(rule, g) =>
         !v.allow && FirstMatchIs(layers[i].deny, rule, address, names) && (g <==> global || i > 0)
       case AllowRule(rule, g) =>
         v.allow && FirstMatchIs(layers[i].allow, rule, address, names) && (g <==> global || i > 0)
       case _ => false
  }

  lemma {:induction false} RuleIsCited(address: IpAddr, names: Chain, layers: seq<Rules>, global: bool) returns (i: nat)
    requires RuleVerdict(address, names, layers, global).Some?
    ensures CitedAt(RuleVerdict(address, names, layers, global).value, layers, i, global, address, names)
  {
    FindMatchIs(layers[0].deny, address, names);
    FindMatchIs(layers[0].allow, address, names);
    if FindMatch(layers[0].deny, address, names).Some? {
      FindsFirst(layers[0].deny, address, names);
      i := 0;
    } else if FindMatch(layers[0].allow, address, names).Some? {
      FindsFirst(layers[0].allow, address, names);
      i := 0;
    } else {
      i := RuleIsCited(address, names, layers[1..], true);
      FirstSaysShifts(layers, i, address, names, RuleVerdict(address, names, layers, global).value.allow);
      i := i + 1;
    }
  }

  ghost predicate IsFirstNamed(candidates: seq<Chain>, k: nat) {
    k < |candidates| && candidates[k] != [] && forall j :: 0 <= j < k ==> candidates[j] == []
  }

  /** The first candidate that names something, if there is one. */
  ghost predicate IsFirstCandidate(candidates: seq<Chain>, names: Chain) {
    if NonEmpty(candidates) == [] then names == []
    else exists k: nat :: IsFirstNamed(candidates, k) && candidates[k] == names
  }

  lemma {:induction false} FirstNamed(candidates: seq<Chain>) returns (k: nat)
    requires NonEmpty(candidates) != []
    ensures IsFirstNamed(candidates, k) && candidates[k] == NonEmpty(candidates)[0]
  {
    if candidates[0] != [] {
      k := 0;
    } else {
      k := FirstNamed(candidates[1..]);
      assert forall j :: 1 <= j < k + 1 ==> candidates[j] == candidates[1..][j - 1];
      k := k + 1;
    }
  }

  /** What a decision's reason vouches for. */
  ghost predicate Vouches(show: IpAddr -> string, admission: Admission, mode: Mode, layers: seq<Rules>, session: Session,
                          now: int, allow: bool, reason: Reason) {
    var address := ToCanonical(admission.address);
    match reason
    case MalformedRequest => !allow && admission.malformed
    case HardDeny => !allow && IsHardDenied(address)
    case OpenMode => allow && mode.Open?
    case SessionGrant =>
      allow && (session.Allows(show(address), now) || exists c :: c in admission.candidates && SessionAllows(session, c, now))
    case _ =>
      exists names, i: nat :: IsFirstCandidate(admission.candidates, names)
        && CitedAt(Verdict(allow, reason), layers, i, false, address, names)
  }

  /** Every decision's reason is true of the flow: a rule it names is the first
      match of the first layer that says anything about the first candidate. */
  lemma ReasonsAreHonest(show: IpAddr -> string, admission: Admission, mode: Mode, layers: seq<Rules>, session: Session,
                         now: int)
    ensures var d := DecideLayered(show, admission, mode, layers, session, now);
            !d.Prompt? ==> Vouches(show, admission, mode, layers, session, now, d.Allow?, d.reason)
  {
    var address := ToCanonical(admission.address);
    var candidates := NonEmpty(admission.candidates);
    if !admission.malformed && !IsHardDenied(address) && mode.Enforce? {
      var names := if candidates == [] then [] else candidates[0];
      assert candidates != [] ==> names in candidates;
      if candidates != [] { var k := FirstNamed(admission.candidates); }
      if RuleVerdict(address, names, layers, false).Some? {
        var i := RuleIsCited(address, names, layers, false);
        assert CitedAt(RuleVerdict(address, names, layers, false).value, layers, i, false, address, names);
      }
    }
  }
}
