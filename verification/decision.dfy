/** The decision engine: layered rules, several candidate names per address. */
module Decision {
  import opened Net
  import opened HostPatterns

  /** What one lookup calls an address. Only the first name was asked for; the
      others are aliases. */
  type Chain = seq<string>

  datatype Mode = Open | Enforce

  datatype Admission = Admission(address: IpAddr, port: u16, candidates: seq<Chain>, malformed: bool)

  datatype Rules = Rules(allow: seq<HostPattern>, deny: seq<HostPattern>)

  /** Temporary allows: until when each name or address may pass. */
  datatype Session = Session(grants: map<string, int>) {
    function Grant(key: string, until: int): Session {
      Session(grants[key := until])
    }

    predicate Allows(key: string, now: int) {
      key in grants && grants[key] > now
    }
  }

  datatype Reason =
    | MalformedRequest
    | HardDeny
    | OpenMode
    | DenyRule(rule: HostPattern, global: bool)
    | AllowRule(rule: HostPattern, global: bool)
    | SessionGrant

  datatype PromptKind =
    | Unresolved
    | Unknown
    | Disagreement(verdicts: seq<(string, Option<bool>)>)

  datatype Decision =
    | Allow(reason: Reason, ambiguous: bool)
    | Deny(reason: Reason, ambiguous: bool)
    | Prompt(kind: PromptKind)

  /** Addresses that no rule and no mode can open. */
  predicate IsHardDenied(address: IpAddr) {
    var a := ToCanonical(address);
    var o := a.octets;
    if a.V4? then
      || (o[0] == 169 && o[1] == 254)
      || 224 <= o[0] < 240
      || o == [0, 0, 0, 0]
      || o == [255, 255, 255, 255]
    else
      || o[0] == 0xff
      || o == ZEROS_10 + [0, 0, 0, 0, 0, 0]
      || (o[0] == 0xfe && o[1] / 64 == 2)
      || o == [0xfd, 0, 0x0e, 0xc2, 0, 0, 0, 0, 0, 0, 0, 0, 0, 0, 2, 0x54]
  }

  /** One name of the chain is enough, and so is the address alone. */
  predicate Matches(rule: HostPattern, address: IpAddr, names: Chain) {
    MatchesAddress(rule, address) || exists n :: n in names && MatchesName(rule, n)
  }

  function FindMatch(rules: seq<HostPattern>, address: IpAddr, names: Chain): (r: Option<HostPattern>)
    ensures r.Some? <==> exists i :: 0 <= i < |rules| && Matches(rules[i], address, names)
    ensures r.Some? ==> r.value in rules && Matches(r.value, address, names)
  {
    if rules == [] then None
    else if Matches(rules[0], address, names) then Some(rules[0])
    else
      var rest := FindMatch(rules[1..], address, names);
      assert rest.None? ==> forall i :: 1 <= i < |rules| ==> rules[i] == rules[1..][i - 1];
      rest
  }

  datatype Verdict = Verdict(allow: bool, reason: Reason)

  /** `global` says whether `layers[0]` is a global layer: only the first layer
      of a walk is the kitchen file's. */
  function RuleVerdict(address: IpAddr, names: Chain, layers: seq<Rules>, global: bool): Option<Verdict> {
    if layers == [] then None
    else
      var denied := FindMatch(layers[0].deny, address, names);
      var allowed := FindMatch(layers[0].allow, address, names);
      if denied.Some? then Some(Verdict(false, DenyRule(denied.value, global)))
      else if allowed.Some? then Some(Verdict(true, AllowRule(allowed.value, global)))
      else RuleVerdict(address, names, layers[1..], true)
  }

  predicate SessionAllows(session: Session, names: Chain, now: int) {
    exists n :: n in names && session.Allows(n, now)
  }

  /** The stored verdict of one candidate: its rules, or else the session. */
  function ChainVerdict(address: IpAddr, chain: Chain, layers: seq<Rules>, session: Session, now: int): Option<Verdict> {
    var verdict := RuleVerdict(address, chain, layers, false);
    if verdict.Some? then verdict
    else if SessionAllows(session, chain, now) then Some(Verdict(true, SessionGrant))
    else None
  }

  /** The candidates that name something. */
  function NonEmpty(chains: seq<Chain>): (r: seq<Chain>)
    ensures forall c :: c in r <==> c in chains && c != []
    ensures forall i :: 0 <= i < |r| ==> r[i] != []
  {
    if chains == [] then []
    else (if chains[0] != [] then [chains[0]] else []) + NonEmpty(chains[1..])
  }

  function Final(allow: bool, reason: Reason, ambiguous: bool): Decision {
    if allow then Allow(reason, ambiguous) else Deny(reason, ambiguous)
  }

  /** `show` prints an address the way session grants are keyed. */
  function DecideLayered(show: IpAddr -> string, admission: Admission, mode: Mode, layers: seq<Rules>,
                         session: Session, now: int): Decision {
    if admission.malformed then Deny(MalformedRequest, false)
    else
      var address := ToCanonical(admission.address);
      if IsHardDenied(address) then Deny(HardDeny, false)
      else if mode.Open? then Allow(OpenMode, false)
      else
        var candidates := NonEmpty(admission.candidates);
        if candidates == [] then
          var verdict := RuleVerdict(address, [], layers, false);
          if verdict.Some? then Final(verdict.value.allow, verdict.value.reason, false)
          else if session.Allows(show(address), now) then Allow(SessionGrant, false)
          else Prompt(Unresolved)
        else
          DecideCandidates(Verdicts(address, candidates, layers, session, now), candidates)
  }

  function Verdicts(address: IpAddr, candidates: seq<Chain>, layers: seq<Rules>, session: Session, now: int)
    : (r: seq<Option<Verdict>>)
    ensures |r| == |candidates|
    ensures forall i :: 0 <= i < |r| ==> r[i] == ChainVerdict(address, candidates[i], layers, session, now)
  {
    seq(|candidates|, i requires 0 <= i < |candidates| =>
      ChainVerdict(address, candidates[i], layers, session, now))
  }

  predicate AllSay(verdicts: seq<Option<Verdict>>, allow: bool) {
    forall i :: 0 <= i < |verdicts| ==> verdicts[i].Some? && verdicts[i].value.allow == allow
  }

  function DecideCandidates(verdicts: seq<Option<Verdict>>, candidates: seq<Chain>): Decision
    requires |verdicts| == |candidates| > 0
    requires forall i :: 0 <= i < |candidates| ==> candidates[i] != []
  {
    var first := verdicts[0];
    if first.Some? && AllSay(verdicts, first.value.allow) then
      Final(first.value.allow, first.value.reason, |verdicts| > 1)
    else if forall i :: 0 <= i < |verdicts| ==> verdicts[i].None? then Prompt(Unknown)
    else
      Prompt(Disagreement(seq(|verdicts|, i requires 0 <= i < |verdicts| =>
        (candidates[i][0], if verdicts[i].Some? then Some(verdicts[i].value.allow) else None))))
  }

  //--- unanimity ---------------------------------------------------------------------------------

  /** The flow is decided by its candidates' stored verdicts. */
  predicate Decidable(admission: Admission, mode: Mode) {
    && !admission.malformed && mode.Enforce?
    && !IsHardDenied(ToCanonical(admission.address))
    && NonEmpty(admission.candidates) != []
  }

  /** What a chain's first matching layer says about it, deny before allow; the
      reference that ignores reasons and positions. */
  ghost predicate LayerSays(layer: Rules, address: IpAddr, names: Chain, allow: bool) {
    var denied := exists r :: r in layer.deny && Matches(r, address, names);
    var allowed := exists r :: r in layer.allow && Matches(r, address, names);
    if allow then allowed && !denied else denied
  }

  ghost predicate LayerSilent(layer: Rules, address: IpAddr, names: Chain) {
    !LayerSays(layer, address, names, true) && !LayerSays(layer, address, names, false)
  }

  /** Layer `i` is the first that says anything, and it says `allow`. */
  ghost predicate FirstSays(layers: seq<Rules>, i: nat, address: IpAddr, names: Chain, allow: bool) {
    && i < |layers|
    && LayerSays(layers[i], address, names, allow)
    && forall j :: 0 <= j < i ==> LayerSilent(layers[j], address, names)
  }

  ghost predicate Says(layers: seq<Rules>, session: Session, now: int, address: IpAddr, chain: Chain, allow: bool) {
    || (exists i: nat :: FirstSays(layers, i, address, chain, allow))
    || (allow && (forall j :: 0 <= j < |layers| ==> LayerSilent(layers[j], address, chain))
        && SessionAllows(session, chain, now))
  }

  lemma FindMatchIs(rules: seq<HostPattern>, address: IpAddr, names: Chain)
    ensures FindMatch(rules, address, names).Some? <==> exists r :: r in rules && Matches(r, address, names)
  {
    if r :| r in rules && Matches(r, address, names) {
      var i :| 0 <= i < |rules| && rules[i] == r;
      assert Matches(rules[i], address, names);
    }
  }

  lemma FirstSaysShifts(layers: seq<Rules>, i: nat, address: IpAddr, names: Chain, allow: bool)
    requires layers != [] && LayerSilent(layers[0], address, names)
    ensures FirstSays(layers[1..], i, address, names, allow) <==> FirstSays(layers, i + 1, address, names, allow)
  {
    var rest := layers[1..];
    assert forall j :: 0 <= j < |rest| ==> rest[j] == layers[j + 1];
    if FirstSays(rest, i, address, names, allow) {
      forall j | 0 <= j < i + 1 ensures LayerSilent(layers[j], address, names) {
        if j > 0 { assert LayerSilent(rest[j - 1], address, names); }
      }
    }
    if FirstSays(layers, i + 1, address, names, allow) {
      forall j | 0 <= j < i ensures LayerSilent(rest[j], address, names) {
        assert LayerSilent(layers[j + 1], address, names);
      }
    }
  }

  /** The recursion over layers finds the first layer that says anything. */
  lemma {:induction false} RuleVerdictIs(address: IpAddr, names: Chain, layers: seq<Rules>, global: bool, allow: bool)
    ensures var v := RuleVerdict(address, names, layers, global);
            v.Some? && v.value.allow == allow <==> exists i: nat :: FirstSays(layers, i, address, names, allow)
  {
    if layers != [] {
      RuleVerdictIs(address, names, layers[1..], true, allow);
      FindMatchIs(layers[0].deny, address, names);
      FindMatchIs(layers[0].allow, address, names);
      if LayerSilent(layers[0], address, names) {
        if i: nat :| FirstSays(layers[1..], i, address, names, allow) {
          FirstSaysShifts(layers, i, address, names, allow);
        }
        if i: nat :| FirstSays(layers, i, address, names, allow) {
          FirstSaysShifts(layers, i - 1, address, names, allow);
        }
      } else if LayerSays(layers[0], address, names, allow) {
        assert FirstSays(layers, 0, address, names, allow);
      }
    }
  }

  lemma {:induction false} NoVerdictIs(address: IpAddr, names: Chain, layers: seq<Rules>, global: bool)
    ensures RuleVerdict(address, names, layers, global).None? <==>
              forall j :: 0 <= j < |layers| ==> LayerSilent(layers[j], address, names)
  {
    if layers != [] {
      var rest := layers[1..];
      NoVerdictIs(address, names, rest, true);
      FindMatchIs(layers[0].deny, address, names);
      FindMatchIs(layers[0].allow, address, names);
      assert forall j :: 0 <= j < |rest| ==> rest[j] == layers[j + 1];
      if LayerSilent(layers[0], address, names) && RuleVerdict(address, names, rest, true).None? {
        forall j | 0 <= j < |layers| ensures LayerSilent(layers[j], address, names) {
          if j > 0 { assert LayerSilent(rest[j - 1], address, names); }
        }
      }
    }
  }

  /** Outside hard denies and with candidates, a flow is allowed (denied)
      exactly when every candidate's first speaking layer, or else the session,
      says so. */
  lemma DecisionIsUnanimous(show: IpAddr -> string, admission: Admission, mode: Mode, layers: seq<Rules>,
                            session: Session, now: int, allow: bool)
    requires Decidable(admission, mode)
    ensures var d := DecideLayered(show, admission, mode, layers, session, now);
            (if allow then d.Allow? else d.Deny?) <==>
              forall c :: c in admission.candidates && c != [] ==>
                Says(layers, session, now, ToCanonical(admission.address), c, allow)
  {
    var address := ToCanonical(admission.address);
    var candidates := NonEmpty(admission.candidates);
    var verdicts := Verdicts(address, candidates, layers, session, now);
    forall i | 0 <= i < |candidates|
      ensures verdicts[i].Some? && verdicts[i].value.allow == allow <==>
                Says(layers, session, now, address, candidates[i], allow)
    {
      RuleVerdictIs(address, candidates[i], layers, false, allow);
      NoVerdictIs(address, candidates[i], layers, false);
    }
    forall c | c in admission.candidates && c != []
      ensures exists i :: 0 <= i < |candidates| && candidates[i] == c
    {
      assert c in candidates;
    }
  }
}
