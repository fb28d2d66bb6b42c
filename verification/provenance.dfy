/** Where the names of a flow come from: DNS responses teach the binding store,
    the store names the flow's address, and rules match the names. */
module Provenance {
  import opened Net
  import opened HostPatterns
  import opened Decision
  import opened DecisionLaws
  import opened BindingLog
  import opened Bindings
  import opened Registry
  import O = Observer
  import Q = ApprovalQueue

  /** What a sandbox's binding store goes through: responses that pass, and
      flows that come without a name. */
  datatype Event =
    | Answer(response: Option<O.Message>, now: int)
    | Arrival(address: IpAddr, now: int)

  function QueryOf(m: O.Message): Option<string> {
    if m.queries == [] then None else O.Normalize(m.queries[0])
  }

  ghost function LearnedOf(response: Option<O.Message>): seq<O.Learned> {
    if response.None? then []
    else O.AllLearned(response.value.answers, QueryOf(response.value), O.ChainOf(QueryOf(response.value), response.value.answers))
  }

  function RecordsOf(learned: seq<O.Learned>, now: int): (ops: seq<Op>)
    ensures |ops| == |learned|
  {
    seq(|learned|, i requires 0 <= i < |learned| =>
      Op.Record(learned[i].address, learned[i].names, learned[i].ttl, now))
  }

  ghost function OpsOf(e: Event): seq<Op> {
    match e
    case Answer(response, now) => RecordsOf(LearnedOf(response), now)
    case Arrival(address, now) => [Op.Lookup(address, now)]
  }

  ghost function LogOf(history: seq<Event>): seq<Op> {
    if history == [] then [] else LogOf(history[..|history| - 1]) + OpsOf(history[|history| - 1])
  }

  //--- the store ---------------------------------------------------------------------------------

  lemma OneMoreRecord(learned: seq<O.Learned>, n: nat, now: int)
    requires n < |learned|
    ensures RecordsOf(learned[..n + 1], now)
            == RecordsOf(learned[..n], now) + [Op.Record(learned[n].address, learned[n].names, learned[n].ttl, now)]
  {
  }

  /** `record_dns`. */
  method RecordDns(bindings: BindingStore, response: Option<O.Message>, now: int)
    requires bindings.Valid()
    modifies bindings
    ensures bindings.Valid() && bindings.log == old(bindings.log) + OpsOf(Answer(response, now))
  {
    var learned := O.ExtractBindings(response);
    assert learned == LearnedOf(response);
    RecordAll(bindings, learned, now);
  }

  method RecordAll(bindings: BindingStore, learned: seq<O.Learned>, now: int)
    requires bindings.Valid()
    modifies bindings
    ensures bindings.Valid() && bindings.log == old(bindings.log) + RecordsOf(learned, now)
  {
    for i := 0 to |learned|
      invariant bindings.Valid()
      invariant bindings.log == old(bindings.log) + RecordsOf(learned[..i], now)
    {
      OneMoreRecord(learned, i, now);
      ghost var evicted := bindings.Record(learned[i].address, learned[i].names, learned[i].ttl, now);
    }
    assert learned[..|learned|] == learned;
  }

  /** The candidates of a flow: its claimed name, or what the store returns. */
  method Candidates(bindings: BindingStore, address: IpAddr, claimed: Option<string>, now: int)
    returns (known: seq<Chain>)
    requires bindings.Valid()
    modifies bindings
    ensures bindings.Valid()
    ensures claimed.Some? ==> known == [[claimed.value]] && bindings.log == old(bindings.log)
    ensures claimed.None? ==>
              && bindings.log == old(bindings.log) + OpsOf(Arrival(address, now))
              && FoundAsFull(old(bindings.log), old(bindings.lost), address, now, known)
  {
    if claimed.Some? {
      known := [[claimed.value]];
    } else {
      known := bindings.Lookup(address, now);
    }
  }

  /** One admission with its lookup: `known` is what the store gave, and the
      claimed name comes before it. */
  method Admit(broker: Broker, entry: SandboxEntry, bindings: BindingStore, globals: seq<Rules>, address: IpAddr, port: u16,
               claimed: Option<string>, outcome: Q.Outcome, now: int, answered: int)
    returns (allowed: bool, ghost known: seq<Chain>)
    requires bindings.Valid()
    modifies bindings, entry`session, entry`limited, entry.rules, broker`notices
    ensures bindings.Valid()
    ensures claimed.Some? ==> bindings.log == old(bindings.log)
    ensures claimed.None? ==>
              && bindings.log == old(bindings.log) + OpsOf(Arrival(ToCanonical(address), now))
              && FoundAsFull(old(bindings.log), old(bindings.lost), ToCanonical(address), now, known)
    ensures var candidates := match claimed case Some(name) => [[name]] case None => known;
            var admission := Admission(ToCanonical(address), port, candidates, false);
            var r := AdmitFlow(broker.text, globals, old(entry.Contents()), admission, outcome, now,
                               answered + broker.tempAllow);
            && allowed == r.allowed && entry.Contents() == r.after
            && broker.notices == if old(entry.limited) == r.after.limited then old(broker.notices)
                                 else old(broker.notices) + [entry.name]
  {
    var candidates := Candidates(bindings, ToCanonical(address), claimed, now);
    known := candidates;
    allowed := broker.Admit(entry, globals, address, port, claimed, candidates, outcome, now, answered);
  }

  //--- where a name comes from -------------------------------------------------------------------

  /** Some record of the message binds the chain to the address. */
  ghost predicate Taught(m: O.Message, a: IpAddr, chain: Chain) {
    exists i, l: O.Learned :: 0 <= i < |m.answers|
      && O.Teaches(m.answers[i], QueryOf(m), O.ChainOf(QueryOf(m), m.answers), l)
      && ToCanonical(l.address) == a && l.names == chain
  }

  /** The response binds the chain to the address. */
  ghost predicate Answers(e: Event, a: IpAddr, chain: Chain) {
    e.Answer? && e.response.Some? && Taught(e.response.value, a, chain)
  }

  /** The sandbox got such a response. */
  ghost predicate EverTaught(history: seq<Event>, a: IpAddr, chain: Chain) {
    exists e :: e in history && Answers(e, a, chain)
  }

  predicate BindsIn(ops: seq<Op>, a: IpAddr, chain: Chain) {
    exists i :: 0 <= i < |ops| && Binds(ops[i], a, chain)
  }

  lemma ResponseBinds(m: O.Message, now: int, a: IpAddr, chain: Chain)
    ensures BindsIn(OpsOf(Answer(Some(m), now)), a, chain) <==> Taught(m, a, chain)
  {
    var learned := LearnedOf(Some(m));
    var ops := RecordsOf(learned, now);
    if i :| 0 <= i < |ops| && Binds(ops[i], a, chain) {
      O.LearnsExactly(m.answers, QueryOf(m), O.ChainOf(QueryOf(m), m.answers), learned[i]);
    }
    if Taught(m, a, chain) {
      var i, l: O.Learned :| 0 <= i < |m.answers|
        && O.Teaches(m.answers[i], QueryOf(m), O.ChainOf(QueryOf(m), m.answers), l)
        && ToCanonical(l.address) == a && l.names == chain;
      O.LearnsExactly(m.answers, QueryOf(m), O.ChainOf(QueryOf(m), m.answers), l);
      assert l in learned;
      var j :| 0 <= j < |learned| && learned[j] == l;
      assert Binds(ops[j], a, chain);
    }
  }

  lemma EventBinds(e: Event, a: IpAddr, chain: Chain)
    ensures BindsIn(OpsOf(e), a, chain) <==> Answers(e, a, chain)
  {
    if e.Answer? && e.response.Some? {
      ResponseBinds(e.response.value, e.now, a, chain);
    }
  }

  lemma BindsInEither(ops: seq<Op>, more: seq<Op>, a: IpAddr, chain: Chain)
    ensures BindsIn(ops + more, a, chain) <==> BindsIn(ops, a, chain) || BindsIn(more, a, chain)
  {
    var all := ops + more;
    if i :| 0 <= i < |all| && Binds(all[i], a, chain) {
      assert i < |ops| ==> Binds(ops[i], a, chain);
      assert i >= |ops| ==> Binds(more[i - |ops|], a, chain);
    }
    if i :| 0 <= i < |ops| && Binds(ops[i], a, chain) { assert Binds(all[i], a, chain); }
    if i :| 0 <= i < |more| && Binds(more[i], a, chain) { assert Binds(all[|ops| + i], a, chain); }
  }

  lemma TaughtOnceMore(history: seq<Event>, e: Event, a: IpAddr, chain: Chain)
    ensures EverTaught(history + [e], a, chain) <==> EverTaught(history, a, chain) || Answers(e, a, chain)
  {
    assert forall d :: d in history + [e] <==> d in history || d == e;
  }

  /** The store was told to bind a chain exactly when a response taught it. */
  lemma {:induction false} RecordedIffTaught(history: seq<Event>, a: IpAddr, chain: Chain)
    ensures BindsIn(LogOf(history), a, chain) <==> EverTaught(history, a, chain)
  {
    if history != [] {
      var n := |history| - 1;
      RecordedIffTaught(history[..n], a, chain);
      EventBinds(history[n], a, chain);
      BindsInEither(LogOf(history[..n]), OpsOf(history[n]), a, chain);
      TaughtOnceMore(history[..n], history[n], a, chain);
      assert history == history[..n] + [history[n]];
    }
  }

  /** The response came at `now` and teaches just this. */
  ghost predicate TeachesAt(e: Event, now: int, l: O.Learned) {
    && e.Answer? && e.response.Some? && e.now == now
    && exists i :: 0 <= i < |e.response.value.answers|
         && O.Teaches(e.response.value.answers[i], QueryOf(e.response.value),
                      O.ChainOf(QueryOf(e.response.value), e.response.value.answers), l)
  }

  /** What an operation on the store comes from. */
  ghost predicate ComesFrom(e: Event, op: Op) {
    match op
    case Record(address, chain, ttl, now) => TeachesAt(e, now, O.Learned(address, chain, ttl))
    case Lookup(address, now) => e == Arrival(address, now)
  }

  lemma EventOps(e: Event, op: Op)
    ensures op in OpsOf(e) <==> ComesFrom(e, op)
  {
    if e.Answer? && e.response.Some? && op.Record? {
      var m := e.response.value;
      var learned, l := LearnedOf(e.response), O.Learned(op.address, op.chain, op.ttl);
      O.LearnsExactly(m.answers, QueryOf(m), O.ChainOf(QueryOf(m), m.answers), l);
      if op in OpsOf(e) {
        var i :| 0 <= i < |OpsOf(e)| && OpsOf(e)[i] == op;
        assert learned[i] == l;
      }
      if l in learned {
        var i :| 0 <= i < |learned| && learned[i] == l;
        assert RecordsOf(learned, e.now)[i] == Op.Record(l.address, l.names, l.ttl, e.now);
      }
    }
  }

  ghost predicate ComesFromSome(history: seq<Event>, op: Op) {
    exists e :: e in history && ComesFrom(e, op)
  }

  lemma ComesFromOneMore(history: seq<Event>, e: Event, op: Op)
    ensures ComesFromSome(history + [e], op) <==> ComesFromSome(history, op) || ComesFrom(e, op)
  {
    assert forall d :: d in history + [e] <==> d in history || d == e;
  }

  /** The store's history holds exactly the lookups of arriving flows, and records
      of what responses taught, each with the names, the time to live and the time
      of a response that taught it. */
  lemma {:induction false} HistoryIsExact(history: seq<Event>, op: Op)
    ensures op in LogOf(history) <==> ComesFromSome(history, op)
  {
    if history != [] {
      var n := |history| - 1;
      HistoryIsExact(history[..n], op);
      EventOps(history[n], op);
      assert history == history[..n] + [history[n]];
      ComesFromOneMore(history[..n], history[n], op);
    }
  }

  /** The flow came with the name, or a response to the sandbox bound it to the
      flow's address. */
  ghost predicate Named(history: seq<Event>, address: IpAddr, claimed: Option<string>, n: string) {
    if claimed.Some? then n == claimed.value
    else exists chain: Chain :: n in chain && EverTaught(history, ToCanonical(address), chain)
  }

  lemma CandidateIsNamed(history: seq<Event>, lost: set<IpAddr>, address: IpAddr, port: u16, claimed: Option<string>,
                         known: seq<Chain>, now: int, chain: Chain, n: string)
    requires claimed.None? ==> FoundAsFull(LogOf(history), lost, address, now, known)
    requires chain in AdmissionOf(address, port, claimed, known).candidates && n in chain
    ensures Named(history, address, claimed, n)
  {
    if claimed.None? {
      assert WasRecorded(LogOf(history), ToCanonical(address), chain);
      RecordedIffTaught(history, ToCanonical(address), chain);
      assert BindsIn(LogOf(history), ToCanonical(address), chain);
    }
  }

  predicate IsNameRule(rule: HostPattern) {
    !rule.Address? && !rule.Network?
  }

  ghost predicate MatchesANameOf(history: seq<Event>, address: IpAddr, claimed: Option<string>, rule: HostPattern) {
    exists n :: MatchesName(rule, n) && Named(history, address, claimed, n)
  }

  ghost predicate GrantedANameOf(history: seq<Event>, address: IpAddr, claimed: Option<string>, session: Session, now: int) {
    exists n :: session.Allows(n, now) && Named(history, address, claimed, n)
  }

  lemma CitedNameIsNamed(history: seq<Event>, lost: set<IpAddr>, address: IpAddr, port: u16, claimed: Option<string>,
                         known: seq<Chain>, now: int, names: Chain, rule: HostPattern)
    requires claimed.None? ==> FoundAsFull(LogOf(history), lost, address, now, known)
    requires names == [] || names in AdmissionOf(address, port, claimed, known).candidates
    requires IsNameRule(rule) && Matches(rule, ToCanonical(address), names)
    ensures MatchesANameOf(history, address, claimed, rule)
  {
    var n :| n in names && MatchesName(rule, n);
    CandidateIsNamed(history, lost, address, port, claimed, known, now, names, n);
  }

  /** A name rule decides a flow only through a name that the flow claimed or
      that a response to this sandbox bound to its address; and so does a grant,
      unless it is for the address itself. */
  lemma NamesComeFromResponses(show: IpAddr -> string, history: seq<Event>, lost: set<IpAddr>, address: IpAddr, port: u16,
                               claimed: Option<string>, known: seq<Chain>, mode: Mode, layers: seq<Rules>,
                               session: Session, now: int)
    requires claimed.None? ==> FoundAsFull(LogOf(history), lost, address, now, known)
    ensures var d := DecideLayered(show, AdmissionOf(address, port, claimed, known), mode, layers, session, now);
            && (!d.Prompt? && (d.reason.AllowRule? || d.reason.DenyRule?) && IsNameRule(d.reason.rule) ==>
                  MatchesANameOf(history, address, claimed, d.reason.rule))
            && (!d.Prompt? && d.reason.SessionGrant? ==>
                  session.Allows(show(ToCanonical(address)), now) || GrantedANameOf(history, address, claimed, session, now))
  {
    var admission := AdmissionOf(address, port, claimed, known);
    CanonicalForms(address, address);
    ReasonsAreHonest(show, admission, mode, layers, session, now);
    var d := DecideLayered(show, admission, mode, layers, session, now);
    if !d.Prompt? {
      RuleIsNamed(show, history, lost, address, port, claimed, known, mode, layers, session, now, d.Allow?, d.reason);
      GrantIsNamed(show, history, lost, address, port, claimed, known, mode, layers, session, now, d.Allow?, d.reason);
    }
  }

  lemma RuleIsNamed(show: IpAddr -> string, history: seq<Event>, lost: set<IpAddr>, address: IpAddr, port: u16,
                    claimed: Option<string>, known: seq<Chain>, mode: Mode, layers: seq<Rules>, session: Session,
                    now: int, allow: bool, reason: Reason)
    requires claimed.None? ==> FoundAsFull(LogOf(history), lost, address, now, known)
    requires ToCanonical(ToCanonical(address)) == ToCanonical(address)
    requires Vouches(show, AdmissionOf(address, port, claimed, known), mode, layers, session, now, allow, reason)
    ensures (reason.AllowRule? || reason.DenyRule?) && IsNameRule(reason.rule) ==>
              MatchesANameOf(history, address, claimed, reason.rule)
  {
    var admission := AdmissionOf(address, port, claimed, known);
    if (reason.AllowRule? || reason.DenyRule?) && IsNameRule(reason.rule) {
      var names, i: nat :| IsFirstCandidate(admission.candidates, names)
        && CitedAt(Verdict.Verdict(allow, reason), layers, i, false, ToCanonical(address), names);
      CitedNameIsNamed(history, lost, address, port, claimed, known, now, names, reason.rule);
    }
  }

  lemma GrantIsNamed(show: IpAddr -> string, history: seq<Event>, lost: set<IpAddr>, address: IpAddr, port: u16,
                     claimed: Option<string>, known: seq<Chain>, mode: Mode, layers: seq<Rules>, session: Session,
                     now: int, allow: bool, reason: Reason)
    requires claimed.None? ==> FoundAsFull(LogOf(history), lost, address, now, known)
    requires ToCanonical(ToCanonical(address)) == ToCanonical(address)
    requires Vouches(show, AdmissionOf(address, port, claimed, known), mode, layers, session, now, allow, reason)
    ensures reason.SessionGrant? ==>
              session.Allows(show(ToCanonical(address)), now) || GrantedANameOf(history, address, claimed, session, now)
  {
    var admission := AdmissionOf(address, port, claimed, known);
    if reason.SessionGrant? && !session.Allows(show(ToCanonical(address)), now) {
      var c :| c in admission.candidates && SessionAllows(session, c, now);
      var n :| n in c && session.Allows(n, now);
      CandidateIsNamed(history, lost, address, port, claimed, known, now, c, n);
    }
  }
}
