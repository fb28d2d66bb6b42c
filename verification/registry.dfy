/** The broker: registered sandboxes, and the path of one admission from its
    bindings through the rules and the operator's answer. */
module Registry {
  import opened Net
  import opened Grammar
  import opened HostPatterns
  import opened Decision
  import opened RuleEdits
  import opened Answers
  import Q = ApprovalQueue

  /** What an admission reads and changes: a registration's state and its
      kitchen file. */
  datatype Sandbox = Sandbox(mode: Mode, limited: bool, session: Session, table: Table)

  predicate Passes(outcome: Q.Outcome) {
    outcome.Allow? || outcome.Temp?
  }

  /** What applying an outcome leaves behind. */
  function Applied(text: IpText, s: Sandbox, subjects: seq<HostPattern>, outcome: Q.Outcome, until: int): Sandbox {
    match outcome
    case Allow => s.(table := SetAll(text, s.table, AllowList, subjects))
    case Deny => s.(table := SetAll(text, s.table, DenyList, subjects))
    case Temp => s.(session := GrantAll(text, s.session, subjects, until))
    case _ => s
  }

  datatype Admitted = Admitted(allowed: bool, asked: bool, after: Sandbox)

  /** One admission; `outcome` is what `ask` returns if it is called. */
  function AdmitFlow(text: IpText, globals: seq<Rules>, s: Sandbox, admission: Admission, outcome: Q.Outcome,
                     now: int, until: int): Admitted {
    if s.limited then Admitted(false, false, s)
    else
      match DecideLayered(text.showIp, admission, s.mode, Layers(text, s.table, globals), s.session, now)
      case Allow(_, _) => Admitted(true, false, s)
      case Deny(_, _) => Admitted(false, false, s)
      case Prompt(kind) =>
        var tripped := if outcome.RateLimited? then s.(limited := true) else s;
        Admitted(Passes(outcome), true, Applied(text, tripped, Subjects(text, kind, admission), outcome, until))
  }

  /** A claimed name is the only candidate; else the sandbox's lookups are. */
  function AdmissionOf(address: IpAddr, port: u16, claimed: Option<string>, known: seq<Chain>): Admission {
    Admission(ToCanonical(address), port, if claimed.Some? then [[claimed.value]] else known, false)
  }

  //--- asked once --------------------------------------------------------------------------------

  /** Nothing stored stands against the answer, and it can be written down. */
  ghost predicate Rememberable(text: IpText, globals: seq<Rules>, s: Sandbox, admission: Admission, outcome: Q.Outcome,
                               now: int, until: int, later: int) {
    && Q.IsAnswer(outcome) && (outcome.Temp? ==> later < until)
    && (NonEmpty(admission.candidates) != [] ==>
          && NoneOpposed(text, s.table, globals, admission, s.session, now, Passes(outcome))
          && NamesAreExact(text, admission)
          && (Passes(outcome) ==> GrantsLast(s.session, admission, now, later)))
  }

  lemma PromptKinds(show: IpAddr -> string, admission: Admission, mode: Mode, layers: seq<Rules>, session: Session, now: int)
    requires DecideLayered(show, admission, mode, layers, session, now).Prompt?
    ensures mode.Enforce?
    ensures var kind := DecideLayered(show, admission, mode, layers, session, now).kind;
            kind.Unresolved? <==> NonEmpty(admission.candidates) == []
  {
  }

  /** What being asked means, and what an answer leaves behind. */
  lemma AskedFlow(text: IpText, globals: seq<Rules>, s: Sandbox, admission: Admission, outcome: Q.Outcome, now: int,
                  until: int)
    returns (kind: PromptKind)
    requires Faithful(text) && Editable(s.table)
    requires AdmitFlow(text, globals, s, admission, outcome, now, until).asked && Q.IsAnswer(outcome)
    ensures !s.limited && s.mode.Enforce? && Asked(text, s.table, globals, admission, s.session, now, kind)
    ensures kind.Unresolved? <==> NonEmpty(admission.candidates) == []
    ensures AdmitFlow(text, globals, s, admission, outcome, now, until).after
            == Applied(text, s, Subjects(text, kind, admission), outcome, until)
  {
    var layers := Layers(text, s.table, globals);
    PromptKinds(text.showIp, admission, s.mode, layers, s.session, now);
    kind := DecideLayered(text.showIp, admission, s.mode, layers, s.session, now).kind;
  }

  /** A decided flow is not asked about. */
  lemma DecidedFlow(text: IpText, globals: seq<Rules>, s: Sandbox, admission: Admission, outcome: Q.Outcome, now: int,
                    until: int)
    requires !s.limited
    requires !DecideLayered(text.showIp, admission, s.mode, Layers(text, s.table, globals), s.session, now).Prompt?
    ensures AdmitFlow(text, globals, s, admission, outcome, now, until)
            == Admitted(DecideLayered(text.showIp, admission, s.mode, Layers(text, s.table, globals), s.session, now).Allow?,
                        false, s)
  {
  }

  /** What was applied decides the flow as answered. */
  lemma AppliedDecides(text: IpText, globals: seq<Rules>, s: Sandbox, admission: Admission, outcome: Q.Outcome, now: int,
                       until: int, later: int, kind: PromptKind)
    requires Asked(text, s.table, globals, admission, s.session, now, kind) && !kind.Unresolved?
    requires NonEmpty(admission.candidates) != []
    requires Rememberable(text, globals, s, admission, outcome, now, until, later)
    ensures var after := Applied(text, s, Subjects(text, kind, admission), outcome, until);
            var d := DecideLayered(text.showIp, admission, Enforce, Layers(text, after.table, globals), after.session, later);
            if Passes(outcome) then d.Allow? else d.Deny?
  {
    if outcome.Allow? {
      AllowSticks(text, s.table, globals, admission, s.session, now, kind, later);
    } else if outcome.Deny? {
      DenySticks(text, s.table, globals, admission, s.session, now, kind, later);
    } else {
      TempSticks(text, s.table, globals, admission, s.session, now, kind, until, later);
    }
  }

  lemma AppliedDecidesUnresolved(text: IpText, globals: seq<Rules>, s: Sandbox, admission: Admission, outcome: Q.Outcome,
                                 now: int, until: int, later: int)
    requires Asked(text, s.table, globals, admission, s.session, now, Unresolved)
    requires Q.IsAnswer(outcome) && (outcome.Temp? ==> later < until)
    ensures var after := Applied(text, s, Subjects(text, Unresolved, admission), outcome, until);
            var d := DecideLayered(text.showIp, admission, Enforce, Layers(text, after.table, globals), after.session, later);
            if Passes(outcome) then d.Allow? else d.Deny?
  {
    UnresolvedSticks(text, s.table, globals, admission, s.session, now, until, later);
  }

  /** An answered flow is not asked about again: the same admission then gets
      the answered verdict from what is stored, whatever the next prompt would
      have returned, and changes nothing. */
  lemma AskedOnce(text: IpText, globals: seq<Rules>, s: Sandbox, admission: Admission, outcome: Q.Outcome, now: int,
                  until: int, again: Q.Outcome, later: int, until': int)
    requires Faithful(text) && Editable(s.table)
    requires AdmitFlow(text, globals, s, admission, outcome, now, until).asked
    requires Rememberable(text, globals, s, admission, outcome, now, until, later)
    ensures var first := AdmitFlow(text, globals, s, admission, outcome, now, until);
            AdmitFlow(text, globals, first.after, admission, again, later, until')
            == Admitted(Passes(outcome), false, first.after)
  {
    var kind := AskedFlow(text, globals, s, admission, outcome, now, until);
    if kind.Unresolved? {
      AppliedDecidesUnresolved(text, globals, s, admission, outcome, now, until, later);
    } else {
      AppliedDecides(text, globals, s, admission, outcome, now, until, later, kind);
    }
    var after := AdmitFlow(text, globals, s, admission, outcome, now, until).after;
    DecidedFlow(text, globals, after, admission, again, later, until');
  }

  //--- who shares a prompt -----------------------------------------------------------------------

  function JoinNames(names: seq<string>): string {
    if names == [] then []
    else if |names| == 1 then names[0]
    else names[0] + "," + JoinNames(names[1..])
  }

  /** The coalescing key's subject. */
  function SubjectText(text: IpText, admission: Admission): string {
    if admission.candidates == [] then text.showIp(admission.address) else JoinNames(QueryNames(admission.candidates))
  }

  predicate Named(names: seq<string>) {
    names != [] && forall i :: 0 <= i < |names| ==> names[i] != [] && ',' !in names[i]
  }

  lemma FirstComma(a: string, x: string, b: string, y: string)
    requires ',' !in a && ',' !in b
    requires a + "," + x == b + "," + y
    ensures a == b && x == y
  {
    var all, other := a + "," + x, b + "," + y;
    assert all[|a|] == ',' && other[|b|] == ',';
    assert forall k :: 0 <= k < |a| ==> all[k] == a[k];
    assert forall k :: 0 <= k < |b| ==> other[k] == b[k];
    assert all[..|a|] == a && all[..|b|] == b;
    assert all[|a| + 1..] == x && all[|b| + 1..] == y;
  }

  lemma JoinHasComma(names: seq<string>)
    requires Named(names)
    ensures ',' in JoinNames(names) <==> |names| > 1
  {
    if |names| > 1 {
      assert JoinNames(names)[|names[0]|] == ',';
    }
  }

  /** Joined names can be told apart again. */
  lemma {:induction false} JoinInjective(a: seq<string>, b: seq<string>)
    requires Named(a) && Named(b) && JoinNames(a) == JoinNames(b)
    ensures a == b
  {
    JoinHasComma(a);
    JoinHasComma(b);
    if |a| == 1 {
      assert a == [a[0]] && b == [b[0]];
    } else {
      FirstComma(a[0], JoinNames(a[1..]), b[0], JoinNames(b[1..]));
      JoinInjective(a[1..], b[1..]);
      assert a == [a[0]] + a[1..] && b == [b[0]] + b[1..];
    }
  }

  lemma {:induction false} QueryNamesFull(candidates: seq<Chain>)
    requires forall i :: 0 <= i < |candidates| ==> candidates[i] != []
    ensures |QueryNames(candidates)| == |candidates|
    ensures forall i :: 0 <= i < |candidates| ==> QueryNames(candidates)[i] == candidates[i][0]
  {
    if candidates != [] {
      QueryNamesFull(candidates[1..]);
    }
  }

  /** Every candidate's query name passed the hostname grammar. */
  predicate WellNamed(admission: Admission) {
    forall i :: 0 <= i < |admission.candidates| ==>
      admission.candidates[i] != [] && ValidateHostname(admission.candidates[i][0]).Name?
  }

  lemma QueriesAreNamed(admission: Admission)
    requires WellNamed(admission) && admission.candidates != []
    ensures Named(QueryNames(admission.candidates))
  {
    QueryNamesFull(admission.candidates);
    forall i | 0 <= i < |admission.candidates| ensures ',' !in admission.candidates[i][0] {
      var name := admission.candidates[i][0];
      assert FirstInvalid(name) == |name|;
    }
  }

  /** Two flows share a prompt's subject exactly when they ask about the same
      query names in the same order, or about the same unresolved address, or
      one asks about a single name that spells the other's address. */
  lemma SharedSubjectIff(text: IpText, a: Admission, b: Admission)
    requires Faithful(text) && forall ip :: ',' !in text.showIp(ip)
    requires WellNamed(a) && WellNamed(b)
    ensures SubjectText(text, a) == SubjectText(text, b) <==>
              if a.candidates == [] && b.candidates == [] then a.address == b.address
              else if a.candidates != [] && b.candidates != [] then QueryNames(a.candidates) == QueryNames(b.candidates)
              else if a.candidates == [] then QueryNames(b.candidates) == [text.showIp(a.address)]
              else QueryNames(a.candidates) == [text.showIp(b.address)]
  {
    if a.candidates == [] && b.candidates == [] {
      assert text.parseIp(text.showIp(a.address)) == Some(a.address);
      assert text.parseIp(text.showIp(b.address)) == Some(b.address);
    } else if a.candidates != [] && b.candidates != [] {
      QueriesAreNamed(a);
      QueriesAreNamed(b);
      if SubjectText(text, a) == SubjectText(text, b) {
        JoinInjective(QueryNames(a.candidates), QueryNames(b.candidates));
      }
    } else if a.candidates == [] {
      NameForAddress(text, b, a.address);
    } else {
      NameForAddress(text, a, b.address);
    }
  }

  lemma NameForAddress(text: IpText, a: Admission, address: IpAddr)
    requires ',' !in text.showIp(address)
    requires WellNamed(a) && a.candidates != []
    ensures SubjectText(text, a) == text.showIp(address) <==> QueryNames(a.candidates) == [text.showIp(address)]
  {
    var names := QueryNames(a.candidates);
    QueriesAreNamed(a);
    JoinHasComma(names);
    if SubjectText(text, a) == text.showIp(address) {
      assert |names| == 1 && names == [names[0]];
    }
  }

  //--- the registry ------------------------------------------------------------------------------

  datatype Registration = Registration(resolverPort: u16, proxyPort: u16)

  class SandboxEntry {
    const name: string
    const kitchenFile: string
    /** The kitchen file's rule lists on disk, shared by everyone who names it. */
    const rules: RuleFile
    const resolverPort: u16
    const proxyPort: u16
    var mode: Mode
    var limited: bool
    var session: Session
    var cancelled: bool

    constructor (name: string, kitchenFile: string, rules: RuleFile, ports: Registration, mode: Mode)
      ensures this.name == name && this.kitchenFile == kitchenFile && this.rules == rules
      ensures Ports() == ports && this.mode == mode && !limited && session == Session(map[]) && !cancelled
    {
      this.name, this.kitchenFile, this.rules := name, kitchenFile, rules;
      resolverPort, proxyPort := ports.resolverPort, ports.proxyPort;
      this.mode, limited, session, cancelled := mode, false, Session(map[]), false;
    }

    function Ports(): Registration {
      Registration(resolverPort, proxyPort)
    }

    function Contents(): Sandbox
      reads this, rules
    {
      Sandbox(mode, limited, session, rules.table)
    }
  }

  datatype GrantResult = Granted(key: string) | NotRegistered | InvalidHost | NoKey

  class Broker {
    const text: IpText
    const tempAllow: nat
    const approvals: Q.ApprovalQueue
    var sandboxes: map<string, SandboxEntry>
    /** The notifications about tripped limits, by sandbox name. */
    var notices: seq<string>

    constructor (text: IpText, tempAllow: nat, approvals: Q.ApprovalQueue)
      requires approvals.Valid()
      ensures Valid() && sandboxes == map[] && notices == []
      ensures this.text == text && this.tempAllow == tempAllow && this.approvals == approvals
    {
      this.text, this.tempAllow, this.approvals := text, tempAllow, approvals;
      sandboxes, notices := map[], [];
    }

    ghost predicate Valid()
      reads this, approvals, set n | n in sandboxes :: sandboxes[n]
    {
      && approvals.Valid()
      && forall n :: n in sandboxes ==> sandboxes[n].name == n && !sandboxes[n].cancelled
    }

    /** Writes an answer down, subject by subject, whether or not a file could be
        written. */
    method Apply(entry: SandboxEntry, subjects: seq<HostPattern>, outcome: Q.Outcome, now: int) returns (allowed: bool)
      modifies entry`session, entry.rules
      ensures allowed == Passes(outcome)
      ensures entry.Contents() == Applied(text, old(entry.Contents()), subjects, outcome, now + tempAllow)
    {
      allowed := false;
      if outcome.Allow? || outcome.Deny? {
        var list := if outcome.Allow? then AllowList else DenyList;
        for i := 0 to |subjects|
          invariant entry.rules.table == SetAll(text, old(entry.rules.table), list, subjects[..i])
          invariant entry.session == old(entry.session)
        {
          ghost var before := entry.rules.table;
          var change := entry.rules.SetNetworkRule(text, list, subjects[i]);
          if Editable(before) && ChangeOf(text, before, list, subjects[i]).IsNoop() {
            NoopChangesNothing(text, before, list, subjects[i]);
          }
          assert subjects[..i + 1][..i] == subjects[..i];
        }
        assert subjects[..|subjects|] == subjects;
        allowed := outcome.Allow?;
      } else if outcome.Temp? {
        var until := now + tempAllow;
        for i := 0 to |subjects|
          invariant entry.session == GrantAll(text, old(entry.session), subjects[..i], until)
          invariant entry.rules.table == old(entry.rules.table)
        {
          var key := SessionKey(text, subjects[i]);
          if key.Some? {
            entry.session := entry.session.Grant(key.value, until);
          }
          assert subjects[..i + 1][..i] == subjects[..i];
        }
        assert subjects[..|subjects|] == subjects;
        allowed := true;
      }
    }

    /** From here on every flow of the sandbox is refused; only the first trip is
        announced. */
    method TripRateLimit(entry: SandboxEntry)
      modifies entry`limited, this`notices
      ensures entry.limited
      ensures notices == if old(entry.limited) then old(notices) else old(notices) + [entry.name]
    {
      var before := entry.limited;
      entry.limited := true;
      if before { return; }
      notices := notices + [entry.name];
    }

    /** One admission that starts at `now`, with `ask` answering `outcome` and
        the answer applied at `answered`. `known` is the binding lookup,
        `globals` the global rules. */
    method Admit(entry: SandboxEntry, globals: seq<Rules>, address: IpAddr, port: u16, claimed: Option<string>,
                 known: seq<Chain>, outcome: Q.Outcome, now: int, answered: int)
      returns (allowed: bool)
      modifies entry`session, entry`limited, entry.rules, this`notices
      ensures var candidates := match claimed case Some(name) => [[name]] case None => known;
              var admission := Admission(ToCanonical(address), port, candidates, false);
              var r := AdmitFlow(text, globals, old(entry.Contents()), admission, outcome, now, answered + tempAllow);
              && allowed == r.allowed && entry.Contents() == r.after
              && notices == if old(entry.limited) == r.after.limited then old(notices) else old(notices) + [entry.name]
    {
      var admission := AdmissionOf(address, port, claimed, known);
      if entry.limited { return false; }
      var layers := Layers(text, entry.rules.table, globals);
      var decision := DecideLayered(text.showIp, admission, entry.mode, layers, entry.session, now);
      match decision {
        case Allow(_, _) => allowed := true;
        case Deny(_, _) => allowed := false;
        case Prompt(kind) =>
          if outcome.RateLimited? {
            TripRateLimit(entry);
          }
          allowed := Apply(entry, Subjects(text, kind, admission), outcome, answered);
      }
    }

    /** A compatible registration is kept and only changes mode. Otherwise the
        old one is retired before anything else, so that it is gone even when
        registering anew fails: without a secret, or without a free port.
        `picked` are ports for endpoints that ask for none. */
    method Register(name: string, kitchenFile: string, rules: RuleFile, mode: Mode, resolverPort: Option<u16>,
                    proxyPort: Option<u16>, hasSecret: bool, bindable: bool, picked: Registration)
      returns (registered: Option<Registration>)
      requires Valid()
      modifies this`sandboxes, approvals, if name in sandboxes then {sandboxes[name]} else {}
      ensures Valid()
      ensures var entries := old(sandboxes);
              var kept := && name in entries && entries[name].kitchenFile == kitchenFile
                          && (resolverPort.None? || resolverPort.value == entries[name].resolverPort)
                          && (proxyPort.None? || proxyPort.value == entries[name].proxyPort);
              if kept then
                var entry := entries[name];
                && registered == Some(entry.Ports()) && sandboxes == entries
                && entry.mode == mode && entry.limited == old(entry.limited) && entry.session == old(entry.session)
                && approvals.Contents() == old(approvals.Contents())
              else
                && (registered.Some? <==> hasSecret && bindable)
                && (name in entries ==> entries[name].cancelled)
                && sandboxes - {name} == entries - {name}
                && (name in sandboxes <==> registered.Some?)
                && (registered.Some? ==>
                      var entry := sandboxes[name];
                      && fresh(entry) && entry.Ports() == registered.value
                      && entry.kitchenFile == kitchenFile && entry.rules == rules
                      && (resolverPort.Some? ==> entry.resolverPort == resolverPort.value)
                      && (proxyPort.Some? ==> entry.proxyPort == proxyPort.value)
                      && entry.mode == mode && !entry.limited && entry.session == Session(map[]))
                && approvals.Contents() == if name in entries then old(approvals.Contents()).CancelSandbox(name).Reset(name)
                                           else old(approvals.Contents())
    {
      if name in sandboxes {
        var existing := sandboxes[name];
        var compatible := existing.kitchenFile == kitchenFile
                          && (resolverPort.None? || resolverPort.value == existing.resolverPort)
                          && (proxyPort.None? || proxyPort.value == existing.proxyPort);
        if compatible {
          existing.mode := mode;
          return Some(existing.Ports());
        }
        var _ := Retire(name);
      }
      if !hasSecret || !bindable { return None; }
      var ports := Registration(
        if resolverPort.Some? then resolverPort.value else picked.resolverPort,
        if proxyPort.Some? then proxyPort.value else picked.proxyPort);
      var entry := new SandboxEntry(name, kitchenFile, rules, ports, mode);
      sandboxes := sandboxes[name := entry];
      registered := Some(ports);
    }

    /** Takes a sandbox off the registry, cancels its flows, and drops its
        pending requests and prompt history. */
    method Retire(name: string) returns (removed: bool)
      requires Valid()
      modifies this`sandboxes, approvals, if name in sandboxes then {sandboxes[name]} else {}
      ensures Valid()
      ensures removed <==> name in old(sandboxes)
      ensures sandboxes == old(sandboxes) - {name}
      ensures removed ==> old(sandboxes)[name].cancelled
      ensures approvals.Contents() == if removed then old(approvals.Contents()).CancelSandbox(name).Reset(name)
                                      else old(approvals.Contents())
    {
      if name !in sandboxes {
        assert sandboxes - {name} == sandboxes;
        return false;
      }
      var entry := sandboxes[name];
      sandboxes := sandboxes - {name};
      entry.cancelled := true;
      var _ := approvals.CancelSandbox(name);
      approvals.Reset(name);
      removed := true;
    }

    /** Lifts a tripped limit and forgets the prompt history with it. */
    method Resume(name: string) returns (wasLimited: Option<bool>)
      requires Valid()
      modifies approvals, if name in sandboxes then {sandboxes[name]} else {}
      ensures Valid()
      ensures wasLimited == if name in sandboxes then Some(old(sandboxes[name].limited)) else None
      ensures name in sandboxes ==>
                && sandboxes[name].Contents() == old(sandboxes[name].Contents()).(limited := false)
                && approvals.Contents() == old(approvals.Contents()).Reset(name)
                && approvals.History(name) == []
      ensures name !in sandboxes ==> approvals.Contents() == old(approvals.Contents())
    {
      if name !in sandboxes { return None; }
      var entry := sandboxes[name];
      wasLimited := Some(entry.limited);
      entry.limited := false;
      approvals.Reset(name);
    }

    /** The command line's temporary allow. */
    method Grant(name: string, subject: string, now: int) returns (result: GrantResult)
      requires Valid()
      modifies if name in sandboxes then {sandboxes[name]} else {}
      ensures Valid()
      ensures result == if name !in sandboxes then NotRegistered
                        else match Parse(text, subject)
                             case Rejected(_) => InvalidHost
                             case Pattern(Exact(host)) => Granted(host)
                             case Pattern(Address(address)) => Granted(text.showIp(ToCanonical(address)))
                             case Pattern(_) => NoKey
      ensures name in sandboxes ==>
                sandboxes[name].Contents() ==
                  if result.Granted?
                  then old(sandboxes[name].Contents()).(session := old(sandboxes[name].session).Grant(result.key, now + tempAllow))
                  else old(sandboxes[name].Contents())
    {
      if name !in sandboxes { return NotRegistered; }
      var entry := sandboxes[name];
      var pattern := Parse(text, subject);
      if pattern.Rejected? { return InvalidHost; }
      var key := SessionKey(text, pattern.pattern);
      if key.None? { return NoKey; }
      entry.session := entry.session.Grant(key.value, now + tempAllow);
      result := Granted(key.value);
    }
  }
}
