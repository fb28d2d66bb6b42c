/** Which names a DNS response binds to which addresses. */
module Observer {
  import opened Collections
  import opened Net
  import opened Grammar
  import opened HostPatterns

  datatype Param = AddressHint(hints: seq<IpAddr>) | OtherParam

  /** `Host` is an A or AAAA record, `Service` an HTTPS or SVCB record. */
  datatype Data =
    | Alias(target: string)
    | Host(address: IpAddr)
    | Service(target: string, params: seq<Param>)
    | OtherData

  datatype Record = Record(owner: string, data: Data, ttl: nat)

  datatype Message = Message(queries: seq<string>, answers: seq<Record>)

  datatype Learned = Learned(address: IpAddr, names: seq<string>, ttl: nat)

  //--- names -------------------------------------------------------------------------------------

  function TrimDots(s: string): string {
    if s != [] && s[|s| - 1] == '.' then TrimDots(s[..|s| - 1]) else s
  }

  /** A DNS name as rules spell it; `None` when it is no host name. */
  function Normalize(name: string): Option<string> {
    var text := Lower(TrimDots(name));
    if ValidateHostname(text).Name? then Some(text) else None
  }

  /** A normalized name is valid and in lower case, so unless it passes for an
      address or ends in a number, it is an exact rule, spelled alike. */
  lemma NormalizedIsExact(text: IpText, name: string)
    requires Normalize(name).Some?
    ensures var n := Normalize(name).value;
            && ValidateHostname(n) == Name(n) && Lower(n) == n
            && (text.parseIp(n).None? && !AllDigits(LastLabel(n)) ==> Parse(text, n) == Pattern(Exact(n)))
  {
    LowerTwice(TrimDots(name));
    NameCharsOnly(Normalize(name).value);
  }

  /** Any number of dots. */
  function Dots(k: nat): (s: string)
    ensures |s| == k && forall i :: 0 <= i < k ==> s[i] == '.'
  {
    seq(k, i => '.')
  }

  lemma {:induction false} TrimsAllDots(name: string)
    ensures |TrimDots(name)| <= |name| && name == TrimDots(name) + Dots(|name| - |TrimDots(name)|)
    ensures TrimDots(name) != [] ==> TrimDots(name)[|TrimDots(name)| - 1] != '.'
  {
    if name != [] && name[|name| - 1] == '.' {
      TrimsAllDots(name[..|name| - 1]);
    }
  }

  lemma DottedIsNoName(n: string)
    requires n != [] && n[|n| - 1] == '.'
    ensures !IsLdhName(n)
  {
    assert n == n[..|n| - 1] + "." + "";
    SplitAtDot(n[..|n| - 1], "");
    CheckedLabels(Split(n));
    assert CheckLabel(Split(n)[|Split(n)| - 1]).Wrong?;
    ValidatesExactlyLdhNames(n);
  }

  lemma {:induction false} TrimsToName(n: string, k: nat)
    requires n == [] || n[|n| - 1] != '.'
    ensures TrimDots(n + Dots(k)) == n
  {
    if k == 0 {
      assert n + Dots(0) == n;
    } else {
      TrimsToName(n, k - 1);
      assert (n + Dots(k))[..|n| + k - 1] == n + Dots(k - 1);
    }
  }

  ghost predicate IsNormal(name: string, n: string, k: nat, normal: string) {
    name == n + Dots(k) && IsLdhName(n) && normal == Lower(n)
  }

  lemma NormalizedFrom(name: string, normal: string) returns (n: string, k: nat)
    requires Normalize(name) == Some(normal)
    ensures IsNormal(name, n, k, normal)
  {
    n := TrimDots(name);
    TrimsAllDots(name);
    k := |name| - |n|;
    LowerKeepsValid(n);
    ValidatesExactlyLdhNames(n);
  }

  lemma NormalizesTo(name: string, n: string, k: nat, normal: string)
    requires IsNormal(name, n, k, normal)
    ensures Normalize(name) == Some(normal)
  {
    if n != [] && n[|n| - 1] == '.' { DottedIsNoName(n); }
    TrimsToName(n, k);
    LowerKeepsValid(n);
    ValidatesExactlyLdhNames(n);
  }

  /** A DNS name is normalized exactly when it is an LDH name followed by any
      number of dots, and then to that name in lower case. */
  lemma NormalizesIff(name: string, normal: string)
    ensures Normalize(name) == Some(normal) <==> exists n: string, k: nat :: IsNormal(name, n, k, normal)
  {
    if Normalize(name) == Some(normal) {
      var n, k := NormalizedFrom(name, normal);
    }
    if n: string, k: nat :| IsNormal(name, n, k, normal) {
      NormalizesTo(name, n, k, normal);
    }
  }

  //--- chains ------------------------------------------------------------------------------------

  /** The valid aliases of an answer: owner and target. */
  function Aliases(answers: seq<Record>): seq<(string, string)> {
    if answers == [] then []
    else
      var n := |answers| - 1;
      Aliases(answers[..n]) + AliasOf(answers[n])
  }

  function AliasOf(r: Record): seq<(string, string)> {
    if r.data.Alias? && Normalize(r.owner).Some? && Normalize(r.data.target).Some?
    then [(Normalize(r.owner).value, Normalize(r.data.target).value)] else []
  }

  /** The first alias of a name. */
  function TargetOf(aliases: seq<(string, string)>, name: string): (r: Option<string>)
    ensures r.Some? <==> exists i :: 0 <= i < |aliases| && aliases[i].0 == name
    ensures r.Some? ==> (name, r.value) in aliases
  {
    if aliases == [] then None
    else if aliases[0].0 == name then Some(aliases[0].1)
    else
      var rest := TargetOf(aliases[1..], name);
      assert rest.None? ==> forall i :: 1 <= i < |aliases| ==> aliases[i] == aliases[1..][i - 1];
      rest
  }

  ghost function Targets(aliases: seq<(string, string)>): set<string> {
    set i | 0 <= i < |aliases| :: aliases[i].1
  }

  ghost function Names(chain: seq<string>): set<string> {
    set i | 0 <= i < |chain| :: chain[i]
  }

  /** Following aliases strikes a target off those not yet met. */
  lemma OneMoreMet(aliases: seq<(string, string)>, met: seq<string>, name: string)
    requires TargetOf(aliases, name).Some? && TargetOf(aliases, name).value !in met
    ensures Targets(aliases) - Names(met + [TargetOf(aliases, name).value]) < Targets(aliases) - Names(met)
  {
    var target := TargetOf(aliases, name).value;
    var i :| 0 <= i < |aliases| && aliases[i] == (name, target);
    assert target in Targets(aliases);
    assert Names(met + [target]) == Names(met) + {target} by {
      assert forall k :: 0 <= k < |met| ==> (met + [target])[k] == met[k];
      assert (met + [target])[|met|] == target;
    }
  }

  /** From `name`, aliases are followed until there is none or it was met. */
  ghost function Walk(aliases: seq<(string, string)>, met: seq<string>, name: string): seq<string>
    decreases Targets(aliases) - Names(met)
  {
    var target := TargetOf(aliases, name);
    if target.None? || target.value in met then met
    else
      OneMoreMet(aliases, met, name);
      Walk(aliases, met + [target.value], target.value)
  }

  function Push(chain: seq<string>, name: Option<string>): seq<string> {
    if name.Some? && name.value !in chain then chain + [name.value] else chain
  }

  function PushAll(chain: seq<string>, names: seq<Option<string>>): seq<string> {
    if names == [] then chain
    else Push(PushAll(chain, names[..|names| - 1]), names[|names| - 1])
  }

  /** The names an answer section mentions, in order. */
  function Mentioned(answers: seq<Record>): seq<Option<string>> {
    if answers == [] then []
    else
      var n := |answers| - 1;
      Mentioned(answers[..n]) + MentionedBy(answers[n])
  }

  function MentionedBy(r: Record): seq<Option<string>> {
    match r.data
    case Alias(target) => [Normalize(r.owner), Normalize(target)]
    case Host(_) => [Normalize(r.owner)]
    case _ => []
  }

  ghost function Path(query: Option<string>, answers: seq<Record>): seq<string> {
    if query.None? then [] else Walk(Aliases(answers), [query.value], query.value)
  }

  ghost function ChainOf(query: Option<string>, answers: seq<Record>): seq<string> {
    PushAll(Path(query, answers), Mentioned(answers))
  }

  /** Record `i` is the first valid alias of the name. */
  predicate IsFirstAlias(answers: seq<Record>, i: nat, name: string, target: string) {
    && i < |answers| && IsAliasOf(answers[i], name) && Normalize(answers[i].data.target) == Some(target)
    && forall j :: 0 <= j < i ==> !IsAliasOf(answers[j], name)
  }

  predicate IsAliasOf(r: Record, name: string) {
    r.data.Alias? && Normalize(r.owner) == Some(name) && Normalize(r.data.target).Some?
  }

  lemma TargetOfMore(aliases: seq<(string, string)>, more: seq<(string, string)>, name: string)
    requires |more| <= 1
    ensures TargetOf(aliases + more, name)
            == if TargetOf(aliases, name).Some? then TargetOf(aliases, name) else TargetOf(more, name)
  {
    if aliases == [] {
      assert aliases + more == more;
    } else {
      assert (aliases + more)[1..] == aliases[1..] + more;
      TargetOfMore(aliases[1..], more, name);
    }
  }

  ghost predicate HasFirstAlias(answers: seq<Record>, name: string, target: string) {
    exists i: nat :: IsFirstAlias(answers, i, name, target)
  }

  predicate HasNoAlias(answers: seq<Record>, name: string) {
    forall j :: 0 <= j < |answers| ==> !IsAliasOf(answers[j], name)
  }

  lemma NoAliasMore(answers: seq<Record>, name: string)
    requires answers != []
    ensures var n := |answers| - 1;
            HasNoAlias(answers, name) <==> HasNoAlias(answers[..n], name) && !IsAliasOf(answers[n], name)
  {
    assert forall j :: 0 <= j < |answers| - 1 ==> answers[..|answers| - 1][j] == answers[j];
  }

  lemma FirstAliasMore(answers: seq<Record>, name: string, target: string)
    requires answers != []
    ensures var n := |answers| - 1;
            HasFirstAlias(answers, name, target)
            <==> HasFirstAlias(answers[..n], name, target)
                 || (HasNoAlias(answers[..n], name) && IsAliasOf(answers[n], name)
                     && Normalize(answers[n].data.target) == Some(target))
  {
    var n := |answers| - 1;
    assert forall j :: 0 <= j < n ==> answers[..n][j] == answers[j];
    if i: nat :| IsFirstAlias(answers, i, name, target) {
      if i < n { assert IsFirstAlias(answers[..n], i, name, target); }
    }
    if i: nat :| IsFirstAlias(answers[..n], i, name, target) {
      assert IsFirstAlias(answers, i, name, target);
    }
    if HasNoAlias(answers[..n], name) && IsAliasOf(answers[n], name) && Normalize(answers[n].data.target) == Some(target) {
      assert IsFirstAlias(answers, n, name, target);
    }
  }

  /** Aliases are followed by the first valid alias record of a name, in the order
      of the answer section. */
  lemma {:induction false} FirstAliasIff(answers: seq<Record>, name: string, target: string)
    ensures TargetOf(Aliases(answers), name) == Some(target) <==> HasFirstAlias(answers, name, target)
    ensures TargetOf(Aliases(answers), name).None? <==> HasNoAlias(answers, name)
  {
    if answers != [] {
      var n := |answers| - 1;
      FirstAliasIff(answers[..n], name, target);
      TargetOfMore(Aliases(answers[..n]), AliasOf(answers[n]), name);
      NoAliasMore(answers, name);
      FirstAliasMore(answers, name, target);
    }
  }

  /** Each name leads to the next by its first alias. */
  predicate Leads(aliases: seq<(string, string)>, path: seq<string>) {
    forall i :: 0 < i < |path| ==> TargetOf(aliases, path[i - 1]) == Some(path[i])
  }

  /** A path that cannot be continued, or only in a circle. */
  predicate IsFullPath(aliases: seq<(string, string)>, path: seq<string>) {
    && path != [] && Distinct(path) && Leads(aliases, path)
    && (var next := TargetOf(aliases, path[|path| - 1]); next.None? || next.value in path)
  }

  lemma {:induction false} WalkIsFullPath(aliases: seq<(string, string)>, met: seq<string>, name: string)
    requires met != [] && met[|met| - 1] == name && Distinct(met) && Leads(aliases, met)
    ensures met <= Walk(aliases, met, name) && IsFullPath(aliases, Walk(aliases, met, name))
    ensures forall n :: n in Walk(aliases, met, name) ==> n in met || n in Targets(aliases)
    decreases Targets(aliases) - Names(met)
  {
    var target := TargetOf(aliases, name);
    if target.Some? && target.value !in met {
      OneMoreMet(aliases, met, name);
      var i :| 0 <= i < |aliases| && aliases[i] == (name, target.value);
      WalkIsFullPath(aliases, met + [target.value], target.value);
    }
  }

  lemma {:induction false} PushAllAdds(chain: seq<string>, names: seq<Option<string>>)
    requires Distinct(chain)
    ensures chain <= PushAll(chain, names) && Distinct(PushAll(chain, names))
    ensures forall n :: n in PushAll(chain, names) <==> n in chain || Some(n) in names
  {
    if names != [] {
      var k := |names| - 1;
      PushAllAdds(chain, names[..k]);
      assert forall o :: o in names <==> o in names[..k] || o == names[k];
      var before := PushAll(chain, names[..k]);
      var after := Push(before, names[k]);
      assert forall n :: n in after <==> n in before || Some(n) == names[k];
    }
  }

  predicate IsFirstAt(names: seq<Option<string>>, i: nat, n: string) {
    i < |names| && names[i] == Some(n) && forall j :: 0 <= j < i ==> names[j] != Some(n)
  }

  /** Pushed names stand in the order in which they first came. */
  lemma {:induction false} PushedInOrder(chain: seq<string>, names: seq<Option<string>>, i: nat, j: nat, a: nat, b: nat)
    requires Distinct(chain) && |chain| <= i < j < |PushAll(chain, names)|
    requires IsFirstAt(names, a, PushAll(chain, names)[i]) && IsFirstAt(names, b, PushAll(chain, names)[j])
    ensures a < b
  {
    var k := |names| - 1;
    var before := PushAll(chain, names[..k]);
    PushAllAdds(chain, names[..k]);
    PushAllAdds(chain, names);
    if j < |before| {
      assert before[i] in before && before[j] in before;
      EarlierFirst(names, a, before[i]);
      EarlierFirst(names, b, before[j]);
      PushedInOrder(chain, names[..k], i, j, a, b);
    } else {
      assert before[i] in before && before[i] !in chain;
      EarlierFirst(names, a, before[i]);
      assert names[k] == Some(PushAll(chain, names)[j]);
      assert forall m :: 0 <= m < k ==> names[..k][m] == names[m];
    }
  }

  lemma EarlierFirst(names: seq<Option<string>>, a: nat, n: string)
    requires names != [] && IsFirstAt(names, a, n) && Some(n) in names[..|names| - 1]
    ensures IsFirstAt(names[..|names| - 1], a, n)
  {
    var i :| 0 <= i < |names| - 1 && names[..|names| - 1][i] == Some(n);
    assert names[i] == Some(n);
  }

  /** The answer section mentions a name: as an alias's owner or target, or as
      the owner of an address. */
  ghost predicate IsMentioned(answers: seq<Record>, n: string) {
    exists i :: 0 <= i < |answers| && Mentions(answers[i], n)
  }

  predicate Mentions(r: Record, n: string) {
    match r.data
    case Alias(target) => Normalize(r.owner) == Some(n) || Normalize(target) == Some(n)
    case Host(_) => Normalize(r.owner) == Some(n)
    case _ => false
  }

  lemma MentionsIs(r: Record, n: string)
    ensures Mentions(r, n) <==> Some(n) in MentionedBy(r)
  {
  }

  lemma MentionedSplits(answers: seq<Record>, n: string)
    requires answers != []
    ensures var k := |answers| - 1;
            IsMentioned(answers, n) <==> IsMentioned(answers[..k], n) || Some(n) in MentionedBy(answers[k])
  {
    var k := |answers| - 1;
    MentionsIs(answers[k], n);
    if i :| 0 <= i < |answers| && Mentions(answers[i], n) {
      assert i < k ==> answers[..k][i] == answers[i];
    }
    if i :| 0 <= i < k && Mentions(answers[..k][i], n) {
      assert answers[i] == answers[..k][i];
    }
  }

  lemma {:induction false} MentionedIs(answers: seq<Record>, n: string)
    ensures Some(n) in Mentioned(answers) <==> IsMentioned(answers, n)
  {
    if answers != [] {
      var k := |answers| - 1;
      MentionedIs(answers[..k], n);
      MentionedSplits(answers, n);
    }
  }

  lemma {:induction false} AliasTargetsAreMentioned(answers: seq<Record>, n: string)
    requires n in Targets(Aliases(answers))
    ensures IsMentioned(answers, n)
  {
    var aliases := Aliases(answers);
    var i :| 0 <= i < |aliases| && aliases[i].1 == n;
    var k := |answers| - 1;
    var before := Aliases(answers[..k]);
    if i < |before| {
      assert before[i].1 == n && n in Targets(before);
      AliasTargetsAreMentioned(answers[..k], n);
      var j :| 0 <= j < k && Mentions(answers[..k][j], n);
      assert answers[j] == answers[..k][j];
    } else {
      assert Mentions(answers[k], n);
    }
  }

  /** The chain of any answer section, cyclic ones included: no name twice; first
      the query name and the full path of first aliases from it; and as a set
      the query name and what the section mentions. */
  lemma ChainIs(query: Option<string>, answers: seq<Record>)
    ensures var chain := ChainOf(query, answers);
            && Distinct(chain)
            && Path(query, answers) <= chain
            && (query.Some? ==> chain != [] && chain[0] == query.value && IsFullPath(Aliases(answers), Path(query, answers)))
            && (forall n :: n in chain <==> query == Some(n) || IsMentioned(answers, n))
  {
    var path := Path(query, answers);
    if query.Some? {
      WalkIsFullPath(Aliases(answers), [query.value], query.value);
    }
    PushAllAdds(path, Mentioned(answers));
    forall n ensures n in ChainOf(query, answers) <==> query == Some(n) || IsMentioned(answers, n) {
      MentionedIs(answers, n);
      if n in path && query != Some(n) {
        AliasTargetsAreMentioned(answers, n);
      }
    }
  }

  //--- bindings ----------------------------------------------------------------------------------

  /** The names an address hint is bound to. */
  function HintNames(query: Option<string>, r: Record): seq<string>
    requires r.data.Service?
  {
    PushAll([], [query, Normalize(r.owner), Normalize(r.data.target)])
  }

  function BoundTo(hints: seq<IpAddr>, names: seq<string>, ttl: nat): (r: seq<Learned>)
    ensures |r| == |hints|
    ensures forall i :: 0 <= i < |r| ==> r[i] == Learned(hints[i], names, ttl)
  {
    seq(|hints|, i requires 0 <= i < |hints| => Learned(hints[i], names, ttl))
  }

  function HintsOf(params: seq<Param>): seq<IpAddr> {
    if params == [] then []
    else
      var n := |params| - 1;
      HintsOf(params[..n]) + (if params[n].AddressHint? then params[n].hints else [])
  }

  function LearnedFrom(r: Record, query: Option<string>, chain: seq<string>): seq<Learned> {
    match r.data
    case Host(address) => [Learned(address, chain, r.ttl)]
    case Service(_, params) => BoundTo(HintsOf(params), HintNames(query, r), r.ttl)
    case _ => []
  }

  function AllLearned(answers: seq<Record>, query: Option<string>, chain: seq<string>): seq<Learned> {
    if answers == [] then []
    else
      var n := |answers| - 1;
      AllLearned(answers[..n], query, chain) + LearnedFrom(answers[n], query, chain)
  }

  /** What is learned, and nothing else: every address record's address with the
      whole chain, and every hint with its own names. */
  lemma {:induction false} LearnsExactly(answers: seq<Record>, query: Option<string>, chain: seq<string>, l: Learned)
    ensures l in AllLearned(answers, query, chain) <==>
              exists i :: 0 <= i < |answers| && Teaches(answers[i], query, chain, l)
  {
    if answers != [] {
      var n := |answers| - 1;
      LearnsExactly(answers[..n], query, chain, l);
      RecordTeaches(answers[n], query, chain, l);
      if i :| 0 <= i < n && Teaches(answers[..n][i], query, chain, l) {
        assert answers[i] == answers[..n][i];
      }
      if i :| 0 <= i < |answers| && Teaches(answers[i], query, chain, l) {
        assert i < n ==> answers[..n][i] == answers[i];
      }
    }
  }

  predicate Teaches(r: Record, query: Option<string>, chain: seq<string>, l: Learned) {
    && l.ttl == r.ttl
    && match r.data
       case Host(address) => l.address == address && l.names == chain
       case Service(_, params) =>
         l.names == HintNames(query, r)
         && exists p :: p in params && p.AddressHint? && l.address in p.hints
       case _ => false
  }

  lemma RecordTeaches(r: Record, query: Option<string>, chain: seq<string>, l: Learned)
    ensures l in LearnedFrom(r, query, chain) <==> Teaches(r, query, chain, l)
  {
    if r.data.Service? {
      HintsAre(r.data.params, l.address);
      var hints := HintsOf(r.data.params);
      var bound := BoundTo(hints, HintNames(query, r), r.ttl);
      if l in bound {
        var i :| 0 <= i < |bound| && bound[i] == l;
        assert hints[i] in hints;
      }
      if l.address in hints {
        var i :| 0 <= i < |hints| && hints[i] == l.address;
        assert bound[i] == Learned(l.address, HintNames(query, r), r.ttl);
      }
    }
  }

  lemma {:induction false} HintsAre(params: seq<Param>, a: IpAddr)
    ensures a in HintsOf(params) <==> exists p :: p in params && p.AddressHint? && a in p.hints
  {
    if params != [] {
      var n := |params| - 1;
      HintsAre(params[..n], a);
      assert forall p :: p in params <==> p in params[..n] || p == params[n];
    }
  }

  /** A hint's names: each valid one of query, owner and target, once, and the first
      of them first. */
  lemma HintNamesAre(query: Option<string>, r: Record)
    requires r.data.Service?
    ensures Distinct(HintNames(query, r))
    ensures forall n :: n in HintNames(query, r) <==>
              query == Some(n) || Normalize(r.owner) == Some(n) || Normalize(r.data.target) == Some(n)
    ensures query.Some? ==> HintNames(query, r) != [] && HintNames(query, r)[0] == query.value
    ensures query.None? && Normalize(r.owner).Some? ==>
              HintNames(query, r) != [] && HintNames(query, r)[0] == Normalize(r.owner).value
  {
    var all := [query, Normalize(r.owner), Normalize(r.data.target)];
    PushAllAdds([], all);
    assert all[..2] == [query, Normalize(r.owner)] && all[..2][..1] == [query];
    PushAllAdds([], [query]);
    PushAllAdds([], [query, Normalize(r.owner)]);
    assert PushAll([], [query]) == if query.Some? then [query.value] else [];
  }

  //--- the extraction ----------------------------------------------------------------------------

  method CollectAliases(answers: seq<Record>) returns (aliases: seq<(string, string)>)
    ensures aliases == Aliases(answers)
  {
    aliases := [];
    for i := 0 to |answers|
      invariant aliases == Aliases(answers[..i])
    {
      assert answers[..i + 1][..i] == answers[..i];
      aliases := aliases + AliasOf(answers[i]);
    }
    assert answers[..|answers|] == answers;
  }

  /** The path of first aliases from a name. */
  method FollowAliases(aliases: seq<(string, string)>, name: string) returns (chain: seq<string>)
    ensures chain == Walk(aliases, [name], name)
  {
    chain := [name];
    var current := name;
    while TargetOf(aliases, current).Some?
      invariant Walk(aliases, chain, current) == Walk(aliases, [name], name)
      decreases Targets(aliases) - Names(chain)
    {
      var target := TargetOf(aliases, current).value;
      if target in chain { break; }
      OneMoreMet(aliases, chain, current);
      chain := chain + [target];
      current := target;
    }
  }

  /** The names a record mentions, pushed one by one. */
  method PushRecord(chain: seq<string>, r: Record) returns (pushed: seq<string>)
    ensures pushed == PushAll(chain, MentionedBy(r))
  {
    pushed := chain;
    match r.data {
      case Alias(target) =>
        PushTwo(chain, Normalize(r.owner), Normalize(target));
        pushed := Push(pushed, Normalize(r.owner));
        pushed := Push(pushed, Normalize(target));
      case Host(_) =>
        PushOne(chain, Normalize(r.owner));
        pushed := Push(pushed, Normalize(r.owner));
      case _ =>
    }
  }

  method BuildChain(query: Option<string>, answers: seq<Record>) returns (chain: seq<string>)
    ensures chain == ChainOf(query, answers)
  {
    var aliases := CollectAliases(answers);
    chain := [];
    if query.Some? {
      chain := FollowAliases(aliases, query.value);
    }
    ghost var path := chain;
    for i := 0 to |answers|
      invariant chain == PushAll(path, Mentioned(answers[..i]))
    {
      assert answers[..i + 1][..i] == answers[..i];
      PushAllAppend(path, Mentioned(answers[..i]), MentionedBy(answers[i]));
      chain := PushRecord(chain, answers[i]);
    }
    assert answers[..|answers|] == answers;
  }

  lemma PushOne(chain: seq<string>, name: Option<string>)
    ensures PushAll(chain, [name]) == Push(chain, name)
  {
    assert PushAll(chain, [name][..0]) == chain;
  }

  lemma PushTwo(chain: seq<string>, first: Option<string>, second: Option<string>)
    ensures PushAll(chain, [first, second]) == Push(Push(chain, first), second)
  {
    PushOne(chain, first);
    assert [first, second][..1] == [first];
  }

  lemma {:induction false} PushAllAppend(chain: seq<string>, names: seq<Option<string>>, more: seq<Option<string>>)
    ensures PushAll(chain, names + more) == PushAll(PushAll(chain, names), more)
  {
    if more == [] {
      assert names + more == names;
    } else {
      var k := |more| - 1;
      PushAllAppend(chain, names, more[..k]);
      assert (names + more)[..|names| + k] == names + more[..k];
    }
  }

  method CollectNames(query: Option<string>, r: Record) returns (names: seq<string>)
    requires r.data.Service?
    ensures names == HintNames(query, r)
  {
    names := [];
    var all := [query, Normalize(r.owner), Normalize(r.data.target)];
    for i := 0 to 3
      invariant names == PushAll([], all[..i])
    {
      assert all[..i + 1][..i] == all[..i];
      names := Push(names, all[i]);
    }
    assert all[..3] == all;
  }

  method CollectHints(params: seq<Param>, names: seq<string>, ttl: nat) returns (learned: seq<Learned>)
    ensures learned == BoundTo(HintsOf(params), names, ttl)
  {
    learned := [];
    for i := 0 to |params|
      invariant learned == BoundTo(HintsOf(params[..i]), names, ttl)
    {
      assert params[..i + 1][..i] == params[..i];
      if params[i].AddressHint? {
        learned := learned + BoundTo(params[i].hints, names, ttl);
      }
    }
    assert params[..|params|] == params;
  }

  method LearnOne(r: Record, query: Option<string>, chain: seq<string>) returns (learned: seq<Learned>)
    ensures learned == LearnedFrom(r, query, chain)
  {
    match r.data {
      case Host(address) =>
        learned := [Learned(address, chain, r.ttl)];
      case Service(target, params) =>
        var names := CollectNames(query, r);
        learned := CollectHints(params, names, r.ttl);
      case _ =>
        learned := [];
    }
  }

  method LearnAll(answers: seq<Record>, query: Option<string>, chain: seq<string>) returns (learned: seq<Learned>)
    ensures learned == AllLearned(answers, query, chain)
  {
    learned := [];
    for i := 0 to |answers|
      invariant learned == AllLearned(answers[..i], query, chain)
    {
      assert answers[..i + 1][..i] == answers[..i];
      var more := LearnOne(answers[i], query, chain);
      learned := learned + more;
    }
    assert answers[..|answers|] == answers;
  }

  /** What a response teaches; one that does not decode teaches nothing. */
  method ExtractBindings(response: Option<Message>) returns (learned: seq<Learned>)
    ensures response.None? ==> learned == []
    ensures response.Some? ==>
              var m := response.value;
              var query := if m.queries == [] then None else Normalize(m.queries[0]);
              learned == AllLearned(m.answers, query, ChainOf(query, m.answers))
  {
    learned := [];
    if response.None? { return; }
    var answers := response.value.answers;
    var query := if response.value.queries == [] then None else Normalize(response.value.queries[0]);
    var chain := BuildChain(query, answers);
    learned := LearnAll(answers, query, chain);
  }
}
