/** Setting and removing rules in a rules file, at the level of list entries. */
module RuleEdits {
  import opened Collections
  import opened Net
  import opened HostPatterns

  datatype RuleList = AllowList | DenyList {
    function Other(): RuleList {
      if AllowList? then DenyList else AllowList
    }
  }

  /** A TOML value of a list: only strings can be rules. */
  datatype Value = Text(s: string) | NotText

  datatype Item = Array(values: seq<Value>) | NotArray

  /** The keys of the network table that hold rule lists. */
  type Table = map<RuleList, Item>

  datatype RuleChange = RuleChange(added: bool, removedFromOther: bool) {
    predicate IsNoop() {
      !added && !removedFromOther
    }
  }

  /** How an entry is spelled does not matter, only what it parses to. */
  predicate IsRule(text: IpText, value: Value, rule: HostPattern) {
    value.Text? && Parse(text, value.s) == Pattern(rule)
  }

  predicate HasRule(text: IpText, values: seq<Value>, rule: HostPattern) {
    exists v :: v in values && IsRule(text, v, rule)
  }

  /** `values` without the entries that are `rule`, in order. */
  function Without(text: IpText, values: seq<Value>, rule: HostPattern): seq<Value> {
    if values == [] then []
    else
      (if IsRule(text, values[0], rule) then [] else [values[0]]) + Without(text, values[1..], rule)
  }

  function ValuesOf(t: Table, list: RuleList): seq<Value> {
    if list in t && t[list].Array? then t[list].values else []
  }

  predicate Editable(t: Table) {
    forall list :: list in t ==> t[list].Array?
  }

  /** The table after putting `rule` into `list` and out of the other list. */
  function WithRule(text: IpText, t: Table, list: RuleList, rule: HostPattern): Table {
    var cleared := if list.Other() in t then t[list.Other() := Array(Without(text, ValuesOf(t, list.Other()), rule))] else t;
    var target := ValuesOf(t, list);
    cleared[list := Array(if HasRule(text, target, rule) then target else target + [Text(Print(text, rule))])]
  }

  function ChangeOf(text: IpText, t: Table, list: RuleList, rule: HostPattern): RuleChange {
    RuleChange(!HasRule(text, ValuesOf(t, list), rule), HasRule(text, ValuesOf(t, list.Other()), rule))
  }

  /** The table after taking `rule` out of one list; keys that are not arrays
      are left alone. */
  function WithoutIn(text: IpText, t: Table, list: RuleList, rule: HostPattern): Table {
    if list in t && t[list].Array? then t[list := Array(Without(text, t[list].values, rule))] else t
  }

  function WithoutRule(text: IpText, t: Table, rule: HostPattern): Table {
    WithoutIn(text, WithoutIn(text, t, AllowList, rule), DenyList, rule)
  }

  lemma {:induction false} WithoutAppend(text: IpText, a: seq<Value>, b: seq<Value>, rule: HostPattern)
    ensures Without(text, a + b, rule) == Without(text, a, rule) + Without(text, b, rule)
  {
    if a == [] {
      assert a + b == b;
    } else {
      WithoutAppend(text, a[1..], b, rule);
      var first := if IsRule(text, a[0], rule) then [] else [a[0]];
      assert (a + b)[0] == a[0] && (a + b)[1..] == a[1..] + b;
      assert Without(text, a + b, rule) == first + Without(text, a[1..] + b, rule);
      assert Without(text, a, rule) == first + Without(text, a[1..], rule);
      Associates(first, Without(text, a[1..], rule), Without(text, b, rule));
    }
  }

  lemma HasRuleSplits(text: IpText, values: seq<Value>, rule: HostPattern)
    requires values != []
    ensures HasRule(text, values, rule) <==> IsRule(text, values[0], rule) || HasRule(text, values[1..], rule)
  {
    assert forall v :: v in values <==> v == values[0] || v in values[1..];
  }

  lemma {:induction false} WithoutAbsent(text: IpText, values: seq<Value>, rule: HostPattern)
    ensures !HasRule(text, values, rule) <==> Without(text, values, rule) == values
    ensures |Without(text, values, rule)| <= |values|
    ensures !HasRule(text, Without(text, values, rule), rule)
  {
    if values != [] {
      var rest := values[1..];
      WithoutAbsent(text, rest, rule);
      HasRuleSplits(text, values, rule);
      if IsRule(text, values[0], rule) {
        assert |Without(text, values, rule)| < |values|;
      } else {
        var kept := Without(text, values, rule);
        assert kept[1..] == Without(text, rest, rule) && kept[0] == values[0];
        HasRuleSplits(text, kept, rule);
        assert kept == values <==> kept[1..] == rest by {
          assert kept == [kept[0]] + kept[1..] && values == [values[0]] + rest;
        }
      }
    }
  }

  /** One turn of the removal loop: everything behind `v` was dealt with. */
  lemma RemovesOne(text: IpText, front: seq<Value>, v: Value, behind: seq<Value>, rule: HostPattern)
    ensures var values := front + [v] + Without(text, behind, rule);
            && values[|front|] == v
            && front + Without(text, [v] + behind, rule)
               == if IsRule(text, v, rule) then values[..|front|] + values[|front| + 1..] else values
    ensures HasRule(text, [v] + behind, rule) <==> IsRule(text, v, rule) || HasRule(text, behind, rule)
  {
    assert ([v] + behind)[1..] == behind;
    HasRuleSplits(text, [v] + behind, rule);
    var kept := Without(text, behind, rule);
    assert Without(text, [v] + behind, rule) == if IsRule(text, v, rule) then kept else [v] + kept;
    OneInTheMiddle(front, v, kept);
  }

  /** The same in terms of the whole list. */
  lemma OneTurn(text: IpText, before: seq<Value>, index: nat, values: seq<Value>, rule: HostPattern)
    requires index < |before| && values == before[..index + 1] + Without(text, before[index + 1..], rule)
    ensures index < |values| && values[index] == before[index]
    ensures before[..index] + Without(text, before[index..], rule)
            == if IsRule(text, values[index], rule) then values[..index] + values[index + 1..] else values
    ensures HasRule(text, before[index..], rule) <==> IsRule(text, values[index], rule) || HasRule(text, before[index + 1..], rule)
  {
    assert before[..index + 1] == before[..index] + [before[index]];
    assert before[index..] == [before[index]] + before[index + 1..];
    RemovesOne(text, before[..index], before[index], before[index + 1..], rule);
  }

  lemma OneInTheMiddle(front: seq<Value>, v: Value, back: seq<Value>)
    ensures var all := front + [v] + back;
            && all == front + ([v] + back) && all[|front|] == v
            && all[..|front|] + all[|front| + 1..] == front + back
  {
  }

  /** The parsed document that one edit works on. */
  class Document {
    var table: Table

    constructor (table: Table)
      ensures this.table == table
    {
      this.table := table;
    }

    /** Takes every entry that is `rule` out of an array, from its end. */
    method RemoveFrom(text: IpText, list: RuleList, rule: HostPattern) returns (removed: bool)
      requires list in table && table[list].Array?
      modifies this
      ensures removed == HasRule(text, ValuesOf(old(table), list), rule)
      ensures table == old(table)[list := Array(Without(text, ValuesOf(old(table), list), rule))]
    {
      removed := false;
      ghost var before := table[list].values;
      var index := |table[list].values|;
      assert before[..index] == before && Without(text, before[index..], rule) == [];
      while index > 0
        invariant list in table && table[list].Array?
        invariant 0 <= index <= |before|
        invariant table[list].values == before[..index] + Without(text, before[index..], rule)
        invariant table == old(table)[list := table[list]]
        invariant removed == HasRule(text, before[index..], rule)
      {
        index := index - 1;
        var values := table[list].values;
        OneTurn(text, before, index, values, rule);
        if IsRule(text, values[index], rule) {
          table := table[list := Array(values[..index] + values[index + 1..])];
          removed := true;
        }
      }
      assert before[0..] == before;
      assert table[list].values == Without(text, before, rule);
    }

    /** `set_rule_in`: fails when one of the two keys is not an array. */
    method SetRule(text: IpText, list: RuleList, rule: HostPattern) returns (change: Option<RuleChange>)
      modifies this
      ensures change.Some? <==> Editable(old(table))
      ensures change.Some? ==> change.value == ChangeOf(text, old(table), list, rule)
                               && table == WithRule(text, old(table), list, rule)
    {
      var removed := false;
      if list.Other() in table {
        if table[list.Other()].NotArray? { return None; }
        removed := RemoveFrom(text, list.Other(), rule);
      }
      if list in table && table[list].NotArray? { return None; }
      var target := ValuesOf(table, list);
      var present := HasRule(text, target, rule);
      if !present {
        target := target + [Text(Print(text, rule))];
      }
      table := table[list := Array(target)];
      forall l | l in old(table) ensures l == list || l == list.Other() {
      }
      return Some(RuleChange(!present, removed));
    }

    method RemoveIn(text: IpText, list: RuleList, rule: HostPattern) returns (removed: seq<RuleList>)
      modifies this
      ensures table == WithoutIn(text, old(table), list, rule)
      ensures removed == if HasRule(text, ValuesOf(old(table), list), rule) then [list] else []
    {
      removed := [];
      if list in table && table[list].Array? {
        var found := RemoveFrom(text, list, rule);
        if found { removed := [list]; }
      }
    }

    /** `remove_rule_in`: never fails, and tells which lists held the rule. */
    method RemoveRule(text: IpText, rule: HostPattern) returns (removed: seq<RuleList>)
      modifies this
      ensures table == WithoutRule(text, old(table), rule)
      ensures removed == (if HasRule(text, ValuesOf(old(table), AllowList), rule) then [AllowList] else [])
                         + (if HasRule(text, ValuesOf(old(table), DenyList), rule) then [DenyList] else [])
    {
      removed := RemoveIn(text, AllowList, rule);
      var more := RemoveIn(text, DenyList, rule);
      removed := removed + more;
    }
  }

  /** A kitchen file's rule lists on disk. */
  class RuleFile {
    var table: Table

    constructor (table: Table)
      ensures this.table == table
    {
      this.table := table;
    }

    /** `set_network_rule`: edits a copy and writes it back only when the edit
        succeeded and changed something. */
    method SetNetworkRule(text: IpText, list: RuleList, rule: HostPattern) returns (change: Option<RuleChange>)
      modifies this
      ensures change.Some? <==> Editable(old(table))
      ensures change.Some? ==> change.value == ChangeOf(text, old(table), list, rule)
      ensures table == if change.Some? && !change.value.IsNoop() then WithRule(text, old(table), list, rule) else old(table)
    {
      var document := new Document(table);
      change := document.SetRule(text, list, rule);
      if change.Some? && !change.value.IsNoop() {
        table := document.table;
      }
    }
  }

  //--- what the edits mean -----------------------------------------------------------------------

  /** The patterns of a list as the schema reads it: entries that do not parse
      are skipped, and so are repeated patterns. */
  function Patterns(text: IpText, values: seq<Value>): seq<HostPattern> {
    if values == [] then []
    else
      var n := |values| - 1;
      var front := Patterns(text, values[..n]);
      if values[n].Text? && Parse(text, values[n].s).Pattern? && Parse(text, values[n].s).pattern !in front
      then front + [Parse(text, values[n].s).pattern] else front
  }

  lemma {:induction false} PatternsAre(text: IpText, values: seq<Value>)
    ensures forall p :: p in Patterns(text, values) <==> HasRule(text, values, p)
  {
    if values != [] {
      var n := |values| - 1;
      PatternsAre(text, values[..n]);
      assert values == values[..n] + [values[n]];
      forall p ensures p in Patterns(text, values) <==> HasRule(text, values, p) {
        assert HasRule(text, values, p) <==> HasRule(text, values[..n], p) || IsRule(text, values[n], p) by {
          if v :| v in values && IsRule(text, v, p) { assert v in values[..n] || v == values[n]; }
          if v :| v in values[..n] && IsRule(text, v, p) { assert v in values; }
        }
      }
    }
  }

  lemma {:induction false} WithoutKeepsOthers(text: IpText, values: seq<Value>, rule: HostPattern, p: HostPattern)
    requires p != rule
    ensures HasRule(text, Without(text, values, rule), p) <==> HasRule(text, values, p)
  {
    if values != [] {
      var rest := values[1..];
      WithoutKeepsOthers(text, rest, rule, p);
      assert HasRule(text, values, p) <==> IsRule(text, values[0], p) || HasRule(text, rest, p) by {
        assert forall v :: v in values <==> v == values[0] || v in rest;
      }
      if !IsRule(text, values[0], rule) {
        assert Without(text, values, rule) == [values[0]] + Without(text, rest, rule);
        assert forall v :: v in Without(text, values, rule) <==> v == values[0] || v in Without(text, rest, rule);
      }
    }
  }

  /** The printed rule reads back as the rule. */
  predicate Printable(text: IpText, rule: HostPattern) {
    Parse(text, Print(text, rule)) == Pattern(rule)
  }

  /** Setting a printable rule puts it into its list and out of the other, and
      leaves the membership of every other rule in both lists as it was. */
  lemma SetRuleMoves(text: IpText, t: Table, list: RuleList, rule: HostPattern, p: HostPattern)
    requires Printable(text, rule)
    ensures var t' := WithRule(text, t, list, rule);
            && (HasRule(text, ValuesOf(t', list), p) <==> p == rule || HasRule(text, ValuesOf(t, list), p))
            && (HasRule(text, ValuesOf(t', list.Other()), p) <==>
                  p != rule && HasRule(text, ValuesOf(t, list.Other()), p))
  {
    var target := ValuesOf(t, list);
    var added := target + [Text(Print(text, rule))];
    assert HasRule(text, added, p) <==> HasRule(text, target, p) || p == rule by {
      assert Text(Print(text, rule)) in added;
      assert forall v :: v in added <==> v in target || v == Text(Print(text, rule));
    }
    WithoutAbsent(text, ValuesOf(t, list.Other()), rule);
    if p != rule {
      WithoutKeepsOthers(text, ValuesOf(t, list.Other()), rule, p);
    }
  }

  /** Setting a rule again changes nothing, and nothing is written. */
  lemma SetRuleTwice(text: IpText, t: Table, list: RuleList, rule: HostPattern)
    requires Printable(text, rule) && Editable(t)
    ensures var t' := WithRule(text, t, list, rule);
            ChangeOf(text, t', list, rule).IsNoop() && WithRule(text, t', list, rule) == t'
  {
    SetRuleMoves(text, t, list, rule, rule);
    var t' := WithRule(text, t, list, rule);
    WithoutAbsent(text, ValuesOf(t', list.Other()), rule);
  }

  /** An edit that reports no change leaves the lists as they were, so not
      writing the file loses nothing. */
  lemma NoopChangesNothing(text: IpText, t: Table, list: RuleList, rule: HostPattern)
    requires Editable(t) && ChangeOf(text, t, list, rule).IsNoop()
    ensures WithRule(text, t, list, rule) == t
  {
    WithoutAbsent(text, ValuesOf(t, list.Other()), rule);
  }

  /** A report is true of the edit: the rule was added exactly when its list
      changed, and removed from the other exactly when that changed. */
  lemma ChangeTells(text: IpText, t: Table, list: RuleList, rule: HostPattern)
    ensures var change, t' := ChangeOf(text, t, list, rule), WithRule(text, t, list, rule);
            && (change.added <==> ValuesOf(t', list) != ValuesOf(t, list))
            && (change.removedFromOther <==> ValuesOf(t', list.Other()) != ValuesOf(t, list.Other()))
            && (change.added ==> ValuesOf(t', list) == ValuesOf(t, list) + [Text(Print(text, rule))])
  {
    WithoutAbsent(text, ValuesOf(t, list.Other()), rule);
  }

  /** Revoking a rule takes it out of both lists and leaves every other rule's
      membership as it was. */
  lemma RevokeRemoves(text: IpText, t: Table, list: RuleList, rule: HostPattern, p: HostPattern)
    ensures HasRule(text, ValuesOf(WithoutRule(text, t, rule), list), p) <==> p != rule && HasRule(text, ValuesOf(t, list), p)
  {
    WithoutAbsent(text, ValuesOf(t, list), rule);
    if p != rule {
      WithoutKeepsOthers(text, ValuesOf(t, list), rule, p);
    }
  }

  /** What revoking leaves of the lists `keys`, by what was in them before. */
  function Revoked(text: IpText, t: Table, rule: HostPattern, keys: set<RuleList>): Table {
    map l | l in keys :: Array(Without(text, ValuesOf(t, l), rule))
  }

  lemma RevokedTable(text: IpText, t: Table, list: RuleList, rule: HostPattern)
    requires Printable(text, rule) && Editable(t)
    ensures WithoutRule(text, WithRule(text, t, list, rule), rule) == Revoked(text, t, rule, t.Keys + {list})
    ensures WithoutRule(text, t, rule) == Revoked(text, t, rule, t.Keys)
  {
    var t' := WithRule(text, t, list, rule);
    assert Editable(t') && t'.Keys == t.Keys + {list};
    WithoutRuleIs(text, t, rule);
    WithoutRuleIs(text, t', rule);
    forall l | l in t' ensures Without(text, t'[l].values, rule) == Without(text, ValuesOf(t, l), rule) {
      RevokedList(text, t, list, rule, l);
    }
  }

  /** Revoking a rule undoes setting it, except that it also takes the rule out
      of the lists it was in before, and that a list that was not there stays
      behind empty. */
  lemma RevokeUndoesSet(text: IpText, t: Table, list: RuleList, rule: HostPattern)
    requires Printable(text, rule) && Editable(t)
    ensures WithoutRule(text, WithRule(text, t, list, rule), rule)
            == if list in t then WithoutRule(text, t, rule) else WithoutRule(text, t, rule)[list := Array([])]
    ensures forall l :: ValuesOf(WithoutRule(text, WithRule(text, t, list, rule), rule), l)
                        == ValuesOf(WithoutRule(text, t, rule), l)
  {
    RevokedTable(text, t, list, rule);
    OneKeyMore(text, t, rule, list);
  }

  lemma OneKeyMore(text: IpText, t: Table, rule: HostPattern, list: RuleList)
    ensures Revoked(text, t, rule, t.Keys + {list})
            == if list in t then Revoked(text, t, rule, t.Keys) else Revoked(text, t, rule, t.Keys)[list := Array([])]
  {
    if list in t {
      assert t.Keys + {list} == t.Keys;
    }
  }

  /** Revoking works on each list by itself. */
  lemma WithoutRuleIs(text: IpText, t: Table, rule: HostPattern)
    requires Editable(t)
    ensures WithoutRule(text, t, rule) == map l | l in t :: Array(Without(text, t[l].values, rule))
  {
    var t' := WithoutIn(text, t, AllowList, rule);
    WithoutInIs(text, t, AllowList, rule);
    WithoutInIs(text, t', DenyList, rule);
    forall l | l in t ensures WithoutRule(text, t, rule)[l] == Array(Without(text, t[l].values, rule)) {
      assert l == AllowList || l == DenyList;
    }
  }

  lemma WithoutInIs(text: IpText, t: Table, list: RuleList, rule: HostPattern)
    requires Editable(t)
    ensures var t' := WithoutIn(text, t, list, rule);
            && Editable(t') && t'.Keys == t.Keys
            && forall l :: l in t ==> t'[l] == if l == list then Array(Without(text, t[l].values, rule)) else t[l]
  {
  }

  /** Revoking leaves the same of a list whether the rule was set before or not. */
  lemma RevokedList(text: IpText, t: Table, list: RuleList, rule: HostPattern, l: RuleList)
    requires Printable(text, rule) && Editable(t) && l in WithRule(text, t, list, rule)
    ensures var t' := WithRule(text, t, list, rule);
            t'[l].Array? && Without(text, t'[l].values, rule) == Without(text, ValuesOf(t, l), rule)
  {
    if l == list {
      RevokedTarget(text, ValuesOf(t, list), rule);
    } else {
      RevokedTwice(text, ValuesOf(t, list.Other()), rule);
    }
  }

  lemma RevokedTwice(text: IpText, values: seq<Value>, rule: HostPattern)
    ensures Without(text, Without(text, values, rule), rule) == Without(text, values, rule)
  {
    WithoutAbsent(text, values, rule);
    WithoutAbsent(text, Without(text, values, rule), rule);
  }

  lemma RevokedTarget(text: IpText, target: seq<Value>, rule: HostPattern)
    requires Printable(text, rule)
    ensures Without(text, target + [Text(Print(text, rule))], rule) == Without(text, target, rule)
  {
    WithoutAppend(text, target, [Text(Print(text, rule))], rule);
    assert Without(text, [Text(Print(text, rule))], rule) == [];
  }
}
