/** The strict hostname grammar. Each `char` stands for one byte of the input. */
module Grammar {

  const MAX_NAME_LEN := 253
  const MAX_LABEL_LEN := 63

  datatype GrammarError =
    | Empty
    | TooLong
    | EmptyLabel
    | LabelTooLong
    | HyphenAtEdge
    | InvalidByte(byte: char)

  datatype Validated = Name(name: string) | Invalid(error: GrammarError)

  predicate IsAlphanumeric(c: char) {
    'a' <= c <= 'z' || 'A' <= c <= 'Z' || '0' <= c <= '9'
  }

  predicate IsNameChar(c: char) {
    IsAlphanumeric(c) || c == '-' || c == '.'
  }

  //--- labels ------------------------------------------------------------------------------------

  /** The labels between the dots; a name without dots is one label. */
  function Split(s: string): (labels: seq<string>)
    ensures |labels| >= 1
  {
    if s == [] then [[]]
    else
      var rest := Split(s[1..]);
      if s[0] == '.' then [[]] + rest else [[s[0]] + rest[0]] + rest[1..]
  }

  function Join(labels: seq<string>): string {
    if labels == [] then []
    else if |labels| == 1 then labels[0]
    else labels[0] + "." + Join(labels[1..])
  }

  lemma {:induction false} JoinSplit(s: string)
    ensures Join(Split(s)) == s
  {
    if s != [] {
      JoinSplit(s[1..]);
      var rest := Split(s[1..]);
      assert Split(s)[1..] == if s[0] == '.' then rest else rest[1..];
      assert s == [s[0]] + s[1..];
    }
  }

  lemma {:induction false} SplitPlain(s: string)
    requires '.' !in s
    ensures Split(s) == [s]
  {
    if s != [] {
      SplitPlain(s[1..]);
      assert s == [s[0]] + s[1..];
    }
  }

  lemma {:induction false} SplitAtDot(a: string, b: string)
    ensures Split(a + "." + b) == Split(a) + Split(b)
  {
    var all := a + "." + b;
    if a == [] {
      assert all[0] == '.' && all[1..] == b;
    } else {
      SplitAtDot(a[1..], b);
      assert all[0] == a[0] && all[1..] == a[1..] + "." + b;
      var rest, tail := Split(a[1..]), Split(b);
      if a[0] == '.' {
        assert [[]] + (rest + tail) == ([[]] + rest) + tail;
      } else {
        assert [[a[0]] + (rest + tail)[0]] + (rest + tail)[1..] == ([[a[0]] + rest[0]] + rest[1..]) + tail;
      }
    }
  }

  lemma {:induction false} SplitJoin(labels: seq<string>)
    requires labels != [] && forall i :: 0 <= i < |labels| ==> '.' !in labels[i]
    ensures Split(Join(labels)) == labels
  {
    SplitPlain(labels[0]);
    if |labels| > 1 {
      SplitJoin(labels[1..]);
      SplitAtDot(labels[0], Join(labels[1..]));
    }
  }

  //--- validation --------------------------------------------------------------------------------

  function FirstInvalid(s: string): (at: nat)
    ensures at <= |s|
    ensures at < |s| ==> !IsNameChar(s[at])
    ensures forall i :: 0 <= i < at ==> IsNameChar(s[i])
  {
    if s == [] then 0 else if !IsNameChar(s[0]) then 0 else 1 + FirstInvalid(s[1..])
  }

  datatype LabelCheck = Fine | Wrong(error: GrammarError)

  function CheckLabel(part: string): LabelCheck {
    if part == [] then Wrong(EmptyLabel)
    else if |part| > MAX_LABEL_LEN then Wrong(LabelTooLong)
    else if part[0] == '-' || part[|part| - 1] == '-' then Wrong(HyphenAtEdge)
    else Fine
  }

  function CheckLabels(labels: seq<string>): LabelCheck {
    if labels == [] then Fine
    else
      var first := CheckLabel(labels[0]);
      if first.Wrong? then first else CheckLabels(labels[1..])
  }

  /** Accepts a name as it is, or says why not; never repairs. */
  function ValidateHostname(s: string): Validated {
    if s == [] then Invalid(Empty)
    else
      var at := FirstInvalid(s);
      if at < |s| then Invalid(InvalidByte(s[at]))
      else if |s| > MAX_NAME_LEN then Invalid(TooLong)
      else
        var check := CheckLabels(Split(s));
        if check.Wrong? then Invalid(check.error) else Name(s)
  }

  /** A label of the LDH contract: letters, digits and inner hyphens. */
  predicate IsLdhLabel(part: string) {
    && 1 <= |part| <= 63
    && (forall i :: 0 <= i < |part| ==> IsAlphanumeric(part[i]) || part[i] == '-')
    && part[0] != '-' && part[|part| - 1] != '-'
  }

  /** `s` is a dotted sequence of LDH labels, at most 253 bytes in all. */
  ghost predicate IsLdhName(s: string) {
    exists labels: seq<string> ::
      && labels != []
      && (forall i :: 0 <= i < |labels| ==> IsLdhLabel(labels[i]))
      && s == Join(labels)
      && |s| <= 253
  }

  /** The bytes of the labels are exactly the bytes of the name between its dots. */
  lemma {:induction false} LabelBytes(s: string)
    ensures forall i :: 0 <= i < |Split(s)| ==> '.' !in Split(s)[i]
    ensures forall c :: c != '.' ==> (c in s <==> exists i :: 0 <= i < |Split(s)| && c in Split(s)[i])
  {
    if s != [] {
      LabelBytes(s[1..]);
      var rest := Split(s[1..]);
      forall c | c != '.' ensures c in s <==> exists i :: 0 <= i < |Split(s)| && c in Split(s)[i] {
        assert c in s <==> c == s[0] || c in s[1..];
        if s[0] == '.' {
          if i :| 0 <= i < |rest| && c in rest[i] { assert c in Split(s)[i + 1]; }
          if i :| 0 <= i < |Split(s)| && c in Split(s)[i] { assert i > 0 && c in rest[i - 1]; }
        } else {
          assert c == s[0] ==> c in Split(s)[0];
          if i :| 0 <= i < |rest| && c in rest[i] { assert c in Split(s)[i]; }
          if i :| 0 <= i < |Split(s)| && c in Split(s)[i] { assert c == s[0] || c in rest[i]; }
        }
      }
    }
  }

  lemma {:induction false} CheckedLabels(labels: seq<string>)
    ensures CheckLabels(labels).Fine? <==> forall i :: 0 <= i < |labels| ==> CheckLabel(labels[i]).Fine?
  {
    if labels != [] {
      CheckedLabels(labels[1..]);
      assert forall i :: 1 <= i < |labels| ==> labels[i] == labels[1..][i - 1];
    }
  }

  lemma LabelsAreLdh(s: string)
    requires forall i :: 0 <= i < |s| ==> IsNameChar(s[i])
    ensures CheckLabels(Split(s)).Fine? <==> forall i :: 0 <= i < |Split(s)| ==> IsLdhLabel(Split(s)[i])
  {
    LabelBytes(s);
    var labels := Split(s);
    CheckedLabels(labels);
    forall i | 0 <= i < |labels| ensures CheckLabel(labels[i]).Fine? <==> IsLdhLabel(labels[i]) {
      forall j | 0 <= j < |labels[i]| ensures IsAlphanumeric(labels[i][j]) || labels[i][j] == '-' {
        assert labels[i][j] in labels[i];
        assert labels[i][j] in s;
      }
    }
  }

  /** The validator accepts exactly the LDH names, and returns them unchanged. */
  lemma ValidatesExactlyLdhNames(s: string)
    ensures ValidateHostname(s) == Name(s) <==> IsLdhName(s)
    ensures ValidateHostname(s).Name? ==> ValidateHostname(s) == Name(s)
  {
    if ValidateHostname(s).Name? {
      LabelsAreLdh(s);
      JoinSplit(s);
      assert IsLdhName(s);
    }
    if IsLdhName(s) {
      var labels :| labels != [] && (forall i :: 0 <= i < |labels| ==> IsLdhLabel(labels[i]))
        && s == Join(labels) && |s| <= 253;
      LdhIsAccepted(s, labels);
    }
  }

  lemma LdhIsAccepted(s: string, labels: seq<string>)
    requires labels != [] && (forall i :: 0 <= i < |labels| ==> IsLdhLabel(labels[i]))
    requires s == Join(labels) && |s| <= 253
    ensures ValidateHostname(s) == Name(s)
  {
    forall i | 0 <= i < |labels| ensures '.' !in labels[i] {
    }
    SplitJoin(labels);
    LabelBytes(s);
    forall i | 0 <= i < |s| ensures IsNameChar(s[i]) {
      if s[i] != '.' {
        assert s[i] in s;
        var j :| 0 <= j < |labels| && s[i] in labels[j];
      }
    }
    LabelsAreLdh(s);
    assert s != [] by {
      assert Split([]) == [[]];
      assert IsLdhLabel(labels[0]);
    }
  }

  /** Which complaint comes first: an empty name, then the first byte outside
      the alphabet, then the total length, then the first bad label. */
  lemma RejectsInOrder(s: string)
    ensures ValidateHostname(s) == Invalid(Empty) <==> s == []
    ensures forall b :: ValidateHostname(s) == Invalid(InvalidByte(b)) <==>
              exists i :: 0 <= i < |s| && s[i] == b && !IsNameChar(b) && forall j :: 0 <= j < i ==> IsNameChar(s[j])
    ensures ValidateHostname(s) == Invalid(TooLong) <==>
              |s| > 253 && forall i :: 0 <= i < |s| ==> IsNameChar(s[i])
  {
    NoOtherComplaint(Split(s));
    var at := FirstInvalid(s);
    forall b, i | 0 <= i < |s| && s[i] == b && !IsNameChar(b) && forall j :: 0 <= j < i ==> IsNameChar(s[j])
      ensures at == i
    {
    }
  }

  lemma {:induction false} NoOtherComplaint(labels: seq<string>)
    ensures var check := CheckLabels(labels);
            check.Wrong? ==> check.error.EmptyLabel? || check.error.LabelTooLong? || check.error.HyphenAtEdge?
  {
    if labels != [] {
      NoOtherComplaint(labels[1..]);
    }
  }

  /** What is wrong with a label that is no LDH label, by its length before its ends. */
  predicate Complains(part: string, error: GrammarError) {
    match error
    case EmptyLabel => part == []
    case LabelTooLong => |part| > 63
    case HyphenAtEdge => 1 <= |part| <= 63 && (part[0] == '-' || part[|part| - 1] == '-')
    case _ => false
  }

  predicate FirstBad(labels: seq<string>, i: nat, error: GrammarError) {
    i < |labels| && Complains(labels[i], error) && forall j :: 0 <= j < i ==> IsLdhLabel(labels[j])
  }

  predicate HasLabelBytes(labels: seq<string>) {
    forall i, j :: 0 <= i < |labels| && 0 <= j < |labels[i]| ==> IsAlphanumeric(labels[i][j]) || labels[i][j] == '-'
  }

  lemma {:induction false} FirstBadIs(labels: seq<string>, error: GrammarError)
    requires HasLabelBytes(labels)
    ensures CheckLabels(labels) == Wrong(error) <==> exists i: nat :: FirstBad(labels, i, error)
  {
    if labels != [] {
      FirstBadIs(labels[1..], error);
      assert CheckLabel(labels[0]) == Wrong(error) <==> Complains(labels[0], error);
      assert CheckLabel(labels[0]).Fine? <==> IsLdhLabel(labels[0]);
      FirstBadMoves(labels, error);
    }
  }

  lemma FirstBadMoves(labels: seq<string>, error: GrammarError)
    requires labels != []
    ensures (exists i: nat :: FirstBad(labels, i, error))
            <==> Complains(labels[0], error) || (IsLdhLabel(labels[0]) && exists i: nat :: FirstBad(labels[1..], i, error))
  {
    if i: nat :| FirstBad(labels, i, error) {
      if i > 0 {
        assert forall j :: 0 <= j < i - 1 ==> labels[1..][j] == labels[j + 1];
        assert FirstBad(labels[1..], i - 1, error);
      }
    }
    if Complains(labels[0], error) {
      assert FirstBad(labels, 0, error);
    } else if IsLdhLabel(labels[0]) {
      if i: nat :| FirstBad(labels[1..], i, error) {
        assert forall j :: 1 <= j < i + 1 ==> labels[j] == labels[1..][j - 1];
        assert FirstBad(labels, i + 1, error);
      }
    }
  }

  /** In a name of allowed bytes and length, the first label that is no LDH label
      gives the complaint. */
  lemma FirstBadLabelDecides(labels: seq<string>, error: GrammarError)
    requires labels != [] && labels != [[]] && HasLabelBytes(labels) && |Join(labels)| <= 253
    ensures ValidateHostname(Join(labels)) == Invalid(error) <==> exists i: nat :: FirstBad(labels, i, error)
  {
    var s := Join(labels);
    SplitJoin(labels);
    assert s != [] by { assert Split([]) == [[]]; }
    JoinedBytes(labels);
    FirstBadIs(labels, error);
  }

  lemma {:induction false} JoinedBytes(labels: seq<string>)
    requires HasLabelBytes(labels)
    ensures forall i :: 0 <= i < |Join(labels)| ==> IsNameChar(Join(labels)[i])
  {
    if |labels| > 1 {
      JoinedBytes(labels[1..]);
    }
  }

  //--- lower case --------------------------------------------------------------------------------

  function LowerChar(c: char): char {
    if 'A' <= c <= 'Z' then c + ' ' else c
  }

  /** `to_ascii_lowercase`. */
  function Lower(s: string): (r: string)
    ensures |r| == |s|
    ensures forall i :: 0 <= i < |s| ==> r[i] == LowerChar(s[i])
  {
    seq(|s|, i requires 0 <= i < |s| => LowerChar(s[i]))
  }

  const CAPITALS := "ABCDEFGHIJKLMNOPQRSTUVWXYZ"
  const SMALL := "abcdefghijklmnopqrstuvwxyz"

  /** Letters become small ones, and nothing else changes. */
  lemma LowersLetters(c: char)
    ensures forall i :: 0 <= i < 26 ==> LowerChar(CAPITALS[i]) == SMALL[i]
    ensures c !in CAPITALS ==> LowerChar(c) == c
  {
    forall i | 0 <= i < 26 ensures CAPITALS[i] == 'A' + i as char && SMALL[i] == 'a' + i as char {
    }
    if 'A' <= c <= 'Z' {
      assert CAPITALS[(c - 'A') as int] == c;
    }
  }

  lemma LowerTwice(s: string)
    ensures Lower(Lower(s)) == Lower(s)
  {
  }

  lemma LowerCons(c: char, rest: string)
    ensures Lower([c] + rest) == [LowerChar(c)] + Lower(rest)
  {
  }

  lemma {:induction false} SplitLower(s: string)
    ensures |Split(Lower(s))| == |Split(s)|
    ensures forall i :: 0 <= i < |Split(s)| ==> Split(Lower(s))[i] == Lower(Split(s)[i])
  {
    if s == [] {
      assert Lower(s) == [];
    } else {
      SplitLower(s[1..]);
      var rest := Split(s[1..]);
      assert Lower(s)[0] == LowerChar(s[0]) && Lower(s)[1..] == Lower(s[1..]);
      LowerCons(s[0], rest[0]);
      if s[0] == '.' {
        assert Split(s) == [[]] + rest && Split(Lower(s)) == [[]] + Split(Lower(s[1..]));
      } else {
        assert Split(s) == [[s[0]] + rest[0]] + rest[1..];
        assert Split(Lower(s)) == [[LowerChar(s[0])] + Split(Lower(s[1..]))[0]] + Split(Lower(s[1..]))[1..];
      }
    }
  }

  lemma {:induction false} LowerKeepsLabels(labels: seq<string>, lowered: seq<string>)
    requires |lowered| == |labels| && forall i :: 0 <= i < |labels| ==> lowered[i] == Lower(labels[i])
    ensures CheckLabels(lowered) == CheckLabels(labels)
  {
    if labels != [] {
      LowerKeepsLabels(labels[1..], lowered[1..]);
      assert CheckLabel(lowered[0]) == CheckLabel(labels[0]);
    }
  }

  /** Lower case keeps a valid name valid, and an invalid one invalid. */
  lemma LowerKeepsValid(s: string)
    ensures ValidateHostname(Lower(s)).Name? <==> ValidateHostname(s).Name?
    ensures ValidateHostname(s).Name? ==> ValidateHostname(Lower(s)) == Name(Lower(s))
  {
    SplitLower(s);
    LowerKeepsLabels(Split(s), Split(Lower(s)));
    assert forall i :: 0 <= i < |s| ==> (IsNameChar(Lower(s)[i]) <==> IsNameChar(s[i]));
    assert FirstInvalid(Lower(s)) == |s| <==> FirstInvalid(s) == |s|;
  }
}
