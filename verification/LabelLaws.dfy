/**
 Which label decisions are told apart from all others (src/director/dedup.ts:47-50, 65-68).
 Neither the comma between labels nor the bar between the two lists is escaped, so a list of
 two labels has the key of the one label that is its text.
 */
module LabelLaws {
  import opened DecisionPolicy
  import opened DecisionKeys
  import opened TextOrder
  import opened KeyLaws

  // Sorted, without repetition, and of texts that normaliseText yields.
  ghost predicate LabelList(list: seq<string>) {
    Ascending(list) && forall i :: 0 <= i < |list| ==> list[i] != "" && NormalForm(list[i])
  }

  // A comma that may as well separate two labels of a sorted list.
  predicate FreeComma(s: string, i: int) {
    0 < i < |s| - 1 && s[i] == ',' && !Stripped(s[i - 1]) && s[i + 1] != ' ' && Before(s[..i], s[i + 1..])
  }

  ghost predicate HasFreeComma(s: string) {
    exists i :: FreeComma(s, i)
  }

  ghost predicate Lone(list: seq<string>) {
    list == [] || (|list| == 1 && !HasFreeComma(list[0]))
  }

  // ---------------------------------------------------------------- one list

  lemma AroundAComma(a: string, b: string)
    requires NormalForm(a) && NormalForm(b) && a != "" && b != ""
    ensures NormalForm(a + "," + b)
  {
  }

  lemma {:induction false} JoinedIsNormal(list: seq<string>)
    requires LabelList(list)
    ensures NormalForm(Joined(list)) && (list != [] ==> Joined(list) != "" && Joined(list)[0] == list[0][0])
  {
    if |list| > 1 {
      TailIsList(list);
      JoinedIsNormal(list[1..]);
      AroundAComma(list[0], Joined(list[1..]));
    }
  }

  lemma TailIsList(list: seq<string>)
    requires LabelList(list) && list != []
    ensures LabelList(list[1..])
  {
  }

  lemma {:induction false} BeforeLonger(a: string, b: string, x: string)
    requires Before(a, b)
    ensures Before(a, b + x)
  {
    if a != [] && a[0] == b[0] {
      BeforeLonger(a[1..], b[1..], x);
      assert (b + x)[1..] == b[1..] + x;
    }
  }

  lemma HeadBeforeRest(list: seq<string>)
    requires LabelList(list) && |list| > 1
    ensures Before(list[0], Joined(list[1..]))
  {
    if |list| > 2 {
      BeforeLonger(list[0], list[1], "," + Joined(list[1..][1..]));
      assert Joined(list[1..]) == list[1] + ("," + Joined(list[1..][1..]));
    }
  }

  // The text of a longer list has a free comma where its first label ends.
  lemma CommaIsFree(list: seq<string>)
    requires LabelList(list) && |list| > 1
    ensures FreeComma(Joined(list), |list[0]|)
  {
    var rest, s, i := Joined(list[1..]), Joined(list), |list[0]|;
    TailIsList(list);
    JoinedIsNormal(list[1..]);
    HeadBeforeRest(list);
    assert s == list[0] + "," + rest;
    assert s[..i] == list[0] && s[i + 1..] == rest;
    assert s[i - 1] == list[0][i - 1];
  }

  // And a free comma cuts a label into a list of two.
  lemma CommaCuts(s: string, i: int)
    requires NormalForm(s) && FreeComma(s, i)
    ensures LabelList([s[..i], s[i + 1..]]) && Joined([s[..i], s[i + 1..]]) == s
  {
    var a, b := s[..i], s[i + 1..];
    assert b[0] == s[i + 1] && b[|b| - 1] == s[|s| - 1];
    assert forall k :: 0 <= k < |b| ==> b[k] == s[i + 1 + k];
    assert NormalForm(a) && NormalForm(b);
    assert [a, b][1..] == [b];
    assert a + "," + b == s;
  }

  lemma SingletonIsList(s: string)
    requires NormalForm(s)
    ensures LabelList(Single(s)) && Joined(Single(s)) == s
  {
  }

  function Single(s: string): seq<string> {
    if s == "" then [] else [s]
  }

  ghost predicate OnlyListOf(a: seq<string>) {
    forall b: seq<string> :: LabelList(b) && Joined(b) == Joined(a) ==> b == a
  }

  // A list is the only one with its text exactly when it has one label at most, without a
  // free comma.
  lemma CsvUniqueIff(a: seq<string>)
    requires LabelList(a)
    ensures OnlyListOf(a) <==> Lone(a)
  {
    JoinedIsNormal(a);
    if Lone(a) {
      forall b: seq<string> | LabelList(b) && Joined(b) == Joined(a)
        ensures b == a
      {
        JoinedIsNormal(b);
        if |b| > 1 { CommaIsFree(b); }
      }
    } else if |a| > 1 {
      SingletonIsList(Joined(a));
      assert Single(Joined(a)) != a;
    } else {
      var i :| FreeComma(a[0], i);
      CommaCuts(a[0], i);
      assert [a[0][..i], a[0][i + 1..]] != a;
    }
  }

  // --------------------------------------------------------------- the decision

  // A label decision as the schema and the normal forms leave it.
  ghost predicate Proper(kind: Kind, p: Payload) {
    Numbered(p, NumberField(kind)) && NormalLabels(p, "add") && NormalLabels(p, "remove")
  }

  ghost predicate NormalLabels(p: Payload, field: string) {
    forall s :: s in LabelsOf(p, field) ==> NormalForm(s)
  }

  ghost predicate SameLabels(kind: Kind, p: Payload, q: Payload)
    requires Numbered(p, NumberField(kind)) && Numbered(q, NumberField(kind))
  {
    && p[NumberField(kind)] == q[NumberField(kind)]
    && LabelsOf(p, "add") == LabelsOf(q, "add") && LabelsOf(p, "remove") == LabelsOf(q, "remove")
  }

  ghost predicate ToldApart(kind: Kind, p: Payload)
    requires Numbered(p, NumberField(kind))
  {
    forall q: Payload :: Proper(kind, q) && Key(kind, q) == Key(kind, p) ==> SameLabels(kind, p, q)
  }

  // At most one label, with neither a free comma nor a free bar.
  ghost predicate Distinctive(labels: set<string>) {
    && (forall s, t :: s in labels && t in labels ==> s == t)
    && (forall s :: s in labels ==> !HasFreeComma(s) && !HasFreeBar(s))
  }

  // The sorted list of a payload's labels.
  function ListOf(p: Payload, field: string): seq<string> {
    if field in p && p[field].Labels? then SortedNormals(p[field].items) else []
  }

  lemma ListOfLabels(p: Payload, field: string)
    requires NormalLabels(p, field)
    ensures LabelList(ListOf(p, field)) && Csv(p, field) == Joined(ListOf(p, field))
    ensures forall y :: y in ListOf(p, field) <==> y in LabelsOf(p, field)
  {
    if field in p && p[field].Labels? { NormalsAreSorted(p[field].items); }
    var list := ListOf(p, field);
    assert forall i :: 0 <= i < |list| ==> list[i] in list;
  }

  function Values(list: seq<string>): seq<Value> {
    seq(|list|, i requires 0 <= i < |list| => Text(list[i], list[i], list[i]))
  }

  // The decision on the same item with these labels.
  function Relabelled(kind: Kind, p: Payload, add: seq<string>, remove: seq<string>): Payload
    requires NumberField(kind) in p
  {
    map[NumberField(kind) := p[NumberField(kind)], "add" := Labels(Values(add)), "remove" := Labels(Values(remove))]
  }

  lemma ValuesList(p: Payload, field: string, list: seq<string>)
    requires LabelList(list) && field in p && p[field] == Labels(Values(list))
    ensures NormalLabels(p, field) && ListOf(p, field) == list
  {
    var items := Values(list);
    assert forall y :: y in LabelSet(items) ==> y in list;
    forall y | y in list
      ensures y in LabelSet(items)
    {
      var i :| 0 <= i < |list| && list[i] == y;
      assert items[i].normal == y;
    }
    NormalsAreSorted(items);
    AscendingIsUnique(SortedNormals(items), list);
  }

  lemma LabelKeyIff(kind: Kind, p: Payload, q: Payload)
    requires kind in {LabelIssue, LabelPr} && Numbered(p, NumberField(kind)) && Numbered(q, NumberField(kind))
    ensures Key(kind, q) == Key(kind, p)
            <==> && q[NumberField(kind)] == p[NumberField(kind)]
                 && Csv(q, "add") + "|" + Csv(q, "remove") == Csv(p, "add") + "|" + Csv(p, "remove")
  {
    var field := NumberField(kind);
    NumberTextIff(q, p, field);
    SubjectText(kind, p);
    SubjectText(kind, q);
    if Key(kind, q) == Key(kind, p) {
      KindsNeverCollide(kind, kind, q, p);
      CutsAlike(NumberText(q, field), NumberText(p, field),
                Csv(q, "add") + "|" + Csv(q, "remove"), Csv(p, "add") + "|" + Csv(p, "remove"), '|');
    }
  }

  lemma SubjectText(kind: Kind, p: Payload)
    requires kind in {LabelIssue, LabelPr}
    ensures Subject(kind, p) == NumberText(p, NumberField(kind)) + ['|'] + (Csv(p, "add") + "|" + Csv(p, "remove"))
  {
  }

  // Another pair of lists with the same text is another decision with the same key.
  lemma RivalLists(kind: Kind, p: Payload, add: seq<string>, remove: seq<string>)
    requires kind in {LabelIssue, LabelPr} && Proper(kind, p) && LabelList(add) && LabelList(remove)
    requires Joined(add) + "|" + Joined(remove) == Csv(p, "add") + "|" + Csv(p, "remove")
    requires add != ListOf(p, "add") || remove != ListOf(p, "remove")
    ensures !ToldApart(kind, p)
  {
    var q := Relabelled(kind, p, add, remove);
    ValuesList(q, "add", add);
    ValuesList(q, "remove", remove);
    ListOfLabels(q, "add");
    ListOfLabels(q, "remove");
    LabelKeyIff(kind, p, q);
    assert Proper(kind, q) && Key(kind, q) == Key(kind, p);
    SameSetsSameLists(p, q, "add");
    SameSetsSameLists(p, q, "remove");
  }

  lemma SameSetsSameLists(p: Payload, q: Payload, field: string)
    requires NormalLabels(p, field) && NormalLabels(q, field)
    ensures LabelsOf(p, field) == LabelsOf(q, field) <==> ListOf(p, field) == ListOf(q, field)
  {
    ListOfLabels(p, field);
    ListOfLabels(q, field);
    if LabelsOf(p, field) == LabelsOf(q, field) {
      AscendingIsUnique(ListOf(p, field), ListOf(q, field));
    }
  }

  lemma DistinctiveIff(p: Payload, field: string)
    requires NormalLabels(p, field)
    ensures Distinctive(LabelsOf(p, field)) <==> Lone(ListOf(p, field)) && !HasFreeBar(Csv(p, field))
  {
    ListOfLabels(p, field);
    var list := ListOf(p, field);
    if |list| > 1 {
      assert list[0] in list && list[1] in list;
      BeforeIsStrictOrder(list[0], list[0], list[0]);
      assert Before(list[0], list[1]);
    } else if |list| == 1 {
      assert list[0] in list;
    }
  }

  // A label decision is told apart from all others, of its number and of any other, exactly when
  // it adds one label at most and removes one at most, without free commas and bars in them.
  lemma LabelIff(kind: Kind, p: Payload)
    requires kind in {LabelIssue, LabelPr} && Proper(kind, p)
    ensures ToldApart(kind, p) <==> Distinctive(LabelsOf(p, "add")) && Distinctive(LabelsOf(p, "remove"))
  {
    DistinctiveIff(p, "add");
    DistinctiveIff(p, "remove");
    if Distinctive(LabelsOf(p, "add")) && Distinctive(LabelsOf(p, "remove")) {
      forall q: Payload | Proper(kind, q) && Key(kind, q) == Key(kind, p)
        ensures SameLabels(kind, p, q)
      {
        OneLabelling(kind, p, q);
      }
    } else if !Lone(ListOf(p, "add")) {
      OtherList(kind, p, true);
    } else if !Lone(ListOf(p, "remove")) {
      OtherList(kind, p, false);
    } else {
      OtherCut(kind, p);
    }
  }

  lemma OneLabelling(kind: Kind, p: Payload, q: Payload)
    requires kind in {LabelIssue, LabelPr} && Proper(kind, p) && Proper(kind, q) && Key(kind, q) == Key(kind, p)
    requires Lone(ListOf(p, "add")) && !HasFreeBar(Csv(p, "add"))
    requires Lone(ListOf(p, "remove")) && !HasFreeBar(Csv(p, "remove"))
    ensures SameLabels(kind, p, q)
  {
    LabelKeyIff(kind, p, q);
    CsvIsNormal(p, "add");
    CsvIsNormal(p, "remove");
    CsvIsNormal(q, "add");
    CsvIsNormal(q, "remove");
    OneCut(Csv(q, "add"), Csv(q, "remove"), Csv(p, "add"), Csv(p, "remove"));
    CutTail(Csv(p, "add"), Csv(q, "remove"), Csv(p, "remove"));
    OneList(p, q, "add");
    OneList(p, q, "remove");
  }

  lemma CsvIsNormal(p: Payload, field: string)
    requires NormalLabels(p, field)
    ensures NormalForm(Csv(p, field))
  {
    ListOfLabels(p, field);
    JoinedIsNormal(ListOf(p, field));
  }

  lemma CutTail(t: string, l: string, m: string)
    requires t + "|" + l == t + "|" + m
    ensures l == m
  {
    assert (t + "|" + l)[|t| + 1..] == l && (t + "|" + m)[|t| + 1..] == m;
  }

  lemma OneList(p: Payload, q: Payload, field: string)
    requires NormalLabels(p, field) && NormalLabels(q, field) && Csv(q, field) == Csv(p, field)
    requires Lone(ListOf(p, field))
    ensures LabelsOf(p, field) == LabelsOf(q, field)
  {
    ListOfLabels(p, field);
    ListOfLabels(q, field);
    CsvUniqueIff(ListOf(p, field));
    SameSetsSameLists(p, q, field);
  }

  lemma OtherList(kind: Kind, p: Payload, adding: bool)
    requires kind in {LabelIssue, LabelPr} && Proper(kind, p)
    requires !Lone(ListOf(p, if adding then "add" else "remove"))
    ensures !ToldApart(kind, p)
  {
    ListOfLabels(p, "add");
    ListOfLabels(p, "remove");
    var list := ListOf(p, if adding then "add" else "remove");
    CsvUniqueIff(list);
    var other: seq<string> :| LabelList(other) && Joined(other) == Joined(list) && other != list;
    RivalLists(kind, p, if adding then other else ListOf(p, "add"), if adding then ListOf(p, "remove") else other);
  }

  lemma OtherCut(kind: Kind, p: Payload)
    requires kind in {LabelIssue, LabelPr} && Proper(kind, p)
    requires HasFreeBar(Csv(p, "add")) || HasFreeBar(Csv(p, "remove"))
    ensures !ToldApart(kind, p)
  {
    CsvIsNormal(p, "add");
    CsvIsNormal(p, "remove");
    var t, l := OtherPair(Csv(p, "add"), Csv(p, "remove"));
    SingletonIsList(t);
    SingletonIsList(l);
    ListOfLabels(p, "add");
    RivalLists(kind, p, Single(t), Single(l));
  }

  lemma OtherPair(a: string, r: string) returns (t: string, l: string)
    requires NormalForm(a) && NormalForm(r) && (HasFreeBar(a) || HasFreeBar(r))
    ensures NormalForm(t) && NormalForm(l) && t + "|" + l == a + "|" + r && t != a
  {
    if HasFreeBar(a) {
      var i :| FreeBar(a, i);
      t, l := a[..i], a[i + 1..] + "|" + r;
      PartsAreNormal(a, i);
      AroundABar(a[i + 1..], r);
      assert a == a[..i] + "|" + a[i + 1..];
    } else {
      var i :| FreeBar(r, i);
      t, l := a + "|" + r[..i], r[i + 1..];
      PartsAreNormal(r, i);
      AroundABar(a, r[..i]);
      assert r == r[..i] + "|" + r[i + 1..];
    }
  }
}
