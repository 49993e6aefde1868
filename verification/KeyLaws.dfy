/**
 Which decisions share a key (src/director/dedup.ts:46-92): never two kinds; labels whatever
 their order, repetition and letter case; and, for each kind, exactly the ones listed here.
 The separators are not escaped, so titles and bodies with a bar can collide.
 */
module KeyLaws {
  import opened DecisionPolicy
  import opened Numerals
  import opened DecisionKeys
  import opened TextOrder

  // Where the first separator stands.
  function CutAt(s: string, sep: char): nat {
    if s == [] || s[0] == sep then 0 else 1 + CutAt(s[1..], sep)
  }

  lemma {:induction false} CutLength(a: string, x: string, sep: char)
    requires sep !in a
    ensures CutAt(a + [sep] + x, sep) == |a|
  {
    if a == [] {
      assert (a + [sep] + x)[0] == sep;
    } else {
      CutLength(a[1..], x, sep);
      assert (a + [sep] + x)[0] == a[0] && (a + [sep] + x)[1..] == a[1..] + [sep] + x;
    }
  }

  lemma CutsAlike(a: string, b: string, x: string, y: string, sep: char)
    requires sep !in a && sep !in b
    requires a + [sep] + x == b + [sep] + y
    ensures a == b && x == y
  {
    var s := a + [sep] + x;
    CutLength(a, x, sep);
    CutLength(b, y, sep);
    assert s[..|a|] == a && s[..|b|] == b;
    assert s[|a| + 1..] == x && s[|b| + 1..] == y;
  }

  lemma NamesDiffer(k: Kind, l: Kind)
    requires Name(k) == Name(l)
    ensures k == l
  {
  }

  lemma KindsNeverCollide(k: Kind, l: Kind, p: Payload, q: Payload)
    requires Key(k, p).Some? && Key(k, p) == Key(l, q)
    ensures k == l && Subject(k, p) == Subject(l, q)
  {
    CutsAlike(Name(k), Name(l), Subject(k, p), Subject(l, q), '|');
    NamesDiffer(k, l);
  }

  // ------------------------------------------------------------------- order

  ghost predicate Ascending(list: seq<string>) {
    forall i, j :: 0 <= i < j < |list| ==> Before(list[i], list[j])
  }

  lemma {:induction false} InsertedIsAscending(list: seq<string>, x: string)
    requires Ascending(list)
    ensures Ascending(Inserted(list, x))
    ensures forall y :: y in Inserted(list, x) <==> y in list || y == x
  {
    if list != [] && list[0] != x {
      var rest := list[1..];
      assert list == [list[0]] + rest;
      if Before(x, list[0]) {
        forall j | 0 <= j < |list|
          ensures Before(x, list[j])
        {
          BeforeIsStrictOrder(x, list[0], list[j]);
        }
      } else {
        InsertedIsAscending(rest, x);
        var r := Inserted(rest, x);
        BeforeIsStrictOrder(x, list[0], x);
        forall j | 0 <= j < |r|
          ensures Before(list[0], r[j])
        {
          assert r[j] in r;
        }
      }
    }
  }

  // The labels a list stands for: its non-empty normal forms.
  ghost function LabelSet(items: seq<Value>): set<string> {
    set i | 0 <= i < |items| && items[i].Text? && items[i].normal != "" :: items[i].normal
  }

  lemma {:induction false} NormalsAreSorted(items: seq<Value>)
    ensures Ascending(SortedNormals(items))
    ensures forall y :: y in SortedNormals(items) <==> y in LabelSet(items)
  {
    if items != [] {
      var n := |items| - 1;
      NormalsAreSorted(items[..n]);
      var last := items[n];
      assert forall y :: y in LabelSet(items)
                         <==> y in LabelSet(items[..n]) || (last.Text? && last.normal != "" && y == last.normal);
      if last.Text? && last.normal != "" {
        InsertedIsAscending(SortedNormals(items[..n]), last.normal);
      }
    }
  }

  lemma TailMembers(list: seq<string>, y: string)
    requires Ascending(list) && list != []
    ensures y in list[1..] <==> y in list && y != list[0]
  {
    assert list == [list[0]] + list[1..];
    BeforeIsStrictOrder(list[0], list[0], list[0]);
    assert forall j :: 0 <= j < |list[1..]| ==> list[1..][j] == list[j + 1];
  }

  lemma HasMember(list: seq<string>)
    ensures list == [] || exists y :: y in list
  {
    if list != [] { assert list[0] in list; }
  }

  // A set has one ascending list.
  lemma {:induction false} AscendingIsUnique(a: seq<string>, b: seq<string>)
    requires Ascending(a) && Ascending(b)
    requires forall y :: y in a <==> y in b
    ensures a == b
  {
    if a == [] {
      HasMember(b);
    } else {
      assert a[0] in b && b != [] && b[0] in a;
      var i :| 0 <= i < |b| && b[i] == a[0];
      var j :| 0 <= j < |a| && a[j] == b[0];
      BeforeIsStrictOrder(a[0], b[0], a[0]);
      assert a[0] == b[0];
      forall y
        ensures y in a[1..] <==> y in b[1..]
      {
        TailMembers(a, y);
        TailMembers(b, y);
      }
      AscendingIsUnique(a[1..], b[1..]);
    }
  }

  // ---------------------------------------------------------------- csv laws

  lemma {:induction false} JoinedInjective(a: seq<string>, b: seq<string>)
    requires forall s :: s in a || s in b ==> s != "" && ',' !in s
    ensures Joined(a) == Joined(b) ==> a == b
  {
    if a != [] && b != [] {
      assert a[0] in a && b[0] in b;
      if |a| > 1 && |b| > 1 {
        if Joined(a) == Joined(b) {
          CutsAlike(a[0], b[0], Joined(a[1..]), Joined(b[1..]), ',');
          assert forall s :: s in a[1..] ==> s in a;
          assert forall s :: s in b[1..] ==> s in b;
          JoinedInjective(a[1..], b[1..]);
          assert a == [a[0]] + a[1..] && b == [b[0]] + b[1..];
        }
      } else if |a| > 1 {
        assert Joined(a)[|a[0]|] == ',';
        assert Joined(b) == b[0];
      } else if |b| > 1 {
        assert Joined(b)[|b[0]|] == ',';
        assert Joined(a) == a[0];
      }
    } else if a != [] {
      assert a[0] in a;
    } else if b != [] {
      assert b[0] in b;
    }
  }

  lemma {:induction false} JoinedAvoids(list: seq<string>, sep: char)
    requires sep != ','
    requires forall s :: s in list ==> sep !in s
    ensures sep !in Joined(list)
  {
    if list != [] {
      assert list[0] in list;
      JoinedAvoids(list[1..], sep);
    }
  }

  ghost predicate PlainLabels(p: Payload, field: string) {
    field in p && p[field].Labels? && forall s :: s in LabelSet(p[field].items) ==> ',' !in s && '|' !in s
  }

  ghost function LabelsOf(p: Payload, field: string): set<string> {
    if field in p && p[field].Labels? then LabelSet(p[field].items) else {}
  }

  // Order, repetition and normalisation do not matter; without commas nothing else is lost.
  lemma CsvIff(p: Payload, q: Payload, field: string)
    ensures LabelsOf(p, field) == LabelsOf(q, field) ==> Csv(p, field) == Csv(q, field)
    ensures PlainLabels(p, field) && PlainLabels(q, field) && Csv(p, field) == Csv(q, field)
            ==> LabelsOf(p, field) == LabelsOf(q, field)
    ensures PlainLabels(p, field) ==> '|' !in Csv(p, field)
  {
    var a := if field in p && p[field].Labels? then p[field].items else [];
    var b := if field in q && q[field].Labels? then q[field].items else [];
    NormalsAreSorted(a);
    NormalsAreSorted(b);
    if LabelsOf(p, field) == LabelsOf(q, field) {
      AscendingIsUnique(SortedNormals(a), SortedNormals(b));
    }
    if PlainLabels(p, field) {
      JoinedAvoids(SortedNormals(a), '|');
      if PlainLabels(q, field) {
        JoinedInjective(SortedNormals(a), SortedNormals(b));
        if Csv(p, field) == Csv(q, field) {
          assert forall y :: y in LabelSet(a) <==> y in LabelSet(b);
        }
      }
    }
  }

  // The commas are not escaped: two labels, and one label with a comma in its name.
  lemma CommasCollide()
    ensures var two: Payload := map["add" := Labels([Text("a", "a", "a"), Text("b", "b", "b")])];
            var one: Payload := map["add" := Labels([Text("a,b", "a,b", "a,b")])];
            Csv(two, "add") == Csv(one, "add") && LabelsOf(two, "add") != LabelsOf(one, "add")
  {
    var both := [Text("a", "a", "a"), Text("b", "b", "b")];
    assert both[..1] == [both[0]] && both[..1][..0] == [];
    assert SortedNormals(both[..1]) == ["a"];
    assert Inserted(["a"], "b") == ["a", "b"];
    assert Joined(["a", "b"]) == "a,b";
    assert both[0].normal in LabelSet(both);
  }

  // -------------------------------------------------------- keys, kind by kind

  predicate Numbered(p: Payload, field: string) {
    field in p && p[field].Number?
  }

  lemma NumberTextIff(p: Payload, q: Payload, field: string)
    requires Numbered(p, field) && Numbered(q, field)
    ensures NumberText(p, field) == NumberText(q, field) <==> p[field] == q[field]
    ensures '|' !in NumberText(p, field) && '|' !in NumberText(q, field)
  {
    DigitsAreDigits(p[field].n);
    DigitsAreDigits(q[field].n);
    if NumberText(p, field) == NumberText(q, field) {
      DigitsInjective(p[field].n, q[field].n);
    }
  }

  function NumberField(kind: Kind): string {
    if kind in {CommentOnIssue, LabelIssue, CloseIssue} then "issue_number" else "pr_number"
  }

  lemma CloseApproveMergeIff(kind: Kind, p: Payload, q: Payload)
    requires kind in {CloseIssue, ApprovePr, MergePr}
    requires Numbered(p, NumberField(kind)) && Numbered(q, NumberField(kind))
    ensures Key(kind, p) == Key(kind, q) <==> p[NumberField(kind)] == q[NumberField(kind)]
  {
    NumberTextIff(p, q, NumberField(kind));
    if Key(kind, p) == Key(kind, q) { KindsNeverCollide(kind, kind, p, q); }
  }

  lemma CommentIff(kind: Kind, p: Payload, q: Payload)
    requires kind in {CommentOnIssue, CommentOnPr}
    requires Numbered(p, NumberField(kind)) && Numbered(q, NumberField(kind))
    ensures Key(kind, p) == Key(kind, q)
            <==> p[NumberField(kind)] == q[NumberField(kind)] && Normal(p, "body") == Normal(q, "body")
  {
    NumberTextIff(p, q, NumberField(kind));
    if Key(kind, p) == Key(kind, q) {
      KindsNeverCollide(kind, kind, p, q);
      CutsAlike(NumberText(p, NumberField(kind)), NumberText(q, NumberField(kind)),
                Normal(p, "body"), Normal(q, "body"), '|');
    }
  }

  lemma CharterIff(p: Payload, q: Payload)
    ensures Key(AmendCharter, p) == Key(AmendCharter, q)
            <==> Normal(p, "proposed_changes") == Normal(q, "proposed_changes")
  {
    if Key(AmendCharter, p) == Key(AmendCharter, q) { KindsNeverCollide(AmendCharter, AmendCharter, p, q); }
  }

  lemma CutTwice(n: string, m: string, a: string, b: string, x: string, y: string)
    requires '|' !in n && '|' !in m && '|' !in a && '|' !in b
    requires n + "|" + a + "|" + x == m + "|" + b + "|" + y
    ensures n == m && a == b && x == y
  {
    var restA, restB := a + "|" + x, b + "|" + y;
    assert n + "|" + a + "|" + x == n + ['|'] + restA;
    assert m + "|" + b + "|" + y == m + ['|'] + restB;
    CutsAlike(n, m, restA, restB, '|');
    CutsAlike(a, b, x, y, '|');
  }

  // Among labels with neither commas nor bars.
  lemma PlainLabelsIff(kind: Kind, p: Payload, q: Payload)
    requires kind in {LabelIssue, LabelPr}
    requires Numbered(p, NumberField(kind)) && Numbered(q, NumberField(kind))
    requires PlainLabels(p, "add") && PlainLabels(q, "add") && PlainLabels(p, "remove") && PlainLabels(q, "remove")
    ensures Key(kind, p) == Key(kind, q)
            <==> && p[NumberField(kind)] == q[NumberField(kind)]
                 && LabelsOf(p, "add") == LabelsOf(q, "add")
                 && LabelsOf(p, "remove") == LabelsOf(q, "remove")
  {
    var field := NumberField(kind);
    NumberTextIff(p, q, field);
    CsvIff(p, q, "add");
    CsvIff(q, p, "add");
    CsvIff(p, q, "remove");
    if Key(kind, p) == Key(kind, q) {
      KindsNeverCollide(kind, kind, p, q);
      CutTwice(NumberText(p, field), NumberText(q, field),
               Csv(p, "add"), Csv(q, "add"), Csv(p, "remove"), Csv(q, "remove"));
    }
  }

  function Issue(title: string, lead: string): Payload {
    map["title" := Text(title, title, title), "body" := Text(lead, lead, lead)]
  }

  lemma IssueKeyIff(t: string, l: string, title: string, lead: string)
    ensures SameIssueKey(t, l, title, lead) <==> t + "|" + l == title + "|" + lead
  {
    if SameIssueKey(t, l, title, lead) {
      KindsNeverCollide(CreateIssue, CreateIssue, Issue(t, l), Issue(title, lead));
    }
  }

  predicate SameIssueKey(t: string, l: string, title: string, lead: string) {
    Key(CreateIssue, Issue(t, l)) == Key(CreateIssue, Issue(title, lead))
  }

  // The class [\s.!?,;:\u2014\u2013-] of characters that normaliseText strips from the end.
  predicate Stripped(c: char) {
    c in " .!?,;:-\U{2013}\U{2014}"
  }

  // What normaliseText yields: white space is single spaces, none of them in front, and nothing
  // that it strips stands at the end.  Letter case does not matter here, as the texts that share
  // a key are cut from one string.
  predicate NormalForm(s: string) {
    && (s != [] ==> s[0] != ' ' && !Stripped(s[|s| - 1]))
    && (forall i :: 0 <= i < |s| ==> s[i] !in "\t\n\r")
    && (forall i :: 0 < i < |s| ==> s[i] != ' ' || s[i - 1] != ' ')
  }

  // A bar with normal forms, or nothing, on both of its sides.
  predicate FreeBar(s: string, i: int) {
    && 0 <= i < |s| && s[i] == '|'
    && (i == 0 || !Stripped(s[i - 1]))
    && (i == |s| - 1 || s[i + 1] != ' ')
  }

  ghost predicate HasFreeBar(s: string) {
    exists i :: FreeBar(s, i)
  }

  // An issue proposal is told apart from every one with another title exactly when neither its
  // title nor its first paragraph has a free bar.
  lemma CreateIssueIff(title: string, lead: string)
    requires NormalForm(title) && NormalForm(lead)
    ensures (forall t: string, l: string :: NormalForm(t) && NormalForm(l) && SameIssueKey(t, l, title, lead) ==>
            t == title)
            <==> !HasFreeBar(title) && !HasFreeBar(lead)
  {
    if HasFreeBar(title) {
      var i :| FreeBar(title, i);
      TitleSplits(title, lead, i);
    } else if HasFreeBar(lead) {
      var i :| FreeBar(lead, i);
      LeadSplits(title, lead, i);
    } else {
      forall t: string, l: string | NormalForm(t) && NormalForm(l) && SameIssueKey(t, l, title, lead)
        ensures t == title
      {
        IssueKeyIff(t, l, title, lead);
        OneCut(t, l, title, lead);
      }
    }
  }

  lemma OneCut(t: string, l: string, title: string, lead: string)
    requires NormalForm(t) && NormalForm(l) && t + "|" + l == title + "|" + lead
    requires !HasFreeBar(title) && !HasFreeBar(lead)
    ensures t == title
  {
    if |t| < |title| {
      CutIsFree(t, l, title, lead);
    } else if |t| > |title| {
      BarInLead(t, l, title, lead);
    } else {
      assert (t + "|" + l)[..|t|] == t && (title + "|" + lead)[..|title|] == title;
    }
  }

  lemma TitleSplits(title: string, lead: string, i: int)
    requires NormalForm(title) && NormalForm(lead) && FreeBar(title, i)
    ensures var t, l := title[..i], title[i + 1..] + "|" + lead;
            NormalForm(t) && NormalForm(l) && SameIssueKey(t, l, title, lead) && t != title
  {
    PartsAreNormal(title, i);
    AroundABar(title[i + 1..], lead);
    assert title == title[..i] + "|" + title[i + 1..];
    Rejoined(title[..i], title[i + 1..], lead);
  }

  lemma LeadSplits(title: string, lead: string, i: int)
    requires NormalForm(title) && NormalForm(lead) && FreeBar(lead, i)
    ensures var t, l := title + "|" + lead[..i], lead[i + 1..];
            NormalForm(t) && NormalForm(l) && SameIssueKey(t, l, title, lead) && t != title
  {
    PartsAreNormal(lead, i);
    AroundABar(title, lead[..i]);
    assert lead == lead[..i] + "|" + lead[i + 1..];
    Rejoined(title, lead[..i], lead[i + 1..]);
  }

  lemma PartsAreNormal(s: string, i: int)
    requires NormalForm(s) && FreeBar(s, i)
    ensures NormalForm(s[..i]) && NormalForm(s[i + 1..])
  {
    var a, b := s[..i], s[i + 1..];
    if b != [] { assert b[0] == s[i + 1] && b[|b| - 1] == s[|s| - 1]; }
    assert forall k :: 0 <= k < |b| ==> b[k] == s[i + 1 + k];
  }

  lemma Rejoined(a: string, b: string, c: string)
    ensures SameIssueKey(a, b + "|" + c, a + "|" + b, c)
  {
    assert a + "|" + (b + "|" + c) == (a + "|" + b) + "|" + c;
    IssueKeyIff(a, b + "|" + c, a + "|" + b, c);
  }

  lemma AroundABar(a: string, b: string)
    requires NormalForm(a) && NormalForm(b)
    ensures NormalForm(a + "|" + b)
  {
  }

  // Of two ways to cut one subject, the shorter title ends at a free bar of the longer one.
  lemma CutIsFree(t: string, l: string, title: string, lead: string)
    requires NormalForm(t) && NormalForm(l) && |t| < |title|
    requires t + "|" + l == title + "|" + lead
    ensures FreeBar(title, |t|)
  {
    var s, i := title + "|" + lead, |t|;
    assert s[i] == '|' && s[i] == title[i];
    if i > 0 { assert s[i - 1] == t[i - 1] && s[i - 1] == title[i - 1]; }
    if i < |title| - 1 { assert s[i + 1] == l[0] && s[i + 1] == title[i + 1]; }
  }

  // And the longer one ends at a free bar of the other paragraph.
  lemma BarInLead(t: string, l: string, title: string, lead: string)
    requires NormalForm(t) && NormalForm(l) && |t| > |title|
    requires t + "|" + l == title + "|" + lead
    ensures FreeBar(lead, |t| - |title| - 1)
  {
    var s, k := t + "|" + l, |title| + 1;
    var i := |t| - k;
    assert s[|t|] == '|' && s[|t|] == lead[i];
    if i > 0 { assert s[|t| - 1] == t[|t| - 1] && s[|t| - 1] == lead[i - 1]; }
    if i < |lead| - 1 { assert s[|t| + 1] == l[0] && s[|t| + 1] == lead[i + 1]; }
  }

  // Any three normalised texts make two different issues with one key.
  lemma AnyBarCollides(a: string, b: string, c: string)
    requires NormalForm(a) && NormalForm(b) && NormalForm(c)
    ensures NormalForm(b + "|" + c) && NormalForm(a + "|" + b) && SameIssueKey(a, b + "|" + c, a + "|" + b, c)
  {
    Rejoined(a, b, c);
    AroundABar(a, b);
    AroundABar(b, c);
  }

  // Two different issues with one key; and a bar between spaces, which does no harm.
  lemma BarsCollide(t: string, l: string, title: string, lead: string)
    requires t == "alpha" && l == "beta|gamma" && title == "alpha|beta" && lead == "gamma"
    ensures NormalForm(t) && NormalForm(l) && NormalForm(title) && NormalForm(lead)
    ensures SameIssueKey(t, l, title, lead)
  {
    var beta := l[..4];
    assert l == beta + "|" + lead;
    assert title == t + "|" + beta;
    AnyBarCollides(t, beta, lead);
  }

  lemma HarmlessBar(t: string, l: string)
    requires NormalForm(t) && NormalForm(l) && SameIssueKey(t, l, "foo | bar", "x")
    ensures t == "foo | bar"
  {
    assert !HasFreeBar("foo | bar") && !HasFreeBar("x");
    CreateIssueIff("foo | bar", "x");
  }
}
