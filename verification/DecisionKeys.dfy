/**
 The canonical string of a decision, whose hash is stored with it and looked up before a new
 one is let through (src/director/dedup.ts:52-92).

 Text normalisation is regular-expression work and stays a given of each text value: its
 normal form, and the normal form of its first paragraph.  The stored hash is taken to be
 injective, so the string itself serves as the key.
 */
module DecisionKeys {
  import opened Wrappers
  import opened DecisionPolicy
  import opened Numerals
  import opened TextOrder

  // normaliseText and firstParagraph of whatever the field holds; anything but text is empty.
  function Normal(p: Payload, field: string): string {
    if field in p && p[field].Text? then p[field].normal else ""
  }

  function Lead(p: Payload, field: string): string {
    if field in p && p[field].Text? then p[field].lead else ""
  }

  // `${p.issue_number ?? ""}`
  function NumberText(p: Payload, field: string): string {
    if field in p && p[field].Number? then Digits(p[field].n) else ""
  }

  // -------------------------------------------------------------------- csv

  // Inserts into a sorted list without repetition.
  function Inserted(list: seq<string>, x: string): seq<string> {
    if list == [] then [x]
    else if list[0] == x then list
    else if Before(x, list[0]) then [x] + list
    else [list[0]] + Inserted(list[1..], x)
  }

  function SortedNormals(items: seq<Value>): seq<string> {
    if items == [] then []
    else
      var rest := SortedNormals(items[..|items| - 1]);
      var last := items[|items| - 1];
      if last.Text? && last.normal != "" then Inserted(rest, last.normal) else rest
  }

  function Joined(list: seq<string>): string {
    if list == [] then ""
    else if |list| == 1 then list[0]
    else list[0] + "," + Joined(list[1..])
  }

  function Csv(p: Payload, field: string): string {
    if field in p && p[field].Labels? then Joined(SortedNormals(p[field].items)) else ""
  }

  // --------------------------------------------------------------------- key

  function Name(kind: Kind): string {
    match kind
    case NoOp => "no_op"
    case AskUser => "ask_user"
    case RememberPreference => "remember_preference"
    case CreateIssue => "create_issue"
    case CommentOnIssue => "comment_on_issue"
    case CommentOnPr => "comment_on_pr"
    case LabelIssue => "label_issue"
    case LabelPr => "label_pr"
    case CloseIssue => "close_issue"
    case ApprovePr => "approve_pr"
    case MergePr => "merge_pr"
    case AmendCharter => "amend_charter"
  }

  // Asking, doing nothing and remembering are not deduplicated.
  predicate Keyed(kind: Kind) {
    kind !in {NoOp, AskUser, RememberPreference}
  }

  function Subject(kind: Kind, p: Payload): string {
    match kind
    case CreateIssue => Normal(p, "title") + "|" + Lead(p, "body")
    case CommentOnIssue => NumberText(p, "issue_number") + "|" + Normal(p, "body")
    case CommentOnPr => NumberText(p, "pr_number") + "|" + Normal(p, "body")
    case LabelIssue => NumberText(p, "issue_number") + "|" + Csv(p, "add") + "|" + Csv(p, "remove")
    case LabelPr => NumberText(p, "pr_number") + "|" + Csv(p, "add") + "|" + Csv(p, "remove")
    case CloseIssue => NumberText(p, "issue_number")
    case ApprovePr => NumberText(p, "pr_number")
    case MergePr => NumberText(p, "pr_number")
    case AmendCharter => Normal(p, "proposed_changes")
    case _ => ""
  }

  function Key(kind: Kind, p: Payload): Option<string> {
    if Keyed(kind) then Some(Name(kind) + "|" + Subject(kind, p)) else None
  }
}
