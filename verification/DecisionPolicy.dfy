/**
 What the Director may decide and under which mode and authority it may act
 (src/director/executor.ts, src/director/decision-schema.ts).
 */
module DecisionPolicy {
  datatype Kind =
    | NoOp | AskUser | RememberPreference
    | CreateIssue | CommentOnIssue | CommentOnPr | LabelIssue | LabelPr
    | CloseIssue | ApprovePr | MergePr | AmendCharter

  datatype Mode = Disabled | DryRunMode | Propose | SemiAuto | FullAuto

  datatype Authority = Authority(
    createIssues: bool,
    comment: bool,
    labels: bool,
    closeIssues: bool,
    approvePr: bool,
    merge: bool,
    modifyCharter: bool)

  datatype Director = Director(mode: Mode, authority: Authority)

  // authorityFor, as the complement of `gated`.
  predicate Allowed(kind: Kind, a: Authority) {
    match kind
    case CreateIssue => a.createIssues
    case CommentOnIssue => a.comment
    case CommentOnPr => a.comment
    case LabelIssue => a.labels
    case LabelPr => a.labels
    case CloseIssue => a.closeIssues
    case ApprovePr => a.approvePr
    case MergePr => a.merge
    case AmendCharter => a.modifyCharter
    case RememberPreference => true
    case AskUser => true
    case NoOp => true
  }

  predicate NeedsApproval(kind: Kind, mode: Mode) {
    if kind in {NoOp, AskUser, RememberPreference} then false
    else if kind == AmendCharter then true
    else
      match mode
      case Propose => true
      case SemiAuto => kind == MergePr
      case FullAuto => false
      case DryRunMode => true
      case Disabled => true
  }

  // ------------------------------------------------------------ side effects

  datatype Call = IssueCreated | Commented | LabelsAdded | LabelsRemoved | ItemClosed | PrApproved | PrMerged

  // The calls to the forge that one run of a decision makes, in order.
  function CallsOf(kind: Kind): seq<Call> {
    match kind
    case CreateIssue => [IssueCreated]
    case CommentOnIssue => [Commented]
    case CommentOnPr => [Commented]
    case LabelIssue => [LabelsAdded, LabelsRemoved]
    case LabelPr => [LabelsAdded, LabelsRemoved]
    case CloseIssue => [Commented, ItemClosed]
    case ApprovePr => [PrApproved]
    case MergePr => [PrMerged]
    case NoOp => []
    case AskUser => []
    case RememberPreference => []
    case AmendCharter => []
  }

  // The permission a call to the forge falls under.
  predicate Permits(a: Authority, call: Call) {
    match call
    case IssueCreated => a.createIssues
    case Commented => a.comment || a.closeIssues
    case LabelsAdded => a.labels
    case LabelsRemoved => a.labels
    case ItemClosed => a.closeIssues
    case PrApproved => a.approvePr
    case PrMerged => a.merge
  }

  lemma AllowedCallsArePermitted(kind: Kind, a: Authority, i: nat)
    requires Allowed(kind, a) && i < |CallsOf(kind)|
    ensures Permits(a, CallsOf(kind)[i])
  {
  }

  // ------------------------------------------------------ edit before approve

  datatype Value = Text(raw: string, normal: string, lead: string) | Number(n: nat) | Labels(items: seq<Value>)

  type Payload = map<string, Value>

  function EditableFields(kind: Kind): set<string> {
    match kind
    case CreateIssue => {"title", "body", "labels", "priority"}
    case CommentOnIssue => {"body"}
    case CommentOnPr => {"body"}
    case LabelIssue => {"add", "remove"}
    case LabelPr => {"add", "remove"}
    case CloseIssue => {"reason"}
    case ApprovePr => {"body"}
    case MergePr => {"strategy"}
    case AskUser => {"question", "context"}
    case AmendCharter => {"proposed_changes", "rationale"}
    case RememberPreference => {"body", "kind"}
    case NoOp => {}
  }

  function Merged(kind: Kind, original: Payload, overrides: Payload): Payload {
    original + map f | f in overrides && f in EditableFields(kind) :: overrides[f]
  }

  // The two payloads agree on everything a human may not edit.
  ghost predicate SameTarget(kind: Kind, p: Payload, q: Payload) {
    forall f :: f !in EditableFields(kind) ==> (f in p <==> f in q) && (f in p ==> p[f] == q[f])
  }

  // Exactly the overridden editable fields change, so the issue or PR acted on never does.
  lemma EditsKeepTarget(kind: Kind, original: Payload, overrides: Payload)
    ensures SameTarget(kind, original, Merged(kind, original, overrides))
    ensures forall f :: f in EditableFields(kind) && f in overrides ==>
                          f in Merged(kind, original, overrides) && Merged(kind, original, overrides)[f] == overrides[f]
    ensures "issue_number" !in EditableFields(kind) && "pr_number" !in EditableFields(kind)
  {
  }

  // Each edit starts from the stored payload, so any number of them keeps the target.
  lemma {:induction false} RepeatedEditsKeepTarget(kind: Kind, original: Payload, edits: seq<Payload>)
    ensures SameTarget(kind, original, MergedAll(kind, original, edits))
    decreases |edits|
  {
    if edits != [] {
      EditsKeepTarget(kind, original, edits[0]);
      RepeatedEditsKeepTarget(kind, Merged(kind, original, edits[0]), edits[1..]);
    }
  }

  function MergedAll(kind: Kind, original: Payload, edits: seq<Payload>): Payload
    decreases |edits|
  {
    if edits == [] then original else MergedAll(kind, Merged(kind, original, edits[0]), edits[1..])
  }
}
