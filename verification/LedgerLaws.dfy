/**
 What the operations on decisions promise, in the words of the code (src/director/executor.ts:
 68-202, 403-475, 493-623, src/director/dedup.ts:32-112, src/director/tick.ts:410-487), and
 whose edits an approved side effect bears.
 */
module LedgerLaws {
  import opened Wrappers
  import opened DecisionPolicy
  import opened DecisionKeys
  import opened DecisionLedger

  // ---------------------------------------------------------------- recording

  // Pending or executed within the last seven days.
  ghost predicate Conflicts(r: Row, key: string, clock: int) {
    r.key == Some(key) && (r.outcome == Pending || r.outcome == Executed) && r.ts > clock - 7 * 24 * 3600
  }

  // A proposal becomes a row of its own, skipped when such a row has its key, and otherwise
  // pending and in the hands of the tick.
  lemma RecordedDecision(s: State, p: Proposal, cost: real, director: Director)
    ensures var after, key := RecordOne(s, p, cost, director), Key(p.kind, p.payload);
            var dup := key.Some? && exists i :: 0 <= i < |s.rows| && Conflicts(s.rows[i], key.value, s.clock);
            && after == s.(rows := after.rows, held := after.held)
            && |after.rows| == |s.rows| + 1 && after.rows[..|s.rows|] == s.rows
            && (var row := after.rows[|s.rows|];
                && row.ts == s.clock && row.kind == p.kind && row.payload == p.payload && row.proposed == p.payload
                && row.key == key && row.cost == cost && row.outcome == if dup then Skipped else Pending)
            && after.held == if dup then s.held else s.held[|s.rows| := director]
  {
    var key := Key(p.kind, p.payload);
    if IsDuplicate(s.rows, key, s.clock) {
      var i :| 0 <= i < |s.rows| && s.rows[i].key == key && Living(s.rows[i]) && s.rows[i].ts > s.clock - WEEK;
      assert Conflicts(s.rows[i], key.value, s.clock);
    }
  }

  // ----------------------------------------------------------------- executing

  // What the operator has not allowed.
  predicate Forbidden(kind: Kind, a: Authority) {
    || (kind == CreateIssue && !a.createIssues)
    || (kind in {CommentOnIssue, CommentOnPr} && !a.comment)
    || (kind in {LabelIssue, LabelPr} && !a.labels)
    || (kind == CloseIssue && !a.closeIssues)
    || (kind == ApprovePr && !a.approvePr)
    || (kind == MergePr && !a.merge)
    || (kind == AmendCharter && !a.modifyCharter)
  }

  // What a human has to see first: the charter always, and what touches the repo unless the
  // mode is full_auto, or semi_auto and it is no merge.
  predicate AsksFirst(kind: Kind, mode: Mode) {
    || kind == AmendCharter
    || (kind !in {NoOp, AskUser, RememberPreference} && mode != FullAuto && !(mode == SemiAuto && kind != MergePr))
  }

  // Executing a decision settles it as dry_run, skipped or pending, in this order, and otherwise
  // starts its side effect, unapproved and with what was proposed; it is no longer held.
  lemma ExecutedDecision(s: State, id: nat)
    requires id in s.held && id < |s.rows|
    ensures var after, row, director := Step(s, ExecuteHeld(id)), s.rows[id], s.held[id];
            && after == s.(rows := after.rows, held := s.held - {id}, flights := after.flights, starts := after.starts)
            && (if director.mode == DryRunMode then Settled(s, after, id, DryRun)
                else if Forbidden(row.kind, director.authority) then Settled(s, after, id, Skipped)
                else if AsksFirst(row.kind, director.mode) then Settled(s, after, id, Pending)
                else && after.rows == s.rows && after.starts == s.starts + [id]
                     && after.flights == s.flights[|s.starts| := Flight(id, director, false, row.proposed, 0)])
  {
  }

  ghost predicate Settled(s: State, after: State, id: nat, outcome: Outcome)
    requires id < |s.rows|
  {
    && after.rows == s.rows[id := s.rows[id].(outcome := outcome)]
    && after.starts == s.starts && after.flights == s.flights
  }

  // ------------------------------------------------------------------ approving

  // What a human may change in a proposal.
  predicate Editable(kind: Kind, field: string) {
    || (kind == CreateIssue && field in {"title", "body", "labels", "priority"})
    || (kind in {CommentOnIssue, CommentOnPr, ApprovePr} && field == "body")
    || (kind in {LabelIssue, LabelPr} && field in {"add", "remove"})
    || (kind == CloseIssue && field == "reason")
    || (kind == MergePr && field == "strategy")
    || (kind == AskUser && field in {"question", "context"})
    || (kind == AmendCharter && field in {"proposed_changes", "rationale"})
    || (kind == RememberPreference && field in {"body", "kind"})
  }

  // The payload with the edits in it, and nothing else changed.
  ghost predicate Edited(kind: Kind, was: Payload, edits: Payload, payload: Payload) {
    && (forall f :: f in payload <==> f in was || (f in edits && Editable(kind, f)))
    && (forall f :: f in payload ==> payload[f] == if f in edits && Editable(kind, f) then edits[f] else was[f])
  }

  lemma MergedIsEdited(kind: Kind, was: Payload, edits: Payload)
    ensures Edited(kind, was, edits, Merged(kind, was, edits))
  {
    assert forall f :: f in EditableFields(kind) <==> Editable(kind, f);
  }

  // An approval of a pending decision of the repo stores the edits; then it is skipped when the
  // authority has been taken back, and otherwise run with exactly the stored payload, whatever
  // the mode is.  Of any other decision it changes nothing.
  lemma ApprovedDecision(s: State, id: nat, mine: bool, edits: Payload, director: Director)
    ensures var after := Step(s, Approve(id, mine, edits, director));
            if id < |s.rows| && s.rows[id].outcome == Pending && mine then
              var row, kind := s.rows[id], s.rows[id].kind;
              && after == s.(rows := after.rows, flights := after.flights, starts := after.starts)
              && |after.rows| == |s.rows| && (forall i :: 0 <= i < |s.rows| && i != id ==> after.rows[i] == s.rows[i])
              && Edited(kind, row.payload, edits, after.rows[id].payload)
              && after.rows[id] == row.(payload := after.rows[id].payload, outcome := after.rows[id].outcome)
              && (if Forbidden(kind, director.authority)
                  then after.rows[id].outcome == Skipped && after.flights == s.flights && after.starts == s.starts
                  else && after.rows[id].outcome == Pending && after.starts == s.starts + [id]
                       && after.flights
                          == s.flights[|s.starts| := Flight(id, director, true, after.rows[id].payload, 0)])
            else after == s
  {
    if id < |s.rows| { MergedIsEdited(s.rows[id].kind, s.rows[id].payload, edits); }
  }

  // ----------------------------------------------------------------- the side effect

  // One call to the forge for most kinds; labels are added and then removed, an issue is told
  // why and then closed; notes, questions and doing nothing stay inside.
  lemma CallsOfKinds()
    ensures CallsOf(CreateIssue) == [IssueCreated]
    ensures CallsOf(ApprovePr) == [PrApproved] && CallsOf(MergePr) == [PrMerged]
    ensures CallsOf(CommentOnIssue) == CallsOf(CommentOnPr) == [Commented]
    ensures CallsOf(LabelIssue) == CallsOf(LabelPr) == [LabelsAdded, LabelsRemoved]
    ensures CallsOf(CloseIssue) == [Commented, ItemClosed]
    ensures forall kind :: kind in {NoOp, AskUser, RememberPreference, AmendCharter} ==> CallsOf(kind) == []
  {
  }

  // The calls of one attempt bear the director, the approval and the payload of their run.
  ghost predicate Issued(s: State, after: State, f: Flight, calls: seq<Call>) {
    && |after.effects| == |s.effects| + |calls| && after.effects[..|s.effects|] == s.effects
    && forall i :: 0 <= i < |calls| ==>
                     after.effects[|s.effects| + i] == Effect(f.id, calls[i], f.director, f.approved, f.payload)
  }

  // A success makes all calls of the kind and reads executed; a failure makes the first of them
  // and is tried again while it is transient and no more than three retries are used up, and
  // otherwise reads failed.  Changing the charter is always refused.
  lemma AttemptedRun(s: State, k: nat, result: TryResult)
    requires k in s.flights && s.flights[k].id < |s.rows|
    ensures var after, f := Step(s, Attempt(k, result)), s.flights[k];
            var row := s.rows[f.id];
            && after == s.(rows := after.rows, flights := after.flights, tries := after.tries, effects := after.effects)
            && (if result.Succeeds? && row.kind != AmendCharter then
                  && Issued(s, after, f, CallsOf(row.kind)) && after.tries == s.tries + [Try(k, f.id, true)]
                  && after.flights == s.flights - {k} && after.rows == s.rows[f.id := row.(outcome := Executed)]
                else
                  var refused := row.kind == AmendCharter || result.Succeeds?;
                  var issued := if refused then 0 else Min(result.issued, |CallsOf(row.kind)|);
                  && Issued(s, after, f, CallsOf(row.kind)[..issued]) && after.tries == s.tries + [Try(k, f.id, false)]
                  && if row.kind != AmendCharter && result.transient && f.tries < 3
                     then && after.rows == s.rows && after.flights == s.flights[k := f.(tries := f.tries + 1)]
                     else && after.flights == s.flights - {k} && after.rows == s.rows[f.id := row.(outcome := Failed)])
  {
  }

  // A rejection of a pending decision of the repo is its outcome; pending ones older than seven
  // days expire; a crash forgets what was in hand; nothing else changes.
  lemma OtherEvents(s: State, id: nat, mine: bool, k: nat, seconds: nat)
    ensures Step(s, Reject(id, mine))
            == if id < |s.rows| && s.rows[id].outcome == Pending && mine
               then s.(rows := s.rows[id := s.rows[id].(outcome := Rejected)]) else s
    ensures var after := Step(s, Expire);
            && after == s.(rows := after.rows) && |after.rows| == |s.rows|
            && forall i :: 0 <= i < |s.rows| ==>
                             after.rows[i] == if s.rows[i].outcome == Pending && s.rows[i].ts < s.clock - 7 * 24 * 3600
                                              then s.rows[i].(outcome := Expired) else s.rows[i]
    ensures Step(s, Pass(seconds)) == s.(clock := s.clock + seconds)
    ensures k in s.flights ==>
              Step(s, LoseFlight(k)) == s.(flights := s.flights - {k}, losses := s.losses + [s.flights[k].id])
    ensures Step(s, LoseHeld(id)) == s.(held := s.held - {id})
  {
  }

  // --------------------------------------------------- whose edits a run bears

  // The approval of the run that started it: its director, and its edits of the payload that was
  // stored then.
  ghost predicate Bears(s: State, e: Event, id: nat, director: Director, payload: Payload) {
    && e.Approve? && e.approved == id && e.mine && e.director == director
    && id < |s.rows| && s.rows[id].outcome == Pending
    && Edited(s.rows[id].kind, s.rows[id].payload, e.overrides, payload)
  }

  ghost predicate Approved(es: seq<Event>, id: nat, director: Director, payload: Payload) {
    exists k :: 0 <= k < |es| && Bears(Run(EMPTY, es[..k]), es[k], id, director, payload)
  }

  lemma ApprovedStays(es: seq<Event>, e: Event, id: nat, director: Director, payload: Payload)
    requires Approved(es, id, director, payload)
    ensures Approved(es + [e], id, director, payload)
  {
    var k :| 0 <= k < |es| && Bears(Run(EMPTY, es[..k]), es[k], id, director, payload);
    assert (es + [e])[..k] == es[..k] && (es + [e])[k] == es[k];
  }

  ghost predicate AllApproved(es: seq<Event>, s: State) {
    && (forall k :: k in s.flights && s.flights[k].approved ==>
          Approved(es, s.flights[k].id, s.flights[k].director, s.flights[k].payload))
    && (forall i :: 0 <= i < |s.effects| && s.effects[i].approved ==>
          Approved(es, s.effects[i].id, s.effects[i].director, s.effects[i].payload))
  }

  // Flights and effects that were there before, or come from such a flight.
  ghost predicate Inherits(s: State, after: State) {
    && (forall k :: k in after.flights && after.flights[k].approved ==>
          exists j :: j in s.flights && s.flights[j].approved && SameRun(after.flights[k], s.flights[j]))
    && (forall i :: |s.effects| <= i < |after.effects| && after.effects[i].approved ==>
          exists j :: j in s.flights && s.flights[j].approved && OfRun(after.effects[i], s.flights[j]))
    && |s.effects| <= |after.effects| && after.effects[..|s.effects|] == s.effects
  }

  ghost predicate SameRun(f: Flight, g: Flight) {
    f.id == g.id && f.director == g.director && f.payload == g.payload
  }

  ghost predicate OfRun(e: Effect, f: Flight) {
    e.id == f.id && e.director == f.director && e.payload == f.payload
  }

  lemma InheritedAreApproved(es: seq<Event>, e: Event, s: State, after: State)
    requires AllApproved(es, s) && Inherits(s, after)
    ensures AllApproved(es + [e], after)
  {
    forall k | k in after.flights && after.flights[k].approved
      ensures Approved(es + [e], after.flights[k].id, after.flights[k].director, after.flights[k].payload)
    {
      var j :| j in s.flights && s.flights[j].approved && SameRun(after.flights[k], s.flights[j]);
      ApprovedStays(es, e, s.flights[j].id, s.flights[j].director, s.flights[j].payload);
    }
    forall i | 0 <= i < |after.effects| && after.effects[i].approved
      ensures Approved(es + [e], after.effects[i].id, after.effects[i].director, after.effects[i].payload)
    {
      if i < |s.effects| {
        assert after.effects[i] == s.effects[i];
        ApprovedStays(es, e, s.effects[i].id, s.effects[i].director, s.effects[i].payload);
      } else {
        var j :| j in s.flights && s.flights[j].approved && OfRun(after.effects[i], s.flights[j]);
        ApprovedStays(es, e, s.flights[j].id, s.flights[j].director, s.flights[j].payload);
      }
    }
  }

  lemma AttemptInherits(s: State, k: nat, result: TryResult)
    ensures Inherits(s, Step(s, Attempt(k, result)))
  {
    if k in s.flights && s.flights[k].id < |s.rows| {
      AttemptedRun(s, k, result);
      var after := Step(s, Attempt(k, result));
      forall i | |s.effects| <= i < |after.effects| && after.effects[i].approved
        ensures s.flights[k].approved && OfRun(after.effects[i], s.flights[k])
      {
        assert after.effects[|s.effects| + (i - |s.effects|)] == after.effects[i];
      }
      assert forall j :: j in after.flights ==> j in s.flights && SameRun(after.flights[j], s.flights[j]);
    } else {
      assert forall j :: j in s.flights ==> SameRun(s.flights[j], s.flights[j]);
    }
  }

  lemma {:induction false} RecordingInherits(s: State, ps: seq<Proposal>, costs: seq<real>, director: Director, n: nat)
    requires n <= |ps| == |costs|
    ensures var after := RecordAll(s, ps, costs, director, n); after.flights == s.flights && after.effects == s.effects
  {
    if n > 0 { RecordingInherits(s, ps, costs, director, n - 1); }
  }

  // Events other than approvals start no approved run.
  lemma OthersInherit(s: State, e: Event)
    requires !e.Approve?
    ensures Inherits(s, Step(s, e))
  {
    assert forall j :: j in s.flights ==> SameRun(s.flights[j], s.flights[j]);
    match e {
      case RecordTick(ps, cost, director) => RecordingInherits(s, ps, Slices(|ps|, cost), director, |ps|);
      case ExecuteHeld(id) => if id in s.held && id < |s.rows| { ExecutedDecision(s, id); }
      case Attempt(k, result) => AttemptInherits(s, k, result);
      case _ =>
    }
  }

  lemma ApprovalIsBorne(es: seq<Event>, s: State, e: Event)
    requires s == Run(EMPTY, es) && AllApproved(es, s) && e.Approve?
    ensures AllApproved(es + [e], Step(s, e))
  {
    var id, after := e.approved, Step(s, e);
    ApprovedDecision(s, id, e.mine, e.overrides, e.director);
    if after.starts == s.starts {
      assert forall j :: j in s.flights ==> SameRun(s.flights[j], s.flights[j]);
      InheritedAreApproved(es, e, s, after);
    } else {
      var k := |s.starts|;
      assert (es + [e])[..|es|] == es;
      assert Bears(Run(EMPTY, (es + [e])[..|es|]), (es + [e])[|es|], id, e.director, after.flights[k].payload);
      var without := after.(flights := map j | j in s.flights && j != k :: s.flights[j]);
      assert forall j :: j in without.flights ==> SameRun(without.flights[j], s.flights[j]);
      InheritedAreApproved(es, e, s, without);
      assert forall j :: j in after.flights && j != k ==>
                           j in without.flights && without.flights[j] == after.flights[j];
    }
  }

  lemma {:induction false} RunBearsEdits(es: seq<Event>)
    ensures AllApproved(es, Run(EMPTY, es))
  {
    if es != [] {
      var n := |es| - 1;
      var before := Run(EMPTY, es[..n]);
      RunBearsEdits(es[..n]);
      assert es == es[..n] + [es[n]];
      RunOneMore(EMPTY, es[..n], es[n]);
      if es[n].Approve? {
        ApprovalIsBorne(es[..n], before, es[n]);
      } else {
        OthersInherit(before, es[n]);
        InheritedAreApproved(es[..n], es[n], before, Step(before, es[n]));
      }
    }
  }

  // In every run: each approved call to the forge acts with the payload that the approval which
  // started it made of what was stored, edits and all, and by the director's word at that time.
  lemma EditsTheorem(es: seq<Event>, i: nat)
    requires i < |Run(EMPTY, es).effects| && Run(EMPTY, es).effects[i].approved
    ensures var e := Run(EMPTY, es).effects[i]; Approved(es, e.id, e.director, e.payload)
  {
    RunBearsEdits(es);
  }

  // ------------------------------------------------------------------------ keys

  // The text of a field, normalised, and the first paragraph of it.
  lemma FieldTexts(p: Payload, field: string)
    ensures field in p && p[field].Text? ==> Normal(p, field) == p[field].normal && Lead(p, field) == p[field].lead
    ensures field !in p || !p[field].Text? ==> Normal(p, field) == "" && Lead(p, field) == ""
  {
  }

  // A decision has a key unless it does nothing, asks or remembers.  The key of an issue is made
  // of its title and the first paragraph of its body; of a comment, of the number and the body;
  // of labels, of the number and the two lists; of a charter change, of the changes; and of the
  // others, of the number alone.
  lemma KeysOfKinds(kind: Kind, p: Payload)
    ensures Key(kind, p).None? <==> kind == NoOp || kind == AskUser || kind == RememberPreference
    ensures Subject(CreateIssue, p) == Normal(p, "title") + "|" + Lead(p, "body")
    ensures Subject(CommentOnIssue, p) == NumberText(p, "issue_number") + "|" + Normal(p, "body")
    ensures Subject(CommentOnPr, p) == NumberText(p, "pr_number") + "|" + Normal(p, "body")
    ensures Subject(LabelIssue, p) == NumberText(p, "issue_number") + "|" + Csv(p, "add") + "|" + Csv(p, "remove")
    ensures Subject(LabelPr, p) == NumberText(p, "pr_number") + "|" + Csv(p, "add") + "|" + Csv(p, "remove")
    ensures Subject(CloseIssue, p) == NumberText(p, "issue_number")
    ensures Subject(ApprovePr, p) == Subject(MergePr, p) == NumberText(p, "pr_number")
    ensures Subject(AmendCharter, p) == Normal(p, "proposed_changes")
  {
  }
}
