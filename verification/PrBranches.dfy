/**
 The pr_branches table (src/storage/pr-branches.ts) of one repository.

 Rows are never deleted and ids grow, so the table is a sequence and a row's id is its
 index.  A row belongs to a task; tasks are named by their issue or PR number.
 */
module PrBranches {
  import opened Wrappers

  datatype RowStatus =
    | Created | Open | Closed | Errored | Dirty | NoChanges | GuardrailBlocked | NeedsHuman | Cancelled

  datatype Row = Row(
    task: nat,
    branch: string,
    pr: Option<nat>,
    status: RowStatus,
    iterations: nat,
    resolutions: nat)

  type Rows = seq<Row>

  // ---------------------------------------------------------------- lookups

  // The unique index on (task_id, branch).
  ghost predicate UniqueKeys(rows: Rows) {
    forall i, j :: 0 <= i < j < |rows| ==> rows[i].task != rows[j].task || rows[i].branch != rows[j].branch
  }

  function FindKey(rows: Rows, task: nat, branch: string): (at: Option<nat>)
    ensures at.Some? ==> at.value < |rows| && rows[at.value].task == task && rows[at.value].branch == branch
    ensures at.None? ==> forall i :: 0 <= i < |rows| ==> rows[i].task != task || rows[i].branch != branch
  {
    if rows == [] then None
    else
      var last := |rows| - 1;
      if rows[last].task == task && rows[last].branch == branch then Some(last)
      else FindKey(rows[..last], task, branch)
  }

  // ORDER BY id DESC LIMIT 1 over the rows of one task.
  function NewestOf(rows: Rows, task: nat): (at: Option<nat>)
    ensures at.Some? ==>
              && at.value < |rows| && rows[at.value].task == task
              && forall j :: at.value < j < |rows| ==> rows[j].task != task
    ensures at.None? ==> forall i :: 0 <= i < |rows| ==> rows[i].task != task
  {
    if rows == [] then None
    else
      var last := |rows| - 1;
      if rows[last].task == task then Some(last) else NewestOf(rows[..last], task)
  }

  // ORDER BY id DESC LIMIT 1 over the rows that carry one PR number.
  function NewestByPr(rows: Rows, pr: nat): (at: Option<nat>)
    ensures at.Some? ==>
              && at.value < |rows| && rows[at.value].pr == Some(pr)
              && forall j :: at.value < j < |rows| ==> rows[j].pr != Some(pr)
    ensures at.None? ==> forall i :: 0 <= i < |rows| ==> rows[i].pr != Some(pr)
  {
    if rows == [] then None
    else
      var last := |rows| - 1;
      if rows[last].pr == Some(pr) then Some(last) else NewestByPr(rows[..last], pr)
  }

  // COUNT(*) of the rows of a task, and of its closed ones, among the first n.
  function CountOf(rows: Rows, task: nat, n: nat): nat
    requires n <= |rows|
  {
    if n == 0 then 0 else CountOf(rows, task, n - 1) + if rows[n - 1].task == task then 1 else 0
  }

  function ClosedOf(rows: Rows, task: nat, n: nat): nat
    requires n <= |rows|
  {
    if n == 0 then 0
    else ClosedOf(rows, task, n - 1) + if rows[n - 1].task == task && rows[n - 1].status == Closed then 1 else 0
  }

  predicate HasActivePr(rows: Rows, task: nat) {
    exists i :: 0 <= i < |rows| && rows[i].task == task && rows[i].status in {Created, Open}
  }

  // ---------------------------------------------------------------- updates

  // The upsert: counters of an existing row survive, everything else is replaced.
  function Recorded(rows: Rows, task: nat, branch: string, pr: Option<nat>, status: RowStatus): Rows {
    match FindKey(rows, task, branch)
    case Some(i) => rows[i := rows[i].(pr := pr, status := status)]
    case None => rows + [Row(task, branch, pr, status, 0, 0)]
  }

  // The id of the row the upsert writes.
  function RecordedAt(rows: Rows, task: nat, branch: string): nat {
    match FindKey(rows, task, branch) case Some(i) => i case None => |rows|
  }

  // `after` is `rows` with one row written: an old one with this key, counters kept, or a new one.
  ghost predicate WritesOneRow(rows: Rows, after: Rows, at: nat, task: nat, branch: string, pr: Option<nat>,
      status: RowStatus) {
    && UniqueKeys(after)
    && at <= |rows|
    && |after| == (if at < |rows| then |rows| else |rows| + 1)
    && after[at] == (if at < |rows| then rows[at].(pr := pr, status := status) else Row(task, branch, pr, status, 0, 0))
    && after[at].task == task && after[at].branch == branch
    && forall i :: 0 <= i < |rows| && i != at ==> after[i] == rows[i]
  }

  lemma RecordWritesOneRow(rows: Rows, task: nat, branch: string, pr: Option<nat>, status: RowStatus)
    requires UniqueKeys(rows)
    ensures WritesOneRow(rows, Recorded(rows, task, branch, pr, status), RecordedAt(rows, task, branch), task, branch,
            pr, status)
  {
  }

  // Recording under a row's own key writes that row.
  lemma OwnKey(rows: Rows, row: nat)
    requires UniqueKeys(rows) && row < |rows|
    ensures RecordedAt(rows, rows[row].task, rows[row].branch) == row
  {
  }

  function Bumped(rows: Rows, id: nat): Rows {
    if id < |rows| then rows[id := rows[id].(iterations := rows[id].iterations + 1)] else rows
  }

  function BumpedResolutions(rows: Rows, id: nat): Rows {
    if id < |rows| then rows[id := rows[id].(resolutions := rows[id].resolutions + 1)] else rows
  }

  function ClosedRow(rows: Rows, id: nat): Rows {
    if id < |rows| then rows[id := rows[id].(status := Closed)] else rows
  }

  // UPDATE ... SET status = 'cancelled' WHERE task_id = ? AND status IN (from)
  function CancelledWhere(rows: Rows, task: nat, from: set<RowStatus>): (r: Rows)
    ensures |r| == |rows|
    ensures forall i :: 0 <= i < |rows| ==>
                          r[i] == if rows[i].task == task && rows[i].status in from
                              then rows[i].(status := Cancelled) else rows[i]
  {
    seq(|rows|, i requires 0 <= i < |rows| =>
      if rows[i].task == task && rows[i].status in from then rows[i].(status := Cancelled) else rows[i])
  }

  // Rows keep their place, owner, name, PR number and counters, and a closed row stays closed.
  ghost predicate OnlyStatusMoves(rows: Rows, after: Rows) {
    && |after| == |rows|
    && forall i :: 0 <= i < |rows| ==>
                     && after[i] == rows[i].(status := after[i].status)
                     && (rows[i].status == Closed ==> after[i].status == Closed)
  }

  lemma ClosingMovesStatus(rows: Rows, id: nat)
    ensures OnlyStatusMoves(rows, ClosedRow(rows, id))
  {
  }

  // The task is left with no row in those statuses, every row that moved was one of them, and
  // none moves a second time.
  ghost predicate Lifted(rows: Rows, after: Rows, task: nat, from: set<RowStatus>) {
    && OnlyStatusMoves(rows, after)
    && (forall i :: 0 <= i < |after| && after[i].task == task ==> after[i].status !in from)
    && (forall i :: 0 <= i < |rows| && after[i] != rows[i] ==>
          rows[i].task == task && rows[i].status in from && after[i].status == Cancelled)
  }

  lemma CancellingLifts(rows: Rows, task: nat, from: set<RowStatus>)
    requires Closed !in from && Cancelled !in from
    ensures var after := CancelledWhere(rows, task, from);
            && Lifted(rows, after, task, from)
            && CancelledWhere(after, task, from) == after
            && forall other: Rows :: Lifted(rows, other, task, from) ==> other == after
  {
    var after := CancelledWhere(rows, task, from);
    forall other: Rows | Lifted(rows, other, task, from)
      ensures other == after
    {
      assert forall i :: 0 <= i < |rows| ==> other[i] == after[i];
    }
  }

  // --------------------------------------------------------------- the table

  class PrBranchTable {
    var rows: Rows

    ghost predicate Valid()
      reads this
    {
      UniqueKeys(rows)
    }

    constructor ()
      ensures Valid() && rows == []
    {
      rows := [];
    }

    // `id` is that of the only row with this key; its counters are the old ones, or zero.
    method RecordPrBranch(task: nat, branch: string, pr: Option<nat>, status: RowStatus) returns (ghost id: nat)
      requires Valid()
      modifies this
      ensures Valid()
      ensures rows == Recorded(old(rows), task, branch, pr, status)
      ensures |old(rows)| <= |rows| <= |old(rows)| + 1 && id < |rows|
      ensures rows[id].task == task && rows[id].branch == branch && rows[id].pr == pr && rows[id].status == status
      ensures forall i :: 0 <= i < |rows| && rows[i].task == task && rows[i].branch == branch ==> i == id
      ensures if id < |old(rows)|
              then |rows| == |old(rows)| && rows[id].iterations == old(rows)[id].iterations
                   && rows[id].resolutions == old(rows)[id].resolutions
              else id == |old(rows)| && rows[id].iterations == rows[id].resolutions == 0
      ensures forall i :: 0 <= i < |old(rows)| && i != id ==> rows[i] == old(rows)[i]
    {
      match FindKey(rows, task, branch) {
        case Some(i) =>
          rows := rows[i := rows[i].(pr := pr, status := status)];
          id := i;
        case None =>
          id := |rows|;
          rows := rows + [Row(task, branch, pr, status, 0, 0)];
      }
    }

    method BumpIteration(id: nat)
      requires Valid()
      modifies this
      ensures Valid() && rows == Bumped(old(rows), id)
    {
      if id < |rows| {
        rows := rows[id := rows[id].(iterations := rows[id].iterations + 1)];
      }
    }

    method BumpConflictResolutions(id: nat)
      requires Valid()
      modifies this
      ensures Valid() && rows == BumpedResolutions(old(rows), id)
    {
      if id < |rows| {
        rows := rows[id := rows[id].(resolutions := rows[id].resolutions + 1)];
      }
    }

    method SetClosed(id: nat)
      requires Valid()
      modifies this
      ensures Valid() && rows == ClosedRow(old(rows), id)
    {
      if id < |rows| {
        rows := rows[id := rows[id].(status := Closed)];
      }
    }

    method LiftTransientPark(task: nat) returns (lifted: bool)
      requires Valid()
      modifies this
      ensures Valid() && Lifted(old(rows), rows, task, {Errored, Dirty})
      ensures rows == CancelledWhere(old(rows), task, {Errored, Dirty})
      ensures lifted <==> rows != old(rows)
    {
      lifted := exists i :: 0 <= i < |rows| && rows[i].task == task && rows[i].status in {Errored, Dirty};
      CancellingLifts(rows, task, {Errored, Dirty});
      rows := CancelledWhere(rows, task, {Errored, Dirty});
    }

    method CancelGuardrail(task: nat)
      requires Valid()
      modifies this
      ensures Valid() && Lifted(old(rows), rows, task, {GuardrailBlocked})
      ensures rows == CancelledWhere(old(rows), task, {GuardrailBlocked})
    {
      CancellingLifts(rows, task, {GuardrailBlocked});
      rows := CancelledWhere(rows, task, {GuardrailBlocked});
    }
  }
}
