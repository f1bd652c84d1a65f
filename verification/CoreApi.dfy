/** The API transactions that change run ownership: cancel, rollback requests and queue edits. */
module CoreApi {
  import opened Wrappers
  import opened RunState
  import opened Tables
  import opened EventLog
  import opened RunStore
  import opened CheckpointMutations

  /** `_cancel_row` with action interrupt: a leased run keeps its lease until its worker stops. */
  ghost function Cancel(s: State, r: RunId): Tx {
    if r !in s.runs || IsTerminal(s.runs[r].status) then Commit(s)
    else
      var run := s.runs[r];
      match Transit(run.status, Interrupted, CancelRequested, run.retryCount)
      case InvalidTransition => Abort(IllegalTransition)
      case Valid(status, why, _) =>
        Record(Cancelled(s, r, status, why), r, StatusNotice(Interrupted, "cancel_requested"))
  }

  function Cancelled(s: State, r: RunId, status: RunStatus, reason: RunReason): State
    requires r in s.runs
  {
    var row := s.runs[r].(status := status, reason := Some(reason), updatedAt := s.clock);
    if s.runs[r].status == Running then SetRun(s, r, row)
    else Unlease(s, r, row.(leaseOwner := None, leaseExpiresAt := None))
  }

  function Marked(s: State, r: RunId): State
    requires r in s.runs
  {
    SetRun(s, r, s.runs[r].(status := Interrupted, reason := Some(Rollback), updatedAt := s.clock))
  }

  /** `_cancel_row` with action rollback: immediate when nobody holds the lease, deferred otherwise. */
  function RequestRollback(s: State, r: RunId): Tx {
    if r !in s.runs then Commit(s)
    else if !MayRollback(s, r) then Abort(CheckpointConflict)
    else if s.runs[r].leaseOwner.None? then RollbackRun(s, r)
    else Commit(Marked(s, r))
  }

  /** `runs_cancel_many` with action rollback: all rows in one transaction, in the given order. */
  function RollbackMany(s: State, order: seq<RunId>): Tx
    decreases |order|
  {
    if order == [] then Commit(s)
    else
      match RequestRollback(s, order[0])
      case Abort(e) => Abort(e)
      case Commit(s1) => RollbackMany(s1, order[1..])
  }

  // ---- queue edits ----

  predicate Editable(run: Run, t: ThreadId) {
    run.thread == Some(t) && run.status == Pending && !run.resume
  }

  predicate Distinct(ids: seq<RunId>) {
    forall i, j :: 0 <= i < j < |ids| ==> ids[i] != ids[j]
  }

  predicate InQueueOrder(runs: map<RunId, Run>, ids: seq<RunId>) {
    && (forall i :: 0 <= i < |ids| ==> ids[i] in runs)
    && (forall i, j :: 0 <= i < j < |ids| ==> Before(ids[i], runs[ids[i]], ids[j], runs[ids[j]]))
  }

  /** The client's view of the queue is exactly the unclaimed messages in queue order. */
  predicate IsQueue(s: State, t: ThreadId, ids: seq<RunId>) {
    && Distinct(ids)
    && InQueueOrder(s.runs, ids)
    && (forall i :: 0 <= i < |ids| ==> Editable(s.runs[ids[i]], t))
    && (forall q :: q in s.runs && Editable(s.runs[q], t) ==> q in ids)
  }

  predicate Permutes(requested: seq<RunId>, expected: seq<RunId>) {
    && Distinct(requested) && |requested| == |expected|
    && (forall q :: q in requested ==> q in expected)
    && (forall q :: q in expected ==> q in requested)
  }

  function IndexOf(ids: seq<RunId>, q: RunId): (i: nat)
    requires q in ids
    ensures i < |ids| && ids[i] == q
  {
    if ids[0] == q then 0 else 1 + IndexOf(ids[1..], q)
  }

  lemma IndexOfAt(ids: seq<RunId>, i: nat)
    requires Distinct(ids) && i < |ids|
    ensures IndexOf(ids, ids[i]) == i
  {
  }

  /** The i-th requested run takes the position that the i-th queued run had. */
  function Reordered(runs: map<RunId, Run>, expected: seq<RunId>, requested: seq<RunId>): map<RunId, Run>
    requires |requested| == |expected| && forall q :: q in expected ==> q in runs
  {
    map q | q in runs ::
      if q in requested then runs[q].(queuePosition := runs[expected[IndexOf(requested, q)]].queuePosition)
      else runs[q]
  }

  function Reorder(s: State, t: ThreadId, expected: seq<RunId>, requested: seq<RunId>): Tx {
    if !Distinct(expected) || !Permutes(requested, expected) then Abort(BadRequest)
    else if t !in s.threads then Abort(ThreadMissing)
    else if !IsQueue(s, t, expected) then Abort(QueueChanged)
    else Commit(s.(runs := Reordered(s.runs, expected, requested)))
  }
}
