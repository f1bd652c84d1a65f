/** Rollback to a captured baseline, checkpoint maintenance, and the write fence of the saver. */
module CheckpointMutations {
  import opened Wrappers
  import opened RunState
  import opened Tables
  import opened CheckpointPruning

  // ---- rollback ----

  /** The run's current rows that differ from its baseline all carry its own stamp. */
  predicate OwnChangesOnly(base: History, now: History, r: RunId) {
    forall k :: k in now.checkpoints ==>
      (k in base.checkpoints && base.checkpoints[k] == now.checkpoints[k]) || now.checkpoints[k].runId == Some(r)
  }

  predicate LaterCapture(baselines: map<RunId, Baseline>, t: ThreadId, r: RunId)
    requires r in baselines
  {
    exists q :: q in baselines && q != r && baselines[q].thread == t && baselines[q].capturedAt >= baselines[r].capturedAt
  }

  /** The checks that `rollback_run` makes before it changes anything. */
  predicate MayRollback(s: State, r: RunId) {
    && r in s.runs
    && var run := s.runs[r];
    && (run.thread.Some? ==>
          var t := run.thread.value;
          && t in s.threads
          && !OtherActive(s.runs, t, r)
          && (if r in s.baselines then
                OwnChangesOnly(s.baselines[r].history, HistoryOf(s, OfThread(t)), r) && !LaterCapture(s.baselines, t, r)
              else run.retryCount == 0 && run.status in {Pending, Interrupted}))
  }

  /** Deleting a run row cascades to its lease, its baseline and its events. */
  function DeleteRun(s: State, r: RunId): State {
    s.(runs := s.runs - {r}, leases := s.leases - {r}, baselines := s.baselines - {r},
       events := map k | k in s.events && s.events[k].run != Some(r) :: s.events[k])
  }

  /** Puts the baseline's rows and thread columns back. */
  function Restore(s: State, r: RunId): State
    requires r in s.baselines
  {
    var b := s.baselines[r];
    var s1 := s.(tables := s.tables[OfThread(b.thread) := b.history]);
    if b.thread in s.threads then SetProjection(s1, b.thread, b.projection) else s1
  }

  function RollbackRun(s: State, r: RunId): Tx {
    if !MayRollback(s, r) then Abort(CheckpointConflict)
    else if s.runs[r].thread.Some? && r in s.baselines then Commit(DeleteRun(Restore(s, r), r))
    else Commit(DeleteRun(s, r))
  }

  predicate Stopped(run: Run, owner: Option<Owner>, now: Time) {
    || run.leaseOwner.None?
    || (owner.Some? && run.leaseOwner == owner)
    || (run.leaseExpiresAt.Some? && run.leaseExpiresAt.value <= now)
  }

  /** One iteration of `complete_rollbacks`; a conflict is logged and retried later. */
  function CompleteRollback(s: State, r: RunId, owner: Option<Owner>): State {
    if r in s.runs && s.runs[r].reason == Some(Rollback) && Stopped(s.runs[r], owner, s.clock) then
      After(s, RollbackRun(s, r))
    else s
  }

  // ---- maintenance ----

  function DropBaselines(s: State, t: ThreadId): State {
    s.(baselines := map q | q in s.baselines && s.baselines[q].thread != t :: s.baselines[q])
  }

  function BlobsOf(s: State, at: Resource): set<Blob> {
    if at in s.blobs then s.blobs[at] else {}
  }

  ghost function PruneCheckpoints(s: State, t: ThreadId): Tx {
    if AnyActive(s.runs, t) then Abort(CheckpointConflict)
    else
      var at := OfThread(t);
      Commit(DropBaselines(s.(tables := s.tables[at := Pruned(HistoryOf(s, at), BlobsOf(s, at))]), t))
  }

  // ---- the write fence ----

  /** The identity that a worker's checkpoint tasks inherit. */
  datatype Writer = Writer(run: RunId, owner: Owner, generation: nat)

  /** One saver call: a checkpoint row with its blobs, or pending writes. */
  datatype Change =
    | PutCheckpoint(key: CheckpointKey, row: Checkpoint, blobs: set<Blob>)
    | PutWrites(rows: map<WriteKey, Json>, overwrite: bool)

  function Stamp(change: Change, r: RunId): Change {
    match change
    case PutCheckpoint(key, row, blobs) => PutCheckpoint(key, row.(runId := Some(r)), blobs)
    case PutWrites(_, _) => change
  }

  function ChangeHistory(h: History, change: Change): History {
    match change
    case PutCheckpoint(key, row, _) => h.(checkpoints := h.checkpoints[key := row])
    case PutWrites(rows, overwrite) => h.(writes := if overwrite then h.writes + rows else rows + h.writes)
  }

  function Write(s: State, at: Resource, change: Change): State {
    s.(tables := s.tables[at := ChangeHistory(HistoryOf(s, at), change)],
       blobs := if change.PutCheckpoint? then s.blobs[at := BlobsOf(s, at) + change.blobs] else s.blobs)
  }

  predicate Owns(s: State, w: Writer, at: Resource) {
    && w.run in s.runs
    && var run := s.runs[w.run];
    && run.status == Running
    && run.leaseExpiresAt.Some? && run.leaseExpiresAt.value > s.clock
    && run.leaseOwner == Some(w.owner)
    && run.retryCount == w.generation
    && ResourceOf(w.run, run) == at
  }

  /** Position of the newest claim of a resource, or -1. */
  function LastClaim(claims: seq<Claim>, at: Resource): int
    decreases |claims|
  {
    if claims == [] then -1
    else if claims[|claims| - 1].resource == at then |claims| - 1
    else LastClaim(claims[..|claims| - 1], at)
  }

  /** A worker's write: rejected unless the writer still owns the run at this generation. */
  function FencedWrite(s: State, w: Writer, at: Resource, change: Change): Tx {
    if !Owns(s, w, at) then Abort(CheckpointConflict)
    else
      Commit(Write(s, at, Stamp(change, w.run)).(
        accepted := s.accepted + [Accepted(at, w.run, w.generation, LastClaim(s.claims, at))]))
  }

  /** A rollback is pending on the thread, or a run is executing on it that the update does not belong to. */
  predicate ForeignActive(runs: map<RunId, Run>, t: ThreadId, onBehalf: Option<RunId>) {
    exists q :: q in runs && runs[q].thread == Some(t) && Active(runs[q])
                && (runs[q].reason == Some(Rollback) || onBehalf != Some(q))
  }

  /** A write without worker identity: refused while another run is active. Unless the caller's configuration names a run,
      it is an explicit state update and supersedes old baselines. */
  function UnfencedWrite(s: State, at: Resource, onBehalf: Option<RunId>, change: Change): Tx {
    match at
    case OfThread(t) =>
      if ForeignActive(s.runs, t, onBehalf) then Abort(CheckpointConflict)
      else Commit(Write(if onBehalf.None? then DropBaselines(s, t) else s, at, change))
    case OfRun(_) => Commit(Write(s, at, change))
  }
}
