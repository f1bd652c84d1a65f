/** When the API's transactions are accepted, and what an accepted one does to rows of others. */
module Acceptance {
  import opened Wrappers
  import opened RunState
  import opened Tables
  import opened RunStore
  import opened CheckpointPruning
  import opened CheckpointMutations
  import opened CoreApi
  import opened Protocol
  import opened StepCases
  import opened Invariants
  import opened Reachable
  import opened LeaseTime
  import QueueOrder

  // ---- rollback ----

  /** Somebody else's run of the thread is executing or waits for its rollback. */
  ghost predicate OthersBusy(s: State, r: RunId, t: ThreadId) {
    exists q :: q in s.runs && q != r && s.runs[q].thread == Some(t)
                && (s.runs[q].status == Running || s.runs[q].reason == Some(Rollback))
  }

  /** The thread has a checkpoint that is neither as it was at the run's first claim nor the run's own. */
  ghost predicate ForeignCheckpoint(s: State, r: RunId, t: ThreadId)
    requires r in s.baselines
  {
    var was, now := s.baselines[r].history.checkpoints, HistoryOf(s, OfThread(t)).checkpoints;
    exists k :: k in now && (k !in was || was[k] != now[k]) && now[k].runId != Some(r)
  }

  ghost predicate CapturedLater(s: State, r: RunId, t: ThreadId)
    requires r in s.baselines
  {
    exists q :: q in s.baselines && s.baselines[q].thread == t && s.baselines[q].capturedAt > s.baselines[r].capturedAt
  }

  /** A rollback on a thread is refused if and only if another run is busy on it, or the run was claimed and its baseline was
      superseded, or somebody else changed a checkpoint since, or a later run was claimed; or it was never claimed and is
      neither waiting nor interrupted. */
  lemma RollbackRefusedExactly(clock: Time, steps: seq<Step>, r: RunId, t: ThreadId)
    requires var s := Reached(clock, steps); r in s.runs && s.runs[r].thread == Some(t) && t in s.threads
    ensures var s := Reached(clock, steps);
            RollbackRun(s, r) == Abort(CheckpointConflict) <==>
              || OthersBusy(s, r, t)
              || (if r in s.baselines then ForeignCheckpoint(s, r, t) || CapturedLater(s, r, t)
                  else s.runs[r].retryCount > 0 || s.runs[r].status !in {Pending, Interrupted})
  {
    ReachedInv(clock, steps);
    RefusedExactly(Reached(clock, steps), r, t);
  }

  lemma RefusedExactly(s: State, r: RunId, t: ThreadId)
    requires BaselineInv(s) && r in s.runs && s.runs[r].thread == Some(t) && t in s.threads
    ensures RollbackRun(s, r) == Abort(CheckpointConflict) <==>
              || OthersBusy(s, r, t)
              || (if r in s.baselines then ForeignCheckpoint(s, r, t) || CapturedLater(s, r, t)
                  else s.runs[r].retryCount > 0 || s.runs[r].status !in {Pending, Interrupted})
  {
    BusyIsActive(s, r, t);
    if r in s.baselines {
      ForeignIsNotOwn(s, r, t);
      LaterIsLater(s, r, t);
    }
  }

  lemma BusyIsActive(s: State, r: RunId, t: ThreadId)
    ensures OthersBusy(s, r, t) <==> OtherActive(s.runs, t, r)
  {
  }

  lemma ForeignIsNotOwn(s: State, r: RunId, t: ThreadId)
    requires r in s.baselines
    ensures ForeignCheckpoint(s, r, t) <==> !OwnChangesOnly(s.baselines[r].history, HistoryOf(s, OfThread(t)), r)
  {
  }

  lemma LaterIsLater(s: State, r: RunId, t: ThreadId)
    requires BaselineInv(s) && r in s.baselines
    ensures CapturedLater(s, r, t) <==> LaterCapture(s.baselines, t, r)
  {
  }

  /** An accepted rollback loses no checkpoint but the run's own: whatever was there and is not any more, or has changed, was
      written by the run. Other threads and other runs keep everything. */
  lemma RollbackLosesOnlyItsOwn(s: State, r: RunId, s': State, k: CheckpointKey)
    requires RollbackRun(s, r) == Commit(s') && r in s.runs && s.runs[r].thread.Some?
    requires k in HistoryOf(s, OfThread(s.runs[r].thread.value)).checkpoints
    requires r in s.baselines ==> s.baselines[r].thread == s.runs[r].thread.value
    ensures var t := s.runs[r].thread.value;
            var was, now := HistoryOf(s, OfThread(t)).checkpoints, HistoryOf(s', OfThread(t)).checkpoints;
            (k in now && now[k] == was[k]) || was[k].runId == Some(r)
    ensures s'.runs == s.runs - {r}
    ensures forall at :: at != OfThread(s.runs[r].thread.value) ==> HistoryOf(s', at) == HistoryOf(s, at)
    ensures forall e :: e in s.events && s.events[e].run != Some(r) ==> e in s'.events && s'.events[e] == s.events[e]
  {
  }

  // ---- maintenance and state updates ----

  /** Pruning is refused if and only if a run of the thread is executing or waits for its rollback; it supersedes the
      thread's baselines and no others. */
  lemma PruneRefusedExactly(s: State, t: ThreadId)
    ensures var busy := exists q :: q in s.runs && s.runs[q].thread == Some(t)
                                    && (s.runs[q].status == Running || s.runs[q].reason == Some(Rollback));
            var tx := PruneCheckpoints(s, t);
            if busy then tx == Abort(CheckpointConflict)
            else
              && tx.Commit? && tx.db.runs == s.runs
              && HistoryOf(tx.db, OfThread(t)) == Pruned(HistoryOf(s, OfThread(t)), BlobsOf(s, OfThread(t)))
              && (forall at :: at != OfThread(t) ==> HistoryOf(tx.db, at) == HistoryOf(s, at))
              && (forall q :: q in tx.db.baselines <==> q in s.baselines && s.baselines[q].thread != t)
              && (forall q :: q in tx.db.baselines ==> tx.db.baselines[q] == s.baselines[q])
  {
  }

  /** A write without worker identity is refused if and only if a rollback is pending on the thread or a run is executing on it
      other than the one it names; an accepted one is stored as it is, and supersedes the thread's baselines if and only if it
      names no run. */
  lemma UpdateRefusedExactly(s: State, t: ThreadId, onBehalf: Option<RunId>, change: Change)
    ensures var foreign := exists q :: q in s.runs && s.runs[q].thread == Some(t)
                             && (s.runs[q].reason == Some(Rollback) || (s.runs[q].status == Running && onBehalf != Some(q)));
            var tx := UnfencedWrite(s, OfThread(t), onBehalf, change);
            if foreign then tx == Abort(CheckpointConflict)
            else
              && tx.Commit? && Lands(s, tx.db, OfThread(t), None, change) && tx.db.runs == s.runs
              && (forall q :: q in tx.db.baselines <==> q in s.baselines && (onBehalf.Some? || s.baselines[q].thread != t))
              && (forall q :: q in tx.db.baselines ==> tx.db.baselines[q] == s.baselines[q])
  {
    WriteLands(s, OfThread(t), change);
    WriteLands(DropBaselines(s, t), OfThread(t), change);
  }

  /** Whatever superseded the baselines of a thread, its claimed runs cannot be rolled back past it any more. */
  lemma SupersededIsRefused(s: State, step: Step, t: ThreadId, r: RunId)
    requires step == KeepLatest(t) || (step.StateUpdate? && step.at == OfThread(t) && step.onBehalf == None)
    requires Transact(s, step).Commit? && r in s.runs && s.runs[r].thread == Some(t) && s.runs[r].retryCount > 0
    requires r in s.baselines ==> s.baselines[r].thread == t
    ensures RollbackRun(Apply(s, step), r) == Abort(CheckpointConflict)
  {
  }

  // ---- submissions and queue edits ----

  /** A submission that wants an idle thread is refused if the thread has a waiting or executing run. */
  lemma BusyThreadRejects(s: State, cfg: Config, r: RunId, sub: Submission, q: RunId)
    requires sub.reject && !sub.resume && sub.thread.Some? && sub.idempotencyKey == None
    requires q in s.runs && s.runs[q].thread == sub.thread && s.runs[q].status in {Pending, Running}
    ensures Transact(s, Submit(cfg, r, sub)) == Abort(SubmissionConflict)
  {
  }

  /** A new run waits at the end of its thread's queue, due at once, without lease, attempts and events. */
  ghost predicate Queues(s: State, s': State, cfg: Config, r: RunId, sub: Submission) {
    && r !in s.runs && s'.runs.Keys == s.runs.Keys + {r} && s'.leases == s.leases && s'.claims == s.claims
    && (forall q :: q in s.runs ==> s'.runs[q] == s.runs[q])
    && (forall q :: q in s.runs && s.runs[q].thread == sub.thread ==> s.runs[q].queuePosition < s'.runs[r].queuePosition)
    && s'.runs[r].status == Pending && s'.runs[r].thread == sub.thread && s'.runs[r].resume == sub.resume
    && s'.runs[r].retryCount == 0 && s'.runs[r].maxAttempts == cfg.maxAttempts && s'.runs[r].nextAttemptAt == None
    && s'.runs[r].leaseOwner == None && s'.runs[r].eventSeq == 0 && s'.runs[r].idempotencyKey == sub.idempotencyKey
  }

  lemma NewRunIsLast(s: State, cfg: Config, sub: Submission, q: RunId)
    requires q in s.runs && s.runs[q].thread == sub.thread
    ensures s.runs[q].queuePosition < NewRun(s, cfg, sub).queuePosition
  {
    var taken := set p | p in s.runs && s.runs[p].thread == sub.thread :: s.runs[p].queuePosition;
    assert s.runs[q].queuePosition in taken && MaxOf(taken) + 1 == NextPosition(s, sub.thread);
  }

  lemma NewRunQueues(s: State, cfg: Config, r: RunId, sub: Submission)
    requires r !in s.runs
    ensures Queues(s, SetRun(s, r, NewRun(s, cfg, sub)).(issued := s.issued + {r}), cfg, r, sub)
  {
    forall q | q in s.runs && s.runs[q].thread == sub.thread
      ensures s.runs[q].queuePosition < NewRun(s, cfg, sub).queuePosition
    {
      NewRunIsLast(s, cfg, sub, q);
    }
  }

  /** A submission without key under a fresh identifier is queued, unless it wants an idle thread and finds it busy. */
  lemma SubmissionQueues(clock: Time, steps: seq<Step>, cfg: Config, r: RunId, sub: Submission)
    requires r !in Reached(clock, steps).issued && sub.idempotencyKey == None
    ensures var s := Reached(clock, steps);
            var tx := Transact(s, Submit(cfg, r, sub));
            var busy := exists q :: q in s.runs && s.runs[q].thread == sub.thread && s.runs[q].status in {Pending, Running};
            if sub.reject && !sub.resume && sub.thread.Some? && busy then tx == Abort(SubmissionConflict)
            else tx.Commit? && Queues(s, tx.db, cfg, r, sub)
  {
    FreshIsAbsent(clock, steps, r);
    NewRunQueues(Reached(clock, steps), cfg, r, sub);
  }

  lemma FreshIsAbsent(clock: Time, steps: seq<Step>, r: RunId)
    requires r !in Reached(clock, steps).issued
    ensures r !in Reached(clock, steps).runs
  {
    ReachedInv(clock, steps);
  }

  /** The client's list is exactly the thread's waiting messages, by rising position. */
  ghost predicate IsView(s: State, t: ThreadId, ids: seq<RunId>) {
    && (forall i, j :: 0 <= i < j < |ids| ==>
          ids[i] in s.runs && ids[j] in s.runs && s.runs[ids[i]].queuePosition < s.runs[ids[j]].queuePosition)
    && (forall q :: q in ids <==> q in s.runs && s.runs[q].thread == Some(t) && s.runs[q].status == Pending && !s.runs[q].resume)
  }

  lemma ViewIsQueue(s: State, t: ThreadId, ids: seq<RunId>)
    requires QueueInv(s) && IsView(s, t, ids)
    ensures IsQueue(s, t, ids)
  {
    forall i | 0 <= i < |ids|
      ensures ids[i] in s.runs && Editable(s.runs[ids[i]], t)
    {
      assert ids[i] in ids;
    }
  }

  lemma QueueIsView(s: State, t: ThreadId, ids: seq<RunId>)
    requires QueueInv(s) && IsQueue(s, t, ids)
    ensures IsView(s, t, ids)
  {
    forall i, j | 0 <= i < j < |ids|
      ensures s.runs[ids[i]].queuePosition < s.runs[ids[j]].queuePosition
    {
      assert Editable(s.runs[ids[i]], t) && Editable(s.runs[ids[j]], t) && ids[i] != ids[j];
      assert Before(ids[i], s.runs[ids[i]], ids[j], s.runs[ids[j]]);
    }
    forall q | q in ids
      ensures q in s.runs && s.runs[q].thread == Some(t) && s.runs[q].status == Pending && !s.runs[q].resume
    {
      var i :| 0 <= i < |ids| && ids[i] == q;
      assert Editable(s.runs[ids[i]], t);
    }
  }

  /** A permutation of the thread's waiting messages is accepted if and only if the client saw them as they are. */
  lemma ReorderAcceptedExactly(clock: Time, steps: seq<Step>, t: ThreadId, expected: seq<RunId>, requested: seq<RunId>)
    requires t in Reached(clock, steps).threads && Distinct(expected) && Permutes(requested, expected)
    ensures var s := Reached(clock, steps);
            var tx := Reorder(s, t, expected, requested);
            if IsView(s, t, expected) then tx.Commit? && IsView(tx.db, t, requested) else tx == Abort(QueueChanged)
  {
    ReachedInv(clock, steps);
    ReorderDecided(Reached(clock, steps), t, expected, requested);
  }

  lemma ReorderDecided(s: State, t: ThreadId, expected: seq<RunId>, requested: seq<RunId>)
    requires CoreInv(s) && t in s.threads && Distinct(expected) && Permutes(requested, expected)
    ensures var tx := Reorder(s, t, expected, requested);
            if IsView(s, t, expected) then tx.Commit? && IsView(tx.db, t, requested) else tx == Abort(QueueChanged)
  {
    if IsView(s, t, expected) {
      ViewIsQueue(s, t, expected);
      var s' := Reorder(s, t, expected, requested).db;
      QueueOrder.ReorderKeepsCore(s, t, expected, requested, s');
      QueueOrder.ReorderRoundTrip(s, t, expected, requested, s');
      QueueIsView(s', t, requested);
    } else if IsQueue(s, t, expected) {
      QueueIsView(s, t, expected);
    }
  }
}
