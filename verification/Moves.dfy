/** Each ownership transaction makes one legal move of one run, whatever branch it takes. */
module Moves {
  import opened Wrappers
  import opened RunState
  import opened Tables
  import opened EventLog
  import opened RunStore
  import opened CheckpointMutations
  import opened CoreApi
  import opened Protocol
  import opened StepCases

  predicate NewlyActive(s: State, r: RunId, row: Run)
    requires r in s.runs
  {
    Active(row) && !Active(s.runs[r]) && !MayRollback(s, r)
  }

  lemma UnleaseMoves(s: State, r: RunId, row: Run)
    requires r in s.runs && SameIdentity(s.runs[r], row) && LegalMove(s.runs[r], row)
    requires RunOk(row, None) && !NewlyActive(s, r, row)
    ensures Moved(s, Unlease(s, r, row), r)
  {
  }

  lemma SetRunMoves(s: State, r: RunId, row: Run)
    requires r in s.runs && SameIdentity(s.runs[r], row) && LegalMove(s.runs[r], row)
    requires RunOk(row, LeaseOf(s, r)) && !NewlyActive(s, r, row)
    ensures Moved(s, SetRun(s, r, row), r)
  {
  }

  /** Thread columns are free: they change nothing that a move is about. */
  ghost predicate OnlyProjections(s: State, s': State) {
    && s' == s.(threads := s'.threads)
    && s'.threads.Keys == s.threads.Keys
    && forall t :: t in s.threads ==> s'.threads[t] == s.threads[t].(projection := s'.threads[t].projection)
  }

  lemma ThenProjection(s: State, s1: State, s': State, r: RunId)
    requires Moved(s, s1, r) && OnlyProjections(s1, s')
    ensures Moved(s, s', r)
  {
  }

  lemma ThenLogged(s: State, s1: State, s': State, r: RunId)
    requires Moved(s, s1, r) && Logged(s1, s', r)
    ensures Moved(s, s', r)
  {
    assert s'.runs[r] == s1.runs[r].(eventSeq := s'.runs[r].eventSeq);
  }

  lemma LoggedThen(s: State, s1: State, s': State, r: RunId)
    requires Logged(s, s1, r) && Moved(s1, s', r)
    ensures Moved(s, s', r)
  {
    assert s1.runs[r] == s.runs[r].(eventSeq := s1.runs[r].eventSeq);
  }

  lemma ThenRecord(s: State, s1: State, r: RunId, n: Notice, s': State)
    requires Moved(s, s1, r) && Record(s1, r, n) == Commit(s')
    ensures Moved(s, s', r)
    ensures s'.runs[r] == s1.runs[r].(eventSeq := s'.runs[r].eventSeq)
  {
    RecordIsLogged(s1, r, n, s');
    ThenLogged(s, s1, s', r);
  }

  lemma ThreadStatusIsFree(s: State, s1: State, r: RunId, thread: Option<ThreadId>, status: string)
    requires Moved(s, s1, r)
    ensures Moved(s, SetThreadStatus(s1, thread, status), r)
    ensures SetThreadStatus(s1, thread, status).runs == s1.runs
  {
    ThenProjection(s, s1, SetThreadStatus(s1, thread, status), r);
  }

  lemma EndOfAttemptsMoves(s: State, r: RunId)
    requires OwnershipInv(s) && r in s.runs && s.runs[r].status == Pending
    ensures Moved(s, EndOfAttempts(s, r), r) && EndOfAttempts(s, r).runs[r].status == Error
  {
    var row := s.runs[r].(status := Error, reason := Some(InfrastructureError), nextAttemptAt := None, updatedAt := s.clock);
    assert RunOk(s.runs[r], LeaseOf(s, r));
    SetRunMoves(s, r, row);
    ThreadStatusIsFree(s, SetRun(s, r, row), r, s.runs[r].thread, "idle");
  }

  lemma ExhaustMoves(s: State, r: RunId, s': State)
    requires OwnershipInv(s) && r in s.runs && s.runs[r].status == Pending
    requires Exhaust(s, r) == Commit(s')
    ensures Moved(s, s', r) && s'.runs[r].status == Error
  {
    EndOfAttemptsMoves(s, r);
    ThenRecord(s, EndOfAttempts(s, r), r, StatusNotice(Error, "infrastructure_error"), s');
  }

  lemma RenewMoves(s: State, cfg: Config, r: RunId, owner: Owner)
    requires OwnershipInv(s) && MayRenew(s, r, owner)
    ensures Moved(s, Renew(s, cfg, r, owner), r)
  {
  }

  /** A running run may be let go with any other status. */
  lemma LetGoMoves(s: State, r: RunId, status: RunStatus, why: RunReason, next: Option<Time>)
    requires OwnershipInv(s) && r in s.runs && s.runs[r].status == Running
    requires status != Running && why != Rollback
    ensures Moved(s, LetGo(s, r, status, why, next), r)
    ensures LetGo(s, r, status, why, next).runs[r].status == status
  {
    assert RunOk(s.runs[r], LeaseOf(s, r));
    UnleaseMoves(s, r, Released(s.runs[r], status, why, next, s.clock));
  }

  lemma LoggedKeepsOwnership(s: State, s': State, r: RunId)
    requires OwnershipInv(s) && Logged(s, s', r)
    ensures OwnershipInv(s')
  {
    forall q | q in s'.runs
      ensures RunOk(s'.runs[q], LeaseOf(s', q))
    {
      assert RunOk(s.runs[q], LeaseOf(s, q));
    }
  }

  lemma FinishEnd(s: State, r: RunId, e: Ending, payload: Option<Json>, s': State)
    requires OwnershipInv(s) && r in s.runs && s.runs[r].status == Running
    requires Record(LetGo(s, r, EndStatus(e), EndReason(e), None), r, StatusNotice(EndStatus(e), payload.GetOr("lifecycle")))
             == Commit(s')
    ensures Moved(s, s', r) && s'.runs[r].status == EndStatus(e)
  {
    LetGoMoves(s, r, EndStatus(e), EndReason(e), None);
    ThenRecord(s, LetGo(s, r, EndStatus(e), EndReason(e), None), r, StatusNotice(EndStatus(e), payload.GetOr("lifecycle")), s');
  }

  /** A run is finished by its preceding events and then its end. */
  lemma FinishSplits(s: State, r: RunId, owner: Owner, e: Ending, payload: Option<Json>, preceding: seq<Plain>, s': State)
      returns (s1: State)
    requires Executing(s, r) && Finish(s, r, owner, EndStatus(e), EndReason(e), payload, preceding) == Commit(s')
    ensures RecordAll(s, r, preceding) == Commit(s1) && Logged(s, s1, r)
    ensures Record(LetGo(s1, r, EndStatus(e), EndReason(e), None), r, StatusNotice(EndStatus(e), payload.GetOr("lifecycle")))
            == Commit(s')
  {
    s1 := RecordAll(s, r, preceding).db;
    RecordAllIsLogged(s, r, preceding, s1);
  }

  lemma FinishMoves(s: State, r: RunId, owner: Owner, e: Ending, payload: Option<Json>, preceding: seq<Plain>, s': State)
    requires OwnershipInv(s) && Finish(s, r, owner, EndStatus(e), EndReason(e), payload, preceding) == Commit(s')
    ensures s' == s || (s.runs[r].status == Running && Moved(s, s', r) && s'.runs[r].status == EndStatus(e))
  {
    if !IsTerminal(s.runs[r].status) {
      assert RunOk(s.runs[r], LeaseOf(s, r));
      var s1 := FinishSplits(s, r, owner, e, payload, preceding, s');
      LoggedKeepsOwnership(s, s1, r);
      FinishEnd(s1, r, e, payload, s');
      LoggedThen(s, s1, s', r);
    }
  }

  predicate Executing(s: State, r: RunId) {
    r in s.runs && s.runs[r].status == Running && s.runs[r].retryCount <= MAX_INFRASTRUCTURE_RETRIES
  }

  /** A failed run is let go as pending or error and the change is recorded. */
  lemma FailShape(s: State, cfg: Config, r: RunId, owner: Owner, infra: bool, reason: RunReason, s': State)
      returns (status: RunStatus, why: RunReason, next: Option<Time>)
    requires Executing(s, r) && reason in {BusinessError, InfrastructureError}
    requires Fail(s, cfg, r, owner, infra, reason) == Commit(s')
    ensures status in {Pending, Error} && why != Rollback
    ensures status == Pending ==> infra && Retries(cfg, s.runs[r])
    ensures Record(LetGo(s, r, status, why, next), r, StatusNotice(status, "lifecycle")) == Commit(s')
  {
    var run := s.runs[r];
    var retry := infra && Retries(cfg, run);
    var change := Transit(run.status, if retry then Pending else Error, if retry then Retry else reason, run.retryCount);
    status, why := change.status, change.reason;
    next := if retry then Some(s.clock + RetryDelay(cfg, run.retryCount)) else None;
  }

  lemma FailMoves(s: State, cfg: Config, r: RunId, owner: Owner, infra: bool, reason: RunReason, s': State)
    requires OwnershipInv(s) && reason in {BusinessError, InfrastructureError}
    requires Fail(s, cfg, r, owner, infra, reason) == Commit(s')
    ensures s' == s || (s.runs[r].status == Running && Moved(s, s', r) && s'.runs[r].status in {Pending, Error})
  {
    if !IsTerminal(s.runs[r].status) {
      assert RunOk(s.runs[r], LeaseOf(s, r));
      var status, why, next := FailShape(s, cfg, r, owner, infra, reason, s');
      LetGoMoves(s, r, status, why, next);
      ThenRecord(s, LetGo(s, r, status, why, next), r, StatusNotice(status, "lifecycle"), s');
    }
  }

  lemma DrainIsFree(s: State, s1: State, r: RunId, drained: bool)
    requires Moved(s, s1, r)
    ensures Moved(s, Drain(s1, r, drained), r)
  {
  }

  /** The row of a run that goes back to the queue at shutdown, before the event is recorded. */
  function ShutState(s: State, r: RunId, status: RunStatus, why: RunReason, next: Option<Time>, drained: bool): State
    requires r in s.runs
  {
    Drain(SetThreadStatus(LetGo(s, r, status, why, next), s.runs[r].thread, "idle"), r, drained)
  }

  lemma ShutStateMoves(s: State, r: RunId, status: RunStatus, why: RunReason, next: Option<Time>, drained: bool)
    requires OwnershipInv(s) && r in s.runs && s.runs[r].status == Running
    requires status != Running && why != Rollback
    ensures Moved(s, ShutState(s, r, status, why, next, drained), r)
    ensures ShutState(s, r, status, why, next, drained).runs[r].status == status
  {
    LetGoMoves(s, r, status, why, next);
    var s1 := LetGo(s, r, status, why, next);
    ThreadStatusIsFree(s, s1, r, s.runs[r].thread, "idle");
    DrainIsFree(s, SetThreadStatus(s1, s.runs[r].thread, "idle"), r, drained);
  }

  lemma ShutShape(s: State, cfg: Config, r: RunId, owner: Owner, drained: bool, s': State) returns (next: Option<Time>)
    requires Executing(s, r) && RequeueForShutdown(s, cfg, r, owner, drained) == Commit(s')
    ensures Record(ShutState(s, r, Pending, ShutdownRequeue, next, drained), r, StatusNotice(Pending, "lifecycle")) == Commit(s')
  {
    next := Some(s.clock + RetryDelay(cfg, s.runs[r].retryCount));
  }

  lemma ShutdownMoves(s: State, cfg: Config, r: RunId, owner: Owner, drained: bool, s': State)
    requires OwnershipInv(s) && RequeueForShutdown(s, cfg, r, owner, drained) == Commit(s')
    ensures s' == s || (s.runs[r].status == Running && Moved(s, s', r) && s'.runs[r].status == Pending)
  {
    if s.runs[r].status == Running {
      assert RunOk(s.runs[r], LeaseOf(s, r));
      var next := ShutShape(s, cfg, r, owner, drained, s');
      ShutStateMoves(s, r, Pending, ShutdownRequeue, next, drained);
      ThenRecord(s, ShutState(s, r, Pending, ShutdownRequeue, next, drained), r, StatusNotice(Pending, "lifecycle"), s');
    }
  }

  lemma ThreadErrorIsFree(s: State, s1: State, r: RunId, thread: Option<ThreadId>, error: Json)
    requires Moved(s, s1, r)
    ensures Moved(s, SetThreadError(s1, thread, error), r)
    ensures SetThreadError(s1, thread, error).runs == s1.runs
  {
    ThenProjection(s, s1, SetThreadError(s1, thread, error), r);
  }

  function ReapedState(s: State, r: RunId, status: RunStatus, why: RunReason, next: Option<Time>): State
    requires r in s.runs
  {
    var s1 := SetThreadStatus(LetGo(s, r, status, why, next), s.runs[r].thread, "idle");
    if status == Error then SetThreadError(s1, s.runs[r].thread, "infrastructure_error") else s1
  }

  lemma ReapShape(s: State, cfg: Config, r: RunId, s': State)
      returns (status: RunStatus, why: RunReason, next: Option<Time>)
    requires Executing(s, r) && Reapable(s, r) && Reap(s, cfg, r) == Commit(s')
    ensures status == (if s.runs[r].retryCount >= s.runs[r].maxAttempts then Error else Pending) && why != Rollback
    ensures Record(ReapedState(s, r, status, why, next), r, StatusNotice(status, "lifecycle")) == Commit(s')
  {
    var run := s.runs[r];
    var spent := run.retryCount >= run.maxAttempts;
    var change := Transit(run.status, if spent then Error else Pending,
                          if spent then InfrastructureError else ShutdownRequeue, run.retryCount);
    status, why := change.status, change.reason;
    next := if spent then None else Some(s.clock + RetryDelay(cfg, run.retryCount));
  }

  lemma ReapedMoves(s: State, r: RunId, status: RunStatus, why: RunReason, next: Option<Time>)
    requires OwnershipInv(s) && r in s.runs && s.runs[r].status == Running
    requires status != Running && why != Rollback
    ensures Moved(s, ReapedState(s, r, status, why, next), r)
    ensures ReapedState(s, r, status, why, next).runs[r].status == status
  {
    LetGoMoves(s, r, status, why, next);
    var s1 := LetGo(s, r, status, why, next);
    ThreadStatusIsFree(s, s1, r, s.runs[r].thread, "idle");
    ThreadErrorIsFree(s, SetThreadStatus(s1, s.runs[r].thread, "idle"), r, s.runs[r].thread, "infrastructure_error");
  }

  lemma ReapMoves(s: State, cfg: Config, r: RunId, s': State)
    requires OwnershipInv(s) && Reap(s, cfg, r) == Commit(s')
    ensures s' == s || (s.runs[r].status == Running && Moved(s, s', r) && s'.runs[r].status in {Pending, Error})
  {
    if Reapable(s, r) {
      assert RunOk(s.runs[r], LeaseOf(s, r));
      var status, why, next := ReapShape(s, cfg, r, s');
      ReapedMoves(s, r, status, why, next);
      ThenRecord(s, ReapedState(s, r, status, why, next), r, StatusNotice(status, "lifecycle"), s');
    }
  }

  lemma CancelledMoves(s: State, r: RunId)
    requires OwnershipInv(s) && r in s.runs && !IsTerminal(s.runs[r].status)
    ensures var s1 := Cancelled(s, r, Interrupted, CancelRequested);
            Moved(s, s1, r) && s1.runs[r].status == Interrupted
  {
    var run := s.runs[r];
    assert RunOk(run, LeaseOf(s, r));
    var row := run.(status := Interrupted, reason := Some(CancelRequested), updatedAt := s.clock);
    if run.status == Running {
      SetRunMoves(s, r, row);
    } else {
      UnleaseMoves(s, r, row.(leaseOwner := None, leaseExpiresAt := None));
    }
  }

  lemma CancelMoves(s: State, r: RunId, s': State)
    requires OwnershipInv(s) && Cancel(s, r) == Commit(s')
    ensures s' == s || (Moved(s, s', r) && !IsTerminal(s.runs[r].status) && s'.runs[r].status == Interrupted)
  {
    if r in s.runs && !IsTerminal(s.runs[r].status) {
      CancelledMoves(s, r);
      ThenRecord(s, Cancelled(s, r, Interrupted, CancelRequested), r, StatusNotice(Interrupted, "cancel_requested"), s');
    }
  }

  /** A deferred rollback is marked only on a run whose lease is still held. */
  lemma MarkMoves(s: State, r: RunId)
    requires OwnershipInv(s) && MayRollback(s, r) && s.runs[r].leaseOwner.Some?
    ensures Moved(s, Marked(s, r), r)
  {
    assert RunOk(s.runs[r], LeaseOf(s, r));
    SetRunMoves(s, r, s.runs[r].(status := Interrupted, reason := Some(Rollback), updatedAt := s.clock));
  }

  lemma ReleaseMoves(s: State, r: RunId, owner: Owner)
    requires OwnershipInv(s)
    ensures var s' := ReleaseCancelled(s, r, owner); s' == s || Moved(s, s', r)
  {
    if r in s.runs && s.runs[r].leaseOwner == Some(owner) && s.runs[r].reason == Some(CancelRequested) {
      var run := s.runs[r];
      assert RunOk(run, LeaseOf(s, r));
      var row := run.(leaseOwner := None, leaseExpiresAt := None);
      UnleaseMoves(s, r, row);
      var s1 := Unlease(s, r, row);
      ThreadStatusIsFree(s, s1, r, run.thread, "interrupted");
      ThreadStatusIsFree(s, s1, r, run.thread, "idle");
    }
  }
}
