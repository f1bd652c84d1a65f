/** Every step keeps the event log invariant. */
module LogSteps {
  import opened Wrappers
  import opened RunState
  import opened Tables
  import opened EventLog
  import opened RunStore
  import opened CheckpointMutations
  import opened CoreApi
  import opened Protocol
  import opened StepCases
  import opened Moves
  import opened Kinds
  import opened LogInvariants

  // ---- deletion and retention ----

  lemma DeletionKeepsLog(s: State, r: RunId, s': State)
    requires LogInv(s) && RollbackRun(s, r) == Commit(s')
    ensures LogInv(s')
  {
    DeletionFrame(s, r, s');
    DeletionCursors(s, r, s');
    forall i | 0 <= i < |s'.inserted|
      ensures EventOk(s', s'.inserted[i])
    {
      assert EventOk(s, s.inserted[i]);
    }
    forall i | 0 <= i < |s'.inserted| && i !in s'.events
      ensures Excused(s', s'.inserted[i])
    {
      if i !in s.events { assert Excused(s, s.inserted[i]); }
    }
    forall t: ThreadId
      ensures CursorOf(s', t) == CursorOf(s, t)
    {
    }
  }

  /** A rollback restores thread columns but never the event cursor or the watermark. */
  lemma DeletionCursors(s: State, r: RunId, s': State)
    requires RollbackRun(s, r) == Commit(s')
    ensures forall t :: t in s.threads ==>
      t in s'.threads && s'.threads[t] == s.threads[t].(projection := s'.threads[t].projection)
    ensures forall k :: k in s'.events <==> k in s.events && s.events[k].run != Some(r)
    ensures forall k :: k in s'.events ==> s'.events[k] == s.events[k]
  {
  }

  /** The rows of one pruned batch lie below both new watermarks, which stay below the cursors. */
  lemma PruneKeepsLog(s: State, r: RunId, cutoff: Time, batch: nat, ids: set<EventId>)
    requires LogInv(s) && MayPrune(s, r, cutoff, batch, ids)
    ensures LogInv(PruneEvents(s, r, cutoff, batch, ids))
  {
    var w := Watermark(s, ids);
    var pruned := set j | j in ids && j in s.events :: s.events[j].sequence;
    assert w == MaxOf(pruned);
    forall k | k in ids
      ensures k in s.events && s.events[k].run == Some(r) && !s.events[k].terminal && s.events[k].sequence <= w
    {
      assert Expired(s, r, cutoff, k);
      assert s.events[k].sequence in pruned;
    }
    var top :| top in ids && s.events[top].sequence == w;
    assert EventOk(s, s.inserted[top]);
    DropKeepsLog(s, r, ids, w);
  }

  /** `w` bounds the dropped rows of run `r` from above and is itself a sequence of the run. */
  lemma DropKeepsLog(s: State, r: RunId, ids: set<EventId>, w: nat)
    requires LogInv(s) && r in s.runs && w <= s.runs[r].eventSeq
    requires s.runs[r].thread.Some? ==> s.runs[r].thread.value in s.threads
    requires forall k :: k in ids ==>
      k in s.events && s.events[k].run == Some(r) && !s.events[k].terminal && s.events[k].sequence <= w
    ensures LogInv(DropEvents(s, r, ids, w))
  {
    var s' := DropEvents(s, r, ids, w);
    DropFrame(s, r, ids, w);
    forall i | 0 <= i < |s'.inserted|
      ensures EventOk(s', s'.inserted[i])
    {
      assert EventOk(s, s.inserted[i]);
    }
    forall i | 0 <= i < |s'.inserted| && i !in s'.events
      ensures Excused(s', s'.inserted[i])
    {
      assert EventOk(s, s.inserted[i]);
      if i !in s.events { assert Excused(s, s.inserted[i]); }
    }
    forall t: ThreadId
      ensures CursorOf(s', t) == CursorOf(s, t)
    {
    }
  }

  lemma DropFrame(s: State, r: RunId, ids: set<EventId>, w: nat)
    requires r in s.runs && (s.runs[r].thread.Some? ==> s.runs[r].thread.value in s.threads)
    ensures var s' := DropEvents(s, r, ids, w);
            && s' == s.(runs := s'.runs, threads := s'.threads, events := s.events - ids)
            && s'.runs == s.runs[r := s.runs[r].(eventPrunedThrough := Max(s.runs[r].eventPrunedThrough, w))]
            && s'.threads.Keys == s.threads.Keys
            && (forall t :: t in s.threads ==>
                  s'.threads[t] == s.threads[t].(eventPrunedThrough :=
                    if s.runs[r].thread == Some(t) then Max(s.threads[t].eventPrunedThrough, w) else s.threads[t].eventPrunedThrough))
  {
  }

  // ---- changes of ownership are neutral up to the event they record ----

  lemma NeutralTrans(a: State, b: State, c: State)
    requires LogNeutral(a, b) && LogNeutral(b, c)
    ensures LogNeutral(a, c)
  {
  }

  lemma SetRunNeutral(s: State, r: RunId, run: Run)
    requires LogInv(s) && r in s.runs
    requires run.thread == s.runs[r].thread && run.eventSeq == s.runs[r].eventSeq
    requires run.eventPrunedThrough == s.runs[r].eventPrunedThrough
    ensures LogNeutral(s, SetRun(s, r, run)) && LogNeutral(s, Unlease(s, r, run))
  {
  }

  lemma ThreadStatusNeutral(s: State, t: Option<ThreadId>, status: string)
    requires LogInv(s)
    ensures LogNeutral(s, SetThreadStatus(s, t, status))
    ensures SetThreadStatus(s, t, status).runs == s.runs
  {
  }

  lemma ThreadErrorNeutral(s: State, t: Option<ThreadId>, error: Json)
    requires LogInv(s)
    ensures LogNeutral(s, SetThreadError(s, t, error))
    ensures SetThreadError(s, t, error).runs == s.runs
  {
  }

  /** `s'` is a log-neutral change `s1` of the unfinished run `r`, followed by recording `n`, which is
      terminal exactly if the run now is. */
  ghost predicate Via(s: State, s1: State, r: RunId, n: Notice, s': State) {
    && LogNeutral(s, s1)
    && r in s.runs && !IsTerminal(s.runs[r].status)
    && s1.runs.Keys == s.runs.Keys && (forall q :: q in s.runs && q != r ==> s1.runs[q] == s.runs[q])
    && n.terminal == IsTerminal(s1.runs[r].status)
    && Record(s1, r, n) == Commit(s')
  }

  lemma ViaKeepsLog(s: State, s1: State, r: RunId, n: Notice, s': State)
    requires LogInv(s) && Via(s, s1, r, n, s')
    ensures LogInv(s')
  {
    NeutralKeepsLog(s, s1);
    RecordKeepsLog(s1, r, n, s');
  }

  lemma LetGoNeutral(s: State, r: RunId, status: RunStatus, why: RunReason, next: Option<Time>)
    requires LogInv(s) && r in s.runs
    ensures LogNeutral(s, LetGo(s, r, status, why, next))
  {
    SetRunNeutral(s, r, Released(s.runs[r], status, why, next, s.clock));
  }

  lemma GrantKeepsLog(s: State, cfg: Config, r: RunId, owner: Owner)
    requires LogInv(s) && MayGrant(s, r)
    ensures LogInv(Grant(Prepare(s, r), cfg, r, owner))
  {
    PrepareNeutral(s, r);
    NeutralKeepsLog(s, Prepare(s, r));
    PrepareFrame(s, r);
    GrantNeutral(Prepare(s, r), cfg, r, owner);
    NeutralKeepsLog(Prepare(s, r), Grant(Prepare(s, r), cfg, r, owner));
  }

  lemma PrepareNeutral(s: State, r: RunId)
    requires LogInv(s) && r in s.runs && ThreadPresent(s, s.runs[r])
    ensures LogNeutral(s, Prepare(s, r))
  {
    PrepareCaptures(s, r);
    if s.runs[r].thread.Some? {
      BaselinedKeepsLog(s, r);
      ThreadStatusNeutral(Baselined(s, r), s.runs[r].thread, "busy");
    }
  }

  lemma BaselinedKeepsLog(s: State, r: RunId)
    requires LogInv(s) && r in s.runs && ThreadPresent(s, s.runs[r])
    ensures LogNeutral(s, Baselined(s, r)) && LogInv(Baselined(s, r))
  {
    NeutralKeepsLog(s, Baselined(s, r));
  }

  lemma GrantNeutral(s: State, cfg: Config, r: RunId, owner: Owner)
    requires r in s.runs && forall q :: q in s.runs ==> q in s.issued
    ensures LogNeutral(s, Grant(s, cfg, r, owner))
  {
  }

  lemma EndOfAttemptsNeutral(s: State, r: RunId)
    requires LogInv(s) && r in s.runs
    ensures LogNeutral(s, EndOfAttempts(s, r))
  {
    var row := s.runs[r].(status := Error, reason := Some(InfrastructureError), nextAttemptAt := None, updatedAt := s.clock);
    SetRunNeutral(s, r, row);
    NeutralKeepsLog(s, SetRun(s, r, row));
    ThreadStatusNeutral(SetRun(s, r, row), s.runs[r].thread, "idle");
    NeutralTrans(s, SetRun(s, r, row), EndOfAttempts(s, r));
  }

  lemma EndOfAttemptsRuns(s: State, r: RunId)
    requires r in s.runs
    ensures EndOfAttempts(s, r).runs == SetRun(s, r, EndOfAttempts(s, r).runs[r]).runs
    ensures EndOfAttempts(s, r).runs[r].status == Error
  {
  }

  lemma ExhaustVia(s: State, r: RunId, s': State) returns (s1: State, n: Notice)
    requires LogInv(s) && r in s.runs && s.runs[r].status == Pending && Exhaust(s, r) == Commit(s')
    ensures Via(s, s1, r, n, s')
  {
    s1, n := EndOfAttempts(s, r), StatusNotice(Error, "infrastructure_error");
    EndOfAttemptsNeutral(s, r);
    EndOfAttemptsRuns(s, r);
  }

  lemma LetGoVia(s: State, r: RunId, status: RunStatus, why: RunReason, next: Option<Time>, n: Notice, s': State)
    requires LogInv(s) && r in s.runs && s.runs[r].status == Running && n.terminal == IsTerminal(status)
    requires Record(LetGo(s, r, status, why, next), r, n) == Commit(s')
    ensures Via(s, LetGo(s, r, status, why, next), r, n, s')
  {
    LetGoNeutral(s, r, status, why, next);
  }

  lemma FinishVia(s: State, r: RunId, owner: Owner, e: Ending, payload: Option<Json>, preceding: seq<Plain>, s': State)
      returns (s0: State, s1: State, n: Notice)
    requires OwnershipInv(s) && LogInv(s) && r in s.runs && !IsTerminal(s.runs[r].status)
    requires Finish(s, r, owner, EndStatus(e), EndReason(e), payload, preceding) == Commit(s')
    ensures RecordAll(s, r, preceding) == Commit(s0) && Via(s0, s1, r, n, s')
  {
    s0 := RecordAll(s, r, preceding).db;
    RecordAllIsLogged(s, r, preceding, s0);
    RecordAllKeepsLog(s, r, preceding, s0);
    assert RunOk(s.runs[r], LeaseOf(s, r));
    s1, n := FinishShape(s0, r, e, payload, s');
  }

  lemma FinishShape(s: State, r: RunId, e: Ending, payload: Option<Json>, s': State) returns (s1: State, n: Notice)
    requires LogInv(s) && Executing(s, r)
    requires var change := Transit(s.runs[r].status, EndStatus(e), EndReason(e), s.runs[r].retryCount);
             change.Valid? && Record(LetGo(s, r, change.status, change.reason, None), r,
                                     StatusNotice(EndStatus(e), payload.GetOr("lifecycle"))) == Commit(s')
    ensures Via(s, s1, r, n, s')
  {
    var change := Transit(s.runs[r].status, EndStatus(e), EndReason(e), s.runs[r].retryCount);
    n := StatusNotice(EndStatus(e), payload.GetOr("lifecycle"));
    s1 := LetGo(s, r, change.status, change.reason, None);
    LetGoVia(s, r, change.status, change.reason, None, n, s');
  }

  lemma FailVia(s: State, cfg: Config, r: RunId, owner: Owner, infra: bool, reason: RunReason, s': State)
      returns (s1: State, n: Notice)
    requires LogInv(s) && Executing(s, r) && reason in {BusinessError, InfrastructureError}
    requires Fail(s, cfg, r, owner, infra, reason) == Commit(s')
    ensures Via(s, s1, r, n, s')
  {
    var status, why, next := FailShape(s, cfg, r, owner, infra, reason, s');
    n := StatusNotice(status, "lifecycle");
    s1 := LetGo(s, r, status, why, next);
    LetGoVia(s, r, status, why, next, n, s');
  }

  lemma ShutNeutral(s: State, r: RunId, status: RunStatus, why: RunReason, next: Option<Time>, drained: bool)
    requires LogInv(s) && r in s.runs
    ensures LogNeutral(s, ShutState(s, r, status, why, next, drained))
  {
    var s1 := LetGo(s, r, status, why, next);
    LetGoNeutral(s, r, status, why, next);
    NeutralKeepsLog(s, s1);
    ThreadStatusNeutral(s1, s.runs[r].thread, "idle");
    var s2 := SetThreadStatus(s1, s.runs[r].thread, "idle");
    NeutralKeepsLog(s1, s2);
    SetRunNeutral(s2, r, s2.runs[r].(drained := s2.runs[r].drained || drained));
    NeutralTrans(s, s1, s2);
    NeutralTrans(s, s2, Drain(s2, r, drained));
  }

  lemma ShutRuns(s: State, r: RunId, status: RunStatus, why: RunReason, next: Option<Time>, drained: bool)
    requires r in s.runs
    ensures var s1 := ShutState(s, r, status, why, next, drained);
            s1.runs.Keys == s.runs.Keys && s1.runs[r].status == status && forall q :: q in s.runs && q != r ==> s1.runs[q] == s.runs[q]
  {
  }

  lemma ShutdownVia(s: State, cfg: Config, r: RunId, owner: Owner, drained: bool, s': State) returns (s1: State, n: Notice)
    requires LogInv(s) && Executing(s, r) && RequeueForShutdown(s, cfg, r, owner, drained) == Commit(s')
    ensures Via(s, s1, r, n, s')
  {
    var next := Some(s.clock + RetryDelay(cfg, s.runs[r].retryCount));
    s1, n := ShutState(s, r, Pending, ShutdownRequeue, next, drained), StatusNotice(Pending, "lifecycle");
    ShutNeutral(s, r, Pending, ShutdownRequeue, next, drained);
    ShutRuns(s, r, Pending, ShutdownRequeue, next, drained);
  }

  lemma ReapedNeutral(s: State, r: RunId, status: RunStatus, why: RunReason, next: Option<Time>)
    requires LogInv(s) && r in s.runs
    ensures LogNeutral(s, ReapedState(s, r, status, why, next))
  {
    var s1 := LetGo(s, r, status, why, next);
    LetGoNeutral(s, r, status, why, next);
    NeutralKeepsLog(s, s1);
    var s2 := SetThreadStatus(s1, s.runs[r].thread, "idle");
    ThreadStatusNeutral(s1, s.runs[r].thread, "idle");
    NeutralKeepsLog(s1, s2);
    NeutralTrans(s, s1, s2);
    ThreadErrorNeutral(s2, s.runs[r].thread, "infrastructure_error");
    NeutralTrans(s, s2, SetThreadError(s2, s.runs[r].thread, "infrastructure_error"));
  }

  lemma ReapedRuns(s: State, r: RunId, status: RunStatus, why: RunReason, next: Option<Time>)
    requires r in s.runs
    ensures var s1 := ReapedState(s, r, status, why, next);
            s1.runs.Keys == s.runs.Keys && s1.runs[r].status == status && forall q :: q in s.runs && q != r ==> s1.runs[q] == s.runs[q]
  {
  }

  lemma ReapedVia(s: State, r: RunId, status: RunStatus, why: RunReason, next: Option<Time>, s': State)
    requires LogInv(s) && Executing(s, r)
    requires Record(ReapedState(s, r, status, why, next), r, StatusNotice(status, "lifecycle")) == Commit(s')
    ensures Via(s, ReapedState(s, r, status, why, next), r, StatusNotice(status, "lifecycle"), s')
  {
    ReapedNeutral(s, r, status, why, next);
    ReapedRuns(s, r, status, why, next);
  }

  lemma ReapVia(s: State, cfg: Config, r: RunId, s': State) returns (s1: State, n: Notice)
    requires LogInv(s) && Executing(s, r) && Reapable(s, r) && Reap(s, cfg, r) == Commit(s')
    ensures Via(s, s1, r, n, s')
  {
    var status, why, next := ReapShape(s, cfg, r, s');
    ReapedVia(s, r, status, why, next, s');
    s1, n := ReapedState(s, r, status, why, next), StatusNotice(status, "lifecycle");
  }

  lemma CancelledNeutral(s: State, r: RunId)
    requires LogInv(s) && r in s.runs
    ensures LogNeutral(s, Cancelled(s, r, Interrupted, CancelRequested))
  {
    var row := s.runs[r].(status := Interrupted, reason := Some(CancelRequested), updatedAt := s.clock);
    SetRunNeutral(s, r, row);
    SetRunNeutral(s, r, row.(leaseOwner := None, leaseExpiresAt := None));
  }

  lemma CancelVia(s: State, r: RunId, s': State) returns (s1: State, n: Notice)
    requires LogInv(s) && r in s.runs && s.runs[r].status in {Pending, Running} && s.runs[r].retryCount <= MAX_INFRASTRUCTURE_RETRIES
    requires Cancel(s, r) == Commit(s')
    ensures Via(s, s1, r, n, s')
  {
    s1, n := Cancelled(s, r, Interrupted, CancelRequested), StatusNotice(Interrupted, "cancel_requested");
    CancelledNeutral(s, r);
  }

  lemma RollBackKeepsLog(s: State, r: RunId, s': State)
    requires LogInv(s) && RequestRollback(s, r) == Commit(s')
    ensures LogInv(s')
  {
    if r in s.runs {
      if s.runs[r].leaseOwner.None? {
        DeletionKeepsLog(s, r, s');
      } else {
        SetRunNeutral(s, r, s.runs[r].(status := Interrupted, reason := Some(Rollback), updatedAt := s.clock));
        NeutralKeepsLog(s, s');
      }
    }
  }

  lemma StatusKeepsLog(s: State, thread: Option<ThreadId>, status: string)
    requires LogInv(s)
    ensures LogInv(SetThreadStatus(s, thread, status))
  {
    ThreadStatusNeutral(s, thread, status);
    NeutralKeepsLog(s, SetThreadStatus(s, thread, status));
  }

  lemma UnleaseKeepsLog(s: State, r: RunId)
    requires LogInv(s) && r in s.runs
    ensures LogInv(Unlease(s, r, s.runs[r].(leaseOwner := None, leaseExpiresAt := None)))
  {
    var row := s.runs[r].(leaseOwner := None, leaseExpiresAt := None);
    SetRunNeutral(s, r, row);
    NeutralKeepsLog(s, Unlease(s, r, row));
  }

  /** A released lease leaves the thread idle or waiting for its interrupts. */
  lemma ReleaseShape(s: State, r: RunId, owner: Owner) returns (status: string)
    requires ReleaseCancelled(s, r, owner) != s
    ensures r in s.runs
    ensures ReleaseCancelled(s, r, owner) ==
            SetThreadStatus(Unlease(s, r, s.runs[r].(leaseOwner := None, leaseExpiresAt := None)), s.runs[r].thread, status)
  {
    var thread := s.runs[r].thread;
    status := if thread.Some? && thread.value in s.threads && s.threads[thread.value].projection.interrupts != map[]
              then "interrupted" else "idle";
  }

  lemma ReleaseKeepsLog(s: State, r: RunId, owner: Owner)
    requires LogInv(s)
    ensures LogInv(ReleaseCancelled(s, r, owner))
  {
    if ReleaseCancelled(s, r, owner) != s {
      var status := ReleaseShape(s, r, owner);
      UnleaseKeepsLog(s, r);
      StatusKeepsLog(Unlease(s, r, s.runs[r].(leaseOwner := None, leaseExpiresAt := None)), s.runs[r].thread, status);
    }
  }

  lemma TablesKeepLog(s: State, s': State, k: Kind)
    requires LogInv(s) && IsKind(s, s', k) && (k.WorkerWrote? || k.StateUpdated? || k.LatestKept?)
    ensures LogInv(s')
  {
    TableKinds(s, s', k);
    NeutralKeepsLog(s, s');
  }

  lemma ReorderKeepsLog(s: State, t: ThreadId, expected: seq<RunId>, requested: seq<RunId>, s': State)
    requires LogInv(s) && Reorder(s, t, expected, requested) == Commit(s')
    ensures LogInv(s')
  {
    NeutralKeepsLog(s, s');
  }

  lemma CreateKeepsLog(s: State, cfg: Config, r: RunId, sub: Submission)
    requires LogInv(s) && r !in s.issued
    ensures LogInv(SetRun(s, r, NewRun(s, cfg, sub)).(issued := s.issued + {r}))
  {
    NeutralKeepsLog(s, SetRun(s, r, NewRun(s, cfg, sub)).(issued := s.issued + {r}));
  }

  lemma DeltasKeepLog(s: State, r: RunId, notices: seq<Notice>, s': State)
    requires LogInv(s) && RecordDeltas(s, r, None, notices) == Commit(s')
    ensures LogInv(s')
  {
    BatchIsFold(s, r, notices);
    RecordAllKeepsLog(s, r, AsMessages(notices), s');
  }

  lemma RetainKeepsLog(s: State, r: RunId, cutoff: Time, batch: nat, ids: set<EventId>)
    requires LogInv(s)
    ensures LogInv(PruneEvents(s, r, cutoff, batch, ids))
  {
    if MayPrune(s, r, cutoff, batch, ids) { PruneKeepsLog(s, r, cutoff, batch, ids); }
  }

  /** Which operation a maintenance step runs. */
  ghost predicate MaintenanceIs(s: State, step: Step, s': State) {
    match step
    case Publish(r, notices) => RecordAll(s, r, notices) == Commit(s')
    case PublishDeltas(r, notices) => RecordDeltas(s, r, None, notices) == Commit(s')
    case PublishRunless(t, n) => RecordEvent(s, None, Some(t), n) == Commit(s')
    case Retain(r, cutoff, batch, ids) => s' == PruneEvents(s, r, cutoff, batch, ids)
    case Tick(d) => s' == s || (d >= 0.0 && s' == s.(clock := s.clock + d))
    case OpenThread(t, p) => s' == s || (t !in s.threads && s' == s.(threads := s.threads[t := Thread(p, 0, 0)]))
    case EditThread(t, p) => s' == s || (t in s.threads && s' == SetProjection(s, t, p))
    case _ => false
  }

  lemma MaintenanceShape(s: State, step: Step, s': State)
    requires IsMaintenance(step) && Transact(s, step) == Commit(s')
    ensures MaintenanceIs(s, step, s')
  {
  }

  lemma MaintenanceKeepsLog(s: State, step: Step, s': State)
    requires LogInv(s) && MaintenanceIs(s, step, s')
    ensures LogInv(s')
  {
    match step {
      case Publish(r, notices) => RecordAllKeepsLog(s, r, notices, s');
      case PublishDeltas(r, notices) => DeltasKeepLog(s, r, notices, s');
      case PublishRunless(t, n) => RunlessKeepsLog(s, t, n, s');
      case Retain(r, cutoff, batch, ids) => RetainKeepsLog(s, r, cutoff, batch, ids);
      case Tick(d) => if s' != s { TickKeepsLog(s, d); }
      case OpenThread(t, p) => if s' != s { OpenKeepsLog(s, t, p); }
      case EditThread(t, p) => if s' != s { EditKeepsLog(s, t, p); }
    }
  }

  lemma TickKeepsLog(s: State, d: Time)
    requires LogInv(s)
    ensures LogInv(s.(clock := s.clock + d))
  {
    NeutralKeepsLog(s, s.(clock := s.clock + d));
  }

  lemma OpenKeepsLog(s: State, t: ThreadId, p: Projection)
    requires LogInv(s) && t !in s.threads
    ensures LogInv(s.(threads := s.threads[t := Thread(p, 0, 0)]))
  {
    NeutralKeepsLog(s, s.(threads := s.threads[t := Thread(p, 0, 0)]));
  }

  lemma EditKeepsLog(s: State, t: ThreadId, p: Projection)
    requires LogInv(s) && t in s.threads
    ensures LogInv(SetProjection(s, t, p))
  {
    NeutralKeepsLog(s, SetProjection(s, t, p));
  }

  predicate RecordsItself(step: Step) {
    step.FinishRun? || step.FailRun? || step.ShutDown? || step.ReapRun? || step.CancelRun?
  }

  /** Every transaction that ends or requeues a run records exactly that, after at most some plain events. */
  lemma RunMoveVia(s: State, step: Step, s': State) returns (preceding: seq<Plain>, s0: State, s1: State, n: Notice)
    requires OwnershipInv(s) && LogInv(s) && RecordsItself(step) && Transact(s, step) == Commit(s') && s' != s
    ensures RecordAll(s, step.r, preceding) == Commit(s0) && Via(s0, s1, step.r, n, s')
  {
    preceding, s0 := [], s;
    assert RunOk(s.runs[step.r], LeaseOf(s, step.r));
    match step {
      case FinishRun(r, owner, e, payload, before) =>
        preceding := before;
        s0, s1, n := FinishVia(s, r, owner, e, payload, before, s');
      case FailRun(cfg, r, owner, infra) =>
        s1, n := FailVia(s, cfg, r, owner, infra, if infra then InfrastructureError else BusinessError, s');
      case ShutDown(cfg, r, owner, drained) => s1, n := ShutdownVia(s, cfg, r, owner, drained, s');
      case ReapRun(cfg, r) => s1, n := ReapVia(s, cfg, r, s');
      case CancelRun(r) => s1, n := CancelVia(s, r, s');
    }
  }

  lemma RenewKeepsLog(s: State, cfg: Config, r: RunId, owner: Owner)
    requires LogInv(s)
    ensures LogInv(Renew(s, cfg, r, owner))
  {
    NeutralKeepsLog(s, Renew(s, cfg, r, owner));
  }

  lemma LogStep(s: State, step: Step)
    requires OwnershipInv(s) && LogInv(s)
    ensures LogInv(Apply(s, step))
  {
    var tx := Transact(s, step);
    if tx.Commit? && tx.db != s {
      if IsMaintenance(step) {
        MaintenanceShape(s, step, tx.db);
        MaintenanceKeepsLog(s, step, tx.db);
      } else if RecordsItself(step) {
        var preceding, s0, s1, n := RunMoveVia(s, step, tx.db);
        RecordAllKeepsLog(s, step.r, preceding, s0);
        ViaKeepsLog(s0, s1, step.r, n, tx.db);
      } else {
        OtherKeepsLog(s, step, tx.db);
      }
    }
  }

  lemma OtherKeepsLog(s: State, step: Step, s': State)
    requires LogInv(s) && Transact(s, step) == Commit(s') && s' != s && !IsMaintenance(step) && !RecordsItself(step)
    ensures LogInv(s')
  {
    match step {
      case Submit(cfg, r, sub) => CreateKeepsLog(s, cfg, r, sub);
      case RenewLease(cfg, r, owner) => RenewKeepsLog(s, cfg, r, owner);
      case ReleaseLease(r, owner) => ReleaseKeepsLog(s, r, owner);
      case ClaimNext(cfg, r, owner) =>
        if s.runs[r].retryCount >= s.runs[r].maxAttempts {
          var s1, n := ExhaustVia(s, r, s');
          ViaKeepsLog(s, s1, r, n, s');
        } else {
          GrantKeepsLog(s, cfg, r, owner);
        }
      case RollBack(r) => RollBackKeepsLog(s, r, s');
      case CompleteRollBack(r, worker) => DeletionKeepsLog(s, r, s');
      case WorkerWrite(w, at, change) => TablesKeepLog(s, s', WorkerWrote(w, at, change));
      case StateUpdate(at, onBehalf, change) => TablesKeepLog(s, s', StateUpdated(at, onBehalf, change));
      case KeepLatest(t) => TablesKeepLog(s, s', LatestKept(t));
      case ReorderQueue(t, expected, requested) => ReorderKeepsLog(s, t, expected, requested, s');
    }
  }
}
