/** A deferred rollback freezes its thread's checkpoints until it is carried out. */
module RollbackFreeze {
  import opened Wrappers
  import opened RunState
  import opened Tables
  import opened RunStore
  import opened CheckpointMutations
  import opened CoreApi
  import opened Protocol
  import opened StepCases
  import opened Kinds
  import opened Invariants
  import opened RunSteps

  /** Run `r` of thread `t` was accepted for rollback and waits for its worker. */
  ghost predicate Awaiting(s: State, r: RunId, t: ThreadId) {
    r in s.runs && s.runs[r].thread == Some(t) && s.runs[r].reason == Some(Rollback) && MayRollback(s, r)
  }

  function BaselinesOf(s: State, t: ThreadId): map<RunId, Baseline> {
    map q | q in s.baselines && s.baselines[q].thread == t :: s.baselines[q]
  }

  /** The thread's checkpoints, writes and baselines did not change and the rollback is still acceptable. */
  ghost predicate StillFrozen(s: State, s': State, r: RunId, t: ThreadId) {
    && Awaiting(s', r, t)
    && HistoryOf(s', OfThread(t)) == HistoryOf(s, OfThread(t))
    && BaselinesOf(s', t) == BaselinesOf(s, t)
  }

  /** What `MayRollback` looks at stayed the same for run `r`. */
  lemma FreezeFrame(s: State, s': State, r: RunId, t: ThreadId)
    requires Awaiting(s, r, t) && BaselineInv(s)
    requires r in s'.runs && s'.runs[r].thread == Some(t) && s'.runs[r].reason == Some(Rollback)
    requires s'.runs[r].retryCount == s.runs[r].retryCount && s'.runs[r].status == s.runs[r].status
    requires t in s'.threads && HistoryOf(s', OfThread(t)) == HistoryOf(s, OfThread(t))
    requires forall q :: q in s'.runs && q != r && s'.runs[q].thread == Some(t) ==> !Active(s'.runs[q])
    requires forall q :: q in s.baselines && s.baselines[q].thread == t ==> q in s'.baselines && s'.baselines[q] == s.baselines[q]
    requires forall q :: q in s'.baselines && s'.baselines[q].thread == t ==> q in s.baselines && s'.baselines[q] == s.baselines[q]
    requires r in s'.baselines ==> s'.baselines[r].thread == t
    ensures StillFrozen(s, s', r, t)
  {
    if r in s.baselines {
      assert s.baselines[r].thread == t;
    }
  }

  lemma OnlyOneActive(s: State, r: RunId, t: ThreadId)
    requires ActiveInv(s) && Awaiting(s, r, t)
    ensures forall q :: q in s.runs && q != r && s.runs[q].thread == Some(t) ==> !Active(s.runs[q])
  {
  }

  lemma FreezeQuiet(s: State, s': State, r: RunId, t: ThreadId)
    requires CoreInv(s) && Awaiting(s, r, t) && Quiet(s, s')
    ensures StillFrozen(s, s', r, t)
  {
    OnlyOneActive(s, r, t);
    forall q | q in s'.runs ensures SameLife(s.runs[q], s'.runs[q]) {}
    FreezeFrame(s, s', r, t);
  }

  lemma FreezeMove(s: State, s': State, q: RunId, r: RunId, t: ThreadId)
    requires CoreInv(s) && Awaiting(s, r, t) && Moved(s, s', q) && q != r
    ensures StillFrozen(s, s', r, t)
  {
    OnlyOneActive(s, r, t);
    FreezeFrame(s, s', r, t);
  }

  lemma FreezeGrant(s: State, cfg: Config, q: RunId, owner: Owner, r: RunId, t: ThreadId)
    requires CoreInv(s) && Awaiting(s, r, t) && MayGrant(s, q)
    ensures StillFrozen(s, Grant(Prepare(s, q), cfg, q, owner), r, t)
  {
    OnlyOneActive(s, r, t);
    assert Blocking(s.runs[r], s.clock);
    assert s.runs[q].thread != Some(t);
    PrepareFrame(s, q);
    BaselineCapture(s, q);
    BaselineGrant(s, cfg, q, owner);
    FreezeFrame(s, Grant(Prepare(s, q), cfg, q, owner), r, t);
  }

  lemma FreezeDelete(s: State, s': State, q: RunId, r: RunId, t: ThreadId)
    requires CoreInv(s) && Awaiting(s, r, t) && RollbackRun(s, q) == Commit(s') && q != r
    ensures StillFrozen(s, s', r, t)
  {
    OnlyOneActive(s, r, t);
    DeletedElsewhere(s, q, r, t);
    DeletionTables(s, q, s', OfThread(t));
    DeletionFrame(s, q, s');
    FreezeFrame(s, s', r, t);
  }

  /** While `r` waits, only runs of other threads can be deleted. */
  lemma DeletedElsewhere(s: State, q: RunId, r: RunId, t: ThreadId)
    requires BaselineInv(s) && Awaiting(s, r, t) && RollbackRun(s, q).Commit? && q != r
    ensures q in s.runs && s.runs[q].thread != Some(t) && (q in s.baselines ==> s.baselines[q].thread != t)
  {
    assert Active(s.runs[r]);
  }

  /** No checkpoint write of any kind reaches the thread. */
  lemma NothingWrites(s: State, s': State, k: Kind, r: RunId, t: ThreadId)
    requires CoreInv(s) && Awaiting(s, r, t) && IsKind(s, s', k)
    ensures k.WorkerWrote? ==> k.at != OfThread(t)
    ensures k.StateUpdated? ==> k.at != OfThread(t)
    ensures k.LatestKept? ==> k.t != t
  {
    OnlyOneActive(s, r, t);
    assert Active(s.runs[r]) && RunOk(s.runs[r], LeaseOf(s, r));
  }

  lemma FreezeTables(s: State, s': State, k: Kind, r: RunId, t: ThreadId)
    requires CoreInv(s) && Awaiting(s, r, t) && IsKind(s, s', k)
    requires k.WorkerWrote? || k.StateUpdated? || k.LatestKept?
    ensures StillFrozen(s, s', r, t)
  {
    OnlyOneActive(s, r, t);
    NothingWrites(s, s', k, r, t);
    OtherTables(s, s', k, t);
    TableKinds(s, s', k);
    FreezeFrame(s, s', r, t);
  }

  lemma FreezeReorder(s: State, s': State, u: ThreadId, expected: seq<RunId>, requested: seq<RunId>, r: RunId, t: ThreadId)
    requires CoreInv(s) && Awaiting(s, r, t) && Reorder(s, u, expected, requested) == Commit(s')
    ensures StillFrozen(s, s', r, t)
  {
    OnlyOneActive(s, r, t);
    FreezeFrame(s, s', r, t);
  }

  /** A marked run is terminal, leased and not cancelled. */
  predicate IsMarked(s: State, r: RunId) {
    r in s.runs && s.runs[r].status == Interrupted && s.runs[r].reason == Some(Rollback) && s.runs[r].leaseOwner.Some?
  }

  lemma OwnMoveIsIdle(s: State, step: Step, r: RunId)
    requires IsMarked(s, r) && IsRunMove(step) && step.r == r
    ensures Apply(s, step) == s
  {
  }

  lemma OwnRequest(s: State, r: RunId)
    requires IsMarked(s, r)
    ensures var s' := Apply(s, RollBack(r)); s' == s || s' == Marked(s, r)
  {
  }

  lemma OwnCompletion(s: State, r: RunId, worker: Option<Owner>)
    requires IsMarked(s, r)
    ensures var s' := Apply(s, CompleteRollBack(r, worker)); s' == s || r !in s'.runs
  {
    if RollbackRun(s, r).Commit? { DeletionFrame(s, r, RollbackRun(s, r).db); }
  }

  lemma OwnSubmission(s: State, step: Step, r: RunId)
    requires IsMarked(s, r) && (step.Submit? || step.ClaimNext?) && step.r == r && r in s.issued
    ensures Apply(s, step) == s
  {
  }

  /** The only things that a transaction about the run itself can do are to mark it again or to carry the rollback out. */
  lemma FreezeOwn(s: State, step: Step, r: RunId, t: ThreadId)
    requires OwnershipInv(s) && Awaiting(s, r, t) && Subject(step) == Some(r)
    ensures var s' := Apply(s, step); s' == s || s' == Marked(s, r) || r !in s'.runs
  {
    MarkedByInv(s, r);
    match step {
      case RollBack(_) => OwnRequest(s, r);
      case CompleteRollBack(_, worker) => OwnCompletion(s, r, worker);
      case Submit(_, _, _) => OwnSubmission(s, step, r);
      case ClaimNext(_, _, _) => OwnSubmission(s, step, r);
      case _ => OwnMoveIsIdle(s, step, r);
    }
  }

  lemma MarkedByInv(s: State, r: RunId)
    requires OwnershipInv(s) && r in s.runs && s.runs[r].reason == Some(Rollback)
    ensures IsMarked(s, r) && r in s.issued
  {
    assert RunOk(s.runs[r], LeaseOf(s, r));
  }

  lemma FreezeMark(s: State, r: RunId, t: ThreadId)
    requires CoreInv(s) && Awaiting(s, r, t)
    ensures StillFrozen(s, Marked(s, r), r, t)
  {
    assert RunOk(s.runs[r], LeaseOf(s, r));
    OnlyOneActive(s, r, t);
    FreezeFrame(s, Marked(s, r), r, t);
  }

  lemma FreezeStep(s: State, step: Step, r: RunId, t: ThreadId)
    requires CoreInv(s) && Awaiting(s, r, t) && r in Apply(s, step).runs
    ensures StillFrozen(s, Apply(s, step), r, t)
  {
    var s' := Apply(s, step);
    if Subject(step) == Some(r) {
      FreezeOwn(s, step, r, t);
      FreezeMark(s, r, t);
    } else {
      var k := Classify(s, step);
      FreezeKind(s, s', k, r, t);
    }
  }

  lemma FreezeKind(s: State, s': State, k: Kind, r: RunId, t: ThreadId)
    requires CoreInv(s) && Awaiting(s, r, t) && IsKind(s, s', k)
    requires k.Move? || k.Granting? || k.Creation? || k.Deletion? ==> k.r != r
    ensures StillFrozen(s, s', r, t)
  {
    match k {
      case Silent => FreezeQuiet(s, s', r, t);
      case Move(q) => FreezeMove(s, s', q, r, t);
      case Granting(cfg, q, owner) => FreezeGrant(s, cfg, q, owner, r, t);
      case Creation(cfg, q, sub) => FreezeCreate(s, cfg, q, sub, r, t);
      case Deletion(q) => FreezeDelete(s, s', q, r, t);
      case QueueEdited(u, expected, requested) => FreezeReorder(s, s', u, expected, requested, r, t);
      case _ => FreezeTables(s, s', k, r, t);
    }
  }

  lemma FreezeCreate(s: State, cfg: Config, q: RunId, sub: Submission, r: RunId, t: ThreadId)
    requires CoreInv(s) && Awaiting(s, r, t) && q !in s.issued
    ensures StillFrozen(s, SetRun(s, q, NewRun(s, cfg, sub)).(issued := s.issued + {q}), r, t)
  {
    OnlyOneActive(s, r, t);
    FreezeFrame(s, SetRun(s, q, NewRun(s, cfg, sub)).(issued := s.issued + {q}), r, t);
  }

  /** From acceptance until the run is deleted, no history changes the thread's checkpoints, writes or
      baselines, and the deferred rollback can be carried out without a conflict at any moment. */
  lemma {:induction false} RollbackFreezesThread(s: State, steps: seq<Step>, r: RunId, t: ThreadId)
    requires CoreInv(s) && Awaiting(s, r, t)
    ensures var s' := Exec(s, steps);
            r in s'.runs ==> StillFrozen(s, s', r, t) && RollbackRun(s', r).Commit?
    decreases |steps|
  {
    if steps != [] {
      var s1 := Apply(s, steps[0]);
      CoreStep(s, steps[0]);
      if r in s1.runs {
        FreezeStep(s, steps[0], r, t);
        RollbackFreezesThread(s1, steps[1..], r, t);
      } else {
        EveryRow(s, steps[0], r);
        GoneForever(s1, steps[1..], r);
      }
    }
  }

  /** An accepted request on a leased run starts the freeze. */
  lemma AcceptanceStartsFreeze(s: State, r: RunId, t: ThreadId, s': State)
    requires OwnershipInv(s) && r in s.runs && s.runs[r].thread == Some(t) && s.runs[r].leaseOwner.Some?
    requires RequestRollback(s, r) == Commit(s')
    ensures Awaiting(s', r, t) && HistoryOf(s', OfThread(t)) == HistoryOf(s, OfThread(t)) && BaselinesOf(s', t) == BaselinesOf(s, t)
  {
    assert RunOk(s.runs[r], LeaseOf(s, r));
    assert r in s.baselines;
  }

  /** The worker that holds the run asks, or its lease has expired, or nobody holds it. */
  predicate MayComplete(run: Run, worker: Option<Owner>, now: Time) {
    || (worker.Some? && worker == run.leaseOwner)
    || (run.leaseExpiresAt.Some? && run.leaseExpiresAt.value <= now)
    || run.leaseOwner == None
  }

  /** Once the worker acknowledged or its lease expired, the run goes and its baseline is what remains. */
  lemma StoppedRollbackRestores(s: State, r: RunId, t: ThreadId, worker: Option<Owner>)
    requires CoreInv(s) && Awaiting(s, r, t) && MayComplete(s.runs[r], worker, s.clock)
    ensures var s' := CompleteRollback(s, r, worker);
            && r in s.baselines && r !in s'.runs && r !in s'.baselines && r !in s'.leases
            && HistoryOf(s', OfThread(t)) == s.baselines[r].history
            && s'.threads[t].projection == s.baselines[r].projection
            && s'.threads[t].eventSeq == s.threads[t].eventSeq
  {
    assert RunOk(s.runs[r], LeaseOf(s, r));
  }

  lemma FrozenBaseline(s: State, s': State, r: RunId, t: ThreadId)
    requires BaselinesOf(s', t) == BaselinesOf(s, t) && r in s'.baselines && s'.baselines[r].thread == t
    ensures r in s.baselines && s'.baselines[r] == s.baselines[r]
  {
    assert r in BaselinesOf(s', t);
    assert BaselinesOf(s', t)[r] == s'.baselines[r];
  }

  lemma BaselineThread(s: State, r: RunId, t: ThreadId)
    requires BaselineInv(s) && r in s.runs && r in s.baselines && s.runs[r].thread == Some(t)
    ensures s.baselines[r].thread == t
  {
  }

  lemma FrozenRestores(s: State, s': State, r: RunId, t: ThreadId, worker: Option<Owner>)
    requires CoreInv(s') && Awaiting(s', r, t) && MayComplete(s'.runs[r], worker, s'.clock) && BaselinesOf(s', t) == BaselinesOf(s, t)
    ensures var s2 := CompleteRollback(s', r, worker);
            && r in s.baselines && r !in s2.runs && r !in s2.baselines && r !in s2.leases
            && t in s'.threads && t in s2.threads && HistoryOf(s2, OfThread(t)) == s.baselines[r].history
            && s2.threads[t].projection == s.baselines[r].projection
            && s2.threads[t].eventSeq == s'.threads[t].eventSeq
  {
    StoppedRollbackRestores(s', r, t, worker);
    BaselineThread(s', r, t);
    FrozenBaseline(s, s', r, t);
  }

  lemma FrozenUntilStopped(s: State, r: RunId, t: ThreadId, after: seq<Step>)
    requires CoreInv(s) && r in s.runs && s.runs[r].thread == Some(t) && s.runs[r].leaseOwner.Some?
    requires RequestRollback(s, r).Commit? && r in Exec(RequestRollback(s, r).db, after).runs
    ensures var s' := Exec(RequestRollback(s, r).db, after);
            CoreInv(s') && StillFrozen(s, s', r, t) && RollbackRun(s', r).Commit?
  {
    var s1 := RequestRollback(s, r).db;
    AcceptanceStartsFreeze(s, r, t, s1);
    RequestIsStep(s, r, s1);
    CoreStep(s, RollBack(r));
    CoreAlways(s1, after);
    RollbackFreezesThread(s1, after, r, t);
  }

  /** From the request on, whatever happens until the worker stopped or lost its lease: the run goes, and the thread gets
      exactly the baseline that stood when the rollback was accepted. */
  lemma DeferredRollbackRestores(s: State, r: RunId, t: ThreadId, after: seq<Step>, worker: Option<Owner>)
    requires CoreInv(s) && r in s.runs && s.runs[r].thread == Some(t) && s.runs[r].leaseOwner.Some?
    requires RequestRollback(s, r).Commit?
    requires var s' := Exec(RequestRollback(s, r).db, after); r in s'.runs && MayComplete(s'.runs[r], worker, s'.clock)
    ensures var s' := Exec(RequestRollback(s, r).db, after);
            var s2 := CompleteRollback(s', r, worker);
            && r in s.baselines && r !in s2.runs && r !in s2.baselines && r !in s2.leases
            && t in s'.threads && t in s2.threads && HistoryOf(s2, OfThread(t)) == s.baselines[r].history
            && s2.threads[t].projection == s.baselines[r].projection
            && s2.threads[t].eventSeq == s'.threads[t].eventSeq
  {
    FrozenUntilStopped(s, r, t, after);
    FrozenRestores(s, Exec(RequestRollback(s, r).db, after), r, t, worker);
  }
}
