/** Attempts that fail: nobody gives up early, a retry waits out its back-off and not longer. */
module RetryWaits {
  import opened Wrappers
  import opened RunState
  import opened Tables
  import opened RunStore
  import opened CheckpointMutations
  import opened CoreApi
  import opened Protocol
  import opened StepCases
  import opened Moves
  import opened Kinds
  import opened RunSteps
  import opened Invariants
  import opened TerminalEvents
  import opened Reachable
  import opened QueueHeads
  import opened Outcomes
  import opened LeaseTime

  // ---- giving up ----

  /** The settings under which the step's process runs, if it uses any. */
  function SettingsOf(step: Step): Option<Config> {
    match step
    case Submit(cfg, _, _) => Some(cfg)
    case ClaimNext(cfg, _, _) => Some(cfg)
    case RenewLease(cfg, _, _) => Some(cfg)
    case FailRun(cfg, _, _, _) => Some(cfg)
    case ShutDown(cfg, _, _, _) => Some(cfg)
    case ReapRun(cfg, _) => Some(cfg)
    case _ => None
  }

  /** Every process grants at least this many attempts. */
  predicate Grants(steps: seq<Step>, limit: nat) {
    forall step :: step in steps && SettingsOf(step).Some? ==> SettingsOf(step).value.maxAttempts >= limit
  }

  /** The run was given up as an infrastructure error only with its attempts used up. */
  predicate NotEarly(run: Run, limit: nat) {
    run.reason == Some(InfrastructureError) ==> run.status == Error && run.retryCount >= LeastOf(run.maxAttempts, limit)
  }

  lemma SettledNotEarly(s: State, s': State, r: RunId, status: RunStatus, reason: RunReason, next: Option<Time>, limit: nat)
    requires Settles(s, s', r, status, reason, next)
    requires reason == InfrastructureError ==> status == Error && s.runs[r].retryCount >= LeastOf(s.runs[r].maxAttempts, limit)
    ensures r in s'.runs && NotEarly(s'.runs[r], limit)
  {
  }

  lemma FailNotEarly(clock: Time, before: seq<Step>, cfg: Config, r: RunId, owner: Owner, infra: bool, limit: nat)
    requires var s := Reached(clock, before); RunsUnder(s, r, owner) && cfg.maxAttempts >= limit
    ensures var s' := Apply(Reached(clock, before), FailRun(cfg, r, owner, infra)); r in s'.runs && NotEarly(s'.runs[r], limit)
  {
    ReachedIsSound(clock, before, r);
    var s := Reached(clock, before);
    var v := OfFailure(s.clock, cfg, s.runs[r], infra);
    FailSettles(s, cfg, r, owner, infra);
    SettledNotEarly(s, Apply(s, FailRun(cfg, r, owner, infra)), r, v.status, v.reason, v.next, limit);
  }

  lemma ReapNotEarly(clock: Time, before: seq<Step>, cfg: Config, r: RunId, limit: nat)
    requires var s := Reached(clock, before);
             r in s.runs && s.runs[r].status == Running && s.runs[r].leaseExpiresAt.Some? && s.runs[r].leaseExpiresAt.value < s.clock
    ensures var s' := Apply(Reached(clock, before), ReapRun(cfg, r)); r in s'.runs && NotEarly(s'.runs[r], limit)
  {
    ReachedIsSound(clock, before, r);
    var s := Reached(clock, before);
    var v := OfReaping(s.clock, cfg, s.runs[r]);
    ReapSettles(s, cfg, r);
    SettledNotEarly(s, Apply(s, ReapRun(cfg, r)), r, v.status, v.reason, v.next, limit);
  }

  lemma ShutdownNotEarly(clock: Time, before: seq<Step>, cfg: Config, r: RunId, owner: Owner, drained: bool, limit: nat)
    requires RunsUnder(Reached(clock, before), r, owner)
    ensures var s' := Apply(Reached(clock, before), ShutDown(cfg, r, owner, drained)); r in s'.runs && NotEarly(s'.runs[r], limit)
  {
    ShutdownOutcome(clock, before, cfg, r, owner, drained);
    ShutBackNotEarly(Reached(clock, before), Apply(Reached(clock, before), ShutDown(cfg, r, owner, drained)), cfg, r, drained, limit);
  }

  lemma ShutBackNotEarly(s: State, s': State, cfg: Config, r: RunId, drained: bool, limit: nat)
    requires r in s.runs && ShutBack(s, s', cfg, r, drained)
    ensures r in s'.runs && NotEarly(s'.runs[r], limit)
  {
  }

  lemma FinishNotEarly(clock: Time, before: seq<Step>, step: Step, r: RunId, limit: nat)
    requires step.FinishRun? && step.r == r && RunsUnder(Reached(clock, before), r, step.owner)
    ensures var s' := Apply(Reached(clock, before), step); r in s'.runs && NotEarly(s'.runs[r], limit)
  {
    var s, s' := Reached(clock, before), Apply(Reached(clock, before), step);
    FinishOutcome(clock, before, r, step.owner, step.ending, step.payload, step.preceding);
    var e := step.ending;
    SettledNotEarly(s, s', r, if e.Completes? then Success else if e.RunsOutOfTime? then Timeout else Interrupted,
                    if e.Completes? then Completed else if e.RunsOutOfTime? then TimedOut
                    else if e.AwaitsHuman? then HitlInterrupt else CancelRequested, None, limit);
  }

  /** An owner's transaction on a run that it does not execute does nothing. */
  lemma NotExecuting(s: State, step: Step)
    requires OwnershipInv(s) && (step.FinishRun? || step.FailRun? || step.ShutDown?) && step.r in s.runs
    requires !RunsUnder(s, step.r, step.owner)
    ensures Apply(s, step) == s
  {
    assert RunOk(s.runs[step.r], LeaseOf(s, step.r));
  }

  lemma ReaperIdles(s: State, cfg: Config, r: RunId)
    requires r in s.runs
    requires s.runs[r].status != Running || s.runs[r].leaseExpiresAt.None? || s.runs[r].leaseExpiresAt.value >= s.clock
    ensures Apply(s, ReapRun(cfg, r)) == s
  {
  }

  lemma ServedNotEarly(s: State, s': State, cfg: Config, r: RunId, owner: Owner, limit: nat)
    requires r in s.runs && Served(s, s', cfg, r, owner)
    ensures NotEarly(s'.runs[r], limit)
  {
  }

  lemma ClientNotEarly(s: State, step: Step, r: RunId, limit: nat)
    requires OwnershipInv(s) && r in s.runs && NotEarly(s.runs[r], limit)
    requires step.CancelRun? || step.RollBack? || step.ReleaseLease? || step.RenewLease? || step.CompleteRollBack?
    requires step.r == r && r in Apply(s, step).runs
    ensures NotEarly(Apply(s, step).runs[r], limit)
  {
    match step {
      case CancelRun(_) => CancelNotEarly(s, r, limit);
      case RollBack(_) => RequestNotEarly(s, r, limit);
      case CompleteRollBack(_, worker) => CompletionKeepsAttempts(s, r, worker);
      case RenewLease(cfg, _, owner) => RenewalNotEarly(s, cfg, r, owner, limit);
      case ReleaseLease(_, owner) => ReleaseNotEarly(s, r, owner, limit);
    }
  }

  lemma CancelNotEarly(s: State, r: RunId, limit: nat)
    requires r in s.runs && NotEarly(s.runs[r], limit) && r in Apply(s, CancelRun(r)).runs
    ensures NotEarly(Apply(s, CancelRun(r)).runs[r], limit)
  {
    if Cancel(s, r).Commit? && !IsTerminal(s.runs[r].status) { CancelReason(s, r, Cancel(s, r).db); }
  }

  lemma RequestNotEarly(s: State, r: RunId, limit: nat)
    requires r in s.runs && NotEarly(s.runs[r], limit) && r in Apply(s, RollBack(r)).runs
    ensures NotEarly(Apply(s, RollBack(r)).runs[r], limit)
  {
  }

  lemma RenewalNotEarly(s: State, cfg: Config, r: RunId, owner: Owner, limit: nat)
    requires r in s.runs && NotEarly(s.runs[r], limit)
    ensures var s' := Apply(s, RenewLease(cfg, r, owner)); r in s'.runs && NotEarly(s'.runs[r], limit)
  {
  }

  lemma ReleaseNotEarly(s: State, r: RunId, owner: Owner, limit: nat)
    requires r in s.runs && NotEarly(s.runs[r], limit)
    ensures var s' := Apply(s, ReleaseLease(r, owner)); r in s'.runs && NotEarly(s'.runs[r], limit)
  {
  }

  lemma CancelReason(s: State, r: RunId, s': State)
    requires r in s.runs && !IsTerminal(s.runs[r].status) && Cancel(s, r) == Commit(s')
    ensures r in s'.runs && s'.runs[r].reason == Some(CancelRequested)
  {
    RecordIsLogged(Cancelled(s, r, Interrupted, CancelRequested), r, StatusNotice(Interrupted, "cancel_requested"), s');
  }

  lemma AppearsFresh(s: State, step: Step, r: RunId)
    requires OwnershipInv(s) && r !in s.runs && r in Apply(s, step).runs
    ensures Apply(s, step).runs[r].reason == None
  {
    var k := Classify(s, step);
    FreshKind(s, Apply(s, step), k, r);
  }

  lemma FreshKind(s: State, s': State, k: Kind, r: RunId)
    requires IsKind(s, s', k) && r !in s.runs && r in s'.runs
    ensures s'.runs[r].reason == None
  {
    match k {
      case Granting(cfg, q, o) => PrepareFrame(s, q);
      case Deletion(q) => DeletionFrame(s, q, s');
      case WorkerWrote(_, _, _) => TableKinds(s, s', k);
      case StateUpdated(_, _, _) => TableKinds(s, s', k);
      case LatestKept(_) => TableKinds(s, s', k);
      case _ =>
    }
  }

  lemma ClaimNotEarly(clock: Time, before: seq<Step>, cfg: Config, r: RunId, owner: Owner, limit: nat)
    requires r in Reached(clock, before).runs && NotEarly(Reached(clock, before).runs[r], limit)
    ensures var s' := Apply(Reached(clock, before), ClaimNext(cfg, r, owner)); r in s'.runs && NotEarly(s'.runs[r], limit)
  {
    var s, s' := Reached(clock, before), Apply(Reached(clock, before), ClaimNext(cfg, r, owner));
    ClaimServesExactlyTheNext(clock, before, cfg, r, owner);
    if s' != s { ServedNotEarly(s, s', cfg, r, owner, limit); }
  }

  lemma OwnerNotEarly(clock: Time, before: seq<Step>, step: Step, limit: nat)
    requires step.FinishRun? || step.FailRun? || step.ShutDown?
    requires step.r in Reached(clock, before).runs && NotEarly(Reached(clock, before).runs[step.r], limit) && Grants([step], limit)
    ensures var s' := Apply(Reached(clock, before), step); step.r in s'.runs && NotEarly(s'.runs[step.r], limit)
  {
    if !RunsUnder(Reached(clock, before), step.r, step.owner) {
      ReachedOwnership(clock, before);
      NotExecuting(Reached(clock, before), step);
    } else {
      assert step in [step];
      match step {
        case FinishRun(r, _, _, _, _) => FinishNotEarly(clock, before, step, r, limit);
        case FailRun(cfg, r, owner, infra) => FailNotEarly(clock, before, cfg, r, owner, infra, limit);
        case ShutDown(cfg, r, owner, drained) => ShutdownNotEarly(clock, before, cfg, r, owner, drained, limit);
      }
    }
  }

  lemma ReachedOwnership(clock: Time, before: seq<Step>)
    ensures OwnershipInv(Reached(clock, before))
  {
    ReachedInv(clock, before);
  }

  lemma OwnNotEarly(clock: Time, before: seq<Step>, step: Step, r: RunId, limit: nat)
    requires r in Reached(clock, before).runs && NotEarly(Reached(clock, before).runs[r], limit) && Grants([step], limit)
    requires Subject(step) == Some(r) && r in Apply(Reached(clock, before), step).runs
    ensures NotEarly(Apply(Reached(clock, before), step).runs[r], limit)
  {
    var s := Reached(clock, before);
    ReachedOwnership(clock, before);
    if step.FinishRun? || step.FailRun? || step.ShutDown? { OwnerNotEarly(clock, before, step, limit); }
    else if step.Submit? { ExistingIsIssued(s, step.cfg, r, step.sub); }
    else if step.ClaimNext? { ClaimNotEarly(clock, before, step.cfg, r, step.owner, limit); }
    else if step.ReapRun? { ReaperNotEarly(clock, before, step.cfg, r, limit); }
    else { ClientNotEarly(s, step, r, limit); }
  }

  lemma ExistingIsIssued(s: State, cfg: Config, r: RunId, sub: Submission)
    requires OwnershipInv(s) && r in s.runs
    ensures Apply(s, Submit(cfg, r, sub)) == s
  {
    assert r in s.issued;
  }

  lemma ReaperNotEarly(clock: Time, before: seq<Step>, cfg: Config, r: RunId, limit: nat)
    requires r in Reached(clock, before).runs && NotEarly(Reached(clock, before).runs[r], limit)
    ensures var s' := Apply(Reached(clock, before), ReapRun(cfg, r)); r in s'.runs && NotEarly(s'.runs[r], limit)
  {
    var run := Reached(clock, before).runs[r];
    if run.status == Running && run.leaseExpiresAt.Some? && run.leaseExpiresAt.value < Reached(clock, before).clock {
      ReapNotEarly(clock, before, cfg, r, limit);
    } else {
      ReaperIdles(Reached(clock, before), cfg, r);
    }
  }

  /** A run that is reported as an infrastructure error has used up its attempts: as many as it was given, or as the most
      frugal process grants. */
  lemma {:induction false} NobodyGivesUpEarly(clock: Time, steps: seq<Step>, r: RunId, limit: nat)
    requires Grants(steps, limit) && r in Reached(clock, steps).runs
    ensures var run := Reached(clock, steps).runs[r];
            run.reason == Some(InfrastructureError) ==>
              run.status == Error && run.retryCount >= (if run.maxAttempts < limit then run.maxAttempts else limit)
    decreases |steps|
  {
    if steps != [] {
      var before, last := steps[..|steps| - 1], steps[|steps| - 1];
      assert before + ([last] + []) == steps;
      ReachedOn(clock, before, last, []);
      assert last in steps && Grants([last], limit);
      ReachedOwnership(clock, before);
      if r !in Reached(clock, before).runs {
        AppearsFresh(Reached(clock, before), last, r);
      } else {
        assert Grants(before, limit);
        NobodyGivesUpEarly(clock, before, r, limit);
        if Subject(last) == Some(r) { OwnNotEarly(clock, before, last, r, limit); }
        else { ForeignStep(Reached(clock, before), last, r); }
      }
    }
  }

  // ---- waiting for the next attempt ----

  /** The seconds that a history takes. */
  function Elapsed(steps: seq<Step>): Time
    decreases |steps|
  {
    if steps == [] then 0.0 else Seconds(steps[0]) + Elapsed(steps[1..])
  }

  lemma {:induction false} ElapsedIsForward(steps: seq<Step>)
    ensures Elapsed(steps) >= 0.0
    decreases |steps|
  {
    if steps != [] { ElapsedIsForward(steps[1..]); }
  }

  lemma {:induction false} ClockAfter(s: State, steps: seq<Step>)
    requires CoreInv(s)
    ensures Exec(s, steps).clock == s.clock + Elapsed(steps)
    decreases |steps|
  {
    if steps != [] {
      CoreStep(s, steps[0]);
      ClockOfStep(s, steps[0]);
      ClockAfter(Apply(s, steps[0]), steps[1..]);
    }
  }

  /** It waits for its next attempt, due then, or a client ended it. */
  predicate WaitsOrEnded(run: Run, attempts: nat, due: Time) {
    run.retryCount == attempts && (IsTerminal(run.status) || (run.status == Pending && run.nextAttemptAt == Some(due)))
  }

  /** As before, or a further attempt was started. */
  ghost predicate WaitsFor(s: State, r: RunId, attempts: nat, due: Time) {
    r in s.issued && (r in s.runs ==> s.runs[r].retryCount > attempts || WaitsOrEnded(s.runs[r], attempts, due))
  }

  lemma WaitsStep(s: State, step: Step, r: RunId, attempts: nat, due: Time)
    requires OwnershipInv(s) && WaitsFor(s, r, attempts, due)
    ensures WaitsFor(Apply(s, step), r, attempts, due)
  {
    EveryRow(s, step, r);
    WaitsByRow(s, Apply(s, step), r, attempts, due);
  }

  lemma WaitsByRow(s: State, s': State, r: RunId, attempts: nat, due: Time)
    requires OwnershipInv(s) && WaitsFor(s, r, attempts, due) && RowSteps(s, s', r)
    ensures WaitsFor(s', r, attempts, due)
  {
  }

  lemma {:induction false} WaitsAlways(s: State, steps: seq<Step>, r: RunId, attempts: nat, due: Time)
    requires CoreInv(s) && WaitsFor(s, r, attempts, due)
    ensures WaitsFor(Exec(s, steps), r, attempts, due)
    decreases |steps|
  {
    if steps != [] {
      CoreStep(s, steps[0]);
      WaitsStep(s, steps[0], r, attempts, due);
      WaitsAlways(Apply(s, steps[0]), steps[1..], r, attempts, due);
    }
  }

  /** No attempt was started: the run waits, was ended by a client, or is gone. */
  ghost predicate Barred(s: State, r: RunId, attempts: nat, due: Time) {
    r in s.issued && (r in s.runs ==> WaitsOrEnded(s.runs[r], attempts, due))
  }

  lemma NotDueIsNotClaimed(s: State, cfg: Config, r: RunId, owner: Owner)
    requires r in s.runs && (s.runs[r].status != Pending || (s.runs[r].nextAttemptAt.Some? && s.runs[r].nextAttemptAt.value > s.clock))
    ensures Apply(s, ClaimNext(cfg, r, owner)) == s
  {
  }

  lemma MovedBarred(s: State, s': State, r: RunId, attempts: nat, due: Time)
    requires Moved(s, s', r) && WaitsOrEnded(s.runs[r], attempts, due)
    ensures WaitsOrEnded(s'.runs[r], attempts, due)
  {
  }

  lemma MoveBarred(s: State, step: Step, r: RunId, attempts: nat, due: Time)
    requires OwnershipInv(s) && r in s.runs && WaitsOrEnded(s.runs[r], attempts, due) && IsRunMove(step) && step.r == r
    ensures r in Apply(s, step).runs && WaitsOrEnded(Apply(s, step).runs[r], attempts, due)
  {
    if Transact(s, step).Commit? {
      RunMoveMoves(s, step);
      if Transact(s, step).db != s { MovedBarred(s, Transact(s, step).db, r, attempts, due); }
    }
  }

  lemma OwnStepBarred(s: State, step: Step, r: RunId, attempts: nat, due: Time)
    requires OwnershipInv(s) && r in s.runs && WaitsOrEnded(s.runs[r], attempts, due) && s.clock < due && Subject(step) == Some(r)
    requires r in Apply(s, step).runs
    ensures WaitsOrEnded(Apply(s, step).runs[r], attempts, due)
  {
    if IsRunMove(step) {
      MoveBarred(s, step, r, attempts, due);
    } else if step.Submit? {
      ExistingIsIssued(s, step.cfg, r, step.sub);
    } else if step.ClaimNext? {
      NotDueIsNotClaimed(s, step.cfg, r, step.owner);
    } else if step.RollBack? {
      RequestKeepsAttempts(s, r);
    } else {
      CompletionKeepsAttempts(s, r, step.worker);
    }
  }

  lemma RequestKeepsAttempts(s: State, r: RunId)
    requires r in s.runs && r in Apply(s, RollBack(r)).runs
    ensures var a, b := s.runs[r], Apply(s, RollBack(r)).runs[r];
            b == a || (b.status == Interrupted && b.retryCount == a.retryCount)
  {
  }

  lemma CompletionKeepsAttempts(s: State, r: RunId, worker: Option<Owner>)
    requires r in s.runs && r in Apply(s, CompleteRollBack(r, worker)).runs
    ensures Apply(s, CompleteRollBack(r, worker)).runs[r] == s.runs[r]
  {
  }

  lemma BarredStep(s: State, step: Step, r: RunId, attempts: nat, due: Time)
    requires OwnershipInv(s) && Barred(s, r, attempts, due) && s.clock < due
    ensures Barred(Apply(s, step), r, attempts, due)
  {
    EveryRow(s, step, r);
    if r in s.runs && r in Apply(s, step).runs {
      if Subject(step) == Some(r) { OwnStepBarred(s, step, r, attempts, due); } else { ForeignStep(s, step, r); }
    }
  }

  lemma {:induction false} BarredUntilDue(s: State, steps: seq<Step>, r: RunId, attempts: nat, due: Time)
    requires CoreInv(s) && Barred(s, r, attempts, due) && s.clock + Elapsed(steps) < due
    ensures Barred(Exec(s, steps), r, attempts, due)
    decreases |steps|
  {
    if steps != [] {
      ElapsedIsForward(steps[1..]);
      CoreStep(s, steps[0]);
      ClockOfStep(s, steps[0]);
      BarredStep(s, steps[0], r, attempts, due);
      BarredUntilDue(Apply(s, steps[0]), steps[1..], r, attempts, due);
    }
  }

  /** From a run that waits for its next attempt: before it is due no attempt was started and no claim of it has an effect;
      once it is due, and still waiting, it is served as soon as it is next in its thread. */
  ghost predicate WaitsExactly(s: State, r: RunId, attempts: nat, waited: Time, delay: Time, cfg: Config, owner: Owner) {
    r in s.runs ==>
      var s' := Apply(s, ClaimNext(cfg, r, owner));
      if waited < delay then s.runs[r].retryCount == attempts && s.runs[r].status != Running && s' == s
      else s.runs[r].status == Pending && s.runs[r].retryCount == attempts ==>
        && Due(s, r)
        && (IsNext(s, r) && OwnThreadExists(s, r) ==> Served(s, s', cfg, r, owner))
  }

  /** Not executing, with no attempt since, and not due if it waits. */
  predicate NotYet(s: State, r: RunId, attempts: nat) {
    && r in s.runs && s.runs[r].retryCount == attempts && s.runs[r].status != Running
    && (s.runs[r].status == Pending ==> s.runs[r].nextAttemptAt.Some? && s.runs[r].nextAttemptAt.value > s.clock)
  }

  lemma BeforeDue(s: State, r: RunId, attempts: nat, due: Time)
    requires Barred(s, r, attempts, due) && s.clock < due && r in s.runs
    ensures NotYet(s, r, attempts)
  {
  }

  lemma AfterDue(s: State, r: RunId, attempts: nat, due: Time)
    requires WaitsFor(s, r, attempts, due) && due <= s.clock
    requires r in s.runs && s.runs[r].status == Pending && s.runs[r].retryCount == attempts
    ensures Due(s, r)
  {
  }

  lemma WaitingBeforeDue(s: State, steps: seq<Step>, r: RunId, due: Time)
    requires CoreInv(s) && r in s.runs && s.runs[r].status == Pending && s.runs[r].nextAttemptAt == Some(due)
    requires s.clock + Elapsed(steps) < due && r in Exec(s, steps).runs
    ensures NotYet(Exec(s, steps), r, s.runs[r].retryCount)
  {
    ClockAfter(s, steps);
    BarredUntilDue(s, steps, r, s.runs[r].retryCount, due);
    BeforeDue(Exec(s, steps), r, s.runs[r].retryCount, due);
  }

  lemma WaitingAfterDue(s: State, steps: seq<Step>, r: RunId, due: Time)
    requires CoreInv(s) && r in s.runs && s.runs[r].status == Pending && s.runs[r].nextAttemptAt == Some(due)
    requires due <= s.clock + Elapsed(steps)
    requires var s' := Exec(s, steps); r in s'.runs && s'.runs[r].status == Pending && s'.runs[r].retryCount == s.runs[r].retryCount
    ensures Due(Exec(s, steps), r)
  {
    ClockAfter(s, steps);
    WaitsAlways(s, steps, r, s.runs[r].retryCount, due);
    AfterDue(Exec(s, steps), r, s.runs[r].retryCount, due);
  }

  lemma ExactBefore(s: State, r: RunId, attempts: nat, waited: Time, delay: Time, cfg: Config, owner: Owner)
    requires NotYet(s, r, attempts) && waited < delay
    ensures WaitsExactly(s, r, attempts, waited, delay, cfg, owner)
  {
    NotDueIsNotClaimed(s, cfg, r, owner);
  }

  lemma ExactAfter(s: State, r: RunId, attempts: nat, waited: Time, delay: Time, cfg: Config, owner: Owner)
    requires Due(s, r) && delay <= waited
    requires IsNext(s, r) && OwnThreadExists(s, r) ==> Served(s, Apply(s, ClaimNext(cfg, r, owner)), cfg, r, owner)
    ensures WaitsExactly(s, r, attempts, waited, delay, cfg, owner)
  {
  }

  lemma PendingByFailure(s: State, s1: State, r: RunId, next: Option<Time>)
    requires Settles(s, s1, r, Pending, Retry, next)
    ensures r in s1.runs && s1.runs[r].status == Pending && s1.runs[r].nextAttemptAt == next && s1.clock == s.clock
    ensures s1.runs[r].retryCount == s.runs[r].retryCount
  {
  }

  lemma FailureRequeues(clock: Time, before: seq<Step>, cfg: Config, r: RunId, owner: Owner, s1: State, delay: Time)
    requires var s := Reached(clock, before);
             && RunsUnder(s, r, owner) && s.runs[r].retryCount < LeastOf(s.runs[r].maxAttempts, cfg.maxAttempts)
             && s.runs[r].retryCount >= 1 && delay == BackOff(cfg, s.runs[r].retryCount)
    requires s1 == Apply(Reached(clock, before), FailRun(cfg, r, owner, true))
    ensures r in s1.runs && s1.runs[r].status == Pending && s1.runs[r].nextAttemptAt == Some(s1.clock + delay)
    ensures s1.runs[r].retryCount == Reached(clock, before).runs[r].retryCount
  {
    FailureOutcome(clock, before, cfg, r, owner, true);
    PendingByFailure(Reached(clock, before), s1, r, Some(Reached(clock, before).clock + delay));
  }

  lemma AttemptsArePositive(clock: Time, before: seq<Step>, r: RunId, owner: Owner)
    requires RunsUnder(Reached(clock, before), r, owner)
    ensures Reached(clock, before).runs[r].retryCount >= 1
  {
    ReachedIsSound(clock, before, r);
  }

  /** The run waits in the database that this step reaches. */
  ghost predicate Requeues(clock: Time, before: seq<Step>, step: Step, s1: State, r: RunId, n: nat, delay: Time) {
    && s1 == Apply(Reached(clock, before), step) && r in s1.runs && s1.runs[r].status == Pending
    && s1.runs[r].nextAttemptAt == Some(s1.clock + delay) && s1.runs[r].retryCount == n
  }

  lemma RequeuedBefore(clock: Time, before: seq<Step>, step: Step, s1: State, r: RunId, n: nat, delay: Time, after: seq<Step>)
    requires Requeues(clock, before, step, s1, r, n, delay) && Elapsed(after) < delay && r in Exec(s1, after).runs
    ensures NotYet(Exec(s1, after), r, n)
  {
    AfterOneMore(clock, before, step, s1);
    WaitingBeforeDue(s1, after, r, s1.clock + delay);
  }

  lemma RequeuedAfter(clock: Time, before: seq<Step>, step: Step, s1: State, r: RunId, n: nat, delay: Time, after: seq<Step>)
    requires Requeues(clock, before, step, s1, r, n, delay) && delay <= Elapsed(after)
    requires var s := Exec(s1, after); r in s.runs && s.runs[r].status == Pending && s.runs[r].retryCount == n
    ensures Due(Exec(s1, after), r)
  {
    AfterOneMore(clock, before, step, s1);
    WaitingAfterDue(s1, after, r, s1.clock + delay);
  }

  lemma NextAmongReached(clock: Time, before: seq<Step>, step: Step, after: seq<Step>, r: RunId, claimer: Config, next: Owner)
    ensures var s := Exec(Apply(Reached(clock, before), step), after);
            IsNext(s, r) && OwnThreadExists(s, r) ==> Served(s, Apply(s, ClaimNext(claimer, r, next)), claimer, r, next)
  {
    ReachedOn(clock, before, step, after);
    ClaimServesExactlyTheNext(clock, before + ([step] + after), claimer, r, next);
  }

  lemma RequeuedWaits(clock: Time, before: seq<Step>, step: Step, s1: State, r: RunId, n: nat, delay: Time, after: seq<Step>,
                      claimer: Config, next: Owner)
    requires Requeues(clock, before, step, s1, r, n, delay)
    ensures WaitsExactly(Exec(s1, after), r, n, Elapsed(after), delay, claimer, next)
  {
    var s := Exec(s1, after);
    if r in s.runs {
      if Elapsed(after) < delay {
        RequeuedBefore(clock, before, step, s1, r, n, delay, after);
        ExactBefore(s, r, n, Elapsed(after), delay, claimer, next);
      } else if s.runs[r].status == Pending && s.runs[r].retryCount == n {
        RequeuedAfter(clock, before, step, s1, r, n, delay, after);
        NextAmongReached(clock, before, step, after, r, claimer, next);
        ExactAfter(s, r, n, Elapsed(after), delay, claimer, next);
      }
    }
  }

  /** An infrastructure failure with attempts left: the run waits `BackOff`, the base doubled n - 1 times but at most 30 seconds. In
      every history from there no new attempt starts earlier, and once the time has passed a run that still waits is served
      as soon as it is next in its thread. */
  lemma RetryWaitsOutItsDelay(clock: Time, before: seq<Step>, cfg: Config, r: RunId, owner: Owner, n: nat, after: seq<Step>,
                              claimer: Config, next: Owner)
    requires var s := Reached(clock, before);
             RunsUnder(s, r, owner) && n == s.runs[r].retryCount < LeastOf(s.runs[r].maxAttempts, cfg.maxAttempts)
    ensures var s1 := Apply(Reached(clock, before), FailRun(cfg, r, owner, true));
            && n >= 1 && r in s1.runs && s1.runs[r].status == Pending
            && WaitsExactly(Exec(s1, after), r, n, Elapsed(after), BackOff(cfg, n), claimer, next)
  {
    AttemptsArePositive(clock, before, r, owner);
    var step := FailRun(cfg, r, owner, true);
    var s1 := Apply(Reached(clock, before), step);
    FailureRequeues(clock, before, cfg, r, owner, s1, BackOff(cfg, n));
    RequeuedWaits(clock, before, step, s1, r, n, BackOff(cfg, n), after, claimer, next);
  }
}
