/** When a deferred rollback is carried out: at its worker's acknowledgement or once the lease has expired, and not before. */
module DeferredRollbacks {
  import opened Wrappers
  import opened RunState
  import opened Tables
  import opened CheckpointMutations
  import opened CoreApi
  import opened Protocol
  import opened StepCases
  import opened Kinds
  import opened RunSteps
  import opened Invariants
  import opened Reachable
  import opened RollbackFreeze
  import opened Histories
  import opened LeaseTime

  predicate SameLease(a: Run, b: Run) {
    b.leaseOwner == a.leaseOwner && b.leaseExpiresAt == a.leaseExpiresAt
  }

  /** A run marked for rollback keeps the lease it had: nobody renews or releases it. */
  lemma MarkedLeaseStays(s: State, step: Step, r: RunId, t: ThreadId)
    requires CoreInv(s) && Awaiting(s, r, t) && r in Apply(s, step).runs
    ensures SameLease(s.runs[r], Apply(s, step).runs[r])
  {
    if Subject(step) == Some(r) { FreezeOwn(s, step, r, t); } else { ForeignStep(s, step, r); }
  }

  lemma {:induction false} MarkedLeaseAlways(s: State, steps: seq<Step>, r: RunId, t: ThreadId)
    requires CoreInv(s) && Awaiting(s, r, t) && r in Exec(s, steps).runs
    ensures SameLease(s.runs[r], Exec(s, steps).runs[r])
    decreases |steps|
  {
    if steps != [] {
      var s1 := Apply(s, steps[0]);
      CoreStep(s, steps[0]);
      if r !in s1.runs {
        EveryRow(s, steps[0], r);
        GoneForever(s1, steps[1..], r);
      } else {
        FreezeStep(s, steps[0], r, t);
        MarkedLeaseStays(s, steps[0], r, t);
        MarkedLeaseAlways(s1, steps[1..], r, t);
      }
    }
  }

  /** The run is gone with its lease and baseline, and the thread is that of the baseline `from` had for it. */
  ghost predicate CarriedOut(from: State, s: State, s': State, r: RunId, t: ThreadId) {
    && r in from.baselines && r !in s'.runs && r !in s'.baselines && r !in s'.leases
    && t in s.threads && t in s'.threads && HistoryOf(s', OfThread(t)) == from.baselines[r].history
    && s'.threads[t].projection == from.baselines[r].projection && s'.threads[t].eventSeq == s.threads[t].eventSeq
  }

  lemma AcceptanceKeepsLease(s: State, r: RunId, t: ThreadId, s1: State)
    requires CoreInv(s) && r in s.runs && s.runs[r].thread == Some(t) && s.runs[r].leaseOwner.Some?
    requires RequestRollback(s, r) == Commit(s1)
    ensures CoreInv(s1) && Awaiting(s1, r, t) && SameLease(s.runs[r], s1.runs[r])
  {
    AcceptanceStartsFreeze(s, r, t, s1);
    RequestIsStep(s, r, s1);
    CoreStep(s, RollBack(r));
  }

  lemma StillSomebodyElses(s: State, r: RunId, worker: Option<Owner>)
    requires r in s.runs && s.runs[r].leaseOwner.Some? && worker != s.runs[r].leaseOwner
    requires s.runs[r].leaseExpiresAt.Some? && s.runs[r].leaseExpiresAt.value > s.clock
    ensures CompleteRollback(s, r, worker) == s
  {
  }

  /** From the acceptance on, after any history, with the owner and the expiry that the lease had when the rollback was
      accepted: the owner's acknowledgement carries it out at any time and anybody's attempt does from the expiry on, both
      exactly; any other attempt changes nothing. */
  lemma CompletionDecided(s: State, r: RunId, t: ThreadId, after: seq<Step>, worker: Option<Owner>)
    requires CoreInv(s) && r in s.runs && s.runs[r].thread == Some(t) && s.runs[r].leaseOwner.Some?
    requires RequestRollback(s, r).Commit? && r in Exec(RequestRollback(s, r).db, after).runs
    ensures s.runs[r].leaseExpiresAt.Some?
    ensures var s' := Exec(RequestRollback(s, r).db, after);
            var s2 := CompleteRollback(s', r, worker);
            if worker == s.runs[r].leaseOwner || s.runs[r].leaseExpiresAt.value <= s'.clock then CarriedOut(s, s', s2, r, t)
            else s2 == s'
  {
    assert RunOk(s.runs[r], LeaseOf(s, r));
    var s1 := RequestRollback(s, r).db;
    var s' := Exec(s1, after);
    AcceptanceKeepsLease(s, r, t, s1);
    MarkedLeaseAlways(s1, after, r, t);
    if worker == s.runs[r].leaseOwner || s.runs[r].leaseExpiresAt.value <= s'.clock {
      DeferredRollbackRestores(s, r, t, after, worker);
    } else {
      StillSomebodyElses(s', r, worker);
    }
  }

  /** After a crash: once the lease has expired, whoever asks carries the rollback out. */
  lemma ExpiredRollbackCompletes(clock: Time, before: seq<Step>, after: seq<Step>, r: RunId, t: ThreadId, worker: Option<Owner>)
    requires Defers(Reached(clock, before), r, t)
    requires var s' := Exec(RequestRollback(Reached(clock, before), r).db, after);
             && r in s'.runs && s'.runs[r].leaseExpiresAt.Some? && s'.runs[r].leaseExpiresAt.value <= s'.clock
    ensures var s := Reached(clock, before);
            var s' := Exec(RequestRollback(s, r).db, after);
            CarriedOut(s, s', CompleteRollback(s', r, worker), r, t)
  {
    ReachedInv(clock, before);
    var s := Reached(clock, before);
    AcceptanceKeepsLease(s, r, t, RequestRollback(s, r).db);
    MarkedLeaseAlways(RequestRollback(s, r).db, after, r, t);
    CompletionDecided(s, r, t, after, worker);
  }

  /** The worker that held the lease when the rollback was accepted may acknowledge at any time, expired or not. */
  lemma AcknowledgedRollbackCompletes(clock: Time, before: seq<Step>, after: seq<Step>, r: RunId, t: ThreadId)
    requires Defers(Reached(clock, before), r, t)
    requires r in Exec(RequestRollback(Reached(clock, before), r).db, after).runs
    ensures var s := Reached(clock, before);
            var s' := Exec(RequestRollback(s, r).db, after);
            && s'.runs[r].leaseOwner == s.runs[r].leaseOwner
            && CarriedOut(s, s', CompleteRollback(s', r, s.runs[r].leaseOwner), r, t)
  {
    ReachedInv(clock, before);
    var s := Reached(clock, before);
    AcceptanceKeepsLease(s, r, t, RequestRollback(s, r).db);
    MarkedLeaseAlways(RequestRollback(s, r).db, after, r, t);
    CompletionDecided(s, r, t, after, s.runs[r].leaseOwner);
  }

  /** Until the lease expires nobody but its owner carries the rollback out. */
  lemma RollbackWaitsForItsWorker(clock: Time, before: seq<Step>, after: seq<Step>, r: RunId, t: ThreadId, worker: Option<Owner>)
    requires Defers(Reached(clock, before), r, t) && worker != Reached(clock, before).runs[r].leaseOwner
    requires var s' := Exec(RequestRollback(Reached(clock, before), r).db, after);
             && r in s'.runs && (s'.runs[r].leaseExpiresAt.Some? ==> s'.runs[r].leaseExpiresAt.value > s'.clock)
    ensures var s' := Exec(RequestRollback(Reached(clock, before), r).db, after); CompleteRollback(s', r, worker) == s'
  {
    ReachedInv(clock, before);
    var s := Reached(clock, before);
    AcceptanceKeepsLease(s, r, t, RequestRollback(s, r).db);
    MarkedLeaseAlways(RequestRollback(s, r).db, after, r, t);
    CompletionDecided(s, r, t, after, worker);
  }

  /** The remaining guard: a marked run without owner, which no history produces, is rolled back by whoever asks. */
  lemma UnownedRollbackCompletes(s: State, r: RunId, t: ThreadId, worker: Option<Owner>)
    requires r in s.runs && s.runs[r].thread == Some(t) && s.runs[r].reason == Some(Rollback) && s.runs[r].leaseOwner == None
    requires RollbackRun(s, r).Commit? && r in s.baselines && s.baselines[r].thread == t
    ensures CarriedOut(s, s, CompleteRollback(s, r, worker), r, t)
  {
  }
}
