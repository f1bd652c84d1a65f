/** The protocol's promises as statements about every history that starts from an empty database. */
module Histories {
  import opened Wrappers
  import opened RunState
  import opened Tables
  import opened CheckpointMutations
  import opened CoreApi
  import opened Protocol
  import opened Invariants
  import opened Reachable
  import opened Fencing
  import opened ExclusiveExecution
  import opened RollbackFreeze
  import opened LifoRollback
  import opened SequentialRuns

  // ---- the write fence ----

  /** Once the epoch of a writer is superseded, or its run was cancelled, requeued, finished or deleted, none of its writes
      is accepted any more, whatever happens afterwards. */
  lemma StaleWritesAreRejected(clock: Time, before: seq<Step>, after: seq<Step>, w: Writer, at: Resource, change: Change)
    requires Dead(Reached(clock, before), w.run, w.generation)
    ensures FencedWrite(Exec(Reached(clock, before), after), w, at, change) == Abort(CheckpointConflict)
  {
    ReachedInv(clock, before);
    StaleWriterIsRejected(Reached(clock, before), after, w, at, change);
  }

  /** A step after which a running run is not running any more makes its epoch stale. */
  lemma StoppingMakesStale(clock: Time, before: seq<Step>, step: Step, r: RunId)
    requires var s := Reached(clock, before); r in s.runs && s.runs[r].status == Running
    requires var s' := Apply(Reached(clock, before), step); r !in s'.runs || s'.runs[r].status != Running
    ensures Dead(Apply(Reached(clock, before), step), r, Reached(clock, before).runs[r].retryCount)
  {
    ReachedInv(clock, before);
    StoppingKillsTheEpoch(Reached(clock, before), step, r);
  }

  /** A write that is accepted carries the newest epoch of its run, and every older epoch of that run is stale. */
  lemma AcceptedWritesAreCurrent(clock: Time, before: seq<Step>, w: Writer, at: Resource, change: Change, older: nat)
    requires FencedWrite(Reached(clock, before), w, at, change).Commit? && older < w.generation
    ensures Dead(Reached(clock, before), w.run, older) && !Dead(Reached(clock, before), w.run, w.generation)
  {
    ReachedInv(clock, before);
    AcceptedWriterIsCurrent(Reached(clock, before), w, at, change, older);
  }

  // ---- exclusive execution ----

  /** No step of anybody else ends an unexpired lease or gives its run a new generation. */
  lemma LeasesAreKept(clock: Time, before: seq<Step>, step: Step, r: RunId, owner: Owner, generation: nat)
    requires Holds(Reached(clock, before), r, owner, generation) && !GivesBack(step, r, owner)
    ensures Keeps(Apply(Reached(clock, before), step), r, owner, generation)
  {
    ReachedInv(clock, before);
    LeaseIsKept(Reached(clock, before), step, r, owner, generation);
  }

  /** While a lease never lapses and its holder does not give it back, the holder keeps run and generation and nobody is
      granted another claim of the same thread, even if the run was cancelled meanwhile. */
  lemma OneExecutionPerThread(clock: Time, before: seq<Step>, steps: seq<Step>, r: RunId, owner: Owner, generation: nat)
    requires Holds(Reached(clock, before), r, owner, generation)
    requires NeverLapses(Reached(clock, before), steps, r) && NeverGivesBack(steps, r, owner)
    ensures var s, s' := Reached(clock, before), Exec(Reached(clock, before), steps);
            && Keeps(s', r, owner, generation)
            && ClaimsOf(s'.claims, ResourceOf(r, s.runs[r])) == ClaimsOf(s.claims, ResourceOf(r, s.runs[r]))
  {
    ReachedInv(clock, before);
    ExecutionIsExclusive(Reached(clock, before), steps, r, owner, generation);
  }

  // ---- deferred rollback ----

  /** The request accepted a rollback of a run whose lease is still held. */
  ghost predicate Defers(s: State, r: RunId, t: ThreadId) {
    r in s.runs && s.runs[r].thread == Some(t) && s.runs[r].leaseOwner.Some? && RequestRollback(s, r).Commit?
  }

  /** From the moment a rollback of a leased run is accepted until the run is deleted, whatever happens in between, the
      thread's checkpoints, writes and baselines are those of the request, and the rollback itself cannot conflict. */
  lemma AcceptedRollbackFreezes(clock: Time, before: seq<Step>, after: seq<Step>, r: RunId, t: ThreadId)
    requires Defers(Reached(clock, before), r, t)
    ensures var s := Reached(clock, before);
            var s' := Exec(RequestRollback(s, r).db, after);
            r in s'.runs ==>
              && HistoryOf(s', OfThread(t)) == HistoryOf(s, OfThread(t))
              && BaselinesOf(s', t) == BaselinesOf(s, t)
              && RollbackRun(s', r).Commit?
  {
    ReachedInv(clock, before);
    var s := Reached(clock, before);
    if r in Exec(RequestRollback(s, r).db, after).runs { FrozenUntilStopped(s, r, t, after); }
  }

  // ---- rollback is exact ----

  /** A history in which run `r` of thread `t` is started and no other one: its rollback brings back the thread of the
      moment before, after any number of retries. */
  lemma RollbackBringsBack(clock: Time, before: seq<Step>, steps: seq<Step>, t: ThreadId)
    requires var s := Reached(clock, before); SequentialFrom(s, steps, t) && StartedFrom(s, steps, t) == [steps[0].r]
    ensures var s, s1, r := Reached(clock, before), Exec(Reached(clock, before), steps), steps[0].r;
            RollbackRun(s1, r).Commit? &&
            var s2 := RollbackRun(s1, r).db;
            && t in s.threads && t in s2.threads && SnapshotOf(s2, t) == SnapshotOf(s, t)
            && s2.runs == s1.runs - {r} && s2.baselines == s1.baselines - {r}
  {
    ReachedInv(clock, before);
    RollbackIsExact(Reached(clock, before), steps, t);
  }

  /** The same for a rollback that had to wait: in such a history run `r` is still leased when its rollback is accepted, and
      whatever happens then, once its worker stopped or lost its lease the thread is that of the moment before. */
  lemma DeferredRollbackBringsBack(clock: Time, before: seq<Step>, steps: seq<Step>, after: seq<Step>, t: ThreadId, worker: Option<Owner>)
    requires var s := Reached(clock, before); SequentialFrom(s, steps, t) && StartedFrom(s, steps, t) == [steps[0].r]
    requires Defers(Exec(Reached(clock, before), steps), steps[0].r, t)
    requires var r, s2 := steps[0].r, Exec(RequestRollback(Exec(Reached(clock, before), steps), steps[0].r).db, after);
             r in s2.runs && MayComplete(s2.runs[r], worker, s2.clock)
    ensures var s, r := Reached(clock, before), steps[0].r;
            var s2 := Exec(RequestRollback(Exec(s, steps), r).db, after);
            var s3 := CompleteRollback(s2, r, worker);
            && r !in s3.runs && r !in s3.baselines && r !in s3.leases
            && t in s.threads && t in s2.threads && t in s3.threads && SnapshotOf(s3, t) == SnapshotOf(s, t)
            && s3.threads[t].eventSeq == s2.threads[t].eventSeq
  {
    ReachedInv(clock, before);
    var s := Reached(clock, before);
    SequentialRunsStack(s, steps, t);
    DeferredRollbackRestores(Exec(s, steps), steps[0].r, t, after, worker);
  }

  /** Any number of runs executed one after another on each of any number of threads, and at rest, are undone exactly by
      one request that rolls them back newest capture first: each thread is again what it was when its pile began. Any other
      run than the newest of its thread is refused. */
  lemma NewestFirstBringsBack(clock: Time, steps: seq<Step>, from: map<ThreadId, nat>, order: seq<RunId>)
    requires forall t :: t in from ==> SequentialSince(Init(clock), steps, from[t], t)
    requires Listed(Reached(clock, steps), PilesSince(Init(clock), steps, from), order)
    requires NewestFirst(Reached(clock, steps), order)
    ensures Undoes(Reached(clock, steps), PilesSince(Init(clock), steps, from), order)
    ensures NewestOnlyEach(Reached(clock, steps), PilesSince(Init(clock), steps, from))
  {
    InitCore(clock);
    LifoRollbackIsExact(Init(clock), steps, from, order);
  }
}
