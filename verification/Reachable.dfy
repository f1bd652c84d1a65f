/** What holds after every history that starts from an empty database. */
module Reachable {
  import opened Wrappers
  import opened RunState
  import opened Tables
  import opened EventLog
  import opened RunStore
  import opened CoreApi
  import opened Protocol
  import opened StepCases
  import opened Kinds
  import opened LogInvariants
  import opened TerminalEvents

  ghost function Reached(clock: Time, steps: seq<Step>): State {
    Exec(Init(clock), steps)
  }

  lemma ReachedInv(clock: Time, steps: seq<Step>)
    ensures Inv(Reached(clock, steps))
  {
    InvInit(clock);
    InvAlways(Init(clock), steps);
  }

  // ---- ownership ----

  lemma ClaimNeverIllegal(s: State, cfg: Config, r: RunId, owner: Owner)
    ensures ClaimRun(s, cfg, r, owner) != Abort(IllegalTransition)
  {
  }

  lemma {:induction false} RecordAllNeverIllegal(s: State, r: RunId, notices: seq<Notice>)
    ensures RecordAll(s, r, notices) != Abort(IllegalTransition)
    decreases |notices|
  {
    if notices != [] && Record(s, r, notices[0]).Commit? {
      RecordAllNeverIllegal(Record(s, r, notices[0]).db, r, notices[1..]);
    }
  }

  lemma FinishNeverIllegal(s: State, r: RunId, owner: Owner, e: Ending, payload: Option<Json>, preceding: seq<Plain>)
    requires r in s.runs ==> RunOk(s.runs[r], LeaseOf(s, r))
    ensures Finish(s, r, owner, EndStatus(e), EndReason(e), payload, preceding) != Abort(IllegalTransition)
  {
    RecordAllNeverIllegal(s, r, preceding);
    if r in s.runs && RecordAll(s, r, preceding).Commit? {
      RecordAllIsLogged(s, r, preceding, RecordAll(s, r, preceding).db);
    }
  }

  lemma FailNeverIllegal(s: State, cfg: Config, r: RunId, owner: Owner, infra: bool, reason: RunReason)
    requires r in s.runs ==> RunOk(s.runs[r], LeaseOf(s, r))
    ensures Fail(s, cfg, r, owner, infra, reason) != Abort(IllegalTransition)
  {
  }

  lemma ShutdownNeverIllegal(s: State, cfg: Config, r: RunId, owner: Owner, drained: bool)
    requires r in s.runs ==> RunOk(s.runs[r], LeaseOf(s, r))
    ensures RequeueForShutdown(s, cfg, r, owner, drained) != Abort(IllegalTransition)
  {
  }

  lemma ReapNeverIllegal(s: State, cfg: Config, r: RunId)
    requires r in s.runs ==> RunOk(s.runs[r], LeaseOf(s, r))
    ensures Reap(s, cfg, r) != Abort(IllegalTransition)
  {
  }

  lemma CancelNeverIllegal(s: State, r: RunId)
    requires r in s.runs ==> RunOk(s.runs[r], LeaseOf(s, r))
    ensures Cancel(s, r) != Abort(IllegalTransition)
  {
  }

  lemma RowOk(s: State, r: RunId)
    requires OwnershipInv(s)
    ensures r in s.runs ==> RunOk(s.runs[r], LeaseOf(s, r))
  {
  }

  /** No transaction of a worker, of the API or of the reaper ever asks for an illegal status change. */
  lemma NeverIllegal(s: State, step: Step)
    requires OwnershipInv(s)
    ensures Transact(s, step) != Abort(IllegalTransition)
  {
    if Subject(step).Some? { RowOk(s, step.r); }
    match step {
      case ClaimNext(cfg, r, owner) => ClaimNeverIllegal(s, cfg, r, owner);
      case FinishRun(r, owner, e, payload, preceding) => FinishNeverIllegal(s, r, owner, e, payload, preceding);
      case FailRun(cfg, r, owner, infra) =>
        FailNeverIllegal(s, cfg, r, owner, infra, if infra then InfrastructureError else BusinessError);
      case ShutDown(cfg, r, owner, drained) => ShutdownNeverIllegal(s, cfg, r, owner, drained);
      case ReapRun(cfg, r) => ReapNeverIllegal(s, cfg, r);
      case CancelRun(r) => CancelNeverIllegal(s, r);
      case Publish(r, notices) => RecordAllNeverIllegal(s, r, notices);
      case _ => OtherNeverIllegal(s, step);
    }
  }

  lemma OtherNeverIllegal(s: State, step: Step)
    requires !step.ClaimNext? && !step.FinishRun? && !step.FailRun? && !step.ShutDown? && !step.ReapRun?
    requires !step.CancelRun? && !step.Publish?
    ensures Transact(s, step) != Abort(IllegalTransition)
  {
  }

  /** The lease row of a run exists exactly when the run row names an owner, and the two rows agree. */
  ghost predicate LeaseAgrees(s: State, r: RunId)
    requires r in s.runs
  {
    && (r in s.leases <==> s.runs[r].leaseOwner.Some?)
    && (r in s.leases ==> s.leases[r].owner == s.runs[r].leaseOwner.value
                          && Some(s.leases[r].expiresAt) == s.runs[r].leaseExpiresAt
                          && s.leases[r].generation == s.runs[r].retryCount)
  }

  /** The protocol invariant as an operator would check it. */
  lemma OwnershipAlways(clock: Time, steps: seq<Step>, r: RunId, q: RunId)
    requires var s := Reached(clock, steps); r in s.runs && q in s.runs
    ensures var s := Reached(clock, steps);
            && LeaseAgrees(s, r)
            && (s.runs[r].status in {Pending, Success, Error, Timeout} ==> s.runs[r].leaseOwner.None?)
            && (s.runs[r].status == Running ==> s.runs[r].leaseOwner.Some?)
            && (r != q && s.runs[r].thread.Some? && s.runs[r].thread == s.runs[q].thread ==>
                  !(Active(s.runs[r]) && Active(s.runs[q])) && s.runs[r].queuePosition != s.runs[q].queuePosition)
  {
    ReachedInv(clock, steps);
    var s := Reached(clock, steps);
    assert RunOk(s.runs[r], LeaseOf(s, r));
  }

  lemma TransitionsAlwaysLegal(clock: Time, steps: seq<Step>, step: Step)
    ensures Transact(Reached(clock, steps), step) != Abort(IllegalTransition)
  {
    ReachedInv(clock, steps);
    NeverIllegal(Reached(clock, steps), step);
  }

  // ---- terminal events ----

  predicate TerminalRow(s: State, r: RunId, k: EventId) {
    k in s.events && s.events[k].run == Some(r) && s.events[k].terminal
  }

  lemma OneTerminalRow(s: State, r: RunId, k: EventId, j: EventId)
    requires RowsInv(s) && EndedOnce(s) && TerminalRow(s, r, k) && TerminalRow(s, r, j)
    ensures k == j
  {
    assert s.inserted[k] == s.events[k] && s.inserted[j] == s.events[j];
  }

  /** An unfinished run has no terminal event; a finished one that is not being rolled back has exactly one. */
  lemma TerminalExactlyOnce(clock: Time, steps: seq<Step>, r: RunId)
    requires r in Reached(clock, steps).runs
    ensures var s := Reached(clock, steps);
            && (!IsTerminal(s.runs[r].status) ==> forall k :: !TerminalRow(s, r, k))
            && (IsTerminal(s.runs[r].status) && s.runs[r].reason != Some(Rollback) ==> exists k :: TerminalRow(s, r, k))
            && (forall k, j :: TerminalRow(s, r, k) && TerminalRow(s, r, j) ==> k == j)
  {
    ReachedInv(clock, steps);
    var s := Reached(clock, steps);
    LookupIsHistory(s, r);
    assert Settled(s, r);
    if HasTerminalEvent(s, r) {
      var k :| k in s.events && s.events[k].run == Some(r) && s.events[k].terminal;
      assert TerminalRow(s, r, k);
    }
    forall k, j | TerminalRow(s, r, k) && TerminalRow(s, r, j)
      ensures k == j
    {
      OneTerminalRow(s, r, k, j);
    }
  }

  // ---- sequences ----

  /** The events of a thread were numbered 1, 2, 3, ... without gap or repetition, whatever was pruned or rolled back
      since, and no counter or watermark is ahead of the thread's. */
  lemma SequencesAreDense(clock: Time, steps: seq<Step>, t: ThreadId)
    requires t in Reached(clock, steps).threads
    ensures var s := Reached(clock, steps);
            && Assigned(s.inserted, t) == UpTo(s.threads[t].eventSeq)
            && s.threads[t].eventPrunedThrough <= s.threads[t].eventSeq
            && (forall r :: r in s.runs && s.runs[r].thread == Some(t) ==>
                  s.runs[r].eventPrunedThrough <= s.runs[r].eventSeq <= s.threads[t].eventSeq)
  {
    ReachedInv(clock, steps);
    var s := Reached(clock, steps);
    assert CursorOf(s, t) == s.threads[t].eventSeq;
  }

  /** A sequence is never used twice in a thread, not even after its first row was deleted. */
  lemma NoSequenceReused(clock: Time, steps: seq<Step>, i: nat, j: nat)
    requires var s := Reached(clock, steps); i < j < |s.inserted| && SameScope(s.inserted[i], s.inserted[j])
    ensures var s := Reached(clock, steps); s.inserted[i].sequence < s.inserted[j].sequence
  {
    ReachedInv(clock, steps);
  }

  /** In any database, however stale its counters, a new event is numbered above every row of its thread. */
  lemma RecordRepairsCounters(s: State, r: RunId, n: Notice, t: ThreadId, s': State)
    requires Record(s, r, n) == Commit(s') && s'.inserted != s.inserted && s.runs[r].thread == Some(t)
    ensures |s'.inserted| == |s.inserted| + 1
    ensures var e := s'.inserted[|s.inserted|];
            && e.sequence > s.threads[t].eventSeq && s'.threads[t].eventSeq == e.sequence <= s'.runs[r].eventSeq
            && forall k :: k in s.events && s.events[k].thread == Some(t) ==> s.events[k].sequence < e.sequence
  {
    forall k | k in s.events && s.events[k].thread == Some(t)
      ensures s.events[k].sequence <= MaxOf(ThreadSequences(s, t))
    {
      assert s.events[k].sequence in ThreadSequences(s, t);
    }
  }
}
