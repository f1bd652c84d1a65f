/** Every step is one of nine kinds of change; the invariants and theorems argue about the kinds. */
module StepCases {
  import opened Wrappers
  import opened RunState
  import opened Tables
  import opened EventLog
  import opened CheckpointMutations

  function LeaseOf(s: State, r: RunId): Option<Lease> {
    if r in s.leases then Some(s.leases[r]) else None
  }

  /** What a run row and its lease row look like between transactions. */
  predicate RunOk(run: Run, lease: Option<Lease>) {
    && run.retryCount <= MAX_INFRASTRUCTURE_RETRIES
    && 1 <= run.maxAttempts <= MAX_INFRASTRUCTURE_RETRIES
    && run.queuePosition >= 1
    && (run.leaseOwner.Some? <==> run.leaseExpiresAt.Some?)
    && (run.leaseOwner.Some? <==> lease.Some?)
    && (lease.Some? ==>
          && run.retryCount >= 1
          && lease.value == Lease(run.leaseOwner.value, run.leaseExpiresAt.value, run.retryCount))
    && (run.status in {Pending, Success, Error, Timeout} ==> run.leaseOwner.None?)
    && (run.status == Running ==> run.leaseOwner.Some? && run.reason.None?)
    && (run.status == Interrupted && run.leaseOwner.Some? ==> run.reason in {Some(CancelRequested), Some(Rollback)})
    && (run.reason == Some(Rollback) ==> run.status == Interrupted && run.leaseOwner.Some?)
  }

  ghost predicate OwnershipInv(s: State) {
    && (forall r :: r in s.runs ==> r in s.issued && RunOk(s.runs[r], LeaseOf(s, r)))
    && (forall r :: r in s.leases ==> r in s.runs)
    && (forall r :: r in s.runs && s.runs[r].leaseOwner.Some? && s.runs[r].thread.Some? ==>
          s.runs[r].thread.value in s.threads)
  }

  predicate SameLife(a: Run, b: Run) {
    b == a.(eventSeq := b.eventSeq, eventPrunedThrough := b.eventPrunedThrough)
  }

  ghost predicate SameThreadKeys(s: State, s': State) {
    forall t :: t in s.threads ==> t in s'.threads
  }

  /** Run ownership, baselines and checkpoint tables stay as they are. */
  ghost predicate Quiet(s: State, s': State) {
    && s.clock <= s'.clock
    && s' == s.(clock := s'.clock, runs := s'.runs, threads := s'.threads, events := s'.events, inserted := s'.inserted)
    && s'.runs.Keys == s.runs.Keys
    && (forall q :: q in s.runs ==> SameLife(s.runs[q], s'.runs[q]))
    && SameThreadKeys(s, s')
  }

  /** Columns that a change of ownership may touch; all the others stay. */
  predicate SameIdentity(a: Run, b: Run) {
    b == a.(status := b.status, reason := b.reason, nextAttemptAt := b.nextAttemptAt, leaseOwner := b.leaseOwner,
            leaseExpiresAt := b.leaseExpiresAt, drained := b.drained, eventSeq := b.eventSeq, updatedAt := b.updatedAt)
  }

  /** The moves that a run row can make outside of a claim. */
  predicate LegalMove(a: Run, b: Run) {
    || (a.status == Running && b.status == Running && b.leaseOwner == a.leaseOwner && b.leaseExpiresAt.Some?)
    || (a.status == Running && b.status != Running && (b.status == Interrupted || b.leaseOwner.None?))
    || (a.status == Pending && b.status in {Error, Interrupted} && b.leaseOwner.None?)
    || (a.status == Interrupted && b.status == Interrupted && (b.leaseOwner == a.leaseOwner || b.leaseOwner.None?))
  }

  /** Only run `r` changes, by a legal move that keeps its row and lease consistent. */
  ghost predicate Moved(s: State, s': State, r: RunId) {
    && s' == s.(runs := s'.runs, leases := s'.leases, threads := s'.threads, events := s'.events, inserted := s'.inserted)
    && s'.runs.Keys == s.runs.Keys && r in s.runs
    && (forall q :: q in s.runs && q != r ==> s'.runs[q] == s.runs[q])
    && (forall q :: q != r ==> LeaseOf(s', q) == LeaseOf(s, q))
    && SameThreadKeys(s, s')
    && SameIdentity(s.runs[r], s'.runs[r]) && LegalMove(s.runs[r], s'.runs[r])
    && RunOk(s'.runs[r], LeaseOf(s', r))
    && (Active(s'.runs[r]) ==> Active(s.runs[r]) || MayRollback(s, r))
  }

  // ---- recording events is quiet ----

  /** Only the event log and the cursors of run `r` and of the threads moved. */
  ghost predicate Logged(s: State, s': State, r: RunId) {
    && s' == s.(runs := s'.runs, threads := s'.threads, events := s'.events, inserted := s'.inserted)
    && s'.runs.Keys == s.runs.Keys
    && (forall q :: q in s.runs && q != r ==> s'.runs[q] == s.runs[q])
    && (r in s.runs ==> s'.runs[r] == s.runs[r].(eventSeq := s'.runs[r].eventSeq))
    && s'.threads.Keys == s.threads.Keys
    && (forall t :: t in s.threads ==> s'.threads[t] == s.threads[t].(eventSeq := s'.threads[t].eventSeq))
  }

  lemma LoggedIsQuiet(s: State, s': State, r: RunId)
    requires Logged(s, s', r)
    ensures Quiet(s, s')
  {
  }

  lemma AppendIsLogged(s: State, r: RunId, n: Notice, sequence: nat)
    requires r in s.runs
    ensures Logged(s, Append(s, r, n, sequence), r)
  {
  }

  lemma RecordIsLogged(s: State, r: RunId, n: Notice, s': State)
    requires Record(s, r, n) == Commit(s')
    ensures Logged(s, s', r)
  {
    if !(n.terminal && HasTerminalEvent(s, r)) {
      match s.runs[r].thread {
        case Some(t) =>
          var next := NextThreadSequence(s, t);
          AppendIsLogged(SetThreadCursor(s, t, next), r, n, next);
        case None =>
          AppendIsLogged(s, r, n, NextRunSequence(s, r));
      }
    }
  }

  lemma {:induction false} RecordAllIsLogged(s: State, r: RunId, notices: seq<Notice>, s': State)
    requires RecordAll(s, r, notices) == Commit(s')
    ensures Logged(s, s', r)
    decreases |notices|
  {
    if notices != [] {
      var s1 := Record(s, r, notices[0]).db;
      RecordIsLogged(s, r, notices[0], s1);
      RecordAllIsLogged(s1, r, notices[1..], s');
    }
  }

  lemma {:induction false} InsertBatchFrame(s: State, r: RunId, thread: Option<ThreadId>, notices: seq<Notice>, cursor: nat)
    ensures var s' := InsertBatch(s, r, thread, notices, cursor);
            s' == s.(events := s'.events, inserted := s'.inserted)
    decreases |notices|
  {
    if notices != [] {
      InsertBatchFrame(Insert(s, BatchRow(s, r, thread, notices[0], cursor + 1)), r, thread, notices[1..], cursor + 1);
    }
  }

  lemma BatchIsLogged(s: State, r: RunId, notices: seq<Notice>, cursor: nat, last: nat)
    requires r in s.runs && ThreadPresent(s, s.runs[r])
    ensures Logged(s, InsertBatch(SetCursors(s, r, last), r, s.runs[r].thread, notices, cursor), r)
  {
    var s1 := SetCursors(s, r, last);
    InsertBatchFrame(s1, r, s.runs[r].thread, notices, cursor);
    assert Logged(s, s1, r);
  }

  lemma RecordDeltasIsLogged(s: State, r: RunId, notices: seq<Notice>, s': State)
    requires RecordDeltas(s, r, None, notices) == Commit(s')
    ensures Logged(s, s', r)
  {
    if notices != [] {
      BatchIsLogged(s, r, notices, DeltaCursor(s, r), DeltaCursor(s, r) + |notices|);
    }
  }
}
