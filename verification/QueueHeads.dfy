/** Which run a claim serves: the queue's order in terms of resumes and positions, and what the claim then does. */
module QueueHeads {
  import opened Wrappers
  import opened RunState
  import opened Tables
  import opened EventLog
  import opened RunStore
  import opened Protocol
  import opened StepCases
  import opened Kinds
  import opened Invariants
  import opened Reachable

  /** No run of the thread executes, waits for its rollback, or is still held under an unexpired lease. */
  ghost predicate Free(s: State, t: ThreadId) {
    forall q :: q in s.runs && s.runs[q].thread == Some(t) ==>
      && s.runs[q].status != Running && s.runs[q].reason != Some(Rollback)
      && (s.runs[q].leaseOwner.None? || s.runs[q].leaseExpiresAt.None? || s.runs[q].leaseExpiresAt.value <= s.clock)
  }

  predicate Waits(s: State, q: RunId, t: ThreadId) {
    q in s.runs && s.runs[q].thread == Some(t) && s.runs[q].status == Pending
  }

  predicate Due(s: State, r: RunId) {
    r in s.runs && (s.runs[r].nextAttemptAt.None? || s.runs[r].nextAttemptAt.value <= s.clock)
  }

  /** The pending resume with the least position. */
  ghost predicate FirstResume(s: State, r: RunId, t: ThreadId) {
    && Waits(s, r, t) && s.runs[r].resume
    && forall q :: Waits(s, q, t) && s.runs[q].resume ==> s.runs[r].queuePosition <= s.runs[q].queuePosition
  }

  /** No resume is pending, and this message has the least position. */
  ghost predicate FirstMessage(s: State, r: RunId, t: ThreadId) {
    && Waits(s, r, t)
    && forall q :: Waits(s, q, t) ==> !s.runs[q].resume && s.runs[r].queuePosition <= s.runs[q].queuePosition
  }

  predicate OpenInterrupts(s: State, t: ThreadId) {
    t in s.threads && s.threads[t].projection.interrupts != map[]
  }

  /** The run that may be served: on a free thread the first due resume, or without resumes and open interrupts the first
      due message. A run without thread only has to be due. */
  ghost predicate IsNext(s: State, r: RunId) {
    && r in s.runs && s.runs[r].status == Pending && Due(s, r)
    && match s.runs[r].thread
       case None => true
       case Some(t) => Free(s, t) && (FirstResume(s, r, t) || (FirstMessage(s, r, t) && !OpenInterrupts(s, t)))
  }

  lemma FreeIsUnblocked(s: State, t: ThreadId)
    ensures Free(s, t) <==> !ThreadBlocked(s, t)
  {
  }

  lemma HeadIsFirst(s: State, r: RunId, t: ThreadId)
    requires QueueInv(s) && Waits(s, r, t)
    ensures !HasEarlier(s, r, t) <==> FirstResume(s, r, t) || FirstMessage(s, r, t)
  {
    if !HasEarlier(s, r, t) {
      forall q | Waits(s, q, t) && q != r
        ensures !Before(q, s.runs[q], r, s.runs[r]) && s.runs[q].queuePosition != s.runs[r].queuePosition
      {
      }
    }
  }

  lemma EligibleIsNext(s: State, r: RunId)
    requires QueueInv(s)
    ensures Eligible(s, r) <==> IsNext(s, r)
  {
    if r in s.runs && s.runs[r].status == Pending && s.runs[r].thread.Some? {
      FreeIsUnblocked(s, s.runs[r].thread.value);
      HeadIsFirst(s, r, s.runs[r].thread.value);
    }
  }

  predicate OwnThreadExists(s: State, r: RunId) {
    r in s.runs && (s.runs[r].thread.Some? ==> s.runs[r].thread.value in s.threads)
  }

  /** What serving a run means: one attempt more under a fresh lease, or the end of a run whose attempts are used up. */
  ghost predicate Served(s: State, s': State, cfg: Config, r: RunId, owner: Owner)
    requires r in s.runs
  {
    var run := s.runs[r];
    && r in s'.runs && s'.clock == s.clock
    && (forall q :: q in s.runs && q != r ==> q in s'.runs && s'.runs[q] == s.runs[q])
    && if run.retryCount < run.maxAttempts then
         && s'.runs[r].status == Running && s'.runs[r].reason == None && s'.runs[r].retryCount == run.retryCount + 1
         && s'.runs[r].leaseOwner == Some(owner) && s'.runs[r].leaseExpiresAt == Some(s.clock + cfg.leaseSeconds)
         && s'.runs[r].maxAttempts == (if run.maxAttempts < cfg.maxAttempts then run.maxAttempts else cfg.maxAttempts)
         && s'.runs[r].thread == run.thread && s'.runs[r].nextAttemptAt == None
         && r in s'.leases && s'.leases[r] == Lease(owner, s.clock + cfg.leaseSeconds, run.retryCount + 1)
         && s'.claims == s.claims + [Claim(ResourceOf(r, run), r, run.retryCount + 1)]
         && (run.thread.Some? ==> run.thread.value in s'.threads && s'.threads[run.thread.value].projection.status == "busy")
       else
         && s'.runs[r].status == Error && s'.runs[r].reason == Some(InfrastructureError)
         && s'.runs[r].leaseOwner == None && s'.runs[r].retryCount == run.retryCount && s'.runs[r].maxAttempts == run.maxAttempts
         && s'.claims == s.claims && s'.leases == s.leases
         && (run.thread.Some? ==> run.thread.value in s'.threads && s'.threads[run.thread.value].projection.status == "idle")
  }

  lemma GrantServes(s: State, cfg: Config, r: RunId, owner: Owner)
    requires OwnershipInv(s) && MayGrant(s, r)
    ensures Served(s, Grant(Prepare(s, r), cfg, r, owner), cfg, r, owner)
  {
    assert RunOk(s.runs[r], LeaseOf(s, r));
    PrepareFrame(s, r);
  }

  predicate Idle(s: State, thread: Option<ThreadId>) {
    thread.Some? && thread.value in s.threads ==> s.threads[thread.value].projection.status == "idle"
  }

  lemma EndFrame(s: State, r: RunId)
    requires r in s.runs
    ensures var s1 := EndOfAttempts(s, r);
            && s1 == s.(runs := s1.runs, threads := s1.threads) && s1.threads.Keys == s.threads.Keys
            && s1.runs == s.runs[r := s.runs[r].(status := Error, reason := Some(InfrastructureError), nextAttemptAt := None,
                                                 updatedAt := s.clock)]
            && Idle(s1, s.runs[r].thread)
  {
  }

  lemma EndRecords(s: State, r: RunId)
    requires OwnThreadExists(s, r)
    ensures Exhaust(s, r).Commit?
  {
    EndFrame(s, r);
  }

  lemma LoggedServes(s: State, s1: State, s': State, cfg: Config, r: RunId, owner: Owner)
    requires r in s.runs && s.runs[r].leaseOwner.None? && s.runs[r].retryCount >= s.runs[r].maxAttempts
    requires s1 == s.(runs := s1.runs, threads := s1.threads) && Idle(s1, s.runs[r].thread) && OwnThreadExists(s, r)
    requires s1.threads.Keys == s.threads.Keys
    requires s1.runs == s.runs[r := s.runs[r].(status := Error, reason := Some(InfrastructureError), nextAttemptAt := None,
                                               updatedAt := s.clock)]
    requires Logged(s1, s', r)
    ensures Served(s, s', cfg, r, owner)
  {
  }

  lemma ExhaustServes(s: State, cfg: Config, r: RunId, owner: Owner)
    requires OwnershipInv(s) && OwnThreadExists(s, r)
    requires s.runs[r].status == Pending && s.runs[r].retryCount >= s.runs[r].maxAttempts
    ensures Exhaust(s, r).Commit? && Served(s, Exhaust(s, r).db, cfg, r, owner)
  {
    assert RunOk(s.runs[r], LeaseOf(s, r));
    EndFrame(s, r);
    EndRecords(s, r);
    RecordIsLogged(EndOfAttempts(s, r), r, StatusNotice(Error, "infrastructure_error"), Exhaust(s, r).db);
    LoggedServes(s, EndOfAttempts(s, r), Exhaust(s, r).db, cfg, r, owner);
  }

  lemma NoOtherActive(s: State, r: RunId, t: ThreadId)
    requires Free(s, t)
    ensures !OtherActive(s.runs, t, r)
  {
  }

  lemma NextIsServed(s: State, cfg: Config, r: RunId, owner: Owner)
    requires OwnershipInv(s) && QueueInv(s) && IsNext(s, r) && OwnThreadExists(s, r)
    ensures Served(s, Apply(s, ClaimNext(cfg, r, owner)), cfg, r, owner)
  {
    EligibleIsNext(s, r);
    if s.runs[r].retryCount >= s.runs[r].maxAttempts {
      ExhaustServes(s, cfg, r, owner);
    } else {
      if s.runs[r].thread.Some? { NoOtherActive(s, r, s.runs[r].thread.value); }
      GrantServes(s, cfg, r, owner);
    }
  }

  lemma OthersAreNotServed(s: State, cfg: Config, r: RunId, owner: Owner)
    requires QueueInv(s) && !(IsNext(s, r) && OwnThreadExists(s, r))
    ensures Apply(s, ClaimNext(cfg, r, owner)) == s
  {
    EligibleIsNext(s, r);
  }

  /** In every reachable database a claim serves the run if and only if it is next, and otherwise does nothing. */
  lemma ClaimServesExactlyTheNext(clock: Time, steps: seq<Step>, cfg: Config, r: RunId, owner: Owner)
    ensures var s := Reached(clock, steps);
            var s' := Apply(s, ClaimNext(cfg, r, owner));
            if IsNext(s, r) && OwnThreadExists(s, r) then s' != s && Served(s, s', cfg, r, owner) else s' == s
  {
    ReachedInv(clock, steps);
    var s := Reached(clock, steps);
    if IsNext(s, r) && OwnThreadExists(s, r) {
      NextIsServed(s, cfg, r, owner);
    } else {
      OthersAreNotServed(s, cfg, r, owner);
    }
  }

  /** On a free thread the first resume is served as soon as it is due, open interrupts or not, and while any resume waits
      no ordinary message is served, whoever asks. */
  lemma ResumesGoFirst(clock: Time, steps: seq<Step>, cfg: Config, r: RunId, owner: Owner, t: ThreadId)
    requires var s := Reached(clock, steps); t in s.threads && Free(s, t) && FirstResume(s, r, t) && Due(s, r)
    ensures var s := Reached(clock, steps);
            && Served(s, Apply(s, ClaimNext(cfg, r, owner)), cfg, r, owner)
            && forall q, o: Owner | Waits(s, q, t) && q != r :: Apply(s, ClaimNext(cfg, q, o)) == s
  {
    ReachedInv(clock, steps);
    var s := Reached(clock, steps);
    NextIsServed(s, cfg, r, owner);
    forall q, o: Owner | Waits(s, q, t) && q != r
      ensures Apply(s, ClaimNext(cfg, q, o)) == s
    {
      assert s.runs[q].queuePosition != s.runs[r].queuePosition;
      OthersAreNotServed(s, cfg, q, o);
    }
  }

  /** On a free thread without pending resumes and open interrupts the first message is served as soon as it is due, and no
      other run of the thread. */
  lemma MessagesGoInOrder(clock: Time, steps: seq<Step>, cfg: Config, r: RunId, owner: Owner, t: ThreadId)
    requires var s := Reached(clock, steps);
             t in s.threads && Free(s, t) && FirstMessage(s, r, t) && !OpenInterrupts(s, t) && Due(s, r)
    ensures var s := Reached(clock, steps);
            && Served(s, Apply(s, ClaimNext(cfg, r, owner)), cfg, r, owner)
            && forall q, o: Owner | Waits(s, q, t) && q != r :: Apply(s, ClaimNext(cfg, q, o)) == s
  {
    ReachedInv(clock, steps);
    var s := Reached(clock, steps);
    NextIsServed(s, cfg, r, owner);
    forall q, o: Owner | Waits(s, q, t) && q != r
      ensures Apply(s, ClaimNext(cfg, q, o)) == s
    {
      assert s.runs[q].queuePosition != s.runs[r].queuePosition;
      OthersAreNotServed(s, cfg, q, o);
    }
  }

  /** Open interrupts hold back every ordinary message of the thread, until a resume was served or they are gone. */
  lemma InterruptsHoldMessages(clock: Time, steps: seq<Step>, cfg: Config, r: RunId, owner: Owner, t: ThreadId)
    requires var s := Reached(clock, steps); OpenInterrupts(s, t) && Waits(s, r, t) && !s.runs[r].resume
    ensures Apply(Reached(clock, steps), ClaimNext(cfg, r, owner)) == Reached(clock, steps)
  {
    ReachedInv(clock, steps);
    OthersAreNotServed(Reached(clock, steps), cfg, r, owner);
  }
}
