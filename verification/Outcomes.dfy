/** What the owner's and the reaper's transactions make of an executing run: its row, its lease and its events. */
module Outcomes {
  import opened Wrappers
  import opened RunState
  import opened Tables
  import opened EventLog
  import opened RunStore
  import opened CoreApi
  import opened Protocol
  import opened StepCases
  import opened Moves
  import opened LogInvariants
  import opened TerminalEvents
  import opened Reachable

  // ---- rows and events ----

  /** Run `r` got this status, reason and next attempt and let go of its lease; all other runs, leases, claims and
      checkpoints stayed. */
  ghost predicate Settles(s: State, s': State, r: RunId, status: RunStatus, reason: RunReason, next: Option<Time>) {
    && r in s.runs && s'.runs.Keys == s.runs.Keys
    && s'.runs[r] == s.runs[r].(status := status, reason := Some(reason), leaseOwner := None, leaseExpiresAt := None,
                                nextAttemptAt := next, updatedAt := s.clock,
                                drained := s'.runs[r].drained, eventSeq := s'.runs[r].eventSeq)
    && (forall q :: q in s.runs && q != r ==> s'.runs[q] == s.runs[q])
    && s'.leases == s.leases - {r} && s'.clock == s.clock && s'.claims == s.claims
    && s'.tables == s.tables && s'.baselines == s.baselines && s'.threads.Keys == s.threads.Keys
  }

  predicate Carries(s: State, e: Event, r: RunId, n: Notice) {
    && r in s.runs && e.run == Some(r) && e.thread == s.runs[r].thread && e.createdAt == s.clock
    && e.topic == n.topic && e.payload == n.payload && e.namespace == n.namespace && e.terminal == n.terminal
  }

  /** Exactly these events of the run were recorded, in this order. */
  ghost predicate Tells(s: State, s': State, r: RunId, notices: seq<Notice>) {
    && |s'.inserted| == |s.inserted| + |notices| && s'.inserted[..|s.inserted|] == s.inserted
    && forall i :: 0 <= i < |notices| ==> Carries(s, s'.inserted[|s.inserted| + i], r, notices[i])
  }

  lemma RecordCommits(s: State, r: RunId, n: Notice)
    requires r in s.runs && ThreadPresent(s, s.runs[r])
    ensures Record(s, r, n).Commit?
  {
  }

  lemma AppendTells(s: State, r: RunId, n: Notice, sequence: nat)
    requires r in s.runs
    ensures Tells(s, Append(s, r, n, sequence), r, [n])
  {
  }

  lemma RecordTells(s: State, r: RunId, n: Notice, s': State)
    requires Record(s, r, n) == Commit(s') && !(n.terminal && HasTerminalEvent(s, r))
    ensures Tells(s, s', r, [n])
  {
    match s.runs[r].thread {
      case Some(t) =>
        var next := NextThreadSequence(s, t);
        AppendTells(SetThreadCursor(s, t, next), r, n, next);
      case None => AppendTells(s, r, n, NextRunSequence(s, r));
    }
  }

  lemma TellsMore(s: State, s1: State, s': State, r: RunId, first: Notice, rest: seq<Notice>)
    requires Tells(s, s1, r, [first]) && Tells(s1, s', r, rest) && Logged(s, s1, r)
    ensures Tells(s, s', r, [first] + rest)
  {
    assert s'.inserted[..|s.inserted|] == s'.inserted[..|s1.inserted|][..|s.inserted|];
    assert s'.inserted[|s.inserted|] == s'.inserted[..|s1.inserted|][|s.inserted|];
  }

  lemma TellsThen(s: State, s1: State, s': State, r: RunId, before: seq<Notice>, last: Notice)
    requires Tells(s, s1, r, before) && Tells(s1, s', r, [last]) && Logged(s, s1, r)
    ensures Tells(s, s', r, before + [last])
  {
    assert s'.inserted[..|s.inserted|] == s'.inserted[..|s1.inserted|][..|s.inserted|];
    forall i | 0 <= i < |before| + 1
      ensures Carries(s, s'.inserted[|s.inserted| + i], r, (before + [last])[i])
    {
      if i < |before| {
        assert s'.inserted[|s.inserted| + i] == s'.inserted[..|s1.inserted|][|s.inserted| + i];
      }
    }
  }

  lemma OneTells(s: State, r: RunId, n: Plain)
    requires r in s.runs && ThreadPresent(s, s.runs[r])
    ensures var tx := Record(s, r, n);
            tx.Commit? && Tells(s, tx.db, r, [n]) && Logged(s, tx.db, r) && r in tx.db.runs && ThreadPresent(tx.db, tx.db.runs[r])
  {
    RecordCommits(s, r, n);
    RecordTells(s, r, n, Record(s, r, n).db);
    RecordIsLogged(s, r, n, Record(s, r, n).db);
  }

  lemma {:induction false} RecordAllTells(s: State, r: RunId, notices: seq<Plain>)
    requires r in s.runs && ThreadPresent(s, s.runs[r])
    ensures RecordAll(s, r, notices).Commit? && Tells(s, RecordAll(s, r, notices).db, r, notices)
    decreases |notices|
  {
    if notices != [] {
      OneTells(s, r, notices[0]);
      var s1 := Record(s, r, notices[0]).db;
      RecordAllTells(s1, r, notices[1..]);
      TellsMore(s, s1, RecordAll(s1, r, notices[1..]).db, r, notices[0], notices[1..]);
      assert [notices[0]] + notices[1..] == notices;
    }
  }

  lemma LetGoSettles(s: State, r: RunId, status: RunStatus, reason: RunReason, next: Option<Time>)
    requires r in s.runs
    ensures Settles(s, LetGo(s, r, status, reason, next), r, status, reason, next)
  {
  }

  lemma SettlesThenThreads(s: State, s1: State, s': State, r: RunId, status: RunStatus, reason: RunReason, next: Option<Time>)
    requires Settles(s, s1, r, status, reason, next) && OnlyProjections(s1, s')
    ensures Settles(s, s', r, status, reason, next)
  {
  }

  lemma SettlesThenLogged(s: State, s1: State, s': State, r: RunId, status: RunStatus, reason: RunReason, next: Option<Time>)
    requires Settles(s, s1, r, status, reason, next) && Logged(s1, s', r)
    ensures Settles(s, s', r, status, reason, next)
  {
    assert s'.runs[r] == s1.runs[r].(eventSeq := s'.runs[r].eventSeq);
  }

  lemma LoggedThenSettles(s: State, s1: State, s': State, r: RunId, status: RunStatus, reason: RunReason, next: Option<Time>)
    requires Logged(s, s1, r) && Settles(s1, s', r, status, reason, next)
    ensures Settles(s, s', r, status, reason, next)
  {
    assert s1.runs[r] == s.runs[r].(eventSeq := s1.runs[r].eventSeq);
  }

  /** The row is let go and the status change is recorded, as a terminal event if the run is over. */
  lemma SettleAndRecord(s: State, s1: State, r: RunId, status: RunStatus, reason: RunReason, next: Option<Time>, n: Notice)
    requires Settles(s, s1, r, status, reason, next) && ThreadPresent(s, s.runs[r])
    requires s1.events == s.events && s1.inserted == s.inserted && (n.terminal ==> !HasTerminalEvent(s, r))
    ensures Record(s1, r, n).Commit?
    ensures Settles(s, Record(s1, r, n).db, r, status, reason, next) && Tells(s, Record(s1, r, n).db, r, [n])
    ensures Record(s1, r, n).db.runs[r].drained == s1.runs[r].drained
  {
    RecordCommits(s1, r, n);
    var s' := Record(s1, r, n).db;
    RecordIsLogged(s1, r, n, s');
    RecordTells(s1, r, n, s');
    SettlesThenLogged(s, s1, s', r, status, reason, next);
  }

  // ---- the owner's failures and requeues ----

  function TwoTo(n: nat): nat {
    if n == 0 then 1 else 2 * TwoTo(n - 1)
  }

  /** The delay after the n-th attempt: the base doubled for each attempt after the first, and at most 30 seconds. */
  function BackOff(cfg: Config, attempt: nat): Time
    requires attempt >= 1
  {
    var delay := cfg.retryBase * TwoTo(attempt - 1) as real;
    if delay < 30.0 then delay else 30.0
  }

  lemma {:induction false} DoublingIsPower(base: Time, n: nat)
    ensures Doubled(base, n) == base * TwoTo(n) as real
    decreases n
  {
    if n > 0 {
      DoublingIsPower(base, n - 1);
      calc {
        base * TwoTo(n) as real;
        base * (2.0 * TwoTo(n - 1) as real);
        2.0 * (base * TwoTo(n - 1) as real);
      }
    }
  }

  lemma DelayIsBackOff(cfg: Config, attempt: nat)
    requires attempt >= 1
    ensures RetryDelay(cfg, attempt) == BackOff(cfg, attempt)
  {
    DoublingIsPower(cfg.retryBase, attempt - 1);
  }

  /** Run `r` is executing under this owner. */
  predicate RunsUnder(s: State, r: RunId, owner: Owner) {
    r in s.runs && s.runs[r].status == Running && s.runs[r].leaseOwner == Some(owner)
  }

  /** What the invariants say about an executing run, for the endings below. */
  predicate Sound(s: State, r: RunId) {
    && r in s.runs && s.runs[r].status == Running && 1 <= s.runs[r].retryCount <= MAX_INFRASTRUCTURE_RETRIES
    && ThreadPresent(s, s.runs[r]) && !HasTerminalEvent(s, r)
  }

  lemma ExecutingIsSound(s: State, r: RunId)
    requires Inv(s) && r in s.runs && s.runs[r].status == Running
    ensures Sound(s, r)
  {
    assert RunOk(s.runs[r], LeaseOf(s, r));
    LookupIsHistory(s, r);
    assert Settled(s, r);
  }

  lemma ReachedIsSound(clock: Time, before: seq<Step>, r: RunId)
    requires r in Reached(clock, before).runs && Reached(clock, before).runs[r].status == Running
    ensures Sound(Reached(clock, before), r)
  {
    ReachedInv(clock, before);
    ExecutingIsSound(Reached(clock, before), r);
  }

  function LeastOf(a: nat, b: nat): nat {
    if a < b then a else b
  }

  function Lifecycle(status: RunStatus, payload: Json): Notice {
    Notice("lifecycle", payload, [], status in {Success, Error, Timeout, Interrupted})
  }

  /** What becomes of the run. */
  datatype Verdict = Verdict(status: RunStatus, reason: RunReason, next: Option<Time>)

  /** An infrastructure failure below the attempt limit is retried after the back-off; any other failure is an error. */
  function OfFailure(now: Time, cfg: Config, run: Run, infra: bool): Verdict
    requires run.retryCount >= 1
  {
    if infra && run.retryCount < LeastOf(run.maxAttempts, cfg.maxAttempts) then
      Verdict(Pending, Retry, Some(now + BackOff(cfg, run.retryCount)))
    else Verdict(Error, if infra then InfrastructureError else BusinessError, None)
  }

  lemma FailIsRecord(s: State, cfg: Config, r: RunId, owner: Owner, infra: bool, v: Verdict)
    requires RunsUnder(s, r, owner) && 1 <= s.runs[r].retryCount <= MAX_INFRASTRUCTURE_RETRIES
    requires v == OfFailure(s.clock, cfg, s.runs[r], infra)
    ensures Fail(s, cfg, r, owner, infra, if infra then InfrastructureError else BusinessError)
            == Record(LetGo(s, r, v.status, v.reason, v.next), r, Lifecycle(v.status, "lifecycle"))
  {
    DelayIsBackOff(cfg, s.runs[r].retryCount);
  }

  lemma LetGoAndRecord(s: State, r: RunId, v: Verdict, n: Notice)
    requires r in s.runs && ThreadPresent(s, s.runs[r]) && (n.terminal ==> !HasTerminalEvent(s, r))
    ensures var tx := Record(LetGo(s, r, v.status, v.reason, v.next), r, n);
            tx.Commit? && Settles(s, tx.db, r, v.status, v.reason, v.next) && Tells(s, tx.db, r, [n])
  {
    LetGoSettles(s, r, v.status, v.reason, v.next);
    SettleAndRecord(s, LetGo(s, r, v.status, v.reason, v.next), r, v.status, v.reason, v.next, n);
  }

  lemma FailSettles(s: State, cfg: Config, r: RunId, owner: Owner, infra: bool)
    requires Sound(s, r) && RunsUnder(s, r, owner)
    ensures var v, s' := OfFailure(s.clock, cfg, s.runs[r], infra), Apply(s, FailRun(cfg, r, owner, infra));
            Settles(s, s', r, v.status, v.reason, v.next) && Tells(s, s', r, [Lifecycle(v.status, "lifecycle")])
  {
    var v := OfFailure(s.clock, cfg, s.runs[r], infra);
    FailIsRecord(s, cfg, r, owner, infra, v);
    LetGoAndRecord(s, r, v, Lifecycle(v.status, "lifecycle"));
  }

  /** A failure of an executing run: an infrastructure failure below the attempt limit puts the run back in the queue, due
      after the back-off; any other failure ends it with one terminal event. */
  lemma FailureOutcome(clock: Time, before: seq<Step>, cfg: Config, r: RunId, owner: Owner, infra: bool)
    requires RunsUnder(Reached(clock, before), r, owner)
    ensures var s, s' := Reached(clock, before), Apply(Reached(clock, before), FailRun(cfg, r, owner, infra));
            var run := s.runs[r];
            && 1 <= run.retryCount
            && if infra && run.retryCount < LeastOf(run.maxAttempts, cfg.maxAttempts) then
                 && Settles(s, s', r, Pending, Retry, Some(s.clock + BackOff(cfg, run.retryCount)))
                 && Tells(s, s', r, [Notice("lifecycle", "lifecycle", [], false)])
               else
                 && Settles(s, s', r, Error, if infra then InfrastructureError else BusinessError, None)
                 && Tells(s, s', r, [Notice("lifecycle", "lifecycle", [], true)])
  {
    ReachedIsSound(clock, before, r);
    FailSettles(Reached(clock, before), cfg, r, owner, infra);
  }

  lemma ShutdownIsRecord(s: State, cfg: Config, r: RunId, owner: Owner, drained: bool)
    requires RunsUnder(s, r, owner) && 1 <= s.runs[r].retryCount <= MAX_INFRASTRUCTURE_RETRIES
    ensures RequeueForShutdown(s, cfg, r, owner, drained)
            == Record(ShutState(s, r, Pending, ShutdownRequeue, Some(s.clock + BackOff(cfg, s.runs[r].retryCount)), drained),
                      r, Lifecycle(Pending, "lifecycle"))
  {
    DelayIsBackOff(cfg, s.runs[r].retryCount);
  }

  lemma ShutStateSettles(s: State, r: RunId, v: Verdict, drained: bool)
    requires r in s.runs
    ensures var s1 := ShutState(s, r, v.status, v.reason, v.next, drained);
            && Settles(s, s1, r, v.status, v.reason, v.next) && s1.events == s.events && s1.inserted == s.inserted
            && s1.runs[r].drained == (s.runs[r].drained || drained)
  {
    LetGoSettles(s, r, v.status, v.reason, v.next);
    var s1 := LetGo(s, r, v.status, v.reason, v.next);
    var s2 := SetThreadStatus(s1, s.runs[r].thread, "idle");
    StatusIsProjection(s1, s.runs[r].thread, "idle");
    SettlesThenThreads(s, s1, s2, r, v.status, v.reason, v.next);
    DrainSettles(s, s2, r, v, drained);
  }

  lemma DrainSettles(s: State, s2: State, r: RunId, v: Verdict, drained: bool)
    requires Settles(s, s2, r, v.status, v.reason, v.next)
    ensures Settles(s, Drain(s2, r, drained), r, v.status, v.reason, v.next)
    ensures Drain(s2, r, drained).runs[r].drained == (s2.runs[r].drained || drained)
    ensures Drain(s2, r, drained).events == s2.events && Drain(s2, r, drained).inserted == s2.inserted
  {
  }

  lemma ShutdownSettles(s: State, cfg: Config, r: RunId, owner: Owner, drained: bool)
    requires Sound(s, r) && RunsUnder(s, r, owner)
    ensures ShutBack(s, Apply(s, ShutDown(cfg, r, owner, drained)), cfg, r, drained)
  {
    var v := Verdict(Pending, ShutdownRequeue, Some(s.clock + BackOff(cfg, s.runs[r].retryCount)));
    ShutdownIsRecord(s, cfg, r, owner, drained);
    ShutStateSettles(s, r, v, drained);
    SettleAndRecord(s, ShutState(s, r, v.status, v.reason, v.next, drained), r, v.status, v.reason, v.next,
                    Lifecycle(Pending, "lifecycle"));
  }

  // ---- the reaper ----

  /** A run whose lease lapsed goes back to the queue, or ends if its attempts are used up. */
  function OfReaping(now: Time, cfg: Config, run: Run): Verdict
    requires run.retryCount >= 1
  {
    if run.retryCount < run.maxAttempts then Verdict(Pending, ShutdownRequeue, Some(now + BackOff(cfg, run.retryCount)))
    else Verdict(Error, InfrastructureError, None)
  }

  lemma ReapIsRecord(s: State, cfg: Config, r: RunId, v: Verdict)
    requires r in s.runs && s.runs[r].status == Running && 1 <= s.runs[r].retryCount <= MAX_INFRASTRUCTURE_RETRIES
    requires s.runs[r].leaseExpiresAt.Some? && s.runs[r].leaseExpiresAt.value < s.clock
    requires v == OfReaping(s.clock, cfg, s.runs[r])
    ensures Reap(s, cfg, r) == Record(ReapedState(s, r, v.status, v.reason, v.next), r, Lifecycle(v.status, "lifecycle"))
  {
    DelayIsBackOff(cfg, s.runs[r].retryCount);
  }

  lemma StatusIsProjection(s: State, thread: Option<ThreadId>, status: string)
    ensures OnlyProjections(s, SetThreadStatus(s, thread, status))
  {
  }

  lemma ErrorIsProjection(s: State, thread: Option<ThreadId>, error: Json)
    ensures OnlyProjections(s, SetThreadError(s, thread, error))
  {
  }

  lemma ReapedStateSettles(s: State, r: RunId, v: Verdict)
    requires r in s.runs
    ensures var s1 := ReapedState(s, r, v.status, v.reason, v.next);
            Settles(s, s1, r, v.status, v.reason, v.next) && s1.events == s.events && s1.inserted == s.inserted
  {
    LetGoSettles(s, r, v.status, v.reason, v.next);
    var s1 := LetGo(s, r, v.status, v.reason, v.next);
    var s2 := SetThreadStatus(s1, s.runs[r].thread, "idle");
    StatusIsProjection(s1, s.runs[r].thread, "idle");
    SettlesThenThreads(s, s1, s2, r, v.status, v.reason, v.next);
    ErrorIsProjection(s2, s.runs[r].thread, "infrastructure_error");
    SettlesThenThreads(s, s2, SetThreadError(s2, s.runs[r].thread, "infrastructure_error"), r, v.status, v.reason, v.next);
  }

  lemma ReapSettles(s: State, cfg: Config, r: RunId)
    requires Sound(s, r) && s.runs[r].leaseExpiresAt.Some? && s.runs[r].leaseExpiresAt.value < s.clock
    ensures var v, s' := OfReaping(s.clock, cfg, s.runs[r]), Apply(s, ReapRun(cfg, r));
            Settles(s, s', r, v.status, v.reason, v.next) && Tells(s, s', r, [Lifecycle(v.status, "lifecycle")])
  {
    var v := OfReaping(s.clock, cfg, s.runs[r]);
    ReapIsRecord(s, cfg, r, v);
    ReapedStateSettles(s, r, v);
    SettleAndRecord(s, ReapedState(s, r, v.status, v.reason, v.next), r, v.status, v.reason, v.next, Lifecycle(v.status, "lifecycle"));
  }

  /** The run is back in the queue, due after the back-off, and remembers whether it was drained. */
  ghost predicate ShutBack(s: State, s': State, cfg: Config, r: RunId, drained: bool)
    requires r in s.runs
  {
    && 1 <= s.runs[r].retryCount
    && Settles(s, s', r, Pending, ShutdownRequeue, Some(s.clock + BackOff(cfg, s.runs[r].retryCount)))
    && s'.runs[r].drained == (s.runs[r].drained || drained)
    && Tells(s, s', r, [Notice("lifecycle", "lifecycle", [], false)])
  }

  /** A worker that shuts down puts the run it executes back in the queue. */
  lemma ShutdownOutcome(clock: Time, before: seq<Step>, cfg: Config, r: RunId, owner: Owner, drained: bool)
    requires RunsUnder(Reached(clock, before), r, owner)
    ensures ShutBack(Reached(clock, before), Apply(Reached(clock, before), ShutDown(cfg, r, owner, drained)), cfg, r, drained)
  {
    ReachedIsSound(clock, before, r);
    ShutdownSettles(Reached(clock, before), cfg, r, owner, drained);
  }

  lemma ReaperLeaves(s: State, cfg: Config, r: RunId)
    requires r in s.runs && s.runs[r].leaseExpiresAt.Some? && s.runs[r].leaseExpiresAt.value >= s.clock
    ensures Apply(s, ReapRun(cfg, r)) == s
  {
  }

  /** The reaper takes an executing run exactly when its lease lapsed: it goes back to the queue, due after the back-off, or
      ends with one terminal event if its attempts are used up. */
  lemma ReapOutcome(clock: Time, before: seq<Step>, cfg: Config, r: RunId)
    requires var s := Reached(clock, before); r in s.runs && s.runs[r].status == Running
    ensures var s, s' := Reached(clock, before), Apply(Reached(clock, before), ReapRun(cfg, r));
            var run := s.runs[r];
            && 1 <= run.retryCount && run.leaseExpiresAt.Some?
            && if run.leaseExpiresAt.value >= s.clock then s' == s
               else if run.retryCount < run.maxAttempts then
                 && Settles(s, s', r, Pending, ShutdownRequeue, Some(s.clock + BackOff(cfg, run.retryCount)))
                 && Tells(s, s', r, [Notice("lifecycle", "lifecycle", [], false)])
               else
                 && Settles(s, s', r, Error, InfrastructureError, None)
                 && Tells(s, s', r, [Notice("lifecycle", "lifecycle", [], true)])
  {
    ReachedIsSound(clock, before, r);
    ReachedHasExpiry(clock, before, r);
    var s := Reached(clock, before);
    if s.runs[r].leaseExpiresAt.value < s.clock { ReapSettles(s, cfg, r); } else { ReaperLeaves(s, cfg, r); }
  }

  lemma ReachedHasExpiry(clock: Time, before: seq<Step>, r: RunId)
    requires var s := Reached(clock, before); r in s.runs && s.runs[r].status == Running
    ensures Reached(clock, before).runs[r].leaseExpiresAt.Some?
  {
    ReachedInv(clock, before);
    assert RunOk(Reached(clock, before).runs[r], LeaseOf(Reached(clock, before), r));
  }

  // ---- the owner's endings ----

  lemma FinishIsRecord(s: State, r: RunId, owner: Owner, e: Ending, payload: Option<Json>, preceding: seq<Plain>, s1: State)
    requires RunsUnder(s, r, owner) && RecordAll(s, r, preceding) == Commit(s1)
    requires r in s1.runs && s1.runs[r].status == Running && s1.runs[r].retryCount <= MAX_INFRASTRUCTURE_RETRIES
    ensures Finish(s, r, owner, EndStatus(e), EndReason(e), payload, preceding)
            == Record(LetGo(s1, r, EndStatus(e), EndReason(e), None), r, Lifecycle(EndStatus(e), payload.GetOr("lifecycle")))
  {
  }

  lemma SettlesAfterLog(s: State, s1: State, s': State, r: RunId, v: Verdict, preceding: seq<Notice>, last: Notice)
    requires Logged(s, s1, r) && Tells(s, s1, r, preceding)
    requires Settles(s1, s', r, v.status, v.reason, v.next) && Tells(s1, s', r, [last])
    ensures Settles(s, s', r, v.status, v.reason, v.next) && Tells(s, s', r, preceding + [last])
  {
    LoggedThenSettles(s, s1, s', r, v.status, v.reason, v.next);
    TellsThen(s, s1, s', r, preceding, last);
  }

  lemma LoggedRow(s: State, s1: State, r: RunId)
    requires r in s.runs && Logged(s, s1, r)
    ensures r in s1.runs && s1.runs[r] == s.runs[r].(eventSeq := s1.runs[r].eventSeq)
    ensures ThreadPresent(s, s.runs[r]) ==> ThreadPresent(s1, s1.runs[r])
  {
  }

  lemma FinishSettles(s: State, r: RunId, v: Verdict, last: Notice, preceding: seq<Plain>, s1: State)
    requires Sound(s, r) && !HasTerminalEvent(s1, r) && Logged(s, s1, r) && Tells(s, s1, r, preceding)
    ensures r in s1.runs
    ensures var tx := Record(LetGo(s1, r, v.status, v.reason, v.next), r, last);
            tx.Commit? && Settles(s, tx.db, r, v.status, v.reason, v.next) && Tells(s, tx.db, r, preceding + [last])
  {
    LoggedRow(s, s1, r);
    LetGoAndRecord(s1, r, v, last);
    SettlesAfterLog(s, s1, Record(LetGo(s1, r, v.status, v.reason, v.next), r, last).db, r, v, preceding, last);
  }

  lemma StillUnended(s: State, r: RunId, preceding: seq<Plain>, s1: State)
    requires Inv(s) && r in s.runs && s.runs[r].status == Running && RecordAll(s, r, preceding) == Commit(s1)
    ensures !HasTerminalEvent(s1, r)
  {
    RecordAllIsLogged(s, r, preceding, s1);
    RecordAllTerminal(s, r, preceding, s1);
    RecordAllKeepsLog(s, r, preceding, s1);
    LookupIsHistory(s1, r);
    assert Settled(s1, r);
  }

  lemma ReachedUnended(clock: Time, before: seq<Step>, r: RunId, preceding: seq<Plain>, s1: State)
    requires var s := Reached(clock, before); r in s.runs && s.runs[r].status == Running
    requires RecordAll(Reached(clock, before), r, preceding) == Commit(s1)
    ensures !HasTerminalEvent(s1, r)
  {
    ReachedInv(clock, before);
    StillUnended(Reached(clock, before), r, preceding, s1);
  }

  /** A worker that finishes the run it executes always succeeds: the run has the status and reason of the ending and no
      lease, and its preceding events and then exactly one terminal event with the given payload were recorded. */
  lemma FinishOutcome(clock: Time, before: seq<Step>, r: RunId, owner: Owner, e: Ending, payload: Option<Json>, preceding: seq<Plain>)
    requires RunsUnder(Reached(clock, before), r, owner)
    ensures var s, s' := Reached(clock, before), Apply(Reached(clock, before), FinishRun(r, owner, e, payload, preceding));
            && Settles(s, s', r, if e.Completes? then Success else if e.RunsOutOfTime? then Timeout else Interrupted,
                       if e.Completes? then Completed else if e.RunsOutOfTime? then TimedOut
                       else if e.AwaitsHuman? then HitlInterrupt else CancelRequested, None)
            && Tells(s, s', r, preceding + [Notice("lifecycle", if payload.Some? then payload.value else "lifecycle", [], true)])
  {
    ReachedIsSound(clock, before, r);
    RecordAllTells(Reached(clock, before), r, preceding);
    var s1 := RecordAll(Reached(clock, before), r, preceding).db;
    ReachedUnended(clock, before, r, preceding, s1);
    RecordAllIsLogged(Reached(clock, before), r, preceding, s1);
    OwnerFinishes(Reached(clock, before), s1, r, owner, e, payload, preceding);
  }

  lemma FinishApplies(s: State, s1: State, r: RunId, owner: Owner, e: Ending, payload: Option<Json>, preceding: seq<Plain>)
    requires Sound(s, r) && RunsUnder(s, r, owner) && RecordAll(s, r, preceding) == Commit(s1) && Logged(s, s1, r)
    ensures r in s1.runs
    ensures Apply(s, FinishRun(r, owner, e, payload, preceding))
            == After(s, Record(LetGo(s1, r, EndStatus(e), EndReason(e), None), r, Lifecycle(EndStatus(e), payload.GetOr("lifecycle"))))
  {
    LoggedRow(s, s1, r);
    FinishIsRecord(s, r, owner, e, payload, preceding, s1);
    FinishIsStep(s, r, owner, e, payload, preceding);
  }

  lemma FinishIsStep(s: State, r: RunId, owner: Owner, e: Ending, payload: Option<Json>, preceding: seq<Plain>)
    ensures Apply(s, FinishRun(r, owner, e, payload, preceding))
            == After(s, Finish(s, r, owner, EndStatus(e), EndReason(e), payload, preceding))
  {
  }

  lemma OwnerFinishes(s: State, s1: State, r: RunId, owner: Owner, e: Ending, payload: Option<Json>, preceding: seq<Plain>)
    requires Sound(s, r) && RunsUnder(s, r, owner) && RecordAll(s, r, preceding) == Commit(s1)
    requires Logged(s, s1, r) && Tells(s, s1, r, preceding) && !HasTerminalEvent(s1, r)
    ensures var s' := Apply(s, FinishRun(r, owner, e, payload, preceding));
            && Settles(s, s', r, EndStatus(e), EndReason(e), None)
            && Tells(s, s', r, preceding + [Lifecycle(EndStatus(e), payload.GetOr("lifecycle"))])
  {
    FinishApplies(s, s1, r, owner, e, payload, preceding);
    FinishSettles(s, r, Verdict(EndStatus(e), EndReason(e), None), Lifecycle(EndStatus(e), payload.GetOr("lifecycle")), preceding, s1);
  }

  /** Only the owner finishes, fails, requeues, renews or releases a run. */
  lemma OthersChangeNothing(s: State, step: Step)
    requires step.FinishRun? || step.FailRun? || step.ShutDown? || step.RenewLease? || step.ReleaseLease?
    requires step.r !in s.runs || s.runs[step.r].leaseOwner != Some(step.owner)
    ensures Apply(s, step) == s
  {
  }

  // ---- cancelling ----

  lemma CancelIsRecord(s: State, r: RunId)
    requires r in s.runs && s.runs[r].status in {Pending, Running} && s.runs[r].retryCount <= MAX_INFRASTRUCTURE_RETRIES
    ensures Cancel(s, r) == Record(Cancelled(s, r, Interrupted, CancelRequested), r, Lifecycle(Interrupted, "cancel_requested"))
  {
  }

  /** The run is interrupted on request; an executing one keeps its lease until its worker stops. */
  ghost predicate Interrupts(s: State, s': State, r: RunId)
    requires r in s.runs
  {
    var keeps := s.runs[r].status == Running;
    && s'.runs.Keys == s.runs.Keys
    && s'.runs[r] == s.runs[r].(status := Interrupted, reason := Some(CancelRequested), updatedAt := s.clock,
                                leaseOwner := if keeps then s.runs[r].leaseOwner else None,
                                leaseExpiresAt := if keeps then s.runs[r].leaseExpiresAt else None,
                                eventSeq := s'.runs[r].eventSeq)
    && (forall q :: q in s.runs && q != r ==> s'.runs[q] == s.runs[q])
    && s'.leases == (if keeps then s.leases else s.leases - {r})
    && s'.claims == s.claims && s'.tables == s.tables && s'.baselines == s.baselines
  }

  lemma CancelledRow(s: State, r: RunId)
    requires r in s.runs
    ensures var s1 := Cancelled(s, r, Interrupted, CancelRequested);
            Interrupts(s, s1, r) && s1.inserted == s.inserted && s1.events == s.events && s1.threads == s.threads && s1.clock == s.clock
  {
  }

  lemma InterruptsThenLogged(s: State, s1: State, s': State, r: RunId)
    requires r in s.runs && Interrupts(s, s1, r) && Logged(s1, s', r)
    ensures Interrupts(s, s', r)
  {
    assert s'.runs[r] == s1.runs[r].(eventSeq := s'.runs[r].eventSeq);
  }

  lemma CancelInterrupts(s: State, r: RunId)
    requires r in s.runs && s.runs[r].status in {Pending, Running} && s.runs[r].retryCount <= MAX_INFRASTRUCTURE_RETRIES
    requires ThreadPresent(s, s.runs[r]) && !HasTerminalEvent(s, r)
    ensures var s' := Apply(s, CancelRun(r));
            Interrupts(s, s', r) && Tells(s, s', r, [Lifecycle(Interrupted, "cancel_requested")])
  {
    CancelledRow(s, r);
    InterruptAndRecord(s, Cancelled(s, r, Interrupted, CancelRequested), r, Lifecycle(Interrupted, "cancel_requested"));
    CancelIsRecord(s, r);
  }

  lemma InterruptAndRecord(s: State, s1: State, r: RunId, n: Notice)
    requires r in s.runs && Interrupts(s, s1, r) && ThreadPresent(s, s.runs[r]) && s1.threads == s.threads && s1.clock == s.clock
    requires s1.events == s.events && s1.inserted == s.inserted && !HasTerminalEvent(s, r)
    ensures var tx := Record(s1, r, n); tx.Commit? && Interrupts(s, tx.db, r) && Tells(s, tx.db, r, [n])
  {
    RecordCommits(s1, r, n);
    var s' := Record(s1, r, n).db;
    RecordIsLogged(s1, r, n, s');
    RecordTells(s1, r, n, s');
    InterruptsThenLogged(s, s1, s', r);
  }

  lemma ReachedUnfinished(clock: Time, before: seq<Step>, r: RunId)
    requires var s := Reached(clock, before); r in s.runs && s.runs[r].status in {Pending, Running}
    ensures var s := Reached(clock, before); s.runs[r].retryCount <= MAX_INFRASTRUCTURE_RETRIES && !HasTerminalEvent(s, r)
  {
    ReachedInv(clock, before);
    var s := Reached(clock, before);
    assert RunOk(s.runs[r], LeaseOf(s, r));
    LookupIsHistory(s, r);
    assert Settled(s, r);
  }

  /** Cancelling always interrupts an unfinished run, with one terminal event, and never changes a finished one. */
  lemma CancelOutcome(clock: Time, before: seq<Step>, r: RunId)
    requires var s := Reached(clock, before); r in s.runs && ThreadPresent(s, s.runs[r])
    ensures var s, s' := Reached(clock, before), Apply(Reached(clock, before), CancelRun(r));
            if s.runs[r].status in {Pending, Running} then
              && Interrupts(s, s', r)
              && Tells(s, s', r, [Notice("lifecycle", "cancel_requested", [], true)])
            else s' == s
  {
    if Reached(clock, before).runs[r].status in {Pending, Running} {
      ReachedUnfinished(clock, before, r);
      CancelInterrupts(Reached(clock, before), r);
    }
  }

  /** The run has no lease any more and is as it was otherwise; its thread shows whether interrupts are open. */
  ghost predicate LeaseReturned(s: State, s': State, r: RunId)
    requires r in s.runs
  {
    && s'.runs == s.runs[r := s.runs[r].(leaseOwner := None, leaseExpiresAt := None)]
    && s'.leases == s.leases - {r} && s'.claims == s.claims && s'.tables == s.tables
    && forall t :: t in s.threads && s.runs[r].thread == Some(t) ==>
         t in s'.threads
         && s'.threads[t].projection.status == (if s.threads[t].projection.interrupts == map[] then "idle" else "interrupted")
  }

  lemma ReleasedIsReturned(s: State, r: RunId, owner: Owner)
    requires r in s.runs && s.runs[r].leaseOwner == Some(owner) && s.runs[r].reason == Some(CancelRequested)
    ensures LeaseReturned(s, ReleaseCancelled(s, r, owner), r)
  {
  }

  lemma ReleaseIsStep(s: State, r: RunId, owner: Owner)
    ensures Apply(s, ReleaseLease(r, owner)) == ReleaseCancelled(s, r, owner)
  {
  }

  /** The worker of a cancelled run gives its lease back, and only then. */
  lemma ReleaseOutcome(s: State, r: RunId, owner: Owner)
    ensures var s' := Apply(s, ReleaseLease(r, owner));
            if r in s.runs && s.runs[r].leaseOwner == Some(owner) && s.runs[r].reason == Some(CancelRequested) then LeaseReturned(s, s', r)
            else s' == s
  {
    ReleaseIsStep(s, r, owner);
    if r in s.runs && s.runs[r].leaseOwner == Some(owner) && s.runs[r].reason == Some(CancelRequested) {
      ReleasedIsReturned(s, r, owner);
    }
  }

  // ---- what the thread shows ----

  /** The run's thread has this status and this error, where there is a new one; everything else about threads but their event
      cursors is as it was. */
  ghost predicate ThreadShows(s: State, s': State, r: RunId, status: Option<string>, error: Option<Json>)
    requires r in s.runs
  {
    && s'.threads.Keys == s.threads.Keys
    && forall t :: t in s.threads ==>
         var was := s.threads[t].projection;
         s'.threads[t].projection ==
           if s.runs[r].thread == Some(t) then was.(status := status.GetOr(was.status), error := if error.Some? then error else was.error)
           else was
  }

  lemma ShowsAfterRecord(s: State, s1: State, n: Notice, r: RunId, status: Option<string>, error: Option<Json>)
    requires r in s.runs && ThreadShows(s, s1, r, status, error)
    ensures Record(s1, r, n).Commit? ==> ThreadShows(s, Record(s1, r, n).db, r, status, error)
  {
    if Record(s1, r, n).Commit? { RecordIsLogged(s1, r, n, Record(s1, r, n).db); }
  }

  lemma ShutStateShows(s: State, r: RunId, v: Verdict, drained: bool)
    requires r in s.runs
    ensures ThreadShows(s, ShutState(s, r, v.status, v.reason, v.next, drained), r, Some("idle"), None)
  {
  }

  lemma ReapedStateShows(s: State, r: RunId, v: Verdict)
    requires r in s.runs
    ensures ThreadShows(s, ReapedState(s, r, v.status, v.reason, v.next), r, Some("idle"),
                        if v.status == Error then Some("infrastructure_error") else None)
  {
  }

  /** A shutdown and the reaper leave the run's thread idle, the reaper with an error if it ends the run. */
  lemma RequeueIdlesThread(clock: Time, before: seq<Step>, cfg: Config, r: RunId, owner: Owner, drained: bool)
    requires RunsUnder(Reached(clock, before), r, owner)
    ensures var s := Reached(clock, before);
            && ThreadShows(s, Apply(s, ShutDown(cfg, r, owner, drained)), r, Some("idle"), None)
            && (s.runs[r].leaseExpiresAt.Some? && s.runs[r].leaseExpiresAt.value < s.clock ==>
                  ThreadShows(s, Apply(s, ReapRun(cfg, r)), r, Some("idle"),
                              if s.runs[r].retryCount < s.runs[r].maxAttempts then None else Some("infrastructure_error")))
  {
    ReachedIsSound(clock, before, r);
    var s := Reached(clock, before);
    ShutdownShows(s, cfg, r, owner, drained);
    if s.runs[r].leaseExpiresAt.Some? && s.runs[r].leaseExpiresAt.value < s.clock { ReapShows(s, cfg, r); }
  }

  lemma ShutdownShows(s: State, cfg: Config, r: RunId, owner: Owner, drained: bool)
    requires Sound(s, r) && RunsUnder(s, r, owner)
    ensures ThreadShows(s, Apply(s, ShutDown(cfg, r, owner, drained)), r, Some("idle"), None)
  {
    var v := Verdict(Pending, ShutdownRequeue, Some(s.clock + BackOff(cfg, s.runs[r].retryCount)));
    ShutdownIsRecord(s, cfg, r, owner, drained);
    ShutStateShows(s, r, v, drained);
    ShutStateSettles(s, r, v, drained);
    RecordCommits(ShutState(s, r, v.status, v.reason, v.next, drained), r, Lifecycle(Pending, "lifecycle"));
    ShowsAfterRecord(s, ShutState(s, r, v.status, v.reason, v.next, drained), Lifecycle(Pending, "lifecycle"), r, Some("idle"), None);
  }

  lemma ReapShows(s: State, cfg: Config, r: RunId)
    requires Sound(s, r) && s.runs[r].leaseExpiresAt.Some? && s.runs[r].leaseExpiresAt.value < s.clock
    ensures ThreadShows(s, Apply(s, ReapRun(cfg, r)), r, Some("idle"),
                        if s.runs[r].retryCount < s.runs[r].maxAttempts then None else Some("infrastructure_error"))
  {
    var v := OfReaping(s.clock, cfg, s.runs[r]);
    ReapIsRecord(s, cfg, r, v);
    ReapedStateShows(s, r, v);
    ReapedStateSettles(s, r, v);
    RecordCommits(ReapedState(s, r, v.status, v.reason, v.next), r, Lifecycle(v.status, "lifecycle"));
    ShowsAfterRecord(s, ReapedState(s, r, v.status, v.reason, v.next), Lifecycle(v.status, "lifecycle"), r, Some("idle"),
                     if v.status == Error then Some("infrastructure_error") else None);
  }
}
