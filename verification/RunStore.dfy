/** What each `RunRepository` transaction does to the database, as a function. */
module RunStore {
  import opened Wrappers
  import opened RunState
  import opened Tables
  import opened EventLog

  // ---- submission ----

  /** `overlooks` says that the first look for the key came too early to see the row of a concurrent submission. */
  datatype Submission = Submission(
    thread: Option<ThreadId>,
    assistant: nat,
    resume: bool,
    streamResumable: bool,
    idempotencyKey: Option<string>,
    reject: bool,
    overlooks: bool)

  predicate Queued(runs: map<RunId, Run>, t: ThreadId) {
    exists q :: q in runs && runs[q].thread == Some(t) && runs[q].status in {Pending, Running}
  }

  predicate HasKey(runs: map<RunId, Run>, key: Option<string>) {
    key.Some? && exists q :: q in runs && runs[q].idempotencyKey == key
  }

  ghost function NextPosition(s: State, thread: Option<ThreadId>): nat {
    MaxOf(set q | q in s.runs && s.runs[q].thread == thread :: s.runs[q].queuePosition) + 1
  }

  ghost function NewRun(s: State, cfg: Config, sub: Submission): Run {
    Run(sub.thread, sub.assistant, Pending, None, 0, cfg.maxAttempts, None, None, None, 0, 0,
        sub.resume, false, sub.streamResumable, sub.idempotencyKey, NextPosition(s, sub.thread), s.clock, s.clock)
  }

  /** An empty key is stored, and unique, but never looked up. */
  predicate LooksUp(sub: Submission) {
    sub.idempotencyKey.Some? && sub.idempotencyKey.value != ""
  }

  /** The run that already has the key is the answer if it has the same target. */
  function Repeated(s: State, sub: Submission): Tx {
    if exists q :: q in s.runs && s.runs[q].idempotencyKey == sub.idempotencyKey
                   && s.runs[q].thread == sub.thread && s.runs[q].assistant == sub.assistant
    then Commit(s)
    else Abort(SubmissionConflict)
  }

  /** `r` is the fresh identifier that the insert would generate. The unique index, not the first look, decides. */
  ghost function Create(s: State, cfg: Config, r: RunId, sub: Submission): Tx {
    if LooksUp(sub) && !sub.overlooks && HasKey(s.runs, sub.idempotencyKey) then Repeated(s, sub)
    else if sub.reject && !sub.resume && sub.thread.Some? && Queued(s.runs, sub.thread.value) then
      Abort(SubmissionConflict)
    else if r in s.issued then Abort(BadRequest)
    else if HasKey(s.runs, sub.idempotencyKey) then
      if LooksUp(sub) then Repeated(s, sub) else Abort(BadRequest)
    else Commit(SetRun(s, r, NewRun(s, cfg, sub)).(issued := s.issued + {r}))
  }

  // ---- claiming ----

  /** The head-of-queue order: resumes first, then position, age and identifier. */
  predicate Before(a: RunId, x: Run, b: RunId, y: Run) {
    if x.resume != y.resume then x.resume
    else if x.queuePosition != y.queuePosition then x.queuePosition < y.queuePosition
    else if x.createdAt != y.createdAt then x.createdAt < y.createdAt
    else a < b
  }

  predicate Blocking(run: Run, now: Time) {
    Active(run) || (run.leaseOwner.Some? && run.leaseExpiresAt.Some? && run.leaseExpiresAt.value > now)
  }

  predicate ThreadBlocked(s: State, t: ThreadId) {
    exists q :: q in s.runs && s.runs[q].thread == Some(t) && Blocking(s.runs[q], s.clock)
  }

  predicate HasEarlier(s: State, r: RunId, t: ThreadId)
    requires r in s.runs
  {
    exists q :: q in s.runs && q != r && s.runs[q].thread == Some(t) && s.runs[q].status == Pending
                && Before(q, s.runs[q], r, s.runs[r])
  }

  predicate Eligible(s: State, r: RunId) {
    && r in s.runs
    && var run := s.runs[r];
    && run.status == Pending
    && (run.nextAttemptAt.None? || run.nextAttemptAt.value <= s.clock)
    && (run.thread.Some? ==>
          && !ThreadBlocked(s, run.thread.value)
          && !(run.thread.value in s.threads && s.threads[run.thread.value].projection.interrupts != map[] && !run.resume)
          && !HasEarlier(s, r, run.thread.value))
  }

  /** Keeps the first baseline of a run: its thread's history and projection before execution. */
  function Capture(s: State, r: RunId, t: ThreadId): State
    requires t in s.threads
  {
    if r in s.baselines then s
    else s.(baselines := s.baselines[r := Baseline(t, HistoryOf(s, OfThread(t)), s.threads[t].projection, s.captures)],
            captures := s.captures + 1)
  }

  /** Captures the baseline before it marks the thread busy. */
  function Prepare(s: State, r: RunId): State
    requires r in s.runs && ThreadPresent(s, s.runs[r])
  {
    match s.runs[r].thread
    case Some(t) => SetThreadStatus(Capture(s, r, t), Some(t), "busy")
    case None => s
  }

  function Claimed(s: State, cfg: Config, r: RunId, owner: Owner): Run
    requires r in s.runs
  {
    var run := s.runs[r];
    run.(status := Running, reason := None, nextAttemptAt := None, retryCount := run.retryCount + 1,
         maxAttempts := if run.maxAttempts != 0 && run.maxAttempts < cfg.maxAttempts then run.maxAttempts else cfg.maxAttempts,
         leaseOwner := Some(owner), leaseExpiresAt := Some(s.clock + cfg.leaseSeconds))
  }

  function Grant(s: State, cfg: Config, r: RunId, owner: Owner): State
    requires r in s.runs
  {
    var run := Claimed(s, cfg, r, owner);
    s.(runs := s.runs[r := run],
       leases := s.leases[r := Lease(owner, s.clock + cfg.leaseSeconds, run.retryCount)],
       claims := s.claims + [Claim(ResourceOf(r, run), r, run.retryCount)])
  }

  const LIFECYCLE := "lifecycle"

  function StatusNotice(status: RunStatus, payload: Json): Notice {
    Notice(LIFECYCLE, payload, [], IsTerminal(status))
  }

  function EndOfAttempts(s: State, r: RunId): State
    requires r in s.runs
  {
    SetThreadStatus(SetRun(s, r, s.runs[r].(status := Error, reason := Some(InfrastructureError), nextAttemptAt := None,
                                            updatedAt := s.clock)),
                    s.runs[r].thread, "idle")
  }

  /** A pending run that used up its attempts ends here instead of executing again. */
  ghost function Exhaust(s: State, r: RunId): Tx
    requires r in s.runs
  {
    Record(EndOfAttempts(s, r), r, StatusNotice(Error, "infrastructure_error"))
  }

  /** `claim_next` with `r` as the row that the skip-locked query returned. */
  ghost function ClaimRun(s: State, cfg: Config, r: RunId, owner: Owner): Tx {
    if !Eligible(s, r) then Commit(s)
    else
      var run := s.runs[r];
      if run.thread.Some? && run.thread.value !in s.threads then Commit(s)
      else if run.retryCount >= run.maxAttempts then Exhaust(s, r)
      else if run.thread.Some? && OtherActive(s.runs, run.thread.value, r) then Commit(s)
      else Commit(Grant(Prepare(s, r), cfg, r, owner))
  }

  // ---- ownership ----

  predicate MayRenew(s: State, r: RunId, owner: Owner) {
    && r in s.runs && s.runs[r].status == Running && s.runs[r].leaseOwner == Some(owner)
    && r in s.leases && s.leases[r].owner == owner && s.leases[r].expiresAt > s.clock
  }

  function Renew(s: State, cfg: Config, r: RunId, owner: Owner): State {
    if !MayRenew(s, r, owner) then s
    else
      var expires := s.clock + cfg.leaseSeconds;
      s.(runs := s.runs[r := s.runs[r].(leaseExpiresAt := Some(expires), updatedAt := s.clock)],
         leases := s.leases[r := s.leases[r].(expiresAt := expires)])
  }

  /** The row after its owner lets go of it with this status and reason. */
  function Released(run: Run, status: RunStatus, reason: RunReason, nextAttemptAt: Option<Time>, now: Time): Run {
    run.(status := status, reason := Some(reason), leaseOwner := None, leaseExpiresAt := None,
         nextAttemptAt := nextAttemptAt, updatedAt := now)
  }

  function LetGo(s: State, r: RunId, status: RunStatus, reason: RunReason, nextAttemptAt: Option<Time>): State
    requires r in s.runs
  {
    Unlease(s, r, Released(s.runs[r], status, reason, nextAttemptAt, s.clock))
  }

  ghost function Finish(s: State, r: RunId, owner: Owner, target: RunStatus, reason: RunReason,
                        payload: Option<Json>, preceding: seq<Plain>): Tx {
    if r !in s.runs then Abort(RunMissing)
    else if IsTerminal(s.runs[r].status) then Commit(s)
    else if s.runs[r].leaseOwner != Some(owner) then Abort(NotOwner)
    else if payload.Some? && !IsTerminal(target) then Abort(BadRequest)
    else
      match RecordAll(s, r, preceding)
      case Abort(e) => Abort(e)
      case Commit(s1) =>
        if r !in s1.runs then Abort(RunMissing)
        else
          var run := s1.runs[r];
          match Transit(run.status, target, reason, run.retryCount)
          case InvalidTransition => Abort(IllegalTransition)
          case Valid(status, why, _) =>
            var s2 := LetGo(s1, r, status, why, None);
            if IsTerminal(target) then Record(s2, r, StatusNotice(target, payload.GetOr("lifecycle"))) else Commit(s2)
  }

  function Doubled(base: Time, times: nat): Time {
    if times == 0 then base else 2.0 * Doubled(base, times - 1)
  }

  /** Bounded exponential delay before the next infrastructure attempt. */
  function RetryDelay(cfg: Config, retryCount: nat): Time {
    var delay := Doubled(cfg.retryBase, if retryCount >= 1 then retryCount - 1 else 0);
    if delay < 30.0 then delay else 30.0
  }

  predicate Retries(cfg: Config, run: Run) {
    run.retryCount < (if run.maxAttempts < cfg.maxAttempts then run.maxAttempts else cfg.maxAttempts)
  }

  ghost function Fail(s: State, cfg: Config, r: RunId, owner: Owner, infrastructure: bool, reason: RunReason): Tx {
    if r !in s.runs then Abort(RunMissing)
    else if s.runs[r].leaseOwner != Some(owner) then Abort(NotOwner)
    else if IsTerminal(s.runs[r].status) then Commit(s)
    else
      var run := s.runs[r];
      var retry := infrastructure && Retries(cfg, run);
      match Transit(run.status, if retry then Pending else Error, if retry then Retry else reason, run.retryCount)
      case InvalidTransition => Abort(IllegalTransition)
      case Valid(status, why, _) =>
        var next := if retry then Some(s.clock + RetryDelay(cfg, run.retryCount)) else None;
        Record(LetGo(s, r, status, why, next), r, StatusNotice(status, "lifecycle"))
  }

  ghost function RequeueForShutdown(s: State, cfg: Config, r: RunId, owner: Owner, drained: bool): Tx {
    if r !in s.runs then Abort(RunMissing)
    else if s.runs[r].leaseOwner != Some(owner) then Abort(NotOwner)
    else if s.runs[r].status != Running then Commit(s)
    else
      var run := s.runs[r];
      match Transit(run.status, Pending, ShutdownRequeue, run.retryCount)
      case InvalidTransition => Abort(IllegalTransition)
      case Valid(status, why, _) =>
        var next := Some(s.clock + RetryDelay(cfg, run.retryCount));
        Record(Drain(SetThreadStatus(LetGo(s, r, status, why, next), run.thread, "idle"), r, drained),
               r, StatusNotice(status, "lifecycle"))
  }

  /** Remembers that the next attempt resumes from a drained checkpoint. */
  function Drain(s: State, r: RunId, drained: bool): State
    requires r in s.runs
  {
    SetRun(s, r, s.runs[r].(drained := s.runs[r].drained || drained))
  }

  predicate Reapable(s: State, r: RunId) {
    && r in s.runs && s.runs[r].status == Running
    && s.runs[r].leaseExpiresAt.Some? && s.runs[r].leaseExpiresAt.value < s.clock
  }

  /** `requeue_expired` for one of the rows that it locked. */
  ghost function Reap(s: State, cfg: Config, r: RunId): Tx {
    if !Reapable(s, r) then Commit(s)
    else
      var run := s.runs[r];
      var spent := run.retryCount >= run.maxAttempts;
      match Transit(run.status, if spent then Error else Pending,
                    if spent then InfrastructureError else ShutdownRequeue, run.retryCount)
      case InvalidTransition => Abort(IllegalTransition)
      case Valid(status, why, _) =>
        var next := if spent then None else Some(s.clock + RetryDelay(cfg, run.retryCount));
        var s1 := SetThreadStatus(LetGo(s, r, status, why, next), run.thread, "idle");
        Record(if spent then SetThreadError(s1, run.thread, "infrastructure_error") else s1,
               r, StatusNotice(status, "lifecycle"))
  }

  function SetThreadError(s: State, thread: Option<ThreadId>, error: Json): State {
    if thread.Some? && thread.value in s.threads then
      SetProjection(s, thread.value, s.threads[thread.value].projection.(error := Some(error)))
    else s
  }

  /** The worker's last step: a cancelled run gives its lease back once execution has stopped. */
  function ReleaseCancelled(s: State, r: RunId, owner: Owner): State {
    if r in s.runs && s.runs[r].leaseOwner == Some(owner) && s.runs[r].reason == Some(CancelRequested) then
      var run := s.runs[r];
      var s1 := Unlease(s, r, run.(leaseOwner := None, leaseExpiresAt := None));
      if run.thread.Some? && run.thread.value in s.threads then
        SetThreadStatus(s1, run.thread,
          if s.threads[run.thread.value].projection.interrupts != map[] then "interrupted" else "idle")
      else s1
    else s
  }
}
