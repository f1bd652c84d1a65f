/** How long a lease lasts, and what its holder can do until then: the clock, the renewals and the write fence. */
module LeaseTime {
  import opened Wrappers
  import opened RunState
  import opened Tables
  import opened EventLog
  import opened RunStore
  import opened CheckpointMutations
  import opened CoreApi
  import opened Protocol
  import opened StepCases
  import opened Moves
  import opened Kinds
  import opened RunSteps
  import opened Invariants
  import opened Reachable
  import opened ExclusiveExecution
  import opened QueueHeads
  import opened Outcomes

  // ---- steps about other runs ----

  lemma RequestKeepsClock(s: State, r: RunId)
    ensures After(s, RollbackRun(s, r)).clock == s.clock && After(s, RequestRollback(s, r)).clock == s.clock
  {
  }

  lemma ClaimKeepsClock(s: State, cfg: Config, r: RunId, owner: Owner)
    ensures After(s, ClaimRun(s, cfg, r, owner)).clock == s.clock
  {
    if ClaimRun(s, cfg, r, owner).Commit? && Eligible(s, r) && ThreadPresent(s, s.runs[r]) {
      PrepareFrame(s, r);
      if Exhaust(s, r).Commit? {
        EndOfAttemptsKeepsClock(s, r);
        RecordIsLogged(EndOfAttempts(s, r), r, StatusNotice(Error, "infrastructure_error"), Exhaust(s, r).db);
      }
    }
  }

  lemma EndOfAttemptsKeepsClock(s: State, r: RunId)
    requires r in s.runs
    ensures EndOfAttempts(s, r).clock == s.clock
  {
  }

  lemma SubmitKeepsClock(s: State, cfg: Config, r: RunId, sub: Submission)
    ensures Apply(s, Submit(cfg, r, sub)).clock == s.clock
  {
  }

  lemma TablesKeepClock(s: State, step: Step)
    requires step.WorkerWrite? || step.StateUpdate? || step.KeepLatest? || step.ReorderQueue?
    ensures Apply(s, step).clock == s.clock
  {
  }

  lemma PublishKeepsClock(s: State, step: Step)
    requires step.Publish? || step.PublishDeltas? || step.PublishRunless?
    ensures Apply(s, step).clock == s.clock
  {
    if Transact(s, step).Commit? {
      match step {
        case Publish(r, notices) => RecordAllIsLogged(s, r, notices, Transact(s, step).db);
        case PublishDeltas(r, notices) => RecordDeltasIsLogged(s, r, notices, Transact(s, step).db);
        case PublishRunless(_, _) =>
      }
    }
  }

  lemma MoveKeepsClock(s: State, step: Step)
    requires OwnershipInv(s) && IsRunMove(step)
    ensures Apply(s, step).clock == s.clock
  {
    if Transact(s, step).Commit? { RunMoveMoves(s, step); }
  }

  /** The seconds that a step takes. */
  function Seconds(step: Step): Time {
    if step.Tick? && step.delay > 0.0 then step.delay else 0.0
  }

  lemma QuietKeepsClock(s: State, step: Step)
    requires step.OpenThread? || step.EditThread? || step.Retain?
    ensures Apply(s, step).clock == s.clock
  {
  }

  lemma ApiKeepsClock(s: State, step: Step)
    requires step.ClaimNext? || step.RollBack? || step.CompleteRollBack?
    ensures Apply(s, step).clock == s.clock
  {
    if step.ClaimNext? { ClaimKeepsClock(s, step.cfg, step.r, step.owner); } else { RequestKeepsClock(s, step.r); }
  }

  lemma TickTakesTime(s: State, delay: Time)
    ensures Apply(s, Tick(delay)).clock == s.clock + Seconds(Tick(delay))
  {
    if delay >= 0.0 { TickMoves(s, delay); }
  }

  lemma TickMoves(s: State, delay: Time)
    requires delay >= 0.0
    ensures Apply(s, Tick(delay)) == s.(clock := s.clock + delay)
  {
  }

  predicate IsTableStep(step: Step) {
    step.WorkerWrite? || step.StateUpdate? || step.KeepLatest? || step.ReorderQueue?
  }

  predicate IsApiStep(step: Step) {
    step.ClaimNext? || step.RollBack? || step.CompleteRollBack?
  }

  /** Only the passing of time moves the clock. */
  lemma ClockOfStep(s: State, step: Step)
    requires OwnershipInv(s)
    ensures Apply(s, step).clock == s.clock + Seconds(step)
  {
    if step.Tick? { TickTakesTime(s, step.delay); }
    else if IsRunMove(step) { MoveKeepsClock(s, step); }
    else if step.Submit? { SubmitKeepsClock(s, step.cfg, step.r, step.sub); }
    else if IsTableStep(step) { TablesKeepClock(s, step); }
    else if IsApiStep(step) { ApiKeepsClock(s, step); }
    else if step.OpenThread? || step.EditThread? || step.Retain? { QuietKeepsClock(s, step); }
    else { PublishKeepsClock(s, step); }
  }

  // ---- the row of one run under steps of others ----

  /** A transaction about another run leaves status, owner, expiry and generation of this one alone. */
  lemma ForeignKind(s: State, s': State, k: Kind, r: RunId)
    requires OwnershipInv(s) && r in s.runs && IsKind(s, s', k)
    requires k.Move? || k.Granting? || k.Creation? || k.Deletion? ==> k.r != r
    ensures r in s'.runs && SameLifecycle(s.runs[r], s'.runs[r])
  {
    match k {
      case Silent => assert SameLife(s.runs[r], s'.runs[r]);
      case Move(q) =>
      case Granting(cfg, q, o) => PrepareFrame(s, q);
      case Creation(cfg, q, sub) =>
      case Deletion(q) => DeletionFrame(s, q, s');
      case QueueEdited(t, expected, requested) =>
      case _ => TableKinds(s, s', k);
    }
  }

  lemma ForeignStep(s: State, step: Step, r: RunId)
    requires OwnershipInv(s) && r in s.runs && Subject(step) != Some(r)
    ensures r in Apply(s, step).runs && SameLifecycle(s.runs[r], Apply(s, step).runs[r])
  {
    var k := Classify(s, step);
    ForeignKind(s, Apply(s, step), k, r);
  }

  // ---- the time left ----

  /** The seconds left on the lease of `owner` on run `r` after a step, if `left` were left before. */
  function LeftAfter(step: Step, r: RunId, owner: Owner, left: Time): Time {
    match step
    case RenewLease(cfg, q, o) => if q == r && o == owner && left > 0.0 then cfg.leaseSeconds else left
    case _ => left - Seconds(step)
  }

  function LeftOver(steps: seq<Step>, r: RunId, owner: Owner, left: Time): Time
    decreases |steps|
  {
    if steps == [] then left else LeftOver(steps[1..], r, owner, LeftAfter(steps[0], r, owner, left))
  }

  /** Run `r` is executing under `owner` at this generation, with `left` seconds on its lease. */
  ghost predicate Executes(s: State, r: RunId, owner: Owner, generation: nat, at: Resource, left: Time) {
    && r in s.runs && s.runs[r].status == Running && s.runs[r].leaseOwner == Some(owner)
    && s.runs[r].leaseExpiresAt == Some(s.clock + left)
    && s.runs[r].retryCount == generation && ResourceOf(r, s.runs[r]) == at
  }

  /** A client stops the run, its worker gives it back, or the reaper comes for it after its lease lapsed. */
  predicate Stops(step: Step, r: RunId, owner: Owner, left: Time) {
    GivesBack(step, r, owner) || step == CancelRun(r) || step == RollBack(r) || (step.ReapRun? && step.r == r && left < 0.0)
  }

  predicate Unstopped(steps: seq<Step>, r: RunId, owner: Owner, left: Time)
    decreases |steps|
  {
    steps != [] ==> !Stops(steps[0], r, owner, left) && Unstopped(steps[1..], r, owner, LeftAfter(steps[0], r, owner, left))
  }

  lemma RenewalOfOwner(s: State, cfg: Config, r: RunId, owner: Owner, generation: nat, at: Resource, left: Time)
    requires OwnershipInv(s) && Executes(s, r, owner, generation, at, left)
    ensures Executes(Apply(s, RenewLease(cfg, r, owner)), r, owner, generation, at, if left > 0.0 then cfg.leaseSeconds else left)
  {
    assert RunOk(s.runs[r], LeaseOf(s, r));
  }

  /** Nothing else that may be asked about an executing run has an effect. */
  lemma OwnStepsIdle(s: State, step: Step, r: RunId, owner: Owner, generation: nat, at: Resource, left: Time)
    requires OwnershipInv(s) && Executes(s, r, owner, generation, at, left) && !Stops(step, r, owner, left)
    requires Subject(step) == Some(r) && !(step.RenewLease? && step.owner == owner)
    ensures Apply(s, step) == s
  {
    assert RunOk(s.runs[r], LeaseOf(s, r)) && r in s.issued;
  }

  lemma ExecutesStep(s: State, step: Step, r: RunId, owner: Owner, generation: nat, at: Resource, left: Time)
    requires OwnershipInv(s) && Executes(s, r, owner, generation, at, left) && !Stops(step, r, owner, left)
    ensures Executes(Apply(s, step), r, owner, generation, at, LeftAfter(step, r, owner, left))
  {
    if Subject(step) != Some(r) {
      ForeignStep(s, step, r);
      ClockOfStep(s, step);
    } else if step.RenewLease? && step.owner == owner {
      RenewalOfOwner(s, step.cfg, r, owner, generation, at, left);
    } else {
      OwnStepsIdle(s, step, r, owner, generation, at, left);
    }
  }

  lemma {:induction false} ExecutesOn(s: State, steps: seq<Step>, r: RunId, owner: Owner, generation: nat, at: Resource, left: Time)
    requires CoreInv(s) && Executes(s, r, owner, generation, at, left) && Unstopped(steps, r, owner, left)
    ensures Executes(Exec(s, steps), r, owner, generation, at, LeftOver(steps, r, owner, left)) && CoreInv(Exec(s, steps))
    decreases |steps|
  {
    if steps != [] {
      CoreStep(s, steps[0]);
      ExecutesStep(s, steps[0], r, owner, generation, at, left);
      ExecutesOn(Apply(s, steps[0]), steps[1..], r, owner, generation, at, LeftAfter(steps[0], r, owner, left));
    }
  }

  // ---- what a committed write leaves in the tables ----

  /** The row, its blobs or the pending writes are stored, under this stamp if there is one, and nothing else changed. */
  ghost predicate Lands(s: State, s': State, at: Resource, stamp: Option<RunId>, change: Change) {
    var was, now := HistoryOf(s, at), HistoryOf(s', at);
    && (forall other :: other != at ==> HistoryOf(s', other) == HistoryOf(s, other) && BlobsOf(s', other) == BlobsOf(s, other))
    && match change
       case PutCheckpoint(key, row, blobs) =>
         && now.writes == was.writes && now.checkpoints.Keys == was.checkpoints.Keys + {key}
         && now.checkpoints[key] == (if stamp.Some? then row.(runId := stamp) else row)
         && (forall k :: k in was.checkpoints && k != key ==> now.checkpoints[k] == was.checkpoints[k])
         && (forall b :: b in BlobsOf(s', at) <==> b in BlobsOf(s, at) || b in blobs)
       case PutWrites(rows, overwrite) =>
         && now.checkpoints == was.checkpoints && BlobsOf(s', at) == BlobsOf(s, at)
         && now.writes.Keys == was.writes.Keys + rows.Keys
         && forall k :: k in now.writes ==>
              now.writes[k] == if k in rows && (overwrite || k !in was.writes) then rows[k] else was.writes[k]
  }

  lemma WriteLands(s: State, at: Resource, change: Change)
    ensures Lands(s, Write(s, at, change), at, None, change)
  {
  }

  lemma StampedWriteLands(s: State, at: Resource, change: Change, r: RunId)
    ensures Lands(s, Write(s, at, Stamp(change, r)), at, Some(r), change)
  {
  }

  /** A worker's write is accepted in exactly these states, and then it is stored under its run's stamp. */
  lemma HolderMayWrite(s: State, w: Writer, at: Resource, change: Change)
    ensures var tx := FencedWrite(s, w, at, change);
            if Holds(s, w.run, w.owner, w.generation) && s.runs[w.run].status == Running && ResourceOf(w.run, s.runs[w.run]) == at
            then tx.Commit? && Lands(s, tx.db, at, Some(w.run), change)
            else tx == Abort(CheckpointConflict)
  {
    StampedWriteLands(s, at, change, w.run);
  }

  // ---- from a claim on ----

  /** The claim starts an execution of run `r`. */
  ghost predicate Starts(s: State, cfg: Config, r: RunId, owner: Owner) {
    && r in s.runs && s.runs[r].status == Pending
    && var s' := Apply(s, ClaimNext(cfg, r, owner)); r in s'.runs && s'.runs[r].status == Running
  }

  lemma ServedExecutes(s: State, s': State, cfg: Config, r: RunId, owner: Owner)
    requires r in s.runs && Served(s, s', cfg, r, owner) && s'.runs[r].status == Running
    ensures Executes(s', r, owner, s.runs[r].retryCount + 1, ResourceOf(r, s.runs[r]), cfg.leaseSeconds)
  {
  }

  lemma StartIsServed(clock: Time, before: seq<Step>, cfg: Config, r: RunId, owner: Owner, s': State)
    requires Starts(Reached(clock, before), cfg, r, owner) && s' == Apply(Reached(clock, before), ClaimNext(cfg, r, owner))
    ensures Served(Reached(clock, before), s', cfg, r, owner) && s'.runs[r].status == Running
  {
    ClaimServesExactlyTheNext(clock, before, cfg, r, owner);
  }

  /** A started run is executing with its full time left. */
  lemma StartExecutes(clock: Time, before: seq<Step>, cfg: Config, r: RunId, owner: Owner, s: State, s': State)
    requires s == Reached(clock, before) && Starts(s, cfg, r, owner) && s' == Apply(s, ClaimNext(cfg, r, owner))
    ensures CoreInv(s') && Executes(s', r, owner, s.runs[r].retryCount + 1, ResourceOf(r, s.runs[r]), cfg.leaseSeconds)
  {
    StartIsServed(clock, before, cfg, r, owner, s');
    ServedExecutes(s, s', cfg, r, owner);
    AfterOneMore(clock, before, ClaimNext(cfg, r, owner), s');
  }

  lemma AfterOneMore(clock: Time, before: seq<Step>, step: Step, s': State)
    requires s' == Apply(Reached(clock, before), step)
    ensures CoreInv(s')
  {
    ReachedInv(clock, before);
    CoreStep(Reached(clock, before), step);
  }

  /** What follows a reached database is reached. */
  lemma ReachedOn(clock: Time, before: seq<Step>, step: Step, steps: seq<Step>)
    ensures Exec(Apply(Reached(clock, before), step), steps) == Reached(clock, before + ([step] + steps))
  {
    ExecConcat(Init(clock), before, [step] + steps);
    assert ([step] + steps)[1..] == steps;
  }

  /** The fence lets the holder's writes through while there is time left, and stores them under the run's stamp. */
  ghost predicate FenceFollows(s: State, w: Writer, at: Resource, left: Time, change: Change) {
    var tx := FencedWrite(s, w, at, change);
    if left > 0.0 then tx.Commit? && Lands(s, tx.db, at, Some(w.run), change) else tx == Abort(CheckpointConflict)
  }

  lemma FenceAtTime(s: State, r: RunId, owner: Owner, generation: nat, at: Resource, left: Time, change: Change)
    requires Executes(s, r, owner, generation, at, left)
    ensures FenceFollows(s, Writer(r, owner, generation), at, left, change)
  {
    StampedWriteLands(s, at, change, r);
  }

  /** The reaper leaves the run alone until its expiry has passed, and then takes it. */
  ghost predicate ReaperFollows(s: State, cfg: Config, r: RunId, left: Time) {
    var s' := Apply(s, ReapRun(cfg, r));
    if left >= 0.0 then s' == s
    else r in s'.runs && s'.runs[r].status in {Pending, Error} && s'.runs[r].leaseOwner == None && r !in s'.leases
  }

  lemma ReaperAtTime(clock: Time, path: seq<Step>, cfg: Config, r: RunId, owner: Owner, generation: nat, at: Resource, left: Time)
    requires Executes(Reached(clock, path), r, owner, generation, at, left)
    ensures ReaperFollows(Reached(clock, path), cfg, r, left)
  {
    ReapOutcome(clock, path, cfg, r);
  }

  /** The run is executing with this time left, and the fence and the reaper act on it. */
  ghost predicate TimeDecides(s: State, r: RunId, owner: Owner, generation: nat, at: Resource, left: Time, reaper: Config, change: Change) {
    && Executes(s, r, owner, generation, at, left)
    && FenceFollows(s, Writer(r, owner, generation), at, left, change)
    && ReaperFollows(s, reaper, r, left)
  }

  lemma TimeDecidesAfter(clock: Time, path: seq<Step>, s: State, steps: seq<Step>, r: RunId, owner: Owner, generation: nat,
                         at: Resource, left: Time, reaper: Config, change: Change)
    requires CoreInv(s) && Executes(s, r, owner, generation, at, left) && Unstopped(steps, r, owner, left)
    requires Exec(s, steps) == Reached(clock, path)
    ensures TimeDecides(Exec(s, steps), r, owner, generation, at, LeftOver(steps, r, owner, left), reaper, change)
  {
    var rest := LeftOver(steps, r, owner, left);
    ExecutesOn(s, steps, r, owner, generation, at, left);
    FenceAtTime(Exec(s, steps), r, owner, generation, at, rest, change);
    ReaperAtTime(clock, path, reaper, r, owner, generation, at, rest);
  }

  /** From a claim on, while nobody stops the run, its remaining time decides, in every history: with time left the holder's
      writes on the run's resource are accepted and stored under its stamp, without they are refused; and the reaper takes
      the run exactly when the expiry has passed. */
  lemma TimeLeftDecides(clock: Time, before: seq<Step>, cfg: Config, r: RunId, owner: Owner, steps: seq<Step>,
                        reaper: Config, change: Change)
    requires Starts(Reached(clock, before), cfg, r, owner) && Unstopped(steps, r, owner, cfg.leaseSeconds)
    ensures var s := Reached(clock, before);
            TimeDecides(Exec(Apply(s, ClaimNext(cfg, r, owner)), steps), r, owner, s.runs[r].retryCount + 1,
                        ResourceOf(r, s.runs[r]), LeftOver(steps, r, owner, cfg.leaseSeconds), reaper, change)
  {
    var s, step := Reached(clock, before), ClaimNext(cfg, r, owner);
    ReachedOn(clock, before, step, steps);
    TimeDecidesSince(clock, before, before + ([step] + steps), cfg, r, owner, s, Apply(s, step), steps, reaper, change);
  }

  lemma TimeDecidesSince(clock: Time, before: seq<Step>, path: seq<Step>, cfg: Config, r: RunId, owner: Owner, s: State, s1: State,
                         steps: seq<Step>, reaper: Config, change: Change)
    requires s == Reached(clock, before) && Starts(s, cfg, r, owner) && s1 == Apply(s, ClaimNext(cfg, r, owner))
    requires Unstopped(steps, r, owner, cfg.leaseSeconds) && Exec(s1, steps) == Reached(clock, path)
    ensures TimeDecides(Exec(s1, steps), r, owner, s.runs[r].retryCount + 1, ResourceOf(r, s.runs[r]),
                        LeftOver(steps, r, owner, cfg.leaseSeconds), reaper, change)
  {
    StartExecutes(clock, before, cfg, r, owner, s, s1);
    TimeDecidesAfter(clock, path, s1, steps, r, owner, s.runs[r].retryCount + 1, ResourceOf(r, s.runs[r]), cfg.leaseSeconds,
                     reaper, change);
  }

  // ---- renewing in time ----

  /** Every renewal of the holder comes before the time since the claim, or since the renewal before it, is up. */
  predicate RenewsInTime(steps: seq<Step>, r: RunId, owner: Owner, left: Time)
    decreases |steps|
  {
    left > 0.0 && (steps != [] ==> RenewsInTime(steps[1..], r, owner, LeftAfter(steps[0], r, owner, left)))
  }

  /** No client stops the run and its worker does not give it back. */
  predicate LeftRunning(steps: seq<Step>, r: RunId, owner: Owner) {
    forall step :: step in steps ==> !GivesBack(step, r, owner) && step != CancelRun(r) && step != RollBack(r)
  }

  lemma {:induction false} InTimeIsUnstopped(s: State, steps: seq<Step>, r: RunId, owner: Owner, generation: nat, at: Resource, left: Time)
    requires CoreInv(s) && Executes(s, r, owner, generation, at, left)
    requires RenewsInTime(steps, r, owner, left) && LeftRunning(steps, r, owner)
    ensures Unstopped(steps, r, owner, left) && LeftOver(steps, r, owner, left) > 0.0 && NeverLapses(s, steps, r)
    decreases |steps|
  {
    if steps != [] {
      assert steps[0] in steps;
      CoreStep(s, steps[0]);
      ExecutesStep(s, steps[0], r, owner, generation, at, left);
      InTimeIsUnstopped(Apply(s, steps[0]), steps[1..], r, owner, generation, at, LeftAfter(steps[0], r, owner, left));
    }
  }

  /** At the end of the history the holder still executes the run, and nobody else was granted a claim of its thread. */
  ghost predicate StillAlone(s1: State, s': State, r: RunId, owner: Owner, generation: nat, at: Resource) {
    && r in s'.runs && s'.runs[r].status == Running && s'.runs[r].leaseOwner == Some(owner) && s'.runs[r].retryCount == generation
    && ClaimsOf(s'.claims, at) == ClaimsOf(s1.claims, at)
  }

  lemma InTimeIsAlone(s: State, steps: seq<Step>, r: RunId, owner: Owner, generation: nat, at: Resource, left: Time)
    requires CoreInv(s) && Executes(s, r, owner, generation, at, left)
    requires RenewsInTime(steps, r, owner, left) && LeftRunning(steps, r, owner)
    ensures NeverLapses(s, steps, r) && StillAlone(s, Exec(s, steps), r, owner, generation, at)
  {
    InTimeIsUnstopped(s, steps, r, owner, generation, at, left);
    ExecutesOn(s, steps, r, owner, generation, at, left);
    ExecutionIsExclusive(s, steps, r, owner, generation);
  }

  /** A holder that renews in time keeps its run: in every such history the lease never lapses, the run is executing at the end,
      no reaper takes it, and no other claim of its thread is granted. */
  lemma RenewedLeaseNeverLapses(clock: Time, before: seq<Step>, cfg: Config, r: RunId, owner: Owner, steps: seq<Step>, reaper: Config)
    requires Starts(Reached(clock, before), cfg, r, owner)
    requires RenewsInTime(steps, r, owner, cfg.leaseSeconds) && LeftRunning(steps, r, owner)
    ensures var s := Reached(clock, before);
            var s1 := Apply(s, ClaimNext(cfg, r, owner));
            var s' := Exec(s1, steps);
            && NeverLapses(s1, steps, r)
            && StillAlone(s1, s', r, owner, s.runs[r].retryCount + 1, ResourceOf(r, s.runs[r]))
            && Apply(s', ReapRun(reaper, r)) == s'
  {
    var s, s1 := Reached(clock, before), Apply(Reached(clock, before), ClaimNext(cfg, r, owner));
    var at, generation := ResourceOf(r, s.runs[r]), s.runs[r].retryCount + 1;
    StartExecutes(clock, before, cfg, r, owner, s, s1);
    InTimeIsAlone(s1, steps, r, owner, generation, at, cfg.leaseSeconds);
    NotLapsedAtEnd(s1, steps, r);
    ReaperIdle(Exec(s1, steps), reaper, r);
  }

  lemma {:induction false} NotLapsedAtEnd(s: State, steps: seq<Step>, r: RunId)
    requires NeverLapses(s, steps, r)
    ensures var s' := Exec(s, steps); r in s'.runs && s'.runs[r].leaseExpiresAt.Some? ==> s'.runs[r].leaseExpiresAt.value > s'.clock
    decreases |steps|
  {
    if steps != [] { NotLapsedAtEnd(Apply(s, steps[0]), steps[1..], r); }
  }

  lemma ReaperIdle(s: State, cfg: Config, r: RunId)
    requires r in s.runs && (s.runs[r].leaseExpiresAt.Some? ==> s.runs[r].leaseExpiresAt.value > s.clock)
    ensures Apply(s, ReapRun(cfg, r)) == s
  {
  }

  // ---- a lapsed lease ----

  /** The epoch has ended, or its lease has expired. */
  ghost predicate Lapsed(s: State, r: RunId, generation: nat) {
    && r in s.issued
    && (r in s.runs ==>
          || generation < s.runs[r].retryCount
          || (generation == s.runs[r].retryCount
              && (s.runs[r].status != Running || (s.runs[r].leaseExpiresAt.Some? && s.runs[r].leaseExpiresAt.value <= s.clock))))
  }

  /** A transaction about an executing run either ends the execution or changes nothing, unless it renews an unexpired lease. */
  lemma RunningStays(s: State, step: Step, r: RunId)
    requires OwnershipInv(s) && r in s.runs && s.runs[r].status == Running && Subject(step) == Some(r)
    requires r in Apply(s, step).runs && Apply(s, step).runs[r].status == Running
    ensures Apply(s, step) == s || (step.RenewLease? && s.runs[r].leaseExpiresAt.value > s.clock)
  {
    assert RunOk(s.runs[r], LeaseOf(s, r)) && r in s.issued;
    if Transact(s, step).Commit? {
      var s' := Transact(s, step).db;
      match step {
        case FinishRun(_, _, _, _, _) => OwnerStays(s, step, r, s');
        case FailRun(_, _, _, _) => OwnerStays(s, step, r, s');
        case ShutDown(_, _, _, _) => OwnerStays(s, step, r, s');
        case ReapRun(cfg, _) => ReapMoves(s, cfg, r, s');
        case CancelRun(_) => CancelMoves(s, r, s');
        case RollBack(_) => RequestEnds(s, r, s');
        case _ =>
      }
    }
  }

  lemma OwnerStays(s: State, step: Step, r: RunId, s': State)
    requires OwnershipInv(s) && r in s.runs && s.runs[r].status == Running && Subject(step) == Some(r)
    requires step.FinishRun? || step.FailRun? || step.ShutDown?
    requires Transact(s, step) == Commit(s') && r in s'.runs && s'.runs[r].status == Running
    ensures s' == s
  {
    match step {
      case FinishRun(_, owner, e, payload, preceding) => FinishMoves(s, r, owner, e, payload, preceding, s');
      case FailRun(cfg, _, owner, infra) =>
        FailMoves(s, cfg, r, owner, infra, if infra then InfrastructureError else BusinessError, s');
      case ShutDown(cfg, _, owner, drained) => ShutdownMoves(s, cfg, r, owner, drained, s');
    }
  }

  lemma RequestEnds(s: State, r: RunId, s': State)
    requires r in s.runs && RequestRollback(s, r) == Commit(s')
    ensures r !in s'.runs || s'.runs[r].status == Interrupted
  {
  }

  /** The case of an executing run whose lease has expired. */
  lemma ExpiredStep(s: State, step: Step, r: RunId)
    requires OwnershipInv(s) && r in s.runs && s.runs[r].status == Running
    requires s.runs[r].leaseExpiresAt.Some? && s.runs[r].leaseExpiresAt.value <= s.clock
    requires r in Apply(s, step).runs && Apply(s, step).runs[r].status == Running
    ensures Apply(s, step).runs[r].leaseExpiresAt == s.runs[r].leaseExpiresAt && s.clock <= Apply(s, step).clock
  {
    ClockOfStep(s, step);
    if Subject(step) != Some(r) { ForeignStep(s, step, r); } else { RunningStays(s, step, r); }
  }

  lemma LapsedStep(s: State, step: Step, r: RunId, generation: nat)
    requires OwnershipInv(s) && Lapsed(s, r, generation)
    ensures Lapsed(Apply(s, step), r, generation)
  {
    EveryRow(s, step, r);
    if ExpiredUnder(s, r, generation) && r in Apply(s, step).runs && Apply(s, step).runs[r].status == Running {
      ExpiredStep(s, step, r);
    }
    LapsedByRow(s, Apply(s, step), r, generation);
  }

  /** The epoch still executes, under an expired lease. */
  predicate ExpiredUnder(s: State, r: RunId, generation: nat) {
    && r in s.runs && generation == s.runs[r].retryCount && s.runs[r].status == Running
    && s.runs[r].leaseExpiresAt.Some? && s.runs[r].leaseExpiresAt.value <= s.clock
  }

  lemma LapsedByRow(s: State, s': State, r: RunId, generation: nat)
    requires OwnershipInv(s) && Lapsed(s, r, generation) && RowSteps(s, s', r)
    requires ExpiredUnder(s, r, generation) && r in s'.runs && s'.runs[r].status == Running ==>
               s'.runs[r].leaseExpiresAt == s.runs[r].leaseExpiresAt && s.clock <= s'.clock
    ensures Lapsed(s', r, generation)
  {
  }

  lemma {:induction false} LapsedForever(s: State, steps: seq<Step>, r: RunId, generation: nat)
    requires CoreInv(s) && Lapsed(s, r, generation)
    ensures Lapsed(Exec(s, steps), r, generation)
    decreases |steps|
  {
    if steps != [] {
      CoreStep(s, steps[0]);
      LapsedStep(s, steps[0], r, generation);
      LapsedForever(Apply(s, steps[0]), steps[1..], r, generation);
    }
  }

  /** Once the lease of an epoch has expired none of its writes is accepted any more, whatever happens afterwards: an
      expired lease cannot be extended. */
  lemma LapsedEpochNeverWrites(clock: Time, before: seq<Step>, after: seq<Step>, w: Writer, at: Resource, change: Change)
    requires var s := Reached(clock, before);
             && w.run in s.runs && s.runs[w.run].retryCount == w.generation
             && s.runs[w.run].leaseExpiresAt.Some? && s.runs[w.run].leaseExpiresAt.value <= s.clock
    ensures FencedWrite(Exec(Reached(clock, before), after), w, at, change) == Abort(CheckpointConflict)
  {
    ReachedInv(clock, before);
    LapsedForever(Reached(clock, before), after, w.run, w.generation);
  }
}
