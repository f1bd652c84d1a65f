/** What one step can do to one run row, whichever transaction it is. */
module RunSteps {
  import opened RunState
  import opened Tables
  import opened RunStore
  import opened CheckpointMutations
  import opened CoreApi
  import opened Protocol
  import opened StepCases
  import opened Kinds
  import opened Invariants

  /** Only cursors, watermarks or the queue position changed. */
  predicate SameLifecycle(a: Run, b: Run) {
    b == a.(eventSeq := b.eventSeq, eventPrunedThrough := b.eventPrunedThrough, queuePosition := b.queuePosition)
  }

  /** The run was claimed: one attempt more, under a lease. */
  predicate TakesAttempt(a: Run, b: Run) {
    && a.status == Pending && b.status == Running && a.retryCount < a.maxAttempts
    && b.retryCount == a.retryCount + 1 && b.maxAttempts <= a.maxAttempts
    && b.thread == a.thread && b.streamResumable == a.streamResumable && b.assistant == a.assistant
    && b.idempotencyKey == a.idempotencyKey
  }

  predicate RowStep(a: Run, b: Run) {
    || SameLifecycle(a, b)
    || (SameIdentity(a, b) && LegalMove(a, b))
    || TakesAttempt(a, b)
  }

  /** Run ids are never handed out twice, and an existing row makes one of three kinds of step or is deleted. */
  ghost predicate RowSteps(s: State, s': State, r: RunId) {
    && (r in s.issued ==> r in s'.issued)
    && (r in s.issued && r !in s.runs ==> r !in s'.runs)
    && (r in s.runs ==> r !in s'.runs || RowStep(s.runs[r], s'.runs[r]))
    && (ClaimedBy(s, s', r) ==> r in s.runs && r in s'.runs && TakesAttempt(s.runs[r], s'.runs[r]))
  }

  /** The step added a claim of run `r` to the claim history. */
  predicate ClaimedBy(s: State, s': State, r: RunId) {
    |s.claims| < |s'.claims| && s'.claims[|s.claims|].run == r
  }

  lemma QuietRow(s: State, s': State, r: RunId)
    requires Quiet(s, s')
    ensures RowSteps(s, s', r)
  {
    assert r in s.runs ==> SameLife(s.runs[r], s'.runs[r]);
  }

  lemma MovedRow(s: State, s': State, q: RunId, r: RunId)
    requires Moved(s, s', q)
    ensures RowSteps(s, s', r)
  {
  }

  lemma GrantedRow(s: State, cfg: Config, q: RunId, owner: Owner, r: RunId)
    requires OwnershipInv(s) && MayGrant(s, q)
    ensures RowSteps(s, Grant(Prepare(s, q), cfg, q, owner), r)
  {
    PrepareFrame(s, q);
    assert RunOk(s.runs[q], LeaseOf(s, q));
  }

  lemma DeletedRow(s: State, s': State, q: RunId, r: RunId)
    requires RollbackRun(s, q) == Commit(s')
    ensures RowSteps(s, s', r)
  {
    DeletionFrame(s, q, s');
  }

  lemma ReorderedRow(s: State, s': State, t: ThreadId, expected: seq<RunId>, requested: seq<RunId>, r: RunId)
    requires Reorder(s, t, expected, requested) == Commit(s')
    ensures RowSteps(s, s', r)
  {
  }

  lemma TablesRow(s: State, s': State, r: RunId)
    requires OnlyTables(s, s')
    ensures RowSteps(s, s', r)
  {
  }

  lemma CreatedRow(s: State, cfg: Config, q: RunId, sub: Submission, r: RunId)
    requires OwnershipInv(s) && q !in s.issued
    ensures RowSteps(s, SetRun(s, q, NewRun(s, cfg, sub)).(issued := s.issued + {q}), r)
  {
  }

  lemma EveryRow(s: State, step: Step, r: RunId)
    requires OwnershipInv(s)
    ensures RowSteps(s, Apply(s, step), r)
  {
    var s' := Apply(s, step);
    var k := Classify(s, step);
    match k {
      case Silent => QuietRow(s, s', r);
      case Move(q) => MovedRow(s, s', q, r);
      case Granting(cfg, q, owner) => GrantedRow(s, cfg, q, owner, r);
      case Creation(cfg, q, sub) => CreatedRow(s, cfg, q, sub, r);
      case Deletion(q) => DeletedRow(s, s', q, r);
      case QueueEdited(t, expected, requested) => ReorderedRow(s, s', t, expected, requested, r);
      case _ =>
        TableKinds(s, s', k);
        TablesRow(s, s', r);
    }
  }

  // ---- bounded attempts ----

  /** How many status changes a run row still has ahead of it at most. */
  function Fuel(run: Run): nat
    requires run.retryCount <= MAX_INFRASTRUCTURE_RETRIES
  {
    match run.status
    case Pending => 7 - 2 * run.retryCount
    case Running => 8 - 2 * run.retryCount
    case _ => 0
  }

  /** Status changes of run `r` along a history. */
  ghost function StatusChanges(s: State, steps: seq<Step>, r: RunId): nat
    decreases |steps|
  {
    if steps == [] then 0
    else
      var s1 := Apply(s, steps[0]);
      (if r in s.runs && r in s1.runs && s.runs[r].status != s1.runs[r].status then 1 else 0)
      + StatusChanges(s1, steps[1..], r)
  }

  /** Claims of run `r` along a history. */
  ghost function Attempts(s: State, steps: seq<Step>, r: RunId): nat
    decreases |steps|
  {
    if steps == [] then 0
    else
      var s1 := Apply(s, steps[0]);
      (if ClaimedBy(s, s1, r) then 1 else 0)
      + Attempts(s1, steps[1..], r)
  }

  predicate RowBounds(run: Run) {
    && run.retryCount <= MAX_INFRASTRUCTURE_RETRIES && run.maxAttempts <= MAX_INFRASTRUCTURE_RETRIES
    && (run.status == Running ==> run.retryCount >= 1)
  }

  lemma BoundsByInv(s: State, r: RunId)
    requires OwnershipInv(s) && r in s.runs
    ensures RowBounds(s.runs[r])
  {
    assert RunOk(s.runs[r], LeaseOf(s, r));
  }

  lemma RowFuel(a: Run, b: Run)
    requires RowStep(a, b) && RowBounds(a) && RowBounds(b)
    ensures Fuel(b) <= Fuel(a) && (a.status != b.status ==> Fuel(b) < Fuel(a)) && a.retryCount <= b.retryCount
  {
  }

  /** The measure never grows, and every status change uses some of it up. */
  lemma FuelDecreases(s: State, step: Step, r: RunId)
    requires CoreInv(s) && r in s.runs && r in Apply(s, step).runs
    ensures var a, b := s.runs[r], Apply(s, step).runs[r];
            && a.retryCount <= MAX_INFRASTRUCTURE_RETRIES && b.retryCount <= MAX_INFRASTRUCTURE_RETRIES
            && Fuel(b) <= Fuel(a)
            && (a.status != b.status ==> Fuel(b) < Fuel(a))
            && a.retryCount + (if ClaimedBy(s, Apply(s, step), r) then 1 else 0) <= b.retryCount
  {
    CoreStep(s, step);
    BoundsByInv(s, r);
    BoundsByInv(Apply(s, step), r);
    EveryRow(s, step, r);
    RowFuel(s.runs[r], Apply(s, step).runs[r]);
  }

  lemma {:induction false} GoneForever(s: State, steps: seq<Step>, r: RunId)
    requires CoreInv(s) && r in s.issued && r !in s.runs
    ensures r !in Exec(s, steps).runs && StatusChanges(s, steps, r) == 0 && Attempts(s, steps, r) == 0
    decreases |steps|
  {
    if steps != [] {
      EveryRow(s, steps[0], r);
      CoreStep(s, steps[0]);
      GoneForever(Apply(s, steps[0]), steps[1..], r);
    }
  }

  lemma {:induction false} FuelBoundsHistory(s: State, steps: seq<Step>, r: RunId)
    requires CoreInv(s) && r in s.runs
    ensures s.runs[r].retryCount <= MAX_INFRASTRUCTURE_RETRIES
    ensures StatusChanges(s, steps, r) <= Fuel(s.runs[r])
    ensures Attempts(s, steps, r) <= MAX_INFRASTRUCTURE_RETRIES - s.runs[r].retryCount
    decreases |steps|
  {
    assert RunOk(s.runs[r], LeaseOf(s, r));
    if steps != [] {
      var s1 := Apply(s, steps[0]);
      CoreStep(s, steps[0]);
      EveryRow(s, steps[0], r);
      if r in s1.runs {
        FuelDecreases(s, steps[0], r);
        FuelBoundsHistory(s1, steps[1..], r);
      } else {
        GoneForever(s1, steps[1..], r);
      }
    }
  }

  lemma {:induction false} BeforeSubmission(s: State, steps: seq<Step>, r: RunId)
    requires CoreInv(s) && r !in s.issued
    ensures StatusChanges(s, steps, r) <= 7 && Attempts(s, steps, r) <= MAX_INFRASTRUCTURE_RETRIES
    decreases |steps|
  {
    if steps != [] {
      var s1 := Apply(s, steps[0]);
      CoreStep(s, steps[0]);
      EveryRow(s, steps[0], r);
      if r in s1.runs {
        FuelBoundsHistory(s1, steps[1..], r);
      } else if r in s1.issued {
        GoneForever(s1, steps[1..], r);
      } else {
        BeforeSubmission(s1, steps[1..], r);
      }
    }
  }

  /** In any history a run is claimed at most three times and changes status at most seven times. */
  lemma AttemptsAreBounded(clock: Time, steps: seq<Step>, r: RunId)
    ensures Attempts(Init(clock), steps, r) <= 3
    ensures StatusChanges(Init(clock), steps, r) <= 7
  {
    InitCore(clock);
    BeforeSubmission(Init(clock), steps, r);
  }

  /** Its attempts are used up and it is not executing. */
  predicate Spent(run: Run) {
    run.retryCount >= run.maxAttempts && run.status != Running
  }

  /** A pending run whose attempts are used up never executes again, in any history. */
  lemma {:induction false} SpentNeverRuns(s: State, steps: seq<Step>, r: RunId)
    requires CoreInv(s) && r in s.runs && Spent(s.runs[r])
    ensures r in Exec(s, steps).runs ==> Spent(Exec(s, steps).runs[r])
    decreases |steps|
  {
    if steps != [] {
      var s1 := Apply(s, steps[0]);
      CoreStep(s, steps[0]);
      EveryRow(s, steps[0], r);
      if r in s1.runs {
        SpentNeverRuns(s1, steps[1..], r);
      } else {
        GoneForever(s1, steps[1..], r);
      }
    }
  }

  lemma TerminalByRow(s: State, s': State, r: RunId)
    requires r in s.runs && IsTerminal(s.runs[r].status) && RowSteps(s, s', r)
    ensures r in s'.runs ==> s'.runs[r].status == s.runs[r].status
  {
  }

  /** A terminal status never changes again, although interrupted runs could become pending by the table. */
  lemma {:induction false} TerminalIsFinal(s: State, steps: seq<Step>, r: RunId)
    requires CoreInv(s) && r in s.runs && IsTerminal(s.runs[r].status)
    ensures r in Exec(s, steps).runs ==> Exec(s, steps).runs[r].status == s.runs[r].status
    decreases |steps|
  {
    if steps != [] {
      var s1 := Apply(s, steps[0]);
      CoreStep(s, steps[0]);
      EveryRow(s, steps[0], r);
      TerminalByRow(s, s1, r);
      if r in s1.runs {
        TerminalIsFinal(s1, steps[1..], r);
      } else {
        GoneForever(s1, steps[1..], r);
      }
    }
  }
}
