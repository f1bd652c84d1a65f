/** The events of one run lie on one thread, even after the run was deleted. */
module RunScopes {
  import opened Wrappers
  import opened Tables
  import opened EventLog
  import opened RunStore
  import opened CheckpointMutations
  import opened CoreApi
  import opened Protocol
  import opened StepCases
  import opened Kinds
  import opened LogInvariants
  import opened LogSteps
  import opened TerminalEvents
  import opened LogEvolution

  ghost predicate OneThread(s: State) {
    forall i, j | 0 <= i < |s.inserted| && 0 <= j < |s.inserted| ::
      s.inserted[i].run.Some? && s.inserted[i].run == s.inserted[j].run ==> s.inserted[i].thread == s.inserted[j].thread
  }

  /** All new rows belong to this run, or to none. */
  ghost predicate Writes(s: State, s': State, run: Option<RunId>) {
    && (forall k: EventId :: |s.inserted| <= k < |s'.inserted| ==> s'.inserted[k].run == run)
    && (run.Some? ==> run.value in s'.runs)
  }

  lemma RecordWrites(s: State, r: RunId, n: Notice, s': State)
    requires Record(s, r, n) == Commit(s')
    ensures Writes(s, s', Some(r)) && |s.inserted| <= |s'.inserted|
  {
    RecordInserts(s, r, n, s');
    RecordIsLogged(s, r, n, s');
  }

  lemma {:induction false} RecordAllWrites(s: State, r: RunId, notices: seq<Notice>, s': State)
    requires r in s.runs && RecordAll(s, r, notices) == Commit(s')
    ensures Writes(s, s', Some(r)) && EventsEvolve(s, s')
    decreases |notices|
  {
    RecordAllEvolves(s, r, notices, s');
    if notices != [] {
      var s1 := Record(s, r, notices[0]).db;
      RecordWrites(s, r, notices[0], s1);
      RecordAllWrites(s1, r, notices[1..], s');
      WritesTwice(s, s1, s', r);
    }
  }

  lemma WritesTwice(s: State, s1: State, s': State, r: RunId)
    requires Writes(s, s1, Some(r)) && Writes(s1, s', Some(r)) && EventsEvolve(s1, s')
    ensures Writes(s, s', Some(r))
  {
    forall k: EventId | |s.inserted| <= k < |s'.inserted|
      ensures s'.inserted[k].run == Some(r)
    {
      if k < |s1.inserted| { assert s'.inserted[..|s1.inserted|][k] == s'.inserted[k]; }
    }
  }

  lemma ViaWrites(s: State, r: RunId, preceding: seq<Plain>, s0: State, s1: State, n: Notice, s': State)
    requires r in s.runs && RecordAll(s, r, preceding) == Commit(s0) && Via(s0, s1, r, n, s')
    ensures Writes(s, s', Some(r))
  {
    RecordAllWrites(s, r, preceding, s0);
    RecordWrites(s1, r, n, s');
    RecordEvolves(s1, r, n, s');
    WritesTwice(s, s0, s', r);
  }

  lemma DeltasWrite(s: State, r: RunId, notices: seq<Notice>, s': State)
    requires LogInv(s) && notices != [] && RecordDeltas(s, r, None, notices) == Commit(s')
    ensures Writes(s, s', Some(r))
  {
    BatchIsFold(s, r, notices);
    RecordAllWrites(s, r, AsMessages(notices), s');
  }

  lemma MaintenanceWrites(s: State, step: Step, s': State) returns (run: Option<RunId>)
    requires LogInv(s) && MaintenanceIs(s, step, s') && s' != s
    ensures Writes(s, s', run)
  {
    run := None;
    match step {
      case Publish(r, notices) =>
        run := Some(r);
        RecordAllWrites(s, r, notices, s');
      case PublishDeltas(r, notices) =>
        run := Some(r);
        DeltasWrite(s, r, notices, s');
      case _ =>
    }
  }

  lemma OtherWrites(s: State, step: Step, s': State) returns (run: Option<RunId>)
    requires OwnershipInv(s) && LogInv(s) && Transact(s, step) == Commit(s') && s' != s
    requires !IsMaintenance(step) && !RecordsItself(step)
    ensures Writes(s, s', run)
  {
    run := None;
    match step {
      case ClaimNext(cfg, r, owner) =>
        if s.runs[r].retryCount >= s.runs[r].maxAttempts {
          var s1, n := ExhaustVia(s, r, s');
          run := Some(r);
          ViaWrites(s, r, [], s, s1, n, s');
        } else {
          PrepareFrame(s, r);
        }
      case RollBack(r) => RollBackWrites(s, r, s');
      case CompleteRollBack(r, worker) => DeletionFrame(s, r, s');
      case _ => QuietWrites(s, step, s');
    }
  }

  lemma RollBackWrites(s: State, r: RunId, s': State)
    requires RequestRollback(s, r) == Commit(s')
    ensures s'.inserted == s.inserted
  {
    if r in s.runs && s.runs[r].leaseOwner.None? { DeletionFrame(s, r, s'); }
  }

  lemma QuietWrites(s: State, step: Step, s': State)
    requires WritesTables(step) || KeepsEvents(step) || step.Submit?
    requires Transact(s, step) == Commit(s')
    ensures s'.inserted == s.inserted
  {
    match step {
      case Submit(cfg, r, sub) => SubmitWritesNothing(s, cfg, r, sub, s');
      case ReorderQueue(t, expected, requested) => ReorderWritesNothing(s, t, expected, requested, s');
      case _ => if WritesTables(step) { TablesWriteNothing(s, step, s'); }
    }
  }

  lemma SubmitWritesNothing(s: State, cfg: Config, r: RunId, sub: Submission, s': State)
    requires Create(s, cfg, r, sub) == Commit(s')
    ensures s'.inserted == s.inserted
  {
    if s' != s {
      var run := NewRun(s, cfg, sub);
      assert s' == SetRun(s, r, run).(issued := s.issued + {r});
    }
  }

  lemma ReorderWritesNothing(s: State, t: ThreadId, expected: seq<RunId>, requested: seq<RunId>, s': State)
    requires Reorder(s, t, expected, requested) == Commit(s')
    ensures s'.inserted == s.inserted
  {
  }

  lemma TablesWriteNothing(s: State, step: Step, s': State)
    requires WritesTables(step) && Transact(s, step) == Commit(s')
    ensures s'.inserted == s.inserted
  {
    match step {
      case WorkerWrite(w, at, change) => WorkerTables(s, s', w, at, change);
      case StateUpdate(at, onBehalf, change) => UpdateTables(s, s', at, onBehalf, change);
      case KeepLatest(t) => PruneTables(s, s', t);
    }
  }

  /** A transaction writes events of at most one run, which exists afterwards. */
  lemma StepWrites(s: State, step: Step) returns (run: Option<RunId>)
    requires OwnershipInv(s) && LogInv(s)
    ensures Writes(s, Apply(s, step), run)
  {
    var tx := Transact(s, step);
    run := None;
    if tx.Commit? && tx.db != s {
      if IsMaintenance(step) {
        MaintenanceShape(s, step, tx.db);
        run := MaintenanceWrites(s, step, tx.db);
      } else if RecordsItself(step) {
        var preceding, s0, s1, n := RunMoveVia(s, step, tx.db);
        run := Some(step.r);
        ViaWrites(s, step.r, preceding, s0, s1, n, tx.db);
      } else {
        run := OtherWrites(s, step, tx.db);
      }
    }
  }

  lemma WritesOneThread(s: State, s': State, run: Option<RunId>)
    requires OneThread(s) && LogInv(s') && EventsEvolve(s, s') && Writes(s, s', run)
    ensures OneThread(s')
  {
    forall i, j | 0 <= i < |s'.inserted| && 0 <= j < |s'.inserted| && s'.inserted[i].run.Some?
                  && s'.inserted[i].run == s'.inserted[j].run
      ensures s'.inserted[i].thread == s'.inserted[j].thread
    {
      if i < |s.inserted| && j < |s.inserted| {
        assert s'.inserted[..|s.inserted|][i] == s'.inserted[i] && s'.inserted[..|s.inserted|][j] == s'.inserted[j];
      } else {
        assert EventOk(s', s'.inserted[i]) && EventOk(s', s'.inserted[j]);
      }
    }
  }

  lemma OneThreadStep(s: State, step: Step)
    requires Inv(s) && OneThread(s)
    ensures OneThread(Apply(s, step))
  {
    var run := StepWrites(s, step);
    EventsStep(s, step);
    InvStep(s, step);
    WritesOneThread(s, Apply(s, step), run);
  }

  lemma {:induction false} OneThreadAlways(s: State, steps: seq<Step>)
    requires Inv(s) && OneThread(s)
    ensures OneThread(Exec(s, steps))
    decreases |steps|
  {
    if steps != [] {
      OneThreadStep(s, steps[0]);
      InvStep(s, steps[0]);
      OneThreadAlways(Apply(s, steps[0]), steps[1..]);
    }
  }
}
