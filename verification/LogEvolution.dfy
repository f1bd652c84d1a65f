/** How the event log of one state relates to the log of a later one. */
module LogEvolution {
  import opened Wrappers
  import opened Tables
  import opened EventLog
  import opened RunStore
  import opened CheckpointMutations
  import opened CoreApi
  import opened Protocol
  import opened StepCases
  import opened Kinds
  import opened RunSteps
  import opened LogInvariants
  import opened LogSteps
  import opened TerminalEvents

  /** Events are only appended, and a deleted row never comes back. */
  ghost predicate EventsEvolve(s: State, s': State) {
    && |s.inserted| <= |s'.inserted| && s'.inserted[..|s.inserted|] == s.inserted
    && forall k :: k in s'.events && k < |s.inserted| ==> k in s.events
  }

  /** A deleted run never comes back, and the other runs keep their thread and their resumability. */
  ghost predicate RunsEvolve(s: State, s': State) {
    forall r :: r in s.issued ==>
      && r in s'.issued
      && (r !in s.runs ==> r !in s'.runs)
      && (r in s.runs && r in s'.runs ==>
            s'.runs[r].thread == s.runs[r].thread && s'.runs[r].streamResumable == s.runs[r].streamResumable)
  }

  ghost predicate Evolves(s: State, s': State) {
    EventsEvolve(s, s') && RunsEvolve(s, s')
  }

  lemma EventsTrans(a: State, b: State, c: State)
    requires EventsEvolve(a, b) && EventsEvolve(b, c)
    ensures EventsEvolve(a, c)
  {
    assert c.inserted[..|a.inserted|] == b.inserted[..|a.inserted|];
  }

  lemma EvolvesTrans(a: State, b: State, c: State)
    requires Evolves(a, b) && Evolves(b, c)
    ensures Evolves(a, c)
  {
    EventsTrans(a, b, c);
  }

  lemma RecordEvolves(s: State, r: RunId, n: Notice, s': State)
    requires Record(s, r, n) == Commit(s')
    ensures EventsEvolve(s, s')
  {
  }

  lemma {:induction false} RecordAllEvolves(s: State, r: RunId, notices: seq<Notice>, s': State)
    requires RecordAll(s, r, notices) == Commit(s')
    ensures EventsEvolve(s, s')
    decreases |notices|
  {
    if notices != [] {
      var s1 := Record(s, r, notices[0]).db;
      RecordEvolves(s, r, notices[0], s1);
      RecordAllEvolves(s1, r, notices[1..], s');
      EventsTrans(s, s1, s');
    }
  }

  lemma SameEvents(s: State, s': State)
    requires s'.events == s.events && s'.inserted == s.inserted
    ensures EventsEvolve(s, s')
  {
  }

  lemma DeltasEvolve(s: State, r: RunId, notices: seq<Notice>, s': State)
    requires LogInv(s) && RecordDeltas(s, r, None, notices) == Commit(s')
    ensures EventsEvolve(s, s')
  {
    BatchIsFold(s, r, notices);
    RecordAllEvolves(s, r, AsMessages(notices), s');
  }

  lemma SettingsEvolve(s: State, step: Step, s': State)
    requires (step.Tick? || step.OpenThread? || step.EditThread?) && MaintenanceIs(s, step, s')
    ensures EventsEvolve(s, s')
  {
    SameEvents(s, s');
  }

  lemma MaintenanceEvolves(s: State, step: Step, s': State)
    requires LogInv(s) && MaintenanceIs(s, step, s')
    ensures EventsEvolve(s, s')
  {
    match step {
      case Publish(r, notices) => RecordAllEvolves(s, r, notices, s');
      case PublishDeltas(r, notices) => DeltasEvolve(s, r, notices, s');
      case PublishRunless(t, n) => RunlessEvolves(s, t, n, s');
      case Retain(r, cutoff, batch, ids) => RetainEvolves(s, r, cutoff, batch, ids);
      case _ => SettingsEvolve(s, step, s');
    }
  }

  lemma RunlessEvolves(s: State, t: ThreadId, n: Notice, s': State)
    requires RecordEvent(s, None, Some(t), n) == Commit(s')
    ensures EventsEvolve(s, s')
  {
  }

  lemma RetainEvolves(s: State, r: RunId, cutoff: Time, batch: nat, ids: set<EventId>)
    ensures EventsEvolve(s, PruneEvents(s, r, cutoff, batch, ids))
  {
  }

  lemma DeletionEvolves(s: State, r: RunId, s': State)
    requires RollbackRun(s, r) == Commit(s')
    ensures EventsEvolve(s, s')
  {
    DeletionFrame(s, r, s');
    DeletionCursors(s, r, s');
  }

  lemma ClaimEvolves(s: State, cfg: Config, r: RunId, owner: Owner, s': State)
    requires LogInv(s) && ClaimRun(s, cfg, r, owner) == Commit(s')
    ensures EventsEvolve(s, s')
  {
    if s' != s {
      if s.runs[r].retryCount >= s.runs[r].maxAttempts {
        var s1, n := ExhaustVia(s, r, s');
        RecordEvolves(s1, r, n, s');
      } else {
        PrepareFrame(s, r);
      }
    }
  }

  lemma RollBackEvolves(s: State, r: RunId, s': State)
    requires RequestRollback(s, r) == Commit(s')
    ensures EventsEvolve(s, s')
  {
    if r in s.runs && s.runs[r].leaseOwner.None? { DeletionEvolves(s, r, s'); } else { SameEvents(s, s'); }
  }

  predicate WritesTables(step: Step) {
    step.WorkerWrite? || step.StateUpdate? || step.KeepLatest?
  }

  lemma TablesKeepEvents(s: State, step: Step, s': State)
    requires WritesTables(step) && Transact(s, step) == Commit(s')
    ensures EventsEvolve(s, s')
  {
    match step {
      case WorkerWrite(w, at, change) => WorkerTables(s, s', w, at, change);
      case StateUpdate(at, onBehalf, change) => UpdateTables(s, s', at, onBehalf, change);
      case KeepLatest(u) => PruneTables(s, s', u);
    }
    SameEvents(s, s');
  }

  lemma SubmitEvolves(s: State, cfg: Config, r: RunId, sub: Submission, s': State)
    requires Create(s, cfg, r, sub) == Commit(s')
    ensures EventsEvolve(s, s')
  {
    SameEvents(s, s');
  }

  predicate KeepsEvents(step: Step) {
    step.RenewLease? || step.ReleaseLease? || step.ReorderQueue?
  }

  lemma KeepsEventsEvolve(s: State, step: Step, s': State)
    requires KeepsEvents(step) && Transact(s, step) == Commit(s')
    ensures EventsEvolve(s, s')
  {
    SameEvents(s, s');
  }

  lemma OtherEvolves(s: State, step: Step, s': State)
    requires LogInv(s) && Transact(s, step) == Commit(s') && s' != s && !IsMaintenance(step) && !RecordsItself(step)
    ensures EventsEvolve(s, s')
  {
    match step {
      case Submit(cfg, r, sub) => SubmitEvolves(s, cfg, r, sub, s');
      case ClaimNext(cfg, r, owner) => ClaimEvolves(s, cfg, r, owner, s');
      case RollBack(r) => RollBackEvolves(s, r, s');
      case CompleteRollBack(r, worker) => DeletionEvolves(s, r, s');
      case _ => if WritesTables(step) { TablesKeepEvents(s, step, s'); } else { KeepsEventsEvolve(s, step, s'); }
    }
  }

  lemma EventsStep(s: State, step: Step)
    requires OwnershipInv(s) && LogInv(s)
    ensures EventsEvolve(s, Apply(s, step))
  {
    var tx := Transact(s, step);
    if tx.Abort? || tx.db == s {
      SameEvents(s, s);
    } else if IsMaintenance(step) {
      MaintenanceShape(s, step, tx.db);
      MaintenanceEvolves(s, step, tx.db);
    } else if RecordsItself(step) {
      var preceding, s0, s1, n := RunMoveVia(s, step, tx.db);
      RecordAllEvolves(s, step.r, preceding, s0);
      RecordEvolves(s1, step.r, n, tx.db);
      SameEvents(s0, s1);
      EventsTrans(s0, s1, tx.db);
      EventsTrans(s, s0, tx.db);
    } else {
      OtherEvolves(s, step, tx.db);
    }
  }

  lemma RunsStep(s: State, step: Step)
    requires OwnershipInv(s)
    ensures RunsEvolve(s, Apply(s, step))
  {
    forall r | r in s.issued
      ensures RowSteps(s, Apply(s, step), r)
    {
      EveryRow(s, step, r);
    }
  }

  /** Any history only evolves the log. */
  lemma {:induction false} HistoryEvolves(s: State, steps: seq<Step>)
    requires Inv(s)
    ensures Evolves(s, Exec(s, steps)) && Inv(Exec(s, steps))
    decreases |steps|
  {
    if steps != [] {
      EventsStep(s, steps[0]);
      RunsStep(s, steps[0]);
      InvStep(s, steps[0]);
      HistoryEvolves(Apply(s, steps[0]), steps[1..]);
      EvolvesTrans(s, Apply(s, steps[0]), Exec(s, steps));
    }
  }
}
