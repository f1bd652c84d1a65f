/** A run ends once, and its end is recorded once, whichever transaction wins the race. */
module TerminalEvents {
  import opened Wrappers
  import opened RunState
  import opened Tables
  import opened EventLog
  import opened RunStore
  import opened CheckpointMutations
  import opened CoreApi
  import opened Protocol
  import opened StepCases
  import opened Kinds
  import opened Invariants
  import opened LogInvariants
  import opened LogSteps

  /** A terminal event of the run was ever recorded. */
  ghost predicate Ended(s: State, r: RunId) {
    exists i :: 0 <= i < |s.inserted| && s.inserted[i].run == Some(r) && s.inserted[i].terminal
  }

  ghost predicate EndedOnce(s: State) {
    forall i, j :: 0 <= i < j < |s.inserted| && s.inserted[i].terminal && s.inserted[j].terminal ==>
      s.inserted[i].run != s.inserted[j].run
  }

  /** What the run's status says about its terminal event. */
  ghost predicate Settled(s: State, r: RunId)
    requires r in s.runs
  {
    && (!IsTerminal(s.runs[r].status) ==> !Ended(s, r))
    && (IsTerminal(s.runs[r].status) && s.runs[r].reason != Some(Rollback) ==> Ended(s, r))
  }

  ghost predicate TerminalInv(s: State) {
    EndedOnce(s) && forall r :: r in s.runs ==> Settled(s, r)
  }

  /** Terminal events of an existing run are never pruned, so the lookup finds them. */
  lemma LookupIsHistory(s: State, r: RunId)
    requires LogInv(s) && r in s.runs
    ensures HasTerminalEvent(s, r) == Ended(s, r)
  {
    if Ended(s, r) {
      var i :| 0 <= i < |s.inserted| && s.inserted[i].run == Some(r) && s.inserted[i].terminal;
      assert Excused(s, s.inserted[i]) || i in s.events;
      assert i in s.events && s.events[i].run == Some(r) && s.events[i].terminal;
    }
    if HasTerminalEvent(s, r) {
      var k :| k in s.events && s.events[k].run == Some(r) && s.events[k].terminal;
      assert s.inserted[k] == s.events[k];
    }
  }

  lemma RecordInserts(s: State, r: RunId, n: Notice, s': State)
    requires Record(s, r, n) == Commit(s')
    ensures if n.terminal && HasTerminalEvent(s, r) then s' == s
            else |s'.inserted| == |s.inserted| + 1 && s'.inserted[..|s.inserted|] == s.inserted
                 && s'.inserted[|s.inserted|].run == Some(r) && s'.inserted[|s.inserted|].terminal == n.terminal
  {
    if !(n.terminal && HasTerminalEvent(s, r)) {
      match s.runs[r].thread {
        case Some(t) =>
          var next := NextThreadSequence(s, t);
          AppendInserts(SetThreadCursor(s, t, next), r, n, next);
        case None => AppendInserts(s, r, n, NextRunSequence(s, r));
      }
    }
  }

  lemma AppendInserts(s: State, r: RunId, n: Notice, sequence: nat)
    requires r in s.runs
    ensures var s' := Append(s, r, n, sequence);
            && |s'.inserted| == |s.inserted| + 1 && s'.inserted[..|s.inserted|] == s.inserted
            && s'.inserted[|s.inserted|].run == Some(r) && s'.inserted[|s.inserted|].terminal == n.terminal
  {
  }

  lemma RecordEnds(s: State, r: RunId, n: Notice, s': State)
    requires LogInv(s) && EndedOnce(s) && Record(s, r, n) == Commit(s')
    ensures EndedOnce(s')
    ensures forall q :: Ended(s', q) <==> Ended(s, q) || (q == r && n.terminal)
  {
    RecordInserts(s, r, n, s');
    LookupIsHistory(s, r);
    if s' != s { OneMoreEnds(s, s', r, n.terminal); }
  }

  lemma OneMoreEnds(s: State, s': State, r: RunId, terminal: bool)
    requires EndedOnce(s) && (terminal ==> !Ended(s, r))
    requires |s'.inserted| == |s.inserted| + 1 && s'.inserted[..|s.inserted|] == s.inserted
    requires s'.inserted[|s.inserted|].run == Some(r) && s'.inserted[|s.inserted|].terminal == terminal
    ensures EndedOnce(s')
    ensures forall q :: Ended(s', q) <==> Ended(s, q) || (q == r && terminal)
  {
    var m := |s.inserted|;
    forall i | 0 <= i < m ensures s'.inserted[i] == s.inserted[i] {
      assert s'.inserted[..m][i] == s'.inserted[i];
    }
    forall q ensures Ended(s', q) <==> Ended(s, q) || (q == r && terminal) {
      EndedByOne(s, s', q);
    }
  }

  lemma EndedByOne(s: State, s': State, q: RunId)
    requires |s'.inserted| == |s.inserted| + 1
    requires forall i :: 0 <= i < |s.inserted| ==> s'.inserted[i] == s.inserted[i]
    ensures Ended(s', q) <==> Ended(s, q) || (s'.inserted[|s.inserted|].run == Some(q) && s'.inserted[|s.inserted|].terminal)
  {
    if Ended(s, q) {
      var i :| 0 <= i < |s.inserted| && s.inserted[i].run == Some(q) && s.inserted[i].terminal;
      assert s'.inserted[i].run == Some(q);
    }
  }

  /** Nothing was recorded, and no run changed the side it is on. */
  lemma TerminalFrame(s: State, s': State)
    requires TerminalInv(s) && s'.inserted == s.inserted
    requires forall q :: q in s'.runs ==>
      if q in s.runs then
        || (s'.runs[q].status == s.runs[q].status && s'.runs[q].reason == s.runs[q].reason)
        || (!IsTerminal(s.runs[q].status) && !IsTerminal(s'.runs[q].status))
        || (IsTerminal(s'.runs[q].status) && s'.runs[q].reason == Some(Rollback))
      else !IsTerminal(s'.runs[q].status) && !Ended(s, q)
    ensures TerminalInv(s')
  {
    forall q | q in s'.runs
      ensures Settled(s', q)
    {
      assert Ended(s', q) == Ended(s, q);
      if q in s.runs { assert Settled(s, q); }
    }
  }

  /** A change of one unfinished run, recorded by one event that is terminal exactly if the run now is. */
  lemma ViaTerminal(s: State, s1: State, r: RunId, n: Notice, s': State)
    requires LogInv(s) && TerminalInv(s) && Via(s, s1, r, n, s')
    ensures TerminalInv(s')
  {
    NeutralKeepsLog(s, s1);
    RecordEnds(s1, r, n, s');
    RecordIsLogged(s1, r, n, s');
    forall q | q in s'.runs
      ensures Settled(s', q)
    {
      assert Settled(s, q);
      assert Ended(s1, q) == Ended(s, q);
    }
  }

  lemma PlainRecordTerminal(s: State, r: RunId, n: Plain, s': State)
    requires TerminalInv(s) && LogInv(s) && Record(s, r, n) == Commit(s')
    ensures TerminalInv(s')
  {
    RecordEnds(s, r, n, s');
    RecordIsLogged(s, r, n, s');
    forall q | q in s'.runs
      ensures Settled(s', q)
    {
      assert Settled(s, q);
    }
  }

  lemma {:induction false} RecordAllTerminal(s: State, r: RunId, notices: seq<Plain>, s': State)
    requires TerminalInv(s) && LogInv(s) && RecordAll(s, r, notices) == Commit(s')
    ensures TerminalInv(s')
    decreases |notices|
  {
    if notices != [] {
      var s1 := Record(s, r, notices[0]).db;
      PlainRecordTerminal(s, r, notices[0], s1);
      RecordKeepsLog(s, r, notices[0], s1);
      RecordAllTerminal(s1, r, notices[1..], s');
    }
  }

  lemma RunlessTerminal(s: State, t: ThreadId, n: Plain, s': State)
    requires TerminalInv(s) && RecordEvent(s, None, Some(t), n) == Commit(s')
    ensures TerminalInv(s')
  {
    RunlessIsQuiet(s, t, n, s');
    forall q | q in s'.runs
      ensures Settled(s', q)
    {
      assert Settled(s, q) && SameLife(s.runs[q], s'.runs[q]);
      EndedByOne(s, s', q);
    }
  }

  // ---- every step ----

  lemma RollBackTerminal(s: State, r: RunId, s': State)
    requires TerminalInv(s) && RequestRollback(s, r) == Commit(s')
    ensures TerminalInv(s')
  {
    if r in s.runs {
      if s.runs[r].leaseOwner.None? { CompleteTerminal(s, r, s'); } else { MarkTerminal(s, r); }
    }
  }

  lemma MarkTerminal(s: State, r: RunId)
    requires TerminalInv(s) && r in s.runs
    ensures TerminalInv(Marked(s, r))
  {
    TerminalFrame(s, Marked(s, r));
  }

  lemma GrantTerminal(s: State, cfg: Config, r: RunId, owner: Owner)
    requires TerminalInv(s) && MayGrant(s, r)
    ensures TerminalInv(Grant(Prepare(s, r), cfg, r, owner))
  {
    PrepareFrame(s, r);
    TerminalFrame(s, Grant(Prepare(s, r), cfg, r, owner));
  }

  lemma CreateTerminal(s: State, cfg: Config, r: RunId, sub: Submission)
    requires LogInv(s) && TerminalInv(s) && r !in s.issued
    ensures TerminalInv(SetRun(s, r, NewRun(s, cfg, sub)).(issued := s.issued + {r}))
  {
    forall i | 0 <= i < |s.inserted|
      ensures s.inserted[i].run != Some(r)
    {
      assert EventOk(s, s.inserted[i]);
    }
    TerminalFrame(s, SetRun(s, r, NewRun(s, cfg, sub)).(issued := s.issued + {r}));
  }

  lemma DeltasTerminal(s: State, r: RunId, notices: seq<Plain>, s': State)
    requires LogInv(s) && TerminalInv(s) && RecordDeltas(s, r, None, notices) == Commit(s')
    ensures TerminalInv(s')
  {
    BatchIsFold(s, r, notices);
    RecordAllTerminal(s, r, AsMessages(notices), s');
  }

  lemma MaintenanceTerminal(s: State, step: Step, s': State)
    requires LogInv(s) && TerminalInv(s) && MaintenanceIs(s, step, s')
    ensures TerminalInv(s')
  {
    match step {
      case Publish(r, notices) => RecordAllTerminal(s, r, notices, s');
      case PublishDeltas(r, notices) => DeltasTerminal(s, r, notices, s');
      case PublishRunless(t, n) => RunlessTerminal(s, t, n, s');
      case Retain(r, cutoff, batch, ids) => PruneTerminal(s, r, cutoff, batch, ids);
      case _ => SettingsTerminal(s, step, s');
    }
  }

  lemma PruneTerminal(s: State, r: RunId, cutoff: Time, batch: nat, ids: set<EventId>)
    requires TerminalInv(s)
    ensures TerminalInv(PruneEvents(s, r, cutoff, batch, ids))
  {
    TerminalFrame(s, PruneEvents(s, r, cutoff, batch, ids));
  }

  lemma SettingsTerminal(s: State, step: Step, s': State)
    requires TerminalInv(s) && (step.Tick? || step.OpenThread? || step.EditThread?) && MaintenanceIs(s, step, s')
    ensures TerminalInv(s')
  {
    TerminalFrame(s, s');
  }

  lemma TablesTerminal(s: State, s': State, k: Kind)
    requires TerminalInv(s) && IsKind(s, s', k) && (k.WorkerWrote? || k.StateUpdated? || k.LatestKept?)
    ensures TerminalInv(s')
  {
    TableKinds(s, s', k);
    TerminalFrame(s, s');
  }

  lemma TerminalStep(s: State, step: Step)
    requires OwnershipInv(s) && LogInv(s) && TerminalInv(s)
    ensures TerminalInv(Apply(s, step))
  {
    var tx := Transact(s, step);
    if tx.Commit? && tx.db != s {
      if IsMaintenance(step) {
        MaintenanceShape(s, step, tx.db);
        MaintenanceTerminal(s, step, tx.db);
      } else if RecordsItself(step) {
        var preceding, s0, s1, n := RunMoveVia(s, step, tx.db);
        RecordAllKeepsLog(s, step.r, preceding, s0);
        RecordAllTerminal(s, step.r, preceding, s0);
        ViaTerminal(s0, s1, step.r, n, tx.db);
      } else {
        OtherTerminal(s, step, tx.db);
      }
    }
  }

  lemma RenewTerminal(s: State, cfg: Config, r: RunId, owner: Owner)
    requires TerminalInv(s)
    ensures TerminalInv(Renew(s, cfg, r, owner))
  {
    TerminalFrame(s, Renew(s, cfg, r, owner));
  }

  lemma ReleaseTerminal(s: State, r: RunId, owner: Owner)
    requires TerminalInv(s)
    ensures TerminalInv(ReleaseCancelled(s, r, owner))
  {
    ReleaseKeepsRows(s, r, owner);
    TerminalFrame(s, ReleaseCancelled(s, r, owner));
  }

  lemma ThreadStatusKeepsRows(s: State, thread: Option<ThreadId>, status: string)
    ensures SetThreadStatus(s, thread, status).runs == s.runs && SetThreadStatus(s, thread, status).inserted == s.inserted
  {
  }

  lemma ReleaseKeepsRows(s: State, r: RunId, owner: Owner)
    ensures var s' := ReleaseCancelled(s, r, owner);
            && s'.inserted == s.inserted
            && (s'.runs == s.runs
                || (r in s.runs && s'.runs == s.runs[r := s.runs[r].(leaseOwner := None, leaseExpiresAt := None)]))
  {
    if r in s.runs {
      var s1 := Unlease(s, r, s.runs[r].(leaseOwner := None, leaseExpiresAt := None));
      ThreadStatusKeepsRows(s1, s.runs[r].thread, "interrupted");
      ThreadStatusKeepsRows(s1, s.runs[r].thread, "idle");
    }
  }

  lemma ReorderTerminal(s: State, t: ThreadId, expected: seq<RunId>, requested: seq<RunId>, s': State)
    requires TerminalInv(s) && Reorder(s, t, expected, requested) == Commit(s')
    ensures TerminalInv(s')
  {
    TerminalFrame(s, s');
  }

  lemma OtherTerminal(s: State, step: Step, s': State)
    requires LogInv(s) && TerminalInv(s)
    requires Transact(s, step) == Commit(s') && s' != s && !IsMaintenance(step) && !RecordsItself(step)
    ensures TerminalInv(s')
  {
    match step {
      case Submit(cfg, r, sub) => CreateTerminal(s, cfg, r, sub);
      case RenewLease(cfg, r, owner) => RenewTerminal(s, cfg, r, owner);
      case ReleaseLease(r, owner) => ReleaseTerminal(s, r, owner);
      case ClaimNext(cfg, r, owner) =>
        if s.runs[r].retryCount >= s.runs[r].maxAttempts {
          var s1, n := ExhaustVia(s, r, s');
          ViaTerminal(s, s1, r, n, s');
        } else {
          GrantTerminal(s, cfg, r, owner);
        }
      case RollBack(r) => RollBackTerminal(s, r, s');
      case CompleteRollBack(r, worker) => CompleteTerminal(s, r, s');
      case WorkerWrite(w, at, change) => TablesTerminal(s, s', WorkerWrote(w, at, change));
      case StateUpdate(at, onBehalf, change) => TablesTerminal(s, s', StateUpdated(at, onBehalf, change));
      case KeepLatest(t) => TablesTerminal(s, s', LatestKept(t));
      case ReorderQueue(t, expected, requested) => ReorderTerminal(s, t, expected, requested, s');
    }
  }

  lemma CompleteTerminal(s: State, r: RunId, s': State)
    requires TerminalInv(s) && RollbackRun(s, r) == Commit(s')
    ensures TerminalInv(s')
  {
    DeletionFrame(s, r, s');
    TerminalFrame(s, s');
  }

  // ---- the whole invariant over every history ----

  ghost predicate Inv(s: State) {
    CoreInv(s) && LogInv(s) && TerminalInv(s)
  }

  lemma InvStep(s: State, step: Step)
    requires Inv(s)
    ensures Inv(Apply(s, step))
  {
    CoreStep(s, step);
    LogStep(s, step);
    TerminalStep(s, step);
  }

  lemma {:induction false} InvAlways(s: State, steps: seq<Step>)
    requires Inv(s)
    ensures Inv(Exec(s, steps))
    decreases |steps|
  {
    if steps != [] {
      InvStep(s, steps[0]);
      InvAlways(Apply(s, steps[0]), steps[1..]);
    }
  }

  lemma InvInit(clock: Time)
    ensures Inv(Init(clock))
  {
    InitCore(clock);
  }
}
