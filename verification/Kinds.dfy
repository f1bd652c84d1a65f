/** Every step is of one of nine kinds. */
module Kinds {
  import opened Wrappers
  import opened RunState
  import opened Tables
  import opened EventLog
  import opened RunStore
  import opened CheckpointMutations
  import opened CoreApi
  import opened Protocol
  import opened StepCases
  import opened Moves

  datatype Kind =
    | Silent
    | Move(r: RunId)
    | Granting(cfg: Config, r: RunId, owner: Owner)
    | Creation(cfg: Config, r: RunId, sub: Submission)
    | Deletion(r: RunId)
    | WorkerWrote(w: Writer, at: Resource, change: Change)
    | StateUpdated(at: Resource, onBehalf: Option<RunId>, change: Change)
    | LatestKept(t: ThreadId)
    | QueueEdited(t: ThreadId, expected: seq<RunId>, requested: seq<RunId>)

  predicate MayGrant(s: State, r: RunId) {
    Eligible(s, r) && ThreadPresent(s, s.runs[r]) && s.runs[r].retryCount < s.runs[r].maxAttempts
  }

  ghost predicate IsKind(s: State, s': State, k: Kind) {
    match k
    case Silent => Quiet(s, s')
    case Move(r) => Moved(s, s', r)
    case Granting(cfg, r, owner) => MayGrant(s, r) && s' == Grant(Prepare(s, r), cfg, r, owner)
    case Creation(cfg, r, sub) =>
      && r !in s.issued && !HasKey(s.runs, sub.idempotencyKey)
      && s' == SetRun(s, r, NewRun(s, cfg, sub)).(issued := s.issued + {r})
    case Deletion(r) => MayRollback(s, r) && RollbackRun(s, r) == Commit(s')
    case WorkerWrote(w, at, change) => FencedWrite(s, w, at, change) == Commit(s')
    case StateUpdated(at, onBehalf, change) => UnfencedWrite(s, at, onBehalf, change) == Commit(s')
    case LatestKept(t) => PruneCheckpoints(s, t) == Commit(s')
    case QueueEdited(t, expected, requested) => Reorder(s, t, expected, requested) == Commit(s')
  }

  lemma SameIsQuiet(s: State)
    ensures Quiet(s, s)
  {
  }

  lemma DropIsQuiet(s: State, r: RunId, ids: set<EventId>, w: nat)
    requires r in s.runs
    ensures Quiet(s, DropEvents(s, r, ids, w))
  {
  }

  lemma PruneIsQuiet(s: State, r: RunId, cutoff: Time, batch: nat, ids: set<EventId>)
    ensures Quiet(s, PruneEvents(s, r, cutoff, batch, ids))
  {
    if MayPrune(s, r, cutoff, batch, ids) {
      DropIsQuiet(s, r, ids, Watermark(s, ids));
    }
  }

  lemma ProjectionIsQuiet(s: State, t: ThreadId, p: Projection)
    requires t in s.threads
    ensures Quiet(s, SetProjection(s, t, p))
  {
  }

  lemma RunlessIsQuiet(s: State, t: ThreadId, n: Notice, s': State)
    requires RecordEvent(s, None, Some(t), n) == Commit(s')
    ensures Quiet(s, s')
  {
  }

  lemma ClaimKind(s: State, cfg: Config, r: RunId, owner: Owner, s': State) returns (k: Kind)
    requires OwnershipInv(s) && ClaimRun(s, cfg, r, owner) == Commit(s')
    ensures IsKind(s, s', k) && k in {Silent, Move(r), Granting(cfg, r, owner)}
  {
    if s' == s {
      k := Silent;
    } else if s.runs[r].retryCount >= s.runs[r].maxAttempts {
      ExhaustMoves(s, r, s');
      k := Move(r);
    } else {
      k := Granting(cfg, r, owner);
    }
  }

  lemma RollBackKind(s: State, r: RunId, s': State) returns (k: Kind)
    requires OwnershipInv(s) && RequestRollback(s, r) == Commit(s')
    ensures IsKind(s, s', k) && k in {Silent, Move(r), Deletion(r)}
  {
    if r !in s.runs {
      k := Silent;
    } else if s.runs[r].leaseOwner.None? {
      k := Deletion(r);
    } else {
      MarkMoves(s, r);
      k := Move(r);
    }
  }

  predicate IsMaintenance(step: Step) {
    step.Tick? || step.OpenThread? || step.EditThread? || step.Publish? || step.PublishDeltas? || step.PublishRunless? || step.Retain?
  }

  lemma PublishIsQuiet(s: State, r: RunId, notices: seq<Plain>, s': State)
    requires RecordAll(s, r, notices) == Commit(s') || RecordDeltas(s, r, None, notices) == Commit(s')
    ensures Quiet(s, s')
  {
    if RecordAll(s, r, notices) == Commit(s') {
      RecordAllIsLogged(s, r, notices, s');
    } else {
      RecordDeltasIsLogged(s, r, notices, s');
    }
    LoggedIsQuiet(s, s', r);
  }

  lemma TickIsQuiet(s: State, d: Time)
    requires d >= 0.0
    ensures Quiet(s, s.(clock := s.clock + d))
  {
  }

  lemma OpenIsQuiet(s: State, t: ThreadId, p: Projection)
    requires t !in s.threads
    ensures Quiet(s, s.(threads := s.threads[t := Thread(p, 0, 0)]))
  {
  }

  /** Clock, thread columns and the event log leave ownership and checkpoints alone. */
  lemma MaintenanceIsQuiet(s: State, step: Step)
    requires IsMaintenance(step) && Transact(s, step).Commit? && Transact(s, step).db != s
    ensures Quiet(s, Transact(s, step).db)
  {
    match step {
      case Tick(d) => TickIsQuiet(s, d);
      case OpenThread(t, p) => OpenIsQuiet(s, t, p);
      case EditThread(t, p) => ProjectionIsQuiet(s, t, p);
      case Publish(r, notices) => PublishIsQuiet(s, r, notices, Transact(s, step).db);
      case PublishDeltas(r, notices) => PublishIsQuiet(s, r, notices, Transact(s, step).db);
      case PublishRunless(t, n) => RunlessIsQuiet(s, t, n, Transact(s, step).db);
      case Retain(r, cutoff, batch, ids) => PruneIsQuiet(s, r, cutoff, batch, ids);
    }
  }

  predicate IsRunMove(step: Step) {
    step.RenewLease? || step.FinishRun? || step.FailRun? || step.ShutDown? || step.ReapRun? || step.CancelRun? || step.ReleaseLease?
  }

  lemma RunMoveMoves(s: State, step: Step)
    requires OwnershipInv(s) && IsRunMove(step) && Transact(s, step).Commit?
    ensures Transact(s, step).db == s || Moved(s, Transact(s, step).db, step.r)
  {
    var s' := Transact(s, step).db;
    match step {
      case RenewLease(cfg, r, owner) => if MayRenew(s, r, owner) { RenewMoves(s, cfg, r, owner); }
      case FinishRun(r, owner, e, payload, preceding) => FinishMoves(s, r, owner, e, payload, preceding, s');
      case FailRun(cfg, r, owner, infra) =>
        FailMoves(s, cfg, r, owner, infra, if infra then InfrastructureError else BusinessError, s');
      case ShutDown(cfg, r, owner, drained) => ShutdownMoves(s, cfg, r, owner, drained, s');
      case ReapRun(cfg, r) => ReapMoves(s, cfg, r, s');
      case CancelRun(r) => CancelMoves(s, r, s');
      case ReleaseLease(r, owner) => ReleaseMoves(s, r, owner);
    }
  }

  /** The run row that the step's transaction may write as owner, if any. */
  function Subject(step: Step): Option<RunId> {
    if IsRunMove(step) || step.Submit? || step.ClaimNext? || step.RollBack? || step.CompleteRollBack? then Some(step.r) else None
  }

  predicate About(k: Kind, step: Step) {
    && (k.Move? || k.Granting? || k.Creation? || k.Deletion? ==> Subject(step) == Some(k.r))
    && (k.Granting? ==> step.ClaimNext?)
    && (k.Deletion? ==> step.RollBack? || step.CompleteRollBack?)
    && (k.WorkerWrote? ==> step == WorkerWrite(k.w, k.at, k.change))
    && (k.StateUpdated? ==> step == StateUpdate(k.at, k.onBehalf, k.change))
    && (k.LatestKept? ==> step == KeepLatest(k.t))
    && (k.QueueEdited? ==> step == ReorderQueue(k.t, k.expected, k.requested))
  }

  lemma ClassifyOther(s: State, step: Step, s': State) returns (k: Kind)
    requires OwnershipInv(s) && Transact(s, step) == Commit(s') && s' != s && !IsMaintenance(step) && !IsRunMove(step)
    ensures IsKind(s, s', k) && About(k, step)
  {
    match step {
      case Submit(cfg, r, sub) => k := Creation(cfg, r, sub);
      case ClaimNext(cfg, r, owner) => k := ClaimKind(s, cfg, r, owner, s');
      case RollBack(r) => k := RollBackKind(s, r, s');
      case CompleteRollBack(r, worker) => k := Deletion(r);
      case WorkerWrite(w, at, change) => k := WorkerWrote(w, at, change);
      case StateUpdate(at, onBehalf, change) => k := StateUpdated(at, onBehalf, change);
      case KeepLatest(t) => k := LatestKept(t);
      case ReorderQueue(t, expected, requested) => k := QueueEdited(t, expected, requested);
    }
  }

  lemma Classify(s: State, step: Step) returns (k: Kind)
    requires OwnershipInv(s)
    ensures IsKind(s, Apply(s, step), k) && About(k, step)
  {
    var tx := Transact(s, step);
    if tx.Abort? || tx.db == s {
      SameIsQuiet(s);
      return Silent;
    }
    if IsMaintenance(step) {
      MaintenanceIsQuiet(s, step);
      return Silent;
    }
    if IsRunMove(step) {
      RunMoveMoves(s, step);
      return Move(step.r);
    }
    k := ClassifyOther(s, step, tx.db);
  }

  // ---- what the checkpoint kinds and a claim leave alone ----

  ghost predicate OnlyTables(s: State, s': State) {
    && s' == s.(baselines := s'.baselines, tables := s'.tables, blobs := s'.blobs, accepted := s'.accepted)
    && forall q :: q in s'.baselines ==> q in s.baselines && s'.baselines[q] == s.baselines[q]
  }

  lemma TableKinds(s: State, s': State, k: Kind)
    requires IsKind(s, s', k) && (k.WorkerWrote? || k.StateUpdated? || k.LatestKept?)
    ensures OnlyTables(s, s')
  {
    match k {
      case WorkerWrote(w, at, change) => WorkerTables(s, s', w, at, change);
      case StateUpdated(at, onBehalf, change) => UpdateTables(s, s', at, onBehalf, change);
      case LatestKept(t) => PruneTables(s, s', t);
    }
  }

  lemma WorkerTables(s: State, s': State, w: Writer, at: Resource, change: Change)
    requires FencedWrite(s, w, at, change) == Commit(s')
    ensures OnlyTables(s, s')
  {
  }

  lemma UpdateTables(s: State, s': State, at: Resource, onBehalf: Option<RunId>, change: Change)
    requires UnfencedWrite(s, at, onBehalf, change) == Commit(s')
    ensures OnlyTables(s, s')
  {
  }

  lemma PruneTables(s: State, s': State, t: ThreadId)
    requires PruneCheckpoints(s, t) == Commit(s')
    ensures OnlyTables(s, s')
  {
  }

  lemma ThreadStatusFrame(s: State, t: Option<ThreadId>, status: string)
    ensures var s' := SetThreadStatus(s, t, status); s' == s.(threads := s'.threads) && s'.threads.Keys == s.threads.Keys
  {
  }

  /** What a claim captures besides the thread columns. */
  function Baselined(s: State, r: RunId): State
    requires r in s.runs && ThreadPresent(s, s.runs[r])
  {
    if s.runs[r].thread.Some? then Capture(s, r, s.runs[r].thread.value) else s
  }

  lemma PrepareCaptures(s: State, r: RunId)
    requires r in s.runs && ThreadPresent(s, s.runs[r])
    ensures Prepare(s, r) == Baselined(s, r).(threads := Prepare(s, r).threads)
    ensures Prepare(s, r).threads.Keys == s.threads.Keys
  {
    ThreadStatusFrame(Baselined(s, r), s.runs[r].thread, "busy");
  }

  lemma PrepareFrame(s: State, r: RunId)
    requires r in s.runs && ThreadPresent(s, s.runs[r])
    ensures var s1 := Prepare(s, r);
            && s1 == s.(baselines := s1.baselines, captures := s1.captures, threads := s1.threads)
            && s1.threads.Keys == s.threads.Keys
  {
    PrepareCaptures(s, r);
  }

  lemma DeletionFrame(s: State, r: RunId, s': State)
    requires RollbackRun(s, r) == Commit(s')
    ensures s' == s.(runs := s.runs - {r}, leases := s.leases - {r}, baselines := s.baselines - {r},
                     events := s'.events, tables := s'.tables, threads := s'.threads)
    ensures s'.threads.Keys == s.threads.Keys
  {
  }

  /** A rollback touches the tables of its own thread only. */
  lemma DeletionTables(s: State, r: RunId, s': State, at: Resource)
    requires RollbackRun(s, r) == Commit(s') && (r in s.baselines ==> at != OfThread(s.baselines[r].thread))
    ensures HistoryOf(s', at) == HistoryOf(s, at)
  {
  }

  // ---- checkpoint changes elsewhere ----

  lemma WrittenElsewhere(s: State, s': State, w: Writer, at: Resource, change: Change, t: ThreadId)
    requires FencedWrite(s, w, at, change) == Commit(s') && at != OfThread(t)
    ensures HistoryOf(s', OfThread(t)) == HistoryOf(s, OfThread(t)) && s'.baselines == s.baselines
  {
  }

  lemma UpdatedElsewhere(s: State, s': State, at: Resource, onBehalf: Option<RunId>, change: Change, t: ThreadId)
    requires UnfencedWrite(s, at, onBehalf, change) == Commit(s') && at != OfThread(t)
    ensures HistoryOf(s', OfThread(t)) == HistoryOf(s, OfThread(t))
    ensures forall q :: q in s.baselines && s.baselines[q].thread == t ==> q in s'.baselines
  {
  }

  lemma PrunedElsewhere(s: State, s': State, u: ThreadId, t: ThreadId)
    requires PruneCheckpoints(s, u) == Commit(s') && u != t
    ensures HistoryOf(s', OfThread(t)) == HistoryOf(s, OfThread(t))
    ensures forall q :: q in s.baselines && s.baselines[q].thread == t ==> q in s'.baselines
  {
  }

  lemma OtherTables(s: State, s': State, k: Kind, t: ThreadId)
    requires IsKind(s, s', k)
    requires (k.WorkerWrote? && k.at != OfThread(t)) || (k.StateUpdated? && k.at != OfThread(t)) || (k.LatestKept? && k.t != t)
    ensures HistoryOf(s', OfThread(t)) == HistoryOf(s, OfThread(t))
    ensures forall q :: q in s.baselines && s.baselines[q].thread == t ==> q in s'.baselines
  {
    match k {
      case WorkerWrote(w, at, change) => WrittenElsewhere(s, s', w, at, change, t);
      case StateUpdated(at, onBehalf, change) => UpdatedElsewhere(s, s', at, onBehalf, change, t);
      case LatestKept(u) => PrunedElsewhere(s, s', u, t);
    }
  }

  /** A rollback request is one step. */
  lemma RequestIsStep(s: State, q: RunId, s1: State)
    requires RequestRollback(s, q) == Commit(s1)
    ensures Apply(s, RollBack(q)) == s1
  {
  }
}
