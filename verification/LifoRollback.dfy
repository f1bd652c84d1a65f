/** Rollback restores exactly what the run found: across retries of one run, and newest first across many. */
module LifoRollback {
  import opened Wrappers
  import opened Tables
  import opened RunStore
  import opened CheckpointMutations
  import opened CoreApi
  import opened Protocol
  import opened StepCases
  import opened Kinds
  import opened Invariants

  /** What a rollback promises to bring back. */
  datatype Snapshot = Snapshot(history: History, projection: Projection)

  function SnapshotOf(s: State, t: ThreadId): Snapshot
    requires t in s.threads
  {
    Snapshot(HistoryOf(s, OfThread(t)), s.threads[t].projection)
  }

  function Last(rs: seq<RunId>): RunId
    requires rs != []
  {
    rs[|rs| - 1]
  }

  ghost predicate MembersOk(s: State, t: ThreadId, rs: seq<RunId>) {
    && (forall i :: 0 <= i < |rs| ==> rs[i] in s.baselines && rs[i] in s.runs && s.baselines[rs[i]].thread == t
                                       && s.runs[rs[i]].thread == Some(t))
    && (forall i, j :: 0 <= i < j < |rs| ==> s.baselines[rs[i]].capturedAt < s.baselines[rs[j]].capturedAt)
    && (forall q :: q in s.baselines && s.baselines[q].thread == t && q !in rs && rs != [] && rs[0] in s.baselines ==>
          s.baselines[q].capturedAt < s.baselines[rs[0]].capturedAt)
  }

  /** Between the captures of two neighbours only the older one wrote. */
  ghost predicate Chained(s: State, t: ThreadId, rs: seq<RunId>)
    requires rs != [] && MembersOk(s, t, rs)
  {
    && (forall i :: 0 <= i < |rs| - 1 ==>
          OwnChangesOnly(s.baselines[rs[i]].history, s.baselines[rs[i + 1]].history, rs[i]))
    && OwnChangesOnly(s.baselines[Last(rs)].history, HistoryOf(s, OfThread(t)), Last(rs))
  }

  /** The runs `rs` of thread `t`, oldest capture first, are all that happened since `base`. */
  ghost predicate Stack(s: State, t: ThreadId, rs: seq<RunId>, base: Snapshot) {
    && rs != [] && t in s.threads && MembersOk(s, t, rs) && Chained(s, t, rs)
    && s.baselines[rs[0]].history == base.history && s.baselines[rs[0]].projection == base.projection
    && (forall q :: q in s.runs && s.runs[q].thread == Some(t) && q != Last(rs) ==> !Active(s.runs[q]))
  }

  // ---- popping ----

  lemma CapturedBeforeLast(s: State, t: ThreadId, rs: seq<RunId>, base: Snapshot, q: RunId)
    requires Stack(s, t, rs, base) && q in s.baselines && s.baselines[q].thread == t && q != Last(rs)
    ensures s.baselines[q].capturedAt < s.baselines[Last(rs)].capturedAt
  {
    if q in rs {
      var i :| 0 <= i < |rs| && rs[i] == q;
    } else if |rs| > 1 {
      assert s.baselines[rs[0]].capturedAt < s.baselines[Last(rs)].capturedAt;
    }
  }

  /** The newest run may be rolled back. */
  lemma TopMayRollback(s: State, t: ThreadId, rs: seq<RunId>, base: Snapshot)
    requires Stack(s, t, rs, base)
    ensures MayRollback(s, Last(rs))
  {
    forall q | q in s.baselines && q != Last(rs) && s.baselines[q].thread == t
      ensures s.baselines[q].capturedAt < s.baselines[Last(rs)].capturedAt
    {
      CapturedBeforeLast(s, t, rs, base, q);
    }
  }

  /** In any state, a run is refused while a later capture of its thread exists. */
  lemma LaterCaptureRefuses(s: State, q: RunId, later: RunId)
    requires BaselineInv(s) && q in s.baselines && later in s.baselines && later != q
    requires s.baselines[later].thread == s.baselines[q].thread && s.baselines[later].capturedAt >= s.baselines[q].capturedAt
    ensures RollbackRun(s, q) == Abort(CheckpointConflict) && RequestRollback(s, q) == Abort(CheckpointConflict)
  {
    assert LaterCapture(s.baselines, s.baselines[q].thread, q);
  }

  /** So every run below the top, and every other run that has captured a baseline on the thread, is refused. */
  lemma OthersMayNot(s: State, t: ThreadId, rs: seq<RunId>, base: Snapshot, q: RunId)
    requires Stack(s, t, rs, base) && BaselineInv(s) && q in s.baselines && s.baselines[q].thread == t && q != Last(rs)
    ensures RollbackRun(s, q) == Abort(CheckpointConflict) && RequestRollback(s, q) == Abort(CheckpointConflict)
  {
    CapturedBeforeLast(s, t, rs, base, q);
    LaterCaptureRefuses(s, q, Last(rs));
  }

  function Below(rs: seq<RunId>): seq<RunId>
    requires rs != []
  {
    rs[..|rs| - 1]
  }

  lemma BelowIndices(s: State, t: ThreadId, rs: seq<RunId>, base: Snapshot)
    requires Stack(s, t, rs, base) && |rs| > 1
    ensures forall i :: 0 <= i < |rs| - 1 ==> Below(rs)[i] == rs[i] && rs[i] != Last(rs)
    ensures Last(Below(rs)) == rs[|rs| - 2] && Below(rs)[0] == rs[0]
    ensures forall q :: q in rs ==> q in Below(rs) || q == Last(rs)
  {
  }

  lemma PopMembers(s: State, t: ThreadId, rs: seq<RunId>, base: Snapshot, s': State)
    requires Stack(s, t, rs, base) && |rs| > 1
    requires s'.baselines == s.baselines - {Last(rs)} && s'.runs == s.runs - {Last(rs)}
    ensures MembersOk(s', t, Below(rs))
  {
    BelowIndices(s, t, rs, base);
    forall i, j | 0 <= i < j < |Below(rs)|
      ensures s'.baselines[Below(rs)[i]].capturedAt < s'.baselines[Below(rs)[j]].capturedAt
    {
      assert s.baselines[rs[i]].capturedAt < s.baselines[rs[j]].capturedAt;
    }
  }

  lemma PopChain(s: State, t: ThreadId, rs: seq<RunId>, base: Snapshot, s': State)
    requires Stack(s, t, rs, base) && |rs| > 1 && MembersOk(s', t, Below(rs))
    requires s'.baselines == s.baselines - {Last(rs)}
    requires HistoryOf(s', OfThread(t)) == s.baselines[Last(rs)].history
    ensures Chained(s', t, Below(rs))
  {
    BelowIndices(s, t, rs, base);
    forall i | 0 <= i < |rs| - 1
      ensures OwnChangesOnly(s.baselines[rs[i]].history, s.baselines[rs[i + 1]].history, rs[i])
    {
    }
  }

  /** Rolling the newest run back uncovers the next one, or the state before the oldest. */
  lemma Pop(s: State, t: ThreadId, rs: seq<RunId>, base: Snapshot, s': State)
    requires Stack(s, t, rs, base) && RollbackRun(s, Last(rs)) == Commit(s')
    ensures t in s'.threads
    ensures |rs| == 1 ==> SnapshotOf(s', t) == base
    ensures |rs| > 1 ==> Stack(s', t, Below(rs), base)
  {
    DeletionFrame(s, Last(rs), s');
    PopRestores(s, t, Last(rs), s');
    if |rs| > 1 {
      PopMembers(s, t, rs, base, s');
      PopChain(s, t, rs, base, s');
    }
  }

  lemma PopRestores(s: State, t: ThreadId, top: RunId, s': State)
    requires top in s.runs && s.runs[top].thread == Some(t) && top in s.baselines && s.baselines[top].thread == t && t in s.threads
    requires RollbackRun(s, top) == Commit(s')
    ensures t in s'.threads && SnapshotOf(s', t) == Snapshot(s.baselines[top].history, s.baselines[top].projection)
  {
  }

  // ---- calm steps keep the stack ----

  /** The step claims another run of the thread, updates its state by hand or prunes it. */
  ghost predicate Disturbs(s: State, step: Step, t: ThreadId, r: RunId) {
    match step
    case ClaimNext(_, q, _) => q != r && q in s.runs && s.runs[q].thread == Some(t) && |Apply(s, step).claims| > |s.claims|
    case StateUpdate(at, _, _) => at == OfThread(t) && Apply(s, step) != s
    case KeepLatest(u) => u == t && Apply(s, step) != s
    case _ => false
  }

  /** Baselines, table and activity of the thread stayed as they were. */
  lemma StackFrame(s: State, s': State, t: ThreadId, rs: seq<RunId>, base: Snapshot)
    requires Stack(s, t, rs, base) && t in s'.threads
    requires forall i :: 0 <= i < |rs| ==> rs[i] in s'.runs && s'.runs[rs[i]].thread == Some(t) && rs[i] in s'.baselines
    requires forall q :: q in s'.baselines && s'.baselines[q].thread == t ==> q in s.baselines
    requires forall q :: q in s'.baselines && q in s.baselines ==> s'.baselines[q] == s.baselines[q]
    requires OwnChangesOnly(s.baselines[Last(rs)].history, HistoryOf(s', OfThread(t)), Last(rs))
    requires forall q :: q in s'.runs && s'.runs[q].thread == Some(t) && q != Last(rs) ==> !Active(s'.runs[q])
    ensures Stack(s', t, rs, base)
  {
    forall i | 0 <= i < |rs|
      ensures s'.baselines[rs[i]] == s.baselines[rs[i]]
    {
    }
  }

  lemma StackQuiet(s: State, s': State, t: ThreadId, rs: seq<RunId>, base: Snapshot)
    requires Stack(s, t, rs, base) && Quiet(s, s')
    ensures Stack(s', t, rs, base)
  {
    forall q | q in s'.runs ensures SameLife(s.runs[q], s'.runs[q]) {}
    StackFrame(s, s', t, rs, base);
  }

  lemma StackMove(s: State, s': State, q: RunId, t: ThreadId, rs: seq<RunId>, base: Snapshot)
    requires OwnershipInv(s) && BaselineInv(s) && Stack(s, t, rs, base) && Moved(s, s', q)
    ensures Stack(s', t, rs, base)
  {
    if q != Last(rs) && s.runs[q].thread == Some(t) && Active(s'.runs[q]) {
      MarkedHasBaseline(s, s', q, t);
      OthersMayNot(s, t, rs, base, q);
    }
    StackFrame(s, s', t, rs, base);
  }

  /** A run that was not active becomes so outside of a claim only by an accepted, deferred rollback. */
  lemma MarkedHasBaseline(s: State, s': State, q: RunId, t: ThreadId)
    requires OwnershipInv(s) && BaselineInv(s) && Moved(s, s', q) && s.runs[q].thread == Some(t) && !Active(s.runs[q]) && Active(s'.runs[q])
    ensures MayRollback(s, q) && q in s.baselines && s.baselines[q].thread == t
  {
    assert RunOk(s'.runs[q], LeaseOf(s', q)) && RunOk(s.runs[q], LeaseOf(s, q));
    assert s'.runs[q].retryCount == s.runs[q].retryCount;
  }

  lemma StackGrant(s: State, cfg: Config, q: RunId, owner: Owner, t: ThreadId, rs: seq<RunId>, base: Snapshot)
    requires BaselineInv(s) && Stack(s, t, rs, base) && MayGrant(s, q) && (q == Last(rs) || s.runs[q].thread != Some(t))
    ensures Stack(Grant(Prepare(s, q), cfg, q, owner), t, rs, base)
  {
    PrepareFrame(s, q);
    BaselineCapture(s, q);
    StackFrame(s, Grant(Prepare(s, q), cfg, q, owner), t, rs, base);
  }

  lemma StackCreate(s: State, cfg: Config, q: RunId, sub: Submission, t: ThreadId, rs: seq<RunId>, base: Snapshot)
    requires OwnershipInv(s) && Stack(s, t, rs, base) && q !in s.issued
    ensures Stack(SetRun(s, q, NewRun(s, cfg, sub)).(issued := s.issued + {q}), t, rs, base)
  {
    StackFrame(s, SetRun(s, q, NewRun(s, cfg, sub)).(issued := s.issued + {q}), t, rs, base);
  }

  lemma StackDelete(s: State, s': State, q: RunId, t: ThreadId, rs: seq<RunId>, base: Snapshot)
    requires BaselineInv(s) && Stack(s, t, rs, base) && RollbackRun(s, q) == Commit(s') && q != Last(rs)
    ensures Stack(s', t, rs, base)
  {
    if q in s.baselines && s.baselines[q].thread == t {
      OthersMayNot(s, t, rs, base, q);
    }
    assert q !in rs;
    DeletionTables(s, q, s', OfThread(t));
    DeletionFrame(s, q, s');
    StackFrame(s, s', t, rs, base);
  }

  lemma StackReorder(s: State, s': State, u: ThreadId, expected: seq<RunId>, requested: seq<RunId>, t: ThreadId,
                     rs: seq<RunId>, base: Snapshot)
    requires Stack(s, t, rs, base) && Reorder(s, u, expected, requested) == Commit(s')
    ensures Stack(s', t, rs, base)
  {
    StackFrame(s, s', t, rs, base);
  }

  /** A worker's write on the thread comes from the newest run and carries its stamp. */
  lemma StackWrite(s: State, s': State, w: Writer, at: Resource, change: Change, t: ThreadId, rs: seq<RunId>, base: Snapshot)
    requires Stack(s, t, rs, base) && FencedWrite(s, w, at, change) == Commit(s')
    ensures Stack(s', t, rs, base)
  {
    TableKinds(s, s', WorkerWrote(w, at, change));
    if at == OfThread(t) {
      assert Active(s.runs[w.run]) && w.run == Last(rs);
      assert HistoryOf(s', at) == ChangeHistory(HistoryOf(s, at), Stamp(change, w.run));
    } else {
      assert HistoryOf(s', OfThread(t)) == HistoryOf(s, OfThread(t));
    }
    WriteKeepsBaselines(s, s', w, at, change);
    StackFrame(s, s', t, rs, base);
  }

  lemma WriteKeepsBaselines(s: State, s': State, w: Writer, at: Resource, change: Change)
    requires FencedWrite(s, w, at, change) == Commit(s')
    ensures s'.baselines == s.baselines
  {
  }

  lemma StackElsewhere(s: State, s': State, k: Kind, t: ThreadId, rs: seq<RunId>, base: Snapshot)
    requires Stack(s, t, rs, base) && IsKind(s, s', k)
    requires (k.StateUpdated? && k.at != OfThread(t)) || (k.LatestKept? && k.t != t)
    ensures Stack(s', t, rs, base)
  {
    TableKinds(s, s', k);
    OtherTables(s, s', k, t);
    StackFrame(s, s', t, rs, base);
  }

  lemma StackOther(s: State, s': State, k: Kind, t: ThreadId, rs: seq<RunId>, base: Snapshot)
    requires CoreInv(s) && Stack(s, t, rs, base) && IsKind(s, s', k)
    requires k.Silent? || k.Move? || k.Creation? || k.QueueEdited? || k.WorkerWrote?
    ensures Stack(s', t, rs, base)
  {
    match k {
      case Silent => StackQuiet(s, s', t, rs, base);
      case Move(q) => StackMove(s, s', q, t, rs, base);
      case Creation(cfg, q, sub) => StackCreate(s, cfg, q, sub, t, rs, base);
      case QueueEdited(u, expected, requested) => StackReorder(s, s', u, expected, requested, t, rs, base);
      case WorkerWrote(w, at, change) => StackWrite(s, s', w, at, change, t, rs, base);
    }
  }

  /** What a calm step's kind cannot be about. */
  predicate Calm(s: State, k: Kind, t: ThreadId, top: RunId) {
    && (k.Granting? ==> k.r == top || (k.r in s.runs && s.runs[k.r].thread != Some(t)))
    && (k.Deletion? ==> k.r != top)
    && (k.StateUpdated? ==> k.at != OfThread(t))
    && (k.LatestKept? ==> k.t != t)
  }

  lemma CalmKind(s: State, step: Step, k: Kind, t: ThreadId, top: RunId)
    requires IsKind(s, Apply(s, step), k) && About(k, step) && Apply(s, step) != s
    requires !Disturbs(s, step, t, top) && top in Apply(s, step).runs
    ensures Calm(s, k, t, top)
  {
    match k {
      case Granting(cfg, q, owner) => GrantAddsClaim(s, cfg, q, owner);
      case Deletion(q) => DeletionFrame(s, q, Apply(s, step));
      case _ =>
    }
  }

  lemma StackKind(s: State, s': State, k: Kind, t: ThreadId, rs: seq<RunId>, base: Snapshot)
    requires CoreInv(s) && Stack(s, t, rs, base) && IsKind(s, s', k) && Calm(s, k, t, Last(rs))
    ensures Stack(s', t, rs, base)
  {
    match k {
      case Granting(cfg, q, owner) => StackGrant(s, cfg, q, owner, t, rs, base);
      case Deletion(q) => StackDelete(s, s', q, t, rs, base);
      case StateUpdated(_, _, _) => StackElsewhere(s, s', k, t, rs, base);
      case LatestKept(_) => StackElsewhere(s, s', k, t, rs, base);
      case _ => StackOther(s, s', k, t, rs, base);
    }
  }

  lemma StackStep(s: State, step: Step, t: ThreadId, rs: seq<RunId>, base: Snapshot)
    requires CoreInv(s) && Stack(s, t, rs, base) && !Disturbs(s, step, t, Last(rs)) && Last(rs) in Apply(s, step).runs
    ensures Stack(Apply(s, step), t, rs, base)
  {
    if Apply(s, step) != s {
      var k := Classify(s, step);
      CalmKind(s, step, k, t, Last(rs));
      StackKind(s, Apply(s, step), k, t, rs, base);
    }
  }

  lemma GrantAddsClaim(s: State, cfg: Config, q: RunId, owner: Owner)
    requires MayGrant(s, q)
    ensures |Grant(Prepare(s, q), cfg, q, owner).claims| == |s.claims| + 1
  {
    PrepareFrame(s, q);
  }
}
