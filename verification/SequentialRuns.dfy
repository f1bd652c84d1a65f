/** Runs executed one after another on a thread, and what rolling them back restores. */
module SequentialRuns {
  import opened Wrappers
  import opened RunState
  import opened Tables
  import opened RunStore
  import opened CheckpointMutations
  import opened CoreApi
  import opened Protocol
  import opened StepCases
  import opened Kinds
  import opened Invariants
  import opened LifoRollback

  // ---- a first claim pushes the run ----

  /** The step grants the first claim of a run of the thread. */
  ghost predicate FirstClaim(s: State, step: Step, t: ThreadId) {
    && step.ClaimNext? && step.r in s.runs && s.runs[step.r].thread == Some(t)
    && step.r !in s.baselines && |Apply(s, step).claims| > |s.claims|
  }

  lemma FirstClaimGrants(s: State, step: Step, t: ThreadId)
    requires OwnershipInv(s) && FirstClaim(s, step, t)
    ensures MayGrant(s, step.r) && Apply(s, step) == Grant(Prepare(s, step.r), step.cfg, step.r, step.owner)
  {
    var k := Classify(s, step);
    assert !k.Silent? && !k.Move?;
  }

  /** The state in which the pushed run found its thread. */
  ghost predicate Under(s: State, t: ThreadId, rs: seq<RunId>, base: Snapshot) {
    t in s.threads && if rs == [] then SnapshotOf(s, t) == base else Stack(s, t, rs, base)
  }

  lemma NewBaseline(s: State, r: RunId, t: ThreadId)
    requires MayGrant(s, r) && s.runs[r].thread == Some(t) && r !in s.baselines
    ensures var s1 := Prepare(s, r);
            && s1.baselines == s.baselines[r := Baseline(t, HistoryOf(s, OfThread(t)), s.threads[t].projection, s.captures)]
            && s1.threads.Keys == s.threads.Keys && s1.runs == s.runs && s1.tables == s.tables
  {
    PrepareCaptures(s, r);
  }

  lemma PushMembers(s: State, s': State, r: RunId, t: ThreadId, rs: seq<RunId>, base: Snapshot)
    requires BaselineInv(s) && Under(s, t, rs, base) && r !in s.baselines && r in s'.runs && s'.runs[r].thread == Some(t)
    requires s'.baselines == s.baselines[r := Baseline(t, HistoryOf(s, OfThread(t)), s.threads[t].projection, s.captures)]
    requires forall q :: q in s.runs ==> q in s'.runs && s'.runs[q].thread == s.runs[q].thread
    ensures MembersOk(s', t, rs + [r])
  {
    assert r !in rs;
    forall i | 0 <= i < |rs| ensures (rs + [r])[i] == rs[i] && rs[i] in s.baselines {}
  }

  lemma PushChain(s: State, s': State, r: RunId, t: ThreadId, rs: seq<RunId>, base: Snapshot)
    requires Under(s, t, rs, base) && r !in s.baselines && MembersOk(s', t, rs + [r])
    requires s'.baselines == s.baselines[r := Baseline(t, HistoryOf(s, OfThread(t)), s.threads[t].projection, s.captures)]
    requires HistoryOf(s', OfThread(t)) == HistoryOf(s, OfThread(t))
    ensures Chained(s', t, rs + [r])
  {
    forall i | 0 <= i < |rs|
      ensures OwnChangesOnly(s'.baselines[(rs + [r])[i]].history, s'.baselines[(rs + [r])[i + 1]].history, (rs + [r])[i])
    {
      assert rs[i] in s.baselines && rs[i] != r;
      if i + 1 < |rs| {
        assert rs[i + 1] in s.baselines && rs[i + 1] != r;
      }
    }
  }

  lemma GrantSilences(s: State, r: RunId, t: ThreadId)
    requires MayGrant(s, r) && s.runs[r].thread == Some(t)
    ensures forall q :: q in s.runs && s.runs[q].thread == Some(t) ==> !Active(s.runs[q])
  {
    forall q | q in s.runs && s.runs[q].thread == Some(t)
      ensures !Active(s.runs[q])
    {
      assert !Blocking(s.runs[q], s.clock);
    }
  }

  /** What a first claim leaves for the stack to see. */
  ghost predicate Granted(s: State, s': State, r: RunId, t: ThreadId)
    requires t in s.threads
  {
    && s'.baselines == s.baselines[r := Baseline(t, HistoryOf(s, OfThread(t)), s.threads[t].projection, s.captures)]
    && t in s'.threads && HistoryOf(s', OfThread(t)) == HistoryOf(s, OfThread(t))
    && r in s'.runs && s'.runs[r].thread == Some(t)
    && (forall q :: q in s.runs ==> q in s'.runs && s'.runs[q].thread == s.runs[q].thread)
    && (forall q :: q in s'.runs && s'.runs[q].thread == Some(t) && q != r ==> !Active(s'.runs[q]))
  }

  lemma FirstClaimIsGranted(s: State, cfg: Config, r: RunId, owner: Owner, t: ThreadId)
    requires MayGrant(s, r) && s.runs[r].thread == Some(t) && r !in s.baselines
    ensures Granted(s, Grant(Prepare(s, r), cfg, r, owner), r, t)
  {
    NewBaseline(s, r, t);
    GrantSilences(s, r, t);
  }

  lemma GrantedIsPushed(s: State, s': State, r: RunId, t: ThreadId, rs: seq<RunId>, base: Snapshot)
    requires BaselineInv(s) && Under(s, t, rs, base) && r !in s.baselines && Granted(s, s', r, t)
    ensures Stack(s', t, rs + [r], base)
  {
    PushMembers(s, s', r, t, rs, base);
    PushChain(s, s', r, t, rs, base);
    assert rs != [] ==> rs[0] in s.baselines && rs[0] != r;
  }

  lemma Push(s: State, cfg: Config, r: RunId, owner: Owner, t: ThreadId, rs: seq<RunId>, base: Snapshot)
    requires BaselineInv(s) && Under(s, t, rs, base)
    requires MayGrant(s, r) && s.runs[r].thread == Some(t) && r !in s.baselines
    ensures Stack(Grant(Prepare(s, r), cfg, r, owner), t, rs + [r], base)
  {
    FirstClaimIsGranted(s, cfg, r, owner, t);
    GrantedIsPushed(s, Grant(Prepare(s, r), cfg, r, owner), r, t, rs, base);
  }

  // ---- runs executed one after another ----

  ghost function Pushed(s: State, step: Step, t: ThreadId, rs: seq<RunId>): seq<RunId> {
    if FirstClaim(s, step, t) then rs + [step.r] else rs
  }

  /** The runs that have been started on the thread, oldest first. */
  ghost function Started(s: State, steps: seq<Step>, t: ThreadId, rs: seq<RunId>): seq<RunId>
    decreases |steps|
  {
    if steps == [] then rs
    else Started(Apply(s, steps[0]), steps[1..], t, Pushed(s, steps[0], t, rs))
  }

  /** Each step starts another run, or is no claim of an older one, no manual state update and no
      pruning of the thread, and leaves the newest run in place. Retries of the newest run, its
      writes, cancellations, lease steps and everything on other threads are free. */
  ghost predicate Sequential(s: State, steps: seq<Step>, t: ThreadId, rs: seq<RunId>)
    requires rs != []
    decreases |steps|
  {
    steps != [] ==>
      var s1 := Apply(s, steps[0]);
      && (FirstClaim(s, steps[0], t) || (!Disturbs(s, steps[0], t, Last(rs)) && Last(rs) in s1.runs))
      && Sequential(s1, steps[1..], t, Pushed(s, steps[0], t, rs))
  }

  lemma SequentialStep(s: State, step: Step, t: ThreadId, rs: seq<RunId>, base: Snapshot)
    requires CoreInv(s) && Stack(s, t, rs, base)
    requires FirstClaim(s, step, t) || (!Disturbs(s, step, t, Last(rs)) && Last(rs) in Apply(s, step).runs)
    ensures Stack(Apply(s, step), t, Pushed(s, step, t, rs), base)
  {
    if FirstClaim(s, step, t) {
      FirstClaimGrants(s, step, t);
      Push(s, step.cfg, step.r, step.owner, t, rs, base);
    } else {
      StackStep(s, step, t, rs, base);
    }
  }

  lemma {:induction false} SequentialKeepsStack(s: State, steps: seq<Step>, t: ThreadId, rs: seq<RunId>, base: Snapshot)
    requires CoreInv(s) && Stack(s, t, rs, base) && Sequential(s, steps, t, rs)
    ensures Stack(Exec(s, steps), t, Started(s, steps, t, rs), base)
    decreases |steps|
  {
    if steps != [] {
      CoreStep(s, steps[0]);
      SequentialStep(s, steps[0], t, rs, base);
      SequentialKeepsStack(Apply(s, steps[0]), steps[1..], t, Pushed(s, steps[0], t, rs), base);
    }
  }

  /** The history starts with a first claim on the thread and stays sequential. */
  ghost predicate SequentialFrom(s: State, steps: seq<Step>, t: ThreadId) {
    && steps != [] && t in s.threads && FirstClaim(s, steps[0], t)
    && Sequential(Apply(s, steps[0]), steps[1..], t, [steps[0].r])
  }

  ghost function StartedFrom(s: State, steps: seq<Step>, t: ThreadId): seq<RunId>
    requires SequentialFrom(s, steps, t)
  {
    Started(Apply(s, steps[0]), steps[1..], t, [steps[0].r])
  }

  lemma SequentialRunsStack(s: State, steps: seq<Step>, t: ThreadId)
    requires CoreInv(s) && SequentialFrom(s, steps, t)
    ensures Stack(Exec(s, steps), t, StartedFrom(s, steps, t), SnapshotOf(s, t))
    ensures CoreInv(Exec(s, steps))
  {
    var step := steps[0];
    FirstClaimGrants(s, step, t);
    Push(s, step.cfg, step.r, step.owner, t, [], SnapshotOf(s, t));
    CoreStep(s, step);
    CoreAlways(s, steps);
    assert [] + [step.r] == [step.r];
    SequentialKeepsStack(Apply(s, step), steps[1..], t, [step.r], SnapshotOf(s, t));
  }

  // ---- exactness across retries ----

  /** If nobody else was started on the thread since the first claim of run `r`, then after any cycles of failing,
      requeueing, reaping, re-claiming and writing, its rollback is accepted and restores checkpoints, pending
      writes and the thread projection as they were at that first claim, without touching event cursors. */
  lemma RollbackIsExact(s: State, steps: seq<Step>, t: ThreadId)
    requires CoreInv(s) && SequentialFrom(s, steps, t) && StartedFrom(s, steps, t) == [steps[0].r]
    ensures var s1, r := Exec(s, steps), steps[0].r;
            RollbackRun(s1, r).Commit? &&
            var s2 := RollbackRun(s1, r).db;
            && t in s1.threads && t in s2.threads && SnapshotOf(s2, t) == SnapshotOf(s, t)
            && s2.runs == s1.runs - {r} && s2.baselines == s1.baselines - {r}
            && s2.threads[t].eventSeq == s1.threads[t].eventSeq
  {
    SequentialRunsStack(s, steps, t);
    var s1, r := Exec(s, steps), steps[0].r;
    TopMayRollback(s1, t, [r], SnapshotOf(s, t));
    var s2 := RollbackRun(s1, r).db;
    Pop(s1, t, [r], SnapshotOf(s, t), s2);
    DeletionFrame(s1, r, s2);
  }

  // ---- newest first across many runs ----

  /** Nobody is executing, and the thread is as it was or the runs `rs` are on top of that. */
  ghost predicate Resting(s: State, t: ThreadId, rs: seq<RunId>, base: Snapshot) {
    && Under(s, t, rs, base)
    && forall q :: q in s.runs && s.runs[q].thread == Some(t) ==> !Active(s.runs[q])
  }

  /** A run without a baseline that the rollback accepts: it was never claimed. */
  predicate Unclaimed(run: Run) {
    run.retryCount == 0 && run.status in {Pending, Interrupted}
  }

  /** The order of the query: runs without a baseline first, then the newest capture first. */
  ghost predicate NewestFirst(s: State, order: seq<RunId>) {
    && Distinct(order)
    && forall i, j :: 0 <= i < j < |order| && order[i] in s.baselines ==>
         order[j] in s.baselines && s.baselines[order[i]].capturedAt >= s.baselines[order[j]].capturedAt
  }

  /** The runs on top of one thread, and what lies below them. */
  datatype Pile = Pile(runs: seq<RunId>, base: Snapshot)

  ghost predicate AllResting(s: State, piles: map<ThreadId, Pile>) {
    forall t :: t in piles ==> Resting(s, t, piles[t].runs, piles[t].base)
  }

  /** A listed run is at rest; if it has a thread, that is one of the piles, and the run is in it or was never claimed. */
  ghost predicate ListedRun(s: State, piles: map<ThreadId, Pile>, q: RunId) {
    && q in s.runs && s.runs[q].leaseOwner.None?
    && (s.runs[q].thread.Some? ==>
          && s.runs[q].thread.value in piles
          && (if q in s.baselines then q in piles[s.runs[q].thread.value].runs else Unclaimed(s.runs[q])))
  }

  /** The request lists all runs of the piles, of any number of threads, and possibly some that were never claimed. */
  ghost predicate Listed(s: State, piles: map<ThreadId, Pile>, order: seq<RunId>) {
    && (forall q :: q in order ==> ListedRun(s, piles, q))
    && (forall t, q :: t in piles && q in piles[t].runs ==> q in order)
  }

  lemma UnclaimedMayRollback(s: State, t: ThreadId, rs: seq<RunId>, base: Snapshot, q: RunId)
    requires Resting(s, t, rs, base) && q in s.runs && s.runs[q].thread == Some(t)
    requires q !in s.baselines && Unclaimed(s.runs[q])
    ensures MayRollback(s, q)
  {
  }

  lemma UnclaimedGoes(s: State, t: ThreadId, rs: seq<RunId>, base: Snapshot, q: RunId, s': State)
    requires BaselineInv(s) && Resting(s, t, rs, base) && q in s.runs && q !in s.baselines
    requires RollbackRun(s, q) == Commit(s')
    ensures Resting(s', t, rs, base)
  {
    DeletionFrame(s, q, s');
    if rs == [] {
      assert SnapshotOf(s', t) == SnapshotOf(s, t);
    } else {
      assert Last(rs) in s.baselines;
      StackDelete(s, s', q, t, rs, base);
    }
  }

  lemma TopGoes(s: State, t: ThreadId, rs: seq<RunId>, base: Snapshot, s': State)
    requires Resting(s, t, rs, base) && rs != [] && RollbackRun(s, Last(rs)) == Commit(s')
    ensures Resting(s', t, Below(rs), base)
  {
    DeletionFrame(s, Last(rs), s');
    Pop(s, t, rs, base, s');
  }

  /** A rollback leaves what rests on other threads. */
  lemma RestsElsewhere(s: State, q: RunId, s': State, u: ThreadId, rs: seq<RunId>, base: Snapshot)
    requires BaselineInv(s) && Resting(s, u, rs, base) && q in s.runs && s.runs[q].thread != Some(u)
    requires RollbackRun(s, q) == Commit(s')
    ensures Resting(s', u, rs, base)
  {
    DeletionFrame(s, q, s');
    DeletionTables(s, q, s', OfThread(u));
    ProjectionElsewhere(s, q, s', u);
    if rs != [] {
      StackDelete(s, s', q, u, rs, base);
    }
  }

  lemma ProjectionElsewhere(s: State, q: RunId, s': State, u: ThreadId)
    requires RollbackRun(s, q) == Commit(s') && u in s.threads && (q in s.baselines ==> s.baselines[q].thread != u)
    ensures u in s'.threads && s'.threads[u] == s.threads[u]
  {
  }

  /** The first listed run with a baseline is the newest one of its thread. */
  lemma FirstIsTop(s: State, t: ThreadId, rs: seq<RunId>, base: Snapshot, order: seq<RunId>)
    requires Under(s, t, rs, base) && NewestFirst(s, order) && order != [] && order[0] in rs && Last(rs) in order
    ensures order[0] == Last(rs)
  {
    assert order[0] in s.baselines && s.baselines[order[0]].thread == t;
    var j :| 0 <= j < |order| && order[j] == Last(rs);
    if j > 0 && order[0] != Last(rs) {
      CapturedBeforeLast(s, t, rs, base, order[0]);
    }
  }

  lemma BelowMembers(s: State, t: ThreadId, rs: seq<RunId>, base: Snapshot)
    requires rs != [] && Stack(s, t, rs, base)
    ensures forall q :: q in Below(rs) <==> q in rs && q != Last(rs)
  {
    if |rs| > 1 { BelowIndices(s, t, rs, base); }
  }

  lemma MemberHasBaseline(s: State, t: ThreadId, rs: seq<RunId>, base: Snapshot, q: RunId)
    requires Under(s, t, rs, base) && q in rs
    ensures q in s.baselines && q in s.runs && s.runs[q].thread == Some(t) && s.baselines[q].thread == t
  {
  }

  /** The piles without run `q`, which is on top of its thread's pile or in none. */
  ghost function Without(s: State, piles: map<ThreadId, Pile>, q: RunId): map<ThreadId, Pile>
    requires q in s.runs
  {
    map t | t in piles ::
      if q in s.baselines && s.runs[q].thread == Some(t) && piles[t].runs != [] then Pile(Below(piles[t].runs), piles[t].base)
      else piles[t]
  }

  /** The first listed run is accepted. */
  lemma FirstIsAccepted(s: State, piles: map<ThreadId, Pile>, order: seq<RunId>)
    requires AllResting(s, piles) && Listed(s, piles, order) && NewestFirst(s, order) && order != []
    ensures order[0] in s.runs && MayRollback(s, order[0]) && RequestRollback(s, order[0]) == RollbackRun(s, order[0])
    ensures RollbackRun(s, order[0]).Commit?
    ensures order[0] in s.baselines && s.runs[order[0]].thread.Some? ==>
              && s.runs[order[0]].thread.value in piles
              && var pile := piles[s.runs[order[0]].thread.value]; pile.runs != [] && order[0] == Last(pile.runs)
  {
    var q := order[0];
    assert ListedRun(s, piles, q);
    match s.runs[q].thread {
      case None =>
      case Some(t) =>
        var pile := piles[t];
        assert Resting(s, t, pile.runs, pile.base);
        if q in s.baselines {
          assert Last(pile.runs) in pile.runs;
          FirstIsTop(s, t, pile.runs, pile.base, order);
          TopMayRollback(s, t, pile.runs, pile.base);
        } else {
          UnclaimedMayRollback(s, t, pile.runs, pile.base, q);
        }
    }
  }

  lemma PileAfter(s: State, piles: map<ThreadId, Pile>, q: RunId, s': State, t: ThreadId)
    requires BaselineInv(s) && AllResting(s, piles) && t in piles && q in s.runs && RollbackRun(s, q) == Commit(s')
    requires q in s.baselines && s.runs[q].thread == Some(t) ==> piles[t].runs != [] && q == Last(piles[t].runs)
    ensures Resting(s', t, Without(s, piles, q)[t].runs, Without(s, piles, q)[t].base)
  {
    assert Resting(s, t, piles[t].runs, piles[t].base);
    if s.runs[q].thread != Some(t) {
      RestsElsewhere(s, q, s', t, piles[t].runs, piles[t].base);
    } else if q in s.baselines {
      TopGoes(s, t, piles[t].runs, piles[t].base, s');
    } else {
      UnclaimedGoes(s, t, piles[t].runs, piles[t].base, q, s');
    }
  }

  /** Who is left in the piles. */
  lemma MembersAfter(s: State, piles: map<ThreadId, Pile>, q: RunId, t: ThreadId, x: RunId)
    requires BaselineInv(s) && AllResting(s, piles) && t in piles && q in s.runs
    requires q in s.baselines && s.runs[q].thread == Some(t) ==> piles[t].runs != [] && q == Last(piles[t].runs)
    ensures x in Without(s, piles, q)[t].runs <==> x in piles[t].runs && x != q
  {
    assert Resting(s, t, piles[t].runs, piles[t].base);
    if q in s.baselines && s.runs[q].thread == Some(t) {
      BelowMembers(s, t, piles[t].runs, piles[t].base);
    } else if q in piles[t].runs {
      MemberHasBaseline(s, t, piles[t].runs, piles[t].base, q);
    }
  }

  lemma TailMembers(order: seq<RunId>)
    requires Distinct(order) && order != []
    ensures forall q :: q in order[1..] <==> q in order && q != order[0]
  {
    forall q | q in order && q != order[0] ensures q in order[1..] {
      var i :| 0 <= i < |order| && order[i] == q;
      assert order[1..][i - 1] == q;
    }
    forall q | q in order[1..] ensures q != order[0] {
      var i :| 0 <= i < |order[1..]| && order[1..][i] == q;
      assert order[i + 1] == q;
    }
  }

  lemma RestIsListed(s: State, piles: map<ThreadId, Pile>, order: seq<RunId>, s': State)
    requires BaselineInv(s) && AllResting(s, piles) && Listed(s, piles, order) && NewestFirst(s, order) && order != []
    requires order[0] in s.runs && s'.runs == s.runs - {order[0]} && s'.baselines == s.baselines - {order[0]}
    requires forall t :: t in piles && order[0] in s.baselines && s.runs[order[0]].thread == Some(t) ==>
               piles[t].runs != [] && order[0] == Last(piles[t].runs)
    ensures Listed(s', Without(s, piles, order[0]), order[1..])
  {
    TailMembers(order);
    forall t, x | t in piles
      ensures x in Without(s, piles, order[0])[t].runs <==> x in piles[t].runs && x != order[0]
    {
      MembersAfter(s, piles, order[0], t, x);
    }
    forall q | q in order[1..]
      ensures ListedRun(s', Without(s, piles, order[0]), q)
    {
      assert ListedRun(s, piles, q);
    }
  }

  lemma RestIsNewestFirst(s: State, order: seq<RunId>, s': State)
    requires NewestFirst(s, order) && order != [] && s'.baselines == s.baselines - {order[0]}
    ensures NewestFirst(s', order[1..])
  {
    assert forall i :: 0 <= i < |order[1..]| ==> order[1..][i] == order[i + 1];
  }

  lemma FirstRolledBack(s: State, piles: map<ThreadId, Pile>, order: seq<RunId>) returns (s1: State)
    requires BaselineInv(s) && AllResting(s, piles) && Listed(s, piles, order) && NewestFirst(s, order) && order != []
    ensures order[0] in s.runs && RequestRollback(s, order[0]) == Commit(s1) && order[0] !in s1.runs
    ensures AllResting(s1, Without(s, piles, order[0])) && Listed(s1, Without(s, piles, order[0]), order[1..])
    ensures NewestFirst(s1, order[1..])
  {
    FirstIsAccepted(s, piles, order);
    s1 := RollbackRun(s, order[0]).db;
    DeletionFrame(s, order[0], s1);
    forall t | t in piles
      ensures Resting(s1, t, Without(s, piles, order[0])[t].runs, Without(s, piles, order[0])[t].base)
    {
      PileAfter(s, piles, order[0], s1, t);
    }
    RestIsListed(s, piles, order, s1);
    RestIsNewestFirst(s, order, s1);
  }

  lemma RequestKeepsCore(s: State, q: RunId, s1: State)
    requires CoreInv(s) && RequestRollback(s, q) == Commit(s1)
    ensures CoreInv(s1)
  {
    RequestIsStep(s, q, s1);
    CoreStep(s, RollBack(q));
  }

  lemma {:induction false} RollbackManyKeepsGone(s: State, order: seq<RunId>, q: RunId)
    requires q !in s.runs && RollbackMany(s, order).Commit?
    ensures q !in RollbackMany(s, order).db.runs
    decreases |order|
  {
    if order != [] {
      var s1 := RequestRollback(s, order[0]).db;
      RequestAddsNone(s, order[0], s1);
      RollbackManyKeepsGone(s1, order[1..], q);
    }
  }

  lemma RequestAddsNone(s: State, r: RunId, s1: State)
    requires RequestRollback(s, r) == Commit(s1)
    ensures s1.runs.Keys <= s.runs.Keys
  {
    if r in s.runs && s.runs[r].leaseOwner.None? { DeletionFrame(s, r, s1); }
  }

  /** The rollbacks succeed and leave every thread of the piles as it was below its runs. */
  ghost predicate Undoes(s: State, piles: map<ThreadId, Pile>, order: seq<RunId>) {
    && RollbackMany(s, order).Commit?
    && var s' := RollbackMany(s, order).db;
    && (forall t :: t in piles ==> t in s'.threads && SnapshotOf(s', t) == piles[t].base)
    && (forall q :: q in order ==> q !in s'.runs)
  }

  lemma ListedIsMore(s: State, piles: map<ThreadId, Pile>, order: seq<RunId>, t: ThreadId)
    requires Listed(s, piles, order) && t in piles
    ensures piles[t].runs != [] ==> order != []
  {
    if piles[t].runs != [] {
      var q := piles[t].runs[0];
      assert q in piles[t].runs;
      assert q in order;
      var j :| 0 <= j < |order| && order[j] == q;
    }
  }

  /** Rolling back resting runs of any number of threads in the order of the query succeeds at every step and ends in
      exactly the checkpoints, writes and projection that each thread had before its oldest run. */
  lemma {:induction false} NewestFirstRestores(s: State, piles: map<ThreadId, Pile>, order: seq<RunId>)
    requires CoreInv(s) && AllResting(s, piles) && Listed(s, piles, order) && NewestFirst(s, order)
    ensures Undoes(s, piles, order)
    decreases |order|
  {
    if order == [] {
      forall t | t in piles
        ensures t in s.threads && SnapshotOf(s, t) == piles[t].base
      {
        ListedIsMore(s, piles, order, t);
        assert Resting(s, t, piles[t].runs, piles[t].base);
      }
    } else {
      var s1 := FirstRolledBack(s, piles, order);
      RequestKeepsCore(s, order[0], s1);
      NewestFirstRestores(s1, Without(s, piles, order[0]), order[1..]);
      RollbackManyKeepsGone(s1, order[1..], order[0]);
      UndoneByRest(s, piles, order, s1);
    }
  }

  lemma UndoneByRest(s: State, piles: map<ThreadId, Pile>, order: seq<RunId>, s1: State)
    requires order != [] && order[0] in s.runs && RequestRollback(s, order[0]) == Commit(s1)
    requires Undoes(s1, Without(s, piles, order[0]), order[1..])
    requires order[0] !in RollbackMany(s1, order[1..]).db.runs
    ensures Undoes(s, piles, order)
  {
    assert RollbackMany(s, order) == RollbackMany(s1, order[1..]);
    var s' := RollbackMany(s, order).db;
    forall t | t in piles
      ensures t in s'.threads && SnapshotOf(s', t) == piles[t].base
    {
      assert Without(s, piles, order[0])[t].base == piles[t].base;
    }
    forall q | q in order
      ensures q !in s'.runs
    {
      if q != order[0] {
        var i :| 0 <= i < |order| && order[i] == q;
        assert order[1..][i - 1] == q;
      }
    }
  }

  // ---- the whole story ----

  /** The history from point `i` on is sequential on thread `t`. */
  ghost predicate SequentialSince(s: State, steps: seq<Step>, i: nat, t: ThreadId) {
    i <= |steps| && SequentialFrom(Exec(s, steps[..i]), steps[i..], t)
  }

  /** What was started on the thread since point `i`, on top of what the thread was then. */
  ghost function PileSince(s: State, steps: seq<Step>, i: nat, t: ThreadId): Pile
    requires SequentialSince(s, steps, i, t)
  {
    Pile(StartedFrom(Exec(s, steps[..i]), steps[i..], t), SnapshotOf(Exec(s, steps[..i]), t))
  }

  ghost function PilesSince(s: State, steps: seq<Step>, from: map<ThreadId, nat>): map<ThreadId, Pile>
    requires forall t :: t in from ==> SequentialSince(s, steps, from[t], t)
  {
    map t | t in from :: PileSince(s, steps, from[t], t)
  }

  lemma ExecInTwo(s: State, steps: seq<Step>, i: nat)
    requires i <= |steps|
    ensures Exec(Exec(s, steps[..i]), steps[i..]) == Exec(s, steps)
  {
    ExecConcat(s, steps[..i], steps[i..]);
    assert steps[..i] + steps[i..] == steps;
  }

  lemma PileStacks(s: State, steps: seq<Step>, i: nat, t: ThreadId)
    requires CoreInv(s) && SequentialSince(s, steps, i, t)
    ensures Stack(Exec(s, steps), t, PileSince(s, steps, i, t).runs, PileSince(s, steps, i, t).base)
  {
    ExecInTwo(s, steps, i);
    CoreAlways(s, steps[..i]);
    SequentialRunsStack(Exec(s, steps[..i]), steps[i..], t);
  }

  /** Of the runs of a pile only the newest may be rolled back. */
  ghost predicate NewestOnly(s: State, pile: Pile) {
    forall q :: q in pile.runs && q != Last(pile.runs) ==> RequestRollback(s, q) == Abort(CheckpointConflict)
  }

  ghost predicate NewestOnlyEach(s: State, piles: map<ThreadId, Pile>) {
    forall t :: t in piles ==> NewestOnly(s, piles[t])
  }

  lemma StackNewestOnly(s: State, t: ThreadId, pile: Pile)
    requires BaselineInv(s) && Stack(s, t, pile.runs, pile.base)
    ensures NewestOnly(s, pile)
  {
    forall q | q in pile.runs && q != Last(pile.runs)
      ensures RequestRollback(s, q) == Abort(CheckpointConflict)
    {
      MemberHasBaseline(s, t, pile.runs, pile.base, q);
      OthersMayNot(s, t, pile.runs, pile.base, q);
    }
  }

  lemma TopRests(s: State, t: ThreadId, rs: seq<RunId>, base: Snapshot)
    requires OwnershipInv(s) && Stack(s, t, rs, base) && s.runs[Last(rs)].leaseOwner.None?
    ensures Resting(s, t, rs, base)
  {
    assert RunOk(s.runs[Last(rs)], LeaseOf(s, Last(rs)));
  }

  lemma ListedRests(s: State, piles: map<ThreadId, Pile>, order: seq<RunId>, t: ThreadId)
    requires OwnershipInv(s) && Listed(s, piles, order) && t in piles && Stack(s, t, piles[t].runs, piles[t].base)
    ensures Resting(s, t, piles[t].runs, piles[t].base)
  {
    var newest := Last(piles[t].runs);
    assert newest in piles[t].runs;
    assert ListedRun(s, piles, newest);
    TopRests(s, t, piles[t].runs, piles[t].base);
  }

  lemma PileRests(s: State, steps: seq<Step>, from: map<ThreadId, nat>, order: seq<RunId>, t: ThreadId)
    requires CoreInv(s) && (forall u :: u in from ==> SequentialSince(s, steps, from[u], u)) && t in from
    requires Listed(Exec(s, steps), PilesSince(s, steps, from), order)
    ensures var pile := PileSince(s, steps, from[t], t); Resting(Exec(s, steps), t, pile.runs, pile.base)
  {
    PileStacks(s, steps, from[t], t);
    CoreAlways(s, steps);
    ListedRests(Exec(s, steps), PilesSince(s, steps, from), order, t);
  }

  /** Whatever runs were executed one after another on any number of threads, each thread since a point of its own, and are
      all at rest now: one `runs_cancel_many` undoes them exactly, and rolling back any of them but the newest of its
      thread first is refused. */
  lemma LifoRollbackIsExact(s: State, steps: seq<Step>, from: map<ThreadId, nat>, order: seq<RunId>)
    requires CoreInv(s) && forall t :: t in from ==> SequentialSince(s, steps, from[t], t)
    requires Listed(Exec(s, steps), PilesSince(s, steps, from), order) && NewestFirst(Exec(s, steps), order)
    ensures Undoes(Exec(s, steps), PilesSince(s, steps, from), order)
    ensures NewestOnlyEach(Exec(s, steps), PilesSince(s, steps, from))
  {
    CoreAlways(s, steps);
    forall t | t in from
      ensures var pile := PileSince(s, steps, from[t], t);
              Resting(Exec(s, steps), t, pile.runs, pile.base) && NewestOnly(Exec(s, steps), pile)
    {
      PileRests(s, steps, from, order, t);
      PileStacks(s, steps, from[t], t);
      StackNewestOnly(Exec(s, steps), t, PileSince(s, steps, from[t], t));
    }
    NewestFirstRestores(Exec(s, steps), PilesSince(s, steps, from), order);
  }
}
