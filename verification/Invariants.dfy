/** The protocol invariant, and that every step of every history keeps it. */
module Invariants {
  import opened Wrappers
  import opened RunState
  import opened Tables
  import opened EventLog
  import opened RunStore
  import opened CheckpointMutations
  import opened CoreApi
  import opened Protocol
  import opened StepCases
  import opened Kinds

  /** A thread has at most one run that is executing or waiting for its rollback. */
  ghost predicate ActiveInv(s: State) {
    forall a, b :: a in s.runs && b in s.runs && a != b && s.runs[a].thread.Some? && s.runs[b].thread == s.runs[a].thread ==>
      !(Active(s.runs[a]) && Active(s.runs[b]))
  }

  /** Baselines belong to claimed runs of their thread and have distinct capture times. */
  ghost predicate BaselineInv(s: State) {
    && (forall q :: q in s.baselines ==>
          && q in s.runs && s.runs[q].thread == Some(s.baselines[q].thread) && s.runs[q].retryCount >= 1
          && s.baselines[q].thread in s.threads && s.baselines[q].capturedAt < s.captures)
    && (forall p, q :: p in s.baselines && q in s.baselines && p != q ==>
          s.baselines[p].capturedAt != s.baselines[q].capturedAt)
  }

  /** Queue positions are distinct within a thread. */
  ghost predicate QueueInv(s: State) {
    forall a, b :: a in s.runs && b in s.runs && a != b && s.runs[a].thread == s.runs[b].thread ==>
      s.runs[a].queuePosition != s.runs[b].queuePosition
  }

  /** Claim epochs are unique, and a running run holds the newest claim of its resource. */
  ghost predicate ClaimInv(s: State) {
    && (forall i :: 0 <= i < |s.claims| ==>
          && s.claims[i].run in s.issued
          && (s.claims[i].run in s.runs ==>
                && s.claims[i].generation <= s.runs[s.claims[i].run].retryCount
                && s.claims[i].resource == ResourceOf(s.claims[i].run, s.runs[s.claims[i].run])))
    && (forall i, j :: 0 <= i < j < |s.claims| && s.claims[i].run == s.claims[j].run ==>
          s.claims[i].generation < s.claims[j].generation)
    && (forall r :: r in s.runs && s.runs[r].status == Running ==> HoldsNewestClaim(s, r))
  }

  ghost predicate HoldsNewestClaim(s: State, r: RunId)
    requires r in s.runs
  {
    var k := LastClaim(s.claims, ResourceOf(r, s.runs[r]));
    0 <= k < |s.claims| && s.claims[k] == Claim(ResourceOf(r, s.runs[r]), r, s.runs[r].retryCount)
  }

  /** Accepted worker writes carry a recorded epoch and never go back to an older one. */
  ghost predicate AcceptedInv(s: State) {
    && (forall j :: 0 <= j < |s.accepted| ==>
          var a := s.accepted[j];
          0 <= a.claim < |s.claims| && s.claims[a.claim] == Claim(a.resource, a.run, a.generation))
    && (forall i, j :: 0 <= i < j < |s.accepted| && s.accepted[i].resource == s.accepted[j].resource ==>
          s.accepted[i].claim <= s.accepted[j].claim)
  }

  ghost predicate CoreInv(s: State) {
    OwnershipInv(s) && ActiveInv(s) && BaselineInv(s) && QueueInv(s) && ClaimInv(s) && AcceptedInv(s)
  }

  // ---- the newest claim ----

  lemma {:induction false} LastClaimBounds(claims: seq<Claim>, at: Resource)
    ensures -1 <= LastClaim(claims, at) < |claims|
    ensures LastClaim(claims, at) >= 0 ==> claims[LastClaim(claims, at)].resource == at
    ensures forall i :: 0 <= i < |claims| && claims[i].resource == at ==> i <= LastClaim(claims, at)
    decreases |claims|
  {
    if claims != [] && claims[|claims| - 1].resource != at {
      LastClaimBounds(claims[..|claims| - 1], at);
      forall i | 0 <= i < |claims| && claims[i].resource == at
        ensures i <= LastClaim(claims, at)
      {
        assert claims[..|claims| - 1][i] == claims[i];
      }
    }
  }

  lemma LastClaimAppend(claims: seq<Claim>, c: Claim, at: Resource)
    ensures LastClaim(claims + [c], at) == if c.resource == at then |claims| else LastClaim(claims, at)
  {
    assert (claims + [c])[..|claims|] == claims;
  }

  // ---- ownership ----

  lemma OwnershipStep(s: State, s': State, k: Kind)
    requires OwnershipInv(s) && IsKind(s, s', k)
    ensures OwnershipInv(s')
  {
    match k {
      case Silent => OwnershipQuiet(s, s');
      case Move(r) => OwnershipMove(s, s', r);
      case Granting(cfg, r, owner) => OwnershipGrant(s, cfg, r, owner);
      case Creation(cfg, r, sub) => OwnershipCreate(s, cfg, r, sub);
      case Deletion(r) => OwnershipDelete(s, s', r);
      case QueueEdited(t, expected, requested) => OwnershipReorder(s, expected, requested, t);
      case _ =>
        TableKinds(s, s', k);
        OwnershipTables(s, s');
    }
  }

  lemma OwnershipQuiet(s: State, s': State)
    requires OwnershipInv(s) && Quiet(s, s')
    ensures OwnershipInv(s')
  {
    forall q | q in s'.runs
      ensures RunOk(s'.runs[q], LeaseOf(s', q))
    {
      assert RunOk(s.runs[q], LeaseOf(s, q)) && SameLife(s.runs[q], s'.runs[q]);
    }
  }

  lemma OwnershipMove(s: State, s': State, r: RunId)
    requires OwnershipInv(s) && Moved(s, s', r)
    ensures OwnershipInv(s')
  {
    forall q | q in s'.runs
      ensures RunOk(s'.runs[q], LeaseOf(s', q))
    {
      assert RunOk(s.runs[q], LeaseOf(s, q));
    }
    forall q | q in s'.leases
      ensures q in s'.runs
    {
      assert LeaseOf(s', q).Some?;
    }
  }

  lemma OwnershipGrant(s: State, cfg: Config, r: RunId, owner: Owner)
    requires OwnershipInv(s) && MayGrant(s, r)
    ensures OwnershipInv(Grant(Prepare(s, r), cfg, r, owner))
  {
    PrepareFrame(s, r);
    var s' := Grant(Prepare(s, r), cfg, r, owner);
    forall q | q in s'.runs
      ensures RunOk(s'.runs[q], LeaseOf(s', q))
    {
      assert RunOk(s.runs[q], LeaseOf(s, q));
    }
  }

  lemma OwnershipTables(s: State, s': State)
    requires OwnershipInv(s) && OnlyTables(s, s')
    ensures OwnershipInv(s')
  {
    forall q | q in s'.runs
      ensures RunOk(s'.runs[q], LeaseOf(s', q))
    {
      assert RunOk(s.runs[q], LeaseOf(s, q));
    }
  }

  lemma OwnershipCreate(s: State, cfg: Config, r: RunId, sub: Submission)
    requires OwnershipInv(s) && r !in s.issued
    ensures OwnershipInv(SetRun(s, r, NewRun(s, cfg, sub)).(issued := s.issued + {r}))
  {
    var s' := SetRun(s, r, NewRun(s, cfg, sub)).(issued := s.issued + {r});
    forall q | q in s'.runs
      ensures RunOk(s'.runs[q], LeaseOf(s', q))
    {
      if q != r { assert RunOk(s.runs[q], LeaseOf(s, q)); }
    }
  }

  lemma OwnershipDelete(s: State, s': State, r: RunId)
    requires OwnershipInv(s) && RollbackRun(s, r) == Commit(s')
    ensures OwnershipInv(s')
  {
    DeletionFrame(s, r, s');
    forall q | q in s'.runs
      ensures RunOk(s'.runs[q], LeaseOf(s', q))
    {
      assert RunOk(s.runs[q], LeaseOf(s, q));
    }
  }

  lemma OwnershipReorder(s: State, expected: seq<RunId>, requested: seq<RunId>, t: ThreadId)
    requires OwnershipInv(s) && Permutes(requested, expected) && IsQueue(s, t, expected)
    ensures OwnershipInv(s.(runs := Reordered(s.runs, expected, requested)))
  {
    var s' := s.(runs := Reordered(s.runs, expected, requested));
    forall q | q in s'.runs
      ensures RunOk(s'.runs[q], LeaseOf(s', q))
    {
      assert RunOk(s.runs[q], LeaseOf(s, q));
      if q in requested {
        var p := expected[IndexOf(requested, q)];
        assert RunOk(s.runs[p], LeaseOf(s, p));
      }
    }
  }

  // ---- at most one active run ----

  /** No run appeared or became active. */
  lemma ActiveFrame(s: State, s': State)
    requires ActiveInv(s)
    requires forall q :: q in s'.runs ==>
      q in s.runs && s'.runs[q].thread == s.runs[q].thread && (Active(s'.runs[q]) ==> Active(s.runs[q]))
    ensures ActiveInv(s')
  {
  }

  lemma ActiveStep(s: State, s': State, k: Kind)
    requires OwnershipInv(s) && ActiveInv(s) && IsKind(s, s', k)
    ensures ActiveInv(s')
  {
    match k {
      case Silent =>
        forall q | q in s'.runs ensures SameLife(s.runs[q], s'.runs[q]) {}
        ActiveFrame(s, s');
      case Move(r) => ActiveMove(s, s', r);
      case Granting(cfg, r, owner) => ActiveGrant(s, cfg, r, owner);
      case Creation(cfg, r, sub) => ActiveCreate(s, cfg, r, sub);
      case Deletion(r) =>
        DeletionFrame(s, r, s');
        ActiveFrame(s, s');
      case QueueEdited(t, expected, requested) => ActiveFrame(s, s');
      case _ =>
        TableKinds(s, s', k);
        ActiveFrame(s, s');
    }
  }

  lemma ActiveCreate(s: State, cfg: Config, r: RunId, sub: Submission)
    requires OwnershipInv(s) && ActiveInv(s) && r !in s.issued
    ensures ActiveInv(SetRun(s, r, NewRun(s, cfg, sub)).(issued := s.issued + {r}))
  {
  }

  lemma ActiveGrant(s: State, cfg: Config, r: RunId, owner: Owner)
    requires ActiveInv(s) && MayGrant(s, r)
    ensures ActiveInv(Grant(Prepare(s, r), cfg, r, owner))
  {
    PrepareFrame(s, r);
    forall q | q in s.runs && s.runs[r].thread.Some? && s.runs[q].thread == s.runs[r].thread
      ensures !Active(s.runs[q])
    {
      assert !Blocking(s.runs[q], s.clock);
    }
  }

  lemma ActiveMove(s: State, s': State, r: RunId)
    requires ActiveInv(s) && Moved(s, s', r)
    ensures ActiveInv(s')
  {
    forall a, b | a in s'.runs && b in s'.runs && a != b && s'.runs[a].thread.Some?
                  && s'.runs[b].thread == s'.runs[a].thread && Active(s'.runs[a]) && Active(s'.runs[b])
      ensures false
    {
    }
  }

  // ---- baselines ----

  /** No baseline appeared or changed, and each one's run is still there. */
  lemma BaselineFrame(s: State, s': State)
    requires BaselineInv(s) && s'.captures == s.captures && SameThreadKeys(s, s')
    requires forall q :: q in s'.baselines ==> q in s.baselines && s'.baselines[q] == s.baselines[q] && q in s'.runs
    requires forall q :: q in s'.runs && q in s.runs ==>
      s'.runs[q].thread == s.runs[q].thread && s'.runs[q].retryCount == s.runs[q].retryCount
    ensures BaselineInv(s')
  {
  }

  lemma BaselineStep(s: State, s': State, k: Kind)
    requires OwnershipInv(s) && BaselineInv(s) && IsKind(s, s', k)
    ensures BaselineInv(s')
  {
    match k {
      case Silent => BaselineQuiet(s, s');
      case Move(r) => BaselineFrame(s, s');
      case Granting(cfg, r, owner) => BaselineGrant(s, cfg, r, owner);
      case Creation(cfg, r, sub) => BaselineCreate(s, cfg, r, sub);
      case Deletion(r) => BaselineDelete(s, s', r);
      case QueueEdited(t, expected, requested) => BaselineReorder(s, s', t, expected, requested);
      case _ => BaselineTables(s, s', k);
    }
  }

  lemma BaselineDelete(s: State, s': State, r: RunId)
    requires OwnershipInv(s) && BaselineInv(s) && RollbackRun(s, r) == Commit(s')
    ensures BaselineInv(s')
  {
    DeletionFrame(s, r, s');
    BaselineFrame(s, s');
  }

  lemma BaselineReorder(s: State, s': State, t: ThreadId, expected: seq<RunId>, requested: seq<RunId>)
    requires OwnershipInv(s) && BaselineInv(s) && Reorder(s, t, expected, requested) == Commit(s')
    ensures BaselineInv(s')
  {
    BaselineFrame(s, s');
  }

  lemma BaselineQuiet(s: State, s': State)
    requires BaselineInv(s) && Quiet(s, s')
    ensures BaselineInv(s')
  {
    forall q | q in s'.runs ensures SameLife(s.runs[q], s'.runs[q]) {}
    BaselineFrame(s, s');
  }

  lemma BaselineTables(s: State, s': State, k: Kind)
    requires BaselineInv(s) && IsKind(s, s', k) && (k.WorkerWrote? || k.StateUpdated? || k.LatestKept?)
    ensures BaselineInv(s')
  {
    TableKinds(s, s', k);
    BaselineFrame(s, s');
  }

  lemma BaselineGrant(s: State, cfg: Config, r: RunId, owner: Owner)
    requires BaselineInv(s) && MayGrant(s, r)
    ensures BaselineInv(Grant(Prepare(s, r), cfg, r, owner))
  {
    PrepareFrame(s, r);
    BaselineCapture(s, r);
    var s1 := Prepare(s, r);
    var s' := Grant(s1, cfg, r, owner);
    forall q | q in s'.baselines
      ensures s'.runs[q].thread == Some(s'.baselines[q].thread) && s'.runs[q].retryCount >= 1
    {
      if q != r { assert s'.runs[q] == s.runs[q]; }
    }
  }

  /** A capture only adds the run's first baseline, later than all others. */
  lemma BaselineCapture(s: State, r: RunId)
    requires BaselineInv(s) && r in s.runs && ThreadPresent(s, s.runs[r])
    ensures var s1 := Prepare(s, r);
            && s.captures <= s1.captures
            && (forall q :: q in s.baselines ==> q in s1.baselines && s1.baselines[q] == s.baselines[q])
            && (forall q :: q in s1.baselines && q !in s.baselines ==>
                  q == r && Some(s1.baselines[q].thread) == s.runs[r].thread
                  && s1.baselines[q].capturedAt == s.captures && s.captures < s1.captures)
  {
    PrepareCaptures(s, r);
  }

  lemma BaselineCreate(s: State, cfg: Config, r: RunId, sub: Submission)
    requires OwnershipInv(s) && BaselineInv(s) && r !in s.issued
    ensures BaselineInv(SetRun(s, r, NewRun(s, cfg, sub)).(issued := s.issued + {r}))
  {
    assert r !in s.runs;
  }

  // ---- queue positions ----

  lemma QueueStep(s: State, s': State, k: Kind)
    requires OwnershipInv(s) && QueueInv(s) && IsKind(s, s', k)
    ensures QueueInv(s')
  {
    match k {
      case Silent =>
        forall q | q in s'.runs ensures SameLife(s.runs[q], s'.runs[q]) {}
      case Move(r) =>
      case Granting(cfg, r, owner) => PrepareFrame(s, r);
      case Creation(cfg, r, sub) => QueueCreate(s, cfg, r, sub);
      case Deletion(r) => DeletionFrame(s, r, s');
      case QueueEdited(t, expected, requested) => QueueReorder(s, expected, requested, t);
      case _ => TableKinds(s, s', k);
    }
  }

  lemma QueueCreate(s: State, cfg: Config, r: RunId, sub: Submission)
    requires OwnershipInv(s) && QueueInv(s) && r !in s.issued
    ensures QueueInv(SetRun(s, r, NewRun(s, cfg, sub)).(issued := s.issued + {r}))
  {
    forall q | q in s.runs && s.runs[q].thread == sub.thread
      ensures s.runs[q].queuePosition < NextPosition(s, sub.thread)
    {
      var taken := set p | p in s.runs && s.runs[p].thread == sub.thread :: s.runs[p].queuePosition;
      assert s.runs[q].queuePosition in taken && MaxOf(taken) + 1 == NextPosition(s, sub.thread);
    }
  }

  /** The run whose position `q` gets. */
  function Donor(expected: seq<RunId>, requested: seq<RunId>, q: RunId): (p: RunId)
    requires |requested| == |expected|
    ensures q in requested ==> p in expected
  {
    if q in requested then expected[IndexOf(requested, q)] else q
  }

  lemma DonorsDiffer(expected: seq<RunId>, requested: seq<RunId>, a: RunId, b: RunId)
    requires Distinct(expected) && Permutes(requested, expected) && a != b
    ensures Donor(expected, requested, a) != Donor(expected, requested, b)
  {
  }

  lemma DonorPosition(s: State, expected: seq<RunId>, requested: seq<RunId>, t: ThreadId, q: RunId)
    requires Permutes(requested, expected) && IsQueue(s, t, expected) && q in s.runs
    ensures var p := Donor(expected, requested, q);
            && p in s.runs && s.runs[p].thread == s.runs[q].thread
            && Reordered(s.runs, expected, requested)[q].queuePosition == s.runs[p].queuePosition
            && Reordered(s.runs, expected, requested)[q].thread == s.runs[q].thread
  {
    if q in requested {
      var p := Donor(expected, requested, q);
      assert p in expected && q in expected;
      assert Editable(s.runs[p], t) && Editable(s.runs[q], t);
    }
  }

  /** The positions are permuted among the listed runs, so none is duplicated. */
  lemma QueueReorder(s: State, expected: seq<RunId>, requested: seq<RunId>, t: ThreadId)
    requires QueueInv(s) && Permutes(requested, expected) && IsQueue(s, t, expected)
    ensures QueueInv(s.(runs := Reordered(s.runs, expected, requested)))
  {
    var runs := Reordered(s.runs, expected, requested);
    forall a, b | a in runs && b in runs && a != b && runs[a].thread == runs[b].thread
      ensures runs[a].queuePosition != runs[b].queuePosition
    {
      DonorsDiffer(expected, requested, a, b);
      DonorPosition(s, expected, requested, t, a);
      DonorPosition(s, expected, requested, t, b);
    }
  }

  // ---- claims ----

  lemma ClaimStep(s: State, s': State, k: Kind)
    requires OwnershipInv(s) && ActiveInv(s) && ClaimInv(s) && IsKind(s, s', k)
    ensures ClaimInv(s')
  {
    match k {
      case Silent => ClaimQuiet(s, s');
      case Move(r) => ClaimMove(s, s', r);
      case Granting(cfg, r, owner) => ClaimGrant(s, cfg, r, owner);
      case Creation(cfg, r, sub) => ClaimCreate(s, cfg, r, sub);
      case Deletion(r) => ClaimDelete(s, s', r);
      case QueueEdited(t, expected, requested) => ClaimReorder(s, expected, requested);
      case _ =>
        TableKinds(s, s', k);
        ClaimFrame(s, s');
    }
  }

  lemma ClaimFrame(s: State, s': State)
    requires ClaimInv(s) && s'.claims == s.claims && s'.issued == s.issued
    requires forall q :: q in s'.runs ==> q in s.runs && s'.runs[q] == s.runs[q]
    ensures ClaimInv(s')
  {
    forall q | q in s'.runs && s'.runs[q].status == Running
      ensures HoldsNewestClaim(s', q)
    {
      assert HoldsNewestClaim(s, q);
    }
  }

  lemma ClaimDelete(s: State, s': State, r: RunId)
    requires ClaimInv(s) && RollbackRun(s, r) == Commit(s')
    ensures ClaimInv(s')
  {
    DeletionFrame(s, r, s');
    ClaimFrame(s, s');
  }

  lemma ClaimQuiet(s: State, s': State)
    requires ClaimInv(s) && Quiet(s, s')
    ensures ClaimInv(s')
  {
    forall q | q in s'.runs ensures SameLife(s.runs[q], s'.runs[q]) {}
    forall q | q in s'.runs && s'.runs[q].status == Running
      ensures HoldsNewestClaim(s', q)
    {
      assert HoldsNewestClaim(s, q);
    }
  }

  lemma ClaimMove(s: State, s': State, r: RunId)
    requires ClaimInv(s) && Moved(s, s', r)
    ensures ClaimInv(s')
  {
    forall q | q in s'.runs && s'.runs[q].status == Running
      ensures HoldsNewestClaim(s', q)
    {
      assert HoldsNewestClaim(s, q);
    }
  }

  lemma ClaimReorder(s: State, expected: seq<RunId>, requested: seq<RunId>)
    requires ClaimInv(s) && |requested| == |expected| && forall q :: q in expected ==> q in s.runs
    ensures ClaimInv(s.(runs := Reordered(s.runs, expected, requested)))
  {
    var s' := s.(runs := Reordered(s.runs, expected, requested));
    assert forall q :: q in s'.runs ==> ResourceOf(q, s'.runs[q]) == ResourceOf(q, s.runs[q]);
    forall q | q in s'.runs && s'.runs[q].status == Running
      ensures HoldsNewestClaim(s', q)
    {
      assert HoldsNewestClaim(s, q);
    }
  }

  lemma ClaimCreate(s: State, cfg: Config, r: RunId, sub: Submission)
    requires OwnershipInv(s) && ClaimInv(s) && r !in s.issued
    ensures ClaimInv(SetRun(s, r, NewRun(s, cfg, sub)).(issued := s.issued + {r}))
  {
    var s' := SetRun(s, r, NewRun(s, cfg, sub)).(issued := s.issued + {r});
    forall q | q in s'.runs && s'.runs[q].status == Running
      ensures HoldsNewestClaim(s', q)
    {
      assert HoldsNewestClaim(s, q);
    }
  }

  lemma GrantedClaims(s: State, cfg: Config, r: RunId, owner: Owner)
    requires MayGrant(s, r)
    ensures var s' := Grant(Prepare(s, r), cfg, r, owner);
            && s'.claims == s.claims + [Claim(ResourceOf(r, s.runs[r]), r, s.runs[r].retryCount + 1)]
            && s'.issued == s.issued && s'.runs.Keys == s.runs.Keys
            && (forall q :: q in s.runs && q != r ==> s'.runs[q] == s.runs[q])
            && s'.runs[r].thread == s.runs[r].thread && s'.runs[r].retryCount == s.runs[r].retryCount + 1
  {
    PrepareFrame(s, r);
  }

  /** While a run of the thread is executing no other one is claimed, so everyone running still holds the newest claim. */
  lemma GrantHolds(s: State, s': State, r: RunId, q: RunId)
    requires ClaimInv(s) && MayGrant(s, r) && q in s.runs && q in s'.runs
    requires s'.claims == s.claims + [Claim(ResourceOf(r, s.runs[r]), r, s.runs[r].retryCount + 1)]
    requires q != r ==> s'.runs[q] == s.runs[q]
    requires q == r ==> s'.runs[q].thread == s.runs[q].thread && s'.runs[q].retryCount == s.runs[q].retryCount + 1
    requires s'.runs[q].status == Running
    ensures HoldsNewestClaim(s', q)
  {
    LastClaimAppend(s.claims, Claim(ResourceOf(r, s.runs[r]), r, s.runs[r].retryCount + 1), ResourceOf(q, s'.runs[q]));
    if q != r {
      assert HoldsNewestClaim(s, q);
      assert Blocking(s.runs[q], s.clock);
      assert ResourceOf(q, s.runs[q]) != ResourceOf(r, s.runs[r]);
    }
  }

  lemma ClaimGrant(s: State, cfg: Config, r: RunId, owner: Owner)
    requires OwnershipInv(s) && ClaimInv(s) && MayGrant(s, r)
    ensures ClaimInv(Grant(Prepare(s, r), cfg, r, owner))
  {
    var s' := Grant(Prepare(s, r), cfg, r, owner);
    GrantedClaims(s, cfg, r, owner);
    forall q | q in s'.runs && s'.runs[q].status == Running
      ensures HoldsNewestClaim(s', q)
    {
      GrantHolds(s, s', r, q);
    }
    GrantedEpochs(s, s', r);
  }

  lemma GrantedEpochs(s: State, s': State, r: RunId)
    requires OwnershipInv(s) && ClaimInv(s) && r in s.runs
    requires s'.claims == s.claims + [Claim(ResourceOf(r, s.runs[r]), r, s.runs[r].retryCount + 1)]
    requires s'.issued == s.issued && s'.runs.Keys == s.runs.Keys
    requires forall q :: q in s.runs && q != r ==> s'.runs[q] == s.runs[q]
    requires s'.runs[r].thread == s.runs[r].thread && s'.runs[r].retryCount == s.runs[r].retryCount + 1
    requires forall q :: q in s'.runs && s'.runs[q].status == Running ==> HoldsNewestClaim(s', q)
    ensures ClaimInv(s')
  {
  }

  // ---- accepted writes ----

  lemma AcceptedFrame(s: State, s': State)
    requires AcceptedInv(s) && s'.accepted == s.accepted
    requires |s.claims| <= |s'.claims| && s'.claims[..|s.claims|] == s.claims
    ensures AcceptedInv(s')
  {
    assert forall i :: 0 <= i < |s.claims| ==> s'.claims[..|s.claims|][i] == s'.claims[i];
  }

  /** Claims are only appended, and only a worker's write is accepted. */
  lemma AcceptedKept(s: State, s': State, k: Kind)
    requires IsKind(s, s', k) && !k.WorkerWrote?
    ensures s'.accepted == s.accepted
    ensures |s.claims| <= |s'.claims| && s'.claims[..|s.claims|] == s.claims
  {
    match k {
      case Granting(cfg, r, owner) => PrepareFrame(s, r);
      case Deletion(r) => DeletionFrame(s, r, s');
      case StateUpdated(_, _, _) => UpdatesAcceptNothing(s, s', k);
      case LatestKept(_) => UpdatesAcceptNothing(s, s', k);
      case _ =>
    }
  }

  lemma UpdatesAcceptNothing(s: State, s': State, k: Kind)
    requires IsKind(s, s', k) && (k.StateUpdated? || k.LatestKept?)
    ensures s'.accepted == s.accepted && s'.claims == s.claims
  {
  }

  lemma AcceptedStep(s: State, s': State, k: Kind)
    requires ClaimInv(s) && AcceptedInv(s) && IsKind(s, s', k)
    ensures AcceptedInv(s')
  {
    if k.WorkerWrote? {
      AcceptedWrite(s, s', k.w, k.at, k.change);
    } else {
      AcceptedKept(s, s', k);
      AcceptedFrame(s, s');
    }
  }

  /** An accepted write belongs to the newest claim of its resource. */
  lemma AcceptedWrite(s: State, s': State, w: Writer, at: Resource, change: Change)
    requires ClaimInv(s) && AcceptedInv(s) && FencedWrite(s, w, at, change) == Commit(s')
    ensures AcceptedInv(s')
  {
    assert HoldsNewestClaim(s, w.run);
    LastClaimBounds(s.claims, at);
    forall i | 0 <= i < |s.accepted| && s.accepted[i].resource == at
      ensures s.accepted[i].claim <= LastClaim(s.claims, at)
    {
      assert s.claims[s.accepted[i].claim].resource == at;
    }
  }

  // ---- every step, every history ----

  lemma CoreStep(s: State, step: Step)
    requires CoreInv(s)
    ensures CoreInv(Apply(s, step))
  {
    var k := Classify(s, step);
    var s' := Apply(s, step);
    OwnershipStep(s, s', k);
    ActiveStep(s, s', k);
    BaselineStep(s, s', k);
    QueueStep(s, s', k);
    ClaimStep(s, s', k);
    AcceptedStep(s, s', k);
  }

  lemma {:induction false} CoreAlways(s: State, steps: seq<Step>)
    requires CoreInv(s)
    ensures CoreInv(Exec(s, steps))
    decreases |steps|
  {
    if steps != [] {
      CoreStep(s, steps[0]);
      CoreAlways(Apply(s, steps[0]), steps[1..]);
    }
  }

  lemma InitCore(clock: Time)
    ensures CoreInv(Init(clock))
  {
  }
}
