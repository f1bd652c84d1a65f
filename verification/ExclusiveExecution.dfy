/** An unexpired lease cannot be taken away, and it keeps the whole thread to its holder. */
module ExclusiveExecution {
  import opened Wrappers
  import opened RunState
  import opened Tables
  import opened RunStore
  import opened CoreApi
  import opened Protocol
  import opened StepCases
  import opened Kinds
  import opened Invariants

  /** Worker `owner` holds run `r` at this generation under a lease that has not expired. */
  ghost predicate Holds(s: State, r: RunId, owner: Owner, generation: nat) {
    && r in s.runs
    && s.runs[r].leaseOwner == Some(owner) && s.runs[r].retryCount == generation
    && s.runs[r].leaseExpiresAt.Some? && s.runs[r].leaseExpiresAt.value > s.clock
  }

  /** The same, whatever the clock says. */
  ghost predicate Keeps(s: State, r: RunId, owner: Owner, generation: nat) {
    && r in s.runs && s.runs[r].leaseOwner == Some(owner) && s.runs[r].retryCount == generation
    && r in s.leases && s.leases[r].owner == owner && s.leases[r].generation == generation
  }

  /** The holder's own transactions that give the lease back. */
  predicate GivesBack(step: Step, r: RunId, owner: Owner) {
    match step
    case FinishRun(q, o, _, _, _) => q == r && o == owner
    case FailRun(_, q, o, _) => q == r && o == owner
    case ShutDown(_, q, o, _) => q == r && o == owner
    case ReleaseLease(q, o) => q == r && o == owner
    case CompleteRollBack(q, w) => q == r && w == Some(owner)
    case _ => false
  }

  predicate RowKept(s: State, s': State, r: RunId, owner: Owner, generation: nat) {
    r in s'.runs && s'.runs[r].leaseOwner == Some(owner) && s'.runs[r].retryCount == generation && s'.claims == s.claims
  }

  /** What the invariant says of a leased row. */
  predicate Leased(s: State, r: RunId, owner: Owner, generation: nat) {
    && r in s.runs && s.runs[r].status in {Running, Interrupted} && s.runs[r].leaseOwner == Some(owner)
    && s.runs[r].leaseExpiresAt.Some? && s.runs[r].leaseExpiresAt.value > s.clock
    && s.runs[r].retryCount == generation && r in s.issued
  }

  lemma HolderIsLeased(s: State, r: RunId, owner: Owner, generation: nat)
    requires OwnershipInv(s) && Holds(s, r, owner, generation)
    ensures Leased(s, r, owner, generation)
  {
    assert RunOk(s.runs[r], LeaseOf(s, r));
  }

  /** Nobody else can finish, fail, requeue, reap, claim or release the run. */
  lemma OthersCannotEnd(s: State, step: Step, r: RunId, owner: Owner, generation: nat)
    requires Leased(s, r, owner, generation) && !GivesBack(step, r, owner)
    requires step.FinishRun? || step.FailRun? || step.ShutDown? || step.ReapRun? || step.ReleaseLease? || step.ClaimNext?
    requires step.r == r
    ensures Apply(s, step) == s
  {
  }

  lemma OwnRowKept(s: State, step: Step, r: RunId, owner: Owner, generation: nat)
    requires Leased(s, r, owner, generation) && !GivesBack(step, r, owner) && Subject(step) == Some(r)
    ensures RowKept(s, Apply(s, step), r, owner, generation)
  {
    match step {
      case CancelRun(_) =>
        if Transact(s, step).Commit? { CancelKeepsOwner(s, r, Transact(s, step).db); }
      case RenewLease(_, _, _) =>
      case RollBack(_) =>
      case CompleteRollBack(_, _) =>
      case Submit(_, _, _) =>
      case _ => OthersCannotEnd(s, step, r, owner, generation);
    }
  }

  lemma CancelKeepsOwner(s: State, r: RunId, s': State)
    requires r in s.runs && s.runs[r].status != Pending && Cancel(s, r) == Commit(s')
    ensures r in s'.runs && s'.runs[r].leaseOwner == s.runs[r].leaseOwner && s'.runs[r].retryCount == s.runs[r].retryCount
    ensures s'.claims == s.claims
  {
    if !IsTerminal(s.runs[r].status) {
      RecordIsLogged(Cancelled(s, r, Interrupted, CancelRequested), r, StatusNotice(Interrupted, "cancel_requested"), s');
    }
  }

  lemma OtherRowsKept(s: State, s': State, k: Kind, r: RunId, owner: Owner, generation: nat)
    requires OwnershipInv(s) && Holds(s, r, owner, generation) && IsKind(s, s', k)
    requires k.Move? || k.Granting? || k.Creation? || k.Deletion? ==> k.r != r
    ensures r in s'.runs && s'.runs[r].leaseOwner == Some(owner) && s'.runs[r].retryCount == generation
  {
    match k {
      case Silent => assert SameLife(s.runs[r], s'.runs[r]);
      case Move(q) =>
      case Granting(cfg, q, o) => PrepareFrame(s, q);
      case Creation(cfg, q, sub) =>
      case Deletion(q) => DeletionFrame(s, q, s');
      case QueueEdited(t, expected, requested) =>
      case _ => TableKinds(s, s', k);
    }
  }

  /** No claim of the holder's resource is granted. */
  lemma NoClaimBeside(s: State, s': State, k: Kind, r: RunId, owner: Owner, generation: nat)
    requires OwnershipInv(s) && Holds(s, r, owner, generation) && IsKind(s, s', k)
    ensures s'.claims == s.claims
            || (|s'.claims| == |s.claims| + 1 && s'.claims[..|s.claims|] == s.claims
                && s'.claims[|s.claims|].resource != ResourceOf(r, s.runs[r]))
  {
    match k {
      case Granting(cfg, q, o) =>
        PrepareFrame(s, q);
        assert RunOk(s.runs[r], LeaseOf(s, r));
        assert Blocking(s.runs[r], s.clock);
        assert q != r;
      case Deletion(q) => DeletionFrame(s, q, s');
      case WorkerWrote(_, _, _) => TableKinds(s, s', k);
      case StateUpdated(_, _, _) => TableKinds(s, s', k);
      case LatestKept(_) => TableKinds(s, s', k);
      case _ =>
    }
  }

  /** Only the holder can end an unexpired lease. */
  lemma LeaseIsKept(s: State, step: Step, r: RunId, owner: Owner, generation: nat)
    requires CoreInv(s) && Holds(s, r, owner, generation) && !GivesBack(step, r, owner)
    ensures Keeps(Apply(s, step), r, owner, generation)
  {
    var s' := Apply(s, step);
    if Subject(step) == Some(r) {
      HolderIsLeased(s, r, owner, generation);
      OwnRowKept(s, step, r, owner, generation);
    } else {
      var k := Classify(s, step);
      OtherRowsKept(s, s', k, r, owner, generation);
    }
    CoreStep(s, step);
    assert RunOk(s'.runs[r], LeaseOf(s', r));
  }

  lemma ThreadKept(s: State, s': State, k: Kind, r: RunId)
    requires OwnershipInv(s) && IsKind(s, s', k) && r in s.runs && r in s'.runs
    ensures s'.runs[r].thread == s.runs[r].thread
  {
    match k {
      case Silent => assert SameLife(s.runs[r], s'.runs[r]);
      case Granting(cfg, q, o) => PrepareFrame(s, q);
      case Deletion(q) => DeletionFrame(s, q, s');
      case WorkerWrote(_, _, _) => TableKinds(s, s', k);
      case StateUpdated(_, _, _) => TableKinds(s, s', k);
      case LatestKept(_) => TableKinds(s, s', k);
      case _ =>
    }
  }

  /** Claims of a resource, in the order in which they were granted. */
  function ClaimsOf(claims: seq<Claim>, at: Resource): seq<Claim>
    decreases |claims|
  {
    if claims == [] then []
    else
      ClaimsOf(claims[..|claims| - 1], at) + (if claims[|claims| - 1].resource == at then [claims[|claims| - 1]] else [])
  }

  lemma NoNewClaims(claims: seq<Claim>, more: seq<Claim>, at: Resource)
    requires more == claims
             || (|more| == |claims| + 1 && more[..|claims|] == claims && more[|claims|].resource != at)
    ensures ClaimsOf(more, at) == ClaimsOf(claims, at)
  {
  }

  /** Whenever the run still has a lease, that lease has not expired: its holder renews in time. */
  ghost predicate NeverLapses(s: State, steps: seq<Step>, r: RunId)
    decreases |steps|
  {
    && (r in s.runs && s.runs[r].leaseExpiresAt.Some? ==> s.runs[r].leaseExpiresAt.value > s.clock)
    && (steps != [] ==> NeverLapses(Apply(s, steps[0]), steps[1..], r))
  }

  predicate NeverGivesBack(steps: seq<Step>, r: RunId, owner: Owner) {
    forall step :: step in steps ==> !GivesBack(step, r, owner)
  }

  lemma ExclusiveStep(s: State, step: Step, r: RunId, owner: Owner, generation: nat)
    requires CoreInv(s) && Holds(s, r, owner, generation) && !GivesBack(step, r, owner)
    ensures var s1 := Apply(s, step);
            && Keeps(s1, r, owner, generation) && s1.runs[r].thread == s.runs[r].thread
            && ClaimsOf(s1.claims, ResourceOf(r, s.runs[r])) == ClaimsOf(s.claims, ResourceOf(r, s.runs[r]))
  {
    var k := Classify(s, step);
    LeaseIsKept(s, step, r, owner, generation);
    NoClaimBeside(s, Apply(s, step), k, r, owner, generation);
    ThreadKept(s, Apply(s, step), k, r);
    NoNewClaims(s.claims, Apply(s, step).claims, ResourceOf(r, s.runs[r]));
  }

  /** Kept and not lapsed is held. */
  lemma StillHolds(s: State, steps: seq<Step>, r: RunId, owner: Owner, generation: nat)
    requires OwnershipInv(s) && Keeps(s, r, owner, generation) && NeverLapses(s, steps, r)
    ensures Holds(s, r, owner, generation)
  {
    assert RunOk(s.runs[r], LeaseOf(s, r));
  }

  lemma HoldsIsKeeps(s: State, r: RunId, owner: Owner, generation: nat)
    requires OwnershipInv(s) && Holds(s, r, owner, generation)
    ensures Keeps(s, r, owner, generation)
  {
    assert RunOk(s.runs[r], LeaseOf(s, r));
  }

  /** While the lease never lapses and the holder does not give it back, over any history: the holder keeps run and
      generation, and nobody else is granted a claim of the same thread, even if the run was cancelled meanwhile. */
  lemma {:induction false} ExecutionIsExclusive(s: State, steps: seq<Step>, r: RunId, owner: Owner, generation: nat)
    requires CoreInv(s) && Holds(s, r, owner, generation) && NeverLapses(s, steps, r) && NeverGivesBack(steps, r, owner)
    ensures var s' := Exec(s, steps);
            && Keeps(s', r, owner, generation)
            && ClaimsOf(s'.claims, ResourceOf(r, s.runs[r])) == ClaimsOf(s.claims, ResourceOf(r, s.runs[r]))
    decreases |steps|
  {
    if steps == [] {
      HoldsIsKeeps(s, r, owner, generation);
    } else {
      assert steps[0] in steps;
      ExclusiveStep(s, steps[0], r, owner, generation);
      CoreStep(s, steps[0]);
      StillHolds(Apply(s, steps[0]), steps[1..], r, owner, generation);
      ExecutionIsExclusive(Apply(s, steps[0]), steps[1..], r, owner, generation);
    }
  }
}
