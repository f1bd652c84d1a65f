/** The write fence over whole histories: accepted worker writes come in one block per claim. */
module Fencing {
  import opened RunState
  import opened Tables
  import opened CheckpointMutations
  import opened Protocol
  import opened StepCases
  import opened RunSteps
  import opened Invariants

  predicate SameEpoch(a: Accepted, b: Accepted) {
    a.run == b.run && a.generation == b.generation
  }

  /** In every history the accepted worker writes of a resource form contiguous blocks, one per claim
      epoch, and the blocks follow the order of the claims. */
  lemma WritesComeInClaimBlocks(clock: Time, steps: seq<Step>, i: nat, j: nat, k: nat)
    requires var s := Exec(Init(clock), steps);
             i < j < k < |s.accepted| && s.accepted[i].resource == s.accepted[j].resource == s.accepted[k].resource
    ensures var s := Exec(Init(clock), steps);
            && (SameEpoch(s.accepted[i], s.accepted[k]) ==> SameEpoch(s.accepted[i], s.accepted[j]))
            && 0 <= s.accepted[i].claim <= s.accepted[j].claim < |s.claims|
            && s.claims[s.accepted[i].claim] == Claim(s.accepted[i].resource, s.accepted[i].run, s.accepted[i].generation)
            && (s.accepted[i].claim == s.accepted[j].claim <==> SameEpoch(s.accepted[i], s.accepted[j]))
  {
    InitCore(clock);
    CoreAlways(Init(clock), steps);
    var s := Exec(Init(clock), steps);
    EpochsAreClaims(s, i, j);
    EpochsAreClaims(s, i, k);
  }

  /** An epoch is claimed once, so equal epochs are the same claim. */
  lemma EpochsAreClaims(s: State, i: nat, j: nat)
    requires ClaimInv(s) && AcceptedInv(s) && i < |s.accepted| && j < |s.accepted|
    ensures s.accepted[i].claim == s.accepted[j].claim <==>
            SameEpoch(s.accepted[i], s.accepted[j])
  {
    var x, y := s.accepted[i].claim, s.accepted[j].claim;
    assert s.claims[x] == Claim(s.accepted[i].resource, s.accepted[i].run, s.accepted[i].generation);
    assert s.claims[y] == Claim(s.accepted[j].resource, s.accepted[j].run, s.accepted[j].generation);
  }

  // ---- stale epochs ----

  /** The epoch was superseded, or its run was cancelled, requeued, finished or deleted. */
  ghost predicate Dead(s: State, r: RunId, generation: nat) {
    && r in s.issued
    && (r in s.runs ==>
          generation < s.runs[r].retryCount || (generation == s.runs[r].retryCount && s.runs[r].status != Running))
  }

  lemma DeadStep(s: State, step: Step, r: RunId, generation: nat)
    requires OwnershipInv(s) && Dead(s, r, generation)
    ensures Dead(Apply(s, step), r, generation)
  {
    EveryRow(s, step, r);
    DeadByRow(s, Apply(s, step), r, generation);
  }

  lemma DeadByRow(s: State, s': State, r: RunId, generation: nat)
    requires OwnershipInv(s) && Dead(s, r, generation) && RowSteps(s, s', r)
    ensures Dead(s', r, generation)
  {
  }

  lemma {:induction false} DeadForever(s: State, steps: seq<Step>, r: RunId, generation: nat)
    requires CoreInv(s) && Dead(s, r, generation)
    ensures Dead(Exec(s, steps), r, generation)
    decreases |steps|
  {
    if steps != [] {
      DeadStep(s, steps[0], r, generation);
      CoreStep(s, steps[0]);
      DeadForever(Apply(s, steps[0]), steps[1..], r, generation);
    }
  }

  /** A write under a dead epoch is rejected now and after any further history, whoever presents it. */
  lemma StaleWriterIsRejected(s: State, steps: seq<Step>, w: Writer, at: Resource, change: Change)
    requires CoreInv(s) && Dead(s, w.run, w.generation)
    ensures FencedWrite(Exec(s, steps), w, at, change) == Abort(CheckpointConflict)
  {
    DeadForever(s, steps, w.run, w.generation);
  }

  /** Every accepted write names the epoch of its run at that moment; all the writer's older epochs are dead. */
  lemma AcceptedWriterIsCurrent(s: State, w: Writer, at: Resource, change: Change, older: nat)
    requires CoreInv(s) && FencedWrite(s, w, at, change).Commit? && older < w.generation
    ensures Dead(s, w.run, older) && !Dead(s, w.run, w.generation)
  {
    assert RunOk(s.runs[w.run], LeaseOf(s, w.run));
  }

  /** Cancelling, requeueing, reaping or finishing a run kills the epoch under which it was executing. */
  lemma StoppingKillsTheEpoch(s: State, step: Step, r: RunId)
    requires CoreInv(s) && r in s.runs && s.runs[r].status == Running
    requires var s' := Apply(s, step); r !in s'.runs || s'.runs[r].status != Running
    ensures Dead(Apply(s, step), r, s.runs[r].retryCount)
  {
    EveryRow(s, step, r);
  }
}
