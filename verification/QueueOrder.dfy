/** First in, first out per thread, and what a queue edit does to it. */
module QueueOrder {
  import opened Wrappers
  import opened RunState
  import opened Tables
  import opened RunStore
  import opened CoreApi
  import opened Protocol
  import opened StepCases
  import opened Kinds
  import opened Invariants

  // ---- one candidate per thread ----

  lemma BeforeIsTotal(a: RunId, x: Run, b: RunId, y: Run)
    requires a != b
    ensures Before(a, x, b, y) <==> !Before(b, y, a, x)
  {
  }

  /** At most one run of a thread can be claimed next, whichever worker asks. */
  lemma OneCandidate(s: State, a: RunId, b: RunId)
    requires Eligible(s, a) && Eligible(s, b) && s.runs[a].thread.Some? && s.runs[a].thread == s.runs[b].thread
    ensures a == b
  {
    if a != b {
      BeforeIsTotal(a, s.runs[a], b, s.runs[b]);
    }
  }

  // ---- a queue edit is what the next read shows ----

  lemma ReorderedAt(s: State, t: ThreadId, expected: seq<RunId>, requested: seq<RunId>, i: nat)
    requires Permutes(requested, expected) && IsQueue(s, t, expected) && i < |requested|
    ensures var runs := Reordered(s.runs, expected, requested);
            requested[i] in s.runs && Editable(s.runs[requested[i]], t)
            && runs[requested[i]] == s.runs[requested[i]].(queuePosition := s.runs[expected[i]].queuePosition)
  {
    IndexOfAt(requested, i);
    assert requested[i] in expected;
  }

  lemma QueuePositionsGrow(s: State, t: ThreadId, ids: seq<RunId>, i: nat, j: nat)
    requires QueueInv(s) && IsQueue(s, t, ids) && i < j < |ids|
    ensures s.runs[ids[i]].queuePosition < s.runs[ids[j]].queuePosition
  {
    assert Editable(s.runs[ids[i]], t) && Editable(s.runs[ids[j]], t);
    assert Before(ids[i], s.runs[ids[i]], ids[j], s.runs[ids[j]]);
  }

  /** After a successful edit the queue reads exactly as requested. */
  lemma ReorderRoundTrip(s: State, t: ThreadId, expected: seq<RunId>, requested: seq<RunId>, s': State)
    requires QueueInv(s) && Reorder(s, t, expected, requested) == Commit(s')
    ensures IsQueue(s', t, requested)
  {
    forall i | 0 <= i < |requested|
      ensures requested[i] in s'.runs && Editable(s'.runs[requested[i]], t)
      ensures s'.runs[requested[i]].queuePosition == s.runs[expected[i]].queuePosition
    {
      ReorderedAt(s, t, expected, requested, i);
    }
    forall i, j | 0 <= i < j < |requested|
      ensures s'.runs[requested[i]].queuePosition < s'.runs[requested[j]].queuePosition
    {
      QueuePositionsGrow(s, t, expected, i, j);
    }
    forall q | q in s'.runs && Editable(s'.runs[q], t)
      ensures q in requested
    {
      assert Editable(s.runs[q], t);
    }
  }

  // ---- and the order in which the listed runs are served ----

  /** The step serves run `r`: it leaves the queue for execution or, with its attempts used up, for good. */
  predicate Turn(s: State, step: Step, s': State, r: RunId) {
    && step.ClaimNext? && step.r == r && r in s.runs && s.runs[r].status == Pending
    && r in s'.runs && s'.runs[r].status != Pending
  }

  ghost function WithTurn(s: State, step: Step, ids: seq<RunId>, served: seq<RunId>): seq<RunId> {
    if step.ClaimNext? && Turn(s, step, Apply(s, step), step.r) && step.r in ids && step.r !in served then served + [step.r] else served
  }

  /** The listed runs in the order of their first turns. */
  ghost function FirstTurns(s: State, steps: seq<Step>, ids: seq<RunId>, served: seq<RunId>): seq<RunId>
    decreases |steps|
  {
    if steps == [] then served
    else
      FirstTurns(Apply(s, steps[0]), steps[1..], ids, WithTurn(s, steps[0], ids, served))
  }

  /** A client edits the thread's queue again or withdraws a listed run. */
  predicate Interferes(step: Step, t: ThreadId, ids: seq<RunId>) {
    match step
    case ReorderQueue(u, _, _) => u == t
    case CancelRun(r) => r in ids
    case RollBack(r) => r in ids
    case CompleteRollBack(r, _) => r in ids
    case _ => false
  }

  /** The listed runs keep their order; those not served yet are still waiting. */
  ghost predicate Lined(s: State, t: ThreadId, ids: seq<RunId>, served: nat) {
    && Distinct(ids) && served <= |ids|
    && (forall i :: 0 <= i < |ids| ==> ids[i] in s.runs && s.runs[ids[i]].thread == Some(t) && !s.runs[ids[i]].resume)
    && (forall i, j :: 0 <= i < j < |ids| ==> s.runs[ids[i]].queuePosition < s.runs[ids[j]].queuePosition)
    && (forall i :: served <= i < |ids| ==> s.runs[ids[i]].status == Pending)
  }

  predicate SamePlace(a: Run, b: Run) {
    b.thread == a.thread && b.resume == a.resume && b.queuePosition == a.queuePosition
  }

  /** Nothing but a queue edit of its own thread moves a run in the queue. */
  lemma PlaceKept(s: State, s': State, k: Kind, r: RunId)
    requires OwnershipInv(s) && IsKind(s, s', k) && r in s.runs
    requires k.QueueEdited? ==> s.runs[r].thread != Some(k.t)
    requires k.Deletion? ==> k.r != r
    ensures r in s'.runs && SamePlace(s.runs[r], s'.runs[r])
  {
    match k {
      case Silent => assert SameLife(s.runs[r], s'.runs[r]);
      case Granting(cfg, q, owner) => PrepareFrame(s, q);
      case Deletion(q) => DeletionFrame(s, q, s');
      case WorkerWrote(_, _, _) => TableKinds(s, s', k);
      case StateUpdated(_, _, _) => TableKinds(s, s', k);
      case LatestKept(_) => TableKinds(s, s', k);
      case QueueEdited(u, expected, requested) => assert r in requested ==> r in expected;
      case _ =>
    }
  }

  lemma StatusKept(s: State, s': State, k: Kind, r: RunId)
    requires OwnershipInv(s) && IsKind(s, s', k) && r in s.runs && r in s'.runs
    requires k.Move? || k.Granting? ==> k.r != r
    ensures s'.runs[r].status == s.runs[r].status
  {
    match k {
      case Silent => assert SameLife(s.runs[r], s'.runs[r]);
      case Granting(cfg, q, owner) => PrepareFrame(s, q);
      case Deletion(q) => DeletionFrame(s, q, s');
      case WorkerWrote(_, _, _) => TableKinds(s, s', k);
      case StateUpdated(_, _, _) => TableKinds(s, s', k);
      case LatestKept(_) => TableKinds(s, s', k);
      case _ =>
    }
  }

  lemma OnlyClaimsMoveWaiting(s: State, step: Step, r: RunId)
    requires OwnershipInv(s) && r in s.runs && s.runs[r].status == Pending && Subject(step) == Some(r)
    requires !step.ClaimNext? && step != CancelRun(r) && step != RollBack(r)
    ensures Apply(s, step) == s
  {
    assert RunOk(s.runs[r], LeaseOf(s, r));
  }

  /** Only a queue's head is served. */
  lemma TurnIsEligible(s: State, step: Step, r: RunId)
    requires Turn(s, step, Apply(s, step), r)
    ensures Eligible(s, r)
  {
  }

  /** What one run's own transactions can do to it while it waits. */
  ghost predicate Undisturbed(s: State, step: Step, s': State, r: RunId) {
    && (Turn(s, step, s', r) ==> Eligible(s, r))
    && (Subject(step) == Some(r) && r in s.runs && s.runs[r].status == Pending && !step.ClaimNext? ==> s' == s)
  }

  lemma StepsUndisturbed(s: State, step: Step, r: RunId)
    requires OwnershipInv(s) && step != CancelRun(r) && step != RollBack(r)
    ensures Undisturbed(s, step, Apply(s, step), r)
  {
    if Turn(s, step, Apply(s, step), r) { TurnIsEligible(s, step, r); }
    if Subject(step) == Some(r) && r in s.runs && s.runs[r].status == Pending && !step.ClaimNext? {
      OnlyClaimsMoveWaiting(s, step, r);
    }
  }

  /** A waiting run leaves the queue by its turn or because a client withdraws it. */
  lemma WaitingUntilServed(s: State, step: Step, s': State, k: Kind, r: RunId)
    requires OwnershipInv(s) && IsKind(s, s', k) && About(k, step) && Undisturbed(s, step, s', r)
    requires r in s.runs && s.runs[r].status == Pending && r in s'.runs && !Turn(s, step, s', r)
    ensures s'.runs[r].status == Pending
  {
    if !((k.Move? || k.Granting?) && k.r == r) {
      StatusKept(s, s', k, r);
    }
  }

  lemma OnlyHeadIsEligible(s: State, t: ThreadId, ids: seq<RunId>, served: nat, j: nat)
    requires Lined(s, t, ids, served) && served < j < |ids|
    ensures !Eligible(s, ids[j])
  {
    var a, b := ids[served], ids[j];
    assert Before(a, s.runs[a], b, s.runs[b]);
  }

  lemma TurnIsOfTheFirst(s: State, step: Step, t: ThreadId, ids: seq<RunId>, served: nat, j: nat)
    requires Lined(s, t, ids, served) && j < |ids| && Turn(s, step, Apply(s, step), ids[j])
    ensures j <= served
  {
    TurnIsEligible(s, step, ids[j]);
    if j > served { OnlyHeadIsEligible(s, t, ids, served, j); }
  }

  lemma OutOfReach(s: State, step: Step, k: Kind, t: ThreadId, ids: seq<RunId>, r: RunId)
    requires r in ids && r in s.runs && s.runs[r].thread == Some(t) && !Interferes(step, t, ids) && About(k, step)
    ensures k.QueueEdited? ==> s.runs[r].thread != Some(k.t)
    ensures k.Deletion? ==> k.r != r
  {
  }

  lemma MemberStays(s: State, step: Step, s': State, k: Kind, t: ThreadId, ids: seq<RunId>, served: nat, i: nat)
    requires OwnershipInv(s) && Lined(s, t, ids, served) && !Interferes(step, t, ids) && i < |ids|
    requires IsKind(s, s', k) && About(k, step)
    ensures ids[i] in s.runs && ids[i] in s'.runs && SamePlace(s.runs[ids[i]], s'.runs[ids[i]])
  {
    var r := ids[i];
    OutOfReach(s, step, k, t, ids, r);
    PlaceKept(s, s', k, r);
  }

  lemma MemberWaits(s: State, step: Step, s': State, k: Kind, t: ThreadId, ids: seq<RunId>, served: nat, i: nat)
    requires OwnershipInv(s) && Lined(s, t, ids, served) && served <= i < |ids|
    requires IsKind(s, s', k) && About(k, step) && Undisturbed(s, step, s', ids[i]) && ids[i] in s'.runs
    requires !(i == served && Turn(s, step, s', ids[i]))
    ensures s'.runs[ids[i]].status == Pending
  {
    if i > served { OnlyHeadIsEligible(s, t, ids, served, i); }
    WaitingUntilServed(s, step, s', k, ids[i]);
  }

  /** A step that neither edits this queue nor withdraws the run leaves it in its place, waiting until its turn. */
  lemma MemberStep(s: State, step: Step, s': State, k: Kind, t: ThreadId, ids: seq<RunId>, served: nat, i: nat)
    requires OwnershipInv(s) && Lined(s, t, ids, served) && !Interferes(step, t, ids) && i < |ids|
    requires IsKind(s, s', k) && About(k, step) && Undisturbed(s, step, s', ids[i])
    ensures ids[i] in s'.runs && SamePlace(s.runs[ids[i]], s'.runs[ids[i]])
    ensures served <= i && !(i == served && Turn(s, step, s', ids[i])) ==> s'.runs[ids[i]].status == Pending
  {
    MemberStays(s, step, s', k, t, ids, served, i);
    if served <= i && !(i == served && Turn(s, step, s', ids[i])) {
      MemberWaits(s, step, s', k, t, ids, served, i);
    }
  }

  ghost function ServedAfter(s: State, step: Step, ids: seq<RunId>, served: nat): nat {
    if served < |ids| && Turn(s, step, Apply(s, step), ids[served]) then served + 1 else served
  }

  lemma LinedFrame(s: State, s': State, t: ThreadId, ids: seq<RunId>, served: nat, after: nat)
    requires Lined(s, t, ids, served) && served <= after <= |ids|
    requires forall i :: 0 <= i < |ids| ==> ids[i] in s'.runs && SamePlace(s.runs[ids[i]], s'.runs[ids[i]])
    requires forall i :: after <= i < |ids| ==> s'.runs[ids[i]].status == Pending
    ensures Lined(s', t, ids, after)
  {
  }

  lemma LinedStep(s: State, step: Step, t: ThreadId, ids: seq<RunId>, served: nat)
    requires OwnershipInv(s) && Lined(s, t, ids, served) && !Interferes(step, t, ids)
    ensures Lined(Apply(s, step), t, ids, ServedAfter(s, step, ids, served))
  {
    var k := Classify(s, step);
    forall i | 0 <= i < |ids|
      ensures Undisturbed(s, step, Apply(s, step), ids[i])
    {
      assert ids[i] in ids;
      StepsUndisturbed(s, step, ids[i]);
    }
    LinedKind(s, step, Apply(s, step), k, t, ids, served, ServedAfter(s, step, ids, served));
  }

  lemma LinedKind(s: State, step: Step, s': State, k: Kind, t: ThreadId, ids: seq<RunId>, served: nat, after: nat)
    requires OwnershipInv(s) && Lined(s, t, ids, served) && !Interferes(step, t, ids) && IsKind(s, s', k) && About(k, step)
    requires after == if served < |ids| && Turn(s, step, s', ids[served]) then served + 1 else served
    requires forall i :: 0 <= i < |ids| ==> Undisturbed(s, step, s', ids[i])
    ensures Lined(s', t, ids, after)
  {
    forall i | 0 <= i < |ids|
      ensures ids[i] in s'.runs && SamePlace(s.runs[ids[i]], s'.runs[ids[i]])
      ensures after <= i ==> s'.runs[ids[i]].status == Pending
    {
      MemberStep(s, step, s', k, t, ids, served, i);
    }
    LinedFrame(s, s', t, ids, served, after);
  }

  lemma TurnExtendsPrefix(s: State, step: Step, t: ThreadId, ids: seq<RunId>, served: nat)
    requires Lined(s, t, ids, served)
    ensures ServedAfter(s, step, ids, served) <= |ids|
    ensures WithTurn(s, step, ids, ids[..served]) == ids[..ServedAfter(s, step, ids, served)]
  {
    if step.ClaimNext? && Turn(s, step, Apply(s, step), step.r) && step.r in ids {
      var j :| 0 <= j < |ids| && ids[j] == step.r;
      TurnIsOfTheFirst(s, step, t, ids, served, j);
      assert j < served ==> ids[..served][j] == step.r;
      assert j == served ==> step.r !in ids[..served];
    }
  }

  /** Along any history without further edits or withdrawals, the first turns of the listed runs come in the listed order. */
  lemma {:induction false} TurnsInOrder(s: State, steps: seq<Step>, t: ThreadId, ids: seq<RunId>, served: nat)
    requires CoreInv(s) && Lined(s, t, ids, served) && forall step :: step in steps ==> !Interferes(step, t, ids)
    ensures FirstTurns(s, steps, ids, ids[..served]) <= ids
    decreases |steps|
  {
    if steps != [] {
      assert steps[0] in steps;
      CoreStep(s, steps[0]);
      LinedStep(s, steps[0], t, ids, served);
      TurnExtendsPrefix(s, steps[0], t, ids, served);
      TurnsInOrder(Apply(s, steps[0]), steps[1..], t, ids, ServedAfter(s, steps[0], ids, served));
    }
  }

  /** After a successful reorder the listed runs get their next turns in exactly the requested order, despite
      retries, back-off, resumed runs and later submissions. */
  lemma ReorderDecidesTurns(s: State, t: ThreadId, expected: seq<RunId>, requested: seq<RunId>, s': State, steps: seq<Step>)
    requires CoreInv(s) && Reorder(s, t, expected, requested) == Commit(s')
    requires forall step :: step in steps ==> !Interferes(step, t, requested)
    ensures FirstTurns(s', steps, requested, []) <= requested
  {
    ReorderKeepsCore(s, t, expected, requested, s');
    ReorderRoundTrip(s, t, expected, requested, s');
    QueueIsLined(s', t, requested);
    assert requested[..0] == [];
    TurnsInOrder(s', steps, t, requested, 0);
  }

  lemma ReorderIsStep(s: State, t: ThreadId, expected: seq<RunId>, requested: seq<RunId>, s': State)
    requires Reorder(s, t, expected, requested) == Commit(s')
    ensures Apply(s, ReorderQueue(t, expected, requested)) == s'
  {
  }

  lemma ReorderKeepsCore(s: State, t: ThreadId, expected: seq<RunId>, requested: seq<RunId>, s': State)
    requires CoreInv(s) && Reorder(s, t, expected, requested) == Commit(s')
    ensures CoreInv(s')
  {
    ReorderIsStep(s, t, expected, requested, s');
    CoreStep(s, ReorderQueue(t, expected, requested));
  }

  lemma QueueIsLined(s: State, t: ThreadId, ids: seq<RunId>)
    requires QueueInv(s) && IsQueue(s, t, ids)
    ensures Lined(s, t, ids, 0)
  {
    forall i, j | 0 <= i < j < |ids|
      ensures s.runs[ids[i]].queuePosition < s.runs[ids[j]].queuePosition
    {
      QueuePositionsGrow(s, t, ids, i, j);
    }
  }
}
