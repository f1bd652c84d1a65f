/** Idempotent submission: a key names at most one run, and repeating a submission finds that run. */
module Submissions {
  import opened Wrappers
  import opened RunState
  import opened Tables
  import opened RunStore
  import opened Protocol
  import opened StepCases
  import opened Kinds
  import opened RunSteps
  import opened TerminalEvents
  import opened LogEvolution
  import opened Reachable

  ghost predicate KeysUnique(s: State) {
    forall p, q :: p in s.runs && q in s.runs && p != q && s.runs[p].idempotencyKey.Some? ==>
      s.runs[p].idempotencyKey != s.runs[q].idempotencyKey
  }

  predicate SameTarget(a: Run, b: Run) {
    a.thread == b.thread && a.assistant == b.assistant && a.idempotencyKey == b.idempotencyKey
  }

  lemma TargetKept(s: State, step: Step, r: RunId)
    requires OwnershipInv(s) && r in s.runs && r in Apply(s, step).runs
    ensures SameTarget(s.runs[r], Apply(s, step).runs[r])
  {
    EveryRow(s, step, r);
    SameTargetRow(s.runs[r], Apply(s, step).runs[r]);
  }

  lemma SameTargetRow(a: Run, b: Run)
    requires RowStep(a, b)
    ensures SameTarget(a, b)
  {
  }

  /** Only a submission adds a run, and its key is new. */
  lemma OnlyCreationAdds(s: State, s': State, k: Kind, r: RunId)
    requires IsKind(s, s', k) && r in s'.runs && r !in s.runs
    ensures k.Creation? && k.r == r && !HasKey(s.runs, s'.runs[r].idempotencyKey)
  {
    match k {
      case Deletion(q) => DeletionFrame(s, q, s');
      case WorkerWrote(_, _, _) => TableKinds(s, s', k);
      case StateUpdated(_, _, _) => TableKinds(s, s', k);
      case LatestKept(_) => TableKinds(s, s', k);
      case Granting(cfg, q, owner) => PrepareFrame(s, q);
      case _ =>
    }
  }

  lemma AddedIsNew(s: State, step: Step, r: RunId, q: RunId)
    requires OwnershipInv(s) && r in Apply(s, step).runs && r !in s.runs && q in Apply(s, step).runs && q != r
    requires Apply(s, step).runs[r].idempotencyKey.Some?
    ensures Apply(s, step).runs[q].idempotencyKey != Apply(s, step).runs[r].idempotencyKey
  {
    var s' := Apply(s, step);
    var k := Classify(s, step);
    OnlyCreationAdds(s, s', k, r);
    if q !in s.runs { OnlyCreationAdds(s, s', k, q); }
    TargetKept(s, step, q);
  }

  lemma KeysStep(s: State, step: Step)
    requires OwnershipInv(s) && KeysUnique(s)
    ensures KeysUnique(Apply(s, step))
  {
    var s' := Apply(s, step);
    forall p, q | p in s'.runs && q in s'.runs && p != q && s'.runs[p].idempotencyKey.Some?
      ensures s'.runs[p].idempotencyKey != s'.runs[q].idempotencyKey
    {
      if p !in s.runs {
        AddedIsNew(s, step, p, q);
      } else if q !in s.runs {
        if s'.runs[q].idempotencyKey.Some? { AddedIsNew(s, step, q, p); }
      } else {
        TargetKept(s, step, p);
        TargetKept(s, step, q);
      }
    }
  }

  lemma {:induction false} KeysAlways(s: State, steps: seq<Step>)
    requires Inv(s) && KeysUnique(s)
    ensures KeysUnique(Exec(s, steps)) && Inv(Exec(s, steps))
    decreases |steps|
  {
    if steps != [] {
      KeysStep(s, steps[0]);
      InvStep(s, steps[0]);
      KeysAlways(Apply(s, steps[0]), steps[1..]);
    }
  }

  lemma {:induction false} TargetLasts(s: State, steps: seq<Step>, r: RunId)
    requires Inv(s) && r in s.runs && r in Exec(s, steps).runs
    ensures SameTarget(s.runs[r], Exec(s, steps).runs[r])
    decreases |steps|
  {
    if steps != [] {
      var s1 := Apply(s, steps[0]);
      InvStep(s, steps[0]);
      EveryRow(s, steps[0], r);
      if r !in s1.runs {
        HistoryEvolves(s1, steps[1..]);
      } else {
        TargetKept(s, steps[0], r);
        TargetLasts(s1, steps[1..], r);
      }
    }
  }

  /** In every reachable database a key names at most one run. */
  lemma KeysNameOneRun(clock: Time, steps: seq<Step>, p: RunId, q: RunId)
    requires var s := Reached(clock, steps);
             && p in s.runs && q in s.runs && s.runs[p].idempotencyKey.Some?
             && s.runs[p].idempotencyKey == s.runs[q].idempotencyKey
    ensures p == q
  {
    InvInit(clock);
    KeysAlways(Init(clock), steps);
  }

  predicate HasName(sub: Submission) {
    sub.idempotencyKey != None && sub.idempotencyKey != Some("")
  }

  /** The submission, with a key that is not empty, is accepted as a new run. */
  ghost predicate Creates(s: State, cfg: Config, r: RunId, sub: Submission) {
    HasName(sub) && Create(s, cfg, r, sub).Commit? && r !in s.runs && r in Create(s, cfg, r, sub).db.runs
  }

  lemma CreatedTarget(s: State, cfg: Config, r: RunId, sub: Submission)
    requires Creates(s, cfg, r, sub)
    ensures var run := Create(s, cfg, r, sub).db.runs[r];
            run.thread == sub.thread && run.assistant == sub.assistant && run.idempotencyKey == sub.idempotencyKey
  {
  }

  lemma RepeatFinds(s: State, cfg: Config, r: RunId, other: RunId, sub: Submission)
    requires r in s.runs && HasName(sub)
    requires !sub.overlooks || (other !in s.issued && !sub.reject)
    requires s.runs[r].thread == sub.thread && s.runs[r].assistant == sub.assistant
    requires s.runs[r].idempotencyKey == sub.idempotencyKey
    ensures Create(s, cfg, other, sub) == Commit(s)
  {
  }

  /** A submission that is repeated after any history in which its run still exists creates nothing: it finds that run, and
      no other run has its key. So it does when its first look came too early, unless it rejects busy threads before. */
  lemma SubmissionIsIdempotent(clock: Time, before: seq<Step>, cfg: Config, r: RunId, sub: Submission,
                               after: seq<Step>, again: Config, other: RunId)
    requires Creates(Reached(clock, before), cfg, r, sub)
    requires r in Exec(Create(Reached(clock, before), cfg, r, sub).db, after).runs
    ensures var s := Exec(Create(Reached(clock, before), cfg, r, sub).db, after);
            && Create(s, again, other, sub.(overlooks := false)) == Commit(s)
            && (!sub.reject && other !in s.issued ==> Create(s, again, other, sub.(overlooks := true)) == Commit(s))
            && forall q :: q in s.runs && s.runs[q].idempotencyKey == sub.idempotencyKey ==> q == r
  {
    var s := Reached(clock, before);
    var s1 := Create(s, cfg, r, sub).db;
    ReachedInv(clock, before);
    SubmitIsStep(s, cfg, r, sub);
    InvStep(s, Submit(cfg, r, sub));
    CreatedTarget(s, cfg, r, sub);
    TargetLasts(s1, after, r);
    RepeatFinds(Exec(s1, after), again, r, other, sub.(overlooks := false));
    if !sub.reject && other !in Exec(s1, after).issued {
      RepeatFinds(Exec(s1, after), again, r, other, sub.(overlooks := true));
    }
    InvInit(clock);
    KeysAlways(Init(clock), before);
    KeysStep(s, Submit(cfg, r, sub));
    KeysAlways(s1, after);
  }

  lemma SubmitIsStep(s: State, cfg: Config, r: RunId, sub: Submission)
    requires Create(s, cfg, r, sub).Commit?
    ensures Apply(s, Submit(cfg, r, sub)) == Create(s, cfg, r, sub).db
  {
  }

  /** A key that a run already has decides a submission: a key that is not empty finds its run, which must have the same
      target, as soon as it is looked up; an empty key is never looked up and is refused as a duplicate. */
  lemma TakenKeyDecides(clock: Time, steps: seq<Step>, cfg: Config, r: RunId, sub: Submission, holder: RunId)
    requires var s := Reached(clock, steps);
             && holder in s.runs && s.runs[holder].idempotencyKey == sub.idempotencyKey && sub.idempotencyKey != None
             && r !in s.issued
    ensures var s := Reached(clock, steps);
            var busy := sub.reject && !sub.resume && sub.thread.Some?
                        && exists q :: q in s.runs && s.runs[q].thread == sub.thread && s.runs[q].status in {Pending, Running};
            Create(s, cfg, r, sub) ==
              if busy && (sub.overlooks || sub.idempotencyKey == Some("")) then Abort(SubmissionConflict)
              else if sub.idempotencyKey == Some("") then Abort(BadRequest)
              else if s.runs[holder].thread == sub.thread && s.runs[holder].assistant == sub.assistant then Commit(s)
              else Abort(SubmissionConflict)
  {
    forall q | q in Reached(clock, steps).runs && Reached(clock, steps).runs[q].idempotencyKey == sub.idempotencyKey
      ensures q == holder
    {
      KeysNameOneRun(clock, steps, q, holder);
    }
  }
}
