/** The API's ownership endpoints as an object on the mutable tables. */
module CoreApiEndpoints {
  import opened Wrappers
  import opened RunState
  import opened Tables
  import opened RunStore
  import opened CoreApi
  import opened Databases
  import opened RunRepositories
  import opened CheckpointStores

  class Endpoints {
    const db: Database
    const repository: RunRepository
    const store: CheckpointStore

    constructor (db: Database, cfg: Config)
      ensures this.db == db && repository.db == db && store.db == db
    {
      this.db := db;
      repository := new RunRepository(db, cfg);
      store := new CheckpointStore(db);
    }

    /** `_cancel_row` with action interrupt. */
    method Interrupt(r: RunId) returns (ok: bool)
      requires repository.db == db
      modifies db
      ensures ok == Cancel(old(db.View()), r).Commit?
      ensures db.View() == After(old(db.View()), Cancel(old(db.View()), r))
    {
      var saved := db.View();
      if r !in db.runs || IsTerminal(db.runs[r].status) { return true; }
      var run := db.runs[r];
      var change := Transit(run.status, Interrupted, CancelRequested, run.retryCount);
      if change.InvalidTransition? { return false; }
      var wasRunning := run.status == Running;
      run := run.(status := change.status, reason := Some(change.reason));
      if !wasRunning {
        run := run.(leaseOwner := None, leaseExpiresAt := None);
      }
      run := run.(updatedAt := db.clock);
      db.runs := db.runs[r := run];
      if !wasRunning {
        db.leases := db.leases - {r};
      }
      ok := repository.RecordForRun(r, StatusNotice(Interrupted, "cancel_requested"));
      if !ok { db.Rollback(saved); }
    }

    /** `_cancel_row` with action rollback. */
    method RequestRollBack(r: RunId) returns (ok: bool)
      requires store.db == db
      modifies db
      ensures ok == RequestRollback(old(db.View()), r).Commit?
      ensures db.View() == After(old(db.View()), RequestRollback(old(db.View()), r))
    {
      if r !in db.runs { return true; }
      ok := store.Rollback(r, true);
      if !ok { return; }
      if db.runs[r].leaseOwner.None? {
        ok := store.Rollback(r, false);
        return;
      }
      var run := db.runs[r];
      db.runs := db.runs[r := run.(status := Interrupted, reason := Some(RunReason.Rollback), updatedAt := db.clock)];
    }

    /** `runs_cancel_many` with action rollback: one conflict abandons the whole request. */
    method RollBackMany(order: seq<RunId>) returns (ok: bool)
      requires store.db == db
      modifies db
      ensures ok == RollbackMany(old(db.View()), order).Commit?
      ensures db.View() == After(old(db.View()), RollbackMany(old(db.View()), order))
    {
      var saved := db.View();
      assert order[0..] == order;
      for i := 0 to |order|
        invariant RollbackMany(saved, order) == RollbackMany(db.View(), order[i..])
      {
        assert order[i..][0] == order[i] && order[i..][1..] == order[i + 1..];
        ok := RequestRollBack(order[i]);
        if !ok {
          db.Rollback(saved);
          return;
        }
      }
      return true;
    }

    /** `runs_queue` with operation reorder: the requested runs take the queue's positions, in the requested order. */
    method ReorderQueue(t: ThreadId, expected: seq<RunId>, requested: seq<RunId>) returns (ok: bool)
      modifies db
      ensures ok == Reorder(old(db.View()), t, expected, requested).Commit?
      ensures db.View() == After(old(db.View()), Reorder(old(db.View()), t, expected, requested))
    {
      if !Distinct(expected) || !Permutes(requested, expected) { return false; }
      if t !in db.threads { return false; }
      if !IsQueue(db.View(), t, expected) { return false; }
      var positions := Positions(expected);
      AllAssigned(db.runs, expected, requested, positions);
      AssignPositions(requested, positions);
      return true;
    }

    method AssignPositions(requested: seq<RunId>, positions: seq<nat>)
      requires Distinct(requested) && |requested| == |positions| && forall q :: q in requested ==> q in db.runs
      modifies db`runs
      ensures db.runs == Assigned(old(db.runs), requested, positions, |requested|)
    {
      ghost var was := db.runs;
      for i := 0 to |requested|
        invariant db.runs == Assigned(was, requested, positions, i)
      {
        AssignOne(was, requested, positions, i);
        db.runs := db.runs[requested[i] := db.runs[requested[i]].(queuePosition := positions[i])];
      }
    }

    /** The positions of the queued runs, which the query returns in ascending order. */
    method Positions(expected: seq<RunId>) returns (positions: seq<nat>)
      requires forall q :: q in expected ==> q in db.runs
      ensures |positions| == |expected|
      ensures forall i :: 0 <= i < |expected| ==> positions[i] == db.runs[expected[i]].queuePosition
    {
      positions := [];
      for i := 0 to |expected|
        invariant |positions| == i
        invariant forall j :: 0 <= j < i ==> positions[j] == db.runs[expected[j]].queuePosition
      {
        positions := positions + [db.runs[expected[i]].queuePosition];
      }
    }
  }

  /** The run rows once the first `n` requested runs have their positions. */
  function Assigned(runs: map<RunId, Run>, requested: seq<RunId>, positions: seq<nat>, n: nat): map<RunId, Run>
    requires n <= |requested| == |positions|
  {
    map q | q in runs ::
      if q in requested && IndexOf(requested, q) < n then runs[q].(queuePosition := positions[IndexOf(requested, q)]) else runs[q]
  }

  lemma AssignOne(runs: map<RunId, Run>, requested: seq<RunId>, positions: seq<nat>, i: nat)
    requires Distinct(requested) && i < |requested| == |positions| && requested[i] in runs
    ensures var before := Assigned(runs, requested, positions, i);
            Assigned(runs, requested, positions, i + 1)
            == before[requested[i] := before[requested[i]].(queuePosition := positions[i])]
  {
    IndexOfAt(requested, i);
  }

  lemma AllAssigned(runs: map<RunId, Run>, expected: seq<RunId>, requested: seq<RunId>, positions: seq<nat>)
    requires |requested| == |expected| == |positions| && forall q :: q in expected ==> q in runs
    requires forall i :: 0 <= i < |expected| ==> positions[i] == runs[expected[i]].queuePosition
    ensures Assigned(runs, requested, positions, |requested|) == Reordered(runs, expected, requested)
  {
  }
}
