/** Checkpoint maintenance and the fenced saver as objects on the mutable tables. */
module CheckpointStores {
  import opened Wrappers
  import opened RunState
  import opened Tables
  import opened CheckpointPruning
  import opened CheckpointMutations
  import opened Databases
  import PruneWalk

  class CheckpointStore {
    const db: Database

    constructor (db: Database)
      ensures this.db == db
    {
      this.db := db;
    }

    method HistoryOfThread(t: ThreadId) returns (h: History)
      ensures h == HistoryOf(db.View(), OfThread(t))
    {
      h := if OfThread(t) in db.tables then db.tables[OfThread(t)] else EMPTY_HISTORY;
    }

    /** Compares the current rows with the baseline, row by row. */
    method ChangedOnlyByItself(base: History, now: History, r: RunId) returns (own: bool)
      ensures own == OwnChangesOnly(base, now, r)
    {
      var rest := now.checkpoints.Keys;
      while rest != {}
        invariant rest <= now.checkpoints.Keys
        invariant forall k :: k in now.checkpoints && k !in rest ==>
                    (k in base.checkpoints && base.checkpoints[k] == now.checkpoints[k]) || now.checkpoints[k].runId == Some(r)
        decreases |rest|
      {
        var key :| key in rest;
        rest := rest - {key};
        var row := now.checkpoints[key];
        if key in base.checkpoints && base.checkpoints[key] == row { continue; }
        if row.runId != Some(r) { return false; }
      }
      return true;
    }

    /** The checks of `rollback_run`. */
    method Validate(r: RunId) returns (ok: bool)
      ensures ok == MayRollback(db.View(), r)
    {
      if r !in db.runs { return false; }
      var run := db.runs[r];
      if run.thread.None? { return true; }
      var t := run.thread.value;
      if t !in db.threads || OtherActive(db.runs, t, r) { return false; }
      if r !in db.baselines { return run.retryCount == 0 && run.status in {Pending, Interrupted}; }
      var now := HistoryOfThread(t);
      var own := ChangedOnlyByItself(db.baselines[r].history, now, r);
      return own && !LaterCapture(db.baselines, t, r);
    }

    /** `rollback_run`: restores the baseline's rows and columns and deletes the run, or changes nothing. */
    method Rollback(r: RunId, validateOnly: bool) returns (ok: bool)
      modifies db
      ensures ok == MayRollback(old(db.View()), r)
      ensures db.View() == if validateOnly then old(db.View()) else After(old(db.View()), RollbackRun(old(db.View()), r))
    {
      ok := Validate(r);
      if !ok || validateOnly { return; }
      if db.runs[r].thread.Some? && r in db.baselines {
        var b := db.baselines[r];
        db.tables := db.tables[OfThread(b.thread) := b.history];
        if b.thread in db.threads {
          db.threads := db.threads[b.thread := db.threads[b.thread].(projection := b.projection)];
        }
      }
      Delete(r);
    }

    /** Deleting a run cascades to its lease, its baseline and its events. */
    method Delete(r: RunId)
      modifies db`runs, db`leases, db`baselines, db`events
      ensures db.View() == DeleteRun(old(db.View()), r)
    {
      db.runs := db.runs - {r};
      db.leases := db.leases - {r};
      db.baselines := db.baselines - {r};
      db.events := map k | k in db.events && db.events[k].run != Some(r) :: db.events[k];
    }

    /** `complete_rollbacks`: one transaction for each marked run; a conflict leaves that run for later. */
    method CompleteRollbacks(ids: seq<RunId>, owner: Option<Owner>)
      modifies db
      ensures db.View() == CompleteAll(old(db.View()), ids, owner)
    {
      ghost var before := db.View();
      assert ids[0..] == ids;
      for i := 0 to |ids|
        invariant CompleteAll(before, ids, owner) == CompleteAll(db.View(), ids[i..], owner)
      {
        assert ids[i..][0] == ids[i] && ids[i..][1..] == ids[i + 1..];
        var r := ids[i];
        if r in db.runs && db.runs[r].reason == Some(RunReason.Rollback) && Stopped(db.runs[r], owner, db.clock) {
          var _ := Rollback(r, false);
        }
      }
    }

    /** `prune_checkpoints`; `order` is the order in which the query returns the thread's rows. */
    method Prune(t: ThreadId, order: seq<CheckpointKey>) returns (ok: bool)
      requires PruneWalk.NewestFirst(HistoryOf(db.View(), OfThread(t)).checkpoints, order)
      modifies db
      ensures ok == PruneCheckpoints(old(db.View()), t).Commit?
      ensures db.View() == After(old(db.View()), PruneCheckpoints(old(db.View()), t))
    {
      if AnyActive(db.runs, t) { return false; }
      var history := HistoryOfThread(t);
      var blobs := if OfThread(t) in db.blobs then db.blobs[OfThread(t)] else {};
      var kept := PruneWalk.FindKept(history.checkpoints, order, blobs);
      var left := DeleteOthers(history, order, kept);
      SweepAll(history, order, kept);
      db.tables := db.tables[OfThread(t) := left];
      db.baselines := map q | q in db.baselines && db.baselines[q].thread != t :: db.baselines[q];
      return true;
    }

    /** `_writer` with `aput` or `aput_writes`: a worker's write passes the fence; one without worker identity needs a thread
        on which no other run is active, and supersedes its baselines if its configuration names no run. */
    method Put(writer: Option<Writer>, onBehalf: Option<RunId>, at: Resource, change: Change) returns (ok: bool)
      modifies db
      ensures var s := old(db.View());
              var tx := if writer.Some? then FencedWrite(s, writer.value, at, change)
                        else UnfencedWrite(s, at, onBehalf, change);
              ok == tx.Commit? && db.View() == After(s, tx)
    {
      var stamped := change;
      if writer.Some? {
        if !Owns(db.View(), writer.value, at) { return false; }
        stamped := Stamp(change, writer.value.run);
        db.accepted := db.accepted + [Accepted(at, writer.value.run, writer.value.generation, LastClaim(db.claims, at))];
      } else if at.OfThread? {
        if ForeignActive(db.runs, at.thread, onBehalf) { return false; }
        if onBehalf.None? {
          db.baselines := map q | q in db.baselines && db.baselines[q].thread != at.thread :: db.baselines[q];
        }
      }
      Store(at, stamped);
      return true;
    }

    method Store(at: Resource, change: Change)
      modifies db`tables, db`blobs
      ensures db.View() == Write(old(db.View()), at, change)
    {
      var history := if at in db.tables then db.tables[at] else EMPTY_HISTORY;
      match change {
        case PutCheckpoint(key, row, blobs) =>
          db.tables := db.tables[at := history.(checkpoints := history.checkpoints[key := row])];
          db.blobs := db.blobs[at := (if at in db.blobs then db.blobs[at] else {}) + blobs];
        case PutWrites(rows, overwrite) =>
          db.tables := db.tables[at := history.(writes := if overwrite then history.writes + rows else rows + history.writes)];
      }
    }
  }

  /** The history without one checkpoint and the writes attached to it. */
  function Without(h: History, key: CheckpointKey): History {
    History(h.checkpoints - {key}, map w | w in h.writes && w.at != key :: h.writes[w])
  }

  /** Deletes the listed checkpoints outside `kept`, one after the other. */
  method DeleteOthers(h: History, order: seq<CheckpointKey>, kept: set<CheckpointKey>) returns (left: History)
    ensures left == Sweep(h, order, kept)
  {
    left := h;
    assert order[0..] == order;
    for i := 0 to |order|
      invariant Sweep(h, order, kept) == Sweep(left, order[i..], kept)
    {
      assert order[i..][0] == order[i] && order[i..][1..] == order[i + 1..];
      if order[i] !in kept {
        left := Without(left, order[i]);
      }
    }
  }

  function Sweep(h: History, order: seq<CheckpointKey>, kept: set<CheckpointKey>): History
    decreases |order|
  {
    if order == [] then h
    else Sweep(if order[0] in kept then h else Without(h, order[0]), order[1..], kept)
  }

  ghost function Spared(h: History, order: seq<CheckpointKey>, kept: set<CheckpointKey>): set<CheckpointKey> {
    set k | k in h.checkpoints && (k in kept || k !in order)
  }

  lemma SweepOne(h: History, order: seq<CheckpointKey>, kept: set<CheckpointKey>)
    requires order != [] && order[0] in h.checkpoints && order[0] !in kept && order[0] !in order[1..]
    ensures var h1 := Without(h, order[0]);
            KeepOnly(h1, Spared(h1, order[1..], kept)) == KeepOnly(h, Spared(h, order, kept))
  {
  }

  lemma SkipOne(h: History, order: seq<CheckpointKey>, kept: set<CheckpointKey>)
    requires order != [] && order[0] in kept
    ensures Spared(h, order[1..], kept) == Spared(h, order, kept)
  {
  }

  /** Sweeping over distinct rows deletes exactly those outside `kept`. */
  lemma {:induction false} SweepKeepsOnly(h: History, order: seq<CheckpointKey>, kept: set<CheckpointKey>)
    requires forall i, j :: 0 <= i < j < |order| ==> order[i] != order[j]
    requires forall k :: k in order ==> k in h.checkpoints
    ensures Sweep(h, order, kept) == KeepOnly(h, Spared(h, order, kept))
    decreases |order|
  {
    if order == [] {
      PruneWalk.KeepAll(h, Spared(h, order, kept));
    } else if order[0] in kept {
      SkipOne(h, order, kept);
      SweepKeepsOnly(h, order[1..], kept);
    } else {
      SweepOne(h, order, kept);
      SweepKeepsOnly(Without(h, order[0]), order[1..], kept);
    }
  }

  lemma SweepAll(h: History, order: seq<CheckpointKey>, kept: set<CheckpointKey>)
    requires PruneWalk.NewestFirst(h.checkpoints, order)
    ensures Sweep(h, order, kept) == KeepOnly(h, kept)
  {
    SweepKeepsOnly(h, order, kept);
    assert Spared(h, order, kept) == h.checkpoints.Keys * kept;
  }

  function CompleteAll(s: State, ids: seq<RunId>, owner: Option<Owner>): State
    decreases |ids|
  {
    if ids == [] then s else CompleteAll(CompleteRollback(s, ids[0], owner), ids[1..], owner)
  }
}
