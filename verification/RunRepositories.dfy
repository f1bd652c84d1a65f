/** The repository as an object: each method is one transaction on the mutable tables, and does what `RunStore` says. */
module RunRepositories {
  import opened Wrappers
  import opened RunState
  import opened Tables
  import opened EventLog
  import opened RunStore
  import opened Databases

  class RunRepository {
    const db: Database
    const cfg: Config

    constructor (db: Database, cfg: Config)
      ensures this.db == db && this.cfg == cfg
    {
      this.db, this.cfg := db, cfg;
    }

    // ---- events ----

    /** `record_event` for a run. */
    method RecordForRun(r: RunId, n: Notice) returns (ok: bool)
      modifies db
      ensures ok == Record(old(db.View()), r, n).Commit?
      ensures db.View() == After(old(db.View()), Record(old(db.View()), r, n))
    {
      if r !in db.runs { return false; }
      if n.terminal && exists k :: k in db.events && db.events[k].run == Some(r) && db.events[k].terminal { return true; }
      var run := db.runs[r];
      var sequence: nat;
      match run.thread {
        case Some(t) =>
          if t !in db.threads { return false; }
          var rows := db.MaxThreadSequence(t);
          sequence := Max(db.threads[t].eventSeq, rows) + 1;
          db.threads := db.threads[t := db.threads[t].(eventSeq := sequence)];
        case None =>
          var rows := db.MaxRunSequence(r);
          sequence := Max(run.eventSeq, rows) + 1;
      }
      db.runs := db.runs[r := run.(eventSeq := Max(run.eventSeq, sequence))];
      db.InsertEvent(Event(Some(r), run.thread, sequence, n.topic, n.namespace, n.payload, n.terminal, db.clock));
      return true;
    }

    /** `record_event` for an event that belongs to no run. */
    method RecordRunless(thread: Option<ThreadId>, n: Notice) returns (ok: bool)
      modifies db
      ensures ok == RecordEvent(old(db.View()), None, thread, n).Commit?
      ensures db.View() == After(old(db.View()), RecordEvent(old(db.View()), None, thread, n))
    {
      if thread.None? || thread.value !in db.threads { return false; }
      var t := thread.value;
      var rows := db.MaxThreadSequence(t);
      var sequence := Max(db.threads[t].eventSeq, rows) + 1;
      db.threads := db.threads[t := db.threads[t].(eventSeq := sequence)];
      db.InsertEvent(Event(None, thread, sequence, n.topic, n.namespace, n.payload, n.terminal, db.clock));
      return true;
    }

    /** `record_event`: with a run, its thread must be the given one, if one is given. */
    method RecordOne(run: Option<RunId>, thread: Option<ThreadId>, n: Notice) returns (ok: bool)
      modifies db
      ensures ok == RecordEvent(old(db.View()), run, thread, n).Commit?
      ensures db.View() == After(old(db.View()), RecordEvent(old(db.View()), run, thread, n))
    {
      if run.None? {
        ok := RecordRunless(thread, n);
        return;
      }
      if run.value !in db.runs || (thread.Some? && thread != db.runs[run.value].thread) { return false; }
      ok := RecordForRun(run.value, n);
    }

    /** Several events of a run in one transaction, one after the other. */
    method RecordEach(r: RunId, notices: seq<Notice>) returns (ok: bool)
      modifies db
      ensures ok == RecordAll(old(db.View()), r, notices).Commit?
      ensures db.View() == After(old(db.View()), RecordAll(old(db.View()), r, notices))
    {
      var saved := db.View();
      assert notices[0..] == notices;
      for i := 0 to |notices|
        invariant RecordAll(saved, r, notices) == RecordAll(db.View(), r, notices[i..])
      {
        assert notices[i..][0] == notices[i] && notices[i..][1..] == notices[i + 1..];
        ok := RecordForRun(r, notices[i]);
        if !ok {
          db.Rollback(saved);
          return;
        }
      }
      return true;
    }

    /** `record_message_deltas`: one cursor read, consecutive rows, one cursor write. */
    method RecordMessageDeltas(r: RunId, thread: Option<ThreadId>, notices: seq<Notice>) returns (ok: bool)
      modifies db
      ensures ok == RecordDeltas(old(db.View()), r, thread, notices).Commit?
      ensures db.View() == After(old(db.View()), RecordDeltas(old(db.View()), r, thread, notices))
    {
      if notices == [] { return true; }
      if r !in db.runs || (thread.Some? && thread != db.runs[r].thread) { return false; }
      var run := db.runs[r];
      var cursor: nat;
      match run.thread {
        case Some(t) =>
          if t !in db.threads { return false; }
          var rows := db.MaxThreadSequence(t);
          cursor := Max(db.threads[t].eventSeq, Max(run.eventSeq, rows));
          db.threads := db.threads[t := db.threads[t].(eventSeq := cursor + |notices|)];
        case None =>
          var rows := db.MaxRunSequence(r);
          cursor := Max(run.eventSeq, rows);
      }
      db.runs := db.runs[r := run.(eventSeq := cursor + |notices|)];
      InsertRows(r, run.thread, notices, cursor);
      return true;
    }

    method InsertRows(r: RunId, thread: Option<ThreadId>, notices: seq<Notice>, cursor: nat)
      modifies db`events, db`inserted
      ensures db.View() == InsertBatch(old(db.View()), r, thread, notices, cursor)
    {
      assert notices[0..] == notices;
      for i := 0 to |notices|
        invariant InsertBatch(old(db.View()), r, thread, notices, cursor)
                  == InsertBatch(db.View(), r, thread, notices[i..], cursor + i)
      {
        assert notices[i..][0] == notices[i] && notices[i..][1..] == notices[i + 1..];
        db.InsertEvent(BatchRow(db.View(), r, thread, notices[i], cursor + i + 1));
      }
    }

    method Earliest(ids: set<EventId>) returns (first: EventId)
      requires ids != {} && forall k :: k in ids ==> k in db.events
      ensures first in ids && forall k :: k in ids ==> db.events[first].sequence <= db.events[k].sequence
    {
      first :| first in ids;
      var rest := ids - {first};
      while rest != {}
        invariant rest <= ids && first in ids
        invariant forall k :: k in ids && k !in rest ==> db.events[first].sequence <= db.events[k].sequence
        decreases |rest|
      {
        var k :| k in rest;
        rest := rest - {k};
        if db.events[k].sequence < db.events[first].sequence {
          first := k;
        }
      }
    }

    /** The first expired rows of a run, ordered by sequence and cut off at the batch size. */
    method ExpiredBatch(r: RunId, cutoff: Time, batch: nat) returns (ids: set<EventId>)
      requires batch > 0 && HasExpired(db.View(), r, cutoff)
      ensures IsExpiredBatch(db.View(), r, cutoff, batch, ids)
    {
      ids := {};
      var rest := set k | k in db.events && Expired(db.View(), r, cutoff, k);
      var k :| k in db.events && Expired(db.View(), r, cutoff, k);
      assert k in rest;
      while |ids| < batch && rest != {}
        invariant |ids| <= batch && ids !! rest && (ids != {} || rest != {})
        invariant forall k :: k in ids || k in rest <==> k in db.events && Expired(db.View(), r, cutoff, k)
        invariant forall k, j | k in ids && j in rest :: db.events[k].sequence <= db.events[j].sequence
        decreases |rest|
      {
        var first := Earliest(rest);
        ids, rest := ids + {first}, rest - {first};
      }
    }

    /** Deletes the batch and raises the watermarks. */
    method DropBatch(r: RunId, ids: set<EventId>) returns (count: nat)
      requires r in db.runs
      modifies db
      ensures count == |ids| && db.View() == DropEvents(old(db.View()), r, ids, Watermark(old(db.View()), ids))
    {
      var watermark := db.MaxSequenceOf(ids);
      db.events := db.events - ids;
      var run := db.runs[r];
      db.runs := db.runs[r := run.(eventPrunedThrough := Max(run.eventPrunedThrough, watermark))];
      if run.thread.Some? && run.thread.value in db.threads {
        var thread := db.threads[run.thread.value];
        db.threads := db.threads[run.thread.value := thread.(eventPrunedThrough := Max(thread.eventPrunedThrough, watermark))];
      }
      return |ids|;
    }

    /** `prune_expired_events`: one batch of one old terminal run, whichever of them the skip-locked query returns. */
    method PruneExpiredEvents(retention: int, batch: int, now: Time) returns (count: nat, ghost r: RunId, ghost ids: set<EventId>)
      modifies db
      ensures if retention > 0 && batch > 0 && AnyPrunable(old(db.View()), now - retention as real)
              then MayPrune(old(db.View()), r, now - retention as real, batch, ids) && count == |ids|
                   && db.View() == PruneEvents(old(db.View()), r, now - retention as real, batch, ids)
              else count == 0 && db.View() == old(db.View())
    {
      count, r, ids := 0, 0, {};
      if retention <= 0 || batch <= 0 { return; }
      var cutoff := now - retention as real;
      if run :| run in db.runs && Prunable(db.View(), run, cutoff) {
        var rows := ExpiredBatch(run, cutoff, batch);
        r, ids := run, rows;
        count := DropBatch(run, rows);
      }
    }

    // ---- ownership ----

    /** The run with the submission's key has its target, too. */
    method IsRepeat(sub: Submission) returns (ok: bool)
      ensures ok == Repeated(db.View(), sub).Commit?
    {
      ok := exists q :: q in db.runs && db.runs[q].idempotencyKey == sub.idempotencyKey
                        && db.runs[q].thread == sub.thread && db.runs[q].assistant == sub.assistant;
    }

    /** `create`; `r` is the identifier that the insert generates. */
    method Create(r: RunId, sub: Submission) returns (ok: bool)
      modifies db
      ensures ok == RunStore.Create(old(db.View()), cfg, r, sub).Commit?
      ensures db.View() == After(old(db.View()), RunStore.Create(old(db.View()), cfg, r, sub))
    {
      if LooksUp(sub) && !sub.overlooks && HasKey(db.runs, sub.idempotencyKey) {
        ok := IsRepeat(sub);
        return;
      }
      if sub.reject && !sub.resume && sub.thread.Some? && Queued(db.runs, sub.thread.value) { return false; }
      if r in db.issued { return false; }
      if HasKey(db.runs, sub.idempotencyKey) {
        if !LooksUp(sub) { return false; }
        ok := IsRepeat(sub);
        return;
      }
      var position := db.MaxPosition(sub.thread);
      db.runs := db.runs[r := Run(sub.thread, sub.assistant, Pending, None, 0, cfg.maxAttempts, None, None, None, 0, 0,
                                  sub.resume, false, sub.streamResumable, sub.idempotencyKey, position + 1, db.clock, db.clock)];
      db.issued := db.issued + {r};
      return true;
    }

    /** `capture_baseline`: the first capture of a run is kept. */
    method CaptureBaseline(r: RunId, t: ThreadId)
      requires t in db.threads
      modifies db
      ensures db.View() == Capture(old(db.View()), r, t)
    {
      if r in db.baselines { return; }
      var history := if OfThread(t) in db.tables then db.tables[OfThread(t)] else EMPTY_HISTORY;
      db.baselines := db.baselines[r := Baseline(t, history, db.threads[t].projection, db.captures)];
      db.captures := db.captures + 1;
    }

    /** `claim_next` once the skip-locked queries chose run `r`. */
    method ClaimNext(r: RunId, owner: Owner) returns (ok: bool)
      modifies db
      ensures ok == ClaimRun(old(db.View()), cfg, r, owner).Commit?
      ensures db.View() == After(old(db.View()), ClaimRun(old(db.View()), cfg, r, owner))
    {
      if !Eligible(db.View(), r) { return true; }
      var run := db.runs[r];
      if run.thread.Some? && run.thread.value !in db.threads { return true; }
      if run.retryCount >= run.maxAttempts {
        ok := GiveUp(r);
        return;
      }
      if run.thread.Some? {
        var t := run.thread.value;
        if OtherActive(db.runs, t, r) { return true; }
        CaptureBaseline(r, t);
        db.SetStatusOfThread(run.thread, "busy");
      }
      TakeLease(r, owner);
      return true;
    }

    /** The exhausted branch of `claim_next`. */
    method GiveUp(r: RunId) returns (ok: bool)
      requires r in db.runs
      modifies db
      ensures ok == Exhaust(old(db.View()), r).Commit?
      ensures db.View() == After(old(db.View()), Exhaust(old(db.View()), r))
    {
      var saved := db.View();
      var run := db.runs[r];
      run := run.(status := Error, reason := Some(InfrastructureError));
      run := run.(nextAttemptAt := None, updatedAt := db.clock);
      db.runs := db.runs[r := run];
      db.SetStatusOfThread(run.thread, "idle");
      ok := RecordForRun(r, Notice(LIFECYCLE, "infrastructure_error", [], true));
      if !ok { db.Rollback(saved); }
    }

    /** The last part of `claim_next`: run row, lease row, and the claim history. */
    method TakeLease(r: RunId, owner: Owner)
      requires r in db.runs
      modifies db
      ensures db.View() == Grant(old(db.View()), cfg, r, owner)
    {
      var run := db.runs[r];
      run := run.(status := Running, reason := None, nextAttemptAt := None);
      run := run.(retryCount := run.retryCount + 1);
      run := run.(maxAttempts := if run.maxAttempts != 0 && run.maxAttempts < cfg.maxAttempts then run.maxAttempts
                                 else cfg.maxAttempts);
      run := run.(leaseOwner := Some(owner), leaseExpiresAt := Some(db.clock + cfg.leaseSeconds));
      db.runs := db.runs[r := run];
      db.leases := db.leases[r := Lease(owner, db.clock + cfg.leaseSeconds, run.retryCount)];
      db.claims := db.claims + [Claim(ResourceOf(r, run), r, run.retryCount)];
    }

    method Renew(r: RunId, owner: Owner) returns (renewed: bool)
      modifies db
      ensures renewed == MayRenew(old(db.View()), r, owner)
      ensures db.View() == RunStore.Renew(old(db.View()), cfg, r, owner)
    {
      if r !in db.runs || db.runs[r].status != Running || db.runs[r].leaseOwner != Some(owner) { return false; }
      var expires := db.clock + cfg.leaseSeconds;
      if r !in db.leases || db.leases[r].owner != owner || db.leases[r].expiresAt <= db.clock { return false; }
      db.leases := db.leases[r := db.leases[r].(expiresAt := expires)];
      db.runs := db.runs[r := db.runs[r].(leaseExpiresAt := Some(expires), updatedAt := db.clock)];
      return true;
    }

    /** The row updates with which every ending lets go of a run. */
    method Release(r: RunId, status: RunStatus, reason: RunReason, nextAttemptAt: Option<Time>)
      requires r in db.runs
      modifies db`runs, db`leases
      ensures db.View() == LetGo(old(db.View()), r, status, reason, nextAttemptAt)
    {
      var run := db.runs[r];
      run := run.(status := status, reason := Some(reason));
      run := run.(leaseOwner := None, leaseExpiresAt := None);
      run := run.(nextAttemptAt := nextAttemptAt, updatedAt := db.clock);
      db.runs := db.runs[r := run];
      db.leases := db.leases - {r};
    }

    method Finish(r: RunId, owner: Owner, target: RunStatus, reason: RunReason, payload: Option<Json>, preceding: seq<Plain>)
        returns (ok: bool)
      modifies db
      ensures ok == RunStore.Finish(old(db.View()), r, owner, target, reason, payload, preceding).Commit?
      ensures db.View() == After(old(db.View()), RunStore.Finish(old(db.View()), r, owner, target, reason, payload, preceding))
    {
      var saved := db.View();
      if r !in db.runs { return false; }
      if IsTerminal(db.runs[r].status) { return true; }
      if db.runs[r].leaseOwner != Some(owner) || (payload.Some? && !IsTerminal(target)) { return false; }
      ok := RecordEach(r, preceding);
      if !ok { return; }
      FinishConcludes(saved, r, owner, target, reason, payload, preceding, db.View());
      ok := Conclude(r, target, reason, payload);
      if !ok { db.Rollback(saved); }
    }

    /** The second half of `finish`: the transition, the row updates and the terminal event. */
    method Conclude(r: RunId, target: RunStatus, reason: RunReason, payload: Option<Json>) returns (ok: bool)
      modifies db
      ensures var tx := Concluded(old(db.View()), r, target, reason, payload);
              ok == tx.Commit? && (ok ==> db.View() == tx.db)
    {
      if r !in db.runs { return false; }
      var change := Transit(db.runs[r].status, target, reason, db.runs[r].retryCount);
      if change.InvalidTransition? { return false; }
      Release(r, change.status, change.reason, None);
      ok := true;
      if IsTerminal(target) {
        ok := RecordForRun(r, StatusNotice(target, payload.GetOr("lifecycle")));
      }
    }

    method Fail(r: RunId, owner: Owner, infrastructure: bool, reason: RunReason) returns (ok: bool)
      modifies db
      ensures ok == RunStore.Fail(old(db.View()), cfg, r, owner, infrastructure, reason).Commit?
      ensures db.View() == After(old(db.View()), RunStore.Fail(old(db.View()), cfg, r, owner, infrastructure, reason))
    {
      var saved := db.View();
      if r !in db.runs || db.runs[r].leaseOwner != Some(owner) { return false; }
      var run := db.runs[r];
      if IsTerminal(run.status) { return true; }
      var change: Transition;
      var next: Option<Time>;
      if infrastructure && Retries(cfg, run) {
        change := Transit(run.status, Pending, Retry, run.retryCount);
        next := Some(db.clock + RetryDelay(cfg, run.retryCount));
      } else {
        change := Transit(run.status, Error, reason, run.retryCount);
        next := None;
      }
      if change.InvalidTransition? { return false; }
      Release(r, change.status, change.reason, next);
      ok := RecordForRun(r, StatusNotice(change.status, "lifecycle"));
      if !ok { db.Rollback(saved); }
    }

    method RequeueForShutdown(r: RunId, owner: Owner, drained: bool) returns (ok: bool)
      modifies db
      ensures ok == RunStore.RequeueForShutdown(old(db.View()), cfg, r, owner, drained).Commit?
      ensures db.View() == After(old(db.View()), RunStore.RequeueForShutdown(old(db.View()), cfg, r, owner, drained))
    {
      var saved := db.View();
      if r !in db.runs || db.runs[r].leaseOwner != Some(owner) { return false; }
      var run := db.runs[r];
      if run.status != Running { return true; }
      var change := Transit(run.status, Pending, ShutdownRequeue, run.retryCount);
      if change.InvalidTransition? { return false; }
      ok := PutBack(r, change.status, change.reason, drained);
      if !ok { db.Rollback(saved); }
    }

    method PutBack(r: RunId, status: RunStatus, reason: RunReason, drained: bool) returns (ok: bool)
      requires r in db.runs
      modifies db
      ensures var tx := Requeued(old(db.View()), cfg, r, status, reason, drained);
              ok == tx.Commit? && (ok ==> db.View() == tx.db)
    {
      BackToQueue(r, status, reason, Some(db.clock + RetryDelay(cfg, db.runs[r].retryCount)), drained);
      ok := RecordForRun(r, StatusNotice(status, "lifecycle"));
    }

    method BackToQueue(r: RunId, status: RunStatus, reason: RunReason, next: Option<Time>, drained: bool)
      requires r in db.runs
      modifies db
      ensures var s := old(db.View());
              db.View() == Drain(SetThreadStatus(LetGo(s, r, status, reason, next), s.runs[r].thread, "idle"), r, drained)
    {
      var thread := db.runs[r].thread;
      Release(r, status, reason, next);
      db.SetStatusOfThread(thread, "idle");
      db.runs := db.runs[r := db.runs[r].(drained := db.runs[r].drained || drained)];
    }

    /** One iteration of `requeue_expired`. */
    method ReapOne(r: RunId) returns (ok: bool)
      modifies db
      ensures ok == Reap(old(db.View()), cfg, r).Commit?
      ensures db.View() == After(old(db.View()), Reap(old(db.View()), cfg, r))
    {
      var saved := db.View();
      if !Reapable(db.View(), r) { return true; }
      var run := db.runs[r];
      var spent := run.retryCount >= run.maxAttempts;
      var change := Transit(run.status, if spent then Error else Pending,
                            if spent then InfrastructureError else ShutdownRequeue, run.retryCount);
      if change.InvalidTransition? { return false; }
      Release(r, change.status, change.reason, if spent then None else Some(db.clock + RetryDelay(cfg, run.retryCount)));
      db.SetStatusOfThread(run.thread, "idle");
      if spent && run.thread.Some? && run.thread.value in db.threads {
        var row := db.threads[run.thread.value];
        db.threads := db.threads[run.thread.value := row.(projection := row.projection.(error := Some("infrastructure_error")))];
      }
      ok := RecordForRun(r, StatusNotice(change.status, "lifecycle"));
      if !ok { db.Rollback(saved); }
    }

    /** `requeue_expired` over the rows that it locked, in one transaction. */
    method RequeueExpired(locked: seq<RunId>) returns (ok: bool)
      modifies db
      ensures ok == ReapAll(old(db.View()), cfg, locked).Commit?
      ensures db.View() == After(old(db.View()), ReapAll(old(db.View()), cfg, locked))
    {
      var saved := db.View();
      assert locked[0..] == locked;
      for i := 0 to |locked|
        invariant ReapAll(saved, cfg, locked) == ReapAll(db.View(), cfg, locked[i..])
      {
        assert locked[i..][0] == locked[i] && locked[i..][1..] == locked[i + 1..];
        ok := ReapOne(locked[i]);
        if !ok {
          db.Rollback(saved);
          return;
        }
      }
      return true;
    }

    /** The worker's last step for a cancelled run. */
    method ReleaseCancelledLease(r: RunId, owner: Owner)
      modifies db
      ensures db.View() == ReleaseCancelled(old(db.View()), r, owner)
    {
      if r !in db.runs || db.runs[r].leaseOwner != Some(owner) || db.runs[r].reason != Some(CancelRequested) { return; }
      var run := db.runs[r];
      db.runs := db.runs[r := run.(leaseOwner := None, leaseExpiresAt := None)];
      db.leases := db.leases - {r};
      if run.thread.Some? && run.thread.value in db.threads {
        var interrupted := db.threads[run.thread.value].projection.interrupts != map[];
        db.SetStatusOfThread(run.thread, if interrupted then "interrupted" else "idle");
      }
    }
  }

  /** The part of `finish` after the preceding events. */
  ghost function Concluded(s: State, r: RunId, target: RunStatus, reason: RunReason, payload: Option<Json>): Tx {
    if r !in s.runs then Abort(RunMissing)
    else
      match Transit(s.runs[r].status, target, reason, s.runs[r].retryCount)
      case InvalidTransition => Abort(IllegalTransition)
      case Valid(status, why, _) =>
        var s1 := LetGo(s, r, status, why, None);
        if IsTerminal(target) then Record(s1, r, StatusNotice(target, payload.GetOr("lifecycle"))) else Commit(s1)
  }

  lemma FinishConcludes(s: State, r: RunId, owner: Owner, target: RunStatus, reason: RunReason, payload: Option<Json>,
                        preceding: seq<Plain>, s1: State)
    requires r in s.runs && !IsTerminal(s.runs[r].status) && s.runs[r].leaseOwner == Some(owner)
    requires payload.Some? ==> IsTerminal(target)
    requires RecordAll(s, r, preceding) == Commit(s1)
    ensures Finish(s, r, owner, target, reason, payload, preceding) == Concluded(s1, r, target, reason, payload)
  {
  }

  /** The part of `requeue_for_shutdown` after its checks. */
  ghost function Requeued(s: State, cfg: Config, r: RunId, status: RunStatus, reason: RunReason, drained: bool): Tx
    requires r in s.runs
  {
    var next := Some(s.clock + RetryDelay(cfg, s.runs[r].retryCount));
    Record(Drain(SetThreadStatus(LetGo(s, r, status, reason, next), s.runs[r].thread, "idle"), r, drained),
           r, StatusNotice(status, "lifecycle"))
  }

  /** `requeue_expired`: the reaper's steps for all locked rows; one failure abandons them all. */
  ghost function ReapAll(s: State, cfg: Config, ids: seq<RunId>): Tx
    decreases |ids|
  {
    if ids == [] then Commit(s)
    else
      match Reap(s, cfg, ids[0])
      case Abort(e) => Abort(e)
      case Commit(s1) => ReapAll(s1, cfg, ids[1..])
  }
}
