/** The tables as mutable state, one field a table, with the queries that several transactions share. */
module Databases {
  import opened Wrappers
  import opened Tables
  import opened EventLog

  lemma MaxIsUnique(values: set<nat>, m: nat)
    requires (forall v :: v in values ==> v <= m) && (m == 0 || m in values)
    ensures m == MaxOf(values)
  {
  }

  class Database {
    var clock: Time
    var captures: nat
    var issued: set<RunId>
    var runs: map<RunId, Run>
    var threads: map<ThreadId, Thread>
    var leases: map<RunId, Lease>
    var baselines: map<RunId, Baseline>
    var tables: map<Resource, History>
    var blobs: map<Resource, set<Blob>>
    var events: map<EventId, Event>
    var inserted: seq<Event>
    var claims: seq<Claim>
    var accepted: seq<Accepted>

    function View(): State
      reads this
    {
      State(clock, captures, issued, runs, threads, leases, baselines, tables, blobs, events, inserted, claims, accepted)
    }

    constructor (now: Time)
      ensures View() == State(now, 0, {}, map[], map[], map[], map[], map[], map[], map[], [], [], [])
    {
      clock, captures, issued, runs, threads, leases := now, 0, {}, map[], map[], map[];
      baselines, tables, blobs, events := map[], map[], map[], map[];
      inserted, claims, accepted := [], [], [];
    }

    /** What a failed transaction does: the rows are those from before it began. */
    method Rollback(saved: State)
      modifies this
      ensures View() == saved
    {
      RestoreRows(saved);
      RestoreCheckpoints(saved);
      events, inserted, claims, accepted := saved.events, saved.inserted, saved.claims, saved.accepted;
    }

    method RestoreRows(saved: State)
      modifies `clock, `captures, `issued, `runs, `threads, `leases
      ensures clock == saved.clock && captures == saved.captures && issued == saved.issued && runs == saved.runs
      ensures threads == saved.threads && leases == saved.leases
    {
      clock, captures, issued := saved.clock, saved.captures, saved.issued;
      runs, threads, leases := saved.runs, saved.threads, saved.leases;
    }

    method RestoreCheckpoints(saved: State)
      modifies `baselines, `tables, `blobs
      ensures baselines == saved.baselines && tables == saved.tables && blobs == saved.blobs
    {
      baselines, tables, blobs := saved.baselines, saved.tables, saved.blobs;
    }

    /** `session.add(event)`: the row gets the next identifier. */
    method InsertEvent(e: Event)
      modifies `events, `inserted
      ensures View() == Insert(old(View()), e)
    {
      events := events[|inserted| := e];
      inserted := inserted + [e];
    }

    /** `coalesce(max(sequence), 0)` over the events of a thread. */
    method MaxThreadSequence(t: ThreadId) returns (m: nat)
      ensures m == MaxOf(ThreadSequences(View(), t))
    {
      m := 0;
      var rest := events.Keys;
      while rest != {}
        invariant rest <= events.Keys
        invariant forall k :: k in events && k !in rest && events[k].thread == Some(t) ==> events[k].sequence <= m
        invariant m == 0 || m in ThreadSequences(View(), t)
        decreases |rest|
      {
        var k :| k in rest;
        rest := rest - {k};
        if events[k].thread == Some(t) && events[k].sequence > m {
          m := events[k].sequence;
        }
      }
      MaxIsUnique(ThreadSequences(View(), t), m);
    }

    /** `coalesce(max(sequence), 0)` over the events of a run. */
    method MaxRunSequence(r: RunId) returns (m: nat)
      ensures m == MaxOf(RunSequences(View(), r))
    {
      m := 0;
      var rest := events.Keys;
      while rest != {}
        invariant rest <= events.Keys
        invariant forall k :: k in events && k !in rest && events[k].run == Some(r) ==> events[k].sequence <= m
        invariant m == 0 || m in RunSequences(View(), r)
        decreases |rest|
      {
        var k :| k in rest;
        rest := rest - {k};
        if events[k].run == Some(r) && events[k].sequence > m {
          m := events[k].sequence;
        }
      }
      MaxIsUnique(RunSequences(View(), r), m);
    }

    /** The newest sequence among the rows to delete. */
    method MaxSequenceOf(ids: set<EventId>) returns (m: nat)
      ensures m == Watermark(View(), ids)
    {
      m := 0;
      var rest := ids;
      while rest != {}
        invariant rest <= ids
        invariant forall k :: k in ids && k in events && k !in rest ==> events[k].sequence <= m
        invariant m == 0 || m in (set k | k in ids && k in events :: events[k].sequence)
        decreases |rest|
      {
        var k :| k in rest;
        rest := rest - {k};
        if k in events && events[k].sequence > m {
          m := events[k].sequence;
        }
      }
      MaxIsUnique(set k | k in ids && k in events :: events[k].sequence, m);
    }

    /** `coalesce(max(queue_position), 0)` over the runs of a thread, or over those without one. */
    method MaxPosition(thread: Option<ThreadId>) returns (m: nat)
      ensures m == MaxOf(set q | q in runs && runs[q].thread == thread :: runs[q].queuePosition)
    {
      m := 0;
      ghost var positions := set q | q in runs && runs[q].thread == thread :: runs[q].queuePosition;
      var rest := runs.Keys;
      while rest != {}
        invariant rest <= runs.Keys
        invariant forall q :: q in runs && q !in rest && runs[q].thread == thread ==> runs[q].queuePosition <= m
        invariant m == 0 || m in positions
        decreases |rest|
      {
        var q :| q in rest;
        rest := rest - {q};
        if runs[q].thread == thread && runs[q].queuePosition > m {
          m := runs[q].queuePosition;
        }
      }
      MaxIsUnique(positions, m);
    }

    method SetStatusOfThread(thread: Option<ThreadId>, status: string)
      modifies `threads
      ensures View() == SetThreadStatus(old(View()), thread, status)
    {
      if thread.Some? && thread.value in threads {
        var row := threads[thread.value];
        threads := threads[thread.value := row.(projection := row.projection.(status := status))];
      }
    }
  }
}
