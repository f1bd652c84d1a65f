/** Replay followed by live delivery: what is shown of the pages, and that nothing is emitted twice. */
module EventStreams {
  import opened Wrappers
  import opened Tables
  import opened LogInvariants
  import opened LogEvolution
  import opened EventFilter
  import opened ReplayReader
  import opened ReplayPages
  import opened LiveStream

  // ---- the protocol stream ----

  /** Everything that `protocol_event_stream` emits: nothing if the cursor expired, the replay alone if it was stopped,
      and otherwise the replay followed by what is new in the queue that was registered before the replay. */
  function Emitted(since: nat, f: Filter, loads: seq<Load>, live: seq<Event>): seq<Event>
    requires loads != []
  {
    var reading := Read(since, loads);
    var replayed := Replayed(f, loads[..reading.used]);
    if reading.answer == CaughtUp then replayed + Emit(e => WireMatches(f, e), since, Sequences(replayed), live)
    else replayed
  }

  lemma {:induction false} ShownAreRows(f: Filter, resumable: set<RunId>, rows: seq<Event>)
    requires Ascending(rows)
    ensures var shown := ShownRows(f, resumable, rows);
            Ascending(shown) && forall e :: e in shown <==> e in rows && Shows(f, resumable, e)
    decreases |rows|
  {
    if rows != [] {
      var before, last := rows[..|rows| - 1], rows[|rows| - 1];
      ShownAreRows(f, resumable, before);
      assert rows == before + [last];
      forall i | 0 <= i < |ShownRows(f, resumable, before)|
        ensures ShownRows(f, resumable, before)[i].sequence < last.sequence
      {
        assert ShownRows(f, resumable, before)[i] in before;
      }
    }
  }

  lemma AscendingParts(a: seq<Event>, b: seq<Event>)
    requires Ascending(a + b)
    ensures Ascending(a) && Ascending(b)
    ensures forall x, y :: x in a && y in b ==> x.sequence < y.sequence
  {
    forall i, j | 0 <= i < j < |a| ensures a[i].sequence < a[j].sequence {
      assert (a + b)[i] == a[i] && (a + b)[j] == a[j];
    }
    forall i, j | 0 <= i < j < |b| ensures b[i].sequence < b[j].sequence {
      assert (a + b)[|a| + i] == b[i] && (a + b)[|a| + j] == b[j];
    }
    forall i, j | 0 <= i < |a| && 0 <= j < |b| ensures a[i].sequence < b[j].sequence {
      assert (a + b)[i] == a[i] && (a + b)[|a| + j] == b[j];
    }
  }

  lemma AscendingConcat(a: seq<Event>, b: seq<Event>)
    requires Ascending(a) && Ascending(b)
    requires forall x, y :: x in a && y in b ==> x.sequence < y.sequence
    ensures Ascending(a + b)
  {
    forall i, j | 0 <= i < |a| && 0 <= j < |b| ensures a[i].sequence < b[j].sequence {
      assert a[i] in a && b[j] in b;
    }
  }

  /** The replay shows each scanned row at most once, in order. */
  lemma {:induction false} ReplayedAreScanned(f: Filter, loads: seq<Load>)
    requires Ascending(Scanned(loads))
    ensures Ascending(Replayed(f, loads)) && forall e :: e in Replayed(f, loads) ==> e in Scanned(loads)
    decreases |loads|
  {
    if loads != [] {
      var before, last := loads[..|loads| - 1], loads[|loads| - 1];
      AscendingParts(Scanned(before), last.rows);
      ReplayedAreScanned(f, before);
      ShownAreRows(f, last.resumable, last.rows);
      AscendingConcat(Replayed(f, before), ShownRows(f, last.resumable, last.rows));
    }
  }

  lemma {:induction false} ScannedIsShown(f: Filter, loads: seq<Load>, e: Event)
    requires Ascending(Scanned(loads)) && e in Scanned(loads)
    requires forall i :: 0 <= i < |loads| && e in loads[i].rows ==> Shows(f, loads[i].resumable, e)
    ensures e in Replayed(f, loads)
    decreases |loads|
  {
    var before, last := loads[..|loads| - 1], loads[|loads| - 1];
    AscendingParts(Scanned(before), last.rows);
    ShownAreRows(f, last.resumable, last.rows);
    if e in last.rows {
      assert Shows(f, loads[|loads| - 1].resumable, e);
    } else {
      ScannedIsShown(f, before, e);
    }
  }

  // ---- which rows were shown ----

  lemma {:induction false} LoadsEvolve(at: seq<State>, t: ThreadId, since: nat, loads: seq<Load>, i: nat, j: nat)
    requires AreLoads(at, t, since, loads) && i <= j < |at|
    ensures Evolves(at[i], at[j])
    decreases j - i
  {
    assert LoadOk(at, t, since, loads, j);
    if i < j {
      LoadsEvolve(at, t, since, loads, i, j - 1);
      EvolvesTrans(at[i], at[j - 1], at[j]);
    }
  }

  /** A run that is still there when the replay ends was there, and as resumable, when its page was loaded. */
  lemma ResumableThen(s: State, s': State, e: Event)
    requires LogInv(s) && Evolves(s, s') && e in s.inserted && e.run.Some?
    requires e.run.value in s'.runs && s'.runs[e.run.value].streamResumable
    ensures e.run.value in s.runs && s.runs[e.run.value].streamResumable
  {
    var k :| 0 <= k < |s.inserted| && s.inserted[k] == e;
    assert EventOk(s, s.inserted[k]);
  }

  ghost predicate ResumableNow(s: State, e: Event) {
    e.run.Some? ==> e.run.value in s.runs && s.runs[e.run.value].streamResumable
  }

  /** The replay shows this row. */
  ghost predicate Replayable(s: State, f: Filter, e: Event) {
    ResumableNow(s, e) && StillActive(f, e) && WireMatches(f, e)
  }

  lemma LoadShows(at: seq<State>, t: ThreadId, since: nat, f: Filter, loads: seq<Load>, i: nat, j: nat, e: Event)
    requires AreLoads(at, t, since, loads) && i <= j < |at| && e in loads[i].rows
    requires Replayable(at[j], f, e)
    ensures Shows(f, loads[i].resumable, e)
  {
    assert LoadOk(at, t, since, loads, i);
    RowsAreInserted(at[i], t, CursorAfter(since, loads[..i]), e);
    LoadsEvolve(at, t, since, loads, i, j);
    if e.run.Some? { ResumableThen(at[i], at[j], e); }
  }

  lemma CurrentRowsAreShown(at: seq<State>, t: ThreadId, since: nat, f: Filter, loads: seq<Load>, used: nat, e: Event)
    requires AreLoads(at, t, since, loads) && 1 <= used <= |at|
    requires Ascending(Scanned(loads[..used])) && e in Scanned(loads[..used])
    requires Replayable(at[used - 1], f, e)
    ensures e in Replayed(f, loads[..used])
  {
    forall i | 0 <= i < used && e in loads[..used][i].rows
      ensures Shows(f, loads[..used][i].resumable, e)
    {
      assert loads[..used][i] == loads[i];
      LoadShows(at, t, since, f, loads, i, used - 1, e);
    }
    ScannedIsShown(f, loads[..used], e);
  }

  // ---- nothing twice ----

  /** No sequence is emitted twice, and none at or below the cursor, however the stream ends. */
  lemma NothingTwice(at: seq<State>, t: ThreadId, since: nat, f: Filter, loads: seq<Load>, live: seq<Event>)
    requires AreLoads(at, t, since, loads)
    ensures var out := Emitted(since, f, loads, live);
            DistinctSequences(out) && forall e :: e in out ==> e.sequence > since
  {
    var reading := Read(since, loads);
    if reading.answer == CursorExpired {
      assert loads[..0] == [];
    } else {
      ReplayInOrder(at, t, since, f, loads);
      var replayed := Replayed(f, loads[..reading.used]);
      JoinLive(replayed, since, f, live);
    }
  }

  lemma ReplayInOrder(at: seq<State>, t: ThreadId, since: nat, f: Filter, loads: seq<Load>)
    requires AreLoads(at, t, since, loads) && Read(since, loads).answer != CursorExpired
    ensures var used := Read(since, loads).used;
            && 1 <= used <= |loads| && Ascending(Replayed(f, loads[..used]))
            && forall e :: e in Replayed(f, loads[..used]) ==> e.sequence > since
  {
    ReplayIsGapless(at, t, since, f, loads);
    ReplayedAreScanned(f, loads[..Read(since, loads).used]);
  }

  lemma JoinLive(replayed: seq<Event>, since: nat, f: Filter, live: seq<Event>)
    requires Ascending(replayed) && forall e :: e in replayed ==> e.sequence > since
    ensures var out := replayed + Emit(e => WireMatches(f, e), since, Sequences(replayed), live);
            DistinctSequences(out) && forall e :: e in out ==> e.sequence > since
  {
    EmitOnce(e => WireMatches(f, e), since, Sequences(replayed), live);
    JoinDistinct(replayed, Emit(e => WireMatches(f, e), since, Sequences(replayed), live));
  }

  lemma JoinDistinct(a: seq<Event>, b: seq<Event>)
    requires Ascending(a) && DistinctSequences(b) && forall e :: e in b ==> e.sequence !in Sequences(a)
    ensures DistinctSequences(a + b)
  {
    forall i, j | 0 <= i < |a| && 0 <= j < |b| ensures a[i].sequence != b[j].sequence {
      assert a[i] in a && b[j] in b;
    }
  }

  // ---- the run stream ----

  ghost function RunRowsAfter(s: State, r: RunId, after: nat): set<Event> {
    set k | k in s.events && s.events[k].run == Some(r) && s.events[k].sequence > after :: s.events[k]
  }

  /** The single query of `_run_replay`. */
  ghost predicate IsRunReplay(s: State, r: RunId, after: nat, rows: seq<Event>) {
    Ascending(rows) && (forall e :: e in rows <==> e in RunRowsAfter(s, r, after))
  }

  /** A reader that resumes at or above the run's watermark gets every event of the run recorded after its cursor; one that
      starts at zero lacks only what was pruned, which never includes the terminal event. */
  lemma RunReplayIsGapless(s: State, r: RunId, after: nat, rows: seq<Event>)
    requires LogInv(s) && r in s.runs && IsRunReplay(s, r, after, rows)
    ensures forall e :: e in rows ==> e in s.inserted && e.run == Some(r) && e.sequence > after
    ensures forall e :: e in s.inserted && e.run == Some(r) && e.sequence > after ==>
              e in rows || (!e.terminal && e.sequence <= s.runs[r].eventPrunedThrough)
    ensures after >= s.runs[r].eventPrunedThrough ==>
              forall e :: e in s.inserted && e.run == Some(r) && e.sequence > after ==> e in rows
  {
    forall e | e in rows
      ensures e in s.inserted && e.run == Some(r) && e.sequence > after
    {
      var k :| k in s.events && s.events[k] == e && s.events[k].run == Some(r);
      assert s.inserted[k] == e;
    }
    forall e | e in s.inserted && e.run == Some(r) && e.sequence > after
      ensures e in rows || (!e.terminal && e.sequence <= s.runs[r].eventPrunedThrough)
    {
      var k :| 0 <= k < |s.inserted| && s.inserted[k] == e;
      if k in s.events {
        assert e in RunRowsAfter(s, r, after);
      } else {
        assert Excused(s, s.inserted[k]);
      }
    }
  }
}
