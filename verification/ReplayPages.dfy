/** Paged replay of a thread's events while appends, retention and rollbacks go on between the pages. */
module ReplayPages {
  import opened Wrappers
  import opened Tables
  import opened LogInvariants
  import opened TerminalEvents
  import opened LogEvolution
  import opened EventFilter
  import opened ReplayReader

  // ---- one page ----

  ghost function RowsAfter(s: State, t: ThreadId, after: nat): set<Event> {
    set k | k in s.events && s.events[k].thread == Some(t) && s.events[k].sequence > after :: s.events[k]
  }

  predicate Ascending(rows: seq<Event>) {
    forall i, j :: 0 <= i < j < |rows| ==> rows[i].sequence < rows[j].sequence
  }

  /** The rows after a cursor, ordered by sequence and cut off at the page size. */
  ghost predicate IsPage(s: State, t: ThreadId, after: nat, rows: seq<Event>) {
    && |rows| <= PAGE && Ascending(rows)
    && (forall i :: 0 <= i < |rows| ==> rows[i] in RowsAfter(s, t, after))
    && (forall e :: e in RowsAfter(s, t, after) && e !in rows ==> |rows| == PAGE && e.sequence > rows[PAGE - 1].sequence)
  }

  ghost predicate IsLoad(s: State, t: ThreadId, after: nat, load: Load) {
    && t in s.threads && load.watermark == s.threads[t].eventPrunedThrough
    && IsPage(s, t, after, load.rows)
    && (forall e :: e in load.rows && e.run.Some? ==>
          (e.run.value in load.resumable <==> e.run.value in s.runs && s.runs[e.run.value].streamResumable))
  }

  lemma {:induction false} AdvanceIsLast(s: State, t: ThreadId, cursor: nat, rows: seq<Event>)
    requires Ascending(rows) && forall i :: 0 <= i < |rows| ==> rows[i].sequence > cursor
    ensures Advance(cursor, rows) == if rows == [] then cursor else rows[|rows| - 1].sequence
    decreases |rows|
  {
    if rows != [] { AdvanceIsLast(s, t, cursor, rows[..|rows| - 1]); }
  }

  // ---- what the reader has covered ----

  ghost predicate RunGone(s: State, e: Event) {
    e.run.Some? && e.run.value !in s.runs
  }

  /** Every event recorded so far with a sequence in (since, cursor] was scanned, except those of deleted runs; a reader
      that starts at zero may also miss what was pruned, at or below `floor`, before it started. */
  ghost predicate Covered(s: State, t: ThreadId, since: nat, floor: nat, cursor: nat, scanned: seq<Event>) {
    forall e :: e in s.inserted && e.thread == Some(t) && since < e.sequence <= cursor ==>
      e in scanned || RunGone(s, e) || e.sequence <= floor
  }

  /** Every row that is still in the table was scanned, pruned or not at the start. */
  ghost predicate Current(s: State, t: ThreadId, since: nat, cursor: nat, scanned: seq<Event>) {
    forall e :: e in RowsAfter(s, t, since) && e.sequence <= cursor ==> e in scanned
  }

  /** Nothing else was scanned, and nothing out of order or twice. */
  ghost predicate Faithful(s: State, t: ThreadId, since: nat, cursor: nat, scanned: seq<Event>) {
    && Ascending(scanned) && since <= cursor
    && (forall e :: e in scanned ==> e in s.inserted && e.thread == Some(t) && since < e.sequence <= cursor)
    && (if scanned == [] then cursor == since else cursor == scanned[|scanned| - 1].sequence)
  }

  ghost predicate Progress(s: State, t: ThreadId, since: nat, floor: nat, cursor: nat, scanned: seq<Event>) {
    Covered(s, t, since, floor, cursor, scanned) && Current(s, t, since, cursor, scanned) && Faithful(s, t, since, cursor, scanned)
  }

  lemma RowsAreInserted(s: State, t: ThreadId, after: nat, e: Event)
    requires RowsInv(s) && e in RowsAfter(s, t, after)
    ensures e in s.inserted && e.thread == Some(t) && e.sequence > after
  {
    var k :| k in s.events && s.events[k] == e;
    assert s.inserted[k] == e;
  }

  /** What was inserted after a scanned event has a larger sequence. */
  lemma LaterIsLarger(s: State, s': State, t: ThreadId, c: Event, k: nat)
    requires OrderInv(s') && EventsEvolve(s, s') && c in s.inserted && c.thread == Some(t)
    requires |s.inserted| <= k < |s'.inserted| && s'.inserted[k].thread == Some(t)
    ensures c.sequence < s'.inserted[k].sequence
  {
    var j :| 0 <= j < |s.inserted| && s.inserted[j] == c;
    assert s'.inserted[..|s.inserted|][j] == c;
    assert SameScope(s'.inserted[j], s'.inserted[k]);
  }

  /** Events at or below the cursor were already there when the previous page was loaded. */
  lemma OldStay(s: State, s': State, t: ThreadId, since: nat, cursor: nat, scanned: seq<Event>, k: nat)
    requires OrderInv(s') && EventsEvolve(s, s') && Faithful(s, t, since, cursor, scanned)
    requires k < |s'.inserted| && s'.inserted[k].thread == Some(t) && since < s'.inserted[k].sequence <= cursor
    ensures k < |s.inserted| && s.inserted[k] == s'.inserted[k]
  {
    assert scanned != [];
    var c := scanned[|scanned| - 1];
    assert c in scanned;
    if k >= |s.inserted| {
      LaterIsLarger(s, s', t, c, k);
    } else {
      assert s'.inserted[..|s.inserted|][k] == s.inserted[k];
    }
  }

  /** A missing event above both the cursor and the floor belongs to a deleted run. */
  lemma MissingIsGone(s: State, t: ThreadId, floor: nat, cursor: nat, k: nat)
    requires MissingInv(s) && t in s.threads
    requires cursor >= s.threads[t].eventPrunedThrough || floor >= s.threads[t].eventPrunedThrough
    requires k < |s.inserted| && k !in s.events && s.inserted[k].thread == Some(t)
    requires s.inserted[k].sequence > cursor && s.inserted[k].sequence > floor
    ensures RunGone(s, s.inserted[k])
  {
    assert Excused(s, s.inserted[k]);
  }

  lemma GoneStaysGone(s: State, s': State, e: Event)
    requires RunsEvolve(s, s') && CursorInv(s) && e in s.inserted && RunGone(s, e)
    ensures RunGone(s', e)
  {
    var k :| 0 <= k < |s.inserted| && s.inserted[k] == e;
    assert EventOk(s, s.inserted[k]);
  }

  /** One more page keeps the coverage, if its watermark check passed. */
  lemma PageCovers(s: State, s': State, t: ThreadId, since: nat, floor: nat, cursor: nat, scanned: seq<Event>, rows: seq<Event>,
                   next: nat)
    requires LogInv(s) && LogInv(s') && Evolves(s, s') && Progress(s, t, since, floor, cursor, scanned)
    requires t in s'.threads && IsPage(s', t, cursor, rows)
    requires cursor >= s'.threads[t].eventPrunedThrough || floor >= s'.threads[t].eventPrunedThrough
    requires next == if rows == [] then cursor else rows[|rows| - 1].sequence
    ensures Covered(s', t, since, floor, next, scanned + rows)
  {
    forall e | e in s'.inserted && e.thread == Some(t) && since < e.sequence <= next
      ensures e in scanned + rows || RunGone(s', e) || e.sequence <= floor
    {
      var k :| 0 <= k < |s'.inserted| && s'.inserted[k] == e;
      if e.sequence <= cursor {
        OldStay(s, s', t, since, cursor, scanned, k);
        assert e in s.inserted;
        if RunGone(s, e) { GoneStaysGone(s, s', e); }
      } else if k in s'.events {
        assert e in RowsAfter(s', t, cursor);
      } else if e.sequence > floor {
        MissingIsGone(s', t, floor, cursor, k);
      }
    }
  }

  lemma PageCurrent(s: State, s': State, t: ThreadId, since: nat, cursor: nat, scanned: seq<Event>, rows: seq<Event>, next: nat)
    requires LogInv(s) && LogInv(s') && Evolves(s, s')
    requires Current(s, t, since, cursor, scanned) && Faithful(s, t, since, cursor, scanned)
    requires IsPage(s', t, cursor, rows) && next == if rows == [] then cursor else rows[|rows| - 1].sequence
    ensures Current(s', t, since, next, scanned + rows)
  {
    forall e | e in RowsAfter(s', t, since) && e.sequence <= next
      ensures e in scanned + rows
    {
      var k :| k in s'.events && s'.events[k] == e;
      assert s'.inserted[k] == e;
      if e.sequence <= cursor {
        OldStay(s, s', t, since, cursor, scanned, k);
        assert s.events[k] == s.inserted[k] == e;
        assert e in RowsAfter(s, t, since);
      } else {
        assert e in RowsAfter(s', t, cursor);
      }
    }
  }

  lemma InsertedStays(s: State, s': State, e: Event)
    requires EventsEvolve(s, s') && e in s.inserted
    ensures e in s'.inserted
  {
    var k :| 0 <= k < |s.inserted| && s.inserted[k] == e;
    assert s'.inserted[..|s.inserted|][k] == e;
  }

  lemma PageFaithful(s: State, s': State, t: ThreadId, since: nat, cursor: nat, scanned: seq<Event>, rows: seq<Event>, next: nat)
    requires LogInv(s') && EventsEvolve(s, s') && Faithful(s, t, since, cursor, scanned)
    requires IsPage(s', t, cursor, rows) && next == if rows == [] then cursor else rows[|rows| - 1].sequence
    ensures Faithful(s', t, since, next, scanned + rows)
  {
    forall i | 0 <= i < |rows|
      ensures rows[i] in s'.inserted && rows[i].thread == Some(t) && cursor < rows[i].sequence <= next
    {
      RowsAreInserted(s', t, cursor, rows[i]);
    }
    forall e | e in scanned + rows
      ensures e in s'.inserted && e.thread == Some(t) && since < e.sequence <= next
    {
      if e in scanned { InsertedStays(s, s', e); }
    }
    forall i | 0 <= i < |scanned| ensures scanned[i] in scanned && scanned[i].sequence <= cursor {}
  }

  lemma PageProgress(s: State, s': State, t: ThreadId, since: nat, floor: nat, cursor: nat, scanned: seq<Event>, rows: seq<Event>)
    requires LogInv(s) && LogInv(s') && Evolves(s, s') && Progress(s, t, since, floor, cursor, scanned)
    requires t in s'.threads && IsPage(s', t, cursor, rows)
    requires cursor >= s'.threads[t].eventPrunedThrough || floor >= s'.threads[t].eventPrunedThrough
    ensures Progress(s', t, since, floor, Advance(cursor, rows), scanned + rows)
  {
    forall i | 0 <= i < |rows| ensures rows[i].sequence > cursor { RowsAreInserted(s', t, cursor, rows[i]); }
    AdvanceIsLast(s', t, cursor, rows);
    PageCovers(s, s', t, since, floor, cursor, scanned, rows, Advance(cursor, rows));
    PageCurrent(s, s', t, since, cursor, scanned, rows, Advance(cursor, rows));
    PageFaithful(s, s', t, since, cursor, scanned, rows, Advance(cursor, rows));
  }

  // ---- the reader ----

  /** Everything recorded so far after `since` was scanned, except events of deleted runs and below the floor. */
  ghost predicate CaughtUpWith(s: State, t: ThreadId, since: nat, floor: nat, scanned: seq<Event>) {
    && (forall e :: e in s.inserted && e.thread == Some(t) && since < e.sequence ==>
          e in scanned || RunGone(s, e) || e.sequence <= floor)
    && (forall e :: e in RowsAfter(s, t, since) ==> e in scanned)
  }

  /** A page that is not full is the last one. */
  lemma ShortPageCatchesUp(s: State, t: ThreadId, since: nat, floor: nat, cursor: nat, scanned: seq<Event>, rows: seq<Event>)
    requires LogInv(s) && t in s.threads && IsPage(s, t, cursor, rows) && |rows| < PAGE
    requires cursor >= s.threads[t].eventPrunedThrough || floor >= s.threads[t].eventPrunedThrough
    requires Progress(s, t, since, floor, Advance(cursor, rows), scanned) && forall e :: e in rows ==> e in scanned
    ensures CaughtUpWith(s, t, since, floor, scanned)
  {
    forall i | 0 <= i < |rows| ensures rows[i].sequence > cursor { RowsAreInserted(s, t, cursor, rows[i]); }
    AdvanceIsLast(s, t, cursor, rows);
    forall e | e in RowsAfter(s, t, since)
      ensures e in scanned
    {
      assert e.sequence > cursor ==> e in RowsAfter(s, t, cursor);
    }
    forall e | e in s.inserted && e.thread == Some(t) && since < e.sequence
      ensures e in scanned || RunGone(s, e) || e.sequence <= floor
    {
      var k :| 0 <= k < |s.inserted| && s.inserted[k] == e;
      if k in s.events {
        assert e in RowsAfter(s, t, since);
      } else if e.sequence > cursor && e.sequence > floor {
        MissingIsGone(s, t, floor, cursor, k);
      }
    }
  }

  ghost predicate LoadOk(at: seq<State>, t: ThreadId, since: nat, loads: seq<Load>, i: nat)
    requires |at| == |loads| && i < |at|
  {
    Inv(at[i]) && (i > 0 ==> Evolves(at[i - 1], at[i])) && IsLoad(at[i], t, CursorAfter(since, loads[..i]), loads[i])
  }

  /** The loads that the database answers with as its state moves on. */
  ghost predicate AreLoads(at: seq<State>, t: ThreadId, since: nat, loads: seq<Load>) {
    |at| == |loads| >= 1 && forall i :: 0 <= i < |at| ==> LoadOk(at, t, since, loads, i)
  }

  function Floor(since: nat, loads: seq<Load>): nat
    requires loads != []
  {
    if since == 0 then loads[0].watermark else 0
  }

  /** The state of the previous load, or of the first one at the start. */
  ghost function Before(at: seq<State>, n: nat): State
    requires at != [] && n <= |at|
  {
    if n == 0 then at[0] else at[n - 1]
  }

  lemma BeforeEvolves(at: seq<State>, t: ThreadId, since: nat, loads: seq<Load>, n: nat)
    requires AreLoads(at, t, since, loads) && n < |at|
    ensures Evolves(Before(at, n), at[n]) && Inv(Before(at, n)) && Inv(at[n])
    ensures t in at[n].threads && loads[n].watermark == at[n].threads[t].eventPrunedThrough
    ensures IsPage(at[n], t, CursorAfter(since, loads[..n]), loads[n].rows)
  {
    assert LoadOk(at, t, since, loads, n);
    if n > 0 { assert LoadOk(at, t, since, loads, n - 1); }
  }

  /** The n-th page, if its check passed, extends the coverage. */
  lemma NextPage(at: seq<State>, t: ThreadId, since: nat, f: Filter, loads: seq<Load>, n: nat)
    requires AreLoads(at, t, since, loads) && Ready(at, t, since, loads, n)
    ensures Progress(at[n], t, since, Floor(since, loads), CursorAfter(since, loads[..n + 1]), Scanned(loads[..n + 1]))
    ensures |loads[n].rows| < PAGE ==> CaughtUpWith(at[n], t, since, Floor(since, loads), Scanned(loads[..n + 1]))
  {
    BeforeEvolves(at, t, since, loads, n);
    OneMore(since, f, loads, n);
    var c, done := CursorAfter(since, loads[..n]), Scanned(loads[..n]);
    PageProgress(Before(at, n), at[n], t, since, Floor(since, loads), c, done, loads[n].rows);
    if |loads[n].rows| < PAGE {
      ShortPageCatchesUp(at[n], t, since, Floor(since, loads), c, done + loads[n].rows, loads[n].rows);
    }
  }

  /** The n-th page may be shown. */
  ghost predicate Ready(at: seq<State>, t: ThreadId, since: nat, loads: seq<Load>, n: nat) {
    && n < |at| == |loads|
    && var c := CursorAfter(since, loads[..n]);
    && Progress(Before(at, n), t, since, Floor(since, loads), c, Scanned(loads[..n]))
    && (c >= loads[n].watermark || Floor(since, loads) >= loads[n].watermark)
  }

  lemma StartReady(at: seq<State>, t: ThreadId, since: nat, loads: seq<Load>)
    requires 1 <= |at| == |loads| && (since == 0 || since >= loads[0].watermark)
    ensures Ready(at, t, since, loads, 0)
  {
    assert loads[..0] == [];
  }

  lemma FullPageReady(at: seq<State>, t: ThreadId, since: nat, loads: seq<Load>, n: nat)
    requires 1 <= n < |at| == |loads| && loads[n - 1].rows != []
    requires Progress(at[n - 1], t, since, Floor(since, loads), CursorAfter(since, loads[..n]), Scanned(loads[..n]))
    requires var c := CursorAfter(since, loads[..n]); c == 0 || c >= loads[n].watermark
    ensures Ready(at, t, since, loads, n)
  {
    assert loads[..n] == loads[..n - 1] + [loads[n - 1]];
    assert Scanned(loads[..n]) == Scanned(loads[..n - 1]) + loads[n - 1].rows;
    var scanned := Scanned(loads[..n]);
    assert scanned[|scanned| - 1] in scanned;
  }

  /** What the reader may rely on after `reading`. */
  ghost predicate Gapless(at: seq<State>, t: ThreadId, since: nat, loads: seq<Load>, reading: Reading)
    requires 1 <= |at| == |loads|
  {
    && 1 <= reading.used <= |loads|
    && Progress(at[reading.used - 1], t, since, Floor(since, loads), CursorAfter(since, loads[..reading.used]),
                Scanned(loads[..reading.used]))
    && (reading.answer == CaughtUp ==>
          CaughtUpWith(at[reading.used - 1], t, since, Floor(since, loads), Scanned(loads[..reading.used])))
  }

  lemma LastPageIsGapless(at: seq<State>, t: ThreadId, since: nat, f: Filter, loads: seq<Load>, n: nat)
    requires AreLoads(at, t, since, loads) && Ready(at, t, since, loads, n)
    ensures Gapless(at, t, since, loads, Reading(if |loads[n].rows| < PAGE then CaughtUp else Stopped, n + 1))
  {
    NextPage(at, t, since, f, loads, n);
  }

  lemma NextIsReady(at: seq<State>, t: ThreadId, since: nat, f: Filter, loads: seq<Load>, n: nat)
    requires AreLoads(at, t, since, loads) && Ready(at, t, since, loads, n) && GoesOn(since, loads, n)
    ensures Ready(at, t, since, loads, n + 1)
  {
    NextPage(at, t, since, f, loads, n);
    FullPageReady(at, t, since, loads, n + 1);
  }

  lemma {:induction false} ReadFromIsGapless(at: seq<State>, t: ThreadId, since: nat, f: Filter, loads: seq<Load>, n: nat)
    requires AreLoads(at, t, since, loads) && Ready(at, t, since, loads, n)
    ensures Gapless(at, t, since, loads, ReadFrom(since, loads, n))
    decreases |loads| - n
  {
    if GoesOn(since, loads, n) {
      NextIsReady(at, t, since, f, loads, n);
      ReadFromIsGapless(at, t, since, f, loads, n + 1);
    } else {
      LastPageIsGapless(at, t, since, f, loads, n);
    }
  }

  /** Whatever is appended, pruned or rolled back between the pages, a reader is refused at once or has, at every page
      boundary, scanned in order exactly the recorded events with a sequence in (since, cursor], except those of deleted
      runs; from zero on it may lack only what was pruned before it started. If it is not stopped it has caught up. */
  lemma ReplayIsGapless(at: seq<State>, t: ThreadId, since: nat, f: Filter, loads: seq<Load>)
    requires AreLoads(at, t, since, loads)
    ensures var reading := Read(since, loads);
            if reading.answer == CursorExpired then since > 0 && t in at[0].threads && since < at[0].threads[t].eventPrunedThrough
            else Gapless(at, t, since, loads, reading)
  {
    assert LoadOk(at, t, since, loads, 0);
    if since == 0 || since >= loads[0].watermark {
      StartReady(at, t, since, loads);
      ReadFromIsGapless(at, t, since, f, loads, 0);
    }
  }
}
