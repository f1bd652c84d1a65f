/** The replay half of a protocol stream: page after page until a short one. */
module ReplayReader {
  import opened Wrappers
  import opened Tables
  import opened EventFilter

  const PAGE: nat := 32

  /** One page as the reader gets it: with the thread's watermark and the page's resumable runs. */
  datatype Load = Load(watermark: nat, rows: seq<Event>, resumable: set<RunId>)

  function Advance(cursor: nat, rows: seq<Event>): nat
    decreases |rows|
  {
    if rows == [] then cursor else Max(Advance(cursor, rows[..|rows| - 1]), rows[|rows| - 1].sequence)
  }

  function CursorAfter(since: nat, loads: seq<Load>): nat
    decreases |loads|
  {
    if loads == [] then since else Advance(CursorAfter(since, loads[..|loads| - 1]), loads[|loads| - 1].rows)
  }

  function ShownRows(f: Filter, resumable: set<RunId>, rows: seq<Event>): seq<Event>
    decreases |rows|
  {
    if rows == [] then []
    else
      var e := rows[|rows| - 1];
      ShownRows(f, resumable, rows[..|rows| - 1]) + (if Shows(f, resumable, e) then [e] else [])
  }

  function Scanned(loads: seq<Load>): seq<Event>
    decreases |loads|
  {
    if loads == [] then [] else Scanned(loads[..|loads| - 1]) + loads[|loads| - 1].rows
  }

  function Replayed(f: Filter, loads: seq<Load>): seq<Event>
    decreases |loads|
  {
    if loads == [] then []
    else Replayed(f, loads[..|loads| - 1]) + ShownRows(f, loads[|loads| - 1].resumable, loads[|loads| - 1].rows)
  }

  /** How the replay ends: refused, caught up, or given up before that (a client gone, or a cursor overtaken by pruning). */
  datatype Answer = CursorExpired | CaughtUp | Stopped

  datatype Reading = Reading(answer: Answer, used: nat)

  /** The n-th page is full, another load arrives, and pruning has not overtaken the cursor. */
  predicate GoesOn(since: nat, loads: seq<Load>, n: nat)
    requires n < |loads|
  {
    && |loads[n].rows| >= PAGE && n + 1 < |loads|
    && var cursor := CursorAfter(since, loads[..n + 1]);
    && (cursor == 0 || cursor >= loads[n + 1].watermark)
  }

  /** From the n-th page on; a page that is not full is the last one, and the supply of loads may end at any time. */
  function ReadFrom(since: nat, loads: seq<Load>, n: nat): (r: Reading)
    requires n < |loads|
    ensures n < r.used <= |loads| && r.answer != CursorExpired
    decreases |loads| - n
  {
    if GoesOn(since, loads, n) then ReadFrom(since, loads, n + 1)
    else Reading(if |loads[n].rows| < PAGE then CaughtUp else Stopped, n + 1)
  }

  /** How far the reader gets: how many of the loads it shows, and why it stops. */
  function Read(since: nat, loads: seq<Load>): (r: Reading)
    requires loads != []
    ensures r.used <= |loads| && (r.used == 0 <==> r.answer == CursorExpired)
  {
    if since > 0 && since < loads[0].watermark then Reading(CursorExpired, 0) else ReadFrom(since, loads, 0)
  }

  /** From page `n` on, the pages before the last one shown were full and their cursors not overtaken, and the replay ends at a
      short page, at the end of the supply, or because pruning overtook its cursor. */
  ghost predicate EndsForAReason(since: nat, loads: seq<Load>, n: nat, r: Reading) {
    && n < r.used <= |loads|
    && (forall i :: n <= i < r.used - 1 ==> |loads[i].rows| >= 32)
    && (forall i :: n < i < r.used ==> var cursor := CursorAfter(since, loads[..i]); cursor == 0 || cursor >= loads[i].watermark)
    && match r.answer
       case CaughtUp => |loads[r.used - 1].rows| < 32
       case Stopped =>
         && |loads[r.used - 1].rows| >= 32
         && (r.used == |loads| || 0 < CursorAfter(since, loads[..r.used]) < loads[r.used].watermark)
       case CursorExpired => false
  }

  lemma {:induction false} ReadingEnds(since: nat, loads: seq<Load>, n: nat)
    requires n < |loads|
    ensures EndsForAReason(since, loads, n, ReadFrom(since, loads, n))
    decreases |loads| - n
  {
    if GoesOn(since, loads, n) { ReadingEnds(since, loads, n + 1); }
  }

  /** Why a replay ends: it is refused exactly if the resume cursor is below the watermark, it has caught up only at a page
      that is not full, and it stops on a full page only if the client goes away or pruning overtook the cursor. */
  lemma WhyItEnds(since: nat, loads: seq<Load>)
    requires loads != []
    ensures var r := Read(since, loads);
            if 0 < since < loads[0].watermark then r == Reading(CursorExpired, 0) else EndsForAReason(since, loads, 0, r)
  {
    ReadingEnds(since, loads, 0);
  }

  lemma OneMore(since: nat, f: Filter, loads: seq<Load>, n: nat)
    requires n < |loads|
    ensures CursorAfter(since, loads[..n + 1]) == Advance(CursorAfter(since, loads[..n]), loads[n].rows)
    ensures Scanned(loads[..n + 1]) == Scanned(loads[..n]) + loads[n].rows
    ensures Replayed(f, loads[..n + 1]) == Replayed(f, loads[..n]) + ShownRows(f, loads[n].resumable, loads[n].rows)
  {
    assert loads[..n + 1][..n] == loads[..n];
  }

  /** One page: advance the cursor over every row and show the matching ones. */
  method ShowPage(f: Filter, load: Load, before: seq<Event>, from: nat) returns (emitted: seq<Event>, cursor: nat)
    ensures emitted == before + ShownRows(f, load.resumable, load.rows)
    ensures cursor == Advance(from, load.rows)
  {
    emitted, cursor := before, from;
    for i := 0 to |load.rows|
      invariant emitted == before + ShownRows(f, load.resumable, load.rows[..i])
      invariant cursor == Advance(from, load.rows[..i])
    {
      var row := load.rows[i];
      assert load.rows[..i + 1][..i] == load.rows[..i];
      cursor := Max(cursor, row.sequence);
      if Shows(f, load.resumable, row) {
        emitted := emitted + [row];
      }
    }
    assert load.rows[..|load.rows|] == load.rows;
  }

  /** The loop over the pages, as the stream runs it. */
  method ReplayThread(since: nat, f: Filter, loads: seq<Load>)
      returns (answer: Answer, emitted: seq<Event>, cursor: nat, used: nat)
    requires loads != []
    ensures Reading(answer, used) == Read(since, loads)
    ensures used <= |loads| && emitted == Replayed(f, loads[..used]) && cursor == CursorAfter(since, loads[..used])
  {
    emitted, cursor, used := [], since, 0;
    assert loads[..0] == [];
    if since > 0 && since < loads[0].watermark { return CursorExpired, emitted, cursor, used; }
    var page := loads[0];
    while true
      invariant used < |loads| && page == loads[used]
      invariant emitted == Replayed(f, loads[..used]) && cursor == CursorAfter(since, loads[..used])
      invariant Read(since, loads) == ReadFrom(since, loads, used)
      decreases |loads| - used
    {
      OneMore(since, f, loads, used);
      emitted, cursor := ShowPage(f, page, emitted, cursor);
      used := used + 1;
      if |page.rows| < PAGE { return CaughtUp, emitted, cursor, used; }
      if used == |loads| { return Stopped, emitted, cursor, used; }
      page := loads[used];
      if cursor > 0 && cursor < page.watermark { return Stopped, emitted, cursor, used; }
    }
  }
}
