/** The splice of a protocol stream on the time line: the thread row is read, the queue is registered, the pages are loaded,
    and commits and fan-outs go on all the while. */
module Splices {
  import opened Wrappers
  import opened Tables
  import opened LogInvariants
  import opened TerminalEvents
  import opened LogEvolution
  import opened EventFilter
  import opened ReplayReader
  import opened ReplayPages
  import opened LiveStream
  import opened EventStreams
  import opened Delivery

  /** The events that are fanned out to a thread's subscribers; an event that belongs to no run is not. */
  function OnThread(t: ThreadId): Event -> bool {
    (e: Event) => e.thread == Some(t) && e.run.Some?
  }

  /** The states in which the pages are loaded, each some moments after the registration. */
  ghost function Points(s: State, after: seq<Moment>, marks: seq<nat>): (at: seq<State>)
    requires forall i :: 0 <= i < |marks| ==> marks[i] <= |after|
    ensures |at| == |marks| && forall i :: 0 <= i < |marks| ==> at[i] == StateAfter(s, after[..marks[i]])
    decreases |marks|
  {
    if marks == [] then []
    else Points(s, after, marks[..|marks| - 1]) + [StateAfter(s, after[..marks[|marks| - 1]])]
  }

  predicate InOrder(marks: seq<nat>, n: nat) {
    (forall i :: 0 <= i < |marks| ==> marks[i] <= n) && (forall i :: 0 < i < |marks| ==> marks[i - 1] <= marks[i])
  }

  /** One stream: its thread row is read in state `s0`, its queue is registered after the moments `before`, and it follows
      the queue through the moments `after`, during which its pages are loaded. */
  datatype Watch = Watch(
    s0: State,
    before: seq<Moment>,
    after: seq<Moment>,
    t: ThreadId,
    since: nat,
    f: Filter,
    marks: seq<nat>,
    loads: seq<Load>)

  ghost function Registration(w: Watch): State {
    StateAfter(w.s0, w.before)
  }

  ghost function End(w: Watch): State {
    StateAfter(Registration(w), w.after)
  }

  ghost predicate Timely(w: Watch) {
    Causal(w.s0, w.before) && Causal(Registration(w), w.after) && Lossless(w.s0, w.before, w.after, OnThread(w.t))
  }

  ghost predicate LoadedAt(w: Watch, i: nat)
    requires i < |w.marks| == |w.loads| && w.marks[i] <= |w.after|
  {
    IsLoad(StateAfter(Registration(w), w.after[..w.marks[i]]), w.t, CursorAfter(w.since, w.loads[..i]), w.loads[i])
  }

  /** The filter's open interrupts are those of the thread row as it was read, commits and fan-outs are in causal order and
      no message is lost, the pages are what the database answers, and the replay catches up. */
  ghost predicate Observed(w: Watch) {
    && w.t in w.s0.threads && w.f.interrupts == w.s0.threads[w.t].projection.interrupts.Keys
    && Timely(w)
    && |w.marks| == |w.loads| >= 1 && InOrder(w.marks, |w.after|)
    && (forall i :: 0 <= i < |w.loads| ==> LoadedAt(w, i))
    && Read(w.since, w.loads).answer == CaughtUp
  }

  ghost predicate Valid(w: Watch) {
    Inv(w.s0) && Observed(w)
  }

  ghost function Live(w: Watch): seq<Event> {
    Queue(Registration(w), w.after, OnThread(w.t))
  }

  ghost function Output(w: Watch): seq<Event>
    requires w.loads != []
  {
    Emitted(w.since, w.f, w.loads, Live(w))
  }

  /** The state of the last page. */
  ghost function CaughtUpAt(w: Watch): State
    requires InOrder(w.marks, |w.after|) && |w.marks| == |w.loads| >= 1
  {
    var used := Read(w.since, w.loads).used;
    if used > 0 then StateAfter(Registration(w), w.after[..w.marks[used - 1]]) else Registration(w)
  }

  lemma RegistrationInv(w: Watch)
    requires Inv(w.s0)
    ensures Inv(Registration(w)) && Inv(End(w)) && Evolves(Registration(w), End(w))
  {
    MomentsEvolve(w.s0, w.before);
    MomentsEvolve(Registration(w), w.after);
  }

  lemma PointLoads(w: Watch, i: nat)
    requires Valid(w) && i < |w.loads|
    ensures LoadOk(Points(Registration(w), w.after, w.marks), w.t, w.since, w.loads, i)
  {
    assert LoadedAt(w, i);
    RegistrationInv(w);
    PointsEvolve(Registration(w), w.after, w.marks[i], w.marks[i]);
    if i > 0 { PointsEvolve(Registration(w), w.after, w.marks[i - 1], w.marks[i]); }
  }

  lemma WatchLoads(w: Watch)
    requires Valid(w)
    ensures AreLoads(Points(Registration(w), w.after, w.marks), w.t, w.since, w.loads)
  {
    forall i | 0 <= i < |w.loads|
      ensures LoadOk(Points(Registration(w), w.after, w.marks), w.t, w.since, w.loads, i)
    {
      PointLoads(w, i);
    }
  }

  lemma PointBetween(s: State, after: seq<Moment>, m: nat)
    requires Inv(s) && m <= |after|
    ensures Inv(StateAfter(s, after[..m])) && Evolves(s, StateAfter(s, after[..m]))
    ensures Evolves(StateAfter(s, after[..m]), StateAfter(s, after))
  {
    assert after[..0] == [] && after[..|after|] == after;
    PointsEvolve(s, after, 0, m);
    PointsEvolve(s, after, m, |after|);
  }

  lemma CaughtUpIsPoint(w: Watch) returns (m: nat)
    requires |w.marks| == |w.loads| >= 1 && InOrder(w.marks, |w.after|)
    ensures m <= |w.after| && CaughtUpAt(w) == StateAfter(Registration(w), w.after[..m])
  {
    var used := Read(w.since, w.loads).used;
    m := if used > 0 then w.marks[used - 1] else 0;
    assert w.after[..0] == [];
  }

  /** The page states lie between registration and end. */
  lemma CaughtUpBetween(w: Watch)
    requires Inv(w.s0) && |w.marks| == |w.loads| >= 1 && InOrder(w.marks, |w.after|)
    ensures Inv(CaughtUpAt(w)) && Evolves(Registration(w), CaughtUpAt(w)) && Evolves(CaughtUpAt(w), End(w))
  {
    var m := CaughtUpIsPoint(w);
    MomentsEvolve(w.s0, w.before);
    PointBetween(Registration(w), w.after, m);
  }

  /** No sequence is emitted twice, and none at or below the cursor. */
  lemma EmittedOnce(w: Watch)
    requires Valid(w)
    ensures DistinctSequences(Output(w)) && forall e :: e in Output(w) ==> e.sequence > w.since
  {
    WatchLoads(w);
    NothingTwice(Points(Registration(w), w.after, w.marks), w.t, w.since, w.f, w.loads, Live(w));
  }

  ghost function Shown(w: Watch): seq<Event>
    requires w.loads != []
  {
    Replayed(w.f, w.loads[..Read(w.since, w.loads).used])
  }

  /** The output is the replay and the new part of the queue. */
  lemma OutputParts(w: Watch)
    requires w.loads != [] && Read(w.since, w.loads).answer == CaughtUp
    ensures Output(w) == Shown(w) + Emit(e => WireMatches(w.f, e), w.since, Sequences(Shown(w)), Live(w))
  {
  }

  // ---- every event is accounted for ----

  /** What arrives in the queue is emitted. */
  lemma FannedOutIsEmitted(w: Watch, k: EventId)
    requires Valid(w) && FansOut(k) in w.after && k < |End(w).inserted|
    requires var e := End(w).inserted[k]; OnThread(w.t)(e) && WireMatches(w.f, e) && e.sequence > w.since
    ensures End(w).inserted[k].sequence in Sequences(Output(w))
  {
    RegistrationInv(w);
    QueueIsFannedOut(Registration(w), w.after, OnThread(w.t));
    OutputParts(w);
    var more := Emit(e => WireMatches(w.f, e), w.since, Sequences(Shown(w)), Live(w));
    EmitOnce(e => WireMatches(w.f, e), w.since, Sequences(Shown(w)), Live(w));
    SequencesConcat(Shown(w), more);
  }

  /** What was fanned out too early was committed before the registration. */
  lemma EarlyIsOld(w: Watch, k: EventId)
    requires Valid(w) && FansOut(k) !in w.after && k < |End(w).inserted| && OnThread(w.t)(End(w).inserted[k])
    ensures k < |Registration(w).inserted| && k < |CaughtUpAt(w).inserted|
    ensures CaughtUpAt(w).inserted[k] == End(w).inserted[k]
  {
    QueueIsFannedOut(w.s0, w.before, OnThread(w.t));
    CaughtUpBetween(w);
    SameRow(Registration(w), CaughtUpAt(w), k);
    SameRow(CaughtUpAt(w), End(w), k);
  }

  /** A row that was pruned before a reader without a cursor started. */
  ghost predicate PrunedAway(w: Watch, k: EventId)
    requires w.loads != [] && k < |End(w).inserted| && InOrder(w.marks, |w.after|) && |w.marks| == |w.loads|
  {
    w.since == 0 && End(w).inserted[k].sequence <= w.loads[0].watermark && k !in CaughtUpAt(w).events
  }

  lemma OldIsScanned(w: Watch, k: EventId)
    requires Valid(w) && k < |CaughtUpAt(w).inserted| && k < |End(w).inserted|
    requires var e := End(w).inserted[k];
             CaughtUpAt(w).inserted[k] == e && e.thread == Some(w.t) && e.sequence > w.since
    ensures var e := End(w).inserted[k];
            e in Scanned(w.loads[..Read(w.since, w.loads).used]) || RunGone(CaughtUpAt(w), e) || PrunedAway(w, k)
  {
    var e := End(w).inserted[k];
    var last := CaughtUpAt(w);
    WatchLoads(w);
    CaughtUpBetween(w);
    ReplayIsGapless(Points(Registration(w), w.after, w.marks), w.t, w.since, w.f, w.loads);
    assert CaughtUpWith(last, w.t, w.since, Floor(w.since, w.loads), Scanned(w.loads[..Read(w.since, w.loads).used]));
    SequencesStartAtOne(last, k);
    if k in last.events {
      assert last.events[k] == e;
      assert e in RowsAfter(last, w.t, w.since);
    }
  }

  lemma SequencesStartAtOne(s: State, k: nat)
    requires LogInv(s) && k < |s.inserted| && s.inserted[k].thread.Some?
    ensures s.inserted[k].sequence >= 1
    ensures k in s.events ==> s.events[k] == s.inserted[k]
  {
    assert EventOk(s, s.inserted[k]);
  }

  lemma ScannedInOrder(w: Watch)
    requires Valid(w)
    ensures var scanned := Scanned(w.loads[..Read(w.since, w.loads).used]);
            Ascending(scanned) && forall e :: e in scanned ==> e in CaughtUpAt(w).inserted && e.thread == Some(w.t)
  {
    WatchLoads(w);
    ReplayIsGapless(Points(Registration(w), w.after, w.marks), w.t, w.since, w.f, w.loads);
  }

  lemma ScannedIsEmitted(w: Watch, e: Event)
    requires Valid(w) && e in Scanned(w.loads[..Read(w.since, w.loads).used]) && Replayable(CaughtUpAt(w), w.f, e)
    ensures e.sequence in Sequences(Output(w))
  {
    WatchLoads(w);
    ScannedInOrder(w);
    CurrentRowsAreShown(Points(Registration(w), w.after, w.marks), w.t, w.since, w.f, w.loads, Read(w.since, w.loads).used, e);
    OutputParts(w);
    assert e in Output(w);
  }

  /** Every matching event of the thread after the cursor, whenever it was committed, is emitted, unless its message was
      fanned out before the registration and its row was pruned, belongs to a deleted run or one that is not resumable,
      or asks for an input that was not open when the thread row was read. */
  lemma EveryEventIsAccountedFor(w: Watch, k: EventId)
    requires Valid(w) && k < |End(w).inserted|
    requires var e := End(w).inserted[k]; OnThread(w.t)(e) && WireMatches(w.f, e) && e.sequence > w.since
    ensures var e := End(w).inserted[k];
            || e.sequence in Sequences(Output(w))
            || (FansOut(k) in w.before && FansOut(k) !in w.after
                && (PrunedAway(w, k) || !ResumableNow(CaughtUpAt(w), e) || !StillActive(w.f, e)))
  {
    if FansOut(k) in w.after {
      FannedOutIsEmitted(w, k);
    } else {
      EarlyIsOld(w, k);
      OldIsScanned(w, k);
      var e := End(w).inserted[k];
      if e in Scanned(w.loads[..Read(w.since, w.loads).used]) && Replayable(CaughtUpAt(w), w.f, e) {
        ScannedIsEmitted(w, e);
      }
    }
  }

  // ---- requests for input ----

  /** A request for input, named by its interrupt. */
  predicate IsRequest(e: Event) {
    e.topic == REQUESTED && e.payload != ""
  }

  /** Sequences are unique within a thread. */
  lemma SameSequence(s: State, j: nat, k: nat)
    requires OrderInv(s) && j < |s.inserted| && k < |s.inserted|
    requires s.inserted[j].thread.Some? && s.inserted[j].thread == s.inserted[k].thread
    requires s.inserted[j].sequence == s.inserted[k].sequence
    ensures j == k
  {
    assert SameScope(s.inserted[j], s.inserted[k]) && SameScope(s.inserted[k], s.inserted[j]);
  }

  lemma {:induction false} ReplayedWasShown(f: Filter, loads: seq<Load>, e: Event)
    requires Ascending(Scanned(loads)) && e in Replayed(f, loads)
    ensures e in Scanned(loads) && StillActive(f, e)
    decreases |loads|
  {
    var before, last := loads[..|loads| - 1], loads[|loads| - 1];
    AscendingParts(Scanned(before), last.rows);
    ShownAreRows(f, last.resumable, last.rows);
    if e in Replayed(f, before) { ReplayedWasShown(f, before, e); }
  }

  /** An event that was emitted by the replay was open, and one that was emitted from the queue was fanned out in time. */
  lemma EmittedWasOpenOrTimely(w: Watch, k: EventId)
    requires Valid(w) && k < |End(w).inserted| && End(w).inserted[k].thread == Some(w.t)
    requires End(w).inserted[k].sequence in Sequences(Output(w))
    ensures StillActive(w.f, End(w).inserted[k]) || FansOut(k) in w.after
  {
    OutputParts(w);
    var d :| d in Output(w) && d.sequence == End(w).inserted[k].sequence;
    if d in Shown(w) {
      ShownWasOpen(w, d, k);
    } else {
      LiveWasTimely(w, d, k);
    }
  }

  lemma ShownWasOpen(w: Watch, d: Event, k: EventId)
    requires Valid(w) && k < |End(w).inserted| && End(w).inserted[k].thread == Some(w.t)
    requires d in Shown(w) && d.sequence == End(w).inserted[k].sequence
    ensures StillActive(w.f, End(w).inserted[k])
  {
    ScannedInOrder(w);
    ReplayedWasShown(w.f, w.loads[..Read(w.since, w.loads).used], d);
    CaughtUpBetween(w);
    InsertedStays(CaughtUpAt(w), End(w), d);
    RegistrationInv(w);
    SameEvent(End(w), d, k);
  }

  lemma SameEvent(s: State, d: Event, k: nat)
    requires OrderInv(s) && k < |s.inserted| && d in s.inserted && d.thread.Some?
    requires d.thread == s.inserted[k].thread && d.sequence == s.inserted[k].sequence
    ensures d == s.inserted[k]
  {
    var j :| 0 <= j < |s.inserted| && s.inserted[j] == d;
    SameSequence(s, j, k);
  }

  lemma LiveWasTimely(w: Watch, d: Event, k: EventId)
    requires Valid(w) && k < |End(w).inserted| && End(w).inserted[k].thread == Some(w.t)
    requires d.sequence == End(w).inserted[k].sequence
    requires d in Emit(e => WireMatches(w.f, e), w.since, Sequences(Shown(w)), Live(w))
    ensures FansOut(k) in w.after
  {
    RegistrationInv(w);
    EmitOnce(e => WireMatches(w.f, e), w.since, Sequences(Shown(w)), Live(w));
    QueueIsFannedOut(Registration(w), w.after, OnThread(w.t));
    var j: EventId :| FansOut(j) in w.after && j < |End(w).inserted| && End(w).inserted[j] == d;
    SameSequence(End(w), j, k);
  }

  /** A request for input of a resumable run, still in the table when the replay caught up, is emitted if and only if its
      interrupt was already open when the thread row was read or its message was fanned out after the registration. */
  lemma RequestIsEmittedExactly(w: Watch, k: EventId)
    requires Valid(w) && k < |End(w).inserted| && k in CaughtUpAt(w).events
    requires var e := End(w).inserted[k];
             OnThread(w.t)(e) && IsRequest(e) && WireMatches(w.f, e) && e.sequence > w.since && ResumableNow(CaughtUpAt(w), e)
    ensures var e := End(w).inserted[k];
            e.sequence in Sequences(Output(w))
            <==> e.payload in w.s0.threads[w.t].projection.interrupts || FansOut(k) in w.after
  {
    if End(w).inserted[k].sequence in Sequences(Output(w)) {
      EmittedWasOpenOrTimely(w, k);
    } else {
      EveryEventIsAccountedFor(w, k);
    }
  }
}
