/** The stream of one run on the time line: registration, replay, a second look at the status, and the live queue. */
module RunStreams {
  import opened Wrappers
  import opened RunState
  import opened Tables
  import opened RunSteps
  import opened LogInvariants
  import opened TerminalEvents
  import opened LogEvolution
  import opened LiveStream
  import opened EventStreams
  import opened Delivery
  import opened RunScopes

  function OfRun(r: RunId): Event -> bool {
    (e: Event) => e.run == Some(r)
  }

  /** One stream: its queue is registered in state `s0`; the moments `after` follow, and after some of them the run is read
      with its rows, and later its status alone. If the stream ends in silence, the queue was last found empty after
      `quietAt` moments, and the run's rows were loaded after `loadedAt`. */
  datatype RunWatch = RunWatch(
    s0: State,
    after: seq<Moment>,
    readAt: nat,
    againAt: nat,
    quietAt: nat,
    loadedAt: nat,
    r: RunId,
    cursor: nat,
    created: bool,
    first: RunRead,
    gone: bool,
    inputs: seq<Input>)

  ghost function FirstRead(w: RunWatch): State
    requires w.readAt <= |w.after|
  {
    StateAfter(w.s0, w.after[..w.readAt])
  }

  ghost function SecondRead(w: RunWatch): State
    requires w.againAt <= |w.after|
  {
    StateAfter(w.s0, w.after[..w.againAt])
  }

  ghost function LastLoad(w: RunWatch): State
    requires w.loadedAt <= |w.after|
  {
    StateAfter(w.s0, w.after[..w.loadedAt])
  }

  ghost function RunEnd(w: RunWatch): State {
    StateAfter(w.s0, w.after)
  }

  /** What `_run_replay` returns. */
  ghost predicate IsRead(s: State, r: RunId, cursor: nat, first: RunRead) {
    && first.found == (r in s.runs)
    && (first.found ==>
          && first.terminal == IsTerminal(s.runs[r].status) && first.resumable == s.runs[r].streamResumable
          && first.watermark == s.runs[r].eventPrunedThrough && IsRunReplay(s, r, cursor, first.rows))
  }

  ghost predicate Ended(s: State, r: RunId) {
    r in s.runs ==> IsTerminal(s.runs[r].status)
  }

  /** No message is lost: every event of the run that commits after the registration is fanned out. The messages that
      the live loop takes, from the local buffer or the queue, are events of the run. */
  ghost predicate Delivered(w: RunWatch) {
    && Causal(w.s0, w.after)
    && (forall k: EventId :: |w.s0.inserted| <= k < |RunEnd(w).inserted| && RunEnd(w).inserted[k].run == Some(w.r) ==>
          FansOut(k) in w.after)
    && (forall e :: e in Messages(w.inputs) ==> e in RunEnd(w).inserted && e.run == Some(w.r))
  }

  /** The rows that are loaded after a silence, whichever cursor they are asked for. */
  ghost predicate Answers(s: State, r: RunId, load: nat -> seq<Event>) {
    Ended(s, r) && forall after: nat :: IsRunReplay(s, r, after, load(after))
  }

  /** Both reads, and the load after a silence, are what the database answers. */
  ghost predicate ObservedRun(w: RunWatch) {
    && w.readAt <= w.againAt <= w.quietAt <= w.loadedAt <= |w.after|
    && IsRead(FirstRead(w), w.r, w.cursor, w.first) && w.gone == Ended(SecondRead(w), w.r)
    && (forall i :: 0 <= i < |w.inputs| && w.inputs[i].Silence? && w.inputs[i].ended ==>
          Answers(LastLoad(w), w.r, w.inputs[i].load))
    && Delivered(w)
  }

  ghost predicate ValidRun(w: RunWatch) {
    Inv(w.s0) && OneThread(w.s0) && ObservedRun(w)
  }

  /** The run is there, and the stream is not refused for its cursor: a stream without one never is. */
  predicate Accepted(w: RunWatch) {
    w.first.found && (w.cursor == 0 || w.cursor >= w.first.watermark)
  }

  /** The stream replays: this request created the run, or the run was meant to be resumed. */
  predicate Serves(w: RunWatch) {
    w.created || w.first.resumable
  }

  ghost function RunOutput(w: RunWatch, shows: Event -> bool): seq<Event> {
    RunStream(shows, w.cursor, w.created, w.first, w.gone, w.inputs)
  }

  function ReplayedOf(w: RunWatch, shows: Event -> bool): seq<Event> {
    if Serves(w) then Emit(shows, w.cursor, {}, w.first.rows) else []
  }

  /** What the live loop considers. */
  ghost function HeardOf(w: RunWatch, shows: Event -> bool): seq<Event> {
    Heard(shows, w.cursor, Sequences(ReplayedOf(w, shows)), w.inputs)
  }

  predicate OfInterest(w: RunWatch, shows: Event -> bool, e: Event) {
    e.run == Some(w.r) && e.sequence > w.cursor && shows(e)
  }

  // ---- the time line ----

  lemma FirstBetween(w: RunWatch)
    requires Inv(w.s0) && w.readAt <= |w.after|
    ensures Inv(FirstRead(w)) && Evolves(w.s0, FirstRead(w)) && Evolves(FirstRead(w), RunEnd(w)) && Inv(RunEnd(w))
  {
    assert w.after[..0] == [] && w.after[..|w.after|] == w.after;
    PointsEvolve(w.s0, w.after, 0, w.readAt);
    PointsEvolve(w.s0, w.after, w.readAt, |w.after|);
  }

  /** A finished run stays finished. */
  lemma {:induction false} EndedStays(s: State, moments: seq<Moment>, r: RunId)
    requires Inv(s) && r in s.runs && IsTerminal(s.runs[r].status)
    ensures Ended(StateAfter(s, moments), r)
    decreases |moments|
  {
    if moments != [] {
      var before := moments[..|moments| - 1];
      EndedStays(s, before, r);
      MomentsEvolve(s, before);
      EndedNext(StateAfter(s, before), moments[|moments| - 1], r);
    }
  }

  lemma EndedNext(s: State, m: Moment, r: RunId)
    requires Inv(s) && r in s.issued && Ended(s, r)
    ensures Ended(NextState(s, m), r)
  {
    if m.Commits? { EveryRow(s, m.step, r); }
  }

  lemma FinishedIsGone(w: RunWatch)
    requires ValidRun(w) && w.first.found && w.first.terminal
    ensures w.gone
  {
    assert w.after[..w.againAt] == w.after[..w.readAt] + w.after[w.readAt..w.againAt];
    StateAfterBoth(w.s0, w.after[..w.readAt], w.after[w.readAt..w.againAt]);
    MomentsEvolve(w.s0, w.after[..w.readAt]);
    EndedStays(FirstRead(w), w.after[w.readAt..w.againAt], w.r);
  }

  lemma {:induction false} MomentsOnOneThread(s: State, moments: seq<Moment>)
    requires Inv(s) && OneThread(s)
    ensures OneThread(StateAfter(s, moments))
    decreases |moments|
  {
    if moments != [] {
      var before := moments[..|moments| - 1];
      MomentsOnOneThread(s, before);
      MomentsEvolve(s, before);
      MomentOnOneThread(StateAfter(s, before), moments[|moments| - 1]);
    }
  }

  lemma MomentOnOneThread(s: State, m: Moment)
    requires Inv(s) && OneThread(s)
    ensures OneThread(NextState(s, m))
  {
    if m.Commits? { OneThreadStep(s, m.step); }
  }

  /** Sequences are unique within a run. */
  lemma SameRunSequence(s: State, r: RunId, j: nat, k: nat)
    requires OrderInv(s) && OneThread(s) && j < |s.inserted| && k < |s.inserted|
    requires s.inserted[j].run == Some(r) && s.inserted[k].run == Some(r) && s.inserted[j].sequence == s.inserted[k].sequence
    ensures j == k
  {
    assert SameScope(s.inserted[j], s.inserted[k]) && SameScope(s.inserted[k], s.inserted[j]);
  }

  // ---- what is emitted ----

  /** The envelopes that pass through the stream's filter. */
  ghost function Considered(w: RunWatch, shows: Event -> bool): seq<Event> {
    (if Serves(w) then w.first.rows else []) + (if w.gone then [] else HeardOf(w, shows))
  }

  lemma OutputIsFiltered(w: RunWatch, shows: Event -> bool)
    requires Starts(w.cursor, w.created, w.first)
    ensures RunOutput(w, shows) == Emit(shows, w.cursor, {}, Considered(w, shows))
  {
    var rows := if Serves(w) then w.first.rows else [];
    var heard := if w.gone then [] else HeardOf(w, shows);
    EmitInPhases(shows, w.cursor, {}, rows, heard);
    var replayed := Emit(shows, w.cursor, {}, rows);
    assert {} + Sequences(replayed) == Sequences(replayed);
    assert replayed + [] == replayed;
  }

  /** Nothing is emitted twice, at or below the cursor, or against the client's modes. */
  lemma RunEmitsOnce(w: RunWatch, shows: Event -> bool)
    ensures DistinctSequences(RunOutput(w, shows))
    ensures forall e :: e in RunOutput(w, shows) ==> shows(e) && e.sequence > w.cursor
  {
    if Starts(w.cursor, w.created, w.first) {
      OutputIsFiltered(w, shows);
      EmitOnce(shows, w.cursor, {}, Considered(w, shows));
    }
  }

  /** An answer of the table in state `s`, seen from a later state: it returns an event exactly if its row is still in the
      table and above the cursor, and nothing else with its sequence. */
  lemma AnswerIsTable(s: State, end: State, r: RunId, after: nat, rows: seq<Event>, k: EventId)
    requires RowsInv(s) && IsRunReplay(s, r, after, rows)
    requires EventsEvolve(s, end) && OrderInv(end) && OneThread(end) && k < |end.inserted| && end.inserted[k].run == Some(r)
    ensures end.inserted[k] in rows <==> k in s.events && end.inserted[k].sequence > after
    ensures forall d :: d in rows && d.sequence == end.inserted[k].sequence ==> d == end.inserted[k]
  {
    forall d | d in rows && d.sequence == end.inserted[k].sequence
      ensures d == end.inserted[k] && k in s.events
    {
      var j :| j in s.events && s.events[j] == d && s.events[j].run == Some(r);
      assert s.inserted[j] == d;
      SameRow(s, end, j);
      SameRunSequence(end, r, j, k);
    }
    if k in s.events {
      assert s.inserted[k] == s.events[k];
      SameRow(s, end, k);
    }
  }

  lemma PointInv(w: RunWatch, m: nat)
    requires Inv(w.s0) && OneThread(w.s0) && m <= |w.after|
    ensures RowsInv(StateAfter(w.s0, w.after[..m])) && EventsEvolve(StateAfter(w.s0, w.after[..m]), RunEnd(w))
    ensures OrderInv(RunEnd(w)) && OneThread(RunEnd(w))
  {
    assert w.after[..|w.after|] == w.after;
    PointsEvolve(w.s0, w.after, m, |w.after|);
    MomentsOnOneThread(w.s0, w.after);
  }

  /** The rows of the first read. */
  lemma RowIsInTable(w: RunWatch, k: EventId)
    requires ValidRun(w) && w.first.found && k < |RunEnd(w).inserted|
    requires RunEnd(w).inserted[k].run == Some(w.r) && RunEnd(w).inserted[k].sequence > w.cursor
    ensures RunEnd(w).inserted[k] in w.first.rows <==> k in FirstRead(w).events
    ensures forall d :: d in w.first.rows && d.sequence == RunEnd(w).inserted[k].sequence ==> d == RunEnd(w).inserted[k]
  {
    PointInv(w, w.readAt);
    AnswerIsTable(FirstRead(w), RunEnd(w), w.r, w.cursor, w.first.rows, k);
  }

  lemma RecordedIsItself(s: State, r: RunId, d: Event, k: EventId)
    requires OrderInv(s) && OneThread(s) && d in s.inserted && d.run == Some(r) && k < |s.inserted|
    requires s.inserted[k].run == Some(r) && d.sequence == s.inserted[k].sequence
    ensures d == s.inserted[k]
  {
    var j :| 0 <= j < |s.inserted| && s.inserted[j] == d;
    SameRunSequence(s, r, j, k);
  }

  lemma LoadIsTable(w: RunWatch, i: nat, after: nat, k: EventId)
    requires ValidRun(w) && i < |w.inputs| && w.inputs[i].Silence? && w.inputs[i].ended
    requires k < |RunEnd(w).inserted| && RunEnd(w).inserted[k].run == Some(w.r)
    ensures var e, rows := RunEnd(w).inserted[k], w.inputs[i].load(after);
            && (e in rows <==> k in LastLoad(w).events && e.sequence > after)
            && forall d :: d in rows && d.sequence == e.sequence ==> d == e
  {
    PointInv(w, w.loadedAt);
    assert IsRunReplay(LastLoad(w), w.r, after, w.inputs[i].load(after));
    AnswerIsTable(LastLoad(w), RunEnd(w), w.r, after, w.inputs[i].load(after), k);
  }

  lemma HeardIsItself(w: RunWatch, shows: Event -> bool, d: Event, k: EventId)
    requires ValidRun(w) && d in HeardOf(w, shows) && k < |RunEnd(w).inserted|
    requires RunEnd(w).inserted[k].run == Some(w.r) && d.sequence == RunEnd(w).inserted[k].sequence
    ensures d == RunEnd(w).inserted[k]
  {
    HeardParts(shows, w.cursor, Sequences(ReplayedOf(w, shows)), w.inputs, d);
    if d in Messages(w.inputs) {
      PointInv(w, 0);
      RecordedIsItself(RunEnd(w), w.r, d, k);
    } else {
      var i, after: nat :| 0 <= i < |w.inputs| && w.inputs[i].Silence? && w.inputs[i].ended && d in w.inputs[i].load(after);
      LoadIsTable(w, i, after, k);
    }
  }

  /** The replay shows the event: the stream replays, and the row was in the table when it was read. */
  ghost predicate Replays(w: RunWatch, k: EventId)
    requires w.readAt <= |w.after|
  {
    Serves(w) && k in FirstRead(w).events
  }

  /** The live loop hears of the event. */
  ghost predicate Hears(w: RunWatch, shows: Event -> bool, k: EventId)
    requires k < |RunEnd(w).inserted|
  {
    !w.gone && RunEnd(w).inserted[k] in HeardOf(w, shows)
  }

  /** An event of interest is emitted exactly if its row was in the table when the stream replayed, and the stream does
      replay, or if the stream goes live and hears of it. */
  lemma EmittedExactly(w: RunWatch, shows: Event -> bool, k: EventId)
    requires ValidRun(w) && Accepted(w)
    requires k < |RunEnd(w).inserted| && OfInterest(w, shows, RunEnd(w).inserted[k])
    ensures RunEnd(w).inserted[k].sequence in Sequences(RunOutput(w, shows)) <==> Replays(w, k) || Hears(w, shows, k)
  {
    var e := RunEnd(w).inserted[k];
    RowIsInTable(w, k);
    if w.first.terminal { FinishedIsGone(w); }
    if Starts(w.cursor, w.created, w.first) {
      OutputIsFiltered(w, shows);
      EmitOnce(shows, w.cursor, {}, Considered(w, shows));
      if e.sequence in Sequences(RunOutput(w, shows)) {
        var d :| d in RunOutput(w, shows) && d.sequence == e.sequence;
        if !(Serves(w) && d in w.first.rows) { HeardIsItself(w, shows, d, k); }
      }
    }
  }

  // ---- when there is no gap ----

  /** The client got everything of interest that was recorded of the run by the end. */
  ghost predicate GapFree(w: RunWatch, shows: Event -> bool) {
    forall k: EventId :: k < |RunEnd(w).inserted| && OfInterest(w, shows, RunEnd(w).inserted[k]) ==>
      RunEnd(w).inserted[k].sequence in Sequences(RunOutput(w, shows))
  }

  /** An event of interest that was recorded before the rows were read. */
  ghost predicate Past(w: RunWatch, shows: Event -> bool, k: EventId)
    requires w.readAt <= |w.after|
  {
    k < |FirstRead(w).inserted| && k < |RunEnd(w).inserted| && OfInterest(w, shows, RunEnd(w).inserted[k])
  }

  /** An event of interest that was recorded after the rows were read. */
  ghost predicate Later(w: RunWatch, shows: Event -> bool, k: EventId)
    requires w.readAt <= |w.after|
  {
    |FirstRead(w).inserted| <= k < |RunEnd(w).inserted| && OfInterest(w, shows, RunEnd(w).inserted[k])
  }

  ghost predicate Grew(w: RunWatch, shows: Event -> bool)
    requires w.readAt <= |w.after|
  {
    exists k: EventId :: Later(w, shows, k)
  }

  /** What was recorded before the rows were read is heard all the same. */
  ghost predicate HearsThePast(w: RunWatch, shows: Event -> bool)
    requires w.readAt <= |w.after|
  {
    forall k: EventId :: Past(w, shows, k) ==> Hears(w, shows, k)
  }

  /** Some row was gone from the table before the stream read it, and is not heard of either. */
  ghost predicate Pruned(w: RunWatch, shows: Event -> bool)
    requires w.readAt <= |w.after|
  {
    exists k: EventId :: Past(w, shows, k) && k !in FirstRead(w).events && !Hears(w, shows, k)
  }

  /** The loop ends in silence: its last input finds the run ended, and no message before was terminal. */
  predicate EndsInSilence(inputs: seq<Input>) {
    && inputs != [] && inputs[|inputs| - 1].Silence? && inputs[|inputs| - 1].ended
    && forall e :: e in Messages(inputs[..|inputs| - 1]) ==> !e.terminal
  }

  function Talk(inputs: seq<Input>): seq<Input> {
    if EndsInSilence(inputs) then inputs[..|inputs| - 1] else inputs
  }

  /** The client stays until the queue is drained or the stream ends itself: the loop takes what the local buffer replays,
      all of it recorded before the registration, and then every message of the queue in order, up to the moment when it
      was found empty if the stream ends in silence. */
  ghost predicate Listens(w: RunWatch)
    requires w.quietAt <= |w.after|
  {
    var taken := if EndsInSilence(w.inputs) then w.after[..w.quietAt] else w.after;
    && NeverEnded(Talk(w.inputs))
    && exists buffered :: Messages(Talk(w.inputs)) == buffered + Queue(w.s0, taken, OfRun(w.r))
                          && forall e :: e in buffered ==> e in w.s0.inserted
  }

  /** The newest sequence shown when the silence began. */
  ghost function NewestShown(w: RunWatch, shows: Event -> bool): nat {
    NewestAfter(shows, w.cursor, Sequences(ReplayedOf(w, shows)), Messages(Talk(w.inputs)))
  }

  /** Something of interest was recorded after the rows were read, and its message was overtaken by the run's end. */
  ghost predicate Overtakes(w: RunWatch, shows: Event -> bool)
    requires w.readAt <= |w.after|
  {
    exists k: EventId :: Later(w, shows, k) && Overtaken(Messages(w.inputs), RunEnd(w).inserted[k])
  }

  /** The event's message came after the queue was found empty, and its row is not among those loaded then: it is not in
      the table, or not above the newest sequence shown. */
  ghost predicate Silenced(w: RunWatch, shows: Event -> bool, k: EventId)
    requires w.quietAt <= w.loadedAt <= |w.after| && k < |RunEnd(w).inserted|
  {
    && FansOut(k) !in w.after[..w.quietAt]
    && (k !in LastLoad(w).events || RunEnd(w).inserted[k].sequence <= NewestShown(w, shows))
  }

  /** What ends the stream hides something of interest that was recorded after the rows were read: the second look, the
      silence, or a terminal message. */
  ghost predicate CutsOff(w: RunWatch, shows: Event -> bool)
    requires w.readAt <= w.quietAt <= w.loadedAt <= |w.after|
  {
    if w.gone then Grew(w, shows)
    else if EndsInSilence(w.inputs) then exists k: EventId :: Later(w, shows, k) && Silenced(w, shows, k)
    else Overtakes(w, shows)
  }

  // ---- the three endings ----

  lemma {:induction false} CausalSoFar(s: State, moments: seq<Moment>, m: nat)
    requires Causal(s, moments) && m <= |moments|
    ensures Causal(s, moments[..m])
    decreases |moments|
  {
    if m < |moments| {
      CausalSoFar(s, moments[..|moments| - 1], m);
      assert moments[..|moments| - 1][..m] == moments[..m];
    } else {
      assert moments[..m] == moments;
    }
  }

  lemma QueueHolds(s: State, end: State, moments: seq<Moment>, r: RunId, k: EventId)
    requires Inv(s) && Causal(s, moments) && EventsEvolve(StateAfter(s, moments), end) && OrderInv(end) && OneThread(end)
    requires k < |end.inserted| && end.inserted[k].run == Some(r)
    ensures end.inserted[k] in Queue(s, moments, OfRun(r)) <==> FansOut(k) in moments
  {
    var now := StateAfter(s, moments);
    QueueIsFannedOut(s, moments, OfRun(r));
    if FansOut(k) in moments { SameRow(now, end, k); }
    if end.inserted[k] in Queue(s, moments, OfRun(r)) {
      var j: EventId :| FansOut(j) in moments && j < |now.inserted| && now.inserted[j] == end.inserted[k];
      SameRow(now, end, j);
      SameRunSequence(end, r, j, k);
    }
  }

  /** What was recorded before is old. */
  lemma BufferedIsOld(s: State, end: State, r: RunId, k: EventId)
    requires EventsEvolve(s, end) && OrderInv(end) && OneThread(end)
    requires k < |end.inserted| && end.inserted[k].run == Some(r) && end.inserted[k] in s.inserted
    ensures k < |s.inserted|
  {
    var j :| 0 <= j < |s.inserted| && s.inserted[j] == end.inserted[k];
    SameRow(s, end, j);
    SameRunSequence(end, r, j, k);
  }

  /** How many of the moments had passed when the loop took its last message. */
  function TakenUntil(w: RunWatch): nat {
    if EndsInSilence(w.inputs) then w.quietAt else |w.after|
  }

  lemma TalkIsFannedOut(w: RunWatch, k: EventId)
    requires ValidRun(w) && Listens(w) && |w.s0.inserted| <= k < |RunEnd(w).inserted| && RunEnd(w).inserted[k].run == Some(w.r)
    ensures RunEnd(w).inserted[k] in Messages(Talk(w.inputs)) <==> FansOut(k) in w.after[..TakenUntil(w)]
  {
    var m := TakenUntil(w);
    assert w.after[..|w.after|] == w.after && w.after[..0] == [];
    PointInv(w, m);
    PointInv(w, 0);
    CausalSoFar(w.s0, w.after, m);
    QueueHolds(w.s0, RunEnd(w), w.after[..m], w.r, k);
    if RunEnd(w).inserted[k] in w.s0.inserted { BufferedIsOld(w.s0, RunEnd(w), w.r, k); }
  }

  /** Without silence the loop hears of a later event unless its message was overtaken. */
  lemma LaterIsHeard(w: RunWatch, shows: Event -> bool, k: EventId)
    requires ValidRun(w) && Listens(w) && !EndsInSilence(w.inputs) && Later(w, shows, k)
    ensures RunEnd(w).inserted[k] in HeardOf(w, shows) <==> !Overtaken(Messages(w.inputs), RunEnd(w).inserted[k])
  {
    NotBefore(w);
    TalkIsFannedOut(w, k);
    assert w.after[..|w.after|] == w.after;
    HeardIsUpToTerminal(shows, w.cursor, Sequences(ReplayedOf(w, shows)), w.inputs);
    HeardUnlessOvertaken(Messages(w.inputs), RunEnd(w).inserted[k]);
  }

  lemma NotBefore(w: RunWatch)
    requires Inv(w.s0) && w.readAt <= |w.after|
    ensures |w.s0.inserted| <= |FirstRead(w).inserted|
  {
    FirstBetween(w);
  }

  lemma SilenceIsHeard(w: RunWatch, shows: Event -> bool)
    requires NeverEnded(Talk(w.inputs)) && EndsInSilence(w.inputs)
    ensures HeardOf(w, shows) == Messages(Talk(w.inputs)) + w.inputs[|w.inputs| - 1].load(NewestShown(w, shows))
  {
    var last := w.inputs[|w.inputs| - 1];
    assert w.inputs == Talk(w.inputs) + [last];
    HeardUntilSilence(shows, w.cursor, Sequences(ReplayedOf(w, shows)), Talk(w.inputs), last);
  }

  /** With silence at the end it hears of it unless it is silenced. */
  lemma LaterIsLoaded(w: RunWatch, shows: Event -> bool, k: EventId)
    requires ValidRun(w) && Listens(w) && EndsInSilence(w.inputs) && Later(w, shows, k)
    ensures RunEnd(w).inserted[k] in HeardOf(w, shows) <==> !Silenced(w, shows, k)
  {
    NotBefore(w);
    TalkIsFannedOut(w, k);
    SilenceIsHeard(w, shows);
    LoadIsTable(w, |w.inputs| - 1, NewestShown(w, shows), k);
  }

  /** Only a client without a cursor can miss a pruned event, and only one at or below the run's watermark that is not its
      end: a stream that resumes is refused instead. */
  lemma OnlyFreshStreamsMissPruned(w: RunWatch, shows: Event -> bool, k: EventId)
    requires ValidRun(w) && Accepted(w) && Past(w, shows, k) && k !in FirstRead(w).events
    ensures w.cursor == 0 < w.first.watermark
    ensures RunEnd(w).inserted[k].sequence <= w.first.watermark && !RunEnd(w).inserted[k].terminal
  {
    FirstBetween(w);
    SameRow(FirstRead(w), RunEnd(w), k);
    assert Excused(FirstRead(w), FirstRead(w).inserted[k]);
  }

  // ---- the exact condition ----

  /** A run stream that was not refused, and whose client stays, leaves no gap if and only if three things hold. It replays
      (the request created the run or the run is resumable), or it happens to hear of everything that was recorded before.
      No such event was gone from the table when it replayed, unless it is heard of. And what ends the stream cuts nothing
      off: neither the second look, nor a silence, nor a terminal message that overtakes others. */
  lemma RunStreamIsGapFreeExactly(w: RunWatch, shows: Event -> bool)
    requires ValidRun(w) && Accepted(w) && Listens(w)
    ensures GapFree(w, shows) <==>
            (Serves(w) || HearsThePast(w, shows)) && !Pruned(w, shows) && !CutsOff(w, shows)
  {
    forall k: EventId | k < |RunEnd(w).inserted| && OfInterest(w, shows, RunEnd(w).inserted[k])
      ensures RunEnd(w).inserted[k].sequence in Sequences(RunOutput(w, shows)) <==> Replays(w, k) || Hears(w, shows, k)
    {
      EmittedExactly(w, shows, k);
    }
    GapFreeByEvent(w, shows);
    PastExactly(w, shows);
    LaterExactly(w, shows);
  }

  ghost predicate Got(w: RunWatch, shows: Event -> bool, k: EventId)
    requires w.readAt <= |w.after| && k < |RunEnd(w).inserted|
  {
    Replays(w, k) || Hears(w, shows, k)
  }

  lemma GapFreeByEvent(w: RunWatch, shows: Event -> bool)
    requires w.readAt <= |w.after|
    requires forall k: EventId :: k < |RunEnd(w).inserted| && OfInterest(w, shows, RunEnd(w).inserted[k]) ==>
      (RunEnd(w).inserted[k].sequence in Sequences(RunOutput(w, shows)) <==> Got(w, shows, k))
    ensures GapFree(w, shows) <==> (forall k: EventId :: Past(w, shows, k) ==> Got(w, shows, k))
                                   && (forall k: EventId :: Later(w, shows, k) ==> Got(w, shows, k))
  {
    forall k: EventId | k < |RunEnd(w).inserted| && OfInterest(w, shows, RunEnd(w).inserted[k])
      ensures Past(w, shows, k) || Later(w, shows, k)
    {
    }
  }

  lemma PastExactly(w: RunWatch, shows: Event -> bool)
    requires w.readAt <= |w.after|
    ensures (forall k: EventId :: Past(w, shows, k) ==> Got(w, shows, k))
            <==> (Serves(w) || HearsThePast(w, shows)) && !Pruned(w, shows)
  {
  }

  lemma LaterIsNotReplayed(w: RunWatch, shows: Event -> bool, k: EventId)
    requires Inv(w.s0) && w.readAt <= |w.after| && Later(w, shows, k)
    ensures !Replays(w, k)
  {
    FirstBetween(w);
  }

  lemma LaterExactly(w: RunWatch, shows: Event -> bool)
    requires ValidRun(w) && Listens(w)
    ensures (forall k: EventId :: Later(w, shows, k) ==> Got(w, shows, k)) <==> !CutsOff(w, shows)
  {
    forall k: EventId | Later(w, shows, k)
      ensures Got(w, shows, k) <==> Hears(w, shows, k)
      ensures !w.gone ==> (Hears(w, shows, k) <==> if EndsInSilence(w.inputs) then !Silenced(w, shows, k)
                                                   else !Overtaken(Messages(w.inputs), RunEnd(w).inserted[k]))
    {
      LaterIsNotReplayed(w, shows, k);
      if EndsInSilence(w.inputs) { LaterIsLoaded(w, shows, k); } else { LaterIsHeard(w, shows, k); }
    }
    if w.gone { assert forall k: EventId :: Later(w, shows, k) ==> !Hears(w, shows, k); }
  }
}
