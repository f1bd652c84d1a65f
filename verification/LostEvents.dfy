/** What a stream can lose, as histories: a request for input that slips between two reads of a thread stream, and the end of
    a run that slips between two reads of a run stream. */
module LostEvents {
  import opened Wrappers
  import opened RunState
  import opened Tables
  import opened EventLog
  import opened RunStore
  import opened Protocol
  import opened StepCases
  import opened LogInvariants
  import opened TerminalEvents
  import opened LogEvolution
  import opened EventFilter
  import opened LiveStream
  import opened Delivery
  import opened Splices
  import Streams = RunStreams

  // ---- what finishing a run records ----

  /** The row of a notice. */
  predicate IsRowOf(e: Event, r: RunId, run: Run, n: Notice) {
    && e.run == Some(r) && e.thread == run.thread && e.topic == n.topic && e.namespace == n.namespace
    && e.payload == n.payload && e.terminal == n.terminal
  }

  lemma RecordIsRow(s: State, r: RunId, n: Notice, s': State)
    requires r in s.runs && Record(s, r, n) == Commit(s') && !(n.terminal && HasTerminalEvent(s, r))
    ensures |s'.inserted| == |s.inserted| + 1 && IsRowOf(s'.inserted[|s.inserted|], r, s.runs[r], n)
  {
    var run := s.runs[r];
    if run.thread.Some? {
      var next := NextThreadSequence(s, run.thread.value);
      AppendIsRow(SetThreadCursor(s, run.thread.value, next), r, n, next);
    } else {
      AppendIsRow(s, r, n, NextRunSequence(s, r));
    }
  }

  lemma AppendIsRow(s: State, r: RunId, n: Notice, sequence: nat)
    requires r in s.runs
    ensures var s' := Append(s, r, n, sequence);
            |s'.inserted| == |s.inserted| + 1 && IsRowOf(s'.inserted[|s.inserted|], r, s.runs[r], n)
  {
  }

  /** The worker `owner` executes run `r`. */
  predicate Executes(s: State, r: RunId, owner: Owner) {
    r in s.runs && s.runs[r].status == Running && s.runs[r].leaseOwner == Some(owner)
  }

  lemma FinishStarts(s: State, r: RunId, owner: Owner, e: Ending, payload: Option<Json>, n: Plain, s': State)
    requires Executes(s, r, owner) && Finish(s, r, owner, EndStatus(e), EndReason(e), payload, [n]) == Commit(s')
    ensures Record(s, r, n).Commit? && EventsEvolve(Record(s, r, n).db, s')
  {
    var s1 := Record(s, r, n).db;
    assert RecordAll(s, r, [n]) == Commit(s1);
    FinishEnds(s1, r, e, payload, s');
  }

  lemma FinishEnds(s1: State, r: RunId, e: Ending, payload: Option<Json>, s': State)
    requires r in s1.runs
    requires Record(LetGo(s1, r, EndStatus(e), EndReason(e), None), r, StatusNotice(EndStatus(e), payload.GetOr("lifecycle")))
             == Commit(s')
    ensures EventsEvolve(s1, s')
  {
    var s2 := LetGo(s1, r, EndStatus(e), EndReason(e), None);
    SameEvents(s1, s2);
    RecordEvolves(s2, r, StatusNotice(EndStatus(e), payload.GetOr("lifecycle")), s');
    EventsTrans(s1, s2, s');
  }

  // ---- a request between the row and the queue ----

  /** The first moment of the stream is the commit of a run that stops to ask for input. */
  ghost predicate AsksFirst(w: Watch, r: RunId, owner: Owner, payload: Option<Json>, request: Plain) {
    && Executes(w.s0, r, owner) && w.s0.runs[r].thread == Some(w.t)
    && w.before != [] && w.before[0] == Commits(FinishRun(r, owner, AwaitsHuman, payload, [request]))
    && Finish(w.s0, r, owner, Interrupted, HitlInterrupt, payload, [request]).Commit?
  }

  /** The request is the first row that the commit inserts. */
  lemma AskedAtOnce(s: State, r: RunId, owner: Owner, payload: Option<Json>, request: Plain, s': State)
    requires Executes(s, r, owner) && Finish(s, r, owner, Interrupted, HitlInterrupt, payload, [request]) == Commit(s')
    ensures |s.inserted| < |s'.inserted| && IsRowOf(s'.inserted[|s.inserted|], r, s.runs[r], request)
  {
    FinishStarts(s, r, owner, AwaitsHuman, payload, request, s');
    RecordIsRow(s, r, request, Record(s, r, request).db);
    SameRow(Record(s, r, request).db, s', |s.inserted|);
  }

  lemma AskingStep(s: State, r: RunId, owner: Owner, payload: Option<Json>, request: Plain)
    requires Finish(s, r, owner, Interrupted, HitlInterrupt, payload, [request]).Commit?
    ensures NextState(s, Commits(FinishRun(r, owner, AwaitsHuman, payload, [request])))
            == Finish(s, r, owner, Interrupted, HitlInterrupt, payload, [request]).db
  {
  }

  lemma AskedRow(w: Watch, r: RunId, owner: Owner, payload: Option<Json>, request: Plain)
    requires AsksFirst(w, r, owner, payload, request) && EventsEvolve(NextState(w.s0, w.before[0]), End(w))
    ensures |w.s0.inserted| < |End(w).inserted|
    ensures IsRowOf(End(w).inserted[|w.s0.inserted|], r, w.s0.runs[r], request)
  {
    var s' := Finish(w.s0, r, owner, Interrupted, HitlInterrupt, payload, [request]).db;
    AskedAtOnce(w.s0, r, owner, payload, request, s');
    AskingStep(w.s0, r, owner, payload, request);
    SameRow(s', End(w), |w.s0.inserted|);
  }

  /** The thread row is read, a run stops and asks for input, its message is fanned out, and only then the queue is
      registered: the request is recorded but the stream never shows it, although the replay reads its row. */
  lemma RequestIsLost(w: Watch, r: RunId, owner: Owner, payload: Option<Json>, request: Plain)
    requires Splices.Valid(w) && AsksFirst(w, r, owner, payload, request) && FansOut(|w.s0.inserted|) !in w.after
    requires request.topic == REQUESTED && request.payload != ""
    requires request.payload !in w.s0.threads[w.t].projection.interrupts
    ensures |w.s0.inserted| < |End(w).inserted|
    ensures var e := End(w).inserted[|w.s0.inserted|];
            e.run == Some(r) && e.thread == Some(w.t) && e.payload == request.payload && e.sequence !in Sequences(Output(w))
  {
    FirstEvolves(w.s0, w.before);
    RegistrationInv(w);
    EventsTrans(NextState(w.s0, w.before[0]), Registration(w), End(w));
    AskedRow(w, r, owner, payload, request);
    if End(w).inserted[|w.s0.inserted|].sequence in Sequences(Output(w)) {
      EmittedWasOpenOrTimely(w, |w.s0.inserted|);
    }
  }

  // ---- the end between two reads of the run ----

  /** The first moment after the registration is the commit of the run's end. */
  ghost predicate EndsFirst(w: Streams.RunWatch, owner: Owner, payload: Option<Json>) {
    && Executes(w.s0, w.r, owner)
    && w.after != [] && w.after[0] == Commits(FinishRun(w.r, owner, Completes, payload, []))
    && Finish(w.s0, w.r, owner, Success, Completed, payload, []).Commit?
  }

  /** The end of a running run is recorded by the next row. */
  lemma EndedAtOnce(s: State, r: RunId, owner: Owner, payload: Option<Json>, s': State)
    requires Executes(s, r, owner) && !HasTerminalEvent(s, r)
    requires Finish(s, r, owner, Success, Completed, payload, []) == Commit(s')
    ensures |s.inserted| < |s'.inserted|
    ensures s'.inserted[|s.inserted|].run == Some(r) && s'.inserted[|s.inserted|].terminal
  {
    var s2 := LetGo(s, r, Success, Completed, None);
    RecordIsRow(s2, r, StatusNotice(Success, payload.GetOr("lifecycle")), s');
  }

  lemma EndedStatus(s: State, r: RunId, owner: Owner, payload: Option<Json>, s': State)
    requires Executes(s, r, owner) && Finish(s, r, owner, Success, Completed, payload, []) == Commit(s')
    ensures r in s'.runs && s'.runs[r].status == Success
  {
    RecordIsLogged(LetGo(s, r, Success, Completed, None), r, StatusNotice(Success, payload.GetOr("lifecycle")), s');
  }

  lemma EndingStep(s: State, r: RunId, owner: Owner, payload: Option<Json>)
    requires Finish(s, r, owner, Success, Completed, payload, []).Commit?
    ensures NextState(s, Commits(FinishRun(r, owner, Completes, payload, [])))
            == Finish(s, r, owner, Success, Completed, payload, []).db
  {
  }

  lemma NoEndYet(s: State, r: RunId)
    requires LogInv(s) && TerminalInv(s) && r in s.runs && s.runs[r].status == Running
    ensures !HasTerminalEvent(s, r)
  {
    LookupIsHistory(s, r);
    assert Settled(s, r);
  }

  lemma EndRow(w: Streams.RunWatch, owner: Owner, payload: Option<Json>)
    requires EndsFirst(w, owner, payload) && EventsEvolve(NextState(w.s0, w.after[0]), Streams.RunEnd(w))
    requires !HasTerminalEvent(w.s0, w.r)
    ensures |w.s0.inserted| < |Streams.RunEnd(w).inserted|
    ensures var e := Streams.RunEnd(w).inserted[|w.s0.inserted|]; e.run == Some(w.r) && e.terminal
  {
    var s' := Finish(w.s0, w.r, owner, Success, Completed, payload, []).db;
    EndedAtOnce(w.s0, w.r, owner, payload, s');
    EndingStep(w.s0, w.r, owner, payload);
    SameRow(s', Streams.RunEnd(w), |w.s0.inserted|);
  }

  /** The second look finds the run finished. */
  lemma EndIsSeen(w: Streams.RunWatch, owner: Owner, payload: Option<Json>)
    requires Inv(w.s0) && EndsFirst(w, owner, payload) && 1 <= w.againAt <= |w.after|
    ensures Streams.Ended(Streams.SecondRead(w), w.r)
  {
    var s' := Finish(w.s0, w.r, owner, Success, Completed, payload, []).db;
    EndedStatus(w.s0, w.r, owner, payload, s');
    EndingStep(w.s0, w.r, owner, payload);
    SecondLook(w, s');
  }

  lemma SecondLook(w: Streams.RunWatch, s': State)
    requires Inv(w.s0) && 1 <= w.againAt <= |w.after| && NextState(w.s0, w.after[0]) == s'
    requires w.r in s'.runs && IsTerminal(s'.runs[w.r].status)
    ensures Streams.Ended(Streams.SecondRead(w), w.r)
  {
    var seen := w.after[..w.againAt];
    FirstThenRest(w.s0, seen);
    MomentEvolves(w.s0, w.after[0]);
    Streams.EndedStays(s', seen[1..], w.r);
  }

  /** The stream reads the rows of a running run, the run finishes, and the second look finds it finished: whatever the
      stream is asked to show, its terminal event is recorded, and queued, but never sent. */
  lemma EndIsLost(w: Streams.RunWatch, shows: Event -> bool, owner: Owner, payload: Option<Json>)
    requires Streams.ValidRun(w) && Streams.Accepted(w)
    requires EndsFirst(w, owner, payload) && w.readAt == 0 < w.againAt
    ensures |w.s0.inserted| < |Streams.RunEnd(w).inserted|
    ensures var e := Streams.RunEnd(w).inserted[|w.s0.inserted|];
            e.run == Some(w.r) && e.terminal && e in Queue(w.s0, w.after, Streams.OfRun(w.r))
            && (Streams.OfInterest(w, shows, e) ==> e.sequence !in Sequences(Streams.RunOutput(w, shows)))
  {
    NoEndYet(w.s0, w.r);
    FirstEvolves(w.s0, w.after);
    EndRow(w, owner, payload);
    EndIsSeen(w, owner, payload);
    EndIsNotSent(w, shows);
  }

  lemma EndIsNotSent(w: Streams.RunWatch, shows: Event -> bool)
    requires Streams.ValidRun(w) && Streams.Accepted(w)
    requires w.readAt == 0 && w.gone && |w.s0.inserted| < |Streams.RunEnd(w).inserted|
    requires Streams.RunEnd(w).inserted[|w.s0.inserted|].run == Some(w.r)
    ensures var e := Streams.RunEnd(w).inserted[|w.s0.inserted|];
            e in Queue(w.s0, w.after, Streams.OfRun(w.r))
            && (Streams.OfInterest(w, shows, e) ==> e.sequence !in Sequences(Streams.RunOutput(w, shows)))
  {
    var k: EventId := |w.s0.inserted|;
    assert w.after[..0] == [];
    QueueIsFannedOut(w.s0, w.after, Streams.OfRun(w.r));
    if Streams.OfInterest(w, shows, Streams.RunEnd(w).inserted[k]) { Streams.EmittedExactly(w, shows, k); }
  }
}
