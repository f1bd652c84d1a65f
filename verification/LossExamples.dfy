/** The losses happen in histories that start from an empty database. */
module LossExamples {
  import opened Wrappers
  import opened RunState
  import opened Tables
  import opened EventLog
  import opened RunStore
  import opened Protocol
  import opened TerminalEvents
  import opened Reachable
  import opened EventFilter
  import opened ReplayReader
  import opened ReplayPages
  import opened LiveStream
  import opened EventStreams
  import opened Delivery
  import opened Splices
  import opened LostEvents
  import opened RunScopes
  import Streams = RunStreams

  const SETTINGS: Config := Settings(60.0, 3, 1.0)
  const BLANK := Projection(None, map[], "idle", None, None, None)
  const SUBMISSION := Submission(Some(1), 1, false, true, None, false, false)

  /** A thread is opened, a resumable run is submitted, and a worker claims it. */
  function Opening(): seq<Step> {
    [OpenThread(1, BLANK), Submit(SETTINGS, 1, SUBMISSION), ClaimNext(SETTINGS, 1, "worker")]
  }

  function Opened(clock: Time): State {
    Init(clock).(threads := map[1 := Thread(BLANK, 0, 0)])
  }

  function Waiting(clock: Time): Run {
    Run(Some(1), 1, Pending, None, 0, 3, None, None, None, 0, 0, false, false, true, None, 1, clock, clock)
  }

  function Submitted(clock: Time): State {
    Opened(clock).(runs := map[1 := Waiting(clock)], issued := {1})
  }

  lemma Opens(clock: Time)
    ensures Apply(Init(clock), OpenThread(1, BLANK)) == Opened(clock)
  {
  }

  lemma Submits(clock: Time)
    ensures Apply(Opened(clock), Submit(SETTINGS, 1, SUBMISSION)) == Submitted(clock)
  {
    var s := Opened(clock);
    assert NextPosition(s, Some(1)) == 1;
    assert NewRun(s, SETTINGS, SUBMISSION) == Waiting(clock);
    assert Create(s, SETTINGS, 1, SUBMISSION) == Commit(SetRun(s, 1, Waiting(clock)).(issued := {1}));
  }

  lemma IsEligible(clock: Time)
    ensures Eligible(Submitted(clock), 1)
  {
    var s := Submitted(clock);
    assert s.runs[1] == Waiting(clock);
  }

  lemma Claims(clock: Time)
    ensures var s := Apply(Submitted(clock), ClaimNext(SETTINGS, 1, "worker"));
            && Executes(s, 1, "worker") && s.runs == map[1 := Claimed(Submitted(clock), SETTINGS, 1, "worker")]
            && s.threads == map[1 := Thread(BLANK.(status := "busy"), 0, 0)] && s.events == map[] && s.inserted == []
            && s.clock == clock
  {
    IsEligible(clock);
    var s := Submitted(clock);
    assert !OtherActive(s.runs, 1, 1);
    assert ClaimRun(s, SETTINGS, 1, "worker") == Commit(Grant(Prepare(s, 1), SETTINGS, 1, "worker"));
  }

  lemma OpensReached(clock: Time)
    ensures Reached(clock, Opening()) == Apply(Submitted(clock), ClaimNext(SETTINGS, 1, "worker"))
  {
    Opens(clock);
    Submits(clock);
    ThreeSteps(Init(clock), OpenThread(1, BLANK), Submit(SETTINGS, 1, SUBMISSION), ClaimNext(SETTINGS, 1, "worker"));
  }

  lemma ThreeSteps(s: State, a: Step, b: Step, c: Step)
    ensures Exec(s, [a, b, c]) == Apply(Apply(Apply(s, a), b), c)
  {
    assert [a, b, c][1..] == [b, c] && [b, c][1..] == [c] && [c][1..] == [];
    assert Exec(s, [a, b, c]) == Exec(Apply(s, a), [b, c]);
    assert Exec(Apply(s, a), [b, c]) == Exec(Apply(Apply(s, a), b), [c]);
    assert Exec(Apply(Apply(s, a), b), [c]) == Exec(Apply(Apply(Apply(s, a), b), c), []);
  }

  // ---- what is recorded next ----

  lemma RecordsNext(s: State, n: Notice, sequence: nat)
    requires 1 in s.runs && s.runs[1].thread == Some(1) && 1 in s.threads && s.threads[1].eventSeq + 1 == sequence
    requires forall k :: k in s.events ==> s.events[k].sequence < sequence && !s.events[k].terminal
    ensures Record(s, 1, n) == Commit(Append(SetThreadCursor(s, 1, sequence), 1, n, sequence))
  {
    var m := MaxOf(ThreadSequences(s, 1));
    assert m == 0 || m in ThreadSequences(s, 1);
  }

  function Row(clock: Time, n: Notice, sequence: nat): Event {
    Event(Some(1), Some(1), sequence, n.topic, n.namespace, n.payload, n.terminal, clock)
  }

  lemma AppendsRow(s: State, n: Notice, sequence: nat)
    requires 1 in s.runs && s.runs[1].thread == Some(1) && 1 in s.threads
    ensures var s' := Append(SetThreadCursor(s, 1, sequence), 1, n, sequence);
            && s'.inserted == s.inserted + [Row(s.clock, n, sequence)]
            && s'.events == s.events[|s.inserted| := Row(s.clock, n, sequence)]
            && s'.threads == s.threads[1 := s.threads[1].(eventSeq := sequence)]
            && s'.runs == s.runs[1 := s.runs[1].(eventSeq := Max(s.runs[1].eventSeq, sequence))] && s'.clock == s.clock
  {
  }

  // ---- the request ----

  const ASKS: Plain := Notice(REQUESTED, "interrupt", [], false)
  const STOPS := StatusNotice(Interrupted, "lifecycle")

  /** The state after the claim, as far as the log is concerned. */
  ghost predicate Fresh(s: State) {
    && Executes(s, 1, "worker") && s.runs[1].thread == Some(1) && s.runs[1].streamResumable
    && s.runs[1].retryCount == 1 && s.runs[1].eventPrunedThrough == 0
    && s.threads == map[1 := Thread(BLANK.(status := "busy"), 0, 0)] && s.events == map[] && s.inserted == []
  }

  lemma Asks(s: State) returns (s1: State)
    requires Fresh(s)
    ensures RecordAll(s, 1, [ASKS]) == Commit(s1) && Executes(s1, 1, "worker") && s1.clock == s.clock
    ensures s1.inserted == [Row(s.clock, ASKS, 1)] && s1.events == map[0 := Row(s.clock, ASKS, 1)]
    ensures s1.threads == map[1 := Thread(BLANK.(status := "busy"), 1, 0)]
    ensures s1.runs[1] == s.runs[1].(eventSeq := s1.runs[1].eventSeq)
  {
    RecordsNext(s, ASKS, 1);
    AppendsRow(s, ASKS, 1);
    s1 := Append(SetThreadCursor(s, 1, 1), 1, ASKS, 1);
    assert [ASKS][1..] == [];
  }

  lemma OpeningIsFresh(clock: Time)
    ensures Fresh(Reached(clock, Opening()))
  {
    OpensReached(clock);
    Claims(clock);
  }

  lemma Stops(s: State) returns (s': State)
    requires 1 in s.runs && s.runs[1].thread == Some(1)
    requires s.threads == map[1 := Thread(BLANK.(status := "busy"), 1, 0)]
    requires s.inserted == [Row(s.clock, ASKS, 1)] && s.events == map[0 := Row(s.clock, ASKS, 1)]
    ensures Record(s, 1, STOPS) == Commit(s')
    ensures s'.inserted == [Row(s.clock, ASKS, 1), Row(s.clock, STOPS, 2)]
    ensures s'.events == map[0 := Row(s.clock, ASKS, 1), 1 := Row(s.clock, STOPS, 2)]
    ensures s'.threads == map[1 := Thread(BLANK.(status := "busy"), 2, 0)]
    ensures 1 in s'.runs && s'.runs[1] == s.runs[1].(eventSeq := s'.runs[1].eventSeq) && s'.clock == s.clock
  {
    RecordsNext(s, STOPS, 2);
    AppendsRow(s, STOPS, 2);
    s' := Append(SetThreadCursor(s, 1, 2), 1, STOPS, 2);
  }

  /** Run 1 of thread 1 is over, and was never pruned. */
  predicate IsOver(s: State) {
    && 1 in s.runs && s.runs[1].thread == Some(1) && s.runs[1].status == Interrupted
    && s.runs[1].updatedAt == s.clock && s.runs[1].eventPrunedThrough == 0
  }

  /** The run stops and asks: two rows. */
  lemma AsksAndStops(s: State) returns (s': State)
    requires Fresh(s)
    ensures Finish(s, 1, "worker", Interrupted, HitlInterrupt, None, [ASKS]) == Commit(s')
    ensures s'.inserted == [Row(s.clock, ASKS, 1), Row(s.clock, STOPS, 2)]
    ensures s'.events == map[0 := Row(s.clock, ASKS, 1), 1 := Row(s.clock, STOPS, 2)]
    ensures s'.threads == map[1 := Thread(BLANK.(status := "busy"), 2, 0)]
    ensures 1 in s'.runs && s'.runs[1].streamResumable && IsOver(s') && s'.clock == s.clock
  {
    var s1 := Asks(s);
    s' := Stops(LetGo(s1, 1, Interrupted, HitlInterrupt, None));
  }

  /** The stream of a client that reads the thread row, and whose queue is registered once both messages are out. */
  ghost function AskedWatch(s: State): Watch {
    Watch(s, [Commits(FinishRun(1, "worker", AwaitsHuman, None, [ASKS])), FansOut(0), FansOut(1)], [], 1, 0,
          Filter(["*"], [], None, {}), [0], [Load(0, [Row(s.clock, ASKS, 1), Row(s.clock, STOPS, 2)], {1})])
  }

  lemma CommitThenFansOut(s: State, first: Moment, s': State)
    requires first.Commits? && NextState(s, first) == s' && |s'.inserted| == 2
    ensures StateAfter(s, [first, FansOut(0), FansOut(1)]) == s' && Causal(s, [first, FansOut(0), FansOut(1)])
  {
    var m := [first, FansOut(0), FansOut(1)];
    assert m[..2] == [first, FansOut(0)] && m[..2][..1] == [first] && [first][..0] == [];
    assert StateAfter(s, [first]) == s' && Causal(s, [first]);
    assert StateAfter(s, m[..2]) == s' && Causal(s, m[..2]);
  }

  lemma TimelyAfter(w: Watch, first: Moment, s': State)
    requires w.before == [first, FansOut(0), FansOut(1)] && w.after == []
    requires first.Commits? && NextState(w.s0, first) == s' && |s'.inserted| == 2
    ensures Registration(w) == s' && End(w) == s' && Timely(w)
  {
    CommitThenFansOut(w.s0, first, s');
    assert w.before[1] == FansOut(0) && w.before[2] == FansOut(1);
  }

  lemma AskedLoads(s: State, s': State)
    requires Fresh(s) && Registration(AskedWatch(s)) == s'
    requires s'.events == map[0 := Row(s.clock, ASKS, 1), 1 := Row(s.clock, STOPS, 2)]
    requires s'.threads == map[1 := Thread(BLANK.(status := "busy"), 2, 0)]
    requires 1 in s'.runs && s'.runs[1].streamResumable
    ensures LoadedAt(AskedWatch(s), 0)
  {
    var w := AskedWatch(s);
    assert w.after[..0] == [] && w.loads[..0] == [];
    var rows := w.loads[0].rows;
    assert s'.events[0] in RowsAfter(s', 1, 0) && s'.events[1] in RowsAfter(s', 1, 0);
    assert rows[0] == s'.events[0] && rows[1] == s'.events[1];
  }

  /** It can happen that a stream never shows a recorded, resumable, open request for input that it asked for. */
  lemma RequestCanBeLost(clock: Time) returns (w: Watch)
    ensures w.s0 == Reached(clock, Opening()) && Splices.Valid(w)
    ensures |End(w).inserted| == 2
    ensures var e := End(w).inserted[0];
            && OnThread(w.t)(e) && IsRequest(e) && WireMatches(w.f, e) && e.sequence > w.since
            && ResumableNow(CaughtUpAt(w), e) && e.sequence !in Sequences(Output(w))
  {
    var s := Reached(clock, Opening());
    ReachedInv(clock, Opening());
    OpeningIsFresh(clock);
    w := AskedWatch(s);
    var s' := AsksAndStops(s);
    AskingStep(s, 1, "worker", None, ASKS);
    TimelyAfter(w, w.before[0], s');
    AskedLoads(s, s');
    AskedIsObserved(w);
    AskedIsLost(w, s');
  }

  lemma AskedReads(w: Watch)
    requires w == AskedWatch(w.s0)
    ensures Read(w.since, w.loads) == Reading(CaughtUp, 1) && CaughtUpAt(w) == Registration(w)
  {
    assert w.after[..0] == [];
  }

  lemma AskedIsObserved(w: Watch)
    requires Fresh(w.s0) && w == AskedWatch(w.s0) && Timely(w) && LoadedAt(w, 0)
    ensures Observed(w) && CaughtUpAt(w) == Registration(w)
  {
    AskedReads(w);
  }

  lemma AskedIsLost(w: Watch, s': State)
    requires Splices.Valid(w) && Fresh(w.s0) && w == AskedWatch(w.s0) && CaughtUpAt(w) == s' && End(w) == s'
    requires Finish(w.s0, 1, "worker", Interrupted, HitlInterrupt, None, [ASKS]).Commit?
    requires 1 in s'.runs && s'.runs[1].streamResumable
    requires s'.inserted == [Row(w.s0.clock, ASKS, 1), Row(w.s0.clock, STOPS, 2)]
    ensures var e := End(w).inserted[0];
            && OnThread(w.t)(e) && IsRequest(e) && WireMatches(w.f, e) && e.sequence > w.since
            && ResumableNow(CaughtUpAt(w), e) && e.sequence !in Sequences(Output(w))
  {
    RequestIsLost(w, 1, "worker", None, ASKS);
  }

  // ---- the end ----

  const DONE := StatusNotice(Success, "lifecycle")

  /** The run completes: one row. */
  lemma Completes(s: State) returns (s': State)
    requires Fresh(s)
    ensures Finish(s, 1, "worker", Success, Completed, None, []) == Commit(s')
    ensures s'.inserted == [Row(s.clock, DONE, 1)] && 1 in s'.runs && s'.runs[1].status == Success
  {
    var s2 := LetGo(s, 1, Success, Completed, None);
    RecordsNext(s2, DONE, 1);
    AppendsRow(s2, DONE, 1);
    s' := Append(SetThreadCursor(s2, 1, 1), 1, DONE, 1);
  }

  /** The stream of the client that created the run: it reads the run while it executes, and its status after the end. */
  ghost function EndedWatch(s: State): Streams.RunWatch {
    Streams.RunWatch(s, [Commits(FinishRun(1, "worker", Ending.Completes, None, [])), FansOut(0)], 0, 1, 2, 2, 1, 0, true,
                     RunRead(true, false, true, 0, []), true, [Message(Row(s.clock, DONE, 1))])
  }

  lemma CommitThenFanOut(s: State, first: Moment, s': State)
    requires first.Commits? && NextState(s, first) == s' && |s'.inserted| == 1
    ensures StateAfter(s, [first, FansOut(0)]) == s' && StateAfter(s, [first]) == s' && Causal(s, [first, FansOut(0)])
  {
    assert [first, FansOut(0)][..1] == [first] && [first][..0] == [];
    assert StateAfter(s, [first]) == s' && Causal(s, [first]);
  }

  lemma EndedReads(w: Streams.RunWatch, first: Moment, s': State)
    requires w.after == [first, FansOut(0)] && first.Commits? && NextState(w.s0, first) == s' && |s'.inserted| == 1
    requires w.readAt == 0 && w.againAt == 1
    ensures Streams.FirstRead(w) == w.s0 && Streams.SecondRead(w) == s' && Streams.RunEnd(w) == s' && Causal(w.s0, w.after)
  {
    CommitThenFanOut(w.s0, first, s');
    assert w.after[..0] == [] && w.after[..1] == [first];
  }

  lemma NothingToReplay(s: State, first: RunRead)
    requires Fresh(s) && first == RunRead(true, false, true, 0, [])
    ensures Streams.IsRead(s, 1, 0, first)
  {
  }

  lemma EndedIsDelivered(w: Streams.RunWatch)
    requires FansOut(0) in w.after && Causal(w.s0, w.after) && |Streams.RunEnd(w).inserted| == 1
    requires Streams.RunEnd(w).inserted[0].run == Some(w.r) && w.inputs == [Message(Streams.RunEnd(w).inserted[0])]
    ensures Streams.Delivered(w)
  {
    assert Messages(w.inputs) == [Streams.RunEnd(w).inserted[0]];
  }

  /** The client takes the one message of the queue. */
  lemma EndedListens(w: Streams.RunWatch, first: Moment, s': State)
    requires w.after == [first, FansOut(0)] && first.Commits? && NextState(w.s0, first) == s' && |s'.inserted| == 1
    requires s'.inserted[0].run == Some(w.r) && w.inputs == [Message(s'.inserted[0])] && w.quietAt <= 2
    ensures Streams.Listens(w)
  {
    var kind := Streams.OfRun(w.r);
    assert w.after[..1] == [first] && [first][..0] == [];
    CommitThenFanOut(w.s0, first, s');
    assert Queue(w.s0, [first], kind) == [];
    assert Queue(w.s0, w.after, kind) == [s'.inserted[0]];
    assert Messages(w.inputs) == [] + Queue(w.s0, w.after, kind);
  }

  lemma EndedIsValid(w: Streams.RunWatch)
    requires w.readAt == 0 && w.againAt == 1 && w.quietAt == w.loadedAt == |w.after| == 2 && Streams.FirstRead(w) == w.s0
    requires |w.inputs| == 1 && w.inputs[0].Message?
    requires Inv(w.s0) && OneThread(w.s0) && Streams.IsRead(w.s0, w.r, w.cursor, w.first) && w.gone && Streams.Ended(Streams.SecondRead(w), w.r)
    requires Streams.Delivered(w)
    ensures Streams.ValidRun(w)
  {
  }

  /** It can happen that the stream of a run never shows the run's recorded end, although nobody pruned or refused anything. */
  lemma EndCanBeLost(clock: Time, shows: Event -> bool) returns (w: Streams.RunWatch)
    ensures w.s0 == Reached(clock, Opening()) && Streams.ValidRun(w) && Streams.Accepted(w) && Streams.Serves(w)
    ensures Streams.Listens(w) && |Streams.RunEnd(w).inserted| == 1
    ensures var e := Streams.RunEnd(w).inserted[0];
            && e.terminal && e.run == Some(w.r) && e.sequence > w.cursor
            && (shows(e) ==> e.sequence !in Sequences(Streams.RunOutput(w, shows)))
  {
    var s := Reached(clock, Opening());
    ReachedInv(clock, Opening());
    OpeningIsFresh(clock);
    w := EndedWatch(s);
    var s' := Completes(s);
    EndingStep(s, 1, "worker", None);
    NothingToReplay(s, w.first);
    EndedReads(w, w.after[0], s');
    assert w.after[1] == FansOut(0);
    EndedIsDelivered(w);
    EndedListens(w, w.after[0], s');
    EndedIsValid(w);
    EndIsLost(w, shows, "worker", None);
  }

  // ---- the pruned row ----

  function Pruning(clock: Time): seq<Step> {
    [FinishRun(1, "worker", AwaitsHuman, None, [ASKS]), Tick(2.0), Retain(1, clock + 1.0, 1, {0})]
  }

  /** Retention deletes the first of the two rows. */
  lemma Prunes(s: State, clock: Time) returns (s': State)
    requires IsOver(s.(clock := clock)) && s.clock == clock + 2.0 && s.runs[1].streamResumable
    requires s.threads == map[1 := Thread(BLANK.(status := "busy"), 2, 0)]
    requires s.inserted == [Row(clock, ASKS, 1), Row(clock, STOPS, 2)]
    requires s.events == map[0 := Row(clock, ASKS, 1), 1 := Row(clock, STOPS, 2)]
    ensures s' == Apply(s, Retain(1, clock + 1.0, 1, {0}))
    ensures 1 in s'.runs && s'.runs[1].status == Interrupted && s'.runs[1].streamResumable && s'.runs[1].eventPrunedThrough == 1
    ensures s'.inserted == s.inserted && s'.events == map[1 := Row(clock, STOPS, 2)]
  {
    s' := Apply(s, Retain(1, clock + 1.0, 1, {0}));
    assert Expired(s, 1, clock + 1.0, 0);
    assert MayPrune(s, 1, clock + 1.0, 1, {0});
    assert (set k | k in {0} && k in s.events :: s.events[k].sequence) == {1};
  }

  lemma TimePasses(s: State)
    ensures Apply(s, Tick(2.0)) == s.(clock := s.clock + 2.0)
  {
  }

  lemma PruningRuns(s: State, clock: Time, s1: State, s2: State)
    requires Apply(s, FinishRun(1, "worker", AwaitsHuman, None, [ASKS])) == s1 && Apply(s1, Tick(2.0)) == s2
    ensures Exec(s, Pruning(clock)) == Apply(s2, Retain(1, clock + 1.0, 1, {0}))
  {
    ThreeSteps(s, FinishRun(1, "worker", AwaitsHuman, None, [ASKS]), Tick(2.0), Retain(1, clock + 1.0, 1, {0}));
  }

  lemma AskedApplies(s: State) returns (s': State)
    requires Fresh(s)
    ensures s' == Apply(s, FinishRun(1, "worker", AwaitsHuman, None, [ASKS]))
    ensures s'.inserted == [Row(s.clock, ASKS, 1), Row(s.clock, STOPS, 2)]
    ensures s'.events == map[0 := Row(s.clock, ASKS, 1), 1 := Row(s.clock, STOPS, 2)]
    ensures s'.threads == map[1 := Thread(BLANK.(status := "busy"), 2, 0)]
    ensures 1 in s'.runs && s'.runs[1].streamResumable && IsOver(s') && s'.clock == s.clock
  {
    s' := AsksAndStops(s);
    AskingStep(s, 1, "worker", None, ASKS);
  }

  lemma PruningReached(clock: Time) returns (s: State)
    ensures s == Reached(clock, Opening() + Pruning(clock))
    ensures 1 in s.runs && s.runs[1].status == Interrupted && s.runs[1].streamResumable && s.runs[1].eventPrunedThrough == 1
    ensures s.inserted == [Row(clock, ASKS, 1), Row(clock, STOPS, 2)] && s.events == map[1 := Row(clock, STOPS, 2)]
  {
    ExecConcat(Init(clock), Opening(), Pruning(clock));
    OpeningIsFresh(clock);
    OpensReached(clock);
    Claims(clock);
    s := PruningFrom(Reached(clock, Opening()), clock);
  }

  lemma PruningFrom(s0: State, clock: Time) returns (s: State)
    requires Fresh(s0) && s0.clock == clock
    ensures s == Exec(s0, Pruning(clock))
    ensures 1 in s.runs && s.runs[1].status == Interrupted && s.runs[1].streamResumable && s.runs[1].eventPrunedThrough == 1
    ensures s.inserted == [Row(clock, ASKS, 1), Row(clock, STOPS, 2)] && s.events == map[1 := Row(clock, STOPS, 2)]
  {
    var s1 := AskedApplies(s0);
    TimePasses(s1);
    var s2 := s1.(clock := s1.clock + 2.0);
    assert s2.(clock := clock) == s1;
    s := Prunes(s2, clock);
    PruningRuns(s0, clock, s1, s2);
  }

  /** The stream of a client without a cursor that asks for the run after its first row was pruned. */
  ghost function PrunedWatch(s: State, clock: Time): Streams.RunWatch {
    Streams.RunWatch(s, [], 0, 0, 0, 0, 1, 0, false, RunRead(true, true, true, 1, [Row(clock, STOPS, 2)]), true, [])
  }

  lemma PrunedIsObserved(s: State, clock: Time)
    requires 1 in s.runs && s.runs[1].status == Interrupted && s.runs[1].streamResumable && s.runs[1].eventPrunedThrough == 1
    requires s.inserted == [Row(clock, ASKS, 1), Row(clock, STOPS, 2)] && s.events == map[1 := Row(clock, STOPS, 2)]
    ensures var w := PrunedWatch(s, clock);
            Streams.ObservedRun(w) && Streams.Listens(w) && Streams.FirstRead(w) == s && Streams.RunEnd(w) == s
  {
    var w := PrunedWatch(s, clock);
    assert w.after[..0] == [];
    assert s.events[1] in RunRowsAfter(s, 1, 0);
    assert Messages([]) == [] + Queue(s, [], Streams.OfRun(1));
  }

  /** It can happen that a stream is served, replays, and nevertheless has a gap: its client has no cursor, and the row was
      pruned before. */
  lemma PrunedCanBeMissed(clock: Time, shows: Event -> bool) returns (w: Streams.RunWatch)
    ensures w.s0 == Reached(clock, Opening() + Pruning(clock)) && Streams.ObservedRun(w) && Streams.Listens(w)
    ensures Streams.Accepted(w) && Streams.Serves(w) && |Streams.RunEnd(w).inserted| == 2
    ensures var e := Streams.RunEnd(w).inserted[0];
            && e.run == Some(w.r) && e.sequence > w.cursor && !Streams.Grew(w, shows)
            && (shows(e) ==> e.sequence !in Sequences(Streams.RunOutput(w, shows)))
  {
    var s := PruningReached(clock);
    w := PrunedWatch(s, clock);
    PrunedIsObserved(s, clock);
    PrunedIsMissed(w, shows);
  }

  lemma PrunedIsMissed(w: Streams.RunWatch, shows: Event -> bool)
    requires w.gone && w.cursor == 0 && w.first.found && w.first.resumable && |w.first.rows| == 1 && w.first.rows[0].sequence == 2
    ensures 1 !in Sequences(Streams.RunOutput(w, shows))
  {
    EmitOnce(shows, 0, {}, w.first.rows);
  }
}
