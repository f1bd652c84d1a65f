/** The worker's event buffer: deltas are published in batches, everything else at once and in order. */
module StreamBuffer {
  import opened Wrappers
  import opened Tables
  import opened EventLog
  import opened LogInvariants

  const BATCH: nat := 32

  /** What a call of the publisher comes to: its transaction commits and it returns; it raises an error, and nothing
      was committed; or its task is cancelled in the middle, before or after the commit. */
  datatype Outcome = Committed | Failed | CutOff(committed: bool)

  /** A delta of a message, which may wait for a batch, or any other event. The position is its place among the events that
      the graph handed over, so two equal deltas are two emissions. */
  datatype Emission = Emission(notice: Plain, delta: bool, position: nat)

  /** The buffer of one execution. `log` is what was committed and `emitted` what the graph handed over; `stopped` means
      that an error reached the graph, which ends its stream. `logged` counts the pending events that a cut off
      publication has already committed. */
  datatype Session = Session(
    pending: seq<Emission>,
    armed: bool,
    error: bool,
    stopped: bool,
    log: seq<Emission>,
    emitted: seq<Emission>,
    logged: nat)

  const START := Session([], false, false, false, [], [], 0)

  function Append(b: Session): Session {
    b.(log := b.log + b.pending)
  }

  /** `_flush_locked`; an error keeps the events pending. */
  function AfterFlushLocked(b: Session, o: Outcome): Session {
    if b.pending == [] then b
    else
      match o
      case Committed => Append(b).(pending := [], logged := 0)
      case Failed => b.(error := true)
      case CutOff(true) => Append(b).(logged := |b.pending|)
      case CutOff(false) => b
  }

  /** Whether `_flush_locked` returned normally. */
  predicate Flushes(b: Session, o: Outcome) {
    b.pending == [] || o == Committed
  }

  /** `add`: the timer runs while a partial batch waits. */
  function AfterAdd(b: Session, e: Emission, o: Outcome): Session {
    if b.error then b
    else
      var b1 := b.(pending := b.pending + [e]);
      if |b1.pending| >= BATCH then AfterFlushLocked(b1, o) else b1.(armed := true)
  }

  predicate Adds(b: Session, o: Outcome) {
    !b.error && (|b.pending| + 1 >= BATCH ==> o == Committed)
  }

  function AfterFlush(b: Session, o: Outcome): Session {
    (if b.error then b else AfterFlushLocked(b, o)).(armed := false)
  }

  /** The publication of a single event. */
  function PublishNow(b: Session, e: Emission, o: Outcome): Session {
    if o == Committed || o == CutOff(true) then b.(log := b.log + [e]) else b
  }

  /** `on_event` while the run is not cancelled. */
  function OnEvent(b: Session, e: Emission, o: Outcome, direct: Outcome): Session {
    var b1 := b.(emitted := b.emitted + [e]);
    if e.delta then AfterAdd(b1, e, o).(stopped := !Adds(b1, o))
    else if b1.error || !Flushes(b1, o) then AfterFlush(b1, o).(stopped := true)
    else PublishNow(AfterFlush(b1, o), e, direct).(stopped := direct != Committed)
  }

  datatype Op =
    | Emits(e: Emission, o: Outcome, direct: Outcome)
    | Fires(o: Outcome)
    | Ends(o: Outcome)

  function Act(b: Session, op: Op): Session {
    match op
    case Emits(e, o, direct) => if b.stopped then b else OnEvent(b, e.(position := |b.emitted|), o, direct)
    case Fires(o) => if b.armed then AfterFlushLocked(b, o).(armed := false) else b
    case Ends(o) => AfterFlush(b, o).(stopped := true)
  }

  function Run(b: Session, ops: seq<Op>): Session
    decreases |ops|
  {
    if ops == [] then b else Run(Act(b, ops[0]), ops[1..])
  }

  // ---- the invariant ----

  /** The log without what a cut off publication left to be repeated. */
  function Settled(b: Session): seq<Emission>
    requires b.logged <= |b.log|
  {
    b.log[..|b.log| - b.logged]
  }

  /** Log and pending events together follow the emission. */
  ghost predicate Follows(b: Session) {
    && b.logged <= |b.log| && b.logged <= |b.pending|
    && b.log[|b.log| - b.logged..] == b.pending[..b.logged]
    && Settled(b) + b.pending <= b.emitted
    && (!b.stopped && !b.error ==> Settled(b) + b.pending == b.emitted)
  }

  ghost predicate Bounded(b: Session) {
    |b.pending| <= BATCH && (|b.pending| == BATCH ==> b.error || b.stopped)
  }

  lemma CommitFollows(b: Session)
    requires Follows(b) && b.logged == 0
    ensures Follows(Append(b).(pending := [], logged := 0))
  {
    assert Settled(b) == b.log;
    var b1 := Append(b).(pending := [], logged := 0);
    assert Settled(b1) == b1.log == b.log + b.pending;
    assert b1.log + [] == b1.log;
  }

  lemma CutOffFollows(b: Session)
    requires Follows(b) && b.logged == 0
    ensures Follows(Append(b).(logged := |b.pending|))
  {
    var b1 := Append(b).(logged := |b.pending|);
    assert Settled(b1) == b.log == Settled(b);
    assert b1.log[|b.log|..] == b.pending;
    assert b.pending[..|b.pending|] == b.pending;
  }

  predicate IsCommit(o: Outcome) {
    o == Committed || o == CutOff(true)
  }

  /** A publication of pending events would commit although some of them are committed already. */
  predicate CommitsAgain(b: Session, o: Outcome) {
    b.pending != [] && b.logged > 0 && IsCommit(o)
  }

  lemma FlushFollows(b: Session, o: Outcome)
    requires Follows(b) && !CommitsAgain(b, o)
    ensures Follows(AfterFlushLocked(b, o))
    ensures Flushes(b, o) ==> AfterFlushLocked(b, o).pending == []
  {
    if b.pending != [] && b.logged == 0 {
      match o {
        case Committed => CommitFollows(b);
        case CutOff(true) => CutOffFollows(b);
        case _ =>
      }
    }
  }

  lemma FlushCompletes(b: Session, o: Outcome)
    requires Follows(b) && Flushes(b, o) && !b.error && !b.stopped && !CommitsAgain(b, o)
    ensures AfterFlushLocked(b, o).log == b.emitted
  {
    if b.pending == [] {
      assert Settled(b) + b.pending == b.log;
    } else {
      assert Settled(b) == b.log;
    }
  }

  /** Stopping, and handing over an event to a stopped stream, keep the order. */
  lemma StopFollows(b: Session, armed: bool, more: seq<Emission>)
    requires Follows(b)
    ensures Follows(b.(stopped := true, armed := armed, emitted := b.emitted + more))
  {
  }

  lemma PendFollows(b: Session, e: Emission)
    requires Follows(b) && !b.stopped && !b.error
    ensures Follows(Pend(b, e))
  {
    var b1 := Pend(b, e);
    assert Settled(b) + b1.pending == (Settled(b) + b.pending) + [e];
    assert b1.pending[..b.logged] == b.pending[..b.logged];
  }

  function Pend(b: Session, e: Emission): Session {
    b.(pending := b.pending + [e], emitted := b.emitted + [e])
  }

  /** What `on_event` comes to for a delta: refused, flushed with the batch it completes, or left to the timer. */
  lemma OnEventAdd(b: Session, e: Emission, o: Outcome, direct: Outcome)
    requires e.delta && !b.stopped
    ensures OnEvent(b, e, o, direct) ==
            if b.error then b.(emitted := b.emitted + [e], stopped := true)
            else if |b.pending| + 1 >= BATCH then AfterFlushLocked(Pend(b, e), o).(stopped := o != Committed)
            else Pend(b, e).(armed := true)
  {
  }

  lemma FullFollows(b: Session, o: Outcome)
    requires Follows(b) && !b.stopped && !CommitsAgain(b, o)
    ensures Follows(AfterFlushLocked(b, o).(stopped := o != Committed))
  {
    FlushFollows(b, o);
    StopFollows(AfterFlushLocked(b, o), b.armed, []);
    assert AfterFlushLocked(b, o).emitted + [] == AfterFlushLocked(b, o).emitted;
  }

  /** Handing over `e` makes a flush that commits events a second time. */
  predicate EmitsAgain(b: Session, e: Emission, o: Outcome) {
    !b.stopped && !b.error && b.logged > 0 && IsCommit(o) && (if e.delta then |b.pending| + 1 >= BATCH else b.pending != [])
  }

  lemma AddFollows(b: Session, e: Emission, o: Outcome, direct: Outcome)
    requires Follows(b) && !b.stopped && e.delta && !EmitsAgain(b, e, o)
    ensures Follows(OnEvent(b, e, o, direct))
  {
    OnEventAdd(b, e, o, direct);
    if b.error {
      StopFollows(b, b.armed, [e]);
    } else {
      PendFollows(b, e);
      if |b.pending| + 1 >= BATCH {
        FullFollows(Pend(b, e), o);
      }
    }
  }

  lemma EmittedUnseen(b: Session, e: Emission, o: Outcome)
    ensures AfterFlush(b.(emitted := b.emitted + [e]), o) == AfterFlush(b, o).(emitted := b.emitted + [e])
  {
  }

  lemma NowFollows(b: Session, e: Emission, direct: Outcome)
    requires Follows(b) && b.pending == [] && b.log == b.emitted
    ensures Follows(PublishNow(b.(emitted := b.emitted + [e], armed := false), e, direct).(stopped := direct != Committed))
  {
  }

  lemma OnEventNow(b: Session, e: Emission, o: Outcome, direct: Outcome)
    requires !b.error && Flushes(b, o) && !e.delta
    ensures OnEvent(b, e, o, direct) ==
            PublishNow(AfterFlushLocked(b, o).(emitted := b.emitted + [e], armed := false), e, direct).(stopped := direct != Committed)
  {
  }

  lemma DirectFollows(b: Session, e: Emission, o: Outcome, direct: Outcome)
    requires Follows(b) && !b.stopped && !e.delta && !EmitsAgain(b, e, o)
    ensures Follows(OnEvent(b, e, o, direct))
  {
    if !b.error { FlushFollows(b, o); }
    if !b.error && Flushes(b, o) {
      FlushCompletes(b, o);
      OnEventNow(b, e, o, direct);
      NowFollows(AfterFlushLocked(b, o), e, direct);
    } else {
      EmittedUnseen(b, e, o);
      StopFollows(if b.error then b else AfterFlushLocked(b, o), false, [e]);
    }
  }

  /** The guard of the one branch that commits events twice: the step publishes pending events while a publication that was
      cut off has already committed some of them. */
  predicate Republishes(b: Session, op: Op) {
    match op
    case Emits(e, o, _) => EmitsAgain(b, e, o)
    case Fires(o) => b.armed && CommitsAgain(b, o)
    case Ends(o) => !b.error && CommitsAgain(b, o)
  }

  lemma EndFollows(b: Session, o: Outcome)
    requires Follows(b) && !Republishes(b, Ends(o))
    ensures Follows(Act(b, Ends(o)))
  {
    var b1 := if b.error then b else AfterFlushLocked(b, o);
    if !b.error { FlushFollows(b, o); }
    StopFollows(b1, false, []);
    assert b1.emitted + [] == b1.emitted;
  }

  lemma ActFollows(b: Session, op: Op)
    requires Follows(b) && !Republishes(b, op)
    ensures Follows(Act(b, op))
  {
    match op {
      case Emits(e, o, direct) =>
        var at := e.(position := |b.emitted|);
        if !b.stopped {
          if e.delta { AddFollows(b, at, o, direct); } else { DirectFollows(b, at, o, direct); }
        }
      case Fires(o) => if b.armed { FlushFollows(b, o); }
      case Ends(o) => EndFollows(b, o);
    }
  }

  lemma ActBounded(b: Session, op: Op)
    requires Bounded(b)
    ensures Bounded(Act(b, op))
  {
  }

  lemma {:induction false} RunBounded(b: Session, ops: seq<Op>)
    requires Bounded(b)
    ensures Bounded(Run(b, ops))
    decreases |ops|
  {
    if ops != [] {
      ActBounded(b, ops[0]);
      RunBounded(Act(b, ops[0]), ops[1..]);
    }
  }

  // ---- what the durable log looks like ----

  /** No step of the history publishes events that are committed already. */
  ghost predicate NeverRepublishes(b: Session, ops: seq<Op>) {
    forall j :: 0 <= j < |ops| ==> !Republishes(Run(b, ops[..j]), ops[j])
  }

  lemma RunStep(b: Session, ops: seq<Op>, j: nat)
    requires j < |ops| && ops != []
    ensures j == 0 ==> Run(b, ops[..j]) == b
    ensures j > 0 ==> ops[1..][j - 1] == ops[j] && Run(b, ops[..j]) == Run(Act(b, ops[0]), ops[1..][..j - 1])
  {
    if j > 0 {
      assert ops[..j][0] == ops[0] && ops[..j][1..] == ops[1..][..j - 1];
    }
  }

  lemma RestNeverRepublishes(b: Session, ops: seq<Op>)
    requires ops != []
    ensures NeverRepublishes(b, ops) <==> !Republishes(b, ops[0]) && NeverRepublishes(Act(b, ops[0]), ops[1..])
  {
    RunStep(b, ops, 0);
    if NeverRepublishes(b, ops) {
      forall j | 0 <= j < |ops[1..]|
        ensures !Republishes(Run(Act(b, ops[0]), ops[1..][..j]), ops[1..][j])
      {
        RunStep(b, ops, j + 1);
        assert !Republishes(Run(b, ops[..j + 1]), ops[j + 1]);
      }
    }
    if !Republishes(b, ops[0]) && NeverRepublishes(Act(b, ops[0]), ops[1..]) {
      forall j | 0 <= j < |ops|
        ensures !Republishes(Run(b, ops[..j]), ops[j])
      {
        RunStep(b, ops, j);
        if j > 0 { assert !Republishes(Run(Act(b, ops[0]), ops[1..][..j - 1]), ops[1..][j - 1]); }
      }
    }
  }

  lemma {:induction false} RunFollows(b: Session, ops: seq<Op>)
    requires Follows(b) && NeverRepublishes(b, ops)
    ensures Follows(Run(b, ops))
    decreases |ops|
  {
    if ops != [] {
      RestNeverRepublishes(b, ops);
      ActFollows(b, ops[0]);
      RunFollows(Act(b, ops[0]), ops[1..]);
    }
  }

  /** No publication of pending events is cancelled between its commit and its return. */
  predicate CleanOp(op: Op) {
    op.o != CutOff(true)
  }

  lemma {:induction false} CleanNeverRepublishes(b: Session, ops: seq<Op>)
    requires b.logged == 0 && forall op :: op in ops ==> CleanOp(op)
    ensures Run(b, ops).logged == 0 && NeverRepublishes(b, ops)
    decreases |ops|
  {
    if ops != [] {
      assert CleanOp(ops[0]);
      CleanNeverRepublishes(Act(b, ops[0]), ops[1..]);
      RestNeverRepublishes(b, ops);
    }
  }

  predicate Smooth(op: Op) {
    op.o == Committed && (op.Emits? ==> op.direct == Committed)
  }

  lemma {:induction false} SmoothNeverStops(b: Session, ops: seq<Op>)
    requires !b.error && !b.stopped && forall op :: op in ops ==> Smooth(op) && !op.Ends?
    ensures !Run(b, ops).error && !Run(b, ops).stopped
    decreases |ops|
  {
    if ops != [] {
      assert Smooth(ops[0]) && !ops[0].Ends?;
      SmoothNeverStops(Act(b, ops[0]), ops[1..]);
    }
  }

  /** While every publication succeeds nothing is lost: the log and the pending events are exactly the emission, and the
      final flush leaves nothing pending. */
  lemma NothingIsLost(ops: seq<Op>)
    requires forall op :: op in ops ==> Smooth(op) && !op.Ends?
    ensures var b := Run(START, ops);
            b.log + b.pending == b.emitted && |b.pending| < BATCH && AfterFlush(b, Committed).log == b.emitted
  {
    forall op | op in ops ensures CleanOp(op) { assert Smooth(op); }
    CleanNeverRepublishes(START, ops);
    RunFollows(START, ops);
    RunBounded(START, ops);
    SmoothNeverStops(START, ops);
  }

  /** A delta that waits has a timer. */
  predicate Timed(b: Session) {
    b.pending != [] && !b.error && !b.stopped ==> b.armed && |b.pending| < 32
  }

  lemma {:induction false} StaysTimed(b: Session, ops: seq<Op>)
    requires Timed(b) && forall op :: op in ops ==> !(op.Fires? && op.o.CutOff?)
    ensures Timed(Run(b, ops))
    decreases |ops|
  {
    if ops != [] {
      assert !(ops[0].Fires? && ops[0].o.CutOff?);
      StaysTimed(Act(b, ops[0]), ops[1..]);
    }
  }

  /** Nothing waits for ever: unless a firing timer was itself cut off, in every history fewer than 32 events wait while the
      graph goes on, and always under a running timer. */
  lemma WaitingHasTimer(ops: seq<Op>)
    requires forall op :: op in ops ==> !(op.Fires? && op.o.CutOff?)
    ensures Timed(Run(START, ops))
  {
    StaysTimed(START, ops);
  }

  /** Every thirty-second delta so far was committed with the 31 before it, and the rest waits. */
  ghost predicate Batched(b: Session) {
    && !b.error && !b.stopped && b.log + b.pending == b.emitted
    && |b.pending| < 32 && |b.log| == 32 * (|b.log| / 32)
  }

  lemma DeltaIsBatched(b: Session, op: Op)
    requires Batched(b) && op.Emits? && op.e.delta && op.o == Committed
    ensures Batched(Act(b, op)) && |Act(b, op).emitted| == |b.emitted| + 1
  {
    var e := op.e.(position := |b.emitted|);
    assert b.log + (b.pending + [e]) == b.emitted + [e];
    assert b.log + (b.pending + [e]) + [] == b.emitted + [e];
  }

  lemma {:induction false} DeltasStayBatched(b: Session, ops: seq<Op>)
    requires Batched(b) && forall op :: op in ops ==> op.Emits? && op.e.delta && op.o == Committed
    ensures Batched(Run(b, ops)) && |Run(b, ops).emitted| == |b.emitted| + |ops|
    decreases |ops|
  {
    if ops != [] {
      assert ops[0] in ops;
      DeltaIsBatched(b, ops[0]);
      DeltasStayBatched(Act(b, ops[0]), ops[1..]);
    }
  }

  /** Deltas alone are committed in batches of exactly 32 as long as no timer fires. */
  lemma DeltasComeInBatches(ops: seq<Op>)
    requires forall op :: op in ops ==> op.Emits? && op.e.delta && op.o == Committed
    ensures var b := Run(START, ops);
            |b.emitted| == |ops| && b.log == b.emitted[..32 * (|ops| / 32)] && b.pending == b.emitted[32 * (|ops| / 32)..]
  {
    DeltasStayBatched(START, ops);
    var b := Run(START, ops);
    assert |b.log| + |b.pending| == |ops|;
    assert |b.log| / 32 == |ops| / 32;
    assert b.emitted[..|b.log|] == b.log && b.emitted[|b.log|..] == b.pending;
  }

  ghost predicate Twice(log: seq<Emission>) {
    exists i, j :: 0 <= i < j < |log| && log[i] == log[j]
  }

  lemma TwiceGrows(log: seq<Emission>, more: seq<Emission>)
    requires Twice(log)
    ensures Twice(log + more)
  {
    var i, j :| 0 <= i < j < |log| && log[i] == log[j];
    assert (log + more)[i] == (log + more)[j];
  }

  lemma AppendTwice(b: Session)
    requires b.logged > 0 && b.logged <= |b.log| && b.logged <= |b.pending|
    requires b.log[|b.log| - b.logged..] == b.pending[..b.logged]
    ensures Twice(Append(b).log)
  {
    var at := |b.log| - b.logged;
    assert b.log[at..][0] == b.pending[..b.logged][0];
    assert Append(b).log[at] == Append(b).log[|b.log|];
  }

  /** The log only grows. */
  lemma ActExtends(b: Session, op: Op)
    ensures b.log <= Act(b, op).log
  {
  }

  lemma {:induction false} RunKeepsTwice(b: Session, ops: seq<Op>)
    requires Twice(b.log)
    ensures Twice(Run(b, ops).log)
    decreases |ops|
  {
    if ops != [] {
      ActExtends(b, ops[0]);
      TwiceGrows(b.log, Act(b, ops[0]).log[|b.log|..]);
      assert b.log + Act(b, ops[0]).log[|b.log|..] == Act(b, ops[0]).log;
      RunKeepsTwice(Act(b, ops[0]), ops[1..]);
    }
  }

  lemma FlushTwice(b: Session, o: Outcome)
    requires Follows(b) && CommitsAgain(b, o)
    ensures Twice(AfterFlushLocked(b, o).log)
  {
    AppendTwice(b);
  }

  lemma RepublishesTwice(b: Session, op: Op)
    requires Follows(b) && Republishes(b, op)
    ensures Twice(Act(b, op).log)
  {
    match op {
      case Emits(e, o, direct) =>
        var at := e.(position := |b.emitted|);
        if e.delta {
          OnEventAdd(b, at, o, direct);
          PendFollows(b, at);
          FlushTwice(Pend(b, at), o);
        } else {
          EmittedUnseen(b, at, o);
          FlushTwice(b, o);
          TwiceGrows(AfterFlush(b, o).log, [at]);
        }
      case Fires(o) => FlushTwice(b, o);
      case Ends(o) => FlushTwice(b, o);
    }
  }

  lemma {:induction false} RunTwice(b: Session, ops: seq<Op>)
    requires Follows(b) && !NeverRepublishes(b, ops)
    ensures Twice(Run(b, ops).log)
    decreases |ops|
  {
    if ops != [] {
      RestNeverRepublishes(b, ops);
      if Republishes(b, ops[0]) {
        RepublishesTwice(b, ops[0]);
        RunKeepsTwice(Act(b, ops[0]), ops[1..]);
      } else {
        ActFollows(b, ops[0]);
        RunTwice(Act(b, ops[0]), ops[1..]);
      }
    }
  }

  /** Emissions carry their positions, so no two of them are equal. */
  ghost predicate Numbered(emitted: seq<Emission>) {
    forall i :: 0 <= i < |emitted| ==> emitted[i].position == i
  }

  lemma {:induction false} RunNumbered(b: Session, ops: seq<Op>)
    requires Numbered(b.emitted)
    ensures Numbered(Run(b, ops).emitted)
    decreases |ops|
  {
    if ops != [] {
      ActNumbered(b, ops[0]);
      RunNumbered(Act(b, ops[0]), ops[1..]);
    }
  }

  lemma ActNumbered(b: Session, op: Op)
    requires Numbered(b.emitted)
    ensures Numbered(Act(b, op).emitted)
  {
  }

  lemma FollowingLogIsPrefix(b: Session)
    requires Follows(b)
    ensures b.log <= b.emitted
  {
    assert b.log == Settled(b) + b.pending[..b.logged];
    assert b.pending == b.pending[..b.logged] + b.pending[b.logged..];
  }

  lemma NotAPrefix(log: seq<Emission>, emitted: seq<Emission>)
    requires Twice(log) && Numbered(emitted)
    ensures !(log <= emitted)
  {
    var i, j :| 0 <= i < j < |log| && log[i] == log[j];
    assert j < |emitted| ==> emitted[i].position != emitted[j].position;
  }

  /** For every history, the log is a prefix of the emission, position by position, exactly if no step published pending
      events while a publication that was cut off had already committed some of them. Never is more than a batch pending. */
  lemma PrefixExactlyWithoutRepeats(ops: seq<Op>)
    ensures |Run(START, ops).pending| <= BATCH
    ensures Run(START, ops).log <= Run(START, ops).emitted
            <==> forall j :: 0 <= j < |ops| ==> !Republishes(Run(START, ops[..j]), ops[j])
  {
    RunBounded(START, ops);
    if NeverRepublishes(START, ops) {
      RunFollows(START, ops);
      FollowingLogIsPrefix(Run(START, ops));
    } else {
      RunTwice(START, ops);
      RunNumbered(START, ops);
      NotAPrefix(Run(START, ops).log, Run(START, ops).emitted);
    }
  }

  /** It does happen: a run cancelled after its batch committed publishes the batch again in its last flush. */
  lemma CancellationCanRepeat(a: Emission, c: Emission)
    requires a.delta && !c.delta && a.position == 0
    ensures Run(START, [Emits(a, Committed, Committed), Emits(c, CutOff(true), Committed), Ends(Committed)]).log == [a, a]
  {
    var ops := [Emits(a, Committed, Committed), Emits(c, CutOff(true), Committed), Ends(Committed)];
    var b1 := Act(START, ops[0]);
    assert b1.pending == [a] && b1.log == [];
    var b2 := Act(b1, ops[1]);
    assert b2.pending == [a] && b2.log == [a];
    assert ops[1..][0] == ops[1] && ops[1..][1..] == [ops[2]];
    assert Act(b2, ops[2]).log == [a, a];
    assert Run(b2, [ops[2]]) == Act(b2, ops[2]);
  }

  // ---- one batch, or one by one ----

  /** `_publish_events`: the batch path for several deltas, and one transaction of single records otherwise. */
  ghost function PublishEvents(s: State, r: RunId, events: seq<Emission>): Tx {
    if |events| > 1 && (forall i :: 0 <= i < |events| ==> events[i].delta) then RecordDeltas(s, r, None, Notices(events))
    else RecordAll(s, r, Notices(events))
  }

  function Notices(events: seq<Emission>): (notices: seq<Plain>)
    ensures |notices| == |events|
    decreases |events|
  {
    if events == [] then [] else [events[0].notice] + Notices(events[1..])
  }

  lemma {:induction false} DeltasAreMessages(events: seq<Emission>)
    requires forall i :: 0 <= i < |events| ==> events[i].notice.topic == MESSAGES
    ensures AsMessages(Notices(events)) == Notices(events)
    decreases |events|
  {
    if events != [] {
      forall i | 0 <= i < |events[1..]| ensures events[1..][i].notice.topic == MESSAGES {
        assert events[1..][i] == events[i + 1];
      }
      DeltasAreMessages(events[1..]);
    }
  }

  /** Both paths leave the same rows and counters: publishing is recording the events one by one. */
  lemma PublishIsOneByOne(s: State, r: RunId, events: seq<Emission>)
    requires LogInv(s)
    requires forall i :: 0 <= i < |events| && events[i].delta ==> events[i].notice.topic == MESSAGES
    ensures PublishEvents(s, r, events) == RecordAll(s, r, Notices(events))
  {
    if |events| > 1 && (forall i :: 0 <= i < |events| ==> events[i].delta) {
      DeltasAreMessages(events);
      BatchIsFold(s, r, Notices(events));
    }
  }

  // ---- the object ----

  class StreamEventBuffer {
    var pending: seq<Emission>
    var timer: bool
    var error: bool
    ghost var session: Session

    ghost predicate Valid()
      reads this
    {
      session.pending == pending && session.armed == timer && session.error == error
    }

    constructor ()
      ensures Valid() && session == START
    {
      pending, timer, error, session := [], false, false, START;
    }

    /** `outcome` is what the call of the publisher comes to; the result is false if an exception leaves the method. */
    method FlushLocked(outcome: Outcome) returns (ok: bool)
      requires Valid()
      modifies this
      ensures Valid() && session == AfterFlushLocked(old(session), outcome) && ok == Flushes(old(session), outcome)
    {
      ok := true;
      if pending != [] {
        session := AfterFlushLocked(session, outcome);
        match outcome {
          case Committed => pending := [];
          case Failed => error, ok := true, false;
          case CutOff(_) => ok := false;
        }
      }
    }

    method Add(event: Emission, outcome: Outcome) returns (ok: bool)
      requires Valid()
      modifies this
      ensures Valid() && session == AfterAdd(old(session), event, outcome) && ok == Adds(old(session), outcome)
    {
      if error { return false; }
      pending := pending + [event];
      session := session.(pending := pending);
      ok := true;
      if |pending| >= BATCH {
        ok := FlushLocked(outcome);
      } else if !timer {
        timer := true;
      }
      session := session.(armed := timer);
    }

    method Flush(outcome: Outcome) returns (ok: bool)
      requires Valid()
      modifies this
      ensures Valid() && session == AfterFlush(old(session), outcome)
      ensures ok == (!old(session).error && Flushes(old(session), outcome))
    {
      if error {
        ok := false;
      } else {
        ok := FlushLocked(outcome);
      }
      timer := false;
      session := session.(armed := false);
    }

    /** The timer task after its delay. */
    method FlushAfterDelay(outcome: Outcome)
      requires Valid() && timer
      modifies this
      ensures Valid() && session == Act(old(session), Fires(outcome))
    {
      var _ := FlushLocked(outcome);
      timer := false;
      session := session.(armed := false);
    }

    /** `on_event`: deltas wait for a batch, and everything else is published after them, at once. */
    method OnEvent(event: Emission, outcome: Outcome, direct: Outcome) returns (ok: bool)
      requires Valid() && !session.stopped && event.position == |session.emitted|
      modifies this
      ensures Valid() && session == Act(old(session), Emits(event, outcome, direct)) && ok == !session.stopped
    {
      session := session.(emitted := session.emitted + [event]);
      if event.delta {
        ok := Add(event, outcome);
      } else {
        ok := Flush(outcome);
        if ok {
          session := PublishNow(session, event, direct);
          ok := direct == Committed;
        }
      }
      session := session.(stopped := !ok);
    }
  }
}
