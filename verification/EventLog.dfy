/** Durable, monotonic event cursors: appending one event or one batch, and retention. */
module EventLog {
  import opened Wrappers
  import opened RunState
  import opened Tables

  /** What a caller asks to record; time stamps and trace metadata are added elsewhere. */
  datatype Notice = Notice(topic: string, payload: Json, namespace: seq<string>, terminal: bool)

  /** A notice of the running graph: only status changes record terminal events. */
  type Plain = n: Notice | !n.terminal witness Notice("custom", "", [], false)

  const MESSAGES := "messages"

  ghost function ThreadSequences(s: State, t: ThreadId): set<nat> {
    set k | k in s.events && s.events[k].thread == Some(t) :: s.events[k].sequence
  }

  ghost function RunSequences(s: State, r: RunId): set<nat> {
    set k | k in s.events && s.events[k].run == Some(r) :: s.events[k].sequence
  }

  /** The rows win over a stale counter. */
  ghost function NextThreadSequence(s: State, t: ThreadId): nat
    requires t in s.threads
  {
    Max(s.threads[t].eventSeq, MaxOf(ThreadSequences(s, t))) + 1
  }

  ghost function NextRunSequence(s: State, r: RunId): nat
    requires r in s.runs
  {
    Max(s.runs[r].eventSeq, MaxOf(RunSequences(s, r))) + 1
  }

  predicate HasTerminalEvent(s: State, r: RunId) {
    exists k :: k in s.events && s.events[k].run == Some(r) && s.events[k].terminal
  }

  function Insert(s: State, e: Event): State {
    s.(events := s.events[|s.inserted| := e], inserted := s.inserted + [e])
  }

  function SetThreadCursor(s: State, t: ThreadId, sequence: nat): State
    requires t in s.threads
  {
    s.(threads := s.threads[t := s.threads[t].(eventSeq := sequence)])
  }

  /** Appends an event of a run; a second terminal event of the same run is not recorded. */
  ghost function Record(s: State, r: RunId, n: Notice): Tx {
    if r !in s.runs then Abort(RunMissing)
    else if n.terminal && HasTerminalEvent(s, r) then Commit(s)
    else
      var run := s.runs[r];
      match run.thread
      case Some(t) =>
        if t !in s.threads then Abort(ThreadMissing)
        else Commit(Append(SetThreadCursor(s, t, NextThreadSequence(s, t)), r, n, NextThreadSequence(s, t)))
      case None => Commit(Append(s, r, n, NextRunSequence(s, r)))
  }

  /** Inserts the row of run `r` with this sequence and moves the run's own cursor up to it. */
  function Append(s: State, r: RunId, n: Notice, sequence: nat): State
    requires r in s.runs
  {
    var run := s.runs[r];
    Insert(SetRun(s, r, run.(eventSeq := Max(run.eventSeq, sequence))),
           Event(Some(r), run.thread, sequence, n.topic, n.namespace, n.payload, n.terminal, s.clock))
  }

  /** The public entry: checks the thread argument and also records events that belong to no run. */
  ghost function RecordEvent(s: State, run: Option<RunId>, thread: Option<ThreadId>, n: Notice): Tx {
    match run
    case Some(r) =>
      if r !in s.runs then Abort(RunMissing)
      else if thread.Some? && thread != s.runs[r].thread then Abort(BadRequest)
      else Record(s, r, n)
    case None =>
      match thread
      case None => Abort(BadRequest)
      case Some(t) =>
        if t !in s.threads then Abort(ThreadMissing)
        else
          var next := NextThreadSequence(s, t);
          Commit(Insert(SetThreadCursor(s, t, next),
                        Event(None, thread, next, n.topic, n.namespace, n.payload, n.terminal, s.clock)))
  }

  /** One `Record` per notice, in order; the first failure abandons the whole transaction. */
  ghost function RecordAll(s: State, r: RunId, notices: seq<Notice>): Tx
    decreases |notices|
  {
    if notices == [] then Commit(s)
    else
      match Record(s, r, notices[0])
      case Abort(e) => Abort(e)
      case Commit(s1) => RecordAll(s1, r, notices[1..])
  }

  /** The rows of a batch: consecutive sequences after `cursor`, all message rows. */
  function BatchRow(s: State, r: RunId, thread: Option<ThreadId>, n: Notice, sequence: nat): Event {
    Event(Some(r), thread, sequence, MESSAGES, n.namespace, n.payload, false, s.clock)
  }

  function InsertBatch(s: State, r: RunId, thread: Option<ThreadId>, notices: seq<Notice>, cursor: nat): State
    decreases |notices|
  {
    if notices == [] then s
    else InsertBatch(Insert(s, BatchRow(s, r, thread, notices[0], cursor + 1)), r, thread, notices[1..], cursor + 1)
  }

  predicate ThreadPresent(s: State, run: Run) {
    run.thread.Some? ==> run.thread.value in s.threads
  }

  /** The newest sequence of the run's thread, or of the run when it has no thread. */
  ghost function DeltaCursor(s: State, r: RunId): nat
    requires r in s.runs && ThreadPresent(s, s.runs[r])
  {
    match s.runs[r].thread
    case Some(t) => Max(s.threads[t].eventSeq, Max(s.runs[r].eventSeq, MaxOf(ThreadSequences(s, t))))
    case None => Max(s.runs[r].eventSeq, MaxOf(RunSequences(s, r)))
  }

  function SetCursors(s: State, r: RunId, last: nat): State
    requires r in s.runs && ThreadPresent(s, s.runs[r])
  {
    var s1 := SetRun(s, r, s.runs[r].(eventSeq := last));
    if s.runs[r].thread.Some? then SetThreadCursor(s1, s.runs[r].thread.value, last) else s1
  }

  /** Appends one run's message deltas under a single cursor read and a single cursor write. */
  ghost function RecordDeltas(s: State, r: RunId, thread: Option<ThreadId>, notices: seq<Notice>): Tx {
    if notices == [] then Commit(s)
    else if r !in s.runs then Abort(RunMissing)
    else if thread.Some? && thread != s.runs[r].thread then Abort(BadRequest)
    else if !ThreadPresent(s, s.runs[r]) then Abort(ThreadMissing)
    else
      var cursor := DeltaCursor(s, r);
      Commit(InsertBatch(SetCursors(s, r, cursor + |notices|), r, s.runs[r].thread, notices, cursor))
  }

  // ---- retention ----

  predicate Expired(s: State, r: RunId, cutoff: Time, k: EventId) {
    k in s.events && s.events[k].run == Some(r) && s.events[k].createdAt < cutoff && !s.events[k].terminal
  }

  /** `ids` is a batch the query may return: the expired rows of the run with the smallest sequences. */
  predicate IsExpiredBatch(s: State, r: RunId, cutoff: Time, batch: nat, ids: set<EventId>) {
    && ids != {}
    && |ids| <= batch
    && (forall k :: k in ids ==> Expired(s, r, cutoff, k))
    && (forall k, j | k in ids && j in s.events && j !in ids && Expired(s, r, cutoff, k) && Expired(s, r, cutoff, j) ::
          s.events[k].sequence <= s.events[j].sequence)
  }

  ghost function Watermark(s: State, ids: set<EventId>): nat {
    MaxOf(set k | k in ids && k in s.events :: s.events[k].sequence)
  }

  /** Deletes rows of a run and raises its and its thread's replay watermark to `w`. */
  function DropEvents(s: State, r: RunId, ids: set<EventId>, w: nat): State
    requires r in s.runs
  {
    var run := s.runs[r];
    var s1 := SetRun(s, r, run.(eventPrunedThrough := Max(run.eventPrunedThrough, w))).(events := s.events - ids);
    if run.thread.Some? && run.thread.value in s.threads then
      var thread := s.threads[run.thread.value];
      s1.(threads := s.threads[run.thread.value := thread.(eventPrunedThrough := Max(thread.eventPrunedThrough, w))])
    else s1
  }

  predicate MayPrune(s: State, r: RunId, cutoff: Time, batch: nat, ids: set<EventId>) {
    && r in s.runs && IsTerminal(s.runs[r].status) && s.runs[r].updatedAt < cutoff
    && IsExpiredBatch(s, r, cutoff, batch, ids)
  }

  predicate HasExpired(s: State, r: RunId, cutoff: Time) {
    exists k :: k in s.events && Expired(s, r, cutoff, k)
  }

  /** An old terminal run with something to prune. */
  predicate Prunable(s: State, r: RunId, cutoff: Time) {
    r in s.runs && IsTerminal(s.runs[r].status) && s.runs[r].updatedAt < cutoff && HasExpired(s, r, cutoff)
  }

  predicate AnyPrunable(s: State, cutoff: Time) {
    exists r :: r in s.runs && Prunable(s, r, cutoff)
  }

  /** Deletes one batch of an old terminal run and raises both replay watermarks to its newest row. */
  ghost function PruneEvents(s: State, r: RunId, cutoff: Time, batch: nat, ids: set<EventId>): State {
    if MayPrune(s, r, cutoff, batch, ids) then DropEvents(s, r, ids, Watermark(s, ids)) else s
  }
}
