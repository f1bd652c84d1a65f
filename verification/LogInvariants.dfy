/** The event log invariant: dense sequences, honest watermarks, rows never changed. */
module LogInvariants {
  import opened Wrappers
  import opened Tables
  import opened EventLog

  // ---- what the log looks like ----

  /** Every row is one that was inserted under its identifier. */
  ghost predicate RowsInv(s: State) {
    forall k :: k in s.events ==> k < |s.inserted| && s.events[k] == s.inserted[k]
  }

  ghost predicate EventOk(s: State, e: Event) {
    && (e.run.None? ==> e.thread.Some? && !e.terminal)
    && (e.run.Some? ==>
          && e.run.value in s.issued
          && (e.run.value in s.runs ==> e.thread == s.runs[e.run.value].thread && e.sequence <= s.runs[e.run.value].eventSeq))
    && (e.thread.Some? ==> e.thread.value in s.threads && 1 <= e.sequence <= s.threads[e.thread.value].eventSeq)
  }

  /** The cursor that a thread has, or would have if it were opened now. */
  function CursorOf(s: State, t: ThreadId): nat {
    if t in s.threads then s.threads[t].eventSeq else 0
  }

  /** Cursors bound the events and the watermarks. */
  ghost predicate CursorInv(s: State) {
    && (forall i :: 0 <= i < |s.inserted| ==> EventOk(s, s.inserted[i]))
    && (forall r :: r in s.runs ==>
          && r in s.issued
          && s.runs[r].eventPrunedThrough <= s.runs[r].eventSeq
          && (s.runs[r].thread.Some? ==> s.runs[r].eventSeq <= CursorOf(s, s.runs[r].thread.value)))
    && (forall t :: t in s.threads ==> s.threads[t].eventPrunedThrough <= s.threads[t].eventSeq)
  }

  predicate SameScope(a: Event, b: Event) {
    a.thread == b.thread && (a.thread.None? ==> a.run == b.run)
  }

  /** Within a thread, or a run without one, later insertions have larger sequences. */
  ghost predicate OrderInv(s: State) {
    forall i, j :: 0 <= i < j < |s.inserted| && SameScope(s.inserted[i], s.inserted[j]) ==>
      s.inserted[i].sequence < s.inserted[j].sequence
  }

  /** Why an inserted event may be missing: its run was deleted, or retention pruned it below both watermarks. */
  ghost predicate Excused(s: State, e: Event) {
    && e.run.Some?
    && (e.run.value in s.runs ==>
          && !e.terminal
          && e.sequence <= s.runs[e.run.value].eventPrunedThrough
          && (e.thread.Some? ==> e.thread.value in s.threads && e.sequence <= s.threads[e.thread.value].eventPrunedThrough))
  }

  ghost predicate MissingInv(s: State) {
    forall i :: 0 <= i < |s.inserted| && i !in s.events ==> Excused(s, s.inserted[i])
  }

  /** The sequences that a thread's events were given, in insertion order. */
  function Assigned(inserted: seq<Event>, t: ThreadId): seq<nat>
    decreases |inserted|
  {
    if inserted == [] then []
    else
      var e := inserted[|inserted| - 1];
      Assigned(inserted[..|inserted| - 1], t) + (if e.thread == Some(t) then [e.sequence] else [])
  }

  function UpTo(n: nat): seq<nat> {
    if n == 0 then [] else UpTo(n - 1) + [n]
  }

  /** A thread's events were numbered 1, 2, ... up to its cursor, each number once. */
  ghost predicate DenseInv(s: State) {
    forall t :: Assigned(s.inserted, t) == UpTo(CursorOf(s, t))
  }

  ghost predicate LogInv(s: State) {
    RowsInv(s) && CursorInv(s) && OrderInv(s) && MissingInv(s) && DenseInv(s)
  }

  // ---- changes that leave the log alone ----

  /** Events, cursors and watermarks stay; new runs and threads start from zero. */
  ghost predicate LogNeutral(s: State, s': State) {
    && s'.events == s.events && s'.inserted == s.inserted
    && (forall r :: r in s.issued ==> r in s'.issued)
    && (forall r :: r in s.runs ==> r in s'.runs)
    && (forall r :: r in s'.runs ==>
          && r in s'.issued
          && (if r in s.runs then
                && s'.runs[r].thread == s.runs[r].thread && s'.runs[r].eventSeq == s.runs[r].eventSeq
                && s'.runs[r].eventPrunedThrough == s.runs[r].eventPrunedThrough
              else r !in s.issued && s'.runs[r].eventSeq == 0 && s'.runs[r].eventPrunedThrough == 0))
    && (forall t :: t in s.threads ==> t in s'.threads)
    && (forall t :: t in s'.threads ==>
          if t in s.threads then
            s'.threads[t].eventSeq == s.threads[t].eventSeq && s'.threads[t].eventPrunedThrough == s.threads[t].eventPrunedThrough
          else s'.threads[t].eventSeq == 0 && s'.threads[t].eventPrunedThrough == 0)
  }

  lemma NeutralKeepsLog(s: State, s': State)
    requires LogInv(s) && LogNeutral(s, s')
    ensures LogInv(s')
  {
    forall i | 0 <= i < |s'.inserted|
      ensures EventOk(s', s'.inserted[i])
    {
      assert EventOk(s, s.inserted[i]);
    }
    forall i | 0 <= i < |s'.inserted| && i !in s'.events
      ensures Excused(s', s'.inserted[i])
    {
      assert Excused(s, s.inserted[i]) && EventOk(s, s.inserted[i]);
    }
    forall t: ThreadId
      ensures CursorOf(s', t) == CursorOf(s, t)
    {
    }
  }

  // ---- appending ----

  lemma CursorIsNewest(s: State, t: ThreadId)
    requires LogInv(s) && t in s.threads
    ensures NextThreadSequence(s, t) == s.threads[t].eventSeq + 1
  {
    forall v | v in ThreadSequences(s, t)
      ensures v <= s.threads[t].eventSeq
    {
      var k :| k in s.events && s.events[k].thread == Some(t) && s.events[k].sequence == v;
      assert EventOk(s, s.inserted[k]);
    }
  }

  lemma RunCursorIsNewest(s: State, r: RunId)
    requires LogInv(s) && r in s.runs
    ensures NextRunSequence(s, r) == s.runs[r].eventSeq + 1
  {
    forall v | v in RunSequences(s, r)
      ensures v <= s.runs[r].eventSeq
    {
      var k :| k in s.events && s.events[k].run == Some(r) && s.events[k].sequence == v;
      assert EventOk(s, s.inserted[k]);
    }
  }

  lemma AssignedAppend(inserted: seq<Event>, e: Event, t: ThreadId)
    ensures Assigned(inserted + [e], t) == Assigned(inserted, t) + (if e.thread == Some(t) then [e.sequence] else [])
  {
    assert (inserted + [e])[..|inserted|] == inserted;
  }

  /** `e` is the next event of its scope and the cursors of `s1` already include it. */
  ghost predicate Extends(s: State, s1: State, e: Event) {
    && s1 == s.(runs := s1.runs, threads := s1.threads)
    && s1.runs.Keys == s.runs.Keys && s1.threads.Keys == s.threads.Keys
    && (forall r :: r in s.runs ==>
          s1.runs[r] == s.runs[r].(eventSeq := if e.run == Some(r) then e.sequence else s.runs[r].eventSeq))
    && (forall t :: t in s.threads ==>
          s1.threads[t] == s.threads[t].(eventSeq := if e.thread == Some(t) then e.sequence else s.threads[t].eventSeq))
    && (e.run.Some? ==> e.run.value in s.runs && s.runs[e.run.value].thread == e.thread)
    && (e.run.None? ==> e.thread.Some? && !e.terminal)
    && (match e.thread
        case Some(t) => t in s.threads && e.sequence == s.threads[t].eventSeq + 1
        case None => e.run.Some? && e.sequence == s.runs[e.run.value].eventSeq + 1)
  }

  lemma ExtendsEventOk(s: State, s1: State, e: Event, earlier: Event)
    requires CursorInv(s) && Extends(s, s1, e) && EventOk(s, earlier)
    ensures EventOk(s1, earlier)
    ensures SameScope(earlier, e) && e.thread.Some? ==> earlier.sequence < e.sequence
  {
    if earlier.run.Some? && earlier.run == e.run {
      assert s.runs[e.run.value].eventSeq <= e.sequence;
    }
  }

  lemma ExtendsEvents(s: State, s1: State, e: Event)
    requires CursorInv(s) && Extends(s, s1, e)
    ensures forall i :: 0 <= i < |s.inserted| ==> EventOk(s1, s.inserted[i])
  {
    forall i | 0 <= i < |s.inserted|
      ensures EventOk(s1, s.inserted[i])
    {
      ExtendsEventOk(s, s1, e, s.inserted[i]);
    }
  }

  lemma NewEventOk(s: State, s1: State, e: Event)
    requires CursorInv(s) && Extends(s, s1, e)
    ensures EventOk(s1, e)
  {
  }

  lemma ExtendsRows(s: State, s1: State, e: Event)
    requires CursorInv(s) && Extends(s, s1, e)
    ensures forall r :: r in s1.runs ==>
      && r in s1.issued
      && s1.runs[r].eventPrunedThrough <= s1.runs[r].eventSeq
      && (s1.runs[r].thread.Some? ==> s1.runs[r].eventSeq <= CursorOf(s1, s1.runs[r].thread.value))
    ensures forall t :: t in s1.threads ==> s1.threads[t].eventPrunedThrough <= s1.threads[t].eventSeq
  {
  }

  lemma ExtendsCursors(s: State, s1: State, e: Event)
    requires LogInv(s) && Extends(s, s1, e)
    ensures CursorInv(Insert(s1, e))
  {
    ExtendsEvents(s, s1, e);
    NewEventOk(s, s1, e);
    ExtendsRows(s, s1, e);
    InsertKeepsCursors(s1, e);
  }

  lemma InsertKeepsCursors(s: State, e: Event)
    requires CursorInv(s) && EventOk(s, e)
    ensures CursorInv(Insert(s, e))
  {
    var s' := Insert(s, e);
    forall i | 0 <= i < |s'.inserted|
      ensures EventOk(s', s'.inserted[i])
    {
      assert EventOk(s, s'.inserted[i]);
    }
  }

  lemma ExtendsOrder(s: State, s1: State, e: Event)
    requires LogInv(s) && Extends(s, s1, e)
    ensures OrderInv(Insert(s1, e))
  {
    var s' := Insert(s1, e);
    forall i | 0 <= i < |s.inserted| && SameScope(s.inserted[i], e)
      ensures s.inserted[i].sequence < e.sequence
    {
      assert EventOk(s, s.inserted[i]);
    }
  }

  lemma ExtendsMissing(s: State, s1: State, e: Event)
    requires LogInv(s) && Extends(s, s1, e)
    ensures RowsInv(Insert(s1, e)) && MissingInv(Insert(s1, e))
  {
    var s' := Insert(s1, e);
    forall i | 0 <= i < |s'.inserted| && i !in s'.events
      ensures Excused(s', s'.inserted[i])
    {
      assert Excused(s, s.inserted[i]);
    }
  }

  lemma ExtendsDense(s: State, s1: State, e: Event)
    requires LogInv(s) && Extends(s, s1, e)
    ensures DenseInv(Insert(s1, e))
  {
    var s' := Insert(s1, e);
    forall t: ThreadId
      ensures Assigned(s'.inserted, t) == UpTo(CursorOf(s', t))
    {
      AssignedAppend(s.inserted, e, t);
      assert Assigned(s.inserted, t) == UpTo(CursorOf(s, t));
      if e.thread == Some(t) {
        assert CursorOf(s', t) == CursorOf(s, t) + 1;
      } else {
        assert CursorOf(s', t) == CursorOf(s, t);
      }
    }
  }

  lemma ExtendsKeepsLog(s: State, s1: State, e: Event)
    requires LogInv(s) && Extends(s, s1, e)
    ensures LogInv(Insert(s1, e))
  {
    ExtendsCursors(s, s1, e);
    ExtendsOrder(s, s1, e);
    ExtendsMissing(s, s1, e);
    ExtendsDense(s, s1, e);
  }

  // ---- the recording operations keep the invariant ----

  lemma RecordKeepsLog(s: State, r: RunId, n: Notice, s': State)
    requires LogInv(s) && Record(s, r, n) == Commit(s')
    ensures LogInv(s')
  {
    if !(n.terminal && HasTerminalEvent(s, r)) {
      var run := s.runs[r];
      match run.thread {
        case Some(t) =>
          CursorIsNewest(s, t);
          RecordExtends(s, SetThreadCursor(s, t, NextThreadSequence(s, t)), r, n, NextThreadSequence(s, t));
        case None =>
          RunCursorIsNewest(s, r);
          RecordExtends(s, s, r, n, NextRunSequence(s, r));
      }
    }
  }

  lemma RecordExtends(s: State, s1: State, r: RunId, n: Notice, next: nat)
    requires LogInv(s) && r in s.runs && ThreadPresent(s, s.runs[r])
    requires match s.runs[r].thread
             case Some(t) => next == s.threads[t].eventSeq + 1 && s1 == SetThreadCursor(s, t, next)
             case None => next == s.runs[r].eventSeq + 1 && s1 == s
    ensures LogInv(Append(s1, r, n, next))
  {
    var run := s.runs[r];
    var e := Event(Some(r), run.thread, next, n.topic, n.namespace, n.payload, n.terminal, s.clock);
    assert run.eventSeq < next;
    ExtendsKeepsLog(s, SetRun(s1, r, run.(eventSeq := next)), e);
  }

  lemma {:induction false} RecordAllKeepsLog(s: State, r: RunId, notices: seq<Notice>, s': State)
    requires LogInv(s) && RecordAll(s, r, notices) == Commit(s')
    ensures LogInv(s')
    decreases |notices|
  {
    if notices != [] {
      var s1 := Record(s, r, notices[0]).db;
      RecordKeepsLog(s, r, notices[0], s1);
      RecordAllKeepsLog(s1, r, notices[1..], s');
    }
  }

  lemma RunlessKeepsLog(s: State, t: ThreadId, n: Plain, s': State)
    requires LogInv(s) && RecordEvent(s, None, Some(t), n) == Commit(s')
    ensures LogInv(s')
  {
    CursorIsNewest(s, t);
    var next := s.threads[t].eventSeq + 1;
    ExtendsKeepsLog(s, SetThreadCursor(s, t, next), Event(None, Some(t), next, n.topic, n.namespace, n.payload, false, s.clock));
  }

  // ---- a batch is the fold of its events ----

  /** The notice as the batch path stores it. */
  function AsMessage(n: Notice): Plain {
    n.(topic := "messages", terminal := false)
  }

  function AsMessages(notices: seq<Notice>): seq<Plain>
    ensures |AsMessages(notices)| == |notices|
    decreases |notices|
  {
    if notices == [] then [] else [AsMessage(notices[0])] + AsMessages(notices[1..])
  }

  /** Under the invariant, both cursor reads give the run's newest sequence. */
  lemma DeltaCursorIsNewest(s: State, r: RunId)
    requires LogInv(s) && r in s.runs && ThreadPresent(s, s.runs[r])
    ensures DeltaCursor(s, r) == (if s.runs[r].thread.Some? then s.threads[s.runs[r].thread.value].eventSeq else s.runs[r].eventSeq)
  {
    if s.runs[r].thread.Some? {
      CursorIsNewest(s, s.runs[r].thread.value);
    } else {
      RunCursorIsNewest(s, r);
    }
  }

  /** Recording one message is setting the cursors one further and inserting its batch row. */
  lemma RecordOneMessage(s: State, r: RunId, n: Notice)
    requires LogInv(s) && r in s.runs && ThreadPresent(s, s.runs[r])
    ensures var c := DeltaCursor(s, r);
            Record(s, r, AsMessage(n)) == Commit(Insert(SetCursors(s, r, c + 1), BatchRow(s, r, s.runs[r].thread, n, c + 1)))
  {
    DeltaCursorIsNewest(s, r);
    var run := s.runs[r];
    match run.thread {
      case Some(t) =>
        CursorIsNewest(s, t);
        var next := s.threads[t].eventSeq + 1;
        assert run.eventSeq < next;
      case None =>
        RunCursorIsNewest(s, r);
    }
  }

  lemma SetCursorsTwice(s: State, r: RunId, mid: nat, last: nat)
    requires r in s.runs && ThreadPresent(s, s.runs[r])
    ensures SetCursors(SetCursors(s, r, mid), r, last) == SetCursors(s, r, last)
  {
    var run := s.runs[r];
    UpdateTwice(s.runs, r, run.(eventSeq := mid), run.(eventSeq := last));
    if run.thread.Some? {
      var t := run.thread.value;
      UpdateTwice(s.threads, t, s.threads[t].(eventSeq := mid), s.threads[t].(eventSeq := last));
    }
  }

  lemma InsertThenCursors(s: State, r: RunId, e: Event, last: nat)
    requires r in s.runs && ThreadPresent(s, s.runs[r])
    ensures SetCursors(Insert(s, e), r, last) == Insert(SetCursors(s, r, last), e)
  {
  }

  /** Moving the cursors after the first insertion or before it comes to the same. */
  lemma CursorsCommute(s: State, r: RunId, e: Event, mid: nat, last: nat)
    requires r in s.runs && ThreadPresent(s, s.runs[r])
    ensures SetCursors(Insert(SetCursors(s, r, mid), e), r, last) == Insert(SetCursors(s, r, last), e)
  {
    InsertThenCursors(SetCursors(s, r, mid), r, e, last);
    SetCursorsTwice(s, r, mid, last);
  }

  lemma DeltasInsert(s: State, r: RunId, notices: seq<Notice>)
    requires notices != [] && r in s.runs && ThreadPresent(s, s.runs[r])
    ensures var c := DeltaCursor(s, r);
            RecordDeltas(s, r, None, notices)
            == Commit(InsertBatch(SetCursors(s, r, c + |notices|), r, s.runs[r].thread, notices, c))
  {
  }

  lemma TailInserts(s: State, r: RunId, notices: seq<Notice>, c: nat, last: nat, s1: State)
    requires notices != [] && r in s.runs && ThreadPresent(s, s.runs[r])
    requires s1 == Insert(SetCursors(s, r, c + 1), BatchRow(s, r, s.runs[r].thread, notices[0], c + 1))
    ensures r in s1.runs && ThreadPresent(s1, s1.runs[r]) && s1.runs[r].thread == s.runs[r].thread
    ensures InsertBatch(SetCursors(s, r, last), r, s.runs[r].thread, notices, c)
            == InsertBatch(SetCursors(s1, r, last), r, s.runs[r].thread, notices[1..], c + 1)
  {
    BatchHead(s, r, notices, c, last);
    CursorsCommute(s, r, BatchRow(s, r, s.runs[r].thread, notices[0], c + 1), c + 1, last);
  }

  /** The rest of a batch continues where its first event left the cursors. */
  lemma BatchTail(s: State, r: RunId, notices: seq<Notice>, s1: State)
    requires notices != [] && r in s.runs && ThreadPresent(s, s.runs[r])
    requires r in s1.runs && ThreadPresent(s1, s1.runs[r]) && DeltaCursor(s1, r) == DeltaCursor(s, r) + 1
    requires var c := DeltaCursor(s, r);
             s1 == Insert(SetCursors(s, r, c + 1), BatchRow(s, r, s.runs[r].thread, notices[0], c + 1))
    ensures RecordDeltas(s, r, None, notices) == RecordDeltas(s1, r, None, notices[1..])
  {
    var c := DeltaCursor(s, r);
    DeltasInsert(s, r, notices);
    TailInserts(s, r, notices, c, c + |notices|, s1);
    if |notices| == 1 {
      assert notices[1..] == [];
      SetCursorsIdle(s, r, BatchRow(s, r, s.runs[r].thread, notices[0], c + 1), c + 1);
    } else {
      DeltasInsert(s1, r, notices[1..]);
    }
  }

  lemma BatchHead(s: State, r: RunId, notices: seq<Notice>, cursor: nat, last: nat)
    requires notices != [] && r in s.runs && ThreadPresent(s, s.runs[r])
    ensures var s1 := SetCursors(s, r, last);
            var thread := s.runs[r].thread;
            InsertBatch(s1, r, thread, notices, cursor)
            == InsertBatch(Insert(s1, BatchRow(s, r, thread, notices[0], cursor + 1)), r, thread, notices[1..], cursor + 1)
  {
  }

  lemma TailCursor(s: State, r: RunId, e: Event, s1: State)
    requires LogInv(s) && LogInv(s1) && r in s.runs && ThreadPresent(s, s.runs[r])
    requires s1 == Insert(SetCursors(s, r, DeltaCursor(s, r) + 1), e)
    ensures r in s1.runs && s1.runs[r].thread == s.runs[r].thread && ThreadPresent(s1, s1.runs[r])
    ensures DeltaCursor(s1, r) == DeltaCursor(s, r) + 1
  {
    DeltaCursorIsNewest(s1, r);
  }

  lemma SetCursorsIdle(s: State, r: RunId, e: Event, last: nat)
    requires r in s.runs && ThreadPresent(s, s.runs[r])
    ensures var s1 := Insert(SetCursors(s, r, last), e); SetCursors(s1, r, last) == s1
  {
    CursorsCommute(s, r, e, last, last);
  }

  /** The batched path writes the same rows and cursors as recording its events one by one. */
  lemma {:induction false} BatchIsFold(s: State, r: RunId, notices: seq<Notice>)
    requires LogInv(s)
    ensures RecordDeltas(s, r, None, notices) == RecordAll(s, r, AsMessages(notices))
    decreases |notices|
  {
    if notices != [] {
      assert AsMessages(notices)[0] == AsMessage(notices[0]);
      assert AsMessages(notices)[1..] == AsMessages(notices[1..]);
      if r in s.runs && ThreadPresent(s, s.runs[r]) {
        var c := DeltaCursor(s, r);
        RecordOneMessage(s, r, notices[0]);
        var s1 := Insert(SetCursors(s, r, c + 1), BatchRow(s, r, s.runs[r].thread, notices[0], c + 1));
        RecordKeepsLog(s, r, AsMessage(notices[0]), s1);
        TailCursor(s, r, BatchRow(s, r, s.runs[r].thread, notices[0], c + 1), s1);
        BatchTail(s, r, notices, s1);
        BatchIsFold(s1, r, notices[1..]);
      }
    }
  }
}
