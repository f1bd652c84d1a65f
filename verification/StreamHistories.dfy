/** What the two kinds of event stream promise from an empty database on, and exactly when they lose something. */
module StreamHistories {
  import opened Wrappers
  import opened Tables
  import opened EventLog
  import opened Protocol
  import opened Reachable
  import opened EventFilter
  import opened LiveStream
  import opened EventStreams
  import opened Delivery
  import opened Splices
  import opened LostEvents
  import opened RunScopes
  import opened TerminalEvents
  import Streams = RunStreams

  // ---- protocol streams ----

  /** No sequence is emitted twice, and none at or below the client's cursor. */
  lemma ThreadStreamRepeatsNothing(clock: Time, opening: seq<Step>, w: Watch)
    requires w.s0 == Reached(clock, opening) && Observed(w)
    ensures DistinctSequences(Output(w)) && forall e :: e in Output(w) ==> e.sequence > w.since
  {
    ReachedInv(clock, opening);
    EmittedOnce(w);
  }

  /** Every matching event of the thread after the cursor, committed before, between or after the three reads, is emitted,
      unless its message was fanned out before the registration and its row was pruned, belongs to a deleted run or one
      that is not resumable, or asks for an input that was not open when the thread row was read. */
  lemma ThreadStreamAccountsForAll(clock: Time, opening: seq<Step>, w: Watch, k: EventId)
    requires w.s0 == Reached(clock, opening) && Observed(w) && k < |End(w).inserted|
    requires var e := End(w).inserted[k]; OnThread(w.t)(e) && WireMatches(w.f, e) && e.sequence > w.since
    ensures var e := End(w).inserted[k];
            || e.sequence in Sequences(Output(w))
            || (FansOut(k) in w.before && FansOut(k) !in w.after
                && (PrunedAway(w, k) || !ResumableNow(CaughtUpAt(w), e) || !StillActive(w.f, e)))
  {
    ReachedInv(clock, opening);
    EveryEventIsAccountedFor(w, k);
  }

  /** A request for input of a resumable run, in the table when the replay caught up, is emitted if and only if its
      interrupt was open when the thread row was read or its message was fanned out after the registration. */
  lemma RequestIsShownExactly(clock: Time, opening: seq<Step>, w: Watch, k: EventId)
    requires w.s0 == Reached(clock, opening) && Observed(w) && k < |End(w).inserted| && k in CaughtUpAt(w).events
    requires var e := End(w).inserted[k];
             OnThread(w.t)(e) && IsRequest(e) && WireMatches(w.f, e) && e.sequence > w.since && ResumableNow(CaughtUpAt(w), e)
    ensures var e := End(w).inserted[k];
            e.sequence in Sequences(Output(w))
            <==> e.payload in w.s0.threads[w.t].projection.interrupts || FansOut(k) in w.after
  {
    ReachedInv(clock, opening);
    RequestIsEmittedExactly(w, k);
  }

  /** A run that stops to ask for input after the thread row was read, and whose message goes out before the queue is
      registered, is not seen to ask. */
  lemma LateRequestIsLost(clock: Time, opening: seq<Step>, w: Watch, r: RunId, owner: Owner, payload: Option<Json>, request: Plain)
    requires w.s0 == Reached(clock, opening) && Observed(w)
    requires AsksFirst(w, r, owner, payload, request) && FansOut(|w.s0.inserted|) !in w.after
    requires request.topic == REQUESTED && request.payload != ""
    requires request.payload !in w.s0.threads[w.t].projection.interrupts
    ensures |w.s0.inserted| < |End(w).inserted|
    ensures var e := End(w).inserted[|w.s0.inserted|];
            e.run == Some(r) && e.thread == Some(w.t) && e.payload == request.payload && e.sequence !in Sequences(Output(w))
  {
    ReachedInv(clock, opening);
    RequestIsLost(w, r, owner, payload, request);
  }

  // ---- run streams ----

  lemma ReachedOneThread(clock: Time, opening: seq<Step>)
    ensures OneThread(Reached(clock, opening))
  {
    InvInit(clock);
    OneThreadAlways(Init(clock), opening);
  }

  /** A run stream that was not refused, and whose client stays, leaves no gap if and only if: it replays (the request
      created the run or the run is resumable) or happens to hear all that was recorded before; no such event was gone from
      the table when it replayed, unless it is heard of; and what ends the stream, the second look, a silence or a terminal
      message, cuts nothing off. */
  lemma RunStreamIsGapFreeExactly(clock: Time, opening: seq<Step>, w: Streams.RunWatch, shows: Event -> bool)
    requires w.s0 == Reached(clock, opening) && Streams.ObservedRun(w) && Streams.Accepted(w) && Streams.Listens(w)
    ensures Streams.GapFree(w, shows) <==>
            && (Streams.Serves(w) || Streams.HearsThePast(w, shows))
            && !Streams.Pruned(w, shows) && !Streams.CutsOff(w, shows)
  {
    ReachedInv(clock, opening);
    ReachedOneThread(clock, opening);
    Streams.RunStreamIsGapFreeExactly(w, shows);
  }

  /** A row that is gone when the stream replays is lost to a client without a cursor, and to no other: whoever resumes is
      refused instead. It lies at or below the run's watermark and is not the run's end. */
  lemma OnlyFreshStreamsMissPruned(clock: Time, opening: seq<Step>, w: Streams.RunWatch, shows: Event -> bool, k: EventId)
    requires w.s0 == Reached(clock, opening) && Streams.ObservedRun(w) && Streams.Accepted(w)
    requires Streams.Past(w, shows, k) && k !in Streams.FirstRead(w).events
    ensures w.cursor == 0 < w.first.watermark
    ensures Streams.RunEnd(w).inserted[k].sequence <= w.first.watermark && !Streams.RunEnd(w).inserted[k].terminal
    ensures Streams.RunEnd(w).inserted[k].sequence in Sequences(Streams.RunOutput(w, shows)) <==> Streams.Hears(w, shows, k)
  {
    ReachedInv(clock, opening);
    ReachedOneThread(clock, opening);
    Streams.OnlyFreshStreamsMissPruned(w, shows, k);
    Streams.EmittedExactly(w, shows, k);
  }

  /** A run that completes between the two reads of its stream is not seen to end, although its end is in the queue. */
  lemma EndInBetweenIsLost(clock: Time, opening: seq<Step>, w: Streams.RunWatch, shows: Event -> bool, owner: Owner, payload: Option<Json>)
    requires w.s0 == Reached(clock, opening) && Streams.ObservedRun(w) && Streams.Accepted(w)
    requires EndsFirst(w, owner, payload) && w.readAt == 0 < w.againAt
    ensures |w.s0.inserted| < |Streams.RunEnd(w).inserted|
    ensures var e := Streams.RunEnd(w).inserted[|w.s0.inserted|];
            e.run == Some(w.r) && e.terminal && e in Queue(w.s0, w.after, Streams.OfRun(w.r))
            && (Streams.OfInterest(w, shows, e) ==> e.sequence !in Sequences(Streams.RunOutput(w, shows)))
  {
    ReachedInv(clock, opening);
    ReachedOneThread(clock, opening);
    EndIsLost(w, shows, owner, payload);
  }
}
