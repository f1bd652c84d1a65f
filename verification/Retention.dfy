/** Which events retention deletes. */
module Retention {
  import opened Wrappers
  import opened RunState
  import opened Tables
  import opened EventLog
  import opened Protocol

  /** A retention pass deletes only old progress events of an old finished run, never an end and never a row created at or
      after the cutoff, and what it deletes comes before what it leaves of the same kind. */
  lemma RetentionDeletesOnlyOldRows(s: State, r: RunId, cutoff: Time, batch: nat, ids: set<EventId>, k: EventId)
    requires k in s.events && k !in Apply(s, Retain(r, cutoff, batch, ids)).events
    ensures var e := s.events[k];
            && e.run == Some(r) && e.createdAt < cutoff && !e.terminal
            && r in s.runs && s.runs[r].status in {Success, Error, Timeout, Interrupted} && s.runs[r].updatedAt < cutoff
            && forall j :: j in Apply(s, Retain(r, cutoff, batch, ids)).events && s.events[j].run == Some(r)
                           && s.events[j].createdAt < cutoff && !s.events[j].terminal ==>
                 e.sequence <= s.events[j].sequence
  {
  }

  /** All expired rows of the run. */
  ghost function OldRows(s: State, r: RunId, cutoff: Time): set<EventId> {
    set k | k in s.events && s.events[k].run == Some(r) && s.events[k].createdAt < cutoff && !s.events[k].terminal
  }

  lemma WatermarkCovers(s: State, ids: set<EventId>, k: EventId)
    requires k in ids && k in s.events
    ensures s.events[k].sequence <= Watermark(s, ids)
  {
    var sequences := set j | j in ids && j in s.events :: s.events[j].sequence;
    assert s.events[k].sequence in sequences;
  }

  lemma DropDeletes(s: State, r: RunId, ids: set<EventId>, w: nat)
    requires r in s.runs
    ensures var s' := DropEvents(s, r, ids, w); s'.events == s.events - ids && r in s'.runs && w <= s'.runs[r].eventPrunedThrough
  {
  }

  lemma OldRowsMayGo(s: State, r: RunId, cutoff: Time, batch: nat)
    requires r in s.runs && s.runs[r].status in {Success, Error, Timeout, Interrupted} && s.runs[r].updatedAt < cutoff
    requires OldRows(s, r, cutoff) != {} && |OldRows(s, r, cutoff)| <= batch
    ensures MayPrune(s, r, cutoff, batch, OldRows(s, r, cutoff))
  {
  }

  /** If they fit into one batch, a pass over an old finished run deletes all of them and nothing else. */
  lemma RetentionDeletesOldRows(s: State, r: RunId, cutoff: Time, batch: nat)
    requires r in s.runs && s.runs[r].status in {Success, Error, Timeout, Interrupted} && s.runs[r].updatedAt < cutoff
    requires OldRows(s, r, cutoff) != {} && |OldRows(s, r, cutoff)| <= batch
    ensures var s' := Apply(s, Retain(r, cutoff, batch, OldRows(s, r, cutoff)));
            && s'.events == s.events - OldRows(s, r, cutoff) && r in s'.runs
            && forall k :: k in OldRows(s, r, cutoff) ==> s.events[k].sequence <= s'.runs[r].eventPrunedThrough
  {
    var ids := OldRows(s, r, cutoff);
    OldRowsMayGo(s, r, cutoff, batch);
    DropDeletes(s, r, ids, Watermark(s, ids));
    forall k | k in ids
      ensures s.events[k].sequence <= Watermark(s, ids)
    {
      WatermarkCovers(s, ids, k);
    }
  }
}
