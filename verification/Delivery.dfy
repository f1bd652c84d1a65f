/** Commits and their fan-out on one time line: which events reach a subscriber queue, and which came too early for it. */
module Delivery {
  import opened Tables
  import opened Protocol
  import opened TerminalEvents
  import opened LogEvolution

  /** Some transaction commits, or the message of the event with this identifier is fanned out to the queues that are
      registered by then. */
  datatype Moment = Commits(step: Step) | FansOut(event: EventId)

  ghost function NextState(s: State, m: Moment): State {
    match m
    case Commits(step) => Apply(s, step)
    case FansOut(_) => s
  }

  ghost function StateAfter(s: State, moments: seq<Moment>): State
    decreases |moments|
  {
    if moments == [] then s else NextState(StateAfter(s, moments[..|moments| - 1]), moments[|moments| - 1])
  }

  /** What a queue holds that was registered in state `s`: the messages of its kind that were fanned out since, in order. */
  ghost function Queue(s: State, moments: seq<Moment>, kind: Event -> bool): seq<Event>
    decreases |moments|
  {
    if moments == [] then []
    else
      var before, m := moments[..|moments| - 1], moments[|moments| - 1];
      var now := StateAfter(s, before);
      Queue(s, before, kind)
      + (if m.FansOut? && m.event < |now.inserted| && kind(now.inserted[m.event]) then [now.inserted[m.event]] else [])
  }

  /** An event is fanned out only after its transaction committed. */
  ghost predicate Causal(s: State, moments: seq<Moment>)
    decreases |moments|
  {
    moments != [] ==>
      var before, m := moments[..|moments| - 1], moments[|moments| - 1];
      Causal(s, before) && (m.FansOut? ==> m.event < |StateAfter(s, before).inserted|)
  }

  /** No message is lost: every event of the kind is fanned out, before the queue was registered or after. */
  ghost predicate Lossless(s: State, before: seq<Moment>, after: seq<Moment>, kind: Event -> bool) {
    var end := StateAfter(StateAfter(s, before), after);
    forall k: EventId :: k < |end.inserted| && kind(end.inserted[k]) ==> FansOut(k) in before || FansOut(k) in after
  }

  lemma MomentEvolves(s: State, m: Moment)
    requires Inv(s)
    ensures Inv(NextState(s, m)) && Evolves(s, NextState(s, m))
  {
    match m {
      case Commits(step) =>
        EventsStep(s, step);
        RunsStep(s, step);
        InvStep(s, step);
      case FansOut(_) => SameEvents(s, s);
    }
  }

  lemma EvolvesItself(s: State)
    ensures Evolves(s, s)
  {
    SameEvents(s, s);
  }

  lemma {:induction false} MomentsEvolve(s: State, moments: seq<Moment>)
    requires Inv(s)
    ensures Inv(StateAfter(s, moments)) && Evolves(s, StateAfter(s, moments))
    decreases |moments|
  {
    if moments == [] {
      EvolvesItself(s);
    } else {
      var before := moments[..|moments| - 1];
      MomentsEvolve(s, before);
      MomentEvolves(StateAfter(s, before), moments[|moments| - 1]);
      EvolvesTrans(s, StateAfter(s, before), StateAfter(s, moments));
    }
  }

  lemma {:induction false} StateAfterBoth(s: State, first: seq<Moment>, second: seq<Moment>)
    ensures StateAfter(s, first + second) == StateAfter(StateAfter(s, first), second)
    decreases |second|
  {
    if second == [] {
      assert first + second == first;
    } else {
      StateAfterBoth(s, first, second[..|second| - 1]);
      assert (first + second)[..|first + second| - 1] == first + second[..|second| - 1];
    }
  }

  /** Later points of the time line evolve from earlier ones. */
  lemma PointsEvolve(s: State, moments: seq<Moment>, i: nat, j: nat)
    requires Inv(s) && i <= j <= |moments|
    ensures Inv(StateAfter(s, moments[..i])) && Inv(StateAfter(s, moments[..j]))
    ensures Evolves(StateAfter(s, moments[..i]), StateAfter(s, moments[..j]))
  {
    assert moments[..j] == moments[..i] + moments[i..j];
    StateAfterBoth(s, moments[..i], moments[i..j]);
    MomentsEvolve(s, moments[..i]);
    MomentsEvolve(StateAfter(s, moments[..i]), moments[i..j]);
  }

  lemma FirstThenRest(s: State, moments: seq<Moment>)
    requires moments != []
    ensures StateAfter(s, moments) == StateAfter(NextState(s, moments[0]), moments[1..])
  {
    var first := [moments[0]];
    assert moments == first + moments[1..] && first[..0] == [];
    StateAfterBoth(s, first, moments[1..]);
  }

  /** Everything that follows the first moment evolves from it. */
  lemma FirstEvolves(s: State, moments: seq<Moment>)
    requires Inv(s) && moments != []
    ensures EventsEvolve(NextState(s, moments[0]), StateAfter(s, moments))
  {
    FirstThenRest(s, moments);
    MomentEvolves(s, moments[0]);
    MomentsEvolve(NextState(s, moments[0]), moments[1..]);
  }

  lemma SameRow(s: State, s': State, k: nat)
    requires EventsEvolve(s, s') && k < |s.inserted|
    ensures k < |s'.inserted| && s'.inserted[k] == s.inserted[k]
  {
    assert s'.inserted[..|s.inserted|][k] == s'.inserted[k];
  }

  /** A queue holds exactly the events of its kind that were fanned out since its registration. */
  lemma {:induction false} QueueIsFannedOut(s: State, moments: seq<Moment>, kind: Event -> bool)
    requires Inv(s) && Causal(s, moments)
    ensures var end := StateAfter(s, moments);
            && (forall k: EventId :: FansOut(k) in moments ==> k < |end.inserted|)
            && (forall k: EventId :: FansOut(k) in moments && kind(end.inserted[k]) ==> end.inserted[k] in Queue(s, moments, kind))
            && (forall e :: e in Queue(s, moments, kind) ==>
                  kind(e) && exists k: EventId :: FansOut(k) in moments && k < |end.inserted| && end.inserted[k] == e)
    decreases |moments|
  {
    if moments != [] {
      var before, m := moments[..|moments| - 1], moments[|moments| - 1];
      assert moments == before + [m];
      QueueIsFannedOut(s, before, kind);
      MomentsEvolve(s, before);
      MomentEvolves(StateAfter(s, before), m);
      QueueGrows(s, before, m, kind);
    }
  }

  lemma QueueGrows(s: State, before: seq<Moment>, m: Moment, kind: Event -> bool)
    requires EventsEvolve(StateAfter(s, before), StateAfter(s, before + [m])) && Causal(s, before + [m])
    requires var end := StateAfter(s, before);
             && (forall k: EventId :: FansOut(k) in before ==> k < |end.inserted|)
             && (forall k: EventId :: FansOut(k) in before && kind(end.inserted[k]) ==> end.inserted[k] in Queue(s, before, kind))
             && (forall e :: e in Queue(s, before, kind) ==>
                   kind(e) && exists k: EventId :: FansOut(k) in before && k < |end.inserted| && end.inserted[k] == e)
    ensures var end := StateAfter(s, before + [m]);
            && (forall k: EventId :: FansOut(k) in before + [m] ==> k < |end.inserted|)
            && (forall k: EventId :: FansOut(k) in before + [m] && kind(end.inserted[k]) ==>
                  end.inserted[k] in Queue(s, before + [m], kind))
            && (forall e :: e in Queue(s, before + [m], kind) ==>
                  kind(e) && exists k: EventId :: FansOut(k) in before + [m] && k < |end.inserted| && end.inserted[k] == e)
  {
    var mid, end := StateAfter(s, before), StateAfter(s, before + [m]);
    assert (before + [m])[..|before|] == before;
    forall k: EventId | FansOut(k) in before + [m]
      ensures k < |mid.inserted| && k < |end.inserted| && end.inserted[k] == mid.inserted[k]
    {
      SameRow(mid, end, k);
    }
    forall e | e in Queue(s, before + [m], kind)
      ensures kind(e) && exists k: EventId :: FansOut(k) in before + [m] && k < |end.inserted| && end.inserted[k] == e
    {
      if e in Queue(s, before, kind) {
        var k: EventId :| FansOut(k) in before && k < |mid.inserted| && mid.inserted[k] == e;
        assert FansOut(k) in before + [m];
      } else {
        assert m.FansOut? && e == mid.inserted[m.event];
        assert FansOut(m.event) in before + [m];
      }
    }
  }
}
