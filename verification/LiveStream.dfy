/** The live half of an event stream: what is emitted of the messages that a subscriber queue delivers. */
module LiveStream {
  import opened Wrappers
  import opened Tables
  import opened EventFilter

  function Sequences(events: seq<Event>): set<nat> {
    set e | e in events :: e.sequence
  }

  /** Emits what `shows` selects, above the client's cursor, and no sequence twice. */
  function Emit(shows: Event -> bool, floor: nat, seen: set<nat>, events: seq<Event>): seq<Event>
    decreases |events|
  {
    if events == [] then []
    else
      var before := Emit(shows, floor, seen, events[..|events| - 1]);
      var e := events[|events| - 1];
      if shows(e) && e.sequence > floor && e.sequence !in seen + Sequences(before) then before + [e] else before
  }

  ghost predicate DistinctSequences(events: seq<Event>) {
    forall i, j :: 0 <= i < j < |events| ==> events[i].sequence != events[j].sequence
  }

  /** Each selected sequence above the cursor is emitted exactly once, and nothing else. */
  lemma {:induction false} EmitOnce(shows: Event -> bool, floor: nat, seen: set<nat>, events: seq<Event>)
    ensures var out := Emit(shows, floor, seen, events);
            && DistinctSequences(out)
            && (forall e :: e in out ==> e in events && shows(e) && e.sequence > floor && e.sequence !in seen)
            && (forall e :: e in events && shows(e) && e.sequence > floor ==> e.sequence in seen + Sequences(out))
    decreases |events|
  {
    if events != [] {
      var before := events[..|events| - 1];
      EmitOnce(shows, floor, seen, before);
      assert events == before + [events[|events| - 1]];
      EmitGrows(shows, floor, seen, before, events[|events| - 1]);
    }
  }

  lemma EmitGrows(shows: Event -> bool, floor: nat, seen: set<nat>, before: seq<Event>, e: Event)
    ensures var old_, new_ := Emit(shows, floor, seen, before), Emit(shows, floor, seen, before + [e]);
            && (new_ == old_ || new_ == old_ + [e])
            && Sequences(old_) <= Sequences(new_)
            && (shows(e) && e.sequence > floor ==> e.sequence in seen + Sequences(new_))
  {
    assert (before + [e])[..|before|] == before;
    var old_ := Emit(shows, floor, seen, before);
    forall d | d in old_ ensures d in old_ + [e] {}
    assert e in old_ + [e];
  }

  /** Two phases that share the set of seen sequences are one phase over both inputs. */
  lemma {:induction false} EmitInPhases(shows: Event -> bool, floor: nat, seen: set<nat>, first: seq<Event>, second: seq<Event>)
    ensures Emit(shows, floor, seen, first + second) ==
            Emit(shows, floor, seen, first) +
            Emit(shows, floor, seen + Sequences(Emit(shows, floor, seen, first)), second)
    decreases |second|
  {
    if second == [] {
      assert first + second == first;
    } else {
      var before, e := second[..|second| - 1], second[|second| - 1];
      EmitInPhases(shows, floor, seen, first, before);
      assert (first + second)[..|first + second| - 1] == first + before;
      SequencesConcat(Emit(shows, floor, seen, first),
                      Emit(shows, floor, seen + Sequences(Emit(shows, floor, seen, first)), before));
    }
  }

  lemma SequencesConcat(a: seq<Event>, b: seq<Event>)
    ensures Sequences(a + b) == Sequences(a) + Sequences(b)
  {
  }

  /** The loop over a protocol subscriber's queue. */
  method FollowLive(f: Filter, since: nat, replayed: set<nat>, live: seq<Event>) returns (emitted: seq<Event>)
    ensures emitted == Emit(e => WireMatches(f, e), since, replayed, live)
  {
    emitted := [];
    var seen := replayed;
    for i := 0 to |live|
      invariant emitted == Emit(e => WireMatches(f, e), since, replayed, live[..i])
      invariant seen == replayed + Sequences(emitted)
    {
      var wire := live[i];
      assert live[..i + 1][..i] == live[..i];
      if wire.sequence <= since || wire.sequence in seen || !WireMatches(f, wire) { continue; }
      seen := seen + {wire.sequence};
      SequencesConcat(emitted, [wire]);
      emitted := emitted + [wire];
    }
    assert live[..|live|] == live;
  }

  /** The run stream sends replayed and live envelopes through the same filter. */
  method EmitEnvelopes(shows: Event -> bool, cursor: nat, before: set<nat>, envelopes: seq<Event>)
      returns (emitted: seq<Event>, seen: set<nat>)
    ensures emitted == Emit(shows, cursor, before, envelopes)
    ensures seen == before + Sequences(emitted)
  {
    emitted, seen := [], before;
    for i := 0 to |envelopes|
      invariant emitted == Emit(shows, cursor, before, envelopes[..i])
      invariant seen == before + Sequences(emitted)
    {
      var envelope := envelopes[i];
      assert envelopes[..i + 1][..i] == envelopes[..i];
      if !shows(envelope) || envelope.sequence <= cursor || envelope.sequence in seen { continue; }
      seen := seen + {envelope.sequence};
      SequencesConcat(emitted, [envelope]);
      emitted := emitted + [envelope];
    }
    assert envelopes[..|envelopes|] == envelopes;
  }

  // ---- a run's stream ----

  /** What the live loop of a run stream sees: a message, or silence, after which the status is read again and, if the run
      has ended, its rows after a cursor are loaded. */
  datatype Input = Message(envelope: Event) | Silence(ended: bool, load: nat -> seq<Event>)

  /** The newest sequence that was shown, or else the client's cursor. */
  ghost function Newest(cursor: nat, seen: set<nat>): nat {
    if seen == {} then cursor else MaxOf(seen)
  }

  function Envelopes(input: Input, newest: nat): seq<Event> {
    match input
    case Message(e) => [e]
    case Silence(ended, load) => if ended then load(newest) else []
  }

  predicate Stops(input: Input) {
    match input
    case Message(e) => e.terminal
    case Silence(ended, _) => ended
  }

  /** The envelopes that the live loop considers: it stops at the first terminal one, or after a silence past the end. */
  ghost function Heard(shows: Event -> bool, cursor: nat, seen: set<nat>, inputs: seq<Input>): seq<Event>
    decreases |inputs|
  {
    if inputs == [] then []
    else
      var now := Envelopes(inputs[0], Newest(cursor, seen));
      now + (if Stops(inputs[0]) then []
             else Heard(shows, cursor, seen + Sequences(Emit(shows, cursor, seen, now)), inputs[1..]))
  }

  function Messages(inputs: seq<Input>): seq<Event>
    decreases |inputs|
  {
    if inputs == [] then [] else (if inputs[0].Message? then [inputs[0].envelope] else []) + Messages(inputs[1..])
  }

  function UpToTerminal(events: seq<Event>): seq<Event>
    decreases |events|
  {
    if events == [] then [] else [events[0]] + (if events[0].terminal then [] else UpToTerminal(events[1..]))
  }

  predicate NeverEnded(inputs: seq<Input>) {
    forall i :: 0 <= i < |inputs| && inputs[i].Silence? ==> !inputs[i].ended
  }

  lemma HeardMessage(shows: Event -> bool, cursor: nat, seen: set<nat>, e: Event, rest: seq<Input>)
    ensures Messages([Message(e)] + rest) == [e] + Messages(rest)
    ensures Heard(shows, cursor, seen, [Message(e)] + rest)
            == [e] + (if e.terminal then [] else Heard(shows, cursor, seen + Sequences(Emit(shows, cursor, seen, [e])), rest))
  {
    var inputs := [Message(e)] + rest;
    assert inputs[0] == Message(e) && inputs[1..] == rest;
  }

  lemma HeardNothing(shows: Event -> bool, cursor: nat, seen: set<nat>, quiet: Input, rest: seq<Input>)
    requires quiet.Silence? && !quiet.ended
    ensures Messages([quiet] + rest) == Messages(rest)
    ensures Heard(shows, cursor, seen, [quiet] + rest) == Heard(shows, cursor, seen, rest)
  {
    var inputs := [quiet] + rest;
    assert inputs[0] == quiet && inputs[1..] == rest;
    assert seen + Sequences(Emit(shows, cursor, seen, [])) == seen;
    assert [] + Heard(shows, cursor, seen, rest) == Heard(shows, cursor, seen, rest);
    assert [] + Messages(rest) == Messages(rest);
  }

  /** While no silence finds the run ended, the loop hears the messages up to the first terminal one. */
  lemma {:induction false} HeardIsUpToTerminal(shows: Event -> bool, cursor: nat, seen: set<nat>, inputs: seq<Input>)
    requires NeverEnded(inputs)
    ensures Heard(shows, cursor, seen, inputs) == UpToTerminal(Messages(inputs))
    decreases |inputs|
  {
    if inputs != [] {
      var rest := inputs[1..];
      assert inputs == [inputs[0]] + rest;
      if inputs[0].Message? {
        var e := inputs[0].envelope;
        HeardMessage(shows, cursor, seen, e, rest);
        assert ([e] + Messages(rest))[1..] == Messages(rest);
        HeardIsUpToTerminal(shows, cursor, seen + Sequences(Emit(shows, cursor, seen, [e])), rest);
      } else {
        HeardNothing(shows, cursor, seen, inputs[0], rest);
        HeardIsUpToTerminal(shows, cursor, seen, rest);
      }
    }
  }

  /** The newest sequence shown once these messages were heard. */
  ghost function NewestAfter(shows: Event -> bool, cursor: nat, seen: set<nat>, messages: seq<Event>): nat {
    Newest(cursor, seen + Sequences(Emit(shows, cursor, seen, messages)))
  }

  lemma NewestLater(shows: Event -> bool, cursor: nat, seen: set<nat>, first: seq<Event>, rest: seq<Event>)
    ensures NewestAfter(shows, cursor, seen, first + rest)
            == NewestAfter(shows, cursor, seen + Sequences(Emit(shows, cursor, seen, first)), rest)
  {
    var out := Emit(shows, cursor, seen, first);
    EmitInPhases(shows, cursor, seen, first, rest);
    SequencesConcat(out, Emit(shows, cursor, seen + Sequences(out), rest));
    assert seen + (Sequences(out) + Sequences(Emit(shows, cursor, seen + Sequences(out), rest)))
        == seen + Sequences(out) + Sequences(Emit(shows, cursor, seen + Sequences(out), rest));
  }

  lemma SilenceAlone(shows: Event -> bool, cursor: nat, seen: set<nat>, last: Input)
    requires last.Silence? && last.ended
    ensures Heard(shows, cursor, seen, [last]) == last.load(NewestAfter(shows, cursor, seen, []))
  {
    assert seen + Sequences(Emit(shows, cursor, seen, [])) == seen;
    assert last.load(Newest(cursor, seen)) + [] == last.load(Newest(cursor, seen));
  }

  /** A silence that finds the run ended adds the rows above everything shown. */
  lemma {:induction false} HeardUntilSilence(shows: Event -> bool, cursor: nat, seen: set<nat>, talk: seq<Input>, last: Input)
    requires NeverEnded(talk) && (forall e :: e in Messages(talk) ==> !e.terminal) && last.Silence? && last.ended
    ensures Heard(shows, cursor, seen, talk + [last])
            == Messages(talk) + last.load(NewestAfter(shows, cursor, seen, Messages(talk)))
    decreases |talk|, 0
  {
    if talk == [] {
      SilenceAlone(shows, cursor, seen, last);
      assert talk + [last] == [last] && Messages(talk) == [];
      assert [] + last.load(NewestAfter(shows, cursor, seen, [])) == last.load(NewestAfter(shows, cursor, seen, []));
    } else {
      var rest := talk[1..];
      assert talk == [talk[0]] + rest;
      if talk[0].Message? {
        HeardThenSilence(shows, cursor, seen, talk[0].envelope, rest, last);
      } else {
        assert talk + [last] == [talk[0]] + (rest + [last]);
        HeardNothing(shows, cursor, seen, talk[0], rest);
        HeardNothing(shows, cursor, seen, talk[0], rest + [last]);
        HeardUntilSilence(shows, cursor, seen, rest, last);
      }
    }
  }

  lemma {:induction false} HeardThenSilence(shows: Event -> bool, cursor: nat, seen: set<nat>, e: Event, rest: seq<Input>, last: Input)
    requires NeverEnded(rest) && !e.terminal && (forall m :: m in Messages([Message(e)] + rest) ==> !m.terminal)
    requires last.Silence? && last.ended
    ensures var talk := [Message(e)] + rest;
            Heard(shows, cursor, seen, talk + [last])
            == Messages(talk) + last.load(NewestAfter(shows, cursor, seen, Messages(talk)))
    decreases |rest|, 1
  {
    var talk := [Message(e)] + rest;
    var seen' := seen + Sequences(Emit(shows, cursor, seen, [e]));
    assert talk + [last] == [Message(e)] + (rest + [last]);
    HeardMessage(shows, cursor, seen, e, rest);
    HeardMessage(shows, cursor, seen, e, rest + [last]);
    NewestLater(shows, cursor, seen, [e], Messages(rest));
    HeardUntilSilence(shows, cursor, seen', rest, last);
    var loaded := last.load(NewestAfter(shows, cursor, seen', Messages(rest)));
    Regroup([e], Messages(rest), loaded);
  }

  /** What is heard was a message or was loaded. */
  lemma {:induction false} HeardParts(shows: Event -> bool, cursor: nat, seen: set<nat>, inputs: seq<Input>, e: Event)
    requires e in Heard(shows, cursor, seen, inputs)
    ensures e in Messages(inputs) || exists i, a: nat :: 0 <= i < |inputs| && inputs[i].Silence? && inputs[i].ended && e in inputs[i].load(a)
    decreases |inputs|
  {
    var now := Envelopes(inputs[0], Newest(cursor, seen));
    if e !in now {
      var rest := inputs[1..];
      HeardParts(shows, cursor, seen + Sequences(Emit(shows, cursor, seen, now)), rest, e);
      if i, a: nat :| 0 <= i < |rest| && rest[i].Silence? && rest[i].ended && e in rest[i].load(a) {
        assert inputs[i + 1] == rest[i];
      }
    }
  }

  /** The terminal message comes before any message of this event: the live loop ends before it. */
  predicate Overtaken(messages: seq<Event>, e: Event) {
    exists i :: 0 <= i < |messages| && messages[i].terminal && e !in messages[..i + 1]
  }

  lemma OvertakenThere(first: Event, rest: seq<Event>, e: Event, i: nat)
    requires first != e && i < |rest| && rest[i].terminal && e !in rest[..i + 1]
    ensures Overtaken([first] + rest, e)
  {
    var messages := [first] + rest;
    assert messages[..i + 2] == [first] + rest[..i + 1];
    assert messages[i + 1].terminal;
  }

  lemma OvertakenHere(first: Event, rest: seq<Event>, e: Event, i: nat)
    requires !first.terminal && i <= |rest| && ([first] + rest)[i].terminal && e !in ([first] + rest)[..i + 1]
    ensures Overtaken(rest, e)
  {
    assert ([first] + rest)[..i + 1] == [first] + rest[..i];
    assert rest[i - 1].terminal;
  }

  lemma NotOvertaken(messages: seq<Event>, e: Event)
    requires messages != [] && messages[0] == e
    ensures !Overtaken(messages, e)
  {
    forall i | 0 <= i < |messages| && messages[i].terminal
      ensures e in messages[..i + 1]
    {
      assert messages[..i + 1][0] == e;
    }
  }

  lemma {:induction false} HeardUnlessOvertaken(messages: seq<Event>, e: Event)
    requires e in messages
    ensures e in UpToTerminal(messages) <==> !Overtaken(messages, e)
    decreases |messages|
  {
    if messages[0] == e {
      NotOvertaken(messages, e);
    } else if messages[0].terminal {
      assert messages[..1] == [messages[0]];
    } else {
      assert messages == [messages[0]] + messages[1..];
      HeardUnlessOvertaken(messages[1..], e);
      if i :| 0 <= i < |messages| && messages[i].terminal && e !in messages[..i + 1] {
        OvertakenHere(messages[0], messages[1..], e, i);
      }
      if i :| 0 <= i < |messages[1..]| && messages[1..][i].terminal && e !in messages[1..][..i + 1] {
        OvertakenThere(messages[0], messages[1..], e, i);
      }
    }
  }

  /** What the stream reads of the run before it replays. */
  datatype RunRead = RunRead(found: bool, terminal: bool, resumable: bool, watermark: nat, rows: seq<Event>)

  /** The stream may start at all: the run exists, the cursor has not expired, and it is not a late join of a finished run
      that was not meant to be resumed. `created` says that this request created the run. */
  predicate Starts(cursor: nat, created: bool, first: RunRead) {
    && first.found && (cursor == 0 || cursor >= first.watermark)
    && (created || first.resumable || !first.terminal)
  }

  /** Everything that a run stream emits. `gone` is the second read of the status: the run has ended, or is not there. */
  ghost function RunStream(shows: Event -> bool, cursor: nat, created: bool, first: RunRead, gone: bool, inputs: seq<Input>): seq<Event> {
    if !Starts(cursor, created, first) then []
    else
      var replayed := if created || first.resumable then Emit(shows, cursor, {}, first.rows) else [];
      if gone then replayed else replayed + Emit(shows, cursor, Sequences(replayed), Heard(shows, cursor, Sequences(replayed), inputs))
  }

  lemma HeardFrom(shows: Event -> bool, cursor: nat, seen: set<nat>, heard: seq<Event>, inputs: seq<Input>, i: nat)
    requires i < |inputs|
    ensures var now := Envelopes(inputs[i], Newest(cursor, seen));
            heard + Heard(shows, cursor, seen, inputs[i..])
            == (heard + now) + (if Stops(inputs[i]) then []
                                else Heard(shows, cursor, seen + Sequences(Emit(shows, cursor, seen, now)), inputs[i + 1..]))
  {
    assert inputs[i..][0] == inputs[i] && inputs[i..][1..] == inputs[i + 1..];
    var now := Envelopes(inputs[i], Newest(cursor, seen));
    Regroup(heard, now, if Stops(inputs[i]) then []
                        else Heard(shows, cursor, seen + Sequences(Emit(shows, cursor, seen, now)), inputs[i + 1..]));
  }

  lemma Regroup(a: seq<Event>, b: seq<Event>, c: seq<Event>)
    ensures a + (b + c) == (a + b) + c
  {
  }

  lemma HeardMore(shows: Event -> bool, cursor: nat, replayed: set<nat>, heard: seq<Event>, more: seq<Event>)
    ensures var out := Emit(shows, cursor, replayed, heard);
            var new_ := Emit(shows, cursor, replayed + Sequences(out), more);
            && Emit(shows, cursor, replayed, heard + more) == out + new_
            && replayed + Sequences(out + new_) == replayed + Sequences(out) + Sequences(new_)
  {
    EmitInPhases(shows, cursor, replayed, heard, more);
    SequencesConcat(Emit(shows, cursor, replayed, heard),
                    Emit(shows, cursor, replayed + Sequences(Emit(shows, cursor, replayed, heard)), more));
  }

  method FindNewest(cursor: nat, seen: set<nat>) returns (newest: nat)
    ensures newest == Newest(cursor, seen)
  {
    if seen == {} { return cursor; }
    newest :| newest in seen;
    var rest := seen - {newest};
    while rest != {}
      invariant rest <= seen && newest in seen
      invariant forall n :: n in seen && n !in rest ==> n <= newest
      decreases |rest|
    {
      var n :| n in rest;
      rest := rest - {n};
      newest := Max(newest, n);
    }
  }

  /** The live loop of a run stream. */
  method FollowRun(shows: Event -> bool, cursor: nat, replayed: set<nat>, inputs: seq<Input>) returns (emitted: seq<Event>)
    ensures emitted == Emit(shows, cursor, replayed, Heard(shows, cursor, replayed, inputs))
  {
    ghost var heard: seq<Event> := [];
    emitted := [];
    var seen := replayed;
    assert inputs[0..] == inputs;
    for i := 0 to |inputs|
      invariant heard + Heard(shows, cursor, seen, inputs[i..]) == Heard(shows, cursor, replayed, inputs)
      invariant emitted == Emit(shows, cursor, replayed, heard) && seen == replayed + Sequences(emitted)
    {
      var newest := FindNewest(cursor, seen);
      var envelopes := Envelopes(inputs[i], newest);
      HeardFrom(shows, cursor, seen, heard, inputs, i);
      HeardMore(shows, cursor, replayed, heard, envelopes);
      var more, now := EmitEnvelopes(shows, cursor, seen, envelopes);
      heard, emitted, seen := heard + envelopes, emitted + more, now;
      assert heard + [] == heard;
      if Stops(inputs[i]) { return; }
    }
    assert inputs[|inputs|..] == [] && heard + [] == heard;
  }

  /** The body of a run stream: first read, replay, second read, live loop. */
  method RunSse(shows: Event -> bool, cursor: nat, created: bool, first: RunRead, gone: bool, inputs: seq<Input>)
      returns (emitted: seq<Event>)
    ensures emitted == RunStream(shows, cursor, created, first, gone, inputs)
  {
    emitted := [];
    if !first.found { return; }
    if cursor > 0 && cursor < first.watermark { return; }
    var replay := first.rows;
    if !created && !first.resumable {
      if first.terminal { return; }
      replay := [];
    }
    var seen;
    emitted, seen := EmitEnvelopes(shows, cursor, {}, replay);
    if gone { return; }
    assert {} + Sequences(emitted) == Sequences(emitted);
    var live := FollowRun(shows, cursor, seen, inputs);
    emitted := emitted + live;
  }
}
