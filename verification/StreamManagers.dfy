/** The stream manager of one process as an object: every method does to its fields what `FanOut` says. */
module StreamManagers {
  import opened Wrappers
  import opened SeenIds
  import opened FanOut

  /** The generator of message ids: ascending even when the clock stands still or goes back. */
  class IdSource {
    var lastMs: int
    var count: int
    ghost var issued: seq<Stamp>

    ghost predicate Valid()
      reads this
    {
      && (forall i :: 0 <= i < |issued| ==> !After(issued[i], Stamp(lastMs, count)))
      && (forall i, j :: 0 <= i < j < |issued| ==> After(issued[j], issued[i]))
    }

    constructor ()
      ensures Valid() && issued == []
    {
      lastMs, count, issued := 0, 0, [];
    }

    method Generate(now: int) returns (id: Stamp)
      requires Valid()
      modifies this
      ensures Valid() && issued == old(issued) + [id]
      ensures forall i :: 0 <= i < |old(issued)| ==> After(id, old(issued)[i])
      ensures now > old(lastMs) ==> id == Stamp(now, 0)
    {
      if now > lastMs {
        lastMs, count := now, 0;
      } else {
        count := count + 1;
      }
      id := Stamp(lastMs, count);
      issued := issued + [id];
    }
  }

  class StreamManager {
    var stores: map<Channel, seq<Message>>
    var controlKeys: map<Channel, Message>
    var queues: map<Target, seq<Handle>>
    var inboxes: map<Handle, seq<Message>>
    var nextHandle: Handle
    const seen: SeenSet<SeenKey>

    ghost function View(): Hub
      reads this, seen
    {
      Hub(stores, controlKeys, queues, inboxes, seen.order)
    }

    ghost predicate Valid()
      reads this, seen
    {
      && seen.Valid() && seen.maxlen == MAX_SEEN && Registered(View())
      && forall q :: q in inboxes ==> q < nextHandle
    }

    constructor ()
      ensures Valid() && fresh(seen) && View() == EMPTY
    {
      stores, controlKeys, queues, inboxes, nextHandle := map[], map[], map[], map[], 0;
      seen := new SeenSet(MAX_SEEN);
    }

    /** Puts the message into every listed queue, one after the other. */
    method FanoutPut(handles: seq<Handle>, m: Message)
      requires NoRepeats(handles) && forall q :: q in handles ==> q in inboxes
      modifies `inboxes
      ensures inboxes == PutAll(old(inboxes), handles, m)
    {
      ghost var was := inboxes;
      for i := 0 to |handles|
        invariant inboxes == PutAll(was, handles[..i], m)
        invariant was == old(inboxes)
      {
        assert handles[..i + 1] == handles[..i] + [handles[i]];
        inboxes := inboxes[handles[i] := inboxes[handles[i]] + [m]];
      }
      assert handles[..|handles|] == handles;
    }

    /** False if the message was already delivered in its scope. */
    method MarkSeen(target: Target, m: Message) returns (isNew: bool)
      requires seen.Valid() && seen.maxlen == MAX_SEEN
      modifies seen
      ensures seen.Valid() && isNew == IsNew(old(View()), target, m)
      ensures seen.order == if isNew && KeyOf(target, m).Some? then Remember(MAX_SEEN, old(seen.order), KeyOf(target, m).value)
                            else old(seen.order)
    {
      if m.id.None? { return true; }
      isNew := seen.Add(SeenKey(ScopeOf(target), m.id.value));
    }

    method DeliverLocal(target: Target, m: Message)
      requires Valid()
      modifies this, seen
      ensures Valid() && View() == Deliver(old(View()), target, m)
    {
      ghost var was := View();
      var isNew := MarkSeen(target, m);
      if !isNew { return; }
      if target.RunControl? {
        controlKeys := controlKeys[target.at := m];
      }
      if target in queues {
        FanoutPut(queues[target], m);
      } else {
        assert PutAll(inboxes, [], m) == inboxes;
      }
      ActRegistered(was, Hears(target, m));
    }

    /** `put` after the id was assigned: buffer and delivery under one lock. */
    method Put(at: Channel, m: Message, control: bool)
      requires Valid()
      modifies this, seen
      ensures Valid() && View() == Publish(old(View()), if control then RunControl(at) else RunData(at), m)
    {
      if control {
        controlKeys := controlKeys[at := m];
        DeliverLocal(RunControl(at), m);
      } else {
        var buf := (if at in stores then stores[at] else []) + [m];
        if |buf| > BUFFERED {
          buf := buf[|buf| - BUFFERED..];
        }
        stores := stores[at := buf];
        DeliverLocal(RunData(at), m);
      }
    }

    /** The immediate part of `clear_run_buffers`. */
    method ClearRunBuffers(at: Channel)
      requires Valid()
      modifies `controlKeys
      ensures Valid() && View() == Act(old(View()), Clears(at))
    {
      controlKeys := controlKeys - {at};
    }

    /** Its delayed part, once the grace period is over. */
    method DropLocalStore(at: Channel)
      requires Valid()
      modifies `stores
      ensures Valid() && View() == Act(old(View()), Drops(at))
    {
      stores := stores - {at};
    }

    method ReplayIntoQueue(messages: seq<Message>, afterId: Option<Stamp>) returns (q: seq<Message>)
      ensures q == Replay(messages, afterId)
    {
      q := [];
      for i := 0 to |messages|
        invariant q == Replay(messages[..i], afterId)
      {
        var m := messages[i];
        assert messages[..i + 1][..i] == messages[..i];
        if afterId.Some? && m.id.Some? && !After(m.id.value, afterId.value) { continue; }
        q := q + [m];
      }
      assert messages[..|messages|] == messages;
    }

    /** Replays and registers under the same lock, so no message falls in between. */
    method AddQueue(at: Channel, afterId: Option<Stamp>, replay: bool) returns (q: Handle)
      requires Valid()
      modifies this
      ensures Valid() && q !in old(inboxes)
      ensures View() == Subscribe(old(View()), RunData(at), q, replay, afterId)
    {
      q := nextHandle;
      nextHandle := nextHandle + 1;
      var items := [];
      if replay && at in stores {
        items := ReplayIntoQueue(stores[at], afterId);
      }
      Register(RunData(at), q, items, replay, afterId);
    }

    method AddThreadStream(thread: nat) returns (q: Handle)
      requires Valid()
      modifies this
      ensures Valid() && q !in old(inboxes)
      ensures View() == Subscribe(old(View()), ThreadData(thread), q, false, None)
    {
      q := nextHandle;
      nextHandle := nextHandle + 1;
      Register(ThreadData(thread), q, [], false, None);
    }

    method Register(target: Target, q: Handle, items: seq<Message>, ghost replay: bool, ghost afterId: Option<Stamp>)
      requires seen.Valid() && seen.maxlen == MAX_SEEN && Registered(View()) && q !in inboxes
      requires q < nextHandle && forall p :: p in inboxes ==> p < nextHandle
      requires items == if replay && target.RunData? then Replay(Buffer(View(), target.at), afterId) else []
      modifies `inboxes, `queues
      ensures Valid() && View() == Subscribe(old(View()), target, q, replay, afterId)
    {
      ActRegistered(View(), Joins(target, q, replay, afterId));
      inboxes := inboxes[q := items];
      queues := queues[target := (if target in queues then queues[target] else []) + [q]];
    }
  }
}
