/** Local fan-out of stream messages: buffers, subscriber queues and the echo of the process's own publications. */
module FanOut {
  import opened Wrappers
  import opened SeenIds

  const MAX_SEEN: int := 10_000
  const BUFFERED: nat := 2_000

  /** Redis-style `ms-seq` message identifiers. */
  datatype Stamp = Stamp(ms: int, count: int)

  predicate After(a: Stamp, b: Stamp) {
    a.ms > b.ms || (a.ms == b.ms && a.count > b.count)
  }

  datatype Message = Message(topic: string, data: string, id: Option<Stamp>)

  datatype Channel = Channel(thread: Option<nat>, run: nat)

  /** What a subscriber queue carries: a run's events, a run's control messages, or a thread's events. */
  datatype Target = RunData(at: Channel) | RunControl(at: Channel) | ThreadData(thread: nat)

  datatype Scope = OfRun(at: Channel) | OfThread(thread: nat)

  datatype SeenKey = SeenKey(scope: Scope, id: Stamp)

  function ScopeOf(target: Target): Scope {
    match target
    case RunData(at) => OfRun(at)
    case RunControl(at) => OfRun(at)
    case ThreadData(t) => OfThread(t)
  }

  /** Message ids are unique only within a scope; a message without an id is never deduplicated. */
  function KeyOf(target: Target, m: Message): Option<SeenKey> {
    match m.id
    case Some(id) => Some(SeenKey(ScopeOf(target), id))
    case None => None
  }

  type Handle = nat

  /** One process's stream manager. */
  datatype Hub = Hub(
    stores: map<Channel, seq<Message>>,
    controlKeys: map<Channel, Message>,
    queues: map<Target, seq<Handle>>,
    inboxes: map<Handle, seq<Message>>,
    seen: seq<SeenKey>)

  const EMPTY := Hub(map[], map[], map[], map[], [])

  function Buffer(h: Hub, at: Channel): seq<Message> {
    if at in h.stores then h.stores[at] else []
  }

  function Subscribers(h: Hub, target: Target): seq<Handle> {
    if target in h.queues then h.queues[target] else []
  }

  /** `_fanout_put`: the message joins every listed queue. */
  function PutAll(inboxes: map<Handle, seq<Message>>, handles: seq<Handle>, m: Message): map<Handle, seq<Message>> {
    map q | q in inboxes :: if q in handles then inboxes[q] + [m] else inboxes[q]
  }

  function IsNew(h: Hub, target: Target, m: Message): bool {
    KeyOf(target, m).None? || KeyOf(target, m).value !in h.seen
  }

  /** `_deliver_local` and `_deliver_thread_local`: once per scope and id while the id is remembered. */
  function Deliver(h: Hub, target: Target, m: Message): Hub {
    if !IsNew(h, target, m) then h
    else h.(seen := if KeyOf(target, m).Some? then Remember(MAX_SEEN, h.seen, KeyOf(target, m).value) else h.seen,
            controlKeys := if target.RunControl? then h.controlKeys[target.at := m] else h.controlKeys,
            inboxes := PutAll(h.inboxes, Subscribers(h, target), m))
  }

  /** `put`, after the message got its id: buffer it unless it is a control message, then deliver it. */
  function Publish(h: Hub, target: Target, m: Message): Hub {
    match target
    case RunData(at) => Deliver(h.(stores := h.stores[at := Newest(Buffer(h, at) + [m], BUFFERED)]), target, m)
    case RunControl(at) => Deliver(h.(controlKeys := h.controlKeys[at := m]), target, m)
    case ThreadData(_) => Deliver(h, target, m)
  }

  /** `_replay_into_queue`: the buffered messages that are not at or before the client's cursor. */
  function Replay(buffer: seq<Message>, afterId: Option<Stamp>): seq<Message>
    decreases |buffer|
  {
    if buffer == [] then []
    else
      var m := buffer[|buffer| - 1];
      Replay(buffer[..|buffer| - 1], afterId)
      + (if afterId.Some? && m.id.Some? && !After(m.id.value, afterId.value) then [] else [m])
  }

  /** Registers the fresh queue `q`, filled from the buffer if it is a run queue that asks for a replay. */
  function Subscribe(h: Hub, target: Target, q: Handle, replay: bool, afterId: Option<Stamp>): Hub {
    if q in h.inboxes then h
    else h.(inboxes := h.inboxes[q := if replay && target.RunData? then Replay(Buffer(h, target.at), afterId) else []],
            queues := h.queues[target := Subscribers(h, target) + [q]])
  }

  // ---- histories ----

  /** `Sends` is a local publication, `Hears` a message arriving over Pub/Sub: an echo or another process's. After a run's
      terminal event its control key is cleared at once and, after a grace period, its buffer is dropped. */
  datatype Op =
    | Sends(target: Target, m: Message)
    | Hears(target: Target, m: Message)
    | Joins(target: Target, q: Handle, replay: bool, afterId: Option<Stamp>)
    | Clears(at: Channel)
    | Drops(at: Channel)

  predicate Carries(op: Op) {
    op.Sends? || op.Hears?
  }

  function Act(h: Hub, op: Op): Hub {
    match op
    case Sends(target, m) => Publish(h, target, m)
    case Hears(target, m) => Deliver(h, target, m)
    case Joins(target, q, replay, afterId) => Subscribe(h, target, q, replay, afterId)
    case Clears(at) => h.(controlKeys := h.controlKeys - {at})
    case Drops(at) => h.(stores := h.stores - {at})
  }

  function Run(ops: seq<Op>): Hub
    decreases |ops|
  {
    if ops == [] then EMPTY else Act(Run(ops[..|ops| - 1]), ops[|ops| - 1])
  }

  function OpKey(op: Op): Option<SeenKey> {
    if Carries(op) then KeyOf(op.target, op.m) else None
  }

  /** The distinct keys in the order of their first appearance. */
  function Introduced(ops: seq<Op>): seq<SeenKey>
    decreases |ops|
  {
    if ops == [] then []
    else
      var before := Introduced(ops[..|ops| - 1]);
      var key := OpKey(ops[|ops| - 1]);
      if key.Some? && key.value !in before then before + [key.value] else before
  }

  /** The messages for a target, each at the first appearance of its key. */
  function FirstSights(ops: seq<Op>, target: Target): seq<Message>
    decreases |ops|
  {
    if ops == [] then []
    else
      var op := ops[|ops| - 1];
      FirstSights(ops[..|ops| - 1], target)
      + (if Carries(op) && op.target == target && (OpKey(op).None? || OpKey(op).value !in Introduced(ops[..|ops| - 1]))
         then [op.m] else [])
  }

  /** The local publications to a target. */
  function Sent(ops: seq<Op>, target: Target): seq<Message>
    decreases |ops|
  {
    if ops == [] then []
    else
      var op := ops[|ops| - 1];
      Sent(ops[..|ops| - 1], target) + (if op.Sends? && op.target == target then [op.m] else [])
  }

  /** The local publications of a run since its buffer was last dropped. */
  function SentSince(ops: seq<Op>, at: Channel): seq<Message>
    decreases |ops|
  {
    if ops == [] then []
    else
      var op := ops[|ops| - 1];
      if op == Drops(at) then []
      else SentSince(ops[..|ops| - 1], at) + (if op.Sends? && op.target == RunData(at) then [op.m] else [])
  }

  /** The buffer of the run was dropped after something had been published. */
  predicate DropsAway(ops: seq<Op>, at: Channel)
    decreases |ops|
  {
    ops != [] &&
      var before := ops[..|ops| - 1];
      DropsAway(before, at) || (ops[|ops| - 1] == Drops(at) && Sent(before, RunData(at)) != [])
  }

  /** Every repetition of a key, such as an echo, arrives while at most 5000 other keys have appeared since. */
  ghost predicate EchoesInWindow(ops: seq<Op>)
    decreases |ops|
  {
    ops != [] ==>
      var before := ops[..|ops| - 1];
      var key := OpKey(ops[|ops| - 1]);
      && EchoesInWindow(before)
      && (key.Some? && key.value in Introduced(before) ==> key.value in Newest(Introduced(before), 5_001))
  }

  // ---- the invariant ----

  /** Each queue is registered once, for one target. */
  ghost predicate Registered(h: Hub) {
    && (forall target :: target in h.queues ==>
          NoRepeats(h.queues[target]) && forall q :: q in h.queues[target] ==> q in h.inboxes)
    && (forall a, b, q :: a in h.queues && b in h.queues && q in h.queues[a] && q in h.queues[b] ==> a == b)
  }

  lemma DeliverRemembers(h: Hub, target: Target, m: Message, introduced: seq<SeenKey>)
    requires Remembers(MAX_SEEN, h.seen, introduced)
    ensures var key := KeyOf(target, m);
            Remembers(MAX_SEEN, Deliver(h, target, m).seen,
                      if key.Some? && key.value !in h.seen then introduced + [key.value] else introduced)
  {
    var key := KeyOf(target, m);
    if key.Some? && key.value !in h.seen {
      RememberKeeps(MAX_SEEN, h.seen, introduced, key.value);
    }
  }

  lemma ActRegistered(h: Hub, op: Op)
    requires Registered(h)
    ensures Registered(Act(h, op))
  {
    if op.Joins? && op.q !in h.inboxes {
      JoinRegistered(h, op.target, op.q, op.replay, op.afterId);
    } else {
      assert Act(h, op).queues == h.queues && Act(h, op).inboxes.Keys == h.inboxes.Keys;
    }
  }

  lemma JoinRegistered(h: Hub, target: Target, q: Handle, replay: bool, afterId: Option<Stamp>)
    requires Registered(h) && q !in h.inboxes
    ensures Registered(Subscribe(h, target, q, replay, afterId))
  {
    var was := Subscribers(h, target);
    assert forall x :: x in was + [q] <==> x in was || x == q;
  }

  /** While echoes stay in the window, the remembered ids decide exactly whether a key has appeared before. */
  lemma {:induction false} RunRemembers(ops: seq<Op>)
    requires EchoesInWindow(ops)
    ensures Remembers(MAX_SEEN, Run(ops).seen, Introduced(ops)) && Registered(Run(ops))
    decreases |ops|
  {
    if ops != [] {
      var before, op := ops[..|ops| - 1], ops[|ops| - 1];
      RunRemembers(before);
      ActRegistered(Run(before), op);
      if Carries(op) {
        NewIsFirst(before, op);
        DeliverRemembers(Run(before), op.target, op.m, Introduced(before));
        SeenByAct(Run(before), op);
      }
    }
  }

  lemma SeenByAct(h: Hub, op: Op)
    requires Carries(op)
    ensures Act(h, op).seen == Deliver(h, op.target, op.m).seen
  {
  }

  lemma NewIsFirst(before: seq<Op>, op: Op)
    requires Remembers(MAX_SEEN, Run(before).seen, Introduced(before)) && Carries(op)
    requires OpKey(op).Some? && OpKey(op).value in Introduced(before) ==>
               OpKey(op).value in Newest(Introduced(before), Window(MAX_SEEN))
    ensures IsNew(Run(before), op.target, op.m) <==> OpKey(op).None? || OpKey(op).value !in Introduced(before)
  {
    if OpKey(op).Some? {
      WindowIsRemembered(MAX_SEEN, Run(before).seen, Introduced(before), OpKey(op).value);
    }
  }

  // ---- scopes ----

  /** A message that arrives again for the same run, as an event or as a control message, has no effect. */
  lemma SecondArrivalIsSilent(h: Hub, at: Channel, first: Target, second: Target, m: Message)
    requires first in {RunData(at), RunControl(at)} && second in {RunData(at), RunControl(at)} && m.id.Some?
    ensures Deliver(Deliver(h, first, m), second, m) == Deliver(h, first, m)
  {
    var key := SeenKey(OfRun(at), m.id.value);
    if key !in h.seen {
      var more := h.seen + [key];
      assert more[|h.seen|] == key && more[(|h.seen| + 1) / 2..][|h.seen| - (|h.seen| + 1) / 2] == key;
    }
  }

  /** The two targets belong to different runs, different threads, or a run and a thread. */
  predicate Apart(a: Target, b: Target) {
    if a.ThreadData? && b.ThreadData? then a.thread != b.thread
    else a.ThreadData? || b.ThreadData? || a.at != b.at
  }

  /** A message never makes another run or thread overlook one, not even under the same id. */
  lemma ScopesAreApart(h: Hub, target: Target, m: Message, other: Target, later: Message)
    requires Apart(target, other)
    ensures IsNew(h, other, later) ==> IsNew(Deliver(h, target, m), other, later)
  {
  }

  // ---- what a subscriber sees ----

  /** One operation appends to a registered queue exactly the first sight of a message for its target. */
  lemma InboxGrows(h: Hub, op: Op, target: Target, q: Handle)
    requires Registered(h) && q in Subscribers(h, target)
    ensures q in h.inboxes && q in Subscribers(Act(h, op), target) && q in Act(h, op).inboxes
    ensures Act(h, op).inboxes[q] ==
            h.inboxes[q] + (if Carries(op) && op.target == target && IsNew(h, op.target, op.m) then [op.m] else [])
  {
  }

  /** What one more operation adds to the first sights of a target. */
  function NewSight(ops: seq<Op>, op: Op, target: Target): seq<Message> {
    if Carries(op) && op.target == target && (OpKey(op).None? || OpKey(op).value !in Introduced(ops)) then [op.m] else []
  }

  lemma SightsGrow(ops: seq<Op>, op: Op, target: Target)
    ensures FirstSights(ops + [op], target) == FirstSights(ops, target) + NewSight(ops, op, target)
    ensures Run(ops + [op]) == Act(Run(ops), op)
    ensures EchoesInWindow(ops + [op]) ==> EchoesInWindow(ops)
  {
    assert (ops + [op])[..|ops|] == ops;
  }

  lemma InboxStep(ops: seq<Op>, op: Op, target: Target, q: Handle)
    requires EchoesInWindow(ops + [op]) && q in Subscribers(Run(ops), target)
    ensures var h, h' := Run(ops), Run(ops + [op]);
            && q in h.inboxes && q in h'.inboxes && q in Subscribers(h', target)
            && h'.inboxes[q] == h.inboxes[q] + NewSight(ops, op, target)
  {
    SightsGrow(ops, op, target);
    RunRemembers(ops);
    InboxGrows(Run(ops), op, target, q);
    if Carries(op) {
      assert (ops + [op])[..|ops|] == ops;
      NewIsFirst(ops, op);
    }
  }

  lemma SuffixGrows<T>(s: seq<T>, n: nat, more: seq<T>)
    requires n <= |s|
    ensures (s + more)[n..] == s[n..] + more
  {
  }

  lemma FollowsOn<T>(start: seq<T>, mid: seq<T>, end: seq<T>, s: seq<T>, n: nat, more: seq<T>)
    requires n <= |s| && mid == start + s[n..] && end == mid + more
    ensures end == start + (s + more)[n..]
  {
    SuffixGrows(s, n, more);
  }

  lemma {:induction false} InboxFollows(before: seq<Op>, later: seq<Op>, target: Target, q: Handle)
    requires EchoesInWindow(before + later) && q in Subscribers(Run(before), target)
    ensures var h, h' := Run(before), Run(before + later);
            && q in h.inboxes && q in h'.inboxes && q in Subscribers(h', target)
            && |FirstSights(before, target)| <= |FirstSights(before + later, target)|
            && h'.inboxes[q] == h.inboxes[q] + FirstSights(before + later, target)[|FirstSights(before, target)|..]
    decreases |later|
  {
    if later == [] {
      assert before + later == before;
      RunRemembers(before);
    } else {
      var mid, op := before + later[..|later| - 1], later[|later| - 1];
      assert before + later == mid + [op];
      SightsGrow(mid, op, target);
      InboxFollows(before, later[..|later| - 1], target, q);
      InboxStep(mid, op, target, q);
      FollowsOn(Run(before).inboxes[q], Run(mid).inboxes[q], Run(before + later).inboxes[q], FirstSights(mid, target),
                |FirstSights(before, target)|, NewSight(mid, op, target));
    }
  }

  // ---- buffers ----

  lemma NewestAppend<T>(s: seq<T>, x: T, n: nat)
    ensures Newest(Newest(s, n) + [x], n) == Newest(s + [x], n)
  {
  }

  /** The buffer of a run is its newest 2000 local publications since it was last dropped. */
  lemma {:induction false} BufferIsNewest(ops: seq<Op>, at: Channel)
    ensures Buffer(Run(ops), at) == Newest(SentSince(ops, at), 2_000)
    decreases |ops|
  {
    if ops != [] {
      var before, op := ops[..|ops| - 1], ops[|ops| - 1];
      BufferIsNewest(before, at);
      if op.Sends? && op.target == RunData(at) {
        NewestAppend(SentSince(before, at), op.m, BUFFERED);
      }
      BufferByAct(Run(before), op, at);
    }
  }

  lemma BufferByAct(h: Hub, op: Op, at: Channel)
    ensures Buffer(Act(h, op), at) ==
            if op == Drops(at) then []
            else if op.Sends? && op.target == RunData(at) then Newest(Buffer(h, at) + [op.m], BUFFERED)
            else Buffer(h, at)
  {
  }

  /** A drop forgets publications exactly if there were any. */
  lemma {:induction false} SinceIsTail(ops: seq<Op>, at: Channel)
    ensures IsTail(SentSince(ops, at), Sent(ops, RunData(at)))
    ensures |SentSince(ops, at)| == |Sent(ops, RunData(at))| <==> !DropsAway(ops, at)
    decreases |ops|
  {
    if ops != [] {
      var before, op := ops[..|ops| - 1], ops[|ops| - 1];
      SinceIsTail(before, at);
      if op.Sends? && op.target == RunData(at) {
        TailAppend(SentSince(before, at), Sent(before, RunData(at)), op.m);
      }
    }
  }

  predicate Ascending(ms: seq<Message>) {
    && (forall i :: 0 <= i < |ms| ==> ms[i].id.Some?)
    && (forall i, j :: 0 <= i < j < |ms| ==> After(ms[j].id.value, ms[i].id.value))
  }

  /** On a buffer with ascending ids the replay is exactly what follows the client's cursor. */
  lemma {:induction false} ReplayIsSuffix(buffer: seq<Message>, cursor: Stamp, k: nat)
    requires Ascending(buffer) && k <= |buffer|
    requires forall i :: 0 <= i < |buffer| ==> (After(buffer[i].id.value, cursor) <==> i >= k)
    ensures Replay(buffer, Some(cursor)) == buffer[k..]
    decreases |buffer|
  {
    if buffer != [] {
      var init := buffer[..|buffer| - 1];
      if k == |buffer| {
        ReplayIsSuffix(init, cursor, k - 1);
      } else {
        ReplayIsSuffix(init, cursor, k);
        assert buffer[k..] == init[k..] + [buffer[|buffer| - 1]];
      }
    }
  }

  lemma {:induction false} ReplayAll(buffer: seq<Message>)
    ensures Replay(buffer, None) == buffer
    decreases |buffer|
  {
    if buffer != [] {
      ReplayAll(buffer[..|buffer| - 1]);
      assert buffer == buffer[..|buffer| - 1] + [buffer[|buffer| - 1]];
    }
  }

  /** A subscriber that joined after `before` holds the replay of the buffered suffix followed by every later message of
      its run exactly once, in order, however many echoes arrived in between. */
  lemma SubscriberSeesEachOnce(before: seq<Op>, later: seq<Op>, at: Channel, q: Handle, afterId: Option<Stamp>)
    requires q !in Run(before).inboxes
    requires EchoesInWindow(before + [Joins(RunData(at), q, true, afterId)] + later)
    ensures var ops := before + [Joins(RunData(at), q, true, afterId)] + later;
            && q in Run(ops).inboxes
            && |FirstSights(before, RunData(at))| <= |FirstSights(ops, RunData(at))|
            && Run(ops).inboxes[q] == Replay(Newest(SentSince(before, at), 2_000), afterId)
                                      + FirstSights(ops, RunData(at))[|FirstSights(before, RunData(at))|..]
  {
    var joined := before + [Joins(RunData(at), q, true, afterId)];
    assert joined[..|joined| - 1] == before;
    BufferIsNewest(before, at);
    InboxFollows(joined, later, RunData(at), q);
  }

  lemma {:induction false} FirstSightsConcat(before: seq<Op>, later: seq<Op>, target: Target)
    ensures |FirstSights(before, target)| <= |FirstSights(before + later, target)|
    ensures FirstSights(before + later, target)[..|FirstSights(before, target)|] == FirstSights(before, target)
    decreases |later|
  {
    if later == [] {
      assert before + later == before;
    } else {
      FirstSightsConcat(before, later[..|later| - 1], target);
      assert (before + later)[..|before + later| - 1] == before + later[..|later| - 1];
    }
  }

  /** Local publications with keys of their own, and messages heard only as their echoes. */
  ghost predicate OwnTraffic(ops: seq<Op>)
    decreases |ops|
  {
    ops != [] ==>
      var before, op := ops[..|ops| - 1], ops[|ops| - 1];
      && OwnTraffic(before)
      && (op.Sends? ==> OpKey(op).Some? && OpKey(op).value !in Introduced(before))
      && (op.Hears? ==> OpKey(op).Some? && OpKey(op).value in Introduced(before))
  }

  /** Then the first sights are the publications. */
  lemma {:induction false} OwnTrafficSights(ops: seq<Op>, target: Target)
    requires OwnTraffic(ops)
    ensures FirstSights(ops, target) == Sent(ops, target)
    decreases |ops|
  {
    if ops != [] {
      OwnTrafficSights(ops[..|ops| - 1], target);
    }
  }

  /** With distinct ids a subscriber without a cursor repeats nothing, and it misses nothing exactly if there were up to
      2000 messages before it joined and no drop of the buffer had forgotten any. */
  lemma SubscriberMissesNothing(before: seq<Op>, later: seq<Op>, at: Channel, q: Handle)
    requires var ops := before + [Joins(RunData(at), q, true, None)] + later;
             OwnTraffic(ops) && EchoesInWindow(ops)
    requires q !in Run(before).inboxes
    ensures var ops := before + [Joins(RunData(at), q, true, None)] + later;
            && q in Run(ops).inboxes && IsTail(Run(ops).inboxes[q], Sent(ops, RunData(at)))
            && (Run(ops).inboxes[q] == Sent(ops, RunData(at))
                <==> |Sent(before, RunData(at))| <= 2_000 && !DropsAway(before, at))
  {
    var ops := before + [Joins(RunData(at), q, true, None)] + later;
    SubscriberSeesEachOnce(before, later, at, q, None);
    var held := Newest(SentSince(before, at), BUFFERED);
    ReplayAll(held);
    SightsAreSent(before, [Joins(RunData(at), q, true, None)], later, RunData(at));
    SinceIsTail(before, at);
    HeldIsTail(held, SentSince(before, at), Sent(before, RunData(at)), Run(ops).inboxes[q][|held|..]);
  }

  lemma HeldIsTail(held: seq<Message>, since: seq<Message>, sent: seq<Message>, more: seq<Message>)
    requires held == Newest(since, BUFFERED) && IsTail(since, sent)
    ensures IsTail(held + more, sent + more)
    ensures held + more == sent + more <==> |sent| <= BUFFERED && |since| == |sent|
  {
    if |sent| <= BUFFERED && |since| == |sent| {
      assert since == sent;
    } else {
      assert |held| < |sent|;
    }
  }

  lemma SightsAreSent(before: seq<Op>, join: seq<Op>, later: seq<Op>, target: Target)
    requires OwnTraffic(before + join + later)
    ensures var ops := before + join + later;
            && |FirstSights(before, target)| <= |FirstSights(ops, target)|
            && Sent(ops, target) == Sent(before, target) + FirstSights(ops, target)[|FirstSights(before, target)|..]
  {
    assert before + (join + later) == before + join + later;
    OwnTrafficPrefix(before, join + later);
    OwnTrafficSights(before + join + later, target);
    OwnTrafficSights(before, target);
    FirstSightsConcat(before, join + later, target);
  }

  lemma {:induction false} OwnTrafficPrefix(before: seq<Op>, later: seq<Op>)
    requires OwnTraffic(before + later)
    ensures OwnTraffic(before)
    decreases |later|
  {
    if later == [] {
      assert before + later == before;
    } else {
      assert (before + later)[..|before + later| - 1] == before + later[..|later| - 1];
      OwnTrafficPrefix(before, later[..|later| - 1]);
    }
  }
}
