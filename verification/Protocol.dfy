/** The whole system as a state machine: every transaction of every worker, API process and reaper
    is one atomic step, and a history is any sequence of steps. */
module Protocol {
  import opened Wrappers
  import opened RunState
  import opened Tables
  import opened EventLog
  import opened RunStore
  import opened CheckpointMutations
  import opened CoreApi

  /** The four ways in which a worker finishes a run. */
  datatype Ending = Completes | AwaitsHuman | StopsCancelled | RunsOutOfTime

  function EndStatus(e: Ending): RunStatus {
    match e
    case Completes => Success
    case AwaitsHuman => Interrupted
    case StopsCancelled => Interrupted
    case RunsOutOfTime => Timeout
  }

  function EndReason(e: Ending): RunReason {
    match e
    case Completes => Completed
    case AwaitsHuman => HitlInterrupt
    case StopsCancelled => CancelRequested
    case RunsOutOfTime => TimedOut
  }

  datatype Step =
    | Tick(delay: Time)
    | OpenThread(t: ThreadId, projection: Projection)
    | EditThread(t: ThreadId, projection: Projection)
    | Submit(cfg: Config, r: RunId, sub: Submission)
    | ClaimNext(cfg: Config, r: RunId, owner: Owner)
    | RenewLease(cfg: Config, r: RunId, owner: Owner)
    | FinishRun(r: RunId, owner: Owner, ending: Ending, payload: Option<Json>, preceding: seq<Plain>)
    | FailRun(cfg: Config, r: RunId, owner: Owner, infrastructure: bool)
    | ShutDown(cfg: Config, r: RunId, owner: Owner, drained: bool)
    | ReapRun(cfg: Config, r: RunId)
    | CancelRun(r: RunId)
    | RollBack(r: RunId)
    | ReleaseLease(r: RunId, owner: Owner)
    | CompleteRollBack(r: RunId, worker: Option<Owner>)
    | WorkerWrite(w: Writer, at: Resource, change: Change)
    | StateUpdate(at: Resource, onBehalf: Option<RunId>, change: Change)
    | KeepLatest(t: ThreadId)
    | Publish(r: RunId, notices: seq<Plain>)
    | PublishDeltas(r: RunId, notices: seq<Plain>)
    | PublishRunless(t: ThreadId, notice: Plain)
    | Retain(r: RunId, cutoff: Time, batch: nat, ids: set<EventId>)
    | ReorderQueue(t: ThreadId, expected: seq<RunId>, requested: seq<RunId>)

  /** What the step's transaction does; an aborted one leaves the database alone. */
  ghost function Transact(s: State, step: Step): Tx {
    match step
    case Tick(d) => Commit(if d >= 0.0 then s.(clock := s.clock + d) else s)
    case OpenThread(t, p) => Commit(if t in s.threads then s else s.(threads := s.threads[t := Thread(p, 0, 0)]))
    case EditThread(t, p) => Commit(if t in s.threads then SetProjection(s, t, p) else s)
    case Submit(cfg, r, sub) => Create(s, cfg, r, sub)
    case ClaimNext(cfg, r, owner) => ClaimRun(s, cfg, r, owner)
    case RenewLease(cfg, r, owner) => Commit(Renew(s, cfg, r, owner))
    case FinishRun(r, owner, e, payload, preceding) => Finish(s, r, owner, EndStatus(e), EndReason(e), payload, preceding)
    case FailRun(cfg, r, owner, infra) =>
      Fail(s, cfg, r, owner, infra, if infra then InfrastructureError else BusinessError)
    case ShutDown(cfg, r, owner, drained) => RequeueForShutdown(s, cfg, r, owner, drained)
    case ReapRun(cfg, r) => Reap(s, cfg, r)
    case CancelRun(r) => Cancel(s, r)
    case RollBack(r) => RequestRollback(s, r)
    case ReleaseLease(r, owner) => Commit(ReleaseCancelled(s, r, owner))
    case CompleteRollBack(r, worker) => Commit(CompleteRollback(s, r, worker))
    case WorkerWrite(w, at, change) => FencedWrite(s, w, at, change)
    case StateUpdate(at, onBehalf, change) => UnfencedWrite(s, at, onBehalf, change)
    case KeepLatest(t) => PruneCheckpoints(s, t)
    case Publish(r, notices) => RecordAll(s, r, notices)
    case PublishDeltas(r, notices) => RecordDeltas(s, r, None, notices)
    case PublishRunless(t, n) => RecordEvent(s, None, Some(t), n)
    case Retain(r, cutoff, batch, ids) => Commit(PruneEvents(s, r, cutoff, batch, ids))
    case ReorderQueue(t, expected, requested) => Reorder(s, t, expected, requested)
  }

  ghost function Apply(s: State, step: Step): State {
    After(s, Transact(s, step))
  }

  ghost function Exec(s: State, steps: seq<Step>): State
    decreases |steps|
  {
    if steps == [] then s else Exec(Apply(s, steps[0]), steps[1..])
  }

  function Init(clock: Time): State {
    State(clock, 0, {}, map[], map[], map[], map[], map[], map[], map[], [], [], [])
  }

  lemma {:induction false} ExecConcat(s: State, a: seq<Step>, b: seq<Step>)
    ensures Exec(s, a + b) == Exec(Exec(s, a), b)
    decreases |a|
  {
    if a == [] {
      assert a + b == b;
    } else {
      assert (a + b)[1..] == a[1..] + b;
      ExecConcat(Apply(s, a[0]), a[1..], b);
    }
  }
}
