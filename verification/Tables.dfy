/** The PostgreSQL rows that the run protocol reads and writes, as one value. */
module Tables {
  import opened Wrappers
  import opened RunState

  type RunId = nat
  type ThreadId = nat
  type Owner = string
  type Json = string
  type Time = real
  type EventId = nat

  /** The checkpoint namespace of a run: its thread, or the run itself when it has no thread. */
  datatype Resource = OfThread(thread: ThreadId) | OfRun(run: RunId)

  /** The thread columns that a rollback restores. */
  datatype Projection = Projection(
    values: Option<Json>,
    interrupts: map<string, Json>,
    status: string,
    error: Option<Json>,
    graphId: Option<string>,
    stateUpdatedAt: Option<Time>)

  datatype Thread = Thread(projection: Projection, eventSeq: nat, eventPrunedThrough: nat)

  datatype Run = Run(
    thread: Option<ThreadId>,
    assistant: nat,
    status: RunStatus,
    reason: Option<RunReason>,
    retryCount: nat,
    maxAttempts: nat,
    nextAttemptAt: Option<Time>,
    leaseOwner: Option<Owner>,
    leaseExpiresAt: Option<Time>,
    eventSeq: nat,
    eventPrunedThrough: nat,
    resume: bool,
    drained: bool,
    streamResumable: bool,
    idempotencyKey: Option<string>,
    queuePosition: nat,
    createdAt: Time,
    updatedAt: Time)

  datatype Lease = Lease(owner: Owner, expiresAt: Time, generation: nat)

  /** Checkpoint ids are time-ordered identifiers, so their order is an order on numbers. */
  datatype CheckpointKey = CheckpointKey(ns: string, id: nat)

  datatype Checkpoint = Checkpoint(
    parent: Option<nat>,
    channelValues: set<string>,
    channelVersions: map<string, string>,
    deltaChannels: set<string>,
    runId: Option<RunId>,
    body: Json)

  datatype WriteKey = WriteKey(at: CheckpointKey, task: string, index: int)

  datatype Blob = Blob(ns: string, channel: string, version: string)

  /** The checkpoint and pending-write rows of one resource. */
  datatype History = History(checkpoints: map<CheckpointKey, Checkpoint>, writes: map<WriteKey, Json>)

  datatype Baseline = Baseline(thread: ThreadId, history: History, projection: Projection, capturedAt: nat)

  datatype Event = Event(
    run: Option<RunId>,
    thread: Option<ThreadId>,
    sequence: nat,
    topic: string,
    namespace: seq<string>,
    payload: Json,
    terminal: bool,
    createdAt: Time)

  /** History variables: what was claimed and which worker checkpoint writes were accepted, in order. */
  datatype Claim = Claim(resource: Resource, run: RunId, generation: nat)

  datatype Accepted = Accepted(resource: Resource, run: RunId, generation: nat, claim: int)

  /** The committed database. `issued` holds every run id ever handed out, `captures` the strictly
      increasing capture clock, and `inserted`, `claims` and `accepted` are append-only histories
      that no operation reads back. */
  datatype State = State(
    clock: Time,
    captures: nat,
    issued: set<RunId>,
    runs: map<RunId, Run>,
    threads: map<ThreadId, Thread>,
    leases: map<RunId, Lease>,
    baselines: map<RunId, Baseline>,
    tables: map<Resource, History>,
    blobs: map<Resource, set<Blob>>,
    events: map<EventId, Event>,
    inserted: seq<Event>,
    claims: seq<Claim>,
    accepted: seq<Accepted>)

  datatype Failure =
    | RunMissing
    | ThreadMissing
    | NotOwner
    | BadRequest
    | IllegalTransition
    | SubmissionConflict
    | CheckpointConflict
    | QueueChanged

  /** One transaction: it commits a new database or leaves the old one in place. */
  datatype Tx = Commit(db: State) | Abort(error: Failure)

  function After(s: State, tx: Tx): State {
    match tx
    case Commit(db) => db
    case Abort(_) => s
  }

  /** Deployment settings of one `RunRepository`. */
  datatype Settings = Settings(leaseSeconds: Time, maxAttempts: nat, retryBase: Time)

  predicate ValidSettings(c: Settings) {
    c.leaseSeconds >= 5.0 && 1 <= c.maxAttempts <= MAX_INFRASTRUCTURE_RETRIES && c.retryBase >= 0.1
  }

  type Config = c: Settings | ValidSettings(c) witness Settings(60.0, 3, 1.0)

  const EMPTY_HISTORY := History(map[], map[])

  function ResourceOf(r: RunId, run: Run): Resource {
    match run.thread
    case Some(t) => OfThread(t)
    case None => OfRun(r)
  }

  function HistoryOf(s: State, at: Resource): History {
    if at in s.tables then s.tables[at] else EMPTY_HISTORY
  }

  /** Executing, or waiting for its rollback. */
  predicate Active(run: Run) {
    run.status == Running || run.reason == Some(Rollback)
  }

  predicate OtherActive(runs: map<RunId, Run>, t: ThreadId, except: RunId) {
    exists q :: q in runs && q != except && runs[q].thread == Some(t) && Active(runs[q])
  }

  predicate AnyActive(runs: map<RunId, Run>, t: ThreadId) {
    exists q :: q in runs && runs[q].thread == Some(t) && Active(runs[q])
  }

  function SetRun(s: State, r: RunId, run: Run): State {
    s.(runs := s.runs[r := run])
  }

  /** Rewrites a run row and drops its lease row. */
  function Unlease(s: State, r: RunId, run: Run): State {
    s.(runs := s.runs[r := run], leases := s.leases - {r})
  }

  function SetProjection(s: State, t: ThreadId, p: Projection): State
    requires t in s.threads
  {
    s.(threads := s.threads[t := s.threads[t].(projection := p)])
  }

  /** Sets the status of the run's thread when it has one that exists. */
  function SetThreadStatus(s: State, thread: Option<ThreadId>, status: string): State {
    if thread.Some? && thread.value in s.threads then
      SetProjection(s, thread.value, s.threads[thread.value].projection.(status := status))
    else s
  }
}
