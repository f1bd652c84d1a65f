/** The run status machine that API processes and workers share. */
module RunState {

  datatype RunStatus = Pending | Running | Success | Error | Timeout | Interrupted

  datatype RunReason =
    | Completed
    | BusinessError
    | InfrastructureError
    | Retry
    | CancelRequested
    | HitlInterrupt
    | ShutdownRequeue
    | TimedOut
    | Rollback

  const MAX_INFRASTRUCTURE_RETRIES: nat := 3

  predicate IsTerminal(status: RunStatus) {
    status in {Success, Error, Timeout, Interrupted}
  }

  function Allowed(current: RunStatus): set<RunStatus> {
    match current
    case Pending => {Pending, Running, Error, Interrupted}
    case Running => {Pending, Running, Success, Error, Timeout, Interrupted}
    case Interrupted => {Interrupted, Pending}
    case Success => {Success}
    case Error => {Error}
    case Timeout => {Timeout}
  }

  /** The outcome of validating one status change. */
  datatype Transition =
    | Valid(status: RunStatus, reason: RunReason, retryCount: nat)
    | InvalidTransition

  function Transit(current: RunStatus, target: RunStatus, reason: RunReason, retryCount: int): Transition {
    if target !in Allowed(current) then InvalidTransition
    else if retryCount < 0 || retryCount > MAX_INFRASTRUCTURE_RETRIES then InvalidTransition
    else if target == Interrupted && reason !in {CancelRequested, HitlInterrupt, ShutdownRequeue, Rollback} then
      InvalidTransition
    else if target == Success && reason != Completed then InvalidTransition
    else Valid(target, reason, retryCount)
  }

  /** A status path each of whose moves some `Transit` accepts. */
  ghost predicate StatusPath(path: seq<RunStatus>) {
    forall i :: 0 <= i < |path| - 1 ==> path[i + 1] in Allowed(path[i])
  }

  /** Success, error and timeout are absorbing along every accepted path. */
  lemma {:induction false} FinalStatusAbsorbs(path: seq<RunStatus>, i: nat, j: nat)
    requires StatusPath(path) && i <= j < |path|
    requires path[i] in {Success, Error, Timeout}
    ensures path[j] == path[i]
    decreases j - i
  {
    if i < j {
      assert path[i + 1] in Allowed(path[i]);
      FinalStatusAbsorbs(path, i + 1, j);
    }
  }

  /** Only execution succeeds or times out: a path from pending to either visits running in between. */
  lemma {:induction false} OnlyRunningCompletes(path: seq<RunStatus>, n: nat)
    requires StatusPath(path) && n < |path|
    requires path[0] in {Pending, Interrupted} && path[n] in {Success, Timeout}
    ensures exists k :: 0 < k < n && path[k] == Running
  {
    if n == 0 {
    } else if path[1] == Running {
      assert 1 != n;
    } else {
      assert path[1] in Allowed(path[0]);
      if path[1] == Error {
        FinalStatusAbsorbs(path, 1, n);
      } else {
        var tail := path[1..];
        forall i | 0 <= i < |tail| - 1
          ensures tail[i + 1] in Allowed(tail[i])
        {
          assert path[i + 2] in Allowed(path[i + 1]);
        }
        OnlyRunningCompletes(tail, n - 1);
        var k :| 0 < k < n - 1 && tail[k] == Running;
        assert path[k + 1] == Running;
      }
    }
  }
}
