/** The readiness poller: after an app update it polls the new revision until
    the revision runs, fails, turns out inactive, or the caller cancels.

    One loop iteration is the pure function `Step` over one `Observation` (what
    the remote calls of that iteration returned). `Run` iterates it over a
    finite sequence of observations and reports `StillPolling` when they run
    out, standing for a loop that has not yet ended. */
module Readiness {
  import opened Wrappers
  import opened Errors
  import opened Decimal
  import opened Resources
  import opened Replicas
  import opened Service

  const StatusPrefix: string := "Waiting for revision to be ready"

  /** Sleep lengths, in seconds, and the poll count after which the longer one is used. */
  const InitialDelay: nat := 3
  const SteppedDelay: nat := 10
  const StepUpAfter: nat := 20

  const TroubleshootingUrl: string := "https://learn.microsoft.com/azure/container-apps/troubleshooting"

  /** The revision being waited on. */
  datatype PollTarget = PollTarget(
    subscriptionId: string,
    resourceGroup: string,
    appName: string,
    revisionName: string)

  /** What one iteration's remote calls returned. */
  datatype Observation = Observation(
    /** `GetRevision` of the target revision. */
    revision: Result<Revision, Error>,
    /** `RunningStateDetails` of the same raw response read as the extended
        projection; None when the response does not decode as that. */
    details: Option<string>,
    /** `ListReplicas` of the target revision. */
    replicas: Result<seq<Replica>, Error>,
    /** Some(e) when the context is done before the sleep elapses, e being `ctx.Err()`. */
    cancellation: Option<ContextError>)

  /** The loop variables: the last status line emitted, the sleep length and
      the number of completed sleeps. */
  datatype PollState = PollState(prevStatus: string, delay: nat, pollCount: nat)

  const Start: PollState := PollState(StatusPrefix, InitialDelay, 0)

  /** One iteration either ends the loop (returning `err`, None being nil) or
      sleeps `slept` seconds and continues from `next`. `logged` holds what it
      passed to the progress callback; `listedReplicas` whether it got as far
      as listing replicas. */
  datatype StepResult =
    | Stop(err: Option<Error>, logged: seq<string>, listedReplicas: bool)
    | Continue(next: PollState, logged: seq<string>, slept: nat)

  /** A finished or unfinished run: how it exited, every progress line, and the
      length of every completed sleep, in order. */
  datatype PollRun = PollRun(exit: Exit, log: seq<string>, sleeps: seq<nat>)

  // ---------------------------------------------------------------------------
  // Reading an observation

  /** The revision's active flag, when the call succeeded and the flag is set. */
  function ActiveFlag(o: Observation): Option<bool> {
    if o.revision.Success? && o.revision.value.properties.Some?
    then o.revision.value.properties.value.active
    else None
  }

  /** The revision's running state, when the call succeeded and the state is set. */
  function RunningStateOf(o: Observation): Option<string> {
    if o.revision.Success? && o.revision.value.properties.Some?
    then o.revision.value.properties.value.runningState
    else None
  }

  predicate IsFailedState(s: string) {
    s == RevisionFailed || s == RevisionStopped || s == RevisionDegraded
  }

  /** Active and running: the wait is over and has succeeded. */
  predicate ObservedRunning(o: Observation) {
    ActiveFlag(o) == Some(true) && RunningStateOf(o) == Some(RevisionRunning)
  }

  /** Active and in a failed state: the wait is over and has failed. */
  predicate ObservedFailed(o: Observation) {
    ActiveFlag(o) == Some(true) && RunningStateOf(o).Some? && IsFailedState(RunningStateOf(o).value)
  }

  /** Active and in any state that is neither running nor failed (Processing,
      Unknown, or one the service does not know): keep polling. */
  predicate ObservedPending(o: Observation) {
    && ActiveFlag(o) == Some(true)
    && RunningStateOf(o).Some?
    && RunningStateOf(o).value != RevisionRunning
    && !IsFailedState(RunningStateOf(o).value)
  }

  /** The iteration completes its sleep and the loop goes round again. */
  predicate Proceeds(o: Observation) {
    ObservedPending(o) && o.replicas.Success? && o.cancellation.None?
  }

  // ---------------------------------------------------------------------------
  // Messages

  /** The per-iteration progress line. */
  function StatusLine(running: nat, ready: nat, total: nat): (s: string)
    ensures |s| > |StatusPrefix| && s[..|StatusPrefix|] == StatusPrefix
  {
    StatusPrefix + ": " + NatToString(running) + "/" + NatToString(total)
    + " replicas running, " + NatToString(ready) + "/" + NatToString(total) + " replicas ready"
  }

  /** The status line for a replica listing. */
  function ReplicaStatus(rs: seq<Replica>): string {
    StatusLine(RunningCount(rs), ReadyCount(rs), |rs|)
  }

  function RevisionManagementUrl(svc: Service, t: PollTarget): string {
    svc.portalUrlBase + "/#@/resource/subscriptions/" + t.subscriptionId
    + "/resourceGroups/" + t.resourceGroup
    + "/providers/Microsoft.App/containerApps/" + t.appName + "/revisionManagement"
  }

  /** The portal link of the suggestion, or a plain description in demo mode. */
  function RevisionManagementLink(svc: Service, t: PollTarget): string {
    if svc.demoMode then "Revision Management for " + t.appName + " in Azure Portal"
    else svc.formatLink(RevisionManagementUrl(svc, t))
  }

  function Suggestion(svc: Service, t: PollTarget): string {
    "To view logs:"
    + "\n1. Visit " + RevisionManagementLink(svc, t)
    + "\n2. Click on revision " + "'" + t.revisionName + "'"
    + "\n3. View console and system logs"
    + "\nFor more troubleshooting information, visit " + svc.formatLink(TroubleshootingUrl)
  }

  /** The ", details" suffix, present only when the details are non-empty. */
  function DetailsSuffix(details: Option<string>): (suffix: string)
    ensures suffix == "" <==> details.None? || details.value == ""
    ensures suffix != "" ==> suffix == ", " + details.value
  {
    if details.Some? && details.value != "" then ", " + details.value else ""
  }

  function FailedStateError(svc: Service, t: PollTarget, state: string, details: Option<string>): Error {
    WithSuggestion(
      Plain("revision '" + t.revisionName + "' is in a " + state + " state" + DetailsSuffix(details)),
      Suggestion(svc, t))
  }

  // ---------------------------------------------------------------------------
  // One iteration

  function Step(svc: Service, t: PollTarget, st: PollState, o: Observation): (r: StepResult)
    // The revision could not be read.
    ensures o.revision.Failure? ==>
      r == Stop(Some(Wrap("getting revision '" + t.revisionName + "'", o.revision.error)), [], false)
    // Inactive fails before the running state is looked at, whatever it is.
    ensures ActiveFlag(o) == Some(false) ==>
      r == Stop(Some(Plain("revision '" + t.revisionName + "' is not active")), [], false)
    ensures ObservedRunning(o) ==> r == Stop(None, [], false)
    ensures ObservedFailed(o) ==>
      && r.Stop? && r.err.Some? && r.err.value.WithSuggestion? && !r.listedReplicas
      && r.err.value.suggestion == Suggestion(svc, t)
      && Message(r.err.value)
         == "revision '" + t.revisionName + "' is in a " + RunningStateOf(o).value + " state" + DetailsSuffix(o.details)
    // A nil active flag, or a nil running state on an active revision, is dereferenced.
    ensures o.revision.Success? && (ActiveFlag(o).None? || (ActiveFlag(o) == Some(true) && RunningStateOf(o).None?)) ==>
      r == Stop(Some(Panic(NilDereference)), [], false)
    // nil is returned exactly for an active, running revision.
    ensures r.Stop? ==> (r.err.None? <==> ObservedRunning(o))
    // Replicas are listed exactly on iterations that keep polling.
    ensures (r.Continue? || r.listedReplicas) <==> ObservedPending(o)
    ensures r.Continue? <==> Proceeds(o)
    ensures ObservedPending(o) && o.replicas.Failure? ==>
      r == Stop(Some(Wrap("listing replicas", o.replicas.error)), [], true)
    // Cancellation returns ctx.Err() itself, not wrapped.
    ensures ObservedPending(o) && o.replicas.Success? && o.cancellation.Some? ==>
      r.Stop? && r.err == Some(Context(o.cancellation.value))
    // A status line is emitted only when it differs from the last one emitted.
    ensures ObservedPending(o) && o.replicas.Success? ==>
      var status := ReplicaStatus(o.replicas.value);
      && (r.logged == [] <==> status == st.prevStatus)
      && (r.logged != [] ==> r.logged == [status])
    ensures !(ObservedPending(o) && o.replicas.Success?) ==> r.logged == []
    // The sleep: 10s once more than 20 sleeps are done, the current delay before.
    ensures r.Continue? ==>
      && r.next.prevStatus == ReplicaStatus(o.replicas.value)
      && r.next.pollCount == st.pollCount + 1
      && r.next.delay == r.slept
      && r.slept == (if st.pollCount > StepUpAfter then SteppedDelay else st.delay)
  {
    match o.revision
    case Failure(e) => Stop(Some(Wrap("getting revision '" + t.revisionName + "'", e)), [], false)
    case Success(rev) =>
      if rev.properties.None? || rev.properties.value.active.None? then
        Stop(Some(Panic(NilDereference)), [], false)
      else if !rev.properties.value.active.value then
        Stop(Some(Plain("revision '" + t.revisionName + "' is not active")), [], false)
      else if rev.properties.value.runningState.None? then
        Stop(Some(Panic(NilDereference)), [], false)
      else
        var state := rev.properties.value.runningState.value;
        if IsFailedState(state) then
          Stop(Some(FailedStateError(svc, t, state, o.details)), [], false)
        else if state == RevisionRunning then
          Stop(None, [], false)
        else
          match o.replicas
          case Failure(e) => Stop(Some(Wrap("listing replicas", e)), [], true)
          case Success(rs) =>
            var status := ReplicaStatus(rs);
            var logged := if status != st.prevStatus then [status] else [];
            var delay := if st.pollCount > StepUpAfter then SteppedDelay else st.delay;
            match o.cancellation
            case Some(c) => Stop(Some(Context(c)), logged, true)
            case None => Continue(PollState(status, delay, st.pollCount + 1), logged, delay)
  }

  // ---------------------------------------------------------------------------
  // The loop

  function Run(svc: Service, t: PollTarget, st: PollState, obs: seq<Observation>): (r: PollRun)
    ensures |r.sleeps| <= |obs|
    ensures |r.log| <= |obs|
    decreases |obs|
  {
    if obs == [] then PollRun(StillPolling, [], [])
    else
      match Step(svc, t, st, obs[0])
      case Stop(err, logged, _) => PollRun(Returned(err), logged, [])
      case Continue(next, logged, slept) =>
        var rest := Run(svc, t, next, obs[1..]);
        PollRun(rest.exit, logged + rest.log, [slept] + rest.sleeps)
  }

  /** `waitForRevisionReady`: announce the wait, then poll. */
  function WaitForRevisionReady(svc: Service, t: PollTarget, obs: seq<Observation>): (r: PollRun)
    ensures |r.log| >= 1 && r.log[0] == StatusPrefix
  {
    var run := Run(svc, t, Start, obs);
    PollRun(run.exit, [StatusPrefix] + run.log, run.sleeps)
  }

  /** Index of the first observation on which the loop stops, or the number of
      observations when it stops on none. */
  function FirstStop(obs: seq<Observation>): (k: nat)
    ensures k <= |obs|
    ensures forall i :: 0 <= i < k ==> Proceeds(obs[i])
    ensures k < |obs| ==> !Proceeds(obs[k])
  {
    if obs == [] || !Proceeds(obs[0]) then 0 else 1 + FirstStop(obs[1..])
  }
}
