/** Properties of the readiness poller over whole runs. */
module ReadinessProofs {
  import opened Wrappers
  import opened Errors
  import opened Decimal
  import opened Resources
  import opened Service
  import opened Readiness

  /** Whether an iteration ends the loop, and how, does not depend on the loop
      variables: only the log and the sleep do. */
  lemma StepStopIgnoresState(svc: Service, t: PollTarget, s1: PollState, s2: PollState, o: Observation)
    requires Step(svc, t, s1, o).Stop?
    ensures Step(svc, t, s2, o).Stop? && Step(svc, t, s2, o).err == Step(svc, t, s1, o).err
  {
  }

  /** The loop stops at the first observation that does not let it proceed,
      with that iteration's result, after one completed sleep per earlier
      observation; it is still polling exactly when every observation proceeds. */
  lemma {:induction false} RunStopsAtFirstStop(svc: Service, t: PollTarget, st: PollState, obs: seq<Observation>)
    ensures var r := Run(svc, t, st, obs);
      && |r.sleeps| == FirstStop(obs)
      && (r.exit.StillPolling? <==> FirstStop(obs) == |obs|)
      && (FirstStop(obs) < |obs| ==> r.exit == Returned(Step(svc, t, st, obs[FirstStop(obs)]).err))
    decreases |obs|
  {
    if obs != [] && Proceeds(obs[0]) {
      var next := Step(svc, t, st, obs[0]).next;
      RunStopsAtFirstStop(svc, t, next, obs[1..]);
      var k := FirstStop(obs);
      if k < |obs| {
        assert obs[1..][k - 1] == obs[k];
        StepStopIgnoresState(svc, t, next, st, obs[k]);
      }
    }
  }

  /** The wait returns nil exactly when the first observation that ends the
      loop shows an active, running revision. */
  lemma {:induction false} WaitSucceedsIffRunning(svc: Service, t: PollTarget, obs: seq<Observation>)
    ensures var k := FirstStop(obs);
      WaitForRevisionReady(svc, t, obs).exit.Succeeded() <==> k < |obs| && ObservedRunning(obs[k])
  {
    RunStopsAtFirstStop(svc, t, Start, obs);
  }

  /** An inactive revision ends the wait with the "not active" error, whatever
      its running state, at the latest on the first observation showing it. */
  lemma {:induction false} WaitFailsWhenInactive(svc: Service, t: PollTarget, obs: seq<Observation>, i: nat)
    requires i < |obs| && ActiveFlag(obs[i]) == Some(false)
    ensures FirstStop(obs) <= i
    ensures FirstStop(obs) == i ==>
      WaitForRevisionReady(svc, t, obs).exit
      == Returned(Some(Plain("revision '" + t.revisionName + "' is not active")))
  {
    RunStopsAtFirstStop(svc, t, Start, obs);
  }

  /** A failed, stopped or degraded revision ends the wait with an error that
      names the revision and its state, and carries the remediation suggestion. */
  lemma {:induction false} WaitFailsOnFailedState(svc: Service, t: PollTarget, obs: seq<Observation>)
    requires FirstStop(obs) < |obs| && ObservedFailed(obs[FirstStop(obs)])
    ensures var o := obs[FirstStop(obs)];
      var exit := WaitForRevisionReady(svc, t, obs).exit;
      && exit == Returned(Some(FailedStateError(svc, t, RunningStateOf(o).value, o.details)))
      && Message(exit.err.value)
         == "revision '" + t.revisionName + "' is in a " + RunningStateOf(o).value + " state" + DetailsSuffix(o.details)
  {
    RunStopsAtFirstStop(svc, t, Start, obs);
  }

  /** Cancellation during a sleep returns the context's own error. */
  lemma {:induction false} WaitReturnsCancellation(svc: Service, t: PollTarget, obs: seq<Observation>)
    requires FirstStop(obs) < |obs|
    requires var o := obs[FirstStop(obs)];
      ObservedPending(o) && o.replicas.Success? && o.cancellation.Some?
    ensures WaitForRevisionReady(svc, t, obs).exit
      == Returned(Some(Context(obs[FirstStop(obs)].cancellation.value)))
  {
    RunStopsAtFirstStop(svc, t, Start, obs);
  }

  // ---------------------------------------------------------------------------
  // Backoff

  /** The sleep that follows `pollCount` completed sleeps. */
  function ScheduledDelay(pollCount: nat): nat {
    if pollCount > StepUpAfter then SteppedDelay else InitialDelay
  }

  /** The stored delay agrees with the schedule: it has been raised exactly
      when a sleep was taken after more than 20 completed ones. */
  predicate DelayConsistent(st: PollState) {
    st.delay == (if st.pollCount > StepUpAfter + 1 then SteppedDelay else InitialDelay)
  }

  lemma {:induction false} RunFollowsSchedule(svc: Service, t: PollTarget, st: PollState, obs: seq<Observation>)
    requires DelayConsistent(st)
    ensures forall j :: 0 <= j < |Run(svc, t, st, obs).sleeps| ==>
      Run(svc, t, st, obs).sleeps[j] == ScheduledDelay(st.pollCount + j)
    decreases |obs|
  {
    if obs != [] && Step(svc, t, st, obs[0]).Continue? {
      var step := Step(svc, t, st, obs[0]);
      assert step.slept == ScheduledDelay(st.pollCount);
      assert DelayConsistent(step.next);
      RunFollowsSchedule(svc, t, step.next, obs[1..]);
      var rest := Run(svc, t, step.next, obs[1..]).sleeps;
      var sleeps := Run(svc, t, st, obs).sleeps;
      assert sleeps == [step.slept] + rest;
      forall j | 0 <= j < |sleeps|
        ensures sleeps[j] == ScheduledDelay(st.pollCount + j)
      {
        if j > 0 {
          assert sleeps[j] == rest[j - 1];
          assert rest[j - 1] == ScheduledDelay(step.next.pollCount + (j - 1));
          assert step.next.pollCount + (j - 1) == st.pollCount + j;
        } else {
          assert sleeps[0] == step.slept;
        }
      }
    }
  }

  /** The first 21 sleeps last 3 seconds and every later one 10 seconds, so the
      delay never decreases. */
  lemma {:induction false} WaitBackoffSchedule(svc: Service, t: PollTarget, obs: seq<Observation>)
    ensures var sleeps := WaitForRevisionReady(svc, t, obs).sleeps;
      && (forall j :: 0 <= j < |sleeps| ==> sleeps[j] == (if j <= 20 then 3 else 10))
      && (forall i, j :: 0 <= i <= j < |sleeps| ==> sleeps[i] <= sleeps[j])
  {
    assert DelayConsistent(Start);
    RunFollowsSchedule(svc, t, Start, obs);
    assert WaitForRevisionReady(svc, t, obs).sleeps == Run(svc, t, Start, obs).sleeps;
  }

  // ---------------------------------------------------------------------------
  // Progress

  lemma {:induction false} RunLogDeduplicated(svc: Service, t: PollTarget, st: PollState, obs: seq<Observation>)
    ensures var log := Run(svc, t, st, obs).log;
      && (|log| > 0 ==> log[0] != st.prevStatus)
      && (forall i :: 0 <= i < |log| - 1 ==> log[i] != log[i + 1])
    decreases |obs|
  {
    if obs != [] && Step(svc, t, st, obs[0]).Continue? {
      var step := Step(svc, t, st, obs[0]);
      RunLogDeduplicated(svc, t, step.next, obs[1..]);
      var rest := Run(svc, t, step.next, obs[1..]).log;
      var log := step.logged + rest;
      assert step.next.prevStatus == ReplicaStatus(obs[0].replicas.value);
      if step.logged != [] {
        assert forall i :: 1 <= i < |log| ==> log[i] == rest[i - 1];
      }
    }
  }

  /** The progress callback first hears the bare prefix, and never hears the
      same line twice in a row; after the prefix it hears at most one line per
      iteration. */
  lemma {:induction false} WaitProgressDeduplicated(svc: Service, t: PollTarget, obs: seq<Observation>)
    ensures var log := WaitForRevisionReady(svc, t, obs).log;
      && log[0] == StatusPrefix
      && |log| <= |obs| + 1
      && (forall i :: 0 <= i < |log| - 1 ==> log[i] != log[i + 1])
  {
    RunLogDeduplicated(svc, t, Start, obs);
    var run := Run(svc, t, Start, obs).log;
    var log := [StatusPrefix] + run;
    assert forall i :: 1 <= i < |log| ==> log[i] == run[i - 1];
  }

  lemma Reassociate(a: string, b: string, c: string)
    ensures a + b + c == a + (b + c)
  {
  }

  /** The status line grouped from the right, so that it can be taken apart
      one field at a time. */
  lemma StatusLineRightNested(running: nat, ready: nat, total: nat)
    ensures StatusLine(running, ready, total)
      == StatusPrefix + (": " + (NatToString(running) + ("/" + (NatToString(total)
         + (" replicas running, " + (NatToString(ready) + ("/" + (NatToString(total) + " replicas ready"))))))))
  {
    var r, k, n := NatToString(running), NatToString(ready), NatToString(total);
    var t0 := n + " replicas ready";
    var t1 := "/" + t0;
    var t2 := k + t1;
    var t3 := " replicas running, " + t2;
    var t4 := n + t3;
    var t5 := "/" + t4;
    var t6 := r + t5;
    var f1 := StatusPrefix + ": ";
    var f2 := f1 + r;
    var f3 := f2 + "/";
    var f4 := f3 + n;
    var f5 := f4 + " replicas running, ";
    var f6 := f5 + k;
    var f7 := f6 + "/";
    Reassociate(f7, n, " replicas ready");
    Reassociate(f6, "/", t0);
    Reassociate(f5, k, t1);
    Reassociate(f4, " replicas running, ", t2);
    Reassociate(f3, n, t3);
    Reassociate(f2, "/", t4);
    Reassociate(f1, r, t5);
    Reassociate(StatusPrefix, ": ", t6);
  }

  /** Two status lines are equal exactly when their counts are, so a line is
      emitted exactly when the running, ready or total count changed. */
  lemma StatusLineInjective(r1: nat, k1: nat, n1: nat, r2: nat, k2: nat, n2: nat)
    ensures StatusLine(r1, k1, n1) == StatusLine(r2, k2, n2) <==> r1 == r2 && k1 == k2 && n1 == n2
  {
    if StatusLine(r1, k1, n1) == StatusLine(r2, k2, n2) {
      var v1, v2 := NatToString(n1) + " replicas ready", NatToString(n2) + " replicas ready";
      var u1, u2 := NatToString(k1) + ("/" + v1), NatToString(k2) + ("/" + v2);
      var w1, w2 := NatToString(n1) + (" replicas running, " + u1), NatToString(n2) + (" replicas running, " + u2);
      var x1, x2 := NatToString(r1) + ("/" + w1), NatToString(r2) + ("/" + w2);
      StatusLineRightNested(r1, k1, n1);
      StatusLineRightNested(r2, k2, n2);
      CancelPrefix(StatusPrefix, ": " + x1, ": " + x2);
      CancelPrefix(": ", x1, x2);
      SplitAtSeparator(NatToString(r1), NatToString(r2), "/", w1, w2);
      SplitAtSeparator(NatToString(n1), NatToString(n2), " replicas running, ", u1, u2);
      SplitAtSeparator(NatToString(k1), NatToString(k2), "/", v1, v2);
      NatToStringInjective(r1, r2);
      NatToStringInjective(n1, n2);
      NatToStringInjective(k1, k2);
    }
  }

  /** No status line is the bare prefix, so the first iteration's line is
      always emitted. */
  lemma FirstStatusAlwaysEmitted(svc: Service, t: PollTarget, o: Observation)
    requires ObservedPending(o) && o.replicas.Success?
    ensures Step(svc, t, Start, o).logged == [ReplicaStatus(o.replicas.value)]
  {
  }

  // ---------------------------------------------------------------------------
  // The remediation suggestion

  /** The suggestion opens with the revision-management link, or its demo-mode
      placeholder, and closes with the troubleshooting link. */
  lemma SuggestionParts(svc: Service, t: PollTarget)
    ensures var s := Suggestion(svc, t);
      var head := "To view logs:\n1. Visit " + RevisionManagementLink(svc, t);
      var tail := svc.formatLink(TroubleshootingUrl);
      && |s| >= |head| + |tail|
      && s[..|head|] == head
      && s[|s| - |tail|..] == tail
  {
    var head := "To view logs:" + "\n1. Visit " + RevisionManagementLink(svc, t);
    var p1 := head + "\n2. Click on revision ";
    var p2 := p1 + "'";
    var p3 := p2 + t.revisionName;
    var p4 := p3 + "'";
    var p5 := p4 + "\n3. View console and system logs";
    var p6 := p5 + "\nFor more troubleshooting information, visit ";
    var tail := svc.formatLink(TroubleshootingUrl);
    assert Suggestion(svc, t) == p6 + tail;
    assert p1[..|head|] == head;
    assert p2[..|head|] == head;
    assert p3[..|head|] == head;
    assert p4[..|head|] == head;
    assert p5[..|head|] == head;
    assert p6[..|head|] == head;
    assert (p6 + tail)[..|head|] == head;
    assert (p6 + tail)[|p6|..] == tail;
  }

  /** Outside demo mode the suggestion links to the revision's management view
      in the portal. */
  lemma SuggestionLinksRevisionManagement(svc: Service, t: PollTarget)
    requires !svc.demoMode
    ensures var head := "To view logs:\n1. Visit " + svc.formatLink(RevisionManagementUrl(svc, t));
      |Suggestion(svc, t)| >= |head| && Suggestion(svc, t)[..|head|] == head
  {
    SuggestionParts(svc, t);
  }

  /** In demo mode the suggestion names only the app and the revision: it does
      not depend on the portal, the subscription or the resource group. */
  lemma SuggestionInDemoModeHidesLocation(svc1: Service, svc2: Service, t1: PollTarget, t2: PollTarget)
    requires svc1.demoMode && svc2.demoMode
    requires svc1.formatLink(TroubleshootingUrl) == svc2.formatLink(TroubleshootingUrl)
    requires t1.appName == t2.appName && t1.revisionName == t2.revisionName
    ensures Suggestion(svc1, t1) == Suggestion(svc2, t2)
  {
  }

  /** Processing and Unknown are the states in which an active revision keeps
      being polled, as does any state the service does not list. */
  lemma ProcessingAndUnknownKeepPolling(o: Observation)
    requires ActiveFlag(o) == Some(true)
    requires RunningStateOf(o) == Some(RevisionProcessing) || RunningStateOf(o) == Some(RevisionUnknown)
    ensures ObservedPending(o)
    ensures o.replicas.Success? && o.cancellation.None? <==> Proceeds(o)
  {
  }
}
