/** Counting the running and the ready replicas of a revision, as the readiness
    poller does on every non-terminal iteration. */
module Replicas {
  import opened Wrappers
  import opened Resources

  /** A replica is running when its state is present and is `Running`. */
  predicate IsRunning(r: Replica) {
    r.runningState == Some(ReplicaRunning)
  }

  /** A replica is ready when every one of its containers reports a present,
      true readiness flag; a replica with no containers is therefore ready. */
  predicate IsReady(r: Replica) {
    forall i :: 0 <= i < |r.containers| ==> r.containers[i].ready == Some(true)
  }

  function RunningCount(rs: seq<Replica>): (n: nat)
    ensures n <= |rs|
  {
    if rs == [] then 0
    else RunningCount(rs[..|rs| - 1]) + (if IsRunning(rs[|rs| - 1]) then 1 else 0)
  }

  function ReadyCount(rs: seq<Replica>): (n: nat)
    ensures n <= |rs|
  {
    if rs == [] then 0
    else ReadyCount(rs[..|rs| - 1]) + (if IsReady(rs[|rs| - 1]) then 1 else 0)
  }

  /** The running count is the number of running replicas: it reaches the
      total exactly when all are running and is zero exactly when none is. */
  lemma {:induction false} RunningCountExtremes(rs: seq<Replica>)
    ensures RunningCount(rs) == |rs| <==> forall i :: 0 <= i < |rs| ==> IsRunning(rs[i])
    ensures RunningCount(rs) == 0 <==> forall i :: 0 <= i < |rs| ==> !IsRunning(rs[i])
    decreases |rs|
  {
    if rs != [] {
      var init := rs[..|rs| - 1];
      RunningCountExtremes(init);
      assert forall i :: 0 <= i < |init| ==> init[i] == rs[i];
    }
  }

  /** The ready count reaches the total exactly when all replicas are ready and
      is zero exactly when none is. */
  lemma {:induction false} ReadyCountExtremes(rs: seq<Replica>)
    ensures ReadyCount(rs) == |rs| <==> forall i :: 0 <= i < |rs| ==> IsReady(rs[i])
    ensures ReadyCount(rs) == 0 <==> forall i :: 0 <= i < |rs| ==> !IsReady(rs[i])
    decreases |rs|
  {
    if rs != [] {
      var init := rs[..|rs| - 1];
      ReadyCountExtremes(init);
      assert forall i :: 0 <= i < |init| ==> init[i] == rs[i];
    }
  }

  /** The replica-counting loop as the poller runs it, including its
      nil-checking readiness fold over each replica's containers. */
  method CountReplicas(rs: seq<Replica>) returns (running: nat, ready: nat)
    ensures running == RunningCount(rs) && ready == ReadyCount(rs)
    ensures running <= |rs| && ready <= |rs|
  {
    running, ready := 0, 0;
    var i := 0;
    while i < |rs|
      invariant 0 <= i <= |rs|
      invariant running == RunningCount(rs[..i])
      invariant ready == ReadyCount(rs[..i])
    {
      var r := rs[i];
      var isReady := true;
      if r.runningState.Some? && r.runningState.value == ReplicaRunning {
        running := running + 1;
      }
      var j := 0;
      while j < |r.containers|
        invariant 0 <= j <= |r.containers|
        invariant isReady <==> forall k :: 0 <= k < j ==> r.containers[k].ready == Some(true)
      {
        var c := r.containers[j];
        if c.ready.None? {
          isReady := false;
        }
        isReady := isReady && c.ready.value;
        j := j + 1;
      }
      if isReady {
        ready := ready + 1;
      }
      assert rs[..i + 1][..i] == rs[..i];
      i := i + 1;
    }
    assert rs[..i] == rs;
  }
}
