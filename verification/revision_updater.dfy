/** `AddRevision`: roll out a new image by cloning the latest revision's
    template under a clock-derived suffix, submitting it, waiting for the new
    revision, and, in multiple-revision mode, moving all traffic to it. */
module RevisionUpdater {
  import opened Wrappers
  import opened Errors
  import opened Decimal
  import opened Resources
  import opened Service
  import opened AppTransforms
  import opened Readiness

  const SuffixMarker: string := "azd-"

  /** The suffix of the new revision: the marker, then the clock's Unix seconds. */
  function RevisionSuffix(nowUnix: int): (s: string)
    ensures |s| > |SuffixMarker| && s[..|SuffixMarker|] == SuffixMarker && s[|SuffixMarker|..] == IntToString(nowUnix)
  {
    SuffixMarker + IntToString(nowUnix)
  }

  /** A revision's name is always its app's name, two dashes, and its suffix. */
  function RevisionName(appName: string, suffix: string): (name: string)
    ensures |name| >= |appName| + 2 && name[..|appName|] == appName && name[|appName|..] == "--" + suffix
  {
    appName + "--" + suffix
  }

  /** Revisions created in different seconds get different names. */
  lemma RevisionNameInjective(appName: string, t1: int, t2: int)
    ensures RevisionName(appName, RevisionSuffix(t1)) == RevisionName(appName, RevisionSuffix(t2)) <==> t1 == t2
  {
    if RevisionName(appName, RevisionSuffix(t1)) == RevisionName(appName, RevisionSuffix(t2)) {
      var n1, n2 := RevisionName(appName, RevisionSuffix(t1)), RevisionName(appName, RevisionSuffix(t2));
      var p := appName + "--" + SuffixMarker;
      assert IntToString(t1) == n1[|p|..];
      assert IntToString(t2) == n2[|p|..];
      IntToStringInjective(t1, t2);
    }
  }

  lemma RevisionNameForFixedClock()
    ensures RevisionName("api", RevisionSuffix(1700000000)) == "api--azd-1700000000"
  {
    assert NatToString(1700000000) == "1700000000" by {
      assert NatToString(1) == "1";
      assert NatToString(17) == "17";
      assert NatToString(170) == "170";
      assert NatToString(1700) == "1700";
      assert NatToString(17000) == "17000";
      assert NatToString(170000) == "170000";
      assert NatToString(1700000) == "1700000";
      assert NatToString(17000000) == "17000000";
      assert NatToString(170000000) == "170000000";
    }
  }

  /** The fetched template with the new suffix and with the first container's
      image replaced; indexing the first container fails on an empty list. */
  function NewTemplate(t: Template, suffix: string, imageName: string): (r: Result<Template, Error>)
    ensures |t.containers| == 0 ==> r == Failure(Panic(IndexOutOfRange))
    ensures |t.containers| > 0 ==>
      && r.Success?
      && r.value.revisionSuffix == Some(suffix)
      && |r.value.containers| == |t.containers|
      && r.value.containers[0] == t.containers[0].(image := Some(imageName))
      && (forall i :: 1 <= i < |t.containers| ==> r.value.containers[i] == t.containers[i])
      && r.value.initContainers == t.initContainers
  {
    if |t.containers| == 0 then Failure(Panic(IndexOutOfRange))
    else
      var first := t.containers[0].(image := Some(imageName));
      Success(t.(revisionSuffix := Some(suffix), containers := t.containers[0 := first]))
  }

  /** Re-applying the same suffix and image changes nothing further. */
  lemma NewTemplateIdempotent(t: Template, suffix: string, imageName: string)
    requires NewTemplate(t, suffix, imageName).Success?
    ensures var once := NewTemplate(t, suffix, imageName).value;
      NewTemplate(once, suffix, imageName) == Success(once)
  {
    var once := NewTemplate(t, suffix, imageName).value;
    assert once.containers[0 := once.containers[0].(image := Some(imageName))] == once.containers;
  }

  /** The app carrying a new template and nothing else new. */
  function AssignTemplate(app: ContainerApp, t: Template): (r: ContainerApp)
    requires app.properties.Some?
    ensures r.properties.Some? && r.properties.value.template == Some(t)
    ensures r.properties.value.(template := None) == app.properties.value.(template := None)
    ensures r.location == app.location
  {
    app.(properties := Some(app.properties.value.(template := Some(t))))
  }

  /** The app's active-revisions mode, when every pointer to it is set. */
  function ModeOf(app: ContainerApp): Option<string> {
    if HasConfiguration(app) then app.properties.value.configuration.value.activeRevisionsMode else None
  }

  /** The template of the fetched revision, when every pointer to it is set. */
  function FetchedTemplate(revision: Result<Revision, Error>): Option<Template> {
    if revision.Success? && revision.value.properties.Some?
    then revision.value.properties.value.template
    else None
  }

  /** What each remote call of the operation returns. */
  datatype AddRevisionCalls = AddRevisionCalls(
    /** Get of the app. */
    app: Result<ContainerApp, Error>,
    /** GetRevision of the app's latest revision. */
    revision: Result<Revision, Error>,
    /** The clock's Unix seconds. */
    nowUnix: int,
    /** ListSecrets of the app. */
    secrets: Result<seq<ListedSecret>, Error>,
    /** The update carrying the new template. */
    update: UpdateResponse,
    /** The readiness poller's observations of the new revision. */
    readiness: seq<Observation>,
    /** The update carrying the new traffic weights. */
    trafficUpdate: UpdateResponse)

  /** How the operation went: its exit, every app it submitted for update, in
      order, whether it listed secrets, what it passed to the progress
      callback, and the revision it waited on, if it got that far. */
  datatype AddRevisionRun = AddRevisionRun(
    exit: Exit,
    submitted: seq<ContainerApp>,
    listedSecrets: bool,
    progress: seq<string>,
    waitedOn: Option<string>)

  function Aborted(e: Error): AddRevisionRun {
    AddRevisionRun(Returned(Some(e)), [], false, [], None)
  }

  /** The app's latest revision name, when every pointer to it is set. */
  function LatestRevisionName(app: ContainerApp): Option<string> {
    if app.properties.Some? then app.properties.value.latestRevisionName else None
  }

  /** The app was read and names its latest revision. */
  predicate NamesLatest(calls: AddRevisionCalls) {
    calls.app.Success? && LatestRevisionName(calls.app.value).Some?
  }

  /** Both reads before the rollout succeed, and the fetched template has a
      first container to re-image. */
  predicate Prepared(calls: AddRevisionCalls) {
    && calls.app.Success?
    && LatestRevisionName(calls.app.value).Some?
    && FetchedTemplate(calls.revision).Some?
    && |FetchedTemplate(calls.revision).value.containers| > 0
  }

  /** The steps before the rollout: read the app and its latest revision, and
      put the revision's template, re-suffixed and re-imaged, into the app. */
  function Prepare(imageName: string, calls: AddRevisionCalls): (r: Result<ContainerApp, Error>)
    ensures r.Success? <==> Prepared(calls)
    // The app error is wrapped twice: once by the Get helper, once here.
    ensures calls.app.Failure? ==>
      r == Failure(Wrap("getting container app", Wrap("getting container app", calls.app.error)))
    ensures calls.app.Success? && LatestRevisionName(calls.app.value).None? ==> r == Failure(Panic(NilDereference))
    ensures calls.app.Success? && LatestRevisionName(calls.app.value).Some? && calls.revision.Failure? ==>
      r == Failure(Wrap("getting revision '" + LatestRevisionName(calls.app.value).value + "'", calls.revision.error))
    ensures NamesLatest(calls) && calls.revision.Success? && FetchedTemplate(calls.revision).None? ==>
      r == Failure(Panic(NilDereference))
    ensures (NamesLatest(calls) && FetchedTemplate(calls.revision).Some?
             && |FetchedTemplate(calls.revision).value.containers| == 0) ==>
      r == Failure(Panic(IndexOutOfRange))
    // The prepared app is the fetched one with only its template replaced.
    ensures r.Success? ==>
      && var fetched := FetchedTemplate(calls.revision).value;
      && calls.app.value.properties.Some?
      && r.value.properties.Some? && r.value.properties.value.template.Some?
      && r.value == AssignTemplate(calls.app.value, r.value.properties.value.template.value)
      && var sent := r.value.properties.value.template.value;
      && sent.revisionSuffix == Some(RevisionSuffix(calls.nowUnix))
      && |sent.containers| == |fetched.containers|
      && sent.containers[0] == fetched.containers[0].(image := Some(imageName))
      && (forall i :: 1 <= i < |fetched.containers| ==> sent.containers[i] == fetched.containers[i])
      && sent.initContainers == fetched.initContainers
  {
    match GetContainerApp(calls.app)
    case Failure(e) => Failure(Wrap("getting container app", e))
    case Success(app) =>
      if app.properties.None? || app.properties.value.latestRevisionName.None? then Failure(Panic(NilDereference))
      else
        var current := app.properties.value.latestRevisionName.value;
        match calls.revision
        case Failure(e) => Failure(Wrap("getting revision '" + current + "'", e))
        case Success(revision) =>
          if revision.properties.None? || revision.properties.value.template.None? then Failure(Panic(NilDereference))
          else
            match NewTemplate(revision.properties.value.template.value, RevisionSuffix(calls.nowUnix), imageName)
            case Failure(e) => Failure(e)
            case Success(t) => Success(AssignTemplate(app, t))
  }

  /** Replacing the template keeps everything the rollout reads of the app's
      configuration: its presence, the secrets, the revision mode and the ingress. */
  lemma PrepareKeepsConfiguration(imageName: string, calls: AddRevisionCalls)
    requires Prepared(calls)
    ensures var prepared := Prepare(imageName, calls).value;
      && prepared.properties.Some?
      && (HasConfiguration(prepared) <==> HasConfiguration(calls.app.value))
      && (HasConfiguration(prepared) ==> SecretsOf(prepared) == SecretsOf(calls.app.value))
      && ModeOf(prepared) == ModeOf(calls.app.value)
      && (HasIngress(prepared) <==> HasIngress(calls.app.value))
  {
  }

  /** The new revision's name, and the readiness wait on it. */
  function NewRevisionName(appName: string, calls: AddRevisionCalls): string {
    RevisionName(appName, RevisionSuffix(calls.nowUnix))
  }

  /** The new revision is named appName--azd-<seconds>. */
  lemma NewRevisionNameSpelled(appName: string, calls: AddRevisionCalls)
    ensures NewRevisionName(appName, calls) == appName + "--azd-" + IntToString(calls.nowUnix)
  {
    var digits := IntToString(calls.nowUnix);
    assert appName + "--" + (SuffixMarker + digits) == appName + "--azd-" + digits;
  }

  function NewRevisionWait(
    svc: Service, subscriptionId: string, resourceGroup: string, appName: string, calls: AddRevisionCalls): PollRun
  {
    var target := PollTarget(subscriptionId, resourceGroup, appName, NewRevisionName(appName, calls));
    WaitForRevisionReady(svc, target, calls.readiness)
  }

  function AddRevision(
    svc: Service, subscriptionId: string, resourceGroup: string, appName: string, imageName: string,
    calls: AddRevisionCalls): (r: AddRevisionRun)
    ensures |r.submitted| <= 2
    // Failures before anything is submitted.
    ensures calls.app.Failure? ==>
      r == Aborted(Wrap("getting container app", Wrap("getting container app", calls.app.error)))
    ensures calls.app.Success? && LatestRevisionName(calls.app.value).None? ==> r == Aborted(Panic(NilDereference))
    ensures calls.app.Success? && LatestRevisionName(calls.app.value).Some? && calls.revision.Failure? ==>
      r == Aborted(Wrap("getting revision '" + LatestRevisionName(calls.app.value).value + "'", calls.revision.error))
    ensures NamesLatest(calls) && calls.revision.Success? && FetchedTemplate(calls.revision).None? ==>
      r == Aborted(Panic(NilDereference))
    ensures (NamesLatest(calls) && FetchedTemplate(calls.revision).Some?
             && |FetchedTemplate(calls.revision).value.containers| == 0) ==>
      r == Aborted(Panic(IndexOutOfRange))
    ensures Prepared(calls) && !HasConfiguration(calls.app.value) ==> r == Aborted(Panic(NilDereference))
    ensures (Prepared(calls) && HasConfiguration(calls.app.value) && |SecretsOf(calls.app.value)| > 0
             && calls.secrets.Failure?) ==>
      r == AddRevisionRun(
        Returned(Some(Wrap("syncing secrets", Wrap("listing secrets", calls.secrets.error)))), [], true, [], None)
    // Something is submitted exactly when every read succeeded.
    ensures |r.submitted| >= 1 <==>
      && Prepared(calls) && HasConfiguration(calls.app.value)
      && (|SecretsOf(calls.app.value)| == 0 || calls.secrets.Success?)
    // The first submission is the fetched app with the fetched template,
    // re-suffixed, with only the first container's image replaced, and with
    // its secrets re-read; nothing else differs.
    ensures |r.submitted| >= 1 ==>
      && calls.app.Success? && calls.app.value.properties.Some? && FetchedTemplate(calls.revision).Some?
      && var fetched := FetchedTemplate(calls.revision).value;
      && r.submitted[0].properties.Some? && r.submitted[0].properties.value.template.Some?
      && var sent := r.submitted[0].properties.value.template.value;
      && sent.revisionSuffix == Some(RevisionSuffix(calls.nowUnix))
      && |sent.containers| == |fetched.containers| > 0
      && sent.containers[0] == fetched.containers[0].(image := Some(imageName))
      && (forall i :: 1 <= i < |fetched.containers| ==> sent.containers[i] == fetched.containers[i])
      && sent.initContainers == fetched.initContainers
      && HasConfiguration(r.submitted[0]) && HasConfiguration(AssignTemplate(calls.app.value, sent))
      && SameExceptSecrets(r.submitted[0], AssignTemplate(calls.app.value, sent))
    // The submitted secrets are the listed ones, field by field, or none at all
    // when the app had none; the endpoint is called exactly for an app with secrets.
    ensures |r.submitted| >= 1 ==>
      && HasConfiguration(r.submitted[0])
      && (r.listedSecrets ==> calls.secrets.Success? && SecretsOf(r.submitted[0]) == CopySecrets(calls.secrets.value))
      && (!r.listedSecrets ==> SecretsOf(r.submitted[0]) == [])
    ensures r.listedSecrets <==>
      Prepared(calls) && HasConfiguration(calls.app.value) && |SecretsOf(calls.app.value)| > 0
    // A failed update is wrapped and ends the operation.
    ensures |r.submitted| >= 1 && !calls.update.Completed? ==>
      && r.exit == Returned(Some(Wrap("updating container app revision", UpdateContainerApp(calls.update).value)))
      && |r.submitted| == 1
    // The wait is on appName--azd-<seconds>, and only once the update completed.
    ensures r.waitedOn.Some? <==> |r.submitted| >= 1 && calls.update.Completed?
    ensures r.waitedOn.Some? ==>
      && r.waitedOn.value == NewRevisionName(appName, calls)
      && r.waitedOn.value == appName + "--azd-" + IntToString(calls.nowUnix)
      && r.progress == NewRevisionWait(svc, subscriptionId, resourceGroup, appName, calls).log
    ensures r.waitedOn.None? ==> r.progress == []
    // A wait that fails, or has not finished, is returned as it is.
    ensures r.waitedOn.Some? ==>
      var wait := NewRevisionWait(svc, subscriptionId, resourceGroup, appName, calls);
      !wait.exit.Succeeded() ==> r.exit == wait.exit && |r.submitted| == 1
    // After a successful wait the fetched app's revision mode decides.
    ensures r.waitedOn.Some? ==>
      var wait := NewRevisionWait(svc, subscriptionId, resourceGroup, appName, calls);
      var mode := ModeOf(calls.app.value);
      wait.exit.Succeeded() ==>
        && (mode.None? ==> r.exit == Returned(Some(Panic(NilDereference))) && |r.submitted| == 1)
        && (mode.Some? && mode.value != ModeMultiple ==> r.exit == Returned(None) && |r.submitted| == 1)
        && (mode == Some(ModeMultiple) && !HasIngress(calls.app.value) ==>
              r.exit == Returned(Some(Panic(NilDereference))) && |r.submitted| == 1)
        && (mode == Some(ModeMultiple) && HasIngress(calls.app.value) ==>
              && |r.submitted| == 2
              && (calls.trafficUpdate.Completed? ==> r.exit == Returned(None))
              && (!calls.trafficUpdate.Completed? ==>
                    r.exit == Returned(Some(Wrap("setting traffic weights",
                      Wrap("updating traffic weights", UpdateContainerApp(calls.trafficUpdate).value))))))
    // The traffic submission differs from the first only in its traffic.
    ensures |r.submitted| == 2 ==>
      r.submitted[1] == WithTraffic(r.submitted[0], [FullTrafficTo(NewRevisionName(appName, calls))])
    // nil exactly after a successful wait, and in multiple-revision mode only
    // after the traffic update completed.
    ensures r.exit.Succeeded() <==>
      && r.waitedOn.Some?
      && NewRevisionWait(svc, subscriptionId, resourceGroup, appName, calls).exit.Succeeded()
      && ModeOf(calls.app.value).Some?
      && (ModeOf(calls.app.value).value == ModeMultiple ==>
            HasIngress(calls.app.value) && calls.trafficUpdate.Completed?)
  {
    if !Prepared(calls) then Aborted(Prepare(imageName, calls).error)
    else
      PrepareKeepsConfiguration(imageName, calls);
      NewRevisionNameSpelled(appName, calls);
      var target := PollTarget(subscriptionId, resourceGroup, appName, NewRevisionName(appName, calls));
      Rollout(svc, target, Prepare(imageName, calls).value, calls)
  }

  /** The steps after the template is assigned: sync secrets, update, wait,
      and, in multiple-revision mode, move the traffic. */
  function Rollout(svc: Service, target: PollTarget, app: ContainerApp, calls: AddRevisionCalls): (r: AddRevisionRun)
    requires app.properties.Some?
    ensures |r.submitted| <= 2
    // Syncing secrets comes first; nothing is submitted when it fails.
    ensures !HasConfiguration(app) ==> r == Aborted(Panic(NilDereference))
    ensures HasConfiguration(app) && |SecretsOf(app)| > 0 && calls.secrets.Failure? ==>
      r == AddRevisionRun(
        Returned(Some(Wrap("syncing secrets", Wrap("listing secrets", calls.secrets.error)))), [], true, [], None)
    ensures |r.submitted| >= 1 <==> HasConfiguration(app) && (|SecretsOf(app)| == 0 || calls.secrets.Success?)
    ensures r.listedSecrets <==> HasConfiguration(app) && |SecretsOf(app)| > 0
    // What goes out is the app with its secrets, and only those, replaced.
    ensures |r.submitted| >= 1 ==>
      && HasConfiguration(app) && HasConfiguration(r.submitted[0])
      && SameExceptSecrets(r.submitted[0], app)
      && (r.listedSecrets ==> calls.secrets.Success? && SecretsOf(r.submitted[0]) == CopySecrets(calls.secrets.value))
      && (!r.listedSecrets ==> r.submitted[0] == app)
    // A failed update is wrapped and ends the operation.
    ensures |r.submitted| >= 1 && !calls.update.Completed? ==>
      && r.exit == Returned(Some(Wrap("updating container app revision", UpdateContainerApp(calls.update).value)))
      && |r.submitted| == 1
    ensures r.waitedOn.Some? <==> |r.submitted| >= 1 && calls.update.Completed?
    ensures r.waitedOn.Some? ==>
      r.waitedOn.value == target.revisionName && r.progress == WaitForRevisionReady(svc, target, calls.readiness).log
    ensures r.waitedOn.None? ==> r.progress == []
    // A wait that fails, or has not finished, is returned as it is.
    ensures r.waitedOn.Some? && !WaitForRevisionReady(svc, target, calls.readiness).exit.Succeeded() ==>
      r.exit == WaitForRevisionReady(svc, target, calls.readiness).exit && |r.submitted| == 1
    // After a successful wait the revision mode decides.
    ensures r.waitedOn.Some? && WaitForRevisionReady(svc, target, calls.readiness).exit.Succeeded() ==>
      && (ModeOf(app).None? ==> r.exit == Returned(Some(Panic(NilDereference))) && |r.submitted| == 1)
      && (ModeOf(app).Some? && ModeOf(app).value != ModeMultiple ==> r.exit == Returned(None) && |r.submitted| == 1)
      && (ModeOf(app) == Some(ModeMultiple) && !HasIngress(app) ==>
            r.exit == Returned(Some(Panic(NilDereference))) && |r.submitted| == 1)
      && (ModeOf(app) == Some(ModeMultiple) && HasIngress(app) ==>
            && |r.submitted| == 2
            && (calls.trafficUpdate.Completed? ==> r.exit == Returned(None))
            && (!calls.trafficUpdate.Completed? ==>
                  r.exit == Returned(Some(Wrap("setting traffic weights",
                    Wrap("updating traffic weights", UpdateContainerApp(calls.trafficUpdate).value))))))
    ensures |r.submitted| == 2 ==>
      r.submitted[1] == WithTraffic(r.submitted[0], [FullTrafficTo(target.revisionName)])
    ensures r.exit.Succeeded() <==>
      && r.waitedOn.Some?
      && WaitForRevisionReady(svc, target, calls.readiness).exit.Succeeded()
      && ModeOf(app).Some?
      && (ModeOf(app).value == ModeMultiple ==> HasIngress(app) && calls.trafficUpdate.Completed?)
  {
    var sync := SyncSecrets(app, calls.secrets);
    match sync.result
    case Failure(e) => AddRevisionRun(Returned(Some(Wrap("syncing secrets", e))), [], sync.listed, [], None)
    case Success(synced) =>
      match UpdateContainerApp(calls.update)
      case Some(e) =>
        AddRevisionRun(Returned(Some(Wrap("updating container app revision", e))), [synced], sync.listed, [], None)
      case None =>
        var wait := WaitForRevisionReady(svc, target, calls.readiness);
        var waited := AddRevisionRun(wait.exit, [synced], sync.listed, wait.log, Some(target.revisionName));
        if !wait.exit.Succeeded() then waited
        else if ModeOf(synced).None? then waited.(exit := Returned(Some(Panic(NilDereference))))
        else if ModeOf(synced).value != ModeMultiple then waited
        else
          match SetTrafficWeights(synced, target.revisionName)
          case Failure(e) => waited.(exit := Returned(Some(e)))
          case Success(routed) =>
            var err := UpdateContainerApp(calls.trafficUpdate);
            waited.(
              exit := Returned(
                if err.Some? then Some(Wrap("setting traffic weights", Wrap("updating traffic weights", err.value)))
                else None),
              submitted := [synced, routed])
  }

  /** In single-revision mode the traffic is never touched: a successful wait
      returns nil after the one submission. */
  lemma SingleModeSkipsTraffic(
    svc: Service, subscriptionId: string, resourceGroup: string, appName: string, imageName: string,
    calls: AddRevisionCalls)
    requires calls.app.Success? && ModeOf(calls.app.value) == Some(ModeSingle)
    ensures var r := AddRevision(svc, subscriptionId, resourceGroup, appName, imageName, calls);
      && |r.submitted| <= 1
      && (r.exit.Succeeded() <==>
            r.waitedOn.Some? && NewRevisionWait(svc, subscriptionId, resourceGroup, appName, calls).exit.Succeeded())
  {
  }
}
