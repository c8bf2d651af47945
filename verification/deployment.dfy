/** `DeployYaml`: apply a manifest, pinning the request's api-version when the
    manifest names one, then wait for the app's latest revision.

    The manifest is a decoded YAML document: a map from top-level keys to
    values. When its "api-version" key holds a string, the request goes out
    through a client carrying an extra per-call policy that rewrites the
    request's api-version query parameter and body; otherwise the document is
    converted to the SDK's typed app and sent as usual. */
module Deployment {
  import opened Wrappers
  import opened Errors
  import opened Resources
  import opened Service
  import opened Readiness

  /** A decoded YAML value. */
  datatype Value =
    | Str(s: string)
    /** A number, kept as its literal text: the model never interprets it. */
    | Number(literal: string)
    | Boolean(b: bool)
    | Null
    | List(items: seq<Value>)
    | Object(fields: map<string, Value>)

  type Manifest = map<string, Value>

  /** The top-level manifest key that pins the api-version. */
  const ApiVersionKey: string := "api-version"

  /** The query parameter that carries the api-version on the wire. */
  const ApiVersionParameter: string := "api-version"

  const JsonContentType: string := "application/json"

  /** A request body: the SDK's typed app, or a raw JSON document (the JSON
      encoding of a manifest). */
  datatype Body = TypedApp(app: ContainerApp) | Json(document: Manifest)

  /** An outgoing HTTP request, reduced to what the policy touches. */
  datatype Request = Request(query: map<string, string>, body: Body, contentType: string)

  /** The request the SDK builds for `BeginCreateOrUpdate` of an app. */
  function CreateOrUpdateRequest(svc: Service, app: ContainerApp): Request {
    Request(map[ApiVersionParameter := svc.sdkApiVersion], TypedApp(app), JsonContentType)
  }

  // ---------------------------------------------------------------------------
  // The api-version and body policy

  /** The policy's state: the api-version to send and, while set, the body to
      inject. */
  datatype OverridePolicy = OverridePolicy(apiVersion: string, body: Option<Manifest>)

  /** `Do`: while a body is set, pin the api-version query parameter and replace
      the body; otherwise forward the request untouched. `setBodyError` is what
      replacing the body fails with, if it does. */
  function Do(p: OverridePolicy, req: Request, setBodyError: Option<Error>): (r: Result<Request, Error>)
    ensures p.body.None? ==> r == Success(req)
    ensures p.body.Some? && setBodyError.Some? ==>
      r == Failure(Wrap("updating request body", setBodyError.value))
    ensures p.body.Some? && setBodyError.None? ==>
      && r.Success?
      && ApiVersionParameter in r.value.query && r.value.query[ApiVersionParameter] == p.apiVersion
      && (forall k :: k in req.query && k != ApiVersionParameter ==>
            k in r.value.query && r.value.query[k] == req.query[k])
      && (forall k :: k in r.value.query ==> k in req.query || k == ApiVersionParameter)
      && r.value.body == Json(p.body.value)
      && r.value.contentType == JsonContentType
  {
    if p.body.None? then Success(req)
    else if setBodyError.Some? then Failure(Wrap("updating request body", setBodyError.value))
    else Success(Request(req.query[ApiVersionParameter := p.apiVersion], Json(p.body.value), JsonContentType))
  }

  /** Rewriting a request the policy already rewrote changes nothing. */
  lemma DoIdempotent(p: OverridePolicy, req: Request)
    ensures Do(p, req, None).Success? && Do(p, Do(p, req, None).value, None) == Do(p, req, None)
  {
    if p.body.Some? {
      var once := Do(p, req, None).value;
      assert once.query[ApiVersionParameter := p.apiVersion] == once.query;
    }
  }

  /** Requests passed through the policy in order, body replacement succeeding. */
  function SendAll(p: OverridePolicy, reqs: seq<Request>): (sent: seq<Request>)
    ensures p.body.None? ==> sent == reqs
    ensures |sent| == |reqs|
  {
    if reqs == [] then []
    else [Do(p, reqs[0], None).value] + SendAll(p, reqs[1..])
  }

  /** The per-call policies of the client built for a pinned api-version: a
      copy of the service's list with the override appended. */
  function WithOverridePolicy(options: ClientOptions): (r: ClientOptions)
    ensures |r.perCallPolicies| == |options.perCallPolicies| + 1
    ensures r.perCallPolicies[..|options.perCallPolicies|] == options.perCallPolicies
    ensures r.perCallPolicies[|options.perCallPolicies|] == ApiVersionOverride
  {
    ClientOptions(options.perCallPolicies + [ApiVersionOverride])
  }

  // ---------------------------------------------------------------------------
  // DeployYaml

  /** The manifest pins an api-version: its key is present and holds a string. */
  predicate PinsApiVersion(m: Manifest) {
    ApiVersionKey in m && m[ApiVersionKey].Str?
  }

  /** What each collaborator of the operation returns. */
  datatype DeployCalls = DeployCalls(
    /** The YAML decoding of the manifest bytes. */
    manifest: Result<Manifest, Error>,
    /** The JSON round trip of a manifest into the SDK's typed app. */
    convert: Manifest -> Result<ContainerApp, Error>,
    /** What replacing a request body fails with, if it does. */
    setBodyError: Option<Error>,
    /** The control plane's rejection of the create-or-update request, if any. */
    submitError: Option<Error>,
    /** The requests the long-running-operation poller sends afterwards. */
    pollRequests: seq<Request>,
    /** The completed operation's latest revision name, or its failure. */
    completion: Result<Option<string>, Error>,
    /** The readiness poller's observations of that revision. */
    readiness: seq<Observation>)

  /** How the operation went: its exit, every request that left the pipeline,
      the per-call policies of the client used, the override policy's final
      state (None on the standard path), and the progress lines. */
  datatype DeployRun = DeployRun(
    exit: Exit,
    wire: seq<Request>,
    clientPolicies: seq<PerCallPolicy>,
    policy: Option<OverridePolicy>,
    progress: seq<string>)

  function DeployYaml(
    svc: Service, subscriptionId: string, resourceGroup: string, appName: string, calls: DeployCalls): (r: DeployRun)
    ensures calls.manifest.Failure? ==>
      r.exit == Returned(Some(Wrap("decoding yaml", calls.manifest.error))) && r.wire == []
    // Pinned: the first request carries the pinned version and the manifest
    // without its api-version key, and the client has the override appended.
    ensures calls.manifest.Success? && PinsApiVersion(calls.manifest.value) ==>
      var m := calls.manifest.value;
      && r.clientPolicies == svc.options.perCallPolicies + [ApiVersionOverride]
      && r.policy.Some? && r.policy.value.apiVersion == m[ApiVersionKey].s
      && (calls.setBodyError.None? ==>
            && |r.wire| >= 1
            && ApiVersionParameter in r.wire[0].query && r.wire[0].query[ApiVersionParameter] == m[ApiVersionKey].s
            && r.wire[0].body == Json(m - {ApiVersionKey})
            && ApiVersionKey !in r.wire[0].body.document)
      && (calls.setBodyError.Some? ==>
            r.exit
            == Returned(Some(Wrap("applying manifest", Wrap("updating request body", calls.setBodyError.value)))))
    // Standard: the typed app converted from the whole manifest goes out with
    // the SDK's own api-version through the service's own policies.
    ensures calls.manifest.Success? && !PinsApiVersion(calls.manifest.value) ==>
      var m := calls.manifest.value;
      && r.clientPolicies == svc.options.perCallPolicies
      && r.policy.None?
      && (calls.convert(m).Failure? ==>
            r.exit == Returned(Some(Wrap("converting to container app type", calls.convert(m).error))) && r.wire == [])
      && (calls.convert(m).Success? ==>
            |r.wire| >= 1 && r.wire[0] == CreateOrUpdateRequest(svc, calls.convert(m).value))
    // After an accepted submission the injected body is cleared and every
    // later request leaves the pipeline untouched.
    ensures |r.wire| >= 1 && calls.submitError.Some? ==>
      r.exit == Returned(Some(Wrap("applying manifest", calls.submitError.value))) && |r.wire| == 1
    ensures |r.wire| >= 1 && calls.submitError.None? ==>
      && r.wire[1..] == calls.pollRequests
      && (r.policy.Some? ==> r.policy.value.body.None?)
    // The accepted operation is then awaited, and the latest revision it
    // reports is waited on.
    ensures |r.wire| >= 1 && calls.submitError.None? && calls.completion.Failure? ==>
      && r.exit == Returned(Some(Wrap("polling for container app update completion", calls.completion.error)))
      && r.progress == []
    ensures |r.wire| >= 1 && calls.submitError.None? && calls.completion.Success? && calls.completion.value.None? ==>
      r.exit == Returned(Some(Panic(NilDereference))) && r.progress == []
    ensures |r.wire| >= 1 && calls.submitError.None? && calls.completion.Success? && calls.completion.value.Some? ==>
      var target := PollTarget(subscriptionId, resourceGroup, appName, calls.completion.value.value);
      var run := WaitForRevisionReady(svc, target, calls.readiness);
      r.exit == run.exit && r.progress == run.log
    // Nothing is awaited, and no progress reported, when no submission was accepted.
    ensures !(|r.wire| >= 1 && calls.submitError.None?) ==> r.exit.Returned? && r.exit.err.Some? && r.progress == []
  {
    match calls.manifest
    case Failure(e) => DeployRun(Returned(Some(Wrap("decoding yaml", e))), [], [], None, [])
    case Success(m) =>
      if PinsApiVersion(m) then
        var clientPolicies := WithOverridePolicy(svc.options).perCallPolicies;
        var armed := OverridePolicy(m[ApiVersionKey].s, Some(m - {ApiVersionKey}));
        match Do(armed, CreateOrUpdateRequest(svc, EmptyApp), calls.setBodyError)
        case Failure(e) => DeployRun(Returned(Some(Wrap("applying manifest", e))), [], clientPolicies, Some(armed), [])
        case Success(req) =>
          if calls.submitError.Some? then
            var err := Wrap("applying manifest", calls.submitError.value);
            DeployRun(Returned(Some(err)), [req], clientPolicies, Some(armed), [])
          else
            var cleared := armed.(body := None);
            var wire := [req] + SendAll(cleared, calls.pollRequests);
            Complete(svc, subscriptionId, resourceGroup, appName, calls, wire, clientPolicies, Some(cleared))
      else
        match calls.convert(m)
        case Failure(e) =>
          var err := Wrap("converting to container app type", e);
          DeployRun(Returned(Some(err)), [], svc.options.perCallPolicies, None, [])
        case Success(app) =>
          var req := CreateOrUpdateRequest(svc, app);
          if calls.submitError.Some? then
            var err := Wrap("applying manifest", calls.submitError.value);
            DeployRun(Returned(Some(err)), [req], svc.options.perCallPolicies, None, [])
          else
            var wire := [req] + calls.pollRequests;
            Complete(svc, subscriptionId, resourceGroup, appName, calls, wire, svc.options.perCallPolicies, None)
  }

  /** Await the operation, then wait for the latest revision it reports. */
  function Complete(
    svc: Service, subscriptionId: string, resourceGroup: string, appName: string, calls: DeployCalls,
    wire: seq<Request>, clientPolicies: seq<PerCallPolicy>, policy: Option<OverridePolicy>): (r: DeployRun)
    ensures r.wire == wire && r.clientPolicies == clientPolicies && r.policy == policy
    ensures calls.completion.Failure? ==>
      && r.exit == Returned(Some(Wrap("polling for container app update completion", calls.completion.error)))
      && r.progress == []
    // A result without a latest revision name is dereferenced anyway.
    ensures calls.completion.Success? && calls.completion.value.None? ==>
      r.exit == Returned(Some(Panic(NilDereference))) && r.progress == []
    ensures calls.completion.Success? && calls.completion.value.Some? ==>
      var target := PollTarget(subscriptionId, resourceGroup, appName, calls.completion.value.value);
      var run := WaitForRevisionReady(svc, target, calls.readiness);
      r.exit == run.exit && r.progress == run.log
  {
    match calls.completion
    case Failure(e) =>
      var err := Wrap("polling for container app update completion", e);
      DeployRun(Returned(Some(err)), wire, clientPolicies, policy, [])
    case Success(latest) =>
      if latest.None? then DeployRun(Returned(Some(Panic(NilDereference))), wire, clientPolicies, policy, [])
      else
        var target := PollTarget(subscriptionId, resourceGroup, appName, latest.value);
        var run := WaitForRevisionReady(svc, target, calls.readiness);
        DeployRun(run.exit, wire, clientPolicies, policy, run.log)
  }

  /** On the pinned path nothing of the manifest is lost: putting the version
      from the query parameter back into the injected body gives the manifest. */
  lemma PinnedRequestRestoresManifest(
    svc: Service, subscriptionId: string, resourceGroup: string, appName: string, calls: DeployCalls)
    requires calls.manifest.Success? && PinsApiVersion(calls.manifest.value) && calls.setBodyError.None?
    ensures var first := DeployYaml(svc, subscriptionId, resourceGroup, appName, calls).wire[0];
      && first.body.Json?
      && ApiVersionParameter in first.query
      && first.body.document[ApiVersionKey := Str(first.query[ApiVersionParameter])] == calls.manifest.value
  {
    var m := calls.manifest.value;
    var first := DeployYaml(svc, subscriptionId, resourceGroup, appName, calls).wire[0];
    assert first.body.document[ApiVersionKey := Str(first.query[ApiVersionParameter])] == m;
  }
}
