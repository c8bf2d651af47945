/** Reading and rewriting the container app object: the ingress host-name
    projection, the secret re-synchronisation before an update, the traffic
    reset to a single revision, and the error wrapping of the get and update
    calls. */
module AppTransforms {
  import opened Wrappers
  import opened Errors
  import opened Resources

  // ---------------------------------------------------------------------------
  // Remote calls on the app

  /** `getContainerApp`: the app, or the Get call's error wrapped. */
  function GetContainerApp(response: Result<ContainerApp, Error>): (r: Result<ContainerApp, Error>)
    ensures response.Success? ==> r == response
    ensures response.Failure? ==> r.Failure? && r.error == Wrap("getting container app", response.error)
  {
    match response
    case Success(app) => Success(app)
    case Failure(e) => Failure(Wrap("getting container app", e))
  }

  /** `updateContainerApp`: nil once the update completed, otherwise the failing
      step's error wrapped. */
  function UpdateContainerApp(response: UpdateResponse): (r: Option<Error>)
    ensures r.None? <==> response.Completed?
    ensures response.BeginFailed? ==> r == Some(Wrap("begin updating ingress traffic", response.beginError))
    ensures response.PollFailed? ==>
      r == Some(Wrap("polling for container app update completion", response.pollError))
  {
    match response
    case BeginFailed(e) => Some(Wrap("begin updating ingress traffic", e))
    case PollFailed(e) => Some(Wrap("polling for container app update completion", e))
    case Completed => None
  }

  // ---------------------------------------------------------------------------
  // Ingress

  datatype IngressConfiguration = IngressConfiguration(hostNames: seq<string>)

  /** The ingress FQDN, when every pointer on the way to it is set. */
  function Fqdn(app: ContainerApp): Option<string> {
    if && app.properties.Some?
       && app.properties.value.configuration.Some?
       && app.properties.value.configuration.value.ingress.Some?
    then app.properties.value.configuration.value.ingress.value.fqdn
    else None
  }

  /** The host names of an app: its FQDN alone, or none at all. */
  function HostNames(app: ContainerApp): (names: seq<string>)
    ensures |names| <= 1
    ensures |names| == 1 <==> Fqdn(app).Some?
    ensures |names| == 1 ==> names[0] == Fqdn(app).value
  {
    if && app.properties.Some?
       && app.properties.value.configuration.Some?
       && app.properties.value.configuration.value.ingress.Some?
       && app.properties.value.configuration.value.ingress.value.fqdn.Some?
    then [app.properties.value.configuration.value.ingress.value.fqdn.value]
    else []
  }

  function GetIngressConfiguration(response: Result<ContainerApp, Error>): (r: Result<IngressConfiguration, Error>)
    ensures response.Failure? ==>
      r == Failure(Wrap("failed retrieving container app properties", Wrap("getting container app", response.error)))
    ensures response.Success? ==>
      && r.Success?
      && (Fqdn(response.value).Some? ==> r.value.hostNames == [Fqdn(response.value).value])
      && (Fqdn(response.value).None? ==> r.value.hostNames == [])
  {
    match GetContainerApp(response)
    case Failure(e) => Failure(Wrap("failed retrieving container app properties", e))
    case Success(app) => Success(IngressConfiguration(HostNames(app)))
  }

  // ---------------------------------------------------------------------------
  // Secrets

  /** The configuration secret carrying a listed secret's four fields. */
  function CopySecret(s: ListedSecret): Secret {
    Secret(s.name, s.value, s.identity, s.keyVaultUrl)
  }

  function CopySecrets(listed: seq<ListedSecret>): (secrets: seq<Secret>)
    ensures |secrets| == |listed|
    ensures forall i :: 0 <= i < |listed| ==> secrets[i] == CopySecret(listed[i])
  {
    seq(|listed|, i requires 0 <= i < |listed| => CopySecret(listed[i]))
  }

  /** The app with its configuration's secret list replaced. */
  function WithSecrets(app: ContainerApp, secrets: seq<Secret>): ContainerApp
    requires HasConfiguration(app)
  {
    var props := app.properties.value;
    app.(properties := Some(props.(configuration := Some(props.configuration.value.(secrets := secrets)))))
  }

  function SecretsOf(app: ContainerApp): seq<Secret>
    requires HasConfiguration(app)
  {
    app.properties.value.configuration.value.secrets
  }

  /** Two apps that agree everywhere except, possibly, on the secret list. */
  predicate SameExceptSecrets(a: ContainerApp, b: ContainerApp)
    requires HasConfiguration(a) && HasConfiguration(b)
  {
    WithSecrets(a, []) == WithSecrets(b, [])
  }

  /** What `syncSecrets` did: its result, and whether it called the
      list-secrets endpoint. */
  datatype SecretSync = SecretSync(result: Result<ContainerApp, Error>, listed: bool)

  /** `syncSecrets`: an app without secrets is returned as it is and the
      endpoint is not called; otherwise the secret list is replaced by the
      endpoint's entries, in order, whatever the old list held. */
  function SyncSecrets(app: ContainerApp, response: Result<seq<ListedSecret>, Error>): (r: SecretSync)
    ensures !HasConfiguration(app) ==> r == SecretSync(Failure(Panic(NilDereference)), false)
    ensures HasConfiguration(app) ==> (r.listed <==> |SecretsOf(app)| > 0)
    ensures HasConfiguration(app) && |SecretsOf(app)| == 0 ==> r.result == Success(app)
    ensures r.listed && response.Failure? ==> r.result == Failure(Wrap("listing secrets", response.error))
    ensures r.listed && response.Success? ==>
      && r.result.Success?
      && HasConfiguration(r.result.value)
      && SameExceptSecrets(r.result.value, app)
      && |SecretsOf(r.result.value)| == |response.value|
      && forall i :: 0 <= i < |response.value| ==>
           && SecretsOf(r.result.value)[i].name == response.value[i].name
           && SecretsOf(r.result.value)[i].value == response.value[i].value
           && SecretsOf(r.result.value)[i].identity == response.value[i].identity
           && SecretsOf(r.result.value)[i].keyVaultUrl == response.value[i].keyVaultUrl
  {
    if !HasConfiguration(app) then SecretSync(Failure(Panic(NilDereference)), false)
    else if |SecretsOf(app)| == 0 then SecretSync(Success(app), false)
    else
      match response
      case Failure(e) => SecretSync(Failure(Wrap("listing secrets", e)), true)
      case Success(listed) => SecretSync(Success(WithSecrets(app, CopySecrets(listed))), true)
  }

  // ---------------------------------------------------------------------------
  // Traffic

  /** The single traffic entry sending everything to one revision. */
  function FullTrafficTo(revisionName: string): TrafficWeight {
    TrafficWeight(Some(revisionName), Some(100), None, None)
  }

  function TrafficOf(app: ContainerApp): seq<TrafficWeight>
    requires HasIngress(app)
  {
    app.properties.value.configuration.value.ingress.value.traffic
  }

  predicate HasIngress(app: ContainerApp) {
    HasConfiguration(app) && app.properties.value.configuration.value.ingress.Some?
  }

  /** The app with its ingress traffic list replaced. */
  function WithTraffic(app: ContainerApp, traffic: seq<TrafficWeight>): ContainerApp
    requires HasIngress(app)
  {
    var props := app.properties.value;
    var config := props.configuration.value;
    var ingress := config.ingress.value.(traffic := traffic);
    app.(properties := Some(props.(configuration := Some(config.(ingress := Some(ingress))))))
  }

  /** Sum of the weights present in a traffic list. */
  function TotalWeight(traffic: seq<TrafficWeight>): int {
    if traffic == [] then 0
    else (if traffic[0].weight.Some? then traffic[0].weight.value else 0) + TotalWeight(traffic[1..])
  }

  /** The app rewrite of `setTrafficWeights`: exactly one traffic entry, for the
      given revision at weight 100, whatever the list held before; nothing else
      changes. */
  function SetTrafficWeights(app: ContainerApp, revisionName: string): (r: Result<ContainerApp, Error>)
    ensures !HasIngress(app) ==> r == Failure(Panic(NilDereference))
    ensures HasIngress(app) ==>
      && r.Success? && HasIngress(r.value)
      && |TrafficOf(r.value)| == 1
      && TrafficOf(r.value)[0].revisionName == Some(revisionName)
      && TrafficOf(r.value)[0].weight == Some(100)
      && TotalWeight(TrafficOf(r.value)) == 100
      && WithTraffic(r.value, []) == WithTraffic(app, [])
  {
    if !HasIngress(app) then Failure(Panic(NilDereference))
    else Success(WithTraffic(app, [FullTrafficTo(revisionName)]))
  }

  // ---------------------------------------------------------------------------
  // Properties relating the transforms

  /** Syncing twice against the same listing gives what syncing once gave. */
  lemma SyncSecretsIdempotent(app: ContainerApp, response: Result<seq<ListedSecret>, Error>)
    requires SyncSecrets(app, response).result.Success?
    ensures var once := SyncSecrets(app, response).result.value;
      SyncSecrets(once, response).result == Success(once)
  {
    var once := SyncSecrets(app, response).result.value;
    if |SecretsOf(app)| > 0 && |SecretsOf(once)| > 0 {
      assert SecretsOf(once) == CopySecrets(response.value);
      assert WithSecrets(once, CopySecrets(response.value)) == once;
    }
  }

  /** A later traffic reset overrides an earlier one entirely. */
  lemma SetTrafficWeightsLastWins(app: ContainerApp, first: string, second: string)
    requires HasIngress(app)
    ensures SetTrafficWeights(SetTrafficWeights(app, first).value, second) == SetTrafficWeights(app, second)
  {
  }

  /** Neither a secret sync nor a traffic reset changes the app's host names. */
  lemma TransformsKeepHostNames(app: ContainerApp, response: Result<seq<ListedSecret>, Error>, revisionName: string)
    ensures SyncSecrets(app, response).result.Success? ==>
      HostNames(SyncSecrets(app, response).result.value) == HostNames(app)
    ensures SetTrafficWeights(app, revisionName).Success? ==>
      HostNames(SetTrafficWeights(app, revisionName).value) == HostNames(app)
  {
  }
}
