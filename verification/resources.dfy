/** The Azure Container Apps resources the service reads and writes, restricted
    to the fields it touches plus a few it must carry through unchanged. An
    `Option` field is a Go pointer that may be nil. */
module Resources {
  import opened Wrappers
  import opened Errors

  /** Values of the control plane's revision running state. */
  const RevisionRunning: string := "Running"
  const RevisionProcessing: string := "Processing"
  const RevisionUnknown: string := "Unknown"
  const RevisionFailed: string := "Failed"
  const RevisionStopped: string := "Stopped"
  const RevisionDegraded: string := "Degraded"

  /** Replica running state that counts as running. */
  const ReplicaRunning: string := "Running"

  /** Values of the app's active-revisions mode. */
  const ModeSingle: string := "Single"
  const ModeMultiple: string := "Multiple"

  datatype Container = Container(name: Option<string>, image: Option<string>)

  /** The runtime template a revision is created from. */
  datatype Template = Template(
    revisionSuffix: Option<string>,
    containers: seq<Container>,
    initContainers: seq<Container>)

  /** A secret as carried on the app's configuration. The read API returns
      these without values. */
  datatype Secret = Secret(
    name: Option<string>,
    value: Option<string>,
    identity: Option<string>,
    keyVaultUrl: Option<string>)

  /** A secret as returned by the list-secrets endpoint, values included. */
  datatype ListedSecret = ListedSecret(
    name: Option<string>,
    value: Option<string>,
    identity: Option<string>,
    keyVaultUrl: Option<string>)

  datatype TrafficWeight = TrafficWeight(
    revisionName: Option<string>,
    weight: Option<int>,
    latestRevision: Option<bool>,
    trafficLabel: Option<string>)

  datatype Ingress = Ingress(
    fqdn: Option<string>,
    external: Option<bool>,
    targetPort: Option<int>,
    traffic: seq<TrafficWeight>)

  datatype Configuration = Configuration(
    activeRevisionsMode: Option<string>,
    ingress: Option<Ingress>,
    secrets: seq<Secret>)

  datatype AppProperties = AppProperties(
    configuration: Option<Configuration>,
    template: Option<Template>,
    latestRevisionName: Option<string>,
    managedEnvironmentId: Option<string>)

  datatype ContainerApp = ContainerApp(location: Option<string>, properties: Option<AppProperties>)

  /** The zero value `armappcontainers.ContainerApp{}`. */
  const EmptyApp: ContainerApp := ContainerApp(None, None)

  datatype RevisionProperties = RevisionProperties(
    active: Option<bool>,
    runningState: Option<string>,
    template: Option<Template>)

  datatype Revision = Revision(properties: Option<RevisionProperties>)

  datatype ReplicaContainer = ReplicaContainer(name: Option<string>, ready: Option<bool>)

  /** A replica of a revision; its properties are flattened into it. */
  datatype Replica = Replica(runningState: Option<string>, containers: seq<ReplicaContainer>)

  /** An app whose configuration can be read and replaced. */
  predicate HasConfiguration(app: ContainerApp) {
    app.properties.Some? && app.properties.value.configuration.Some?
  }

  /** The response of an app update: the submission (`BeginUpdate`) or the
      wait for its completion (`PollUntilDone`) may fail. */
  datatype UpdateResponse = BeginFailed(beginError: Error) | PollFailed(pollError: Error) | Completed
}

/** What the service is constructed with, minus the credential provider and
    the HTTP client, which the model does not need. */
module Service {

  /** A per-call pipeline policy on the ARM client options. */
  datatype PerCallPolicy = ApiVersionOverride | Configured(name: string)

  datatype ClientOptions = ClientOptions(perCallPolicies: seq<PerCallPolicy>)

  datatype Service = Service(
    /** Base URL of the management portal. */
    portalUrlBase: string,
    /** Whether `AZD_DEMO_MODE` parses as the boolean true. */
    demoMode: bool,
    /** Terminal hyperlink formatting of a URL, opaque to the model. */
    formatLink: string -> string,
    /** The ARM client options every client is built from. */
    options: ClientOptions,
    /** The api-version the SDK client is compiled against. */
    sdkApiVersion: string)
}
