# Container Apps rollout, modelled in Dafny

This project models the Azure Container Apps service of the Azure Developer CLI.
It covers four operations:

- **`waitForRevisionReady`** polls a revision until it runs, fails, turns out inactive, or the caller cancels. It prints deduplicated replica-count status lines and backs off from 3 to 10 seconds.
- **`AddRevision`** rolls out a new image. It clones the latest revision's template under an `azd-<unix seconds>` suffix, re-reads the app's secrets, submits the update and waits for the new revision. In multiple-revision mode it then sends all traffic to that revision.
- **`DeployYaml`** applies a YAML manifest. If the manifest's top-level `api-version` holds a string, the manifest goes out through an extra per-call policy. That policy pins the api-version query parameter and injects the raw JSON body. Otherwise the manifest is converted to the SDK's typed app and sent the usual way.
- **`GetIngressConfiguration`** reports the ingress host names.

Every remote call is an input, not a side effect:

- A Get or List is a `Result`.
- An update is an `UpdateResponse`.
- The poller's iterations are a finite `seq<Observation>`.

A poller that runs out of observations exits with `StillPolling`. That stands for a loop that has not ended yet.

A Go runtime panic is modelled as the error `Panic(reason)`, which `Wrap` never encloses. This covers a nil pointer dereference and `Containers[0]` on an empty list.

Running states and revision modes are strings, because the Go code compares strings.

Modules:

- `Wrappers`: `Option` and `Result`.
- `Decimal`: `%d` rendering, and its injectivity.
- `Errors`: the error tree and `err.Error()` text.
- `Resources` and `Service`: the SDK records and the service's settings.
- `Replicas`: the replica counts.
- `Readiness`: one poll iteration and the loop.
- `ReadinessProofs`: whole-run properties.
- `AppTransforms`: get, update, ingress, secrets and traffic.
- `RevisionUpdater`: `AddRevision`.
- `Deployment`: `DeployYaml` and the policy's `Do`.

## Model

All source paths are in `cli/azd/pkg/containerapps/container_app.go`.

| member | source | states |
|---|---|---|
| Decimal.NatToString | cli/azd/pkg/containerapps/container_app.go:407-413 | `%d` of a natural number is a non-empty digit string with no leading zero (unless it is "0") |
| Decimal.IntToString | cli/azd/pkg/containerapps/container_app.go:251 | `%d` of an integer is non-empty; it starts with '-' exactly when the number is negative; otherwise it is all digits |
| Decimal.NatToStringInjective | cli/azd/pkg/containerapps/container_app.go:407-413 | distinct counts render differently, via the parse round trip `ParseNat(NatToString(n)) == n` |
| Decimal.ParseNatToString | cli/azd/pkg/containerapps/container_app.go:407-413 | parsing the decimal rendering gives back the number (the inverse that makes the rendering lossless) |
| Decimal.IntToStringInjective | cli/azd/pkg/containerapps/container_app.go:251 | distinct Unix times give distinct suffix digits, negative times included |
| Errors.Wrap | cli/azd/pkg/containerapps/container_app.go:136 | `fmt.Errorf("<context>: %w")` prefixes the context to the inner text; a panic is never wrapped |
| Replicas.RunningCountExtremes | cli/azd/pkg/containerapps/container_app.go:385-392 | the running count equals the list length exactly when every replica's state is Running, and is 0 exactly when none is |
| Replicas.ReadyCountExtremes | cli/azd/pkg/containerapps/container_app.go:388-404 | the ready count equals the list length exactly when every replica has only containers whose ready flag is set and true, and is 0 exactly when none has |
| Replicas.CountReplicas | cli/azd/pkg/containerapps/container_app.go:385-405 | the nested counting loop (a nil ready flag makes the replica not ready) computes the running and ready counts of the whole list, each at most its length |
| Readiness.Step | cli/azd/pkg/containerapps/container_app.go:325-430 | one iteration: a GetRevision error is wrapped with the revision name; an inactive revision fails whatever its state; a Running state returns nil, and nothing else does; a Failed, Stopped or Degraded state returns the suggestion error with the details suffix; replicas are listed exactly for other states; a status line is logged exactly when it differs from the last one; the sleep becomes 10s once more than 20 sleeps are done; cancellation returns ctx.Err() unwrapped; a nil active flag, or a nil running state on an active revision, panics |
| Readiness.StatusLine | cli/azd/pkg/containerapps/container_app.go:407-413 | every status line strictly extends the bare prefix |
| Readiness.WaitForRevisionReady | cli/azd/pkg/containerapps/container_app.go:294-295 | the bare prefix is the first progress line, before any remote call |
| Readiness.Run | cli/azd/pkg/containerapps/container_app.go:324-431 | the loop takes at most one sleep and logs at most one line per iteration |
| Readiness.FirstStop | cli/azd/pkg/containerapps/container_app.go:324-431 | the index of the first iteration that does not complete its sleep: every earlier one proceeds, and that one does not |
| ReadinessProofs.StepStopIgnoresState | cli/azd/pkg/containerapps/container_app.go:325-383 | whether an iteration ends the loop, and with what error, does not depend on the previous status, the delay or the poll count |
| ReadinessProofs.RunStopsAtFirstStop | cli/azd/pkg/containerapps/container_app.go:324-431 | the loop ends with the result of the first non-proceeding iteration, after exactly one sleep per earlier iteration; it is still polling exactly when every observation proceeds |
| ReadinessProofs.WaitSucceedsIffRunning | cli/azd/pkg/containerapps/container_app.go:374-376 | the wait returns nil if and only if the iteration that ends it sees an active, Running revision |
| ReadinessProofs.WaitFailsWhenInactive | cli/azd/pkg/containerapps/container_app.go:330-332 | the first observation of an inactive revision ends the wait at the latest, and if it ends there, with the "is not active" error |
| ReadinessProofs.WaitFailsOnFailedState | cli/azd/pkg/containerapps/container_app.go:334-370 | a Failed, Stopped or Degraded revision ends the wait with the error naming revision, state and non-empty details, carrying the suggestion |
| ReadinessProofs.WaitReturnsCancellation | cli/azd/pkg/containerapps/container_app.go:425-427 | cancellation during the sleep returns the context's own error |
| Readiness.DetailsSuffix | cli/azd/pkg/containerapps/container_app.go:339-346 | the ", details" suffix is empty exactly when the details are missing or empty, and otherwise is ", " followed by them |
| ReadinessProofs.ProcessingAndUnknownKeepPolling | cli/azd/pkg/containerapps/container_app.go:371-373 | an active revision in the Processing or Unknown state keeps being polled; the iteration sleeps and goes round again exactly when the replicas were listed and the caller did not cancel |
| ReadinessProofs.SuggestionParts | cli/azd/pkg/containerapps/container_app.go:364-369 | the suggestion opens with "To view logs:" and the revision-management link (or its demo-mode placeholder), and closes with the troubleshooting link |
| ReadinessProofs.SuggestionLinksRevisionManagement | cli/azd/pkg/containerapps/container_app.go:348-353 | outside demo mode, the suggestion links to the portal's revision-management view of the app |
| ReadinessProofs.SuggestionInDemoModeHidesLocation | cli/azd/pkg/containerapps/container_app.go:355-357 | in demo mode, the suggestion depends on neither the portal base URL, nor the subscription, nor the resource group |
| ReadinessProofs.RunFollowsSchedule | cli/azd/pkg/containerapps/container_app.go:420-430 | from a state whose delay agrees with its poll count, the j-th sleep has the length the schedule gives for that poll count plus j |
| ReadinessProofs.WaitBackoffSchedule | cli/azd/pkg/containerapps/container_app.go:322-323 | the first 21 sleeps last 3 seconds and all later ones 10, so the delays never decrease |
| ReadinessProofs.RunLogDeduplicated | cli/azd/pkg/containerapps/container_app.go:415-418 | the loop never logs the previous status again, and never logs the same line twice in a row |
| ReadinessProofs.WaitProgressDeduplicated | cli/azd/pkg/containerapps/container_app.go:294-295 | the progress callback hears the prefix first, at most one line per iteration after it, and never the same line twice in a row |
| ReadinessProofs.StatusLineInjective | cli/azd/pkg/containerapps/container_app.go:407-418 | two status lines are equal if and only if their running, ready and total counts are, so a line is logged exactly when a count changed |
| ReadinessProofs.FirstStatusAlwaysEmitted | cli/azd/pkg/containerapps/container_app.go:321 | the first iteration that lists replicas always logs its status line, since no status line equals the bare prefix |
| AppTransforms.GetContainerApp | cli/azd/pkg/containerapps/container_app.go:527-532 | the Get result is passed through, or its error is wrapped with "getting container app" |
| AppTransforms.UpdateContainerApp | cli/azd/pkg/containerapps/container_app.go:547-557 | nil exactly when the update completed; a begin failure and a poll failure are wrapped with their own texts |
| AppTransforms.HostNames | cli/azd/pkg/containerapps/container_app.go:107-115 | the host names are the ingress FQDN alone when every pointer to it is set, and empty otherwise |
| AppTransforms.GetIngressConfiguration | cli/azd/pkg/containerapps/container_app.go:96-120 | a Get error is wrapped twice; otherwise the configuration lists exactly the FQDN, or nothing |
| AppTransforms.CopySecrets | cli/azd/pkg/containerapps/container_app.go:478-486 | the secret list has one entry per listed secret, in order, each carrying the name, value, identity and Key Vault URL |
| AppTransforms.SyncSecrets | cli/azd/pkg/containerapps/container_app.go:453-491 | an app with no secrets is returned untouched and the endpoint is not called; otherwise a list error is wrapped, or the secret list is replaced by the listed ones field by field and nothing else in the app changes |
| AppTransforms.SetTrafficWeights | cli/azd/pkg/containerapps/container_app.go:501-506 | the traffic becomes exactly one entry, the given revision at weight 100 (the weights sum to 100), and nothing else in the app changes |
| AppTransforms.SyncSecretsIdempotent | cli/azd/pkg/containerapps/container_app.go:453-491 | syncing a synced app against the same listing changes nothing |
| AppTransforms.SetTrafficWeightsLastWins | cli/azd/pkg/containerapps/container_app.go:501-506 | a later traffic reset fully overrides an earlier one |
| AppTransforms.TransformsKeepHostNames | cli/azd/pkg/containerapps/container_app.go:107-115 | neither the secret sync nor the traffic reset changes the app's host names |
| RevisionUpdater.RevisionSuffix | cli/azd/pkg/containerapps/container_app.go:251 | the suffix is "azd-" followed by the decimal Unix seconds |
| RevisionUpdater.RevisionName | cli/azd/pkg/containerapps/container_app.go:252-254 | a revision name is the app name, then "--", then the suffix |
| RevisionUpdater.RevisionNameInjective | cli/azd/pkg/containerapps/container_app.go:251-254 | two rollouts of one app get the same revision name if and only if they ran in the same second |
| RevisionUpdater.RevisionNameForFixedClock | cli/azd/pkg/containerapps/container_app.go:251-254 | for app "api" at Unix time 1700000000, the new revision is "api--azd-1700000000" |
| RevisionUpdater.NewTemplate | cli/azd/pkg/containerapps/container_app.go:255-256 | the template gets the new suffix and only the first container's image changes; an empty container list panics on the index |
| RevisionUpdater.NewTemplateIdempotent | cli/azd/pkg/containerapps/container_app.go:255-256 | applying the same suffix and image again changes nothing |
| RevisionUpdater.AssignTemplate | cli/azd/pkg/containerapps/container_app.go:259 | the app carries the new template and nothing else in it changes |
| RevisionUpdater.NewRevisionNameSpelled | cli/azd/pkg/containerapps/container_app.go:251-254 | the new revision is named appName--azd-<seconds> |
| RevisionUpdater.Prepare | cli/azd/pkg/containerapps/container_app.go:232-259 | the steps before the rollout succeed exactly when the app is read and names its latest revision, and that revision is read with a template that has a first container. Each failure comes with its own result: the app error wrapped twice with "getting container app", a panic on a nil latest revision name, the revision error wrapped with "getting revision '<name>'", a panic on a nil template, a panic on an empty container list. On success the app is the fetched one with only its template replaced; the template gets the new suffix and image and keeps its other containers and init containers |
| RevisionUpdater.PrepareKeepsConfiguration | cli/azd/pkg/containerapps/container_app.go:259 | replacing the template keeps the app's configuration, secrets, revision mode and ingress |
| RevisionUpdater.AddRevision | cli/azd/pkg/containerapps/container_app.go:224-285 | Aborts: every failure before the submission has its own text ("getting container app: getting container app: …", "getting revision '<name>': …", "syncing secrets: listing secrets: …") or panic, and nothing is submitted. Submission: something is submitted exactly when every read succeeded. The first submission is the fetched app with the re-suffixed, re-imaged template and the re-read secrets, and nothing else differs. Update and wait: a failed update is wrapped with "updating container app revision". Otherwise the wait is on appName--azd-<seconds>, and a failed or unfinished wait is returned unwrapped. Revision mode: after a successful wait, a nil mode panics and a mode other than Multiple returns nil. Multiple mode without ingress panics. Multiple mode with ingress submits a traffic-only second update, which returns nil when it completes and otherwise "setting traffic weights: updating traffic weights: …". nil is returned exactly on those paths |
| RevisionUpdater.SingleModeSkipsTraffic | cli/azd/pkg/containerapps/container_app.go:276-284 | in single-revision mode at most one update is submitted, and nil is returned exactly when the wait on the new revision succeeds |
| RevisionUpdater.Rollout | cli/azd/pkg/containerapps/container_app.go:259-284 | The steps after the template is assigned run in order: sync secrets, update, wait, traffic. Sync: a nil configuration panics and a secret-list failure is wrapped with "syncing secrets"; the secrets are listed exactly when the app has some. The first submission differs from the assigned app only in its secrets, which are the listed ones. Update: a failed update is wrapped with "updating container app revision". Wait: a failed or unfinished wait is returned as it is. Revision mode: it then decides between nil, a panic, or the wrapped traffic-update error; nil is returned exactly when the wait succeeded, the mode is set, and in Multiple mode the traffic update completed |
| Deployment.Do | cli/azd/pkg/containerapps/container_app.go:621-635 | with a body set, the api-version query parameter is pinned, the other parameters are kept, and the body and content type are replaced (or the body error is wrapped); without one the request passes untouched |
| Deployment.DoIdempotent | cli/azd/pkg/containerapps/container_app.go:621-635 | a request the policy already rewrote is not changed by a second pass |
| Deployment.SendAll | cli/azd/pkg/containerapps/container_app.go:179-181 | with the body cleared, every later request leaves the policy unchanged |
| Deployment.WithOverridePolicy | cli/azd/pkg/containerapps/container_app.go:587-589 | the new client's per-call policies are the service's own list, unchanged, followed by the override |
| Deployment.DeployYaml | cli/azd/pkg/containerapps/container_app.go:126-220 | A decoding error is wrapped. Pinned path: a string api-version selects it. The appended policy sends that version and the manifest without the key, then clears its body. Standard path: otherwise the whole manifest goes out, converted to the typed app, under the SDK's version and the service's own policies. Submission errors are wrapped with "applying manifest". After an accepted submission, later requests pass untouched. A polling error is wrapped with "polling for container app update completion", a nil latest revision panics, and otherwise the exit and progress are the wait on the reported latest revision. Without an accepted submission nothing is awaited |
| Deployment.Complete | cli/azd/pkg/containerapps/container_app.go:208-219 | a polling error is wrapped; a nil latest revision name panics; otherwise the result is the wait on the reported latest revision |
| Deployment.PinnedRequestRestoresManifest | cli/azd/pkg/containerapps/container_app.go:157-167 | on the pinned path nothing is lost: the injected body with the query's api-version put back is the original manifest |

## Left out

- Credential and client construction (`createContainerAppsClient` and similar): their errors come from code this model does not cover, so every client is assumed built.
- HTTP transport, `PollUntilDone` and the long-running-operation protocol: each call's outcome is an input.
- YAML decoding and the JSON round trip into the SDK type: both are inputs (`DeployCalls.manifest`, `DeployCalls.convert`). The manifest's other values are carried but not interpreted.
- `ListSecrets` (the exported pass-through at lines 434-451): it adds nothing beyond the wrapping that `SyncSecrets` models.
- `log.Printf` in `Do`, and the exact text `output.WithLinkFormat` produces. The latter is an opaque function, `Service.formatLink`.
- The real clock and `time.After`: the Unix time is an input, and each sleep's length is recorded rather than waited.
- `AZD_DEMO_MODE` is read as an already-parsed boolean, `Service.demoMode`.
- A nil replica `Properties` pointer and nil elements in the replica, container or secret slices are not modelled. The replica record is flattened.
- The SDK's default api-version is a parameter, `Service.sdkApiVersion`.
- The `panic("should not have failed")` after `json.Marshal` (lines 161-164 and 190-193) is not modelled. Such a panic is reachable from a manifest the YAML decoder accepts, for example one holding `.nan`/`.inf` or a nested mapping with a non-string key. But the model's manifest `Value` has only string keys and keeps numbers as their literal text, so it cannot express such a manifest.
- Readiness.WaitForRevisionReady: observations are finite, so a loop that never ends appears only as `StillPolling`.
- The backoff (line 421): `pollCount > 20` is checked before each sleep, so the first 21 sleeps last 3 seconds and every later one 10. The model follows that code.
- Errors.Message: `ErrorWithSuggestion.Error()` is taken to be the inner error's text.
