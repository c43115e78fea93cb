# AzureManagedCluster admission validation

A Dafny model of the validating webhook for the `AzureManagedCluster` resource of the Cluster API provider for Azure, as its table-driven tests pin it down:

- **Create** (`ValidateCreate`) is admitted exactly when the `MachinePool` feature gate is on. The object's contents do not matter, and that includes a control-plane endpoint host or port that is already set, as happens when `clusterctl move` copies an object from another cluster. At process start the gate is off.
- **Update** (`ValidateUpdate`) freezes the custom-header annotations. These are the annotations whose key starts with `infrastructure.cluster.x-k8s.io/custom-header-`. Such a key may not change value, be removed or be added. Every other annotation, and both fields of `Spec.ControlPlaneEndpoint`, may change freely. The test rows only fill in an unset endpoint (port 0 to 443, host empty to the AKS host); that a host or port already set may also change is the validator's design rule that these fields may change freely, not something a test row fixes.

Files:

- `feature_gates.dfy` (module `FeatureGates`): the gate registry as a value `map<string, bool>`. It has the `MachinePool` default, a lookup in which an unknown name reads as off, and the per-test override with its restore handle. Every override in the tests is of `MachinePool`, which the defaults already register; overriding a name that was never registered, and unregistering it again on restore, is this model's own extension.
- `managed_cluster.dfy` (module `ManagedCluster`): the object (annotations plus `APIEndpoint{host, port}`), the reserved prefix and the custom-header filter.
- `webhook.dfy` (module `ManagedClusterWebhook`): the two admission decisions and the lemmas about them. A rejection carries the set of all violations found, so several annotation violations are reported together.
- `webhook_scenarios.dfy` (module `ManagedClusterWebhookScenarios`): the rows of the test tables on their literal objects: one lemma per update row, while the two rows of each create table share one lemma.

The webhook's own Go source is not part of this model. The behaviour modelled is the behaviour the test file fixes, and the error kinds follow the design of the validator: feature-disabled, immutable value, forbidden removal and forbidden addition.

## Model

| member | source | states |
|---|---|---|
| `ManagedCluster.CustomHeaders` | api/v1beta1/azuremanagedcluster_webhook_test.go:43-123 | A key is in the custom-header view iff it is an annotation key starting with the literal prefix, and it keeps its value there |
| `ManagedCluster.CustomHeadersEqualIff` | api/v1beta1/azuremanagedcluster_webhook_test.go:43-123 | Two annotation maps have equal custom-header views iff they agree, on presence and value, at every key with the prefix |
| `FeatureGates.Save` | api/v1beta1/azuremanagedcluster_webhook_test.go:238 | The saved state records whether the gate was registered and, if it was, its value |
| `FeatureGates.Override` | api/v1beta1/azuremanagedcluster_webhook_test.go:33 | After an override the named gate reads as the value set, and every other gate reads as before |
| `FeatureGates.Restore` | api/v1beta1/azuremanagedcluster_webhook_test.go:248 | Restoring puts the saved value back, or unregisters the gate if it was unregistered; other gates are untouched |
| `FeatureGates.OverrideThenRestore` | api/v1beta1/azuremanagedcluster_webhook_test.go:182 | Overriding a gate and then calling the restore handle leaves the registry exactly as it was |
| `FeatureGates.MachinePoolOffByDefault` | api/v1beta1/azuremanagedcluster_webhook_test.go:240-244 | Without any override, `MachinePool` is off |
| `ManagedClusterWebhook.Classify` | api/v1beta1/azuremanagedcluster_webhook_test.go:43-101 | A differing key is a removal iff only the old map has it, an addition iff only the new map has it, and a value change iff both have it |
| `ManagedClusterWebhook.AnnotationViolations` | api/v1beta1/azuremanagedcluster_webhook_test.go:43-123 | Every reported violation names a custom-header key whose presence or value differs between the old and new annotations |
| `ManagedClusterWebhook.AnnotationViolationsExact` | api/v1beta1/azuremanagedcluster_webhook_test.go:43-123 | Removed(k), Added(k) and Immutable(k) are reported exactly for the custom-header keys that were dropped, introduced or given a new value |
| `ManagedClusterWebhook.ValidateUpdate` | api/v1beta1/azuremanagedcluster_webhook_test.go:167-176 | The update is admitted iff there is no annotation violation, and a rejection carries all of them |
| `ManagedClusterWebhook.ValidateCreate` | api/v1beta1/azuremanagedcluster_webhook_test.go:215-224 | Create is admitted iff `MachinePool` is on; otherwise the only violation is feature-disabled for `MachinePool` |
| `ManagedClusterWebhook.ValidateCreateWith` | api/v1beta1/azuremanagedcluster_webhook_test.go:246-252 | Create against a registry is admitted iff `MachinePool` is registered and on there |
| `ManagedClusterWebhook.UpdateAllowedIffCustomHeadersFrozen` | api/v1beta1/azuremanagedcluster_webhook_test.go:43-123 | An update is admitted iff the old and new custom-header views are equal |
| `ManagedClusterWebhook.UpdateIdentityAllowed` | api/v1beta1/azuremanagedcluster_webhook_test.go:102-123 | Updating any object to itself is admitted |
| `ManagedClusterWebhook.UpdateRejectsCustomHeaderChange` | api/v1beta1/azuremanagedcluster_webhook_test.go:43-101 | Any difference at a custom-header key rejects the update with a violation naming that key |
| `ManagedClusterWebhook.UpdateRejectsValueChange` | api/v1beta1/azuremanagedcluster_webhook_test.go:43-62 | Giving an existing custom-header annotation a different value is rejected with exactly one immutable-value violation for it |
| `ManagedClusterWebhook.UpdateRejectsRemoval` | api/v1beta1/azuremanagedcluster_webhook_test.go:63-80 | Dropping an existing custom-header annotation is rejected with exactly one removal violation for it |
| `ManagedClusterWebhook.UpdateRejectsAddition` | api/v1beta1/azuremanagedcluster_webhook_test.go:81-101 | Introducing a custom-header annotation is rejected with exactly one addition violation, even when all existing ones are kept |
| `ManagedClusterWebhook.UpdateDependsOnlyOnCustomHeaders` | api/v1beta1/azuremanagedcluster_webhook_test.go:102-165 | Two submitted objects with the same custom-header view get the same verdict, whatever their other annotations and spec |
| `ManagedClusterWebhook.UpdateIgnoresOtherAnnotationSet` | api/v1beta1/azuremanagedcluster_webhook_test.go:102-123 | Adding or changing an annotation without the prefix never changes the verdict |
| `ManagedClusterWebhook.UpdateIgnoresOtherAnnotationRemoval` | api/v1beta1/azuremanagedcluster_webhook_test.go:102-123 | Removing an annotation without the prefix never changes the verdict |
| `ManagedClusterWebhook.UpdateIgnoresEndpoint` | api/v1beta1/azuremanagedcluster_webhook_test.go:124-165 | Replacing the control-plane endpoint of either object never turns an admitted update into a rejected one |
| `ManagedClusterWebhook.CreateIgnoresContents` | api/v1beta1/azuremanagedcluster_webhook_test.go:192-213 | For a given gate state, create gives the same verdict for every object |
| `ManagedClusterWebhook.CreateRejectedByDefault` | api/v1beta1/azuremanagedcluster_webhook_test.go:240-244 | With the registry at its defaults, every create is rejected as feature-disabled for `MachinePool` |
| `ManagedClusterWebhook.CreateFollowsOverride` | api/v1beta1/azuremanagedcluster_webhook_test.go:235-239 | After `MachinePool` is overridden to a value, create is admitted iff that value is true |
| `ManagedClusterWebhookScenarios.ValueChangeRejected` | api/v1beta1/azuremanagedcluster_webhook_test.go:43-62 | `SomeFeature` going from "true" to "false" is rejected as an immutable-value change |
| `ManagedClusterWebhookScenarios.RemovalRejected` | api/v1beta1/azuremanagedcluster_webhook_test.go:63-80 | Removing `SomeFeature` is rejected as a removal |
| `ManagedClusterWebhookScenarios.AdditionRejected` | api/v1beta1/azuremanagedcluster_webhook_test.go:81-101 | Adding `AnotherFeature` beside an unchanged `SomeFeature` is rejected as an addition |
| `ManagedClusterWebhookScenarios.OtherAnnotationsMutable` | api/v1beta1/azuremanagedcluster_webhook_test.go:102-123 | Dropping `annotation-a` and adding `annotation-b` while `SomeFeature` stays is admitted |
| `ManagedClusterWebhookScenarios.EndpointPortUpdateAllowed` | api/v1beta1/azuremanagedcluster_webhook_test.go:124-144 | Setting the port from 0 to 443 under the AKS host is admitted |
| `ManagedClusterWebhookScenarios.EndpointHostUpdateAllowed` | api/v1beta1/azuremanagedcluster_webhook_test.go:145-165 | Setting the host from empty to the AKS host under port 443 is admitted |
| `ManagedClusterWebhookScenarios.CreateWithEndpointAllowed` | api/v1beta1/azuremanagedcluster_webhook_test.go:179-225 | With `MachinePool` overridden on, create with host `my-host` or with port 4443 is admitted |
| `ManagedClusterWebhookScenarios.CreateOfEmptyRejectedWhenGateOff` | api/v1beta1/azuremanagedcluster_webhook_test.go:227-257 | An empty object is rejected on create when `MachinePool` is explicitly overridden off and also when the registry is at its defaults |

## Left out

- The Kubernetes admission framework, object decoding and the `runtime.Object` cast: the validator receives the two objects as values.
- The warnings list returned beside the error: the tests discard it.
- Error message text, field paths such as `metadata.annotations[<key>]` and the bad value: a rejection is modelled as the set of violation kinds and keys only. The tests check only error against no error.
- The feature-gate registry as shared mutable process state and its concurrency: the gate is a value passed to `ValidateCreate`, and `ValidateCreateWith` reads it from a gate map.
- Every field of `AzureManagedClusterSpec` other than `ControlPlaneEndpoint`, and delete validation: nothing in the modelled code restricts them.
- The test harness: the gomega assertions, the `t.Run` loops, and the `defer` scheduling of the restore call (the restore itself is `FeatureGates.Restore`).
- azure/services/asyncpoller/mock_asyncpoller/doc.go: it holds only `go:generate` directives for a generated mock and has no logic.
