# MachineScope: a verified model of the AWS provider's machine scope

The cluster-api AWS provider builds a `MachineScope` at the start of every
reconcile of an `AWSMachine`. The scope holds the `AWSMachine`, the generic
cluster-api `Machine` that owns it, the `Cluster` and the `AWSCluster`, and
gives the reconciler typed access to them:

- `NewMachineScope` rejects a missing client, machine, cluster, AWSMachine or
  AWSCluster, in that order, and defaults the logger;
- getters read the AWSMachine (name, namespace, provider ID, instance state)
  and derive the instance ID from the provider ID;
- setters each overwrite one field of the AWSMachine in place;
  `SetAnnotation` creates the annotation map when it is absent;
- `IsControlPlane` and `Role` classify the owning Machine;
- `AdditionalTags` merges the cluster's and the machine's additional tags,
  the machine's value winning on a shared key.

Files:

- `wrappers.dfy` (module `Wrappers`): `Option` for nil-able pointers, `Result`
  for (value, error) returns.
- `api_types.dfy` (module `ApiTypes`): the records, reduced to the fields the
  scope uses; `AWSMachine` is a class, because the scope and the reconciler
  share it and the setters update it in place, while `Cluster`, `Machine` and
  `AWSCluster` are values, because the scope only reads them. `Overlay` specifies
  tag merging and `Merge` is the upserting loop of `Tags.Merge`.
- `machine_scope.dfy` (module `Scope`): the construction parameters, the
  validation order, the error messages, and the `MachineScope` class.

Calls into libraries whose code is not part of this model are supplied when
the scope is built: `util.IsControlPlaneMachine` is the scope's constant
`isControlPlaneMachine: Machine -> bool` and `noderefutil.NewProviderID` its
constant `parseProviderID: string -> Result<ProviderID, string>`, so
`IsControlPlane`, `Role` and `GetInstanceID` always use one fixed function each,
as the source's calls to one global function do. `klogr.New()` is the
`defaultLogger` argument, and the outcome of `patch.NewHelper` is the
`helperErr` argument. So the contracts hold for every behaviour those
libraries may have.

## Model

| member | source | states |
|---|---|---|
| `Scope.FirstMissing` | pkg/cloud/scope/machine.go:50-64 | The input reported missing is really absent and every input checked before it (client, machine, cluster, AWSMachine, AWSCluster) is supplied; no input is reported only when all five are supplied. |
| `Scope.NewMachineScope` | pkg/cloud/scope/machine.go:49-84 | Fails with the first missing input, and no scope, when any is missing; otherwise fails with the wrapped helper error when the patch helper cannot be set up; otherwise returns a new scope holding exactly the given client, cluster, machine, AWSCluster and AWSMachine (the same object), and the given logger or the default one when none was given. |
| `Scope.ScopeError.Message` | pkg/cloud/scope/machine.go:50-73 | A missing input gives "<noun> is required when creating a MachineScope", the noun being "client", "machine", "cluster", "aws machine" or "aws cluster"; a patch-helper failure gives "failed to init patch helper: " followed by the cause's text, as `errors.Wrap` forms it. |
| `Scope.MissingMessagesDiffer` | pkg/cloud/scope/machine.go:50-64 | The five missing-input error messages are pairwise different, so each names the input that is missing. |
| `Scope.MachineScope.constructor` | pkg/cloud/scope/machine.go:74-83 | The scope's fields are exactly the values it is built from. |
| `Scope.MachineScope.Name` | pkg/cloud/scope/machine.go:98-101 | The AWSMachine's name; no setter changes it. |
| `Scope.MachineScope.Namespace` | pkg/cloud/scope/machine.go:103-106 | The AWSMachine's namespace; no setter changes it. |
| `Scope.MachineScope.IsControlPlane` | pkg/cloud/scope/machine.go:108-111 | The scope's fixed control-plane test applied to the owning Machine, labels included. |
| `Scope.MachineScope.Role` | pkg/cloud/scope/machine.go:113-119 | The role is "control-plane" exactly when IsControlPlane holds and "node" exactly when it does not, so it is never anything else and never disagrees with IsControlPlane. |
| `Scope.MachineScope.GetProviderID` | pkg/cloud/scope/machine.go:130-136 | The stored provider ID when one is present, the empty string when it is absent. |
| `Scope.MachineScope.GetInstanceID` | pkg/cloud/scope/machine.go:121-128 | An instance ID exactly when the provider ID parses, and then the parsed ID; a parse failure gives no ID, not an error. |
| `Scope.MachineScope.SetProviderID` | pkg/cloud/scope/machine.go:138-141 | Only the provider ID changes, and afterwards GetProviderID returns the value set. |
| `Scope.MachineScope.GetInstanceState` | pkg/cloud/scope/machine.go:143-146 | The stored instance state, absent when none is stored. |
| `Scope.MachineScope.SetInstanceState` | pkg/cloud/scope/machine.go:148-151 | Only the instance state changes, and afterwards GetInstanceState returns the value set. |
| `Scope.MachineScope.SetReady` | pkg/cloud/scope/machine.go:153-156 | Only the ready flag changes, to true. |
| `Scope.MachineScope.SetErrorMessage` | pkg/cloud/scope/machine.go:158-161 | Only the error message changes, to the error's text. |
| `Scope.MachineScope.SetErrorReason` | pkg/cloud/scope/machine.go:163-166 | Only the error reason changes, to the reason given. |
| `Scope.Annotate` | pkg/cloud/scope/machine.go:168-174 | The annotations after an upsert map the key to the value and keep every other key, and its value, exactly as before; an absent map counts as empty. |
| `Scope.AnnotateTwice` | pkg/cloud/scope/machine.go:168-174 | Setting the same annotation twice leaves only the later value. |
| `Scope.MachineScope.SetAnnotation` | pkg/cloud/scope/machine.go:168-174 | The annotation map is present afterwards, whether or not it was before, and equals the upsert of the key into the old map; the rest of the metadata (name, namespace, labels), the spec and the status are unchanged. |
| `Scope.MachineScope.SetAddresses` | pkg/cloud/scope/machine.go:176-179 | Only the address list changes, replaced wholesale by the one given. |
| `Scope.MachineScope.Close` | pkg/cloud/scope/machine.go:181-184 | Returns the patch helper's outcome unchanged; promises nothing about the record. |
| `ApiTypes.Overlay` | pkg/cloud/scope/machine.go:186-194 | Merging tags keeps the keys of both maps; on a shared key the merged-in map's value wins, otherwise the value of whichever map holds the key. |
| `ApiTypes.Merge` | pkg/cloud/scope/machine.go:191-194 | Upserting every entry of the other map, one key at a time, yields exactly their Overlay. |
| `ApiTypes.OverlayExample` | pkg/cloud/scope/machine.go:186-187 | Cluster tags {env: prod, team: x} under machine tags {env: dev} merge to {env: dev, team: x}. |
| `Scope.MachineScope.AdditionalTags` | pkg/cloud/scope/machine.go:186-197 | The result's keys are exactly the union of the cluster's and the machine's tag keys; the machine's value wins on a shared key, otherwise the holder's value is kept; neither source changes. |

## Left out

- The logger and `klogr.New()`: a logger is an opaque value; the default one is passed in as `defaultLogger`.
- The patch helper: its construction is reduced to its error, passed in as `helperErr`, and the before-snapshot it takes and the diff it computes are not modelled.
- Scope.MachineScope.Close: the patch and its write to the API server are network I/O in an external library; the stub returns the given outcome and states nothing about the record, which the patch may refresh from the server.
- The embedded `AWSClients` and the API-server client: the client is an opaque value that the scope only stores.
- `util.IsControlPlaneMachine` and `noderefutil.NewProviderID`: their code is not part of this model, so they are parameters and the `aws:///zone/id` format is not modelled. Whether an empty provider ID parses is up to the parser parameter.
- The body of `Tags.Merge` (package api/v1alpha2) is not part of this model; `ApiTypes.Merge` models the upsert that pkg/cloud/scope/machine.go:186-194 relies on, as a loop over the other map's keys.
- ApiTypes.Merge: returns the merged map rather than updating its receiver in place; the map it updates is local to AdditionalTags, so no sharing is lost.
- Kubernetes types: `ObjectMeta`, `NodeAddress` and the records keep only the fields the scope uses; `ObjectMeta` keeps the labels, which the control-plane test may read, but how that test reads them is not modelled.
- Go's nil maps: a Dafny map is never nil, so "the returned tags are never nil" holds by construction; a nil annotation map is the `None` of an `Option`.
- Scope.MachineScope.SetErrorMessage: takes the error's text; calling it with a nil error, which panics in the source, is not modelled.
- Scope.MachineScope.GetInstanceID: an absent provider ID reads as "", and it gives no ID only if the library parser rejects ""; the parser's code is not part of this model, so the contract does not promise no ID for an absent provider ID.
- Scope.MachineScope.SetAnnotation: the annotation map is a value, so an insertion in place into a map that another holder shares with the AWSMachine is not modelled.
- Scope.MachineScope.SetAddresses: the address list is a value, so the slice the source shares with its caller is not modelled.
- Concurrency: a scope is used by one reconcile at a time and has no locking.
