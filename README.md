# moonscale: Kubernetes apply and credential core

A model of the decision logic in `src/kubernetes.rs` of moonscale. This file
is a thin layer over the `kube` client. It does three things:

- **Scope selection** (`dynamic_api`). It picks the handle a resource of a
  run-time kind is addressed through. The handle is cluster-wide when
  discovery says the kind is cluster-scoped or when "all" is asked for.
  Otherwise it is bound to the supplied namespace, or to the client's default
  namespace when none is supplied.
- **Apply** (`kubernetes_apply_document`). It decodes a manifest and uses the
  manifest's namespace, or `moonscale` when it has none, for the handle; the
  manifest itself is sent unchanged. It rejects a manifest without type metadata,
  reads the kind triple and resolves it through discovery, rejecting an
  unknown kind. Only then does it send one server-side-apply patch, addressed
  by the object's name. A rejected patch is passed on as an error.
- **Credential lookup** (`get_database_password`). It reads secret
  `moonscale-instance-<instance>` in namespace `moonscale` and returns the
  bytes under key `mysql-root-password`. A missing secret and a missing key
  are both errors.

Files:

- `kube_types.dfy` (module `KubeTypes`): the `kube` / `k8s-openapi` types the
  code reads or builds: scope, capabilities, API resource, type metadata,
  object metadata, dynamic object, client, `Api` handle, patch options and
  secret.
- `kubernetes.dfy` (module `Kubernetes`): the three operations. Each is a pure
  specification function with properties proved about it. The class
  `KubeCluster` holds the secrets the cluster serves and the log of patch
  calls sent to it. Its two methods follow the source's steps and early
  returns, and are proved against those functions.
- `scenarios.dfy` (module `Scenarios`): the operations on concrete inputs.

Collaborators the code cannot see are inputs:

- Discovery is a map from kind triple to (API resource, capabilities).
- The three foreign conversions are partial functions in a `Conversions`
  value: `serde_yaml::from_value`, `GroupVersionKind::try_from` and
  `serde_json::to_value`.
- The server's answer to the patch is a `PatchResponse` parameter.

Behaviour of the code worth knowing, which the model keeps:

- The code returns the same unit error `Err(())` for a missing secret and for
  a missing key; the two failures are not told apart.
- Apply always hands the selector a namespace: the manifest's own, or
  `moonscale`. So a namespaced kind whose manifest has no namespace is
  patched in `moonscale`, never in the client's default namespace
  (`Scenarios.ConfigMapExample`).
- Apply returns `Ok(())` on success and does not report the applied kind. A
  rejected patch passes the server's error on unchanged (`PatchFailed(cause)`).
- Besides missing type metadata and an unknown kind, apply fails when the
  manifest does not decode, when its kind triple cannot be read, and when the
  object does not serialise to JSON. All three come before the patch.

## Model

| member | source | states |
|---|---|---|
| `Kubernetes.DynamicApi` | src/kubernetes.rs:12-26 | cluster-wide exactly when the kind is cluster-scoped or `all` holds; bound to the given namespace exactly when namespaced, not `all`, and one is given; the client's default exactly when namespaced, not `all`, and none is given; the namespace requests go to follows from this |
| `Kubernetes.ClusterWideIgnoresNamespace` | src/kubernetes.rs:19-20 | a cluster-scoped kind or `all` gives the same cluster-wide handle whatever namespace is supplied |
| `Kubernetes.SecretName` | src/kubernetes.rs:31 | the secret name is the fixed prefix `moonscale-instance-` followed by the instance name |
| `Kubernetes.SecretNameRoundTrip` | src/kubernetes.rs:31 | the instance name can be read back from its secret name |
| `Kubernetes.InstanceOfRoundTrip` | src/kubernetes.rs:31 | every name carrying the prefix is the secret name of the instance read back from it |
| `Kubernetes.SecretNameInjective` | src/kubernetes.rs:31 | distinct instances get distinct secret names |
| `Kubernetes.InstanceSecretRef` | src/kubernetes.rs:29-31 | the credentials are read in namespace `moonscale`, from the secret named after the instance |
| `Kubernetes.PasswordLookup` | src/kubernetes.rs:28-48 | success exactly when the instance secret exists and holds key `mysql-root-password`, and then the result is that key's bytes; an error otherwise |
| `Kubernetes.StoredPasswordIsRead` | src/kubernetes.rs:39-47 | once an instance secret holding the password key is stored, the lookup returns exactly those bytes |
| `Kubernetes.OtherInstanceSecretIrrelevant` | src/kubernetes.rs:29-31 | writing another instance's secret never changes an instance's lookup |
| `Kubernetes.PasswordLookupIsLocal` | src/kubernetes.rs:29-47 | the lookup depends only on the entry at the instance's own secret |
| `Kubernetes.KubeCluster.GetDatabasePassword` | src/kubernetes.rs:28-48 | the step-by-step lookup with early returns gives the lookup's result, an error when the secret is missing, and sends no patch |
| `Kubernetes.NameAny` | src/kubernetes.rs:65 | the patch addresses the object's name, else its generate-name prefix; it is empty only when no name is set or the name is empty |
| `Kubernetes.ApplyNamespace` | src/kubernetes.rs:57 | the namespace handed to the selector is the manifest's own if present and `moonscale` otherwise |
| `Kubernetes.PlanApplyObject` | src/kubernetes.rs:57-88 | each error is given exactly when its check is the first to fail: `NoTypeMetadata` when there is no type metadata, `GvkFailed` when the kind triple cannot be read, `UnknownType` when the kind triple reads but discovery lacks it, `SerializeFailed` when only JSON serialisation fails; a patch exactly when every check passes, and then it carries the object's name, the options and the object, goes through the discovered resource, never through the client's default namespace, and is cluster-wide exactly when the kind is cluster-scoped, else in the manifest's namespace or `moonscale` |
| `Kubernetes.PlanApply` | src/kubernetes.rs:56 | an undecodable manifest gives `DecodeFailed` and nothing else does; a decoded one is planned from the decoded object; planning never yields `PatchFailed` |
| `Kubernetes.ApplyResult` | src/kubernetes.rs:71-89 | success exactly when a patch was planned and the server accepted it; a planning error is returned unchanged; a rejection becomes `PatchFailed` with the server's cause |
| `Kubernetes.ApplyIgnoresClientDefault` | src/kubernetes.rs:57-68 | the client's default namespace never decides whether or where apply patches |
| `Kubernetes.KubeCluster.ApplyDocument` | src/kubernetes.rs:50-90 | returns the planned result; every failure before the patch leaves the patch log unchanged; success or a rejected patch appends exactly the one planned call |
| `Scenarios.ShopPasswordExample` | src/kubernetes.rs:28-47 | instance `shop` with key `mysql-root-password` = `s3cr3t` in `moonscale/moonscale-instance-shop` gets `s3cr3t` |
| `Scenarios.MissingSecretExample` | src/kubernetes.rs:34-37 | instance `missing`, which has no secret, gets an error |
| `Scenarios.ConfigMapExample` | src/kubernetes.rs:57-71 | a namespaced ConfigMap `cfg` without a namespace is patched in `moonscale` |
| `Scenarios.ClusterRoleExample` | src/kubernetes.rs:19-20 | a cluster-scoped ClusterRole is patched through a cluster-wide handle whatever namespace its manifest gives |

## Left out

- Kubernetes.KubeCluster.GetDatabasePassword: returns the password as the bytes of the Rust `String`. The panic of `String::from_utf8(..).unwrap()` on bytes that are not UTF-8 is not modelled, because UTF-8 validation is not part of this model.
- Kubernetes.PasswordLookup: the same; the result is the raw bytes, with no UTF-8 check.
- The panic of `data.unwrap()` on a secret without data is a precondition (`SecretHasData`) of the lookup, not an error result.
- The async transport, `kube::Client`, authentication and cancellation are not modelled. A failed secret fetch is modelled as the secret being absent from the cluster's map, so transport errors are folded into absence.
- Discovery's internals (`Discovery::resolve_gvk`) are a map from kind triple to resource and capabilities.
- YAML and JSON (de)serialisation and the parsing of `apiVersion` into a kind triple are foreign. They are partial functions passed in, and each may fail. The object's payload beyond its type metadata and name/namespace fields is not modelled, since the core only passes it through.
- Server-side apply merge and idempotence are enforced by the API server, not by this code. The patch is recorded in a log; its effect on cluster objects is not modelled, so applying a `Secret` manifest does not change what a later credential lookup reads. The server's answer is a parameter.
- The `anyhow` error messages and `.context(..)` strings are reduced to the `ApplyError` variants named after them.
- Logging (`error!`, `info!`) has no observable effect and is left out.
- The `api_version` field of `ApiResource` and capability flags other than the scope are not used by the code and are left out.
