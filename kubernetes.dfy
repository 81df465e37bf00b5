/**
 * The decision logic of src/kubernetes.rs: how a handle is scoped, how a
 * manifest of a run-time kind is applied, and how an instance's root
 * password is read from its secret.
 *
 * The cluster is a `KubeCluster` object holding the secrets it serves and the
 * log of the server-side-apply patch calls sent to it. Discovery is a map,
 * the foreign (de)serialisers are a `Conversions` value of partial
 * functions, and the server's answer to a patch is a parameter.
 */
module Kubernetes {
  import opened KubeTypes

  /** The namespace apply falls back to, and the one instance secrets live in. */
  const SystemNamespace := "moonscale"

  /** Every instance's secret is named this prefix followed by the instance name. */
  const InstanceSecretPrefix := "moonscale-instance-"

  /** The key of an instance secret that holds the database root password. */
  const RootPasswordKey := "mysql-root-password"

  // ---------------------------------------------------------------------------
  // Client scope selection
  // ---------------------------------------------------------------------------

  /**
   * The handle for resource `ar`: cluster-wide when discovery says the type is
   * cluster-scoped or `all` is asked for, whatever namespace is supplied;
   * otherwise bound to `ns` when one is supplied, and to the client's default
   * namespace when none is.
   */
  function DynamicApi(ar: ApiResource, caps: ApiCapabilities, client: Client, ns: Option<string>, all: bool): (api: Api)
    ensures api.client == client && api.resource == ar
    ensures api.addressing.AllNamespaces? <==> caps.scope == Cluster || all
    ensures api.addressing.InNamespace? <==> caps.scope.Namespaced? && !all && ns.Some?
    ensures api.addressing.ClientDefaultNamespace? <==> caps.scope.Namespaced? && !all && ns.None?
    ensures api.Namespace() == if caps.scope == Cluster || all then None else Some(ns.GetOr(client.defaultNamespace))
  {
    if caps.scope == Cluster || all then
      Api(client, ar, AllNamespaces)
    else if ns.Some? then
      Api(client, ar, InNamespace(ns.value))
    else
      Api(client, ar, ClientDefaultNamespace)
  }

  /** A cluster-wide selection does not look at the namespace it is given. */
  lemma ClusterWideIgnoresNamespace(ar: ApiResource, caps: ApiCapabilities, client: Client, ns1: Option<string>, ns2: Option<string>, all: bool)
    requires caps.scope == Cluster || all
    ensures DynamicApi(ar, caps, client, ns1, all) == DynamicApi(ar, caps, client, ns2, all) == Api(client, ar, AllNamespaces)
  {
  }

  // ---------------------------------------------------------------------------
  // Credential lookup
  // ---------------------------------------------------------------------------

  /** The name of the secret that holds the credentials of instance `instance`. */
  function SecretName(instance: string): (name: string)
    ensures |name| == |InstanceSecretPrefix| + |instance|
    ensures name[..|InstanceSecretPrefix|] == InstanceSecretPrefix
    ensures name[|InstanceSecretPrefix|..] == instance
  {
    InstanceSecretPrefix + instance
  }

  /** The instance a secret name belongs to, if it is an instance secret name at all. */
  function InstanceOf(name: string): (instance: Option<string>)
    ensures instance.Some? <==> InstanceSecretPrefix <= name
  {
    if InstanceSecretPrefix <= name then Some(name[|InstanceSecretPrefix|..]) else None
  }

  /** Reading the instance back from its secret name gives the instance. */
  lemma SecretNameRoundTrip(instance: string)
    ensures InstanceOf(SecretName(instance)) == Some(instance)
  {
  }

  /** Every instance secret name is the secret name of the instance read back from it. */
  lemma InstanceOfRoundTrip(name: string)
    requires InstanceOf(name).Some?
    ensures SecretName(InstanceOf(name).value) == name
  {
  }

  /** Two instances never share a secret. */
  lemma SecretNameInjective(a: string, b: string)
    requires SecretName(a) == SecretName(b)
    ensures a == b
  {
    assert a == SecretName(a)[|InstanceSecretPrefix|..];
  }

  /** Where the credentials of `instance` are read from. */
  function InstanceSecretRef(instance: string): (r: ObjectRef)
    ensures r.namespace == SystemNamespace
    ensures InstanceOf(r.name) == Some(instance)
  {
    ObjectRef(SystemNamespace, SecretName(instance))
  }

  /**
   * The source unwraps the secret's data map: a fetched instance secret
   * must carry data.
   */
  predicate SecretHasData(secrets: map<ObjectRef, Secret>, instance: string)
  {
    InstanceSecretRef(instance) in secrets ==> secrets[InstanceSecretRef(instance)].data.Some?
  }

  /**
   * The root password of `instance` as the secrets map gives it: an error when
   * the instance secret is missing or has no root password key, the key's
   * bytes otherwise.
   */
  function PasswordLookup(secrets: map<ObjectRef, Secret>, instance: string): (r: Result<seq<Byte>, ()>)
    requires SecretHasData(secrets, instance)
    ensures r.Ok? <==>
      InstanceSecretRef(instance) in secrets && RootPasswordKey in secrets[InstanceSecretRef(instance)].data.value
    ensures r.Ok? ==> r.value == secrets[InstanceSecretRef(instance)].data.value[RootPasswordKey]
  {
    var ref := InstanceSecretRef(instance);
    if ref !in secrets then Err(())
    else if RootPasswordKey !in secrets[ref].data.value then Err(())
    else Ok(secrets[ref].data.value[RootPasswordKey])
  }

  /** Storing an instance's secret with a root password makes the lookup return that password. */
  lemma StoredPasswordIsRead(secrets: map<ObjectRef, Secret>, instance: string, kv: map<string, seq<Byte>>)
    requires RootPasswordKey in kv
    ensures SecretHasData(secrets[InstanceSecretRef(instance) := Secret(Some(kv))], instance)
    ensures PasswordLookup(secrets[InstanceSecretRef(instance) := Secret(Some(kv))], instance) == Ok(kv[RootPasswordKey])
  {
  }

  /** The lookup for one instance does not depend on any other instance's secret. */
  lemma OtherInstanceSecretIrrelevant(secrets: map<ObjectRef, Secret>, instance: string, other: string, s: Secret)
    requires instance != other
    requires SecretHasData(secrets, instance)
    ensures SecretHasData(secrets[InstanceSecretRef(other) := s], instance)
    ensures PasswordLookup(secrets[InstanceSecretRef(other) := s], instance) == PasswordLookup(secrets, instance)
  {
    if InstanceSecretRef(other) == InstanceSecretRef(instance) {
      SecretNameInjective(other, instance);
    }
  }

  /** The lookup depends on nothing but the entry at the instance's own secret. */
  lemma PasswordLookupIsLocal(s1: map<ObjectRef, Secret>, s2: map<ObjectRef, Secret>, instance: string)
    requires SecretHasData(s1, instance)
    requires InstanceSecretRef(instance) in s1 <==> InstanceSecretRef(instance) in s2
    requires InstanceSecretRef(instance) in s1 ==> s1[InstanceSecretRef(instance)] == s2[InstanceSecretRef(instance)]
    ensures SecretHasData(s2, instance)
    ensures PasswordLookup(s1, instance) == PasswordLookup(s2, instance)
  {
  }

  // ---------------------------------------------------------------------------
  // Apply
  // ---------------------------------------------------------------------------

  /** The ways applying a manifest fails, in the order the source checks them. */
  datatype ApplyError =
    | DecodeFailed       // the manifest does not decode into an object
    | NoTypeMetadata     // "Document has no type metadata"
    | GvkFailed          // "Failed to get GVK"
    | UnknownType        // "Unknown type": discovery has no mapping for the kind
    | SerializeFailed    // "Failed to serialize object to JSON"
    | PatchFailed(cause: string)  // the server rejected the patch; its error, passed on

  /**
   * The foreign conversions the apply path calls, each of which may fail:
   * decoding the manifest into an object, reading the kind triple from the
   * type metadata, and whether the object serialises to JSON.
   */
  datatype Conversions<-V> = Conversions(
    fromValue: V -> Option<DynamicObject>,
    gvkOf: TypeMeta -> Option<GroupVersionKind>,
    toJson: DynamicObject -> bool)

  /** A snapshot of discovery: the REST shape and capabilities of each known kind. */
  type Discovery = map<GroupVersionKind, (ApiResource, ApiCapabilities)>

  /** One server-side-apply patch: the handle, the object name, the options and the applied object. */
  datatype PatchCall = PatchCall(api: Api, name: string, params: PatchParams, body: DynamicObject)

  /** The server's answer to a patch. */
  datatype PatchResponse = Applied | Rejected(cause: string)

  /** The most useful name of an object: its name, else its generate-name prefix, else empty. */
  function NameAny(meta: ObjectMeta): (name: string)
    ensures meta.name.Some? ==> name == meta.name.value
    ensures meta.name.None? && meta.generateName.Some? ==> name == meta.generateName.value
    ensures name == "" ==> meta.name.None? || meta.name == Some("")
  {
    match meta.name
    case Some(n) => n
    case None => meta.generateName.GetOr("")
  }

  /** The namespace apply hands to the selector: the object's own, else the system namespace. */
  function ApplyNamespace(meta: ObjectMeta): (ns: string)
    ensures meta.namespace.Some? ==> ns == meta.namespace.value
    ensures meta.namespace.None? ==> ns == SystemNamespace
  {
    meta.namespace.GetOr(SystemNamespace)
  }

  /**
   * What applying the decoded object `obj` comes to before any remote call:
   * the first failing check, or the one patch to send. The handle is chosen
   * with the object's namespace (or the system one) and `all` false, so it is
   * cluster-wide exactly when the kind is cluster-scoped, and otherwise bound
   * to that namespace, never to the client's default.
   */
  function PlanApplyObject<V>(client: Client, discovery: Discovery, params: PatchParams, obj: DynamicObject, conv: Conversions<V>)
    : (plan: Result<PatchCall, ApplyError>)
    ensures plan == Err(NoTypeMetadata) <==> obj.types.None?
    ensures plan == Err(GvkFailed) <==> obj.types.Some? && conv.gvkOf(obj.types.value).None?
    ensures plan == Err(UnknownType) <==>
      obj.types.Some? && conv.gvkOf(obj.types.value).Some? && conv.gvkOf(obj.types.value).value !in discovery
    ensures plan.Ok? <==>
      && obj.types.Some?
      && conv.gvkOf(obj.types.value).Some?
      && conv.gvkOf(obj.types.value).value in discovery
      && conv.toJson(obj)
    ensures plan == Err(SerializeFailed) <==>
      && obj.types.Some?
      && conv.gvkOf(obj.types.value).Some?
      && conv.gvkOf(obj.types.value).value in discovery
      && !conv.toJson(obj)
    ensures plan.Err? ==> plan.error != DecodeFailed && !plan.error.PatchFailed?
    ensures plan.Ok? ==>
      var (ar, caps) := discovery[conv.gvkOf(obj.types.value).value];
      && plan.value.name == NameAny(obj.metadata)
      && plan.value.params == params
      && plan.value.body == obj
      && plan.value.api.client == client
      && plan.value.api.resource == ar
      && !plan.value.api.addressing.ClientDefaultNamespace?
      && plan.value.api.Namespace() == if caps.scope == Cluster then None else Some(ApplyNamespace(obj.metadata))
  {
    var namespace := Some(ApplyNamespace(obj.metadata));
    if obj.types.None? then Err(NoTypeMetadata)
    else
      match conv.gvkOf(obj.types.value)
      case None => Err(GvkFailed)
      case Some(gvk) =>
        if gvk !in discovery then Err(UnknownType)
        else
          var (ar, caps) := discovery[gvk];
          var api := DynamicApi(ar, caps, client, namespace, false);
          if !conv.toJson(obj) then Err(SerializeFailed)
          else Ok(PatchCall(api, NameAny(obj.metadata), params, obj))
  }

  /** What applying manifest `doc` comes to before any remote call. */
  function PlanApply<V>(client: Client, discovery: Discovery, params: PatchParams, doc: V, conv: Conversions<V>)
    : (plan: Result<PatchCall, ApplyError>)
    ensures conv.fromValue(doc).None? <==> plan == Err(DecodeFailed)
    ensures conv.fromValue(doc).Some? ==> plan == PlanApplyObject(client, discovery, params, conv.fromValue(doc).value, conv)
    ensures plan.Err? ==> !plan.error.PatchFailed?
  {
    match conv.fromValue(doc)
    case None => Err(DecodeFailed)
    case Some(obj) => PlanApplyObject(client, discovery, params, obj, conv)
  }

  /** The result apply reports: a planning error as is, else the server's answer. */
  function ApplyResult(plan: Result<PatchCall, ApplyError>, response: PatchResponse): (r: Result<(), ApplyError>)
    ensures r.Ok? <==> plan.Ok? && response.Applied?
    ensures plan.Err? ==> r == Err(plan.error)
    ensures plan.Ok? && response.Rejected? ==> r == Err(PatchFailed(response.cause))
  {
    if plan.Err? then Err(plan.error)
    else if response.Rejected? then Err(PatchFailed(response.cause))
    else Ok(())
  }

  /**
   * The client's default namespace never decides where apply sends its patch:
   * two clients that differ only in their default get the same plan apart
   * from the client itself.
   */
  lemma ApplyIgnoresClientDefault<V>(c1: Client, c2: Client, discovery: Discovery, params: PatchParams, doc: V, conv: Conversions<V>)
    ensures PlanApply(c1, discovery, params, doc, conv).Ok? <==> PlanApply(c2, discovery, params, doc, conv).Ok?
    ensures PlanApply(c1, discovery, params, doc, conv).Ok? ==>
      PlanApply(c1, discovery, params, doc, conv).value.api.Namespace() ==
      PlanApply(c2, discovery, params, doc, conv).value.api.Namespace()
  {
  }

  /** The cluster as the core sees it: the secrets it serves and the patches sent to it. */
  class KubeCluster {
    var secrets: map<ObjectRef, Secret>
    var patchLog: seq<PatchCall>

    constructor (secrets: map<ObjectRef, Secret>)
      ensures this.secrets == secrets && patchLog == []
    {
      this.secrets := secrets;
      patchLog := [];
    }

    /**
     * Reads the root password of `instanceName` from its instance secret in
     * the system namespace. Sends no patch.
     */
    method GetDatabasePassword(instanceName: string) returns (r: Result<seq<Byte>, ()>)
      requires SecretHasData(secrets, instanceName)
      ensures r == PasswordLookup(secrets, instanceName)
      ensures InstanceSecretRef(instanceName) !in secrets ==> r.Err?
    {
      var secretName := SecretName(instanceName);
      var ref := ObjectRef(SystemNamespace, secretName);
      if ref !in secrets {
        return Err(());
      }
      var data := secrets[ref].data.value;
      if RootPasswordKey !in data {
        return Err(());
      }
      return Ok(data[RootPasswordKey]);
    }

    /**
     * Applies manifest `doc`: decodes it, picks the manifest's namespace (or
     * the system one) for the handle without changing the manifest, checks its
     * type metadata and kind, and only then sends exactly one patch, whose
     * rejection is passed on. Every failure before the patch leaves the log
     * untouched.
     */
    method ApplyDocument<V>(client: Client, discovery: Discovery, params: PatchParams, doc: V, conv: Conversions<V>, response: PatchResponse)
      returns (r: Result<(), ApplyError>)
      modifies this`patchLog
      ensures r == ApplyResult(PlanApply(client, discovery, params, doc, conv), response)
      ensures PlanApply(client, discovery, params, doc, conv).Err? ==> patchLog == old(patchLog)
      ensures PlanApply(client, discovery, params, doc, conv).Ok? ==>
        patchLog == old(patchLog) + [PlanApply(client, discovery, params, doc, conv).value]
      ensures r.Err? && !r.error.PatchFailed? ==> patchLog == old(patchLog)
      ensures r.Ok? || r.error.PatchFailed? ==> |patchLog| == |old(patchLog)| + 1
    {
      var decoded := conv.fromValue(doc);
      if decoded.None? {
        return Err(DecodeFailed);
      }
      var obj := decoded.value;
      var namespace := Some(ApplyNamespace(obj.metadata));
      if obj.types.None? {
        return Err(NoTypeMetadata);
      }
      var gvk := conv.gvkOf(obj.types.value);
      if gvk.None? {
        return Err(GvkFailed);
      }
      var name := NameAny(obj.metadata);
      if gvk.value in discovery {
        var (ar, caps) := discovery[gvk.value];
        var api := DynamicApi(ar, caps, client, namespace, false);
        if !conv.toJson(obj) {
          return Err(SerializeFailed);
        }
        patchLog := patchLog + [PatchCall(api, name, params, obj)];
        if response.Rejected? {
          return Err(PatchFailed(response.cause));
        }
      } else {
        return Err(UnknownType);
      }
      return Ok(());
    }
  }
}
