/**
 * Worked scenarios: the credential and apply behaviour on concrete inputs,
 * as the model of src/kubernetes.rs computes it.
 */
module Scenarios {
  import opened KubeTypes
  import opened Kubernetes

  /** The bytes of the text "s3cr3t". */
  const S3cr3t: seq<Byte> := [115, 51, 99, 114, 51, 116]

  /** Instance "shop" whose secret holds a root password gets that password. */
  lemma ShopPasswordExample()
    ensures var secrets := map[ObjectRef("moonscale", "moonscale-instance-shop") := Secret(Some(map["mysql-root-password" := S3cr3t]))];
      SecretHasData(secrets, "shop") && PasswordLookup(secrets, "shop") == Ok(S3cr3t)
  {
    assert SecretName("shop") == "moonscale-instance-shop";
  }

  /** An instance without a secret of its own gets an error, even when other instances have one. */
  lemma MissingSecretExample()
    ensures var secrets := map[ObjectRef("moonscale", "moonscale-instance-shop") := Secret(Some(map["mysql-root-password" := S3cr3t]))];
      SecretHasData(secrets, "missing") && PasswordLookup(secrets, "missing") == Err(())
  {
  }

  /**
   * A namespaced kind applied from a manifest without a namespace is patched
   * in the system namespace, not in the client's default one.
   */
  lemma ConfigMapExample(client: Client, params: PatchParams)
    ensures
      var obj := DynamicObject(Some(TypeMeta("v1", "ConfigMap")), ObjectMeta(Some("cfg"), None, None));
      var gvk := GroupVersionKind("", "v1", "ConfigMap");
      var ar := ApiResource("", "v1", "ConfigMap", "configmaps");
      var conv := Conversions((v: DynamicObject) => Some(v), (t: TypeMeta) => Some(GroupVersionKind("", t.apiVersion, t.kind)), (o: DynamicObject) => true);
      PlanApply(client, map[gvk := (ar, ApiCapabilities(Namespaced))], params, obj, conv)
        == Ok(PatchCall(Api(client, ar, InNamespace("moonscale")), "cfg", params, obj))
  {
  }

  /** A cluster-scoped kind is patched through a cluster-wide handle whatever namespace its manifest names. */
  lemma ClusterRoleExample(client: Client, params: PatchParams, ns: Option<string>)
    ensures
      var obj := DynamicObject(Some(TypeMeta("rbac.authorization.k8s.io/v1", "ClusterRole")), ObjectMeta(Some("admin-role"), None, ns));
      var gvk := GroupVersionKind("rbac.authorization.k8s.io", "v1", "ClusterRole");
      var ar := ApiResource("rbac.authorization.k8s.io", "v1", "ClusterRole", "clusterroles");
      var conv := Conversions((v: DynamicObject) => Some(v), (t: TypeMeta) => Some(gvk), (o: DynamicObject) => true);
      PlanApply(client, map[gvk := (ar, ApiCapabilities(Cluster))], params, obj, conv)
        == Ok(PatchCall(Api(client, ar, AllNamespaces), "admin-role", params, obj))
  {
  }
}
