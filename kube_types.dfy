/**
 * The types of the `kube` and `k8s-openapi` crates that the orchestration
 * layer in src/kubernetes.rs reads or builds, reduced to the fields it uses.
 */
module KubeTypes {

  datatype Option<+T> = None | Some(value: T) {
    /** The wrapped value, or `default` when absent (Rust's `unwrap_or`). */
    function GetOr(default: T): (r: T)
      ensures Some? ==> r == value
      ensures None? ==> r == default
    {
      match this
      case Some(v) => v
      case None => default
    }
  }

  datatype Result<+T, +E> = Ok(value: T) | Err(error: E)

  newtype Byte = b: int | 0 <= b < 256

  /** Whether a resource type lives inside a namespace or cluster-wide (`kube::discovery::Scope`). */
  datatype Scope = Cluster | Namespaced

  /** What discovery reports about a resource type beside its REST shape (`ApiCapabilities`). */
  datatype ApiCapabilities = ApiCapabilities(scope: Scope)

  /** The REST shape of a resource type (`ApiResource`): its group, version, kind and plural name. */
  datatype ApiResource = ApiResource(group: string, version: string, kind: string, plural: string)

  /** The (group, version, kind) triple that identifies a resource type. */
  datatype GroupVersionKind = GroupVersionKind(group: string, version: string, kind: string)

  /** The `apiVersion` and `kind` fields of a manifest. */
  datatype TypeMeta = TypeMeta(apiVersion: string, kind: string)

  /** The identity fields of an object's metadata. */
  datatype ObjectMeta = ObjectMeta(name: Option<string>, generateName: Option<string>, namespace: Option<string>)

  /** A decoded manifest of a kind known only at run time (`DynamicObject`). */
  datatype DynamicObject = DynamicObject(types: Option<TypeMeta>, metadata: ObjectMeta)

  /** A connection to a cluster; only the namespace it falls back to matters here. */
  datatype Client = Client(defaultNamespace: string)

  /** How an `Api` handle addresses objects: cluster-wide, in a named namespace, or in the client's default one. */
  datatype Addressing = AllNamespaces | InNamespace(ns: string) | ClientDefaultNamespace

  /** A handle through which requests for one resource type are sent (`Api<DynamicObject>`). */
  datatype Api = Api(client: Client, resource: ApiResource, addressing: Addressing) {
    /** The namespace the handle's requests go to; `None` for a cluster-wide handle. */
    function Namespace(): (ns: Option<string>)
      ensures ns.None? <==> addressing.AllNamespaces?
      ensures addressing.InNamespace? ==> ns == Some(addressing.ns)
      ensures addressing.ClientDefaultNamespace? ==> ns == Some(client.defaultNamespace)
    {
      match addressing
      case AllNamespaces => None
      case InNamespace(n) => Some(n)
      case ClientDefaultNamespace => Some(client.defaultNamespace)
    }
  }

  /** Options of a server-side apply, passed through to the server untouched (`PatchParams`). */
  datatype PatchParams = PatchParams(fieldManager: Option<string>, force: bool, dryRun: bool)

  /** A secret object; `data` maps each key to its raw bytes. */
  datatype Secret = Secret(data: Option<map<string, seq<Byte>>>)

  /** Where an object lives: its namespace and name. */
  datatype ObjectRef = ObjectRef(namespace: string, name: string)
}
