/**
 * The parts of an `AzureManagedCluster` object that admission validation
 * looks at: its annotations and the control-plane endpoint in its spec.
 */
module ManagedCluster {

  /** `clusterv1.APIEndpoint`; an unset host is "" and an unset port is 0. */
  datatype APIEndpoint = APIEndpoint(host: string, port: int)

  datatype AzureManagedClusterSpec = AzureManagedClusterSpec(controlPlaneEndpoint: APIEndpoint)

  datatype ObjectMeta = ObjectMeta(annotations: map<string, string>)

  datatype AzureManagedCluster = AzureManagedCluster(meta: ObjectMeta, spec: AzureManagedClusterSpec)

  /** An object with nothing set, as a Go zero value `&AzureManagedCluster{}`. */
  const Empty: AzureManagedCluster :=
    AzureManagedCluster(ObjectMeta(map[]), AzureManagedClusterSpec(APIEndpoint("", 0)))

  /** Annotation keys starting with this literal prefix carry custom request headers. */
  const CustomHeaderPrefix: string := "infrastructure.cluster.x-k8s.io/custom-header-"

  predicate IsCustomHeader(key: string)
  {
    CustomHeaderPrefix <= key
  }

  /** The custom-header part of an annotation map: the entries whose key has the prefix. */
  function CustomHeaders(annotations: map<string, string>): (r: map<string, string>)
    ensures forall k :: k in r <==> k in annotations && IsCustomHeader(k)
    ensures forall k :: k in r ==> r[k] == annotations[k]
  {
    map k | k in annotations && IsCustomHeader(k) :: annotations[k]
  }

  /** Two annotation maps have the same custom-header part exactly when they agree on every custom-header key. */
  lemma CustomHeadersEqualIff(a: map<string, string>, b: map<string, string>)
    ensures CustomHeaders(a) == CustomHeaders(b) <==>
      forall k :: IsCustomHeader(k) ==>
        (k in a <==> k in b) && (k in a && k in b ==> a[k] == b[k])
  {
    var ca, cb := CustomHeaders(a), CustomHeaders(b);
    if forall k :: IsCustomHeader(k) ==> (k in a <==> k in b) && (k in a && k in b ==> a[k] == b[k]) {
      assert ca.Keys == cb.Keys;
    }
  }
}
