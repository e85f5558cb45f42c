/** The objects of the engine.azk.io API group that the node controllers read and write. */
module Types {

  newtype byte = x: int | 0 <= x < 256

  datatype Option<+T> = None | Some(value: T)

  datatype Result<+T> = Ok(value: T) | Err(message: string)

  /** How a call ends. A panic is recovered from: the pass ends, without an error and without another try. */
  datatype Answer = Works | Fails | Panics

  /** What a pass panics on: a nil replica count, an empty list of discovery hashes, or a nil field in an answer of
      the cloud. */
  datatype Panic = NilCount | NoHash | NilField

  /** How a pass fares: well so far, held up by a failing call or by a cluster that is not there or not ready, or
      ended by a panic. */
  datatype Fate = Well | HeldUp | InPanic(cause: Panic)

  /** What the node controllers read of the cluster object. */
  datatype Cluster = Cluster(
    provisioningState: string, subscriptionID: string, clientID: string, clientSecret: string, tenantID: string,
    discoveryHashes: seq<string>)

  /** The answer to a listing of the clusters that a pass can go on with. */
  predicate ReadyCluster(clusters: Option<seq<Cluster>>) {
    clusters.Some? && |clusters.value| == 1 && clusters.value[0].provisioningState == "Succeeded"
  }

  /** A listed machine of a scale set. */
  datatype VMStatus = VMStatus(computerName: string, instanceID: string)

  /** `Replicas` is a pointer in the API: `None` is the nil pointer. */
  datatype NodeSetSpec = NodeSetSpec(version: string, replicas: Option<int>, sku: string)

  datatype NodeSetStatus = NodeSetStatus(
    replicas: int, version: string, state: string, kubeconfig: string, nodes: seq<VMStatus>)

  /** `rv` is the resource version the API server compares on every write;
      `deleting` says that the deletion timestamp is set. */
  datatype NodeSet = NodeSet(
    rv: nat, spec: NodeSetSpec, status: NodeSetStatus, finalizers: seq<string>, deleting: bool)

  datatype NodePoolStatus = NodePoolStatus(
    nodeSetName: string, vmReplicas: int, replicas: int, version: string, state: string)

  datatype NodePool = NodePool(rv: nat, name: string, spec: NodeSetSpec, status: NodePoolStatus)

  /** A scale set of the cloud, with its machines in list order. */
  datatype ScaleSet = ScaleSet(capacity: int, vms: seq<VMStatus>)

  const EMPTY_STATUS := NodeSetStatus(0, "", "", "", [])

  const UPDATING := "Updating"
  const SCALING := "Scaling"
  const SUCCEEDED := "Succeeded"

  const FINALIZER := "nodesets.finalizers.engine.azk.io"
}
