/** The resource types of the anthill API (pkg/apis/anthill/v1alpha1) and the
    slices of the Kubernetes core types that the controller reads or writes.
    Go references that may be nil become Option; Go slices become seq; Go maps
    become map. Only the fields the controller touches are kept. */
module Types {

  datatype Option<+T> = None | Some(value: T)

  type Labels = map<string, string>

  /** Go's `m[k]` on a map[string]string: the empty string when k is absent. */
  function Label(m: Labels, k: string): string
  {
    if k in m then m[k] else ""
  }

  /** metav1.OwnerReference as metav1.NewControllerRef fills it. */
  datatype OwnerReference = OwnerReference(kind: string, name: string, uid: string, controller: bool, blockOwnerDeletion: bool)

  datatype ObjectMeta = ObjectMeta(
    name: string,
    namespace: string,
    uid: string,
    resourceVersion: string,
    generation: int,
    labels: Labels,
    ownerRefs: seq<OwnerReference>)

  const EmptyMeta := ObjectMeta("", "", "", "", 0, map[], [])

  datatype EnvVar = EnvVar(name: string, value: string)

  datatype VolumeDevice = VolumeDevice(name: string, devicePath: string)

  datatype Container = Container(name: string, env: seq<EnvVar>, volumeDevices: seq<VolumeDevice>)

  /** The source of a pod volume (corev1.VolumeSource, one member set). */
  datatype VolumeSource =
    | EmptyDir(inMemory: bool)
    | HostPathSource(path: string)
    | ConfigMapSource(configMapName: string)
    | SecretSource(secretName: string)
    | ClaimSource(claimName: string)

  datatype Volume = Volume(name: string, source: VolumeSource)

  datatype PodSpec = PodSpec(
    hostname: string,
    subdomain: string,
    serviceAccountName: string,
    volumes: seq<Volume>,
    containers: seq<Container>,
    initContainers: seq<Container>)

  const EmptyPodSpec := PodSpec("", "", "", [], [], [])

  datatype AccessMode = ReadWriteOnce | ReadOnlyMany | ReadWriteMany

  datatype VolumeMode = Block | Filesystem

  /** The backing store of a persistent volume (corev1.PersistentVolumeSource). */
  datatype PVSource = NoPVSource | HostPathPV(path: string) | OtherPV(description: string)

  /** corev1.PersistentVolumeSpec; the storage capacity is the quantity text,
      "" when unset. */
  datatype PVSpec = PVSpec(
    capacity: string,
    reclaimPolicy: string,
    storageClassName: string,
    accessModes: seq<AccessMode>,
    mountOptions: seq<string>,
    nodeAffinity: seq<string>,
    source: PVSource,
    volumeMode: Option<VolumeMode>)

  const EmptyPVSpec := PVSpec("", "", "", [], [], [], NoPVSource, None)

  /** A data disk or the state volume of a node. */
  datatype NodeVolume = NodeVolume(meta: ObjectMeta, provision: bool, pv: PVSpec)

  datatype Node = Node(
    meta: ObjectMeta,
    timeout: int,
    serverType: string,
    ipAddr: string,
    zone: int,
    devices: seq<NodeVolume>,
    stateVolume: Option<NodeVolume>,
    spec: PodSpec)

  const EmptyNode := Node(EmptyMeta, 0, "", "", 0, [], None, EmptyPodSpec)

  /** The parts of the heketi configuration document the controller reads. */
  datatype HeketiConfig = HeketiConfig(port: string, adminKey: string)

  datatype HeketiSpec = HeketiSpec(
    native: bool,
    image: string,
    adminSecret: string,
    config: Option<HeketiConfig>,
    node: Option<Node>)

  datatype GlusterfsSpec = GlusterfsSpec(native: bool, image: string)

  datatype ClusterSpec = ClusterSpec(
    podTimeout: int,
    cascade: bool,
    wipe: bool,
    nodes: seq<Node>,
    heketi: Option<HeketiSpec>,
    glusterfs: Option<GlusterfsSpec>)

  datatype ClusterStatus = ClusterStatus(deployed: bool)

  datatype GlusterCluster = GlusterCluster(meta: ObjectMeta, spec: Option<ClusterSpec>, status: Option<ClusterStatus>)

  /** The kinds of dependent objects the controller creates. */
  datatype Kind =
    | ServiceKind | ConfigMapKind | SecretKind | ServiceAccountKind | RoleBindingKind
    | StorageClassKind | PersistentVolumeKind | PersistentVolumeClaimKind | DeploymentKind

  /** Objects are addressed by kind, namespace and name; cluster-scoped kinds
      use the namespace "". */
  datatype ObjectKey = ObjectKey(kind: Kind, namespace: string, name: string)

  /** The remote operations of the heketi admin API. */
  datatype RemoteOp = ClusterListOp | ClusterCreateOp | ClusterInfoOp | NodeAddOp | NodeInfoOp | DeviceAddOp

  /** Every error a reconciliation can end with. A Go panic on a nil reference
      or an empty slice index is reported as Crash. */
  datatype Error =
    | AlreadyExists(key: ObjectKey)
    | ApiFailure(key: ObjectKey)
    | Conflict(key: ObjectKey)
    | NotFound(key: ObjectKey)
    | MarshalFailed
    | RolloutTimeout(name: string)
    | PollFailed(name: string)
    | PodNotFound(node: string)
    | ListFailed(namespace: string)
    | ExecFailed(pod: string, command: seq<string>)
    | RemoteFailed(op: RemoteOp)
    | LookupFailed(name: string)
    | StatusWriteFailed(name: string)
    | Crash(what: string)
}
