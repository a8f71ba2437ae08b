/** The dependent objects the controller builds (pkg/controller/objects.go
    and the literals in pkg/controller/create.go), and the completion test of
    a deployment rollout. */
module Objects {
  import opened Types
  import opened Init

  datatype ServicePort = ServicePort(name: string, protocol: string, port: int)

  datatype Service = Service(meta: ObjectMeta, clusterIP: string, selector: Labels, ports: seq<ServicePort>)

  datatype PodTemplate = PodTemplate(meta: ObjectMeta, spec: PodSpec)

  datatype Deployment = Deployment(meta: ObjectMeta, replicas: int, selector: Labels, template: PodTemplate)

  datatype DeploymentStatus = DeploymentStatus(
    updatedReplicas: int,
    replicas: int,
    availableReplicas: int,
    observedGeneration: int)

  datatype StorageClass = StorageClass(meta: ObjectMeta, provisioner: string, bindingMode: string)

  datatype PersistentVolume = PersistentVolume(meta: ObjectMeta, spec: PVSpec)

  /** The storage request is the quantity text of the volume's capacity. */
  datatype PersistentVolumeClaim = PersistentVolumeClaim(
    meta: ObjectMeta,
    accessModes: seq<AccessMode>,
    selector: Labels,
    volumeName: string,
    storageClassName: string,
    volumeMode: Option<VolumeMode>,
    request: string)

  datatype ConfigMap = ConfigMap(meta: ObjectMeta, data: map<string, string>)

  /** Secret data as text; the database secret holds one empty entry. */
  datatype Secret = Secret(meta: ObjectMeta, data: map<string, string>)

  datatype ServiceAccount = ServiceAccount(meta: ObjectMeta)

  datatype Subject = Subject(kind: string, name: string, namespace: string)

  datatype RoleRef = RoleRef(apiGroup: string, kind: string, name: string)

  datatype RoleBinding = RoleBinding(meta: ObjectMeta, subjects: seq<Subject>, roleRef: RoleRef)

  /** Any object the controller stores. */
  datatype Object =
    | ServiceObject(service: Service)
    | ConfigMapObject(configMap: ConfigMap)
    | SecretObject(secret: Secret)
    | ServiceAccountObject(account: ServiceAccount)
    | RoleBindingObject(binding: RoleBinding)
    | StorageClassObject(storageClass: StorageClass)
    | PVObject(pv: PersistentVolume)
    | PVCObject(pvc: PersistentVolumeClaim)
    | DeploymentObject(deployment: Deployment)

  function KindOf(o: Object): Kind
  {
    match o
    case ServiceObject(_) => ServiceKind
    case ConfigMapObject(_) => ConfigMapKind
    case SecretObject(_) => SecretKind
    case ServiceAccountObject(_) => ServiceAccountKind
    case RoleBindingObject(_) => RoleBindingKind
    case StorageClassObject(_) => StorageClassKind
    case PVObject(_) => PersistentVolumeKind
    case PVCObject(_) => PersistentVolumeClaimKind
    case DeploymentObject(_) => DeploymentKind
  }

  function MetaOf(o: Object): ObjectMeta
  {
    match o
    case ServiceObject(x) => x.meta
    case ConfigMapObject(x) => x.meta
    case SecretObject(x) => x.meta
    case ServiceAccountObject(x) => x.meta
    case RoleBindingObject(x) => x.meta
    case StorageClassObject(x) => x.meta
    case PVObject(x) => x.meta
    case PVCObject(x) => x.meta
    case DeploymentObject(x) => x.meta
  }

  predicate ClusterScoped(k: Kind)
  {
    k == StorageClassKind || k == PersistentVolumeKind
  }

  /** The address an object is stored under when it is created through the
      client of the given namespace; storage classes and persistent volumes
      are cluster-scoped. */
  function KeyOf(namespace: string, o: Object): (k: ObjectKey)
    ensures k.kind == KindOf(o) && k.name == MetaOf(o).name
  {
    ObjectKey(KindOf(o), if ClusterScoped(KindOf(o)) then "" else namespace, MetaOf(o).name)
  }

  /** A label selector matches a label map when every selector entry is in it. */
  predicate Selects(selector: Labels, labels: Labels)
  {
    forall k <- selector :: k in labels && labels[k] == selector[k]
  }

  // ---------------------------------------------------------------------------
  // Constructors.

  /** The headless service that gives every node pod of the cluster its DNS
      name. */
  function NewService(gc: GlusterCluster): (s: Service)
    ensures s.meta.name == gc.meta.name && s.meta.namespace == gc.meta.namespace
    ensures s.meta.ownerRefs == [ClusterOwnerRef(gc)]
    ensures s.clusterIP == "None" && s.ports == [ServicePort("dummy", "TCP", 1)]
    ensures forall l: Labels :: Selects(s.selector, l) <==> Label(l, "anthill") == NodeGroup(gc.meta.name)
  {
    var s := Service(
      ObjectMeta(gc.meta.name, gc.meta.namespace, "", "", 0, map[], [ClusterOwnerRef(gc)]),
      "None", map["anthill" := NodeGroup(gc.meta.name)], [ServicePort("dummy", "TCP", 1)]);
    assert forall l: Labels :: Selects(s.selector, l) <==> Label(l, "anthill") == NodeGroup(gc.meta.name) by {
      forall l: Labels ensures Selects(s.selector, l) <==> Label(l, "anthill") == NodeGroup(gc.meta.name) {
        assert "anthill" in s.selector;
        if Label(l, "anthill") == NodeGroup(gc.meta.name) {
          assert |NodeGroup(gc.meta.name)| > 0;
        }
      }
    }
    s
  }

  /** One replica of the node's pod; the selector and both label maps are the
      node's labels, so the deployment selects its own pods. */
  function NewDeployment(node: Node): (d: Deployment)
    ensures d.meta.name == node.meta.name && d.meta.namespace == node.meta.namespace
    ensures d.meta.ownerRefs == node.meta.ownerRefs && d.template.meta.ownerRefs == node.meta.ownerRefs
    ensures d.replicas == 1
    ensures d.meta.labels == d.template.meta.labels == d.selector == node.meta.labels
    ensures Selects(d.selector, d.template.meta.labels)
    ensures d.template.spec == node.spec
  {
    var template := PodTemplate(ObjectMeta(node.meta.name, "", "", "", 0, node.meta.labels, node.meta.ownerRefs), node.spec);
    Deployment(ObjectMeta(node.meta.name, node.meta.namespace, "", "", 0, node.meta.labels, node.meta.ownerRefs),
               1, node.meta.labels, template)
  }

  const NoProvisioner := "kubernetes.io/no-provisioner"
  const WaitForFirstConsumer := "WaitForFirstConsumer"

  function NewStorageClass(v: NodeVolume): (sc: StorageClass)
    ensures sc.meta.name == v.pv.storageClassName && sc.meta.ownerRefs == v.meta.ownerRefs
    ensures sc.provisioner == NoProvisioner && sc.bindingMode == WaitForFirstConsumer
  {
    StorageClass(ObjectMeta(v.pv.storageClassName, "", "", "", 0, map[], v.meta.ownerRefs), NoProvisioner, WaitForFirstConsumer)
  }

  function NewPersistentVolume(v: NodeVolume): (pv: PersistentVolume)
    ensures pv.meta.name == v.meta.name && pv.meta.ownerRefs == v.meta.ownerRefs
    ensures pv.spec == v.pv
  {
    PersistentVolume(ObjectMeta(v.meta.name, "", "", "", 0, map[], v.meta.ownerRefs), v.pv)
  }

  /** The claim for a volume: named as the pods claim it, bound to the
      persistent volume built for the same volume, selecting the volume's
      labels and asking for its capacity. */
  function NewPersistentVolumeClaim(v: NodeVolume): (c: PersistentVolumeClaim)
    ensures c.meta.name == ClaimName(v.meta.name)
    ensures c.volumeName == NewPersistentVolume(v).meta.name
    ensures c.storageClassName == NewStorageClass(v).meta.name == NewPersistentVolume(v).spec.storageClassName
    ensures c.selector == v.meta.labels && c.request == v.pv.capacity
    ensures c.accessModes == v.pv.accessModes && c.volumeMode == v.pv.volumeMode
    ensures c.meta.ownerRefs == v.meta.ownerRefs
  {
    PersistentVolumeClaim(
      ObjectMeta(ClaimName(v.meta.name), "", "", "", 0, map[], v.meta.ownerRefs),
      v.pv.accessModes, v.meta.labels, v.meta.name, v.pv.storageClassName, v.pv.volumeMode, v.pv.capacity)
  }

  // ---------------------------------------------------------------------------
  // Rollout completion.

  /** The device paths of a container's volume devices, in order. */
  function DevicePaths(vds: seq<VolumeDevice>): (r: seq<string>)
    ensures |r| == |vds|
  {
    seq(|vds|, i requires 0 <= i < |vds| => vds[i].devicePath)
  }

  /** The deployment d has rolled out when every replica count the status
      reports equals d's desired count and the status has seen d's
      generation. */
  predicate RolloutComplete(status: DeploymentStatus, d: Deployment)
  {
    && status.updatedReplicas == d.replicas
    && status.replicas == d.replicas
    && status.availableReplicas == d.replicas
    && status.observedGeneration >= d.meta.generation
  }

  /** One observation of the deployment while waiting: its status, or the
      error of the read. */
  datatype Poll = Observed(status: DeploymentStatus) | PollError

  /** The number of observations a wait of `timeout` seconds makes, one every
      two seconds; 0 means no limit. */
  function PollBudget(timeout: int, available: nat): (b: nat)
    ensures b <= available
    ensures timeout == 0 ==> b == available
    ensures timeout < 0 ==> b == 0
  {
    if timeout == 0 then available
    else if timeout < 0 then 0
    else if timeout / 2 < available then timeout / 2
    else available
  }

  /** The result of waiting for d over the observations polls: the first
      failed read ends the wait with an error, the first complete status ends
      it with success, and running out of observations is a timeout. */
  function RolloutOutcome(polls: seq<Poll>, d: Deployment): (r: Option<Error>)
    ensures r == None || r == Some(PollFailed(d.meta.name)) || r == Some(RolloutTimeout(d.meta.name))
  {
    if polls == [] then Some(RolloutTimeout(d.meta.name))
    else if polls[0].PollError? then Some(PollFailed(d.meta.name))
    else if RolloutComplete(polls[0].status, d) then None
    else RolloutOutcome(polls[1..], d)
  }

  /** Observation i is the first that ends the wait. */
  ghost predicate EndsAt(polls: seq<Poll>, d: Deployment, i: int)
  {
    && 0 <= i < |polls|
    && (polls[i].PollError? || RolloutComplete(polls[i].status, d))
    && forall j :: 0 <= j < i ==> polls[j].Observed? && !RolloutComplete(polls[j].status, d)
  }

  /** The wait succeeds exactly when some observation is complete and no read
      failed before it; it fails with the read error exactly when a read fails
      before any complete observation. */
  lemma {:induction false} RolloutOutcomeSpec(polls: seq<Poll>, d: Deployment)
    ensures RolloutOutcome(polls, d) == None <==>
      exists i :: EndsAt(polls, d, i) && polls[i].Observed?
    ensures RolloutOutcome(polls, d) == Some(PollFailed(d.meta.name)) <==>
      exists i :: EndsAt(polls, d, i) && polls[i].PollError?
    ensures RolloutOutcome(polls, d) == Some(RolloutTimeout(d.meta.name)) <==>
      forall i :: 0 <= i < |polls| ==> polls[i].Observed? && !RolloutComplete(polls[i].status, d)
  {
    if polls == [] {
    } else if polls[0].PollError? || RolloutComplete(polls[0].status, d) {
      assert EndsAt(polls, d, 0);
      forall i | EndsAt(polls, d, i) ensures i == 0 {
      }
    } else {
      var rest := polls[1..];
      RolloutOutcomeSpec(rest, d);
      forall i | EndsAt(rest, d, i) ensures EndsAt(polls, d, i + 1) {
        forall j | 0 <= j < i + 1 ensures polls[j].Observed? && !RolloutComplete(polls[j].status, d) {
          if j > 0 {
            assert polls[j] == rest[j - 1];
          }
        }
      }
      forall i | EndsAt(polls, d, i) ensures i > 0 && EndsAt(rest, d, i - 1) {
        assert i != 0;
        forall j | 0 <= j < i - 1 ensures rest[j].Observed? && !RolloutComplete(rest[j].status, d) {
          assert rest[j] == polls[j + 1];
        }
      }
      if forall i :: 0 <= i < |rest| ==> rest[i].Observed? && !RolloutComplete(rest[i].status, d) {
        forall i | 0 <= i < |polls| ensures polls[i].Observed? && !RolloutComplete(polls[i].status, d) {
          if i > 0 {
            assert polls[i] == rest[i - 1];
          }
        }
      }
    }
  }
}
