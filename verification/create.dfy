/** Creation of the dependent objects (pkg/controller/create.go). Each create
    function is a fixed sequence of create-or-accept requests that returns at
    the first error; the sequence is a plan of Steps, and each method is
    proved to have the effect of running its plan. */
module Create {
  import opened Types
  import opened Init
  import opened Objects
  import opened Api

  // ---------------------------------------------------------------------------
  // The objects create.go builds inline.

  function HeketiConfigMap(node: Node, encoded: string): (cm: ConfigMap)
    ensures cm.meta.name == node.meta.name + "-config"
    ensures cm.data == map["heketi.json" := encoded]
  {
    ConfigMap(ObjectMeta(node.meta.name + "-config", node.meta.namespace, "", "", 0,
                         map["anthill" := node.meta.name + "-config", "heketi" := "config"], node.meta.ownerRefs),
              map["heketi.json" := encoded])
  }

  /** The secret heketi backs its database up to; it is created empty, with
      no owner, in the heketi node's namespace. */
  function HeketiDbSecret(node: Node): (s: Secret)
    ensures s.meta.name == node.meta.name + "-db-secret" && s.meta.ownerRefs == []
    ensures s.data == map["heketi.db" := ""]
  {
    Secret(ObjectMeta(node.meta.name + "-db-secret", "", "", "", 0, map["deploy-heketi" := "support"], []),
           map["heketi.db" := ""])
  }

  function HeketiServiceAccount(node: Node): ServiceAccount
  {
    ServiceAccount(ObjectMeta(node.meta.name + "-service-account", node.meta.namespace, "", "", 0,
                              map["anthill" := node.meta.name + "-service-account", "heketi" := "service-account"],
                              node.meta.ownerRefs))
  }

  /** The binding of the heketi service account to the "anthill" cluster
      role. */
  function HeketiRoleBinding(node: Node): (rb: RoleBinding)
    ensures rb.subjects == [Subject("ServiceAccount", HeketiServiceAccount(node).meta.name, node.meta.namespace)]
    ensures rb.roleRef == RoleRef("rbac.authorization.k8s.io", "ClusterRole", "anthill")
    ensures rb.meta.name == node.meta.name + "-role-binding"
  {
    RoleBinding(ObjectMeta(node.meta.name + "-role-binding", node.meta.namespace, "", "", 0,
                           map["anthill" := node.meta.name + "-role-binding", "heketi" := "role-binding"],
                           node.meta.ownerRefs),
                [Subject("ServiceAccount", node.meta.name + "-service-account", node.meta.namespace)],
                RoleRef("rbac.authorization.k8s.io", "ClusterRole", "anthill"))
  }

  /** The read-only volume exposing the host's kernel modules to a storage
      node; it carries the state volume's labels and no storage class. */
  function KernelModulesVolume(node: Node, stateVol: NodeVolume): (v: NodeVolume)
    ensures v.meta.name == KernelModulesName(node.meta.name)
    ensures v.meta.namespace == node.meta.namespace && v.meta.ownerRefs == node.meta.ownerRefs
    ensures v.meta.labels == stateVol.meta.labels
    ensures v.provision && v.pv.storageClassName == ""
    ensures v.pv.accessModes == [ReadOnlyMany] && v.pv.source == HostPathPV("/usr/lib/modules")
  {
    NodeVolume(ObjectMeta(KernelModulesName(node.meta.name), node.meta.namespace, "", "", 0, stateVol.meta.labels, node.meta.ownerRefs),
               true,
               EmptyPVSpec.(capacity := DefaultCapacity, accessModes := [ReadOnlyMany], source := HostPathPV("/usr/lib/modules")))
  }

  // ---------------------------------------------------------------------------
  // Plans.

  function ServicePlan(gc: GlusterCluster): seq<Step>
  {
    [Step(gc.meta.namespace, ServiceObject(NewService(gc)))]
  }

  function HeketiConfigPlan(node: Node, encoded: string): seq<Step>
  {
    [Step(node.meta.namespace, ConfigMapObject(HeketiConfigMap(node, encoded))),
     Step(node.meta.namespace, SecretObject(HeketiDbSecret(node)))]
  }

  function CredentialsPlan(node: Node): seq<Step>
  {
    [Step(node.meta.namespace, ServiceAccountObject(HeketiServiceAccount(node))),
     Step(node.meta.namespace, RoleBindingObject(HeketiRoleBinding(node)))]
  }

  function StorageClassStep(v: NodeVolume): Step
  {
    Step("", StorageClassObject(NewStorageClass(v)))
  }

  function PVStep(v: NodeVolume): Step
  {
    Step("", PVObject(NewPersistentVolume(v)))
  }

  function PVCStep(v: NodeVolume): Step
  {
    Step(v.meta.namespace, PVCObject(NewPersistentVolumeClaim(v)))
  }

  /** The key of the claim created for a volume. */
  function ClaimKey(v: NodeVolume): ObjectKey
  {
    ObjectKey(PersistentVolumeClaimKind, v.meta.namespace, ClaimName(v.meta.name))
  }

  /** createVolumeResources: a storage class when the volume is provisioned
      and names a class, a persistent volume when it is provisioned, and
      always the claim, in that order. */
  function VolumePlan(v: NodeVolume): (p: seq<Step>)
    ensures |p| >= 1 && p[|p| - 1] == PVCStep(v) && StepKey(PVCStep(v)) == ClaimKey(v)
    ensures StorageClassStep(v) in p <==> v.provision && v.pv.storageClassName != ""
    ensures PVStep(v) in p <==> v.provision
    ensures |p| == (if v.provision then (if v.pv.storageClassName != "" then 3 else 2) else 1)
  {
    (if v.provision && v.pv.storageClassName != "" then [StorageClassStep(v)] else [])
    + (if v.provision then [PVStep(v)] else [])
    + [PVCStep(v)]
  }

  /** The plan of each kind of volume, step by step: the storage class
      before the persistent volume, and the claim last. */
  lemma VolumePlanSteps(v: NodeVolume)
    ensures v.provision && v.pv.storageClassName != "" ==> VolumePlan(v) == [StorageClassStep(v), PVStep(v), PVCStep(v)]
    ensures v.provision && v.pv.storageClassName == "" ==> VolumePlan(v) == [PVStep(v), PVCStep(v)]
    ensures !v.provision ==> VolumePlan(v) == [PVCStep(v)]
  {
  }

  /** createGlusterMountVolumes: the state volume's resources, then the
      kernel-modules volume's. */
  function MountVolumesPlan(node: Node, stateVol: NodeVolume): seq<Step>
  {
    VolumePlan(stateVol) + VolumePlan(KernelModulesVolume(node, stateVol))
  }

  /** The resources of the devices, device after device. */
  function DevicesPlan(devices: seq<NodeVolume>): seq<Step>
  {
    if devices == [] then [] else DevicesPlan(devices[..|devices| - 1]) + VolumePlan(devices[|devices| - 1])
  }

  // ---------------------------------------------------------------------------
  // What each create function does to the store.

  /** createHeketiConfig: a failed encoding of the configuration stops before
      any request; otherwise the configuration map, then the database
      secret. */
  function HeketiConfigOutcome(env: Env, w: World, node: Node, encoded: Option<string>): (r: Outcome)
    ensures encoded.None? ==> r == Outcome(w, Some(MarshalFailed))
  {
    if encoded.None? then Outcome(w, Some(MarshalFailed))
    else EnsureAll(env, w, HeketiConfigPlan(node, encoded.value))
  }

  /** createGlusterMountVolumes; a node without a state volume dereferences
      nil in the source and is reported as a crash. */
  function MountVolumesOutcome(env: Env, w: World, node: Node): (r: Outcome)
    ensures node.stateVolume.None? ==> r.world == w && r.err.Some? && r.err.value.Crash?
  {
    if node.stateVolume.None? then Outcome(w, Some(Crash("nil state volume")))
    else EnsureAll(env, w, MountVolumesPlan(node, node.stateVolume.value))
  }

  /** createDeployment: AlreadyExists is success without waiting; only a
      deployment this call created is waited for, as the server returned it. */
  function DeploymentOutcome(env: Env, w: World, node: Node): (r: Outcome)
  {
    var d := NewDeployment(node);
    var r := CreateRaw(env, w, node.meta.namespace, DeploymentObject(d));
    if r.err.Some? && r.err.value.AlreadyExists? then r.(err := None)
    else if r.err.Some? then r
    else r.(err := WaitOutcome(env, r.world.objects[DeploymentKey(d)].deployment, node.timeout))
  }

  /** The deployment of a node is created at most once: when one is already
      stored, createDeployment succeeds without waiting and changes nothing
      but the request log; when it is new, the result is the rollout's. */
  lemma DeploymentWaitsOnlyWhenCreated(env: Env, w: World, node: Node)
    ensures var key := DeploymentKey(NewDeployment(node));
      var r := DeploymentOutcome(env, w, node);
      && r.world.requests == w.requests + [CreateRequest(key)]
      && (key in env.failing ==> r.err == Some(ApiFailure(key)) && r.world.objects == w.objects)
      && (key !in env.failing && key in w.objects ==> r.err == None && r.world.objects == w.objects)
      && (key !in env.failing && key !in w.objects ==>
            var created := NewDeployment(node).(meta := NewDeployment(node).meta.(generation := 1));
            && r.err == WaitOutcome(env, created, node.timeout)
            && r.world.objects == w.objects[key := DeploymentObject(created)])
  {
  }

  // ---------------------------------------------------------------------------
  // The create functions.

  /** A create whose AlreadyExists error is ignored. */
  method EnsureObject(api: KubeApi, namespace: string, o: Object) returns (err: Option<Error>)
    modifies api
    ensures Outcome(api.State(), err) == Ensure(api.env, old(api.State()), namespace, o)
  {
    var created;
    created, err := api.Create(namespace, o);
    if err.Some? && err.value.AlreadyExists? {
      err := None;
    }
  }

  /** One more step of a plan whose prefix succeeded. */
  lemma EnsureAllSnoc(env: Env, w: World, plan: seq<Step>, s: Step)
    requires EnsureAll(env, w, plan).err.None?
    ensures EnsureAll(env, w, plan + [s]) == Ensure(env, EnsureAll(env, w, plan).world, s.namespace, s.obj)
  {
    EnsureAllAppend(env, w, plan, [s]);
    var r := Ensure(env, EnsureAll(env, w, plan).world, s.namespace, s.obj);
    assert EnsureAll(env, EnsureAll(env, w, plan).world, [s]) == r by {
      assert [s][1..] == [];
    }
  }

  /** A plan whose prefix failed fails the same way whatever follows. */
  lemma EnsureAllFailed(env: Env, w: World, plan: seq<Step>, rest: seq<Step>)
    requires EnsureAll(env, w, plan).err.Some?
    ensures EnsureAll(env, w, plan + rest) == EnsureAll(env, w, plan)
  {
    EnsureAllAppend(env, w, plan, rest);
  }

  method CreateService(api: KubeApi, gc: GlusterCluster) returns (err: Option<Error>)
    modifies api
    ensures Outcome(api.State(), err) == EnsureAll(api.env, old(api.State()), ServicePlan(gc))
  {
    EnsureAllSnoc(api.env, api.State(), [], ServicePlan(gc)[0]);
    err := EnsureObject(api, gc.meta.namespace, ServiceObject(NewService(gc)));
  }

  method CreateHeketiConfig(api: KubeApi, node: Node, encoded: Option<string>) returns (err: Option<Error>)
    modifies api
    ensures Outcome(api.State(), err) == HeketiConfigOutcome(api.env, old(api.State()), node, encoded)
  {
    if encoded.None? {
      return Some(MarshalFailed);
    }
    var plan := HeketiConfigPlan(node, encoded.value);
    ghost var w0 := api.State();
    EnsureAllSnoc(api.env, w0, [], plan[0]);
    err := EnsureObject(api, node.meta.namespace, ConfigMapObject(HeketiConfigMap(node, encoded.value)));
    if err.Some? {
      EnsureAllFailed(api.env, w0, [plan[0]], [plan[1]]);
      assert [plan[0]] + [plan[1]] == plan;
      return;
    }
    EnsureAllSnoc(api.env, w0, [plan[0]], plan[1]);
    assert [plan[0]] + [plan[1]] == plan;
    err := EnsureObject(api, node.meta.namespace, SecretObject(HeketiDbSecret(node)));
  }

  method CreateHeketiCredentials(api: KubeApi, node: Node) returns (err: Option<Error>)
    modifies api
    ensures Outcome(api.State(), err) == EnsureAll(api.env, old(api.State()), CredentialsPlan(node))
  {
    var plan := CredentialsPlan(node);
    ghost var w0 := api.State();
    EnsureAllSnoc(api.env, w0, [], plan[0]);
    err := EnsureObject(api, node.meta.namespace, ServiceAccountObject(HeketiServiceAccount(node)));
    if err.Some? {
      EnsureAllFailed(api.env, w0, [plan[0]], [plan[1]]);
      assert [plan[0]] + [plan[1]] == plan;
      return;
    }
    EnsureAllSnoc(api.env, w0, [plan[0]], plan[1]);
    assert [plan[0]] + [plan[1]] == plan;
    err := EnsureObject(api, node.meta.namespace, RoleBindingObject(HeketiRoleBinding(node)));
  }

  method CreateStorageClass(api: KubeApi, v: NodeVolume) returns (err: Option<Error>)
    modifies api
    ensures Outcome(api.State(), err) == EnsureAll(api.env, old(api.State()), [StorageClassStep(v)])
  {
    EnsureAllSnoc(api.env, api.State(), [], StorageClassStep(v));
    err := EnsureObject(api, "", StorageClassObject(NewStorageClass(v)));
  }

  method CreatePV(api: KubeApi, v: NodeVolume) returns (err: Option<Error>)
    modifies api
    ensures Outcome(api.State(), err) == EnsureAll(api.env, old(api.State()), [PVStep(v)])
  {
    EnsureAllSnoc(api.env, api.State(), [], PVStep(v));
    err := EnsureObject(api, "", PVObject(NewPersistentVolume(v)));
  }

  method CreatePVC(api: KubeApi, v: NodeVolume) returns (err: Option<Error>)
    modifies api
    ensures Outcome(api.State(), err) == EnsureAll(api.env, old(api.State()), [PVCStep(v)])
  {
    EnsureAllSnoc(api.env, api.State(), [], PVCStep(v));
    err := EnsureObject(api, v.meta.namespace, PVCObject(NewPersistentVolumeClaim(v)));
  }

  method CreateVolumeResources(api: KubeApi, v: NodeVolume) returns (err: Option<Error>)
    modifies api
    ensures Outcome(api.State(), err) == EnsureAll(api.env, old(api.State()), VolumePlan(v))
  {
    ghost var w0 := api.State();
    ghost var done: seq<Step> := [];
    if v.provision {
      if v.pv.storageClassName != "" {
        err := CreateStorageClass(api, v);
        done := [StorageClassStep(v)];
        if err.Some? {
          EnsureAllFailed(api.env, w0, done, VolumePlan(v)[1..]);
          assert done + VolumePlan(v)[1..] == VolumePlan(v);
          return;
        }
      }
      err := CreatePV(api, v);
      EnsureAllAppend(api.env, w0, done, [PVStep(v)]);
      done := done + [PVStep(v)];
      if err.Some? {
        EnsureAllFailed(api.env, w0, done, [PVCStep(v)]);
        assert done + [PVCStep(v)] == VolumePlan(v);
        return;
      }
    }
    err := CreatePVC(api, v);
    EnsureAllAppend(api.env, w0, done, [PVCStep(v)]);
    assert done + [PVCStep(v)] == VolumePlan(v);
  }

  method CreateGlusterMountVolumes(api: KubeApi, node: Node) returns (err: Option<Error>)
    modifies api
    ensures Outcome(api.State(), err) == MountVolumesOutcome(api.env, old(api.State()), node)
  {
    if node.stateVolume.None? {
      return Some(Crash("nil state volume"));
    }
    var stateVol := node.stateVolume.value;
    ghost var w0 := api.State();
    err := CreateVolumeResources(api, stateVol);
    if err.Some? {
      EnsureAllFailed(api.env, w0, VolumePlan(stateVol), VolumePlan(KernelModulesVolume(node, stateVol)));
      return;
    }
    var kernelModVol := KernelModulesVolume(node, stateVol);
    err := CreateVolumeResources(api, kernelModVol);
    EnsureAllAppend(api.env, w0, VolumePlan(stateVol), VolumePlan(kernelModVol));
  }

  method CreateDeployment(api: KubeApi, node: Node) returns (err: Option<Error>)
    modifies api
    ensures Outcome(api.State(), err) == DeploymentOutcome(api.env, old(api.State()), node)
  {
    var d := NewDeployment(node);
    var created;
    created, err := api.Create(node.meta.namespace, DeploymentObject(d));
    if err.Some? {
      if err.value.AlreadyExists? {
        err := None;
      }
      return;
    }
    err := WaitForDeployment(api, created.value.deployment, node.timeout);
  }
}
