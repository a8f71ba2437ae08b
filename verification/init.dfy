/** Defaulting and derivation (pkg/controller/init.go).

    initGlusterCluster works on a deep copy of the cluster, so the copy is a
    value here: each init step is a method that takes the current copy and
    returns the updated one, in the order the source assigns and appends.
    The mergo merge with the static default documents is the "fill if zero"
    functions Merge*, restricted to the fields the controller reads. */
module Init {
  import opened Types
  import opened Text

  const DefaultPodTimeout := 300
  const DefaultCapacity := "1Gi"
  const DefaultHeketiPort := "8080"
  const DefaultAdminKey := "My Secret"
  const StateHostPath := "/var/lib/glusterfs-containers"
  /** Where the block-device mapper exposes each data disk in the pod. */
  const DeviceDir := "/dev/gluster/"

  const HeketiContainer := Container("heketi",
    [EnvVar("HEKETI_CLI_SERVER", "http://localhost:8080"), EnvVar("HEKETI_CLI_KEY", "My Secret"), EnvVar("HEKETI_CLI_USER", "admin")], [])
  const GlusterContainer := Container("glusterfs", [EnvVar("GLUSTERFS_NODE_NAME", "")], [])
  const BlockDeviceMapper := Container("blkdevmapper", [], [])
  const GlusterPodVolumes := [
    Volume("run", EmptyDir(false)), Volume("lvm", HostPathSource("/run/lvm")),
    Volume("dev", HostPathSource("/dev")), Volume("blkdevbridge", EmptyDir(true))]

  // ---------------------------------------------------------------------------
  // The merge with the default documents: a field keeps a value the user set
  // and takes the default only when it holds Go's zero value. For a bool whose
  // default is true, false is the zero value, so the result is always true.

  function FillString(s: string, default: string): string
  {
    if s == "" then default else s
  }

  function FillSeq<T>(s: seq<T>, default: seq<T>): seq<T>
  {
    if s == [] then default else s
  }

  /** GlusterNodeVolumeDefaults, merged into each device. */
  function MergeVolumeDefaults(v: NodeVolume): NodeVolume
  {
    v.(provision := true,
       pv := v.pv.(capacity := FillString(v.pv.capacity, DefaultCapacity),
                   accessModes := FillSeq(v.pv.accessModes, [ReadWriteOnce]),
                   volumeMode := if v.pv.volumeMode.None? then Some(Block) else v.pv.volumeMode))
  }

  /** The StateVolume entry of GlusterNodeDefaults. */
  function MergeStateVolumeDefaults(v: NodeVolume): NodeVolume
  {
    v.(provision := true,
       pv := v.pv.(capacity := FillString(v.pv.capacity, DefaultCapacity),
                   accessModes := FillSeq(v.pv.accessModes, [ReadWriteOnce]),
                   source := if v.pv.source.NoPVSource? then HostPathPV(StateHostPath) else v.pv.source))
  }

  /** GlusterNodeDefaults, merged into each storage node. */
  function MergeGlusterNodeDefaults(n: Node): Node
  {
    var sv := if n.stateVolume.None? then NodeVolume(EmptyMeta, false, EmptyPVSpec) else n.stateVolume.value;
    n.(serverType := FillString(n.serverType, "gluster"),
       zone := if n.zone == 0 then 1 else n.zone,
       stateVolume := Some(MergeStateVolumeDefaults(sv)),
       spec := n.spec.(volumes := FillSeq(n.spec.volumes, GlusterPodVolumes)))
  }

  /** HeketiNodeDefaults, merged into the heketi node. */
  function MergeHeketiNodeDefaults(n: Node): Node
  {
    n.(serverType := FillString(n.serverType, "heketi"),
       spec := n.spec.(containers := FillSeq(n.spec.containers, [HeketiContainer])))
  }

  /** GlusterClusterDefaults, merged into the copy of the cluster. */
  function MergeClusterDefaults(gc: GlusterCluster): GlusterCluster
  {
    var s := if gc.spec.None? then ClusterSpec(0, false, false, [], None, None) else gc.spec.value;
    var h := if s.heketi.None? then HeketiSpec(false, "", "", None, None) else s.heketi.value;
    var c := if h.config.None? then HeketiConfig("", "") else h.config.value;
    var hn := if h.node.None? then EmptyNode else h.node.value;
    var g := if s.glusterfs.None? then GlusterfsSpec(false, "") else s.glusterfs.value;
    gc.(spec := Some(s.(
      podTimeout := if s.podTimeout == 0 then DefaultPodTimeout else s.podTimeout,
      heketi := Some(h.(native := true,
                        config := Some(c.(port := FillString(c.port, DefaultHeketiPort),
                                          adminKey := FillString(c.adminKey, DefaultAdminKey))),
                        node := Some(MergeHeketiNodeDefaults(hn)))),
      glusterfs := Some(g.(native := true)))))
  }

  // ---------------------------------------------------------------------------
  // Names and labels derived from the cluster, the node and the device.

  /** What the derivation of a node reads from its cluster. */
  datatype Context = Context(cluster: string, namespace: string, owner: OwnerReference, podTimeout: int)

  function ContextOf(gc: GlusterCluster): Context
    requires gc.spec.Some?
  {
    Context(gc.meta.name, gc.meta.namespace, ClusterOwnerRef(gc), gc.spec.value.podTimeout)
  }

  /** metav1.NewControllerRef(gc, GlusterCluster kind). */
  function ClusterOwnerRef(gc: GlusterCluster): OwnerReference
  {
    OwnerReference("GlusterCluster", gc.meta.name, gc.meta.uid, true, true)
  }

  function ClusterLabels(cluster: string): Labels
  {
    map["anthill" := cluster, cluster := "cluster"]
  }

  /** The label every node pod carries and the service selects on. */
  function NodeGroup(cluster: string): string
  {
    cluster + "-node"
  }

  function HeketiNodeLabels(cluster: string, node: string): Labels
  {
    map["name" := node, "anthill" := NodeGroup(cluster), cluster := "heketi-node"]
  }

  /** The in-cluster DNS name of a storage node. */
  function NodeHostname(node: string, cluster: string, namespace: string): string
  {
    node + "." + cluster + "." + namespace + ".svc"
  }

  function GlusterNodeLabels(cluster: string, namespace: string, node: string): Labels
  {
    map["name" := node, "anthill" := NodeGroup(cluster), cluster := "gluster-node",
        "glusterfs-node" := NodeHostname(node, cluster, namespace)]
  }

  function StateVolumeLabels(cluster: string, node: string): Labels
  {
    map["anthill" := cluster + "-" + node + "-volume", cluster := node + "-volume"]
  }

  function DeviceLabels(owner: string, node: string): Labels
  {
    map["anthill" := owner + "-" + node + "-device", owner := node + "-device"]
  }

  /** The claim a pod volume refers to for a node volume of that name. */
  function ClaimName(volume: string): string
  {
    volume + "-claim"
  }

  function KernelModulesName(node: string): string
  {
    node + "-kernel-modules"
  }

  function DevicePath(v: NodeVolume): string
  {
    DeviceDir + v.meta.name
  }

  /** The pod volume claiming each device, in device order. */
  function ClaimVolumes(vs: seq<NodeVolume>): (r: seq<Volume>)
    ensures |r| == |vs|
  {
    seq(|vs|, i requires 0 <= i < |vs| => Volume(vs[i].meta.name, ClaimSource(ClaimName(vs[i].meta.name))))
  }

  /** The raw block device mounted for each device, in device order. */
  function Mounts(vs: seq<NodeVolume>): (r: seq<VolumeDevice>)
    ensures |r| == |vs|
  {
    seq(|vs|, i requires 0 <= i < |vs| => VolumeDevice(vs[i].meta.name, DevicePath(vs[i])))
  }

  /** " <path>" for each device, concatenated in device order. */
  function DevicesEnv(vs: seq<NodeVolume>): string
  {
    if vs == [] then "" else DevicesEnv(vs[..|vs| - 1]) + " " + DevicePath(vs[|vs| - 1])
  }

  /** The init container's environment after the devices vs were processed:
      its first variable (a new DEVICES variable if it had none) ends with
      DevicesEnv(vs). */
  function EnvAfter(env: seq<EnvVar>, vs: seq<NodeVolume>): seq<EnvVar>
  {
    if vs == [] then env
    else if |env| == 0 then [EnvVar("DEVICES", DevicesEnv(vs))]
    else env[0 := env[0].(value := env[0].value + DevicesEnv(vs))]
  }

  /** A pod spec after the devices vs were wired into it: one claim volume
      each, one raw device each in container 0 and in init container 0. */
  function WiredSpec(s: PodSpec, vs: seq<NodeVolume>): (r: PodSpec)
    requires |s.containers| > 0 && |s.initContainers| > 0
    ensures |r.containers| == |s.containers| && |r.initContainers| == |s.initContainers|
  {
    var c0 := s.containers[0];
    var i0 := s.initContainers[0];
    s.(volumes := s.volumes + ClaimVolumes(vs),
       containers := s.containers[0 := c0.(volumeDevices := c0.volumeDevices + Mounts(vs))],
       initContainers := s.initContainers[0 := i0.(volumeDevices := i0.volumeDevices + Mounts(vs),
                                                   env := EnvAfter(i0.env, vs))])
  }

  // ---------------------------------------------------------------------------
  // What each derivation step establishes.

  ghost predicate HeketiNodeDerived(ctx: Context, raw: Node, n: Node)
  {
    var name := if raw.meta.name == "" then ctx.cluster + "-heketi" else raw.meta.name;
    var secret := name + "-db-secret";
    && n.timeout == (if raw.timeout == 0 then ctx.podTimeout else raw.timeout)
    && n.meta == raw.meta.(name := name,
                           namespace := if raw.meta.namespace == "" then ctx.namespace else raw.meta.namespace,
                           ownerRefs := [ctx.owner],
                           labels := HeketiNodeLabels(ctx.cluster, name))
    && n.spec.hostname == name && n.spec.subdomain == ctx.cluster
    && n.spec.serviceAccountName == name + "-service-account"
    && n.spec.volumes == raw.spec.volumes + [Volume("config", ConfigMapSource(name + "-config")),
                                             Volume("backupdb", SecretSource(secret))]
    && |raw.spec.containers| > 0
    && n.spec.containers == raw.spec.containers[0 := raw.spec.containers[0].(
         env := raw.spec.containers[0].env + [EnvVar("HEKETI_KUBE_DB_SECRET_NAME", secret)])]
    && n.spec.initContainers == raw.spec.initContainers
    && n.serverType == raw.serverType && n.ipAddr == raw.ipAddr && n.zone == raw.zone
    && n.devices == raw.devices && n.stateVolume == raw.stateVolume
  }

  ghost predicate GlusterNodeDerived(ctx: Context, raw: Node, idx: nat, n: Node)
  {
    var m := MergeGlusterNodeDefaults(raw);
    var name := if raw.meta.name == "" then ctx.cluster + "-" + Itoa(idx) else raw.meta.name;
    var ns := if raw.meta.namespace == "" then ctx.namespace else raw.meta.namespace;
    var sv := m.stateVolume.value;
    var svName := if sv.meta.name == "" then name + "-state" else sv.meta.name;
    && n.timeout == (if raw.timeout == 0 then ctx.podTimeout else raw.timeout)
    && n.meta == raw.meta.(name := name, namespace := ns, ownerRefs := [ctx.owner],
                           labels := GlusterNodeLabels(ctx.cluster, ctx.namespace, name))
    && n.serverType == m.serverType && n.zone == m.zone && n.ipAddr == raw.ipAddr
    && n.devices == raw.devices
    && n.stateVolume == Some(sv.(meta := sv.meta.(name := svName, namespace := ns, ownerRefs := [ctx.owner],
                                                  labels := StateVolumeLabels(ctx.cluster, name))))
    && n.spec == m.spec.(hostname := name, subdomain := ctx.cluster,
         volumes := m.spec.volumes + [Volume("gluster-state", ClaimSource(ClaimName(svName))),
                                      Volume("kernel-modules", ClaimSource(ClaimName(KernelModulesName(name))))],
         containers := raw.spec.containers + [GlusterContainer],
         initContainers := raw.spec.initContainers + [BlockDeviceMapper])
  }

  /** The device raw, at position d of the node whose metadata is owner. */
  ghost predicate VolumeDerived(owner: ObjectMeta, raw: NodeVolume, d: nat, v: NodeVolume)
    requires |owner.ownerRefs| > 0
  {
    var m := MergeVolumeDefaults(raw);
    && v.meta == raw.meta.(name := if raw.meta.name == "" then owner.name + "-" + Itoa(d) else raw.meta.name,
                           namespace := owner.namespace,
                           ownerRefs := owner.ownerRefs,
                           labels := DeviceLabels(owner.ownerRefs[0].name, owner.name))
    && v.provision
    && v.pv == m.pv.(storageClassName := if raw.pv.storageClassName == "" then owner.name + "-volumes"
                                         else raw.pv.storageClassName)
  }

  /** n is base after every device of base was derived and wired in order. */
  ghost predicate DevicesDerived(base: Node, n: Node)
  {
    && |base.spec.containers| > 0 && |base.spec.initContainers| > 0 && |base.meta.ownerRefs| > 0
    && |n.devices| == |base.devices|
    && (forall d :: 0 <= d < |n.devices| ==> VolumeDerived(base.meta, base.devices[d], d, n.devices[d]))
    && n == base.(devices := n.devices, spec := WiredSpec(base.spec, n.devices))
  }

  ghost predicate NodeInitialized(ctx: Context, raw: Node, idx: nat, n: Node)
  {
    exists base :: GlusterNodeDerived(ctx, raw, idx, base) && DevicesDerived(base, n)
  }

  ghost predicate ClusterDerived(raw: GlusterCluster, r: GlusterCluster)
  {
    var s := MergeClusterDefaults(raw).spec.value;
    && r.meta == raw.meta.(labels := ClusterLabels(raw.meta.name))
    && r.status == raw.status
    && r.spec.Some?
    && var rs := r.spec.value;
    && rs.(nodes := [], heketi := None) == s.(nodes := [], heketi := None)
    && rs.heketi.Some? && rs.heketi.value.node.Some?
    && rs.heketi.value.(node := None) == s.heketi.value.(node := None)
    && HeketiNodeDerived(ContextOf(r), s.heketi.value.node.value, rs.heketi.value.node.value)
    && |rs.nodes| == |s.nodes|
    && forall i :: 0 <= i < |rs.nodes| ==> NodeInitialized(ContextOf(r), s.nodes[i], i, rs.nodes[i])
  }

  /** What the rest of the controller relies on after defaulting. */
  predicate Defaulted(gc: GlusterCluster)
  {
    && gc.spec.Some?
    && gc.spec.value.heketi.Some?
    && gc.spec.value.heketi.value.node.Some?
    && gc.spec.value.heketi.value.config.Some?
    && gc.spec.value.glusterfs.Some?
    && |gc.spec.value.heketi.value.node.value.spec.containers| > 0
    && forall n <- gc.spec.value.nodes :: |n.spec.containers| > 0 && n.stateVolume.Some?
  }

  // ---------------------------------------------------------------------------
  // The derivation steps.

  method InitHeketiNode(ctx: Context, node: Node) returns (n: Node)
    requires |node.spec.containers| > 0
    ensures HeketiNodeDerived(ctx, node, n)
  {
    n := node;
    if n.timeout == 0 {
      n := n.(timeout := ctx.podTimeout);
    }
    if n.meta.name == "" {
      n := n.(meta := n.meta.(name := ctx.cluster + "-heketi"));
    }
    if n.meta.namespace == "" {
      n := n.(meta := n.meta.(namespace := ctx.namespace));
    }
    n := n.(spec := n.spec.(hostname := n.meta.name, subdomain := ctx.cluster));
    n := n.(meta := n.meta.(ownerRefs := [ctx.owner]));
    n := n.(meta := n.meta.(labels := HeketiNodeLabels(ctx.cluster, n.meta.name)));
    n := n.(spec := n.spec.(serviceAccountName := n.meta.name + "-service-account"));
    var configVol := Volume("config", ConfigMapSource(n.meta.name + "-config"));
    n := n.(spec := n.spec.(volumes := n.spec.volumes + [configVol]));
    var dbSecretName := n.meta.name + "-db-secret";
    var dbBackupVol := Volume("backupdb", SecretSource(dbSecretName));
    n := n.(spec := n.spec.(volumes := n.spec.volumes + [dbBackupVol]));
    var c0 := n.spec.containers[0];
    n := n.(spec := n.spec.(containers := n.spec.containers[0 := c0.(env := c0.env + [EnvVar("HEKETI_KUBE_DB_SECRET_NAME", dbSecretName)])]));
  }

  method InitGlusterNode(ctx: Context, node: Node, nIdx: nat) returns (n: Node)
    ensures GlusterNodeDerived(ctx, node, nIdx, n)
  {
    n := MergeGlusterNodeDefaults(node);
    if n.timeout == 0 {
      n := n.(timeout := ctx.podTimeout);
    }
    if n.meta.name == "" {
      n := n.(meta := n.meta.(name := ctx.cluster + "-" + Itoa(nIdx)));
    }
    n := n.(spec := n.spec.(hostname := n.meta.name, subdomain := ctx.cluster));
    if n.meta.namespace == "" {
      n := n.(meta := n.meta.(namespace := ctx.namespace));
    }
    n := n.(meta := n.meta.(ownerRefs := [ctx.owner]));
    n := n.(meta := n.meta.(labels := GlusterNodeLabels(ctx.cluster, ctx.namespace, n.meta.name)));

    var stateVol := n.stateVolume.value;
    if stateVol.meta.name == "" {
      stateVol := stateVol.(meta := stateVol.meta.(name := n.meta.name + "-state"));
    }
    stateVol := stateVol.(meta := stateVol.meta.(ownerRefs := n.meta.ownerRefs, namespace := n.meta.namespace));
    stateVol := stateVol.(meta := stateVol.meta.(labels := StateVolumeLabels(ctx.cluster, n.meta.name)));
    n := n.(stateVolume := Some(stateVol));

    var stateVolSource := Volume("gluster-state", ClaimSource(ClaimName(stateVol.meta.name)));
    n := n.(spec := n.spec.(volumes := n.spec.volumes + [stateVolSource]));
    var kernelMods := Volume("kernel-modules", ClaimSource(ClaimName(KernelModulesName(n.meta.name))));
    n := n.(spec := n.spec.(volumes := n.spec.volumes + [kernelMods]));
    n := n.(spec := n.spec.(containers := n.spec.containers + [GlusterContainer]));
    n := n.(spec := n.spec.(initContainers := n.spec.initContainers + [BlockDeviceMapper]));
  }

  /** The defaulting half of initGlusterNodeVolume: the volume's name,
      class name, owner, namespace and labels. */
  method DeriveVolume(owner: ObjectMeta, volume: NodeVolume, dIdx: nat) returns (v: NodeVolume)
    requires |owner.ownerRefs| > 0
    ensures VolumeDerived(owner, volume, dIdx, v)
  {
    v := MergeVolumeDefaults(volume);
    if v.meta.name == "" {
      v := v.(meta := v.meta.(name := owner.name + "-" + Itoa(dIdx)));
    }
    if v.pv.storageClassName == "" {
      v := v.(pv := v.pv.(storageClassName := owner.name + "-volumes"));
    }
    v := v.(meta := v.meta.(ownerRefs := owner.ownerRefs, namespace := owner.namespace));
    var ownerName := v.meta.ownerRefs[0].name;
    v := v.(meta := v.meta.(labels := DeviceLabels(ownerName, owner.name)));
  }

  method InitGlusterNodeVolume(node: Node, volume: NodeVolume, dIdx: nat) returns (n: Node, v: NodeVolume)
    requires |node.spec.containers| > 0 && |node.spec.initContainers| > 0 && |node.meta.ownerRefs| > 0
    ensures VolumeDerived(node.meta, volume, dIdx, v)
    ensures n == node.(spec := WiredSpec(node.spec, [v]))
  {
    v := DeriveVolume(node.meta, volume, dIdx);
    n := node;
    var volSource := Volume(v.meta.name, ClaimSource(ClaimName(v.meta.name)));
    n := n.(spec := n.spec.(volumes := n.spec.volumes + [volSource]));
    var volDevice := VolumeDevice(v.meta.name, DeviceDir + v.meta.name);
    var c0 := n.spec.containers[0];
    n := n.(spec := n.spec.(containers := n.spec.containers[0 := c0.(volumeDevices := c0.volumeDevices + [volDevice])]));
    var i0 := n.spec.initContainers[0];
    ghost var env0 := i0.env;
    i0 := i0.(volumeDevices := i0.volumeDevices + [volDevice]);
    if |i0.env| == 0 {
      i0 := i0.(env := [EnvVar("DEVICES", "")]);
    }
    i0 := i0.(env := i0.env[0 := i0.env[0].(value := i0.env[0].value + " " + volDevice.devicePath)]);
    n := n.(spec := n.spec.(initContainers := n.spec.initContainers[0 := i0]));

    assert ClaimVolumes([v]) == [volSource];
    assert Mounts([v]) == [volDevice];
    assert DevicesEnv([v]) == " " + volDevice.devicePath by {
      assert [v][..0] == [];
    }
    if |env0| == 0 {
      assert "" + " " + volDevice.devicePath == " " + volDevice.devicePath;
    } else {
      assert env0[0].value + " " + volDevice.devicePath == env0[0].value + (" " + volDevice.devicePath);
    }
    assert i0.env == EnvAfter(env0, [v]);
  }

  /** Wiring devices one after another is wiring them all at once. */
  lemma WiredSpecStep(s: PodSpec, p: seq<NodeVolume>, v: NodeVolume)
    requires |s.containers| > 0 && |s.initContainers| > 0
    ensures WiredSpec(WiredSpec(s, p), [v]) == WiredSpec(s, p + [v])
  {
    assert ClaimVolumes(p + [v]) == ClaimVolumes(p) + ClaimVolumes([v]);
    assert Mounts(p + [v]) == Mounts(p) + Mounts([v]);
    assert (p + [v])[..|p|] == p;
    assert [v][..0] == [];
    var env := s.initContainers[0].env;
    var path := DevicePath(v);
    assert DevicesEnv([v]) == " " + path;
    assert DevicesEnv(p + [v]) == DevicesEnv(p) + " " + path;
    if p == [] {
      assert p + [v] == [v];
    } else if |env| == 0 {
      assert EnvAfter(env, p) == [EnvVar("DEVICES", DevicesEnv(p))];
      assert DevicesEnv(p) + (" " + path) == DevicesEnv(p) + " " + path;
      assert EnvAfter(EnvAfter(env, p), [v]) == EnvAfter(env, p + [v]);
    } else {
      var e := env[0].value;
      var ep := EnvAfter(env, p);
      assert ep[0].value == e + DevicesEnv(p);
      assert (e + DevicesEnv(p)) + (" " + path) == e + (DevicesEnv(p) + " " + path);
      assert EnvAfter(ep, [v]) == EnvAfter(env, p + [v]);
    }
    var w := WiredSpec(s, p);
    assert w.initContainers[0].env == EnvAfter(env, p);
    var i0 := s.initContainers[0];
    assert i0.volumeDevices + Mounts(p) + Mounts([v]) == i0.volumeDevices + Mounts(p + [v]);
    assert WiredSpec(w, [v]).initContainers[0].env == WiredSpec(s, p + [v]).initContainers[0].env;
    assert WiredSpec(w, [v]).initContainers[0] == WiredSpec(s, p + [v]).initContainers[0];
    assert WiredSpec(w, [v]).containers[0] == WiredSpec(s, p + [v]).containers[0];
  }

  lemma WiredSpecNone(s: PodSpec)
    requires |s.containers| > 0 && |s.initContainers| > 0
    ensures WiredSpec(s, []) == s
  {
    assert ClaimVolumes([]) == [] && Mounts([]) == [];
    assert s.volumes + [] == s.volumes;
    assert s.containers[0].volumeDevices + [] == s.containers[0].volumeDevices;
    assert s.initContainers[0].volumeDevices + [] == s.initContainers[0].volumeDevices;
  }

  /** One turn of the device loop: wiring device k after the first k keeps
      the node the wiring of its first k + 1 devices. */
  lemma DevicesLoopStep(node: Node, n: Node, v: NodeVolume, k: nat)
    requires |node.spec.containers| > 0 && |node.spec.initContainers| > 0
    requires k < |n.devices| == |node.devices|
    requires n == node.(devices := n.devices[..k] + node.devices[k..], spec := WiredSpec(node.spec, n.devices[..k]))
    ensures var m := n.(spec := WiredSpec(n.spec, [v]), devices := n.devices[k := v]);
      m == node.(devices := m.devices[..k + 1] + node.devices[k + 1..], spec := WiredSpec(node.spec, m.devices[..k + 1]))
  {
    var done := n.devices[..k];
    WiredSpecStep(node.spec, done, v);
    var m := n.(spec := WiredSpec(n.spec, [v]), devices := n.devices[k := v]);
    assert m.devices[..k + 1] == done + [v];
    assert m.devices == m.devices[..k + 1] + node.devices[k + 1..];
  }

  /** The device loop of initGlusterCluster for one node: each device is
      derived and wired in order. */
  method InitGlusterNodeDevices(node: Node) returns (n: Node)
    requires |node.spec.containers| > 0 && |node.spec.initContainers| > 0 && |node.meta.ownerRefs| > 0
    ensures DevicesDerived(node, n)
  {
    n := node;
    WiredSpecNone(node.spec);
    var dIdx := 0;
    while dIdx < |n.devices|
      invariant 0 <= dIdx <= |n.devices| == |node.devices|
      invariant n == node.(devices := n.devices[..dIdx] + node.devices[dIdx..],
                           spec := WiredSpec(node.spec, n.devices[..dIdx]))
      invariant forall j :: 0 <= j < dIdx ==> VolumeDerived(node.meta, node.devices[j], j, n.devices[j])
    {
      assert n.devices[dIdx] == node.devices[dIdx];
      var n', v := InitGlusterNodeVolume(n, n.devices[dIdx], dIdx);
      DevicesLoopStep(node, n, v, dIdx);
      n := n'.(devices := n'.devices[dIdx := v]);
      dIdx := dIdx + 1;
    }
    assert n.devices[..dIdx] == n.devices;
  }

  /** A derived cluster has everything the rest of the controller reads. */
  lemma DerivedIsDefaulted(raw: GlusterCluster, r: GlusterCluster)
    requires ClusterDerived(raw, r)
    ensures Defaulted(r)
  {
    var rs := r.spec.value;
    var s := MergeClusterDefaults(raw).spec.value;
    forall i | 0 <= i < |rs.nodes|
      ensures |rs.nodes[i].spec.containers| > 0 && rs.nodes[i].stateVolume.Some?
    {
      assert NodeInitialized(ContextOf(r), s.nodes[i], i, rs.nodes[i]);
      var base :| GlusterNodeDerived(ContextOf(r), s.nodes[i], i, base) && DevicesDerived(base, rs.nodes[i]);
    }
  }

  method InitGlusterCluster(gc: Option<GlusterCluster>) returns (r: Option<GlusterCluster>)
    ensures r.None? <==> gc.None?
    ensures gc.Some? ==> ClusterDerived(gc.value, r.value)
  {
    if gc.None? {
      return None;
    }
    var c := MergeClusterDefaults(gc.value);
    c := c.(meta := c.meta.(labels := ClusterLabels(gc.value.meta.name)));
    var ctx := ContextOf(c);

    var spec := c.spec.value;
    var heketi := spec.heketi.value;
    var hn := InitHeketiNode(ctx, heketi.node.value);
    spec := spec.(heketi := Some(heketi.(node := Some(hn))));

    var nodes := spec.nodes;
    ghost var bases: seq<Node> := [];
    var nIdx := 0;
    while nIdx < |nodes|
      invariant 0 <= nIdx <= |nodes| == |spec.nodes| == |bases| + (|nodes| - nIdx)
      invariant nodes[nIdx..] == spec.nodes[nIdx..]
      invariant forall j :: 0 <= j < nIdx ==>
        GlusterNodeDerived(ctx, spec.nodes[j], j, bases[j]) && DevicesDerived(bases[j], nodes[j])
    {
      var node := InitGlusterNode(ctx, nodes[nIdx], nIdx);
      bases := bases + [node];
      node := InitGlusterNodeDevices(node);
      nodes := nodes[nIdx := node];
      nIdx := nIdx + 1;
    }

    var result := c.(spec := Some(spec.(nodes := nodes)));
    assert ContextOf(result) == ctx;
    forall i | 0 <= i < |nodes|
      ensures NodeInitialized(ctx, spec.nodes[i], i, nodes[i])
    {
      assert GlusterNodeDerived(ctx, spec.nodes[i], i, bases[i]) && DevicesDerived(bases[i], nodes[i]);
    }
    r := Some(result);
  }
}
