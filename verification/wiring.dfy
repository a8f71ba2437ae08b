/** How the names derived in pkg/controller/init.go line up with the objects
    built in pkg/controller/objects.go and created in deploy.go: claims the
    pods refer to exist, the service selects the node pods, and the devices
    offered to heketi are the ones init mounted. */
module Wiring {
  import opened Types
  import opened Init
  import opened Objects
  import opened Api
  import opened Create
  import opened Deploy

  /** The pod volumes of an initialized storage node: the defaults', then
      the state and kernel-modules claims, then one claim per device. */
  lemma InitializedVolumes(ctx: Context, raw: Node, idx: nat, n: Node)
    requires NodeInitialized(ctx, raw, idx, n)
    ensures n.stateVolume.Some? && |n.spec.containers| > 0
    ensures n.spec.volumes == MergeGlusterNodeDefaults(raw).spec.volumes
      + [Volume("gluster-state", ClaimSource(ClaimName(n.stateVolume.value.meta.name))),
         Volume("kernel-modules", ClaimSource(ClaimName(KernelModulesName(n.meta.name))))]
      + ClaimVolumes(n.devices)
    ensures n.stateVolume.value.meta.namespace == n.meta.namespace
    ensures forall d <- n.devices :: d.meta.namespace == n.meta.namespace
  {
    var base :| GlusterNodeDerived(ctx, raw, idx, base) && DevicesDerived(base, n);
    forall d <- n.devices ensures d.meta.namespace == n.meta.namespace {
      var j :| 0 <= j < |n.devices| && n.devices[j] == d;
      assert VolumeDerived(base.meta, base.devices[j], j, n.devices[j]);
    }
  }

  /** Every claim that init wires into a storage node's pod names a claim
      that deploying the node created: the state volume's, the
      kernel-modules volume's and each device's, in the node's namespace. */
  lemma DeployedPodClaimsExist(env: Env, w: World, wipe: bool, ctx: Context, raw: Node, idx: nat, n: Node)
    requires NodeInitialized(ctx, raw, idx, n)
    requires n.serverType == GlusterServer
    requires DeployNodeOutcome(env, w, wipe, n).err.None?
    ensures var first := |MergeGlusterNodeDefaults(raw).spec.volumes|;
      && first + 2 + |n.devices| == |n.spec.volumes|
      && forall i :: first <= i < |n.spec.volumes| ==>
           && n.spec.volumes[i].source.ClaimSource?
           && ObjectKey(PersistentVolumeClaimKind, n.meta.namespace, n.spec.volumes[i].source.claimName)
              in DeployNodeOutcome(env, w, wipe, n).world.objects
  {
    InitializedVolumes(ctx, raw, idx, n);
    DeployedNodeHasClaims(env, w, wipe, n);
    var first := |MergeGlusterNodeDefaults(raw).spec.volumes|;
    var objects := DeployNodeOutcome(env, w, wipe, n).world.objects;
    forall i | first <= i < |n.spec.volumes|
      ensures n.spec.volumes[i].source.ClaimSource?
      ensures ObjectKey(PersistentVolumeClaimKind, n.meta.namespace, n.spec.volumes[i].source.claimName) in objects
    {
      if i == first {
        assert ClaimKey(n.stateVolume.value) in objects;
      } else if i == first + 1 {
        assert ClaimKey(KernelModulesVolume(n, n.stateVolume.value)) in objects;
      } else {
        var d := i - first - 2;
        assert n.devices[d] in n.devices;
        assert ClaimKey(n.devices[d]) in objects;
      }
    }
  }

  /** The "anthill" label of an initialized storage node. */
  lemma NodeGroupLabel(ctx: Context, raw: Node, idx: nat, n: Node)
    requires NodeInitialized(ctx, raw, idx, n)
    ensures ctx.cluster != "anthill" ==> Label(n.meta.labels, "anthill") == NodeGroup(ctx.cluster)
    ensures ctx.cluster == "anthill" ==> Label(n.meta.labels, "anthill") == "gluster-node"
  {
    var base :| GlusterNodeDerived(ctx, raw, idx, base) && DevicesDerived(base, n);
  }

  /** The cluster's headless service selects the heketi pod and every
      storage pod of the initialized cluster, unless the cluster is named
      "anthill". */
  lemma ServiceSelectsEveryNode(raw: GlusterCluster, r: GlusterCluster)
    requires ClusterDerived(raw, r)
    requires r.meta.name != "anthill"
    ensures Selects(NewService(r).selector, r.spec.value.heketi.value.node.value.meta.labels)
    ensures forall i :: 0 <= i < |r.spec.value.nodes| ==> Selects(NewService(r).selector, r.spec.value.nodes[i].meta.labels)
  {
    var s := MergeClusterDefaults(raw).spec.value;
    forall i | 0 <= i < |r.spec.value.nodes|
      ensures Selects(NewService(r).selector, r.spec.value.nodes[i].meta.labels)
    {
      NodeGroupLabel(ContextOf(r), s.nodes[i], i, r.spec.value.nodes[i]);
    }
  }

  /** A cluster named "anthill" is the exception: its storage pods' own
      "anthill" label is overwritten by the cluster-name key, so the service
      selects none of them. */
  lemma ClusterNamedAnthillIsNotSelected(raw: GlusterCluster, r: GlusterCluster)
    requires ClusterDerived(raw, r)
    requires r.meta.name == "anthill"
    ensures forall i :: 0 <= i < |r.spec.value.nodes| ==> !Selects(NewService(r).selector, r.spec.value.nodes[i].meta.labels)
  {
    var s := MergeClusterDefaults(raw).spec.value;
    forall i | 0 <= i < |r.spec.value.nodes|
      ensures !Selects(NewService(r).selector, r.spec.value.nodes[i].meta.labels)
    {
      NodeGroupLabel(ContextOf(r), s.nodes[i], i, r.spec.value.nodes[i]);
      assert NodeGroup(r.meta.name)[0] == 'a' != "gluster-node"[0];
    }
  }

  /** The device paths of an initialized storage node's first container
      (the ones deployNode wipes and heketi is offered) end with one
      "/dev/gluster/<device>" per device, in device order. */
  lemma OfferedDevicesEndWithInitPaths(ctx: Context, raw: Node, idx: nat, n: Node)
    requires NodeInitialized(ctx, raw, idx, n)
    ensures |n.spec.containers| > 0
    ensures var paths := DevicePaths(n.spec.containers[0].volumeDevices);
      && |paths| >= |n.devices|
      && forall d :: 0 <= d < |n.devices| ==> paths[|paths| - |n.devices| + d] == DevicePath(n.devices[d])
  {
    var base :| GlusterNodeDerived(ctx, raw, idx, base) && DevicesDerived(base, n);
    var vds := n.spec.containers[0].volumeDevices;
    assert vds == base.spec.containers[0].volumeDevices + Mounts(n.devices);
    var paths := DevicePaths(vds);
    forall d | 0 <= d < |n.devices|
      ensures paths[|paths| - |n.devices| + d] == DevicePath(n.devices[d])
    {
      assert vds[|vds| - |n.devices| + d] == Mounts(n.devices)[d];
    }
  }
}
