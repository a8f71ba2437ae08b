/** The heketi admin client (pkg/heketi/client.go). Heketi keeps a topology
    of clusters, nodes and devices; the client registers the storage cluster
    and its nodes there and caches the ids heketi hands out in the labels of
    the heketi deployment ("heketiClusterId") and of each node deployment
    ("heketiNodeId", "heketiClusterId"), so that a later pass skips what is
    already registered. */
module Heketi {
  import opened Types
  import opened Text
  import opened Objects
  import opened Api

  datatype NodeAddRequest = NodeAddRequest(clusterId: string, manage: seq<string>, storage: seq<string>, zone: int)

  /** The calls the client makes to the heketi server. */
  datatype Call =
    | ClusterListCall
    | ClusterCreateCall(block: bool, file: bool)
    | ClusterInfoCall(id: string)
    | NodeInfoCall(id: string)
    | NodeAddCall(request: NodeAddRequest)
    | DeviceAddCall(nodeId: string, name: string)

  /** What heketi reports about a node: its id, its cluster and the names of
      its devices. */
  datatype NodeInfoResponse = NodeInfoResponse(id: string, clusterId: string, devices: seq<string>)

  /** The server's topology: the cluster list, the nodes of each cluster, the
      nodes by id, and the counter new ids are drawn from. */
  datatype Topology = Topology(
    clusters: seq<string>,
    members: map<string, seq<string>>,
    nodes: map<string, NodeInfoResponse>,
    nextId: nat)

  datatype Remote = Remote(topo: Topology, calls: seq<Call>)

  datatype RemoteOutcome = RemoteOutcome(remote: Remote, err: Option<Error>)

  const ClusterIdLabel := "heketiClusterId"
  const NodeIdLabel := "heketiNodeId"
  const HostnameLabel := "glusterfs-node"

  /** The id heketi gives the n-th object it creates. */
  function IdFor(n: nat): string
  {
    "id" + Itoa(n)
  }

  lemma IdForInjective(m: nat, n: nat)
    requires IdFor(m) == IdFor(n)
    ensures m == n
  {
    assert Itoa(m) == IdFor(m)[2..];
    assert Itoa(n) == IdFor(n)[2..];
    ItoaInjective(m, n);
  }

  /** The topology invariant: ids not yet drawn are unused, the cluster list
      and the member table name the same clusters, and every node is filed
      under its own id with a cluster that exists. */
  ghost predicate Valid(t: Topology)
  {
    && (forall k: nat :: k >= t.nextId ==> IdFor(k) !in t.members && IdFor(k) !in t.nodes)
    && (forall c <- t.clusters :: c in t.members)
    && (forall c <- t.members :: c in t.clusters)
    && (forall i <- t.nodes :: t.nodes[i].id == i && t.nodes[i].clusterId in t.members)
  }

  function ClusterCreated(t: Topology): Topology
  {
    var id := IdFor(t.nextId);
    t.(clusters := t.clusters + [id], members := t.members[id := []], nextId := t.nextId + 1)
  }

  function NodeAdded(t: Topology, clusterId: string): Topology
    requires clusterId in t.members
  {
    var id := IdFor(t.nextId);
    t.(members := t.members[clusterId := t.members[clusterId] + [id]],
       nodes := t.nodes[id := NodeInfoResponse(id, clusterId, [])],
       nextId := t.nextId + 1)
  }

  function DeviceAdded(t: Topology, nodeId: string, name: string): Topology
    requires nodeId in t.nodes
  {
    t.(nodes := t.nodes[nodeId := t.nodes[nodeId].(devices := t.nodes[nodeId].devices + [name])])
  }

  lemma NextIdFresh(t: Topology)
    ensures forall k: nat :: k >= t.nextId + 1 ==> IdFor(k) != IdFor(t.nextId)
  {
    forall k: nat | k >= t.nextId + 1 ensures IdFor(k) != IdFor(t.nextId) {
      if IdFor(k) == IdFor(t.nextId) {
        IdForInjective(k, t.nextId);
      }
    }
  }

  /** A created cluster gets an id no cluster had, and the invariant holds. */
  lemma ClusterCreatedValid(t: Topology)
    requires Valid(t)
    ensures IdFor(t.nextId) !in t.clusters
    ensures Valid(ClusterCreated(t))
  {
    NextIdFresh(t);
  }

  /** An added node gets an id no node had, is listed under its cluster, and
      the invariant holds. */
  lemma NodeAddedValid(t: Topology, clusterId: string)
    requires Valid(t) && clusterId in t.members
    ensures IdFor(t.nextId) !in t.nodes
    ensures IdFor(t.nextId) in NodeAdded(t, clusterId).members[clusterId]
    ensures Valid(NodeAdded(t, clusterId))
  {
    NextIdFresh(t);
  }

  lemma DeviceAddedValid(t: Topology, nodeId: string, name: string)
    requires Valid(t) && nodeId in t.nodes
    ensures Valid(DeviceAdded(t, nodeId, name))
  {
  }

  function Log(r: Remote, c: Call): Remote
  {
    r.(calls := r.calls + [c])
  }

  // ---------------------------------------------------------------------------
  // What the client does.

  /** The state a client works on: the Kubernetes store, the heketi server,
      and the client's own ClusterId and Deployment fields. */
  datatype Session = Session(world: World, remote: Remote, clusterId: string, deployment: Deployment)

  datatype SessionOutcome = SessionOutcome(session: Session, err: Option<Error>)

  /** The spec fields NewClient dereferences. */
  predicate HasHeketi(gc: GlusterCluster)
  {
    && gc.spec.Some? && gc.spec.value.heketi.Some?
    && gc.spec.value.heketi.value.node.Some? && gc.spec.value.heketi.value.config.Some?
  }

  function HeketiNodeName(gc: GlusterCluster): string
    requires HasHeketi(gc)
  {
    gc.spec.value.heketi.value.node.value.meta.name
  }

  /** The key of the heketi node's deployment, whose labels cache the
      cluster id. */
  function HeketiKey(gc: GlusterCluster): ObjectKey
    requires HasHeketi(gc)
  {
    ObjectKey(DeploymentKind, gc.meta.namespace, HeketiNodeName(gc))
  }

  /** The address of the heketi service: the heketi pod's name within the
      cluster's DNS subdomain, on the configured port. */
  function ClientUrl(gc: GlusterCluster): string
    requires HasHeketi(gc)
  {
    "http://" + HeketiNodeName(gc) + "." + gc.meta.name + ":" + gc.spec.value.heketi.value.config.value.port
  }

  function WithLabel(d: Deployment, k: string, v: string): (r: Deployment)
    ensures r.meta.labels == d.meta.labels[k := v]
    ensures r.meta.name == d.meta.name && r.meta.namespace == d.meta.namespace && r.template == d.template
  {
    d.(meta := d.meta.(labels := d.meta.labels[k := v]))
  }

  /** Registering a new cluster: one create with block and file support; the
      new id becomes the client's ClusterId and the heketi deployment's
      "heketiClusterId" label, which is written back; the client then keeps
      the deployment the server returned. */
  function NewClusterOutcome(env: Env, f: set<RemoteOp>, s: Session): SessionOutcome
  {
    var r1 := Log(s.remote, ClusterCreateCall(true, true));
    if ClusterCreateOp in f then SessionOutcome(s.(remote := r1), Some(RemoteFailed(ClusterCreateOp)))
    else
      var id := IdFor(s.remote.topo.nextId);
      var d := WithLabel(s.deployment, ClusterIdLabel, id);
      var u := UpdateRaw(env, s.world, d.meta.namespace, DeploymentObject(d));
      var kept := if u.err.None? then u.world.objects[DeploymentKey(d)].deployment else d;
      SessionOutcome(Session(u.world, r1.(topo := ClusterCreated(s.remote.topo)), id, kept), u.err)
  }

  /** CreateCluster: a cached ClusterId that the server lists is kept;
      anything else registers a new cluster. */
  function CreateClusterOutcome(env: Env, f: set<RemoteOp>, s: Session): SessionOutcome
  {
    if s.clusterId != "" then
      var r1 := Log(s.remote, ClusterListCall);
      if ClusterListOp in f then SessionOutcome(s.(remote := r1), Some(RemoteFailed(ClusterListOp)))
      else if s.clusterId in s.remote.topo.clusters then SessionOutcome(s.(remote := r1), None)
      else NewClusterOutcome(env, f, s.(remote := r1))
    else NewClusterOutcome(env, f, s)
  }

  /** AddDevice: a path the node already has is skipped; any other is added
      with one DeviceAdd. The node's devices are those of the snapshot
      `info`, not the server's current list. */
  function AddDeviceOutcome(f: set<RemoteOp>, r: Remote, info: NodeInfoResponse, device: string): RemoteOutcome
  {
    if device in info.devices then RemoteOutcome(r, None)
    else
      var r1 := Log(r, DeviceAddCall(info.id, device));
      if DeviceAddOp in f || info.id !in r.topo.nodes then RemoteOutcome(r1, Some(RemoteFailed(DeviceAddOp)))
      else RemoteOutcome(r1.(topo := DeviceAdded(r.topo, info.id, device)), None)
  }

  /** AddDevice over the paths in order, stopping at the first error. */
  function AddDevicesOutcome(f: set<RemoteOp>, r: Remote, info: NodeInfoResponse, paths: seq<string>): RemoteOutcome
    decreases |paths|
  {
    if paths == [] then RemoteOutcome(r, None)
    else
      var a := AddDeviceOutcome(f, r, info, paths[0]);
      if a.err.Some? then a else AddDevicesOutcome(f, a.remote, info, paths[1..])
  }

  /** The devices of a deployment's first container, added to the node
      `info`; a deployment without containers indexes an empty slice in the
      source and is reported as a crash. */
  function DeploymentDevicesOutcome(f: set<RemoteOp>, s: Session, d: Deployment, info: NodeInfoResponse): SessionOutcome
  {
    if |d.template.spec.containers| == 0 then SessionOutcome(s, Some(Crash("no container")))
    else
      var a := AddDevicesOutcome(f, s.remote, info, DevicePaths(d.template.spec.containers[0].volumeDevices));
      SessionOutcome(s.(remote := a.remote), a.err)
  }

  function NodeRequest(clusterId: string, node: Node): NodeAddRequest
  {
    var host := Label(node.meta.labels, HostnameLabel);
    NodeAddRequest(clusterId, [host], [host], node.zone)
  }

  /** Registering a node: one NodeAdd; both id labels of its deployment are
      set from the answer and written back before any device is added. */
  function RegisterNodeOutcome(env: Env, f: set<RemoteOp>, s: Session, node: Node, d: Deployment): SessionOutcome
  {
    var req := NodeRequest(s.clusterId, node);
    var r1 := Log(s.remote, NodeAddCall(req));
    if NodeAddOp in f || req.clusterId !in s.remote.topo.members then
      SessionOutcome(s.(remote := r1), Some(RemoteFailed(NodeAddOp)))
    else
      var info := NodeInfoResponse(IdFor(s.remote.topo.nextId), req.clusterId, []);
      var r2 := r1.(topo := NodeAdded(s.remote.topo, req.clusterId));
      var d2 := Labelled(d, info.clusterId, info.id);
      var u := UpdateRaw(env, s.world, d2.meta.namespace, DeploymentObject(d2));
      if u.err.Some? then SessionOutcome(s.(world := u.world, remote := r2), u.err)
      else DeploymentDevicesOutcome(f, s.(world := u.world, remote := r2), d2, info)
  }

  /** The key of a node's deployment. */
  function NodeKey(node: Node): ObjectKey
  {
    ObjectKey(DeploymentKind, node.meta.namespace, node.meta.name)
  }

  /** AddNode: a node whose deployment carries a node id, carries this
      client's ClusterId, and is listed in that cluster only gets its devices
      ensured; any other node is registered. */
  function AddNodeOutcome(env: Env, f: set<RemoteOp>, s: Session, node: Node): SessionOutcome
  {
    var key := NodeKey(node);
    var e := GetError(env, s.world, key);
    if e.Some? then SessionOutcome(s, e)
    else
      var d := s.world.objects[key].deployment;
      var nid := Label(d.meta.labels, NodeIdLabel);
      if nid != "" && Label(d.meta.labels, ClusterIdLabel) == s.clusterId then
        var r1 := Log(s.remote, ClusterInfoCall(s.clusterId));
        if ClusterInfoOp in f || s.clusterId !in s.remote.topo.members then
          SessionOutcome(s.(remote := r1), Some(RemoteFailed(ClusterInfoOp)))
        else if nid in s.remote.topo.members[s.clusterId] then
          var r2 := Log(r1, NodeInfoCall(nid));
          if NodeInfoOp in f || nid !in s.remote.topo.nodes then
            SessionOutcome(s.(remote := r2), Some(RemoteFailed(NodeInfoOp)))
          else DeploymentDevicesOutcome(f, s.(remote := r2), d, s.remote.topo.nodes[nid])
        else RegisterNodeOutcome(env, f, s.(remote := r1), node, d)
      else RegisterNodeOutcome(env, f, s, node, d)
  }

  // ---------------------------------------------------------------------------
  // Properties.

  function DeviceCalls(nodeId: string, paths: seq<string>): (r: seq<Call>)
    ensures |r| == |paths|
  {
    seq(|paths|, i requires 0 <= i < |paths| => DeviceAddCall(nodeId, paths[i]))
  }

  /** The paths, in order, that are not in `known`. */
  function Missing(paths: seq<string>, known: seq<string>): (r: seq<string>)
    ensures forall p <- r :: p in paths && p !in known
    ensures forall p <- paths :: p !in known ==> p in r
  {
    if paths == [] then []
    else if paths[0] in known then Missing(paths[1..], known)
    else [paths[0]] + Missing(paths[1..], known)
  }

  /** Adding devices sends one DeviceAdd per path the node did not have, in
      order, and only device calls for that node; the topology stays valid
      and a failure is the DeviceAdd failure. */
  lemma AddDevicesCalls(f: set<RemoteOp>, r: Remote, info: NodeInfoResponse, paths: seq<string>)
    requires Valid(r.topo)
    ensures var a := AddDevicesOutcome(f, r, info, paths);
      && Valid(a.remote.topo)
      && (a.err.None? ==> a.remote.calls == r.calls + DeviceCalls(info.id, Missing(paths, info.devices)))
      && (a.err.Some? ==> a.err == Some(RemoteFailed(DeviceAddOp)))
      && |a.remote.calls| >= |r.calls| && a.remote.calls[..|r.calls|] == r.calls
      && forall c <- a.remote.calls[|r.calls|..] :: c.DeviceAddCall? && c.nodeId == info.id
  {
    AddDevicesShape(f, r, info, paths);
    AddDevicesSucceeded(f, r, info, paths);
  }

  /** The shape of the calls any device loop makes. */
  lemma {:induction false} AddDevicesShape(f: set<RemoteOp>, r: Remote, info: NodeInfoResponse, paths: seq<string>)
    requires Valid(r.topo)
    ensures var a := AddDevicesOutcome(f, r, info, paths);
      && Valid(a.remote.topo)
      && (a.err.Some? ==> a.err == Some(RemoteFailed(DeviceAddOp)))
      && |a.remote.calls| >= |r.calls| && a.remote.calls[..|r.calls|] == r.calls
      && forall c <- a.remote.calls[|r.calls|..] :: c.DeviceAddCall? && c.nodeId == info.id
    decreases |paths|
  {
    if paths != [] {
      var a0 := AddDeviceOutcome(f, r, info, paths[0]);
      if a0.err.None? {
        if paths[0] !in info.devices {
          DeviceAddedValid(r.topo, info.id, paths[0]);
        }
        AddDevicesShape(f, a0.remote, info, paths[1..]);
        var a := AddDevicesOutcome(f, r, info, paths);
        assert a.remote.calls[|r.calls|..] == a0.remote.calls[|r.calls|..] + a.remote.calls[|a0.remote.calls|..] by {
          assert a.remote.calls[..|a0.remote.calls|] == a0.remote.calls;
        }
      }
    }
  }

  /** The calls of a device loop that succeeds. */
  lemma {:induction false} AddDevicesSucceeded(f: set<RemoteOp>, r: Remote, info: NodeInfoResponse, paths: seq<string>)
    ensures var a := AddDevicesOutcome(f, r, info, paths);
      a.err.None? ==> a.remote.calls == r.calls + DeviceCalls(info.id, Missing(paths, info.devices))
    decreases |paths|
  {
    if paths != [] {
      var a0 := AddDeviceOutcome(f, r, info, paths[0]);
      if a0.err.None? {
        AddDevicesSucceeded(f, a0.remote, info, paths[1..]);
        var rest := DeviceCalls(info.id, Missing(paths[1..], info.devices));
        if paths[0] !in info.devices {
          assert DeviceCalls(info.id, Missing(paths, info.devices)) == [DeviceAddCall(info.id, paths[0])] + rest;
          assert r.calls + [DeviceAddCall(info.id, paths[0])] + rest == r.calls + ([DeviceAddCall(info.id, paths[0])] + rest);
        }
      }
    }
  }

  /** With a cached ClusterId the clusters are listed once: a failing list is
      returned and nothing else changes; an id the server lists is kept and
      nothing else changes. Otherwise exactly one ClusterCreate is sent and,
      on success, the client holds a fresh id that the server lists and that
      the heketi deployment's stored label records. */
  lemma CreateClusterSkipsOrCreates(env: Env, f: set<RemoteOp>, s: Session)
    requires Valid(s.remote.topo)
    ensures var o := CreateClusterOutcome(env, f, s);
      && Valid(o.session.remote.topo)
      && (s.clusterId != "" && ClusterListOp in f ==>
            o.err == Some(RemoteFailed(ClusterListOp)) && o.session == s.(remote := Log(s.remote, ClusterListCall)))
      && (s.clusterId != "" && ClusterListOp !in f && s.clusterId in s.remote.topo.clusters ==>
            o.err.None? && o.session == s.(remote := Log(s.remote, ClusterListCall)))
      && (!(s.clusterId != "" && (ClusterListOp in f || s.clusterId in s.remote.topo.clusters)) ==>
            && o.session.remote.calls == s.remote.calls + (if s.clusterId != "" then [ClusterListCall] else []) + [ClusterCreateCall(true, true)]
            && (o.err.None? ==>
                  && o.session.clusterId !in s.remote.topo.clusters
                  && o.session.clusterId in o.session.remote.topo.clusters
                  && Label(o.session.deployment.meta.labels, ClusterIdLabel) == o.session.clusterId
                  && DeploymentKey(o.session.deployment) in o.session.world.objects
                  && o.session.world.objects[DeploymentKey(o.session.deployment)] == DeploymentObject(o.session.deployment)))
  {
    ClusterCreatedValid(s.remote.topo);
  }

  ghost predicate NoNodeAdd(calls: seq<Call>)
  {
    forall c <- calls :: !c.NodeAddCall?
  }

  /** A node whose deployment carries a node id and this client's ClusterId,
      with that node listed in the cluster, is not registered again: no
      NodeAdd is sent and the Kubernetes store is not touched. */
  lemma AddNodeSkipsRegistered(env: Env, f: set<RemoteOp>, s: Session, node: Node)
    requires Valid(s.remote.topo)
    requires GetError(env, s.world, NodeKey(node)).None?
    requires var d := s.world.objects[NodeKey(node)].deployment;
      && Label(d.meta.labels, NodeIdLabel) != ""
      && Label(d.meta.labels, ClusterIdLabel) == s.clusterId
      && s.clusterId in s.remote.topo.members
      && Label(d.meta.labels, NodeIdLabel) in s.remote.topo.members[s.clusterId]
    ensures var o := AddNodeOutcome(env, f, s, node);
      && o.session.world == s.world
      && |o.session.remote.calls| >= |s.remote.calls|
      && NoNodeAdd(o.session.remote.calls[|s.remote.calls|..])
    ensures var o := AddNodeOutcome(env, f, s, node);
      ClusterInfoOp in f ==>
        o.err == Some(RemoteFailed(ClusterInfoOp)) && o.session.remote.calls == s.remote.calls + [ClusterInfoCall(s.clusterId)]
    ensures var o := AddNodeOutcome(env, f, s, node);
      var nid := Label(s.world.objects[NodeKey(node)].deployment.meta.labels, NodeIdLabel);
      ClusterInfoOp !in f && (NodeInfoOp in f || nid !in s.remote.topo.nodes) ==>
        o.err == Some(RemoteFailed(NodeInfoOp))
        && o.session.remote.calls == s.remote.calls + [ClusterInfoCall(s.clusterId), NodeInfoCall(nid)]
    ensures var o := AddNodeOutcome(env, f, s, node);
      var d := s.world.objects[NodeKey(node)].deployment;
      var nid := Label(d.meta.labels, NodeIdLabel);
      ClusterInfoOp !in f && NodeInfoOp !in f && nid in s.remote.topo.nodes && |d.template.spec.containers| > 0 ==>
        var info := s.remote.topo.nodes[nid];
        var paths := DevicePaths(d.template.spec.containers[0].volumeDevices);
        && (o.err.None? ==>
              o.session.remote.calls == s.remote.calls + [ClusterInfoCall(s.clusterId), NodeInfoCall(nid)]
                + DeviceCalls(info.id, Missing(paths, info.devices)))
        && (o.err.Some? ==> o.err == Some(RemoteFailed(DeviceAddOp)))
  {
    var d := s.world.objects[NodeKey(node)].deployment;
    var nid := Label(d.meta.labels, NodeIdLabel);
    var r2 := Log(Log(s.remote, ClusterInfoCall(s.clusterId)), NodeInfoCall(nid));
    assert r2.calls == s.remote.calls + [ClusterInfoCall(s.clusterId), NodeInfoCall(nid)];
    if ClusterInfoOp !in f && NodeInfoOp !in f && nid in s.remote.topo.nodes && |d.template.spec.containers| > 0 {
      var paths := DevicePaths(d.template.spec.containers[0].volumeDevices);
      AddDevicesCalls(f, r2, s.remote.topo.nodes[nid], paths);
      var a := AddDevicesOutcome(f, r2, s.remote.topo.nodes[nid], paths);
      assert a.remote.calls[|s.remote.calls|..] == [ClusterInfoCall(s.clusterId), NodeInfoCall(nid)] + a.remote.calls[|r2.calls|..] by {
        assert a.remote.calls[..|r2.calls|] == r2.calls;
      }
    }
  }

  /** Any other node found in the store is registered with exactly one
      NodeAdd naming this client's ClusterId, the node's zone and its
      "glusterfs-node" hostname for both management and storage. When the
      registration succeeds, the node's stored deployment carries the id of
      a node the server lists under the cluster. */
  lemma AddNodeRegisters(env: Env, f: set<RemoteOp>, s: Session, node: Node)
    requires Valid(s.remote.topo)
    requires GetError(env, s.world, NodeKey(node)).None?
    requires var d := s.world.objects[NodeKey(node)].deployment;
      var nid := Label(d.meta.labels, NodeIdLabel);
      nid != "" && Label(d.meta.labels, ClusterIdLabel) == s.clusterId ==>
        ClusterInfoOp !in f && s.clusterId in s.remote.topo.members && nid !in s.remote.topo.members[s.clusterId]
    ensures var o := AddNodeOutcome(env, f, s, node);
      && Valid(o.session.remote.topo)
      && |o.session.remote.calls| >= |s.remote.calls|
      && NodeAddCall(NodeRequest(s.clusterId, node)) in o.session.remote.calls[|s.remote.calls|..]
      && (forall c <- o.session.remote.calls[|s.remote.calls|..] :: c.NodeAddCall? ==> c == NodeAddCall(NodeRequest(s.clusterId, node)))
      && (o.err.None? ==>
            var d := s.world.objects[NodeKey(node)].deployment;
            var k := ObjectKey(DeploymentKind, d.meta.namespace, d.meta.name);
            && k in o.session.world.objects
            && o.session.world.objects[k].DeploymentObject?
            && Label(o.session.world.objects[k].deployment.meta.labels, ClusterIdLabel) == s.clusterId
            && s.clusterId in o.session.remote.topo.members
            && Label(o.session.world.objects[k].deployment.meta.labels, NodeIdLabel) in o.session.remote.topo.members[s.clusterId])
  {
    var s1 := AddNodeRegisterPath(env, f, s, node);
    RegisterAfterLookup(env, f, s, s1, node, s.world.objects[NodeKey(node)].deployment);
  }

  /** AddNodeRegisters for the registration that follows the optional
      cluster lookup. */
  lemma RegisterAfterLookup(env: Env, f: set<RemoteOp>, s: Session, s1: Session, node: Node, d: Deployment)
    requires Valid(s.remote.topo)
    requires s1 == s.(remote := s1.remote) && s1.remote.topo == s.remote.topo
    requires s1.remote.calls == s.remote.calls || s1.remote.calls == s.remote.calls + [ClusterInfoCall(s.clusterId)]
    ensures var o := RegisterNodeOutcome(env, f, s1, node, d);
      && Valid(o.session.remote.topo)
      && |o.session.remote.calls| >= |s.remote.calls|
      && NodeAddCall(NodeRequest(s.clusterId, node)) in o.session.remote.calls[|s.remote.calls|..]
      && (forall c <- o.session.remote.calls[|s.remote.calls|..] :: c.NodeAddCall? ==> c == NodeAddCall(NodeRequest(s.clusterId, node)))
      && (o.err.None? ==>
            var k := ObjectKey(DeploymentKind, d.meta.namespace, d.meta.name);
            && k in o.session.world.objects
            && o.session.world.objects[k].DeploymentObject?
            && Label(o.session.world.objects[k].deployment.meta.labels, ClusterIdLabel) == s.clusterId
            && s.clusterId in o.session.remote.topo.members
            && Label(o.session.world.objects[k].deployment.meta.labels, NodeIdLabel) in o.session.remote.topo.members[s.clusterId])
  {
    RegisterNodeCalls(env, f, s1, node, d);
    var pre := if s1.remote.calls == s.remote.calls then [] else [ClusterInfoCall(s.clusterId)];
    RegistrationCalls(s.remote.calls, pre, RegisterNodeOutcome(env, f, s1, node, d).session.remote.calls,
                      s.clusterId, NodeRequest(s.clusterId, node));
    if RegisterNodeOutcome(env, f, s1, node, d).err.None? {
      RegisterNodeStored(env, f, s1, node, d);
      var d2 := Labelled(d, s.clusterId, IdFor(s.remote.topo.nextId));
      assert DeploymentKey(d2) == ObjectKey(DeploymentKind, d.meta.namespace, d.meta.name);
    }
  }

  /** The call log of a registration seen from before the optional cluster
      lookup: the lookup, one NodeAdd, then device calls only. */
  lemma RegistrationCalls(before: seq<Call>, pre: seq<Call>, all: seq<Call>, clusterId: string, req: NodeAddRequest)
    requires forall c <- pre :: c == ClusterInfoCall(clusterId)
    requires |all| > |before + pre|
    requires all[..|before + pre| + 1] == before + pre + [NodeAddCall(req)]
    requires forall c <- all[|before + pre| + 1..] :: c.DeviceAddCall?
    ensures |all| >= |before|
    ensures NodeAddCall(req) in all[|before|..]
    ensures forall c <- all[|before|..] :: c.NodeAddCall? ==> c == NodeAddCall(req)
  {
    var tail := all[|before + pre| + 1..];
    assert all == all[..|before + pre| + 1] + tail;
    assert all[|before|..] == pre + [NodeAddCall(req)] + tail;
    assert all[|before|..][|pre|] == NodeAddCall(req);
    assert forall c <- pre :: !c.NodeAddCall?;
    forall c | c in tail ensures !c.NodeAddCall? {
      assert c.DeviceAddCall?;
    }
  }

  /** Off the skip path, AddNode is a registration, after a cluster lookup
      when the deployment's labels name this client's cluster. */
  lemma AddNodeRegisterPath(env: Env, f: set<RemoteOp>, s: Session, node: Node) returns (s1: Session)
    requires GetError(env, s.world, NodeKey(node)).None?
    requires var d := s.world.objects[NodeKey(node)].deployment;
      var nid := Label(d.meta.labels, NodeIdLabel);
      nid != "" && Label(d.meta.labels, ClusterIdLabel) == s.clusterId ==>
        ClusterInfoOp !in f && s.clusterId in s.remote.topo.members && nid !in s.remote.topo.members[s.clusterId]
    ensures s1 == s.(remote := s1.remote) && s1.remote.topo == s.remote.topo
    ensures s1.remote.calls == s.remote.calls || s1.remote.calls == s.remote.calls + [ClusterInfoCall(s.clusterId)]
    ensures AddNodeOutcome(env, f, s, node) == RegisterNodeOutcome(env, f, s1, node, s.world.objects[NodeKey(node)].deployment)
  {
    var d := s.world.objects[NodeKey(node)].deployment;
    var nid := Label(d.meta.labels, NodeIdLabel);
    s1 := if nid != "" && Label(d.meta.labels, ClusterIdLabel) == s.clusterId
      then s.(remote := Log(s.remote, ClusterInfoCall(s.clusterId))) else s;
  }

  /** The deployment a registration writes back: both id labels set. */
  function Labelled(d: Deployment, clusterId: string, nodeId: string): (r: Deployment)
    ensures Label(r.meta.labels, ClusterIdLabel) == clusterId && Label(r.meta.labels, NodeIdLabel) == nodeId
    ensures r.meta.name == d.meta.name && r.meta.namespace == d.meta.namespace && r.template == d.template
  {
    WithLabel(WithLabel(d, ClusterIdLabel, clusterId), NodeIdLabel, nodeId)
  }

  /** The steps of a registration: one NodeAdd, then only device calls, and
      no device call at all unless the labelled deployment was written. */
  lemma RegisterNodeCalls(env: Env, f: set<RemoteOp>, s: Session, node: Node, d: Deployment)
    requires Valid(s.remote.topo)
    ensures var o := RegisterNodeOutcome(env, f, s, node, d);
      && Valid(o.session.remote.topo)
      && |o.session.remote.calls| > |s.remote.calls|
      && o.session.remote.calls[..|s.remote.calls| + 1] == s.remote.calls + [NodeAddCall(NodeRequest(s.clusterId, node))]
      && (forall c <- o.session.remote.calls[|s.remote.calls| + 1..] :: c.DeviceAddCall?)
      && (UpdateRaw(env, s.world, d.meta.namespace,
            DeploymentObject(Labelled(d, s.clusterId, IdFor(s.remote.topo.nextId)))).err.Some?
          ==> |o.session.remote.calls| == |s.remote.calls| + 1)
  {
    var req := NodeRequest(s.clusterId, node);
    var r1 := Log(s.remote, NodeAddCall(req));
    if NodeAddOp !in f && req.clusterId in s.remote.topo.members {
      var t := s.remote.topo;
      var info := NodeInfoResponse(IdFor(t.nextId), req.clusterId, []);
      NodeAddedValid(t, req.clusterId);
      var r2 := r1.(topo := NodeAdded(t, req.clusterId));
      var d2 := Labelled(d, info.clusterId, info.id);
      var u := UpdateRaw(env, s.world, d2.meta.namespace, DeploymentObject(d2));
      if u.err.None? && |d2.template.spec.containers| > 0 {
        var paths := DevicePaths(d2.template.spec.containers[0].volumeDevices);
        AddDevicesCalls(f, r2, info, paths);
        var a := AddDevicesOutcome(f, r2, info, paths);
        assert a.remote.calls[..|r2.calls|] == r2.calls;
        assert a.remote.calls[..|s.remote.calls| + 1] == r2.calls;
        assert a.remote.calls[|s.remote.calls| + 1..] == a.remote.calls[|r2.calls|..];
      }
    }
  }

  /** A registration that succeeds leaves the labelled deployment stored
      and the new node listed under the client's cluster. */
  lemma RegisterNodeStored(env: Env, f: set<RemoteOp>, s: Session, node: Node, d: Deployment)
    requires Valid(s.remote.topo)
    requires RegisterNodeOutcome(env, f, s, node, d).err.None?
    ensures var o := RegisterNodeOutcome(env, f, s, node, d);
      var d2 := Labelled(d, s.clusterId, IdFor(s.remote.topo.nextId));
      && DeploymentKey(d2) in o.session.world.objects
      && o.session.world.objects[DeploymentKey(d2)].DeploymentObject?
      && AsAdmitted(o.session.world.objects[DeploymentKey(d2)].deployment, d2)
      && s.clusterId in o.session.remote.topo.members
      && IdFor(s.remote.topo.nextId) in o.session.remote.topo.members[s.clusterId]
  {
    var req := NodeRequest(s.clusterId, node);
    var t := s.remote.topo;
    var info := NodeInfoResponse(IdFor(t.nextId), req.clusterId, []);
    NodeAddedValid(t, req.clusterId);
    var r2 := Log(s.remote, NodeAddCall(req)).(topo := NodeAdded(t, req.clusterId));
    var d2 := Labelled(d, info.clusterId, info.id);
    var paths := DevicePaths(d2.template.spec.containers[0].volumeDevices);
    AddDevicesTopology(f, r2, info, paths);
  }

  /** A registration whose label write is refused with a conflict after
      heketi accepted the node returns the conflict with the store unchanged:
      heketi lists the new node under the cluster, but no deployment carries
      its id. */
  lemma RegisterConflictLeaksNode(env: Env, f: set<RemoteOp>, s: Session, node: Node, d: Deployment)
    requires NodeAddOp !in f && s.clusterId in s.remote.topo.members
    requires DeploymentKey(d) !in env.failing && DeploymentKey(d) in s.world.objects
    requires DeploymentKey(d) in env.conflicting
    ensures var o := RegisterNodeOutcome(env, f, s, node, d);
      && o.err == Some(Conflict(DeploymentKey(d)))
      && o.session.world.objects == s.world.objects
      && s.clusterId in o.session.remote.topo.members
      && IdFor(s.remote.topo.nextId) in o.session.remote.topo.members[s.clusterId]
      && IdFor(s.remote.topo.nextId) in o.session.remote.topo.nodes
  {
    var d2 := Labelled(d, s.clusterId, IdFor(s.remote.topo.nextId));
    assert KeyOf(d2.meta.namespace, DeploymentObject(d2)) == DeploymentKey(d);
  }

  /** A cluster registration whose label write is refused with a conflict
      after heketi created the cluster returns the conflict with the store
      unchanged: the new cluster exists and the client holds its id, but the
      heketi deployment does not record it. */
  lemma NewClusterConflictLeaksCluster(env: Env, f: set<RemoteOp>, s: Session)
    requires ClusterCreateOp !in f
    requires DeploymentKey(s.deployment) !in env.failing && DeploymentKey(s.deployment) in s.world.objects
    requires DeploymentKey(s.deployment) in env.conflicting
    ensures var o := NewClusterOutcome(env, f, s);
      && o.err == Some(Conflict(DeploymentKey(s.deployment)))
      && o.session.world.objects == s.world.objects
      && o.session.clusterId == IdFor(s.remote.topo.nextId)
      && o.session.clusterId in o.session.remote.topo.clusters
  {
    var d := WithLabel(s.deployment, ClusterIdLabel, IdFor(s.remote.topo.nextId));
    assert KeyOf(d.meta.namespace, DeploymentObject(d)) == DeploymentKey(s.deployment);
  }

  /** Adding devices changes no cluster's member list. */
  lemma {:induction false} AddDevicesTopology(f: set<RemoteOp>, r: Remote, info: NodeInfoResponse, paths: seq<string>)
    ensures AddDevicesOutcome(f, r, info, paths).remote.topo.members == r.topo.members
    decreases |paths|
  {
    if paths != [] {
      var a0 := AddDeviceOutcome(f, r, info, paths[0]);
      if a0.err.None? {
        AddDevicesTopology(f, a0.remote, info, paths[1..]);
      }
    }
  }

  // ---------------------------------------------------------------------------
  // The server and the client.

  /** The heketi server: its topology, the calls it received, and the
      operations it refuses. */
  class HeketiServer {
    var topo: Topology
    var calls: seq<Call>
    const failing: set<RemoteOp>

    constructor (topo: Topology, failing: set<RemoteOp>)
      ensures this.topo == topo && this.calls == [] && this.failing == failing
    {
      this.topo := topo;
      this.calls := [];
      this.failing := failing;
    }

    function View(): Remote
      reads this
    {
      Remote(topo, calls)
    }

    method ClusterList() returns (list: seq<string>, err: Option<Error>)
      modifies this
      ensures View() == Log(old(View()), ClusterListCall)
      ensures err == (if ClusterListOp in failing then Some(RemoteFailed(ClusterListOp)) else None)
      ensures err.None? ==> list == topo.clusters
    {
      calls := calls + [ClusterListCall];
      if ClusterListOp in failing {
        return [], Some(RemoteFailed(ClusterListOp));
      }
      return topo.clusters, None;
    }

    method ClusterCreate(block: bool, file: bool) returns (id: string, err: Option<Error>)
      modifies this
      ensures ClusterCreateOp in failing ==>
        View() == Log(old(View()), ClusterCreateCall(block, file)) && err == Some(RemoteFailed(ClusterCreateOp))
      ensures ClusterCreateOp !in failing ==>
        && View() == Log(old(View()), ClusterCreateCall(block, file)).(topo := ClusterCreated(old(topo)))
        && err == None && id == IdFor(old(topo).nextId)
    {
      calls := calls + [ClusterCreateCall(block, file)];
      if ClusterCreateOp in failing {
        return "", Some(RemoteFailed(ClusterCreateOp));
      }
      id := IdFor(topo.nextId);
      topo := ClusterCreated(topo);
      err := None;
    }

    method ClusterInfo(id: string) returns (nodes: seq<string>, err: Option<Error>)
      modifies this
      ensures View() == Log(old(View()), ClusterInfoCall(id))
      ensures err.None? <==> ClusterInfoOp !in failing && id in topo.members
      ensures err.Some? ==> err == Some(RemoteFailed(ClusterInfoOp))
      ensures err.None? ==> nodes == topo.members[id]
    {
      calls := calls + [ClusterInfoCall(id)];
      if ClusterInfoOp in failing || id !in topo.members {
        return [], Some(RemoteFailed(ClusterInfoOp));
      }
      return topo.members[id], None;
    }

    method NodeInfo(id: string) returns (info: NodeInfoResponse, err: Option<Error>)
      modifies this
      ensures View() == Log(old(View()), NodeInfoCall(id))
      ensures err.None? <==> NodeInfoOp !in failing && id in topo.nodes
      ensures err.Some? ==> err == Some(RemoteFailed(NodeInfoOp))
      ensures err.None? ==> info == topo.nodes[id]
    {
      calls := calls + [NodeInfoCall(id)];
      if NodeInfoOp in failing || id !in topo.nodes {
        return NodeInfoResponse("", "", []), Some(RemoteFailed(NodeInfoOp));
      }
      return topo.nodes[id], None;
    }

    method NodeAdd(req: NodeAddRequest) returns (info: NodeInfoResponse, err: Option<Error>)
      modifies this
      ensures NodeAddOp in failing || req.clusterId !in old(topo).members ==>
        View() == Log(old(View()), NodeAddCall(req)) && err == Some(RemoteFailed(NodeAddOp))
      ensures NodeAddOp !in failing && req.clusterId in old(topo).members ==>
        && View() == Log(old(View()), NodeAddCall(req)).(topo := NodeAdded(old(topo), req.clusterId))
        && err == None && info == NodeInfoResponse(IdFor(old(topo).nextId), req.clusterId, [])
    {
      calls := calls + [NodeAddCall(req)];
      if NodeAddOp in failing || req.clusterId !in topo.members {
        return NodeInfoResponse("", "", []), Some(RemoteFailed(NodeAddOp));
      }
      info := NodeInfoResponse(IdFor(topo.nextId), req.clusterId, []);
      topo := NodeAdded(topo, req.clusterId);
      err := None;
    }

    method DeviceAdd(nodeId: string, name: string) returns (err: Option<Error>)
      modifies this
      ensures DeviceAddOp in failing || nodeId !in old(topo).nodes ==>
        View() == Log(old(View()), DeviceAddCall(nodeId, name)) && err == Some(RemoteFailed(DeviceAddOp))
      ensures DeviceAddOp !in failing && nodeId in old(topo).nodes ==>
        View() == Log(old(View()), DeviceAddCall(nodeId, name)).(topo := DeviceAdded(old(topo), nodeId, name))
        && err == None
    {
      calls := calls + [DeviceAddCall(nodeId, name)];
      if DeviceAddOp in failing || nodeId !in topo.nodes {
        return Some(RemoteFailed(DeviceAddOp));
      }
      topo := DeviceAdded(topo, nodeId, name);
      err := None;
    }
  }

  /** Whether x is among the items, by a scan from the front. */
  method Listed(items: seq<string>, x: string) returns (found: bool)
    ensures found <==> x in items
  {
    var i := 0;
    while i < |items|
      invariant 0 <= i <= |items|
      invariant x !in items[..i]
    {
      if items[i] == x {
        return true;
      }
      assert items[..i + 1] == items[..i] + [items[i]];
      i := i + 1;
    }
    assert items[..i] == items;
    return false;
  }

  class HeketiClient {
    const url: string
    const adminKey: string
    var clusterId: string
    var deployment: Deployment
    const kube: KubeApi
    const server: HeketiServer

    constructor (url: string, adminKey: string, clusterId: string, deployment: Deployment, kube: KubeApi, server: HeketiServer)
      ensures this.url == url && this.adminKey == adminKey && this.clusterId == clusterId
      ensures this.deployment == deployment && this.kube == kube && this.server == server
    {
      this.url := url;
      this.adminKey := adminKey;
      this.clusterId := clusterId;
      this.deployment := deployment;
      this.kube := kube;
      this.server := server;
    }

    function State(): Session
      reads this, kube, server
    {
      Session(kube.State(), server.View(), clusterId, deployment)
    }

    method CreateCluster() returns (err: Option<Error>)
      modifies this, kube, server
      ensures SessionOutcome(State(), err) == CreateClusterOutcome(kube.env, server.failing, old(State()))
    {
      if clusterId != "" {
        var list;
        list, err := server.ClusterList();
        if err.Some? {
          return;
        }
        var known := Listed(list, clusterId);
        if known {
          return None;
        }
      }
      var id;
      id, err := server.ClusterCreate(true, true);
      if err.Some? {
        return;
      }
      clusterId := id;
      deployment := WithLabel(deployment, ClusterIdLabel, clusterId);
      var updated;
      updated, err := kube.Update(deployment.meta.namespace, DeploymentObject(deployment));
      if err.None? {
        deployment := updated.value.deployment;
      }
    }

    method GetCluster(id: string) returns (nodes: seq<string>, err: Option<Error>)
      modifies server
      ensures server.View() == Log(old(server.View()), ClusterInfoCall(id))
      ensures err.None? <==> ClusterInfoOp !in server.failing && id in server.topo.members
      ensures err.Some? ==> err == Some(RemoteFailed(ClusterInfoOp))
      ensures err.None? ==> nodes == server.topo.members[id]
    {
      nodes, err := server.ClusterInfo(id);
    }

    method GetNode(id: string) returns (info: NodeInfoResponse, err: Option<Error>)
      modifies server
      ensures server.View() == Log(old(server.View()), NodeInfoCall(id))
      ensures err.None? <==> NodeInfoOp !in server.failing && id in server.topo.nodes
      ensures err.Some? ==> err == Some(RemoteFailed(NodeInfoOp))
      ensures err.None? ==> info == server.topo.nodes[id]
    {
      info, err := server.NodeInfo(id);
    }

    method AddDevice(device: string, info: NodeInfoResponse) returns (err: Option<Error>)
      modifies server
      ensures RemoteOutcome(server.View(), err) == AddDeviceOutcome(server.failing, old(server.View()), info, device)
    {
      var present := Listed(info.devices, device);
      if present {
        return None;
      }
      err := server.DeviceAdd(info.id, device);
    }

    /** The device loop shared by both paths of AddNode and by
        updateGlusterNode. */
    method AddDevices(vds: seq<VolumeDevice>, info: NodeInfoResponse) returns (err: Option<Error>)
      modifies server
      ensures RemoteOutcome(server.View(), err) == AddDevicesOutcome(server.failing, old(server.View()), info, DevicePaths(vds))
    {
      ghost var r0 := server.View();
      ghost var paths := DevicePaths(vds);
      var i := 0;
      while i < |vds|
        invariant 0 <= i <= |vds|
        invariant AddDevicesOutcome(server.failing, r0, info, paths) == AddDevicesOutcome(server.failing, server.View(), info, paths[i..])
      {
        assert paths[i..][1..] == paths[i + 1..];
        err := AddDevice(vds[i].devicePath, info);
        if err.Some? {
          return;
        }
        i := i + 1;
      }
      err := None;
    }

    method AddNode(node: Node) returns (err: Option<Error>)
      modifies kube, server
      ensures SessionOutcome(State(), err) == AddNodeOutcome(kube.env, server.failing, old(State()), node)
    {
      ghost var s := State();
      var found;
      found, err := kube.GetDeployment(node.meta.namespace, node.meta.name);
      if err.Some? {
        return;
      }
      var d := found.value;
      var nid := Label(d.meta.labels, NodeIdLabel);
      if nid != "" && Label(d.meta.labels, ClusterIdLabel) == clusterId {
        var nodes;
        nodes, err := GetCluster(clusterId);
        if err.Some? {
          return;
        }
        var listed := Listed(nodes, nid);
        if listed {
          var info;
          info, err := GetNode(nid);
          if err.Some? {
            return;
          }
          if |d.template.spec.containers| == 0 {
            return Some(Crash("no container"));
          }
          err := AddDevices(d.template.spec.containers[0].volumeDevices, info);
          return;
        }
      }
      err := RegisterNode(node, d);
    }

    /** The NodeAdd path of AddNode. */
    method RegisterNode(node: Node, d: Deployment) returns (err: Option<Error>)
      modifies kube, server
      ensures SessionOutcome(State(), err) == RegisterNodeOutcome(kube.env, server.failing, old(State()), node, d)
    {
      var host := Label(node.meta.labels, HostnameLabel);
      var info;
      info, err := server.NodeAdd(NodeAddRequest(clusterId, [host], [host], node.zone));
      if err.Some? {
        return;
      }
      var d2 := Labelled(d, info.clusterId, info.id);
      var written;
      written, err := kube.Update(d2.meta.namespace, DeploymentObject(d2));
      if err.Some? {
        return;
      }
      if |d2.template.spec.containers| == 0 {
        return Some(Crash("no container"));
      }
      err := AddDevices(d2.template.spec.containers[0].volumeDevices, info);
    }
  }

  /** NewClient: the heketi deployment is looked up in the cluster's
      namespace under the heketi node's name; the client caches its
      "heketiClusterId" label. */
  method NewClient(gc: GlusterCluster, kube: KubeApi, server: HeketiServer) returns (c: HeketiClient?, err: Option<Error>)
    requires HasHeketi(gc)
    ensures var key := HeketiKey(gc);
      && err == GetError(kube.env, kube.State(), key)
      && (err.Some? ==> c == null)
      && (err.None? ==>
            && c != null && fresh(c)
            && c.url == ClientUrl(gc)
            && c.adminKey == gc.spec.value.heketi.value.config.value.adminKey
            && c.deployment == kube.objects[key].deployment
            && c.clusterId == Label(c.deployment.meta.labels, ClusterIdLabel)
            && c.kube == kube && c.server == server)
  {
    var found;
    found, err := kube.GetDeployment(gc.meta.namespace, HeketiNodeName(gc));
    if err.Some? {
      return null, err;
    }
    var d := found.value;
    var config := gc.spec.value.heketi.value.config.value;
    c := new HeketiClient(ClientUrl(gc), config.adminKey, Label(d.meta.labels, ClusterIdLabel), d, kube, server);
  }
}
