/** Deployment of one node (pkg/controller/deploy.go): the preparation its
    server type calls for, then its deployment, then, for a storage node of a
    cluster that asks for it, the wiping of its devices. */
module Deploy {
  import opened Types
  import opened Init
  import opened Objects
  import opened Api
  import opened Create

  const GlusterServer := "gluster"
  const HeketiServer := "heketi"

  /** The steps deployNode runs before the deployment. */
  function PreparationOutcome(env: Env, w: World, node: Node): Outcome
  {
    if node.serverType == GlusterServer then
      var r := MountVolumesOutcome(env, w, node);
      if r.err.Some? then r else EnsureAll(env, r.world, DevicesPlan(node.devices))
    else if node.serverType == HeketiServer then EnsureAll(env, w, CredentialsPlan(node))
    else Outcome(w, None)
  }

  function WipeCommand(device: string): seq<string>
  {
    ["wipefs", "-a", device]
  }

  /** The wipe commands run in the pod, one per device in order, stopping at
      the first that fails. */
  function ExecAll(env: Env, w: World, pod: string, devices: seq<string>): Outcome
    decreases |devices|
  {
    if devices == [] then Outcome(w, None)
    else
      var cmd := WipeCommand(devices[0]);
      var w1 := w.(requests := w.requests + [ExecRequest(pod, cmd)]);
      if cmd in env.execFailing then Outcome(w1, Some(ExecFailed(pod, cmd)))
      else ExecAll(env, w1, pod, devices[1..])
  }

  /** wipeDevices: the first pod labelled with the node's name runs the
      wipes; no such pod is an error. */
  function WipeOutcome(env: Env, w: World, node: Node, devices: seq<string>): Outcome
  {
    if node.meta.namespace in env.listFailing then Outcome(w, Some(ListFailed(node.meta.namespace)))
    else
      var pods := PodsNamed(env.pods, node.meta.namespace, node.meta.name);
      if pods == [] then Outcome(w, Some(PodNotFound(node.meta.name)))
      else ExecAll(env, w, pods[0].name, devices)
  }

  /** The device paths of the node's first container. */
  function WipedPaths(node: Node): seq<string>
  {
    if |node.spec.containers| == 0 then [] else DevicePaths(node.spec.containers[0].volumeDevices)
  }

  /** The pod wipeDevices runs its commands in: the first pod labelled with
      the node's name. */
  function WipePod(env: Env, node: Node): string
  {
    var pods := PodsNamed(env.pods, node.meta.namespace, node.meta.name);
    if pods == [] then "" else pods[0].name
  }

  /** deployNode for a node of a cluster whose Wipe flag is `wipe`. A storage
      node without containers indexes an empty slice in the source and is
      reported as a crash. */
  function DeployNodeOutcome(env: Env, w: World, wipe: bool, node: Node): Outcome
  {
    var r1 := PreparationOutcome(env, w, node);
    if r1.err.Some? then r1
    else
      var r2 := DeploymentOutcome(env, r1.world, node);
      if r2.err.Some? then r2
      else if node.serverType == GlusterServer && wipe then
        if |node.spec.containers| == 0 then Outcome(r2.world, Some(Crash("no container")))
        else WipeOutcome(env, r2.world, node, DevicePaths(node.spec.containers[0].volumeDevices))
      else r2
  }

  // ---------------------------------------------------------------------------
  // Properties.

  function CreateRequests(plan: seq<Step>): (r: seq<Request>)
    ensures |r| == |plan|
  {
    seq(|plan|, i requires 0 <= i < |plan| => CreateRequest(StepKey(plan[i])))
  }

  function ExecRequests(pod: string, devices: seq<string>): (r: seq<Request>)
    ensures |r| == |devices|
  {
    seq(|devices|, i requires 0 <= i < |devices| => ExecRequest(pod, WipeCommand(devices[i])))
  }

  /** Wiping changes no object; it runs one command per device in order and
      succeeds exactly when none of them fails, having then run them all. */
  lemma ExecAllRunsInOrder(env: Env, w: World, pod: string, devices: seq<string>)
    ensures var r := ExecAll(env, w, pod, devices);
      && r.world.objects == w.objects
      && (r.err.None? <==> forall d <- devices :: WipeCommand(d) !in env.execFailing)
      && (r.err.None? ==> r.world.requests == w.requests + ExecRequests(pod, devices))
      && (r.err.Some? ==> exists i :: (0 <= i < |devices| && WipeCommand(devices[i]) in env.execFailing
            && (forall j :: 0 <= j < i ==> WipeCommand(devices[j]) !in env.execFailing)
            && r.err == Some(ExecFailed(pod, WipeCommand(devices[i])))
            && r.world.requests == w.requests + ExecRequests(pod, devices[..i + 1])))
  {
    ExecAllSucceeds(env, w, pod, devices);
    ExecAllStopsAtFailure(env, w, pod, devices);
  }

  /** Device `i` is the first whose wipe command fails, the error names that
      command, and the requests stop right after it. */
  predicate FailsAt(env: Env, w: World, pod: string, devices: seq<string>, r: Outcome, i: int)
  {
    && 0 <= i < |devices| && WipeCommand(devices[i]) in env.execFailing
    && (forall j :: 0 <= j < i ==> WipeCommand(devices[j]) !in env.execFailing)
    && r.err == Some(ExecFailed(pod, WipeCommand(devices[i])))
    && r.world.requests == w.requests + ExecRequests(pod, devices[..i + 1])
  }

  /** The success half of ExecAllRunsInOrder. */
  lemma {:induction false} ExecAllSucceeds(env: Env, w: World, pod: string, devices: seq<string>)
    ensures ExecAll(env, w, pod, devices).world.objects == w.objects
    ensures ExecAll(env, w, pod, devices).err.None? <==> forall d <- devices :: WipeCommand(d) !in env.execFailing
    ensures ExecAll(env, w, pod, devices).err.None? ==>
      ExecAll(env, w, pod, devices).world.requests == w.requests + ExecRequests(pod, devices)
    decreases |devices|
  {
    if devices != [] {
      var cmd := WipeCommand(devices[0]);
      var w1 := w.(requests := w.requests + [ExecRequest(pod, cmd)]);
      if cmd in env.execFailing {
        assert devices[0] in devices;
      } else {
        var rest := devices[1..];
        ExecAllSucceeds(env, w1, pod, rest);
        assert forall d <- devices :: d == devices[0] || d in rest;
        ExecRequestsCons(pod, devices, |devices|);
        assert devices[..|devices|] == devices;
      }
    }
  }

  /** The failure half of ExecAllRunsInOrder: an error names the first
      failing command, after which nothing more ran. */
  lemma {:induction false} ExecAllStopsAtFailure(env: Env, w: World, pod: string, devices: seq<string>)
    ensures ExecAll(env, w, pod, devices).err.Some? ==>
      exists i :: FailsAt(env, w, pod, devices, ExecAll(env, w, pod, devices), i)
    decreases |devices|
  {
    if devices != [] {
      var cmd := WipeCommand(devices[0]);
      var w1 := w.(requests := w.requests + [ExecRequest(pod, cmd)]);
      var r := ExecAll(env, w, pod, devices);
      if cmd in env.execFailing {
        ExecRequestsCons(pod, devices, 1);
        assert FailsAt(env, w, pod, devices, r, 0);
      } else {
        var rest := devices[1..];
        ExecAllStopsAtFailure(env, w1, pod, rest);
        if r.err.Some? {
          var i :| FailsAt(env, w1, pod, rest, r, i);
          ExecRequestsCons(pod, devices, i + 2);
          assert rest[..i + 1] == devices[1..i + 2];
          assert forall j :: 1 <= j < i + 1 ==> devices[j] == rest[j - 1];
          assert FailsAt(env, w, pod, devices, r, i + 1);
        }
      }
    }
  }

  /** The wipe requests of a prefix: the first device's, then the rest's. */
  lemma ExecRequestsCons(pod: string, devices: seq<string>, n: nat)
    requires 1 <= n <= |devices|
    ensures ExecRequests(pod, devices[..n]) == [ExecRequest(pod, WipeCommand(devices[0]))] + ExecRequests(pod, devices[1..n])
  {
    var a := ExecRequests(pod, devices[..n]);
    var b := [ExecRequest(pod, WipeCommand(devices[0]))] + ExecRequests(pod, devices[1..n]);
    assert |a| == |b|;
    forall k | 0 <= k < |a| ensures a[k] == b[k] {
      if k > 0 {
        assert devices[1..n][k - 1] == devices[k];
      }
    }
  }

  /** A plan that succeeds issues one create per step, in order. */
  lemma PlanRequests(env: Env, w: World, plan: seq<Step>)
    requires EnsureAll(env, w, plan).err.None?
    ensures EnsureAll(env, w, plan).world.requests == w.requests + CreateRequests(plan)
  {
    EnsureAllStopsAtFirstFailure(env, w, plan);
    assert FirstFailure(env, plan) == |plan|;
  }

  /** `after` extends `before` with creates of objects other than
      deployments only. */
  ghost predicate CreatesOnly(before: seq<Request>, after: seq<Request>)
  {
    && |before| <= |after| && after[..|before|] == before
    && forall q <- after[|before|..] :: q.CreateRequest? && q.key.kind != DeploymentKind
  }

  lemma CreatesOnlyTrans(a: seq<Request>, b: seq<Request>, c: seq<Request>)
    requires CreatesOnly(a, b) && CreatesOnly(b, c)
    ensures CreatesOnly(a, c)
  {
    assert c[|a|..] == b[|a|..] + c[|b|..] by {
      assert c[..|b|] == b;
    }
  }

  ghost predicate NoDeploymentStep(plan: seq<Step>)
  {
    forall s <- plan :: StepKey(s).kind != DeploymentKind
  }

  /** A plan without a deployment step issues only creates of other kinds. */
  lemma PlanCreatesOnly(env: Env, w: World, plan: seq<Step>)
    requires NoDeploymentStep(plan)
    ensures CreatesOnly(w.requests, EnsureAll(env, w, plan).world.requests)
  {
    EnsureAllStopsAtFirstFailure(env, w, plan);
    var r := EnsureAll(env, w, plan);
    assert r.world.requests[|w.requests|..] == Attempted(env, plan);
    forall q <- Attempted(env, plan) ensures q.CreateRequest? && q.key.kind != DeploymentKind {
      var i :| 0 <= i < |Attempted(env, plan)| && Attempted(env, plan)[i] == q;
      assert plan[i] in plan;
    }
  }

  lemma VolumePlanKinds(v: NodeVolume)
    ensures NoDeploymentStep(VolumePlan(v))
  {
  }

  lemma NoDeploymentStepAppend(p1: seq<Step>, p2: seq<Step>)
    requires NoDeploymentStep(p1) && NoDeploymentStep(p2)
    ensures NoDeploymentStep(p1 + p2)
  {
  }

  lemma {:induction false} DevicesPlanKinds(devices: seq<NodeVolume>)
    ensures NoDeploymentStep(DevicesPlan(devices))
    decreases |devices|
  {
    if devices != [] {
      DevicesPlanKinds(devices[..|devices| - 1]);
      VolumePlanKinds(devices[|devices| - 1]);
      NoDeploymentStepAppend(DevicesPlan(devices[..|devices| - 1]), VolumePlan(devices[|devices| - 1]));
    }
  }

  lemma MountCreatesOnly(env: Env, w: World, node: Node, sv: NodeVolume)
    ensures CreatesOnly(w.requests, EnsureAll(env, w, MountVolumesPlan(node, sv)).world.requests)
  {
    var kmv := KernelModulesVolume(node, sv);
    VolumePlanKinds(sv);
    VolumePlanKinds(kmv);
    NoDeploymentStepAppend(VolumePlan(sv), VolumePlan(kmv));
    PlanCreatesOnly(env, w, MountVolumesPlan(node, sv));
  }

  /** Preparing a node issues creates only, and no deployment create. */
  lemma PreparationCreatesOnly(env: Env, w: World, node: Node)
    ensures CreatesOnly(w.requests, PreparationOutcome(env, w, node).world.requests)
  {
    if node.serverType == GlusterServer {
      if node.stateVolume.Some? {
        MountCreatesOnly(env, w, node, node.stateVolume.value);
        var rm := MountVolumesOutcome(env, w, node);
        if rm.err.None? {
          DevicesPlanKinds(node.devices);
          PlanCreatesOnly(env, rm.world, DevicesPlan(node.devices));
          CreatesOnlyTrans(w.requests, rm.world.requests, PreparationOutcome(env, w, node).world.requests);
        }
      }
    } else if node.serverType == HeketiServer {
      PlanCreatesOnly(env, w, CredentialsPlan(node));
    }
  }

  /** No wipe command is ever sent for a node that is not a storage node or
      whose cluster does not ask for wiping. */
  lemma NoWipeUnlessAsked(env: Env, w: World, wipe: bool, node: Node)
    requires !(node.serverType == GlusterServer && wipe)
    ensures var r := DeployNodeOutcome(env, w, wipe, node);
      && |r.world.requests| >= |w.requests|
      && forall q <- r.world.requests[|w.requests|..] :: !q.ExecRequest?
  {
    var r1 := PreparationOutcome(env, w, node);
    PreparationCreatesOnly(env, w, node);
    if r1.err.None? {
      var r2 := DeploymentOutcome(env, r1.world, node);
      DeploymentWaitsOnlyWhenCreated(env, r1.world, node);
      assert r2.world.requests[|w.requests|..]
        == r1.world.requests[|w.requests|..] + [CreateRequest(DeploymentKey(NewDeployment(node)))];
    }
  }

  /** A node whose preparation fails never gets a deployment request. */
  lemma FailedPreparationStops(env: Env, w: World, wipe: bool, node: Node)
    requires PreparationOutcome(env, w, node).err.Some?
    ensures DeployNodeOutcome(env, w, wipe, node) == PreparationOutcome(env, w, node)
    ensures |DeployNodeOutcome(env, w, wipe, node).world.requests| >= |w.requests|
    ensures CreateRequest(DeploymentKey(NewDeployment(node))) !in DeployNodeOutcome(env, w, wipe, node).world.requests[|w.requests|..]
  {
    PreparationCreatesOnly(env, w, node);
  }

  /** Preparing a storage node runs its mount plan, then its device plan. */
  lemma GlusterPreparation(env: Env, w: World, node: Node)
    requires node.serverType == GlusterServer && node.stateVolume.Some?
    ensures PreparationOutcome(env, w, node)
      == EnsureAll(env, w, MountVolumesPlan(node, node.stateVolume.value) + DevicesPlan(node.devices))
  {
    EnsureAllAppend(env, w, MountVolumesPlan(node, node.stateVolume.value), DevicesPlan(node.devices));
  }

  /** A storage node that deploys without error issues, in this order: the
      creates of its state and kernel-modules volumes, those of its devices,
      the create of its deployment and, when the cluster asks for wiping, one
      wipe per device of container 0, in the first pod labelled with the
      node's name. */
  lemma DeployGlusterNodeOrder(env: Env, w: World, wipe: bool, node: Node)
    requires node.serverType == GlusterServer && node.stateVolume.Some?
    requires DeployNodeOutcome(env, w, wipe, node).err.None?
    ensures var r := DeployNodeOutcome(env, w, wipe, node);
      var plan := MountVolumesPlan(node, node.stateVolume.value) + DevicesPlan(node.devices);
      r.world.requests == w.requests + CreateRequests(plan) + [CreateRequest(DeploymentKey(NewDeployment(node)))]
        + (if wipe then ExecRequests(WipePod(env, node), WipedPaths(node)) else [])
  {
    var mount := MountVolumesPlan(node, node.stateVolume.value);
    var devs := DevicesPlan(node.devices);
    GlusterPreparation(env, w, node);
    var r1 := PreparationOutcome(env, w, node);
    PlanRequests(env, w, mount + devs);
    var r2 := DeploymentOutcome(env, r1.world, node);
    DeploymentWaitsOnlyWhenCreated(env, r1.world, node);
    var pre := w.requests + CreateRequests(mount + devs) + [CreateRequest(DeploymentKey(NewDeployment(node)))];
    assert r2.world.requests == pre;
    var r := DeployNodeOutcome(env, w, wipe, node);
    if wipe {
      assert |node.spec.containers| > 0;
      var paths := DevicePaths(node.spec.containers[0].volumeDevices);
      assert r == WipeOutcome(env, r2.world, node, paths);
      var pods := PodsNamed(env.pods, node.meta.namespace, node.meta.name);
      assert pods != [];
      assert r == ExecAll(env, r2.world, pods[0].name, paths);
      ExecAllRunsInOrder(env, r2.world, pods[0].name, paths);
      assert r.world.requests == pre + ExecRequests(pods[0].name, paths);
    } else {
      assert r == r2;
      assert r.world.requests == pre + [];
    }
  }

  lemma {:induction false} DevicesPlanHasClaims(devices: seq<NodeVolume>, d: NodeVolume)
    requires d in devices
    ensures PVCStep(d) in DevicesPlan(devices)
    decreases |devices|
  {
    var init := devices[..|devices| - 1];
    if d != devices[|devices| - 1] {
      assert d in init by {
        assert devices == init + [devices[|devices| - 1]];
      }
      DevicesPlanHasClaims(init, d);
    }
  }

  /** A step of a plan that succeeded has its object stored. */
  lemma StepStored(env: Env, w: World, plan: seq<Step>, s: Step)
    requires EnsureAll(env, w, plan).err.None? && s in plan
    ensures StepKey(s) in EnsureAll(env, w, plan).world.objects
  {
    EnsureAllSucceeds(env, w, plan);
  }

  /** A storage node that was prepared without error has a claim for its
      state volume, for its kernel-modules volume and for every device. */
  lemma PreparedNodeHasClaims(env: Env, w: World, node: Node)
    requires node.serverType == GlusterServer
    requires PreparationOutcome(env, w, node).err.None?
    ensures node.stateVolume.Some?
    ensures var objects := PreparationOutcome(env, w, node).world.objects;
      && ClaimKey(node.stateVolume.value) in objects
      && ClaimKey(KernelModulesVolume(node, node.stateVolume.value)) in objects
      && forall d <- node.devices :: ClaimKey(d) in objects
  {
    var sv := node.stateVolume.value;
    var kmv := KernelModulesVolume(node, sv);
    var plan := MountVolumesPlan(node, sv) + DevicesPlan(node.devices);
    GlusterPreparation(env, w, node);
    assert PVCStep(sv) in plan by {
      assert PVCStep(sv) in VolumePlan(sv);
    }
    StepStored(env, w, plan, PVCStep(sv));
    assert PVCStep(kmv) in plan by {
      assert PVCStep(kmv) in VolumePlan(kmv);
    }
    StepStored(env, w, plan, PVCStep(kmv));
    forall d <- node.devices ensures ClaimKey(d) in EnsureAll(env, w, plan).world.objects {
      DevicesPlanHasClaims(node.devices, d);
      assert PVCStep(d) in plan;
      StepStored(env, w, plan, PVCStep(d));
      assert StepKey(PVCStep(d)) == ClaimKey(d) by {
        assert |VolumePlan(d)| >= 1;
      }
    }
  }

  /** Every claim of a storage node that deployed without error exists. */
  lemma DeployedNodeHasClaims(env: Env, w: World, wipe: bool, node: Node)
    requires node.serverType == GlusterServer
    requires DeployNodeOutcome(env, w, wipe, node).err.None?
    ensures node.stateVolume.Some?
    ensures var objects := DeployNodeOutcome(env, w, wipe, node).world.objects;
      && ClaimKey(node.stateVolume.value) in objects
      && ClaimKey(KernelModulesVolume(node, node.stateVolume.value)) in objects
      && forall d <- node.devices :: ClaimKey(d) in objects
  {
    var r1 := PreparationOutcome(env, w, node);
    PreparedNodeHasClaims(env, w, node);
    var r2 := DeploymentOutcome(env, r1.world, node);
    DeploymentWaitsOnlyWhenCreated(env, r1.world, node);
    assert forall k <- r1.world.objects :: k in r2.world.objects;
    if wipe {
      var pods := PodsNamed(env.pods, node.meta.namespace, node.meta.name);
      ExecAllRunsInOrder(env, r2.world, pods[0].name, DevicePaths(node.spec.containers[0].volumeDevices));
    }
  }

  // ---------------------------------------------------------------------------
  // The functions of deploy.go.

  /** The device list deployNode hands to wipeDevices. */
  method CollectDevicePaths(vds: seq<VolumeDevice>) returns (devices: seq<string>)
    ensures |devices| == |vds|
    ensures forall i :: 0 <= i < |vds| ==> devices[i] == vds[i].devicePath
  {
    devices := [];
    for i := 0 to |vds|
      invariant |devices| == i
      invariant forall j :: 0 <= j < i ==> devices[j] == vds[j].devicePath
    {
      devices := devices + [vds[i].devicePath];
    }
  }

  method WipeDevices(api: KubeApi, node: Node, devices: seq<string>) returns (err: Option<Error>)
    modifies api
    ensures Outcome(api.State(), err) == WipeOutcome(api.env, old(api.State()), node, devices)
  {
    var pods;
    pods, err := api.ListPods(node.meta.namespace, node.meta.name);
    if err.Some? {
      return;
    }
    if |pods| == 0 {
      return Some(PodNotFound(node.meta.name));
    }
    var pod := pods[0];
    ghost var w0 := api.State();
    var i := 0;
    while i < |devices|
      invariant 0 <= i <= |devices|
      invariant ExecAll(api.env, w0, pod.name, devices) == ExecAll(api.env, api.State(), pod.name, devices[i..])
    {
      assert devices[i..][1..] == devices[i + 1..];
      var command := WipeCommand(devices[i]);
      err := api.Exec(pod.name, command);
      if err.Some? {
        return;
      }
      i := i + 1;
    }
    err := None;
  }

  /** The loop of deployNode over a storage node's devices. */
  method CreateDevices(api: KubeApi, devices: seq<NodeVolume>) returns (err: Option<Error>)
    modifies api
    ensures Outcome(api.State(), err) == EnsureAll(api.env, old(api.State()), DevicesPlan(devices))
  {
    ghost var w0 := api.State();
    var i := 0;
    while i < |devices|
      invariant 0 <= i <= |devices|
      invariant Outcome(api.State(), None) == EnsureAll(api.env, w0, DevicesPlan(devices[..i]))
    {
      DevicesPlanSnoc(devices, i);
      EnsureAllAppend(api.env, w0, DevicesPlan(devices[..i]), VolumePlan(devices[i]));
      err := CreateVolumeResources(api, devices[i]);
      if err.Some? {
        DevicesPlanPrefix(devices, i + 1);
        EnsureAllFailed(api.env, w0, DevicesPlan(devices[..i + 1]), DevicesPlan(devices)[|DevicesPlan(devices[..i + 1])|..]);
        return;
      }
      i := i + 1;
    }
    assert devices[..i] == devices;
    err := None;
  }

  /** The plan for the first i + 1 devices extends the plan for the first i. */
  lemma DevicesPlanSnoc(devices: seq<NodeVolume>, i: nat)
    requires i < |devices|
    ensures DevicesPlan(devices[..i + 1]) == DevicesPlan(devices[..i]) + VolumePlan(devices[i])
  {
    assert devices[..i + 1][..i] == devices[..i];
  }

  /** The switch on the server type at the head of deployNode. */
  method PrepareNode(api: KubeApi, node: Node) returns (err: Option<Error>)
    modifies api
    ensures Outcome(api.State(), err) == PreparationOutcome(api.env, old(api.State()), node)
  {
    err := None;
    if node.serverType == GlusterServer {
      err := CreateGlusterMountVolumes(api, node);
      if err.Some? {
        return;
      }
      err := CreateDevices(api, node.devices);
    } else if node.serverType == HeketiServer {
      err := CreateHeketiCredentials(api, node);
    }
  }

  method DeployNode(api: KubeApi, gc: GlusterCluster, node: Node) returns (err: Option<Error>)
    requires gc.spec.Some?
    modifies api
    ensures Outcome(api.State(), err) == DeployNodeOutcome(api.env, old(api.State()), gc.spec.value.wipe, node)
  {
    err := PrepareNode(api, node);
    if err.Some? {
      return;
    }
    err := CreateDeployment(api, node);
    if err.Some? {
      return;
    }
    if node.serverType == GlusterServer && gc.spec.value.wipe {
      if |node.spec.containers| == 0 {
        return Some(Crash("no container"));
      }
      var devices := CollectDevicePaths(node.spec.containers[0].volumeDevices);
      assert devices == DevicePaths(node.spec.containers[0].volumeDevices);
      err := WipeDevices(api, node, devices);
    }
  }

  /** The device plan of a prefix is a prefix of the device plan. */
  lemma {:induction false} DevicesPlanPrefix(devices: seq<NodeVolume>, k: nat)
    requires k <= |devices|
    ensures |DevicesPlan(devices[..k])| <= |DevicesPlan(devices)|
    ensures DevicesPlan(devices) == DevicesPlan(devices[..k]) + DevicesPlan(devices)[|DevicesPlan(devices[..k])|..]
    decreases |devices|
  {
    if k < |devices| {
      var init := devices[..|devices| - 1];
      assert init[..k] == devices[..k];
      DevicesPlanPrefix(init, k);
      PrefixExtends(DevicesPlan(devices[..k]), DevicesPlan(init), VolumePlan(devices[|devices| - 1]));
    } else {
      assert devices[..k] == devices;
    }
  }

  /** A prefix of q is a prefix of q extended. */
  lemma PrefixExtends(p: seq<Step>, q: seq<Step>, last: seq<Step>)
    requires |p| <= |q| && q == p + q[|p|..]
    ensures |p| <= |q + last| && q + last == p + (q + last)[|p|..]
  {
    assert (q + last)[|p|..] == q[|p|..] + last;
  }
}
