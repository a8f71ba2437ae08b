# Anthill GlusterCluster controller, modelled in Dafny

Anthill is a Kubernetes operator for GlusterFS. A user describes a
`GlusterCluster`: a heketi management node, a list of gluster storage
nodes (each with a state volume and a list of block devices), a wipe
flag and a pod timeout. The controller turns that description into
cluster objects:

- a headless service;
- the heketi configuration map, database secret, service account and
  role binding;
- storage classes, persistent volumes and claims for every volume;
- one deployment per node.

It then registers the nodes and their devices with heketi. When the spec
changes, it diffs old against new, node by node and device by device. It
creates the new volumes, rewires and redeploys the pod, optionally wipes
the new devices, and offers them to heketi. Finally it marks the cluster
`deployed` in its status.

This project models that core and proves what it promises.

- **`Text`** (`text.dfy`): decimal rendering (`strconv.Itoa`) and the
  byte-wise string order Go uses for `>` on strings.
- **`Types`** (`types.dfy`): the cluster, node, volume and Kubernetes
  object records as datatypes.
- **`Init`** (`init.dfy`, from `init.go`): defaulting and derivation of
  a cluster. `initGlusterCluster` works on a deep copy, so the derivation
  steps are methods over values. Each one is proved to produce a node that
  satisfies a derivation predicate: names, namespaces, owner references,
  labels, the volumes appended to the pod, the device mounts on both
  containers and the `DEVICES` environment variable.
- **`Objects`** (`objects.dfy`, from `objects.go`): the object
  constructors and the rollout wait, modelled over a sequence of polls.
- **`Api`** (`api.dfy`): the Kubernetes API as a class `KubeApi`. It holds
  an object map and a request log, and its `Create`, `Update`, `Get`,
  `List` and `Exec` methods fail for the keys, namespaces and commands its
  environment marks as failing. `EnsureAll` is the "create, accept
  AlreadyExists, stop at the first error" chain that every create function
  follows.
- **`Create`** and **`Deploy`** (`create.go`, `deploy.go`): each create
  function and `deployNode`/`wipeDevices` is an imperative method. Each is
  proved equal to a specification function over the store's state, and
  lemmas about those functions state ordering, claims created and when
  wipes happen.
- **`Heketi`** (`heketi.dfy`, from `pkg/heketi/client.go`): a stand-in
  server class `HeketiServer` that holds a topology of clusters, nodes and
  devices and hands out fresh ids. The `HeketiClient` methods are proved
  against specification functions.
- **`Update`** (`update.dfy`, from `update.go`):
  - the volume diff (`diffGlusterNodeVolume` and the list
    `updateGlusterNode` builds), with its layout proved entry by entry;
  - node redeployment and device refresh;
  - `updateGlusterCluster` with its node walk, the deploy pass and
    registration.
- **`Controller`** (`controller.dfy`, from `controller.go`): the event
  handlers, the work queue as a class, and `work()`. `work()` filters
  no-op, uncached, stale and status-only items, then reconciles the rest.
- **`Wiring`** (`wiring.dfy`): how the names init derives line up with
  the objects deploy creates and the devices offered to heketi.

Three behaviours of the source are modelled as written and exhibited by
lemmas:

- **The wipe path after an update is not the mounted path.**
  `updateGlusterNode` wipes `"/dev/" + name` (update.go:193), but init
  mounts every device at `"/dev/gluster/" + name` (init.go:511).
  `Update.WipeListMissesMountedPaths` proves that no wiped path is a
  mounted device path when device names contain no `/`.
- **A cluster named `anthill` selects no storage pods.** Init builds the
  node labels as a map literal with the keys `"anthill"` and the cluster
  name (init.go:430-435). Go keeps the later entry of a duplicated key, so
  for that one name the service selector `"anthill": "anthill-node"`
  matches no storage pod. See `Wiring.ClusterNamedAnthillIsNotSelected`.
- **Resource versions are compared as strings** (controller.go:192). A
  cached version "99" therefore makes an incoming "100" look stale, and
  the item is dropped. See `Controller.StringOrderDropsLaterVersion`.

Goroutines in `updateGlusterCluster` are modelled as running one after
another, in launch order. All of them run; the first error in that order
is the one returned, and an error stops heketi registration.

Go panics are modelled as a `Crash` error where the model can reach them:
a nil state volume, `Containers[0]` of an empty container list, or the
removal branch of `work()` that dereferences a nil cluster
(controller.go:235-238). A panic inside the `work()` closure skips the
retry and `Done`, and stops the worker: `wait.Until` re-raises it
(controller.go:125).

The API server is modelled as far as the controller depends on it:

- `Create` and `Update` return the object as stored. A deployment's
  `generation` is 1 when created. An update keeps it, adding one when
  the replicas, selector or pod template changed. Rollout waits run on
  the returned object, as create.go:262-270 and update.go:179-187 do.
- Besides keys on which every request fails, the environment names keys
  whose updates are refused with a conflict although reads succeed.

JSON encoding of the heketi configuration is a parameter
(`encoded: Option<string>`; `None` means `json.Marshal` failed).

## Model

| member | source | states |
|---|---|---|
| `Text.Itoa` | pkg/controller/init.go:412 | the decimal rendering used in default names is non-empty, all digits, and one character exactly for n < 10 |
| `Text.ItoaInjective` | pkg/controller/init.go:411-413 | distinct node indices render differently, so default node names `<cluster>-<i>` are distinct |
| `Text.LessIrreflexive` | pkg/controller/controller.go:192 | no resource version is stale against itself |
| `Text.LessAsymmetric` | pkg/controller/controller.go:192 | the string order on versions is asymmetric |
| `Text.LessTransitive` | pkg/controller/controller.go:192 | the string order on versions is transitive |
| `Text.LessTotal` | pkg/controller/controller.go:192 | any two different versions are ordered one way or the other |
| `Text.DecimalOrderDisagrees` | pkg/controller/controller.go:192 | "100" sorts before "99": the string order is not the numeric order of versions |
| `Init.InitHeketiNode` | pkg/controller/init.go:333-395 | the heketi node gets the timeout, name and namespace defaults, hostname/subdomain, the controller owner ref, the three labels, the service account, the config and backupdb volumes and the db-secret env var on container 0 |
| `Init.InitGlusterNode` | pkg/controller/init.go:397-474 | a storage node is merged with defaults, named `<cluster>-<idx>` if unnamed, gets owner ref and four labels, a named and labelled state volume, the gluster-state and kernel-modules claim volumes and the default containers appended |
| `Init.InitGlusterNodeVolume` | pkg/controller/init.go:476-524 | a device is merged, named `<node>-<idx>` and given a storage class if unset, inherits owner refs and namespace, gets two labels, and exactly one claim volume, one `/dev/gluster/` mount on both first containers and one DEVICES entry are added to the node |
| `Init.DeriveVolume` | pkg/controller/init.go:479-500 | the volume is merged, named `<node>-<idx>` and given the `<node>-volumes` class when unset, takes the node's owners and namespace, and gets the two device labels |
| `Init.WiredSpecStep` | pkg/controller/init.go:501-521 | wiring devices one at a time is the same as wiring the whole list in order |
| `Init.WiredSpecNone` | pkg/controller/init.go:323-327 | a node without devices keeps its pod spec |
| `Init.InitGlusterNodeDevices` | pkg/controller/init.go:323-327 | every device of a node is derived in index order and wired into the node |
| `Init.DevicesLoopStep` | pkg/controller/init.go:323-327 | after k devices the node is the original with the first k derived and wired; one more turn makes it k + 1 |
| `Init.InitGlusterCluster` | pkg/controller/init.go:294-331 | nil gives nil; otherwise the copy has the two cluster labels, unchanged status, the derived heketi node and every node derived at its index with its devices |
| `Init.DerivedIsDefaulted` | pkg/controller/init.go:294-331 | a derived cluster has a heketi node with config and a container, glusterfs settings, and every storage node has a container and a state volume |
| `Objects.NewService` | pkg/controller/objects.go:17-45 | headless service named after the cluster, owned by it, one dummy TCP port 1, selecting exactly the label sets whose `anthill` label is `<cluster>-node` |
| `Objects.NewDeployment` | pkg/controller/objects.go:47-73 | one replica; name, namespace, owner refs and labels of the node on deployment and template; selector equal to the labels, so it selects its own pods; template spec is the node's spec |
| `Objects.NewStorageClass` | pkg/controller/objects.go:90-100 | named after the volume's storage class, owned like the volume, no provisioner, WaitForFirstConsumer binding |
| `Objects.NewPersistentVolume` | pkg/controller/objects.go:102-110 | named and owned like the volume, spec is the volume's PV spec |
| `Objects.NewPersistentVolumeClaim` | pkg/controller/objects.go:112-131 | claim `<volume>-claim` binding the volume's PV by name and storage class, selecting the volume's labels, requesting its capacity with its access and volume modes |
| `Objects.PollBudget` | pkg/controller/objects.go:76 | a wait never makes more observations than exist; timeout 0 means no limit, a negative timeout none |
| `Objects.RolloutOutcomeSpec` | pkg/controller/objects.go:75-88 | the wait succeeds iff the first poll that errors or completes is a completion, fails with the read error iff it is an error, and times out iff every poll saw an incomplete rollout |
| `Api.Ensure` | pkg/controller/create.go:220-229 | a create-or-accept succeeds iff the key is not failing, logs one create request, stores the key on success, and never changes or removes another object |
| `Api.EnsureAllStopsAtFirstFailure` | pkg/controller/create.go:201-218 | a chain of creates returns the error of the first failing step and issues exactly the requests up to it |
| `Api.EnsureAllSucceeds` | pkg/controller/create.go:201-218 | a chain succeeds iff none of its steps fails, and then every step's object is stored |
| `Api.EnsureAllKeeps` | pkg/controller/create.go:201-218 | a chain never modifies or deletes existing objects and adds only its own steps' keys |
| `Api.EnsureAllIdempotent` | pkg/controller/create.go:201-218 | re-running a chain that succeeded succeeds again with the same objects |
| `Api.EnsureAllAppend` | pkg/controller/deploy.go:80-99 | running two chains in sequence is running the first and, if it succeeded, the second from its result |
| `Api.Admitted` | pkg/controller/create.go:262-270 | the object the server stores keeps kind and name; a created deployment is at generation 1; an updated one keeps its generation, one higher when replicas, selector or template changed, and differs from what was sent only in its generation; other kinds are stored as sent |
| `Api.GetError` | pkg/controller/update.go:162-166 | reading a deployment succeeds iff the key is not failing and a deployment is stored under it |
| `Api.PodsNamed` | pkg/controller/deploy.go:115 | the `name=<node>` pod list holds exactly the pods of that namespace with that name label |
| `Api.KubeApi.Create` | pkg/controller/create.go:262 | a create appends a request and stores the admitted object, returning it; or fails with AlreadyExists or the injected failure and returns nothing |
| `Api.KubeApi.Update` | pkg/controller/update.go:179 | an update replaces a stored object with its admitted version and returns that; or fails on a failing key, a missing object or a conflict, and returns nothing |
| `Api.KubeApi.GetDeployment` | pkg/controller/update.go:162 | returns the stored deployment exactly when `GetError` reports none |
| `Api.KubeApi.ListPods` | pkg/controller/deploy.go:115 | a list returns the pods named by the selector, or the namespace's list failure |
| `Api.KubeApi.Exec` | pkg/controller/deploy.go:157-158 | an exec logs the command on the pod, leaves objects unchanged and fails iff the command is failing |
| `Api.WaitForDeployment` | pkg/controller/objects.go:75-88 | the polling loop returns the outcome the poll specification gives |
| `Create.HeketiConfigMap` | pkg/controller/create.go:42-55 | configuration map `<node>-config` holding the encoded configuration under `heketi.json` |
| `Create.HeketiDbSecret` | pkg/controller/create.go:66-76 | secret `<node>-db-secret` with an empty `heketi.db`, no owner |
| `Create.HeketiRoleBinding` | pkg/controller/create.go:114-136 | binding `<node>-role-binding` of the node's service account to the `anthill` cluster role |
| `Create.KernelModulesVolume` | pkg/controller/create.go:170-191 | volume `<node>-kernel-modules` with the state volume's labels, provisioned read-only-many from host path `/usr/lib/modules` without storage class |
| `Create.VolumePlan` | pkg/controller/create.go:201-218 | exactly storage class, PV, claim when provisioned with a class name; PV, claim when provisioned without one; the claim alone otherwise — the class always before the PV and the claim last |
| `Create.VolumePlanSteps` | pkg/controller/create.go:201-218 | the plan is `[class, PV, claim]`, `[PV, claim]` or `[claim]`, according to provisioning and the class name |
| `Create.HeketiConfigOutcome` | pkg/controller/create.go:35-40 | a failed encoding returns before any request |
| `Create.MountVolumesOutcome` | pkg/controller/create.go:161-168 | a node without state volume fails before any request |
| `Create.DeploymentWaitsOnlyWhenCreated` | pkg/controller/create.go:257-276 | one create request; a failure is returned, an existing deployment is success without waiting, and a new one is stored at generation 1 and that stored object is waited for |
| `Create.EnsureObject` | pkg/controller/create.go:221-228 | one create-or-accept equals `Ensure` on the store |
| `Create.CreateService` | pkg/controller/create.go:16-29 | creating the service is the one-step chain for `newService` |
| `Create.CreateHeketiConfig` | pkg/controller/create.go:31-88 | encoding check, then configuration map, then secret, as specified |
| `Create.CreateHeketiCredentials` | pkg/controller/create.go:90-148 | service account, then role binding, stopping at the first error |
| `Create.CreateStorageClass` | pkg/controller/create.go:220-229 | the one-step chain for the storage class |
| `Create.CreatePV` | pkg/controller/create.go:231-242 | the one-step chain for the persistent volume |
| `Create.CreatePVC` | pkg/controller/create.go:244-255 | the one-step chain for the claim |
| `Create.CreateVolumeResources` | pkg/controller/create.go:201-218 | runs the volume's plan as a chain |
| `Create.CreateGlusterMountVolumes` | pkg/controller/create.go:161-199 | state volume resources, then kernel-modules resources, as specified |
| `Create.CreateDeployment` | pkg/controller/create.go:257-276 | create, accept an existing one, and wait only for a new one, on the object the server returned |
| `Deploy.ExecAllRunsInOrder` | pkg/controller/deploy.go:155-162 | wipes run in device order, change no object, succeed iff no command fails, and stop after the first failing one |
| `Deploy.ExecAllSucceeds` | pkg/controller/deploy.go:155-162 | wiping changes no object and succeeds iff no command fails, having then run one command per device in order |
| `Deploy.ExecAllStopsAtFailure` | pkg/controller/deploy.go:155-162 | a failed wipe names the command of the first failing device (every earlier one succeeded), and the commands run are exactly those up to and including it |
| `Deploy.PreparationCreatesOnly` | pkg/controller/deploy.go:80-95 | preparing a node only issues create requests |
| `Deploy.NoWipeUnlessAsked` | pkg/controller/deploy.go:101-109 | without the wipe flag, or for a heketi node, deploying a node runs no command in any pod |
| `Deploy.FailedPreparationStops` | pkg/controller/deploy.go:82-95 | a failed preparation is returned as is and no deployment is requested |
| `Deploy.GlusterPreparation` | pkg/controller/deploy.go:81-90 | a storage node's preparation is its mount volumes' chain followed by its devices' chain |
| `Deploy.DeployGlusterNodeOrder` | pkg/controller/deploy.go:77-112 | a successful storage node deploy issues the volume creates, then the deployment, then, with wipe, one wipe per mounted device |
| `Deploy.DevicesPlanHasClaims` | pkg/controller/deploy.go:85-90 | every device's claim is in the devices plan |
| `Deploy.PreparedNodeHasClaims` | pkg/controller/deploy.go:81-90 | after a successful preparation the state, kernel-modules and every device claim exist |
| `Deploy.DeployedNodeHasClaims` | pkg/controller/deploy.go:77-112 | after a successful deploy the same claims exist |
| `Deploy.CollectDevicePaths` | pkg/controller/deploy.go:102-105 | the wipe list is the device paths of container 0, in order |
| `Deploy.WipeDevices` | pkg/controller/deploy.go:114-165 | list the node's pods, fail if none, then wipe each device in order |
| `Deploy.CreateDevices` | pkg/controller/deploy.go:85-90 | creates every device's resources in order, stopping at the first error |
| `Deploy.PrepareNode` | pkg/controller/deploy.go:80-95 | the per-server-type preparation |
| `Deploy.DeployNode` | pkg/controller/deploy.go:77-112 | preparation, deployment, then the wipe when asked |
| `Heketi.Missing` | pkg/heketi/client.go:166-171 | the devices actually requested are exactly the paths heketi does not know yet |
| `Heketi.AddDevicesCalls` | pkg/heketi/client.go:146-150 | the device loop requests each unknown path in order, for this node only, keeps the topology valid, and reports the DeviceAdd failure |
| `Heketi.AddDevicesTopology` | pkg/heketi/client.go:166-184 | adding devices never changes cluster membership |
| `Heketi.CreateClusterSkipsOrCreates` | pkg/heketi/client.go:43-81 | with a cached id, one list call: its failure is returned with nothing else changed, and a listed id is kept; otherwise one create whose fresh id is labelled on the stored heketi deployment |
| `Heketi.AddNodeSkipsRegistered` | pkg/heketi/client.go:101-120 | a node already registered in this cluster is not added again and its deployment is not rewritten; its devices are still ensured: after the cluster and node reads, one DeviceAdd per path of container 0 the node does not list, in order, and a failure is the failing read's or DeviceAdd's |
| `Heketi.AddNodeRegisters` | pkg/heketi/client.go:94-153 | an unregistered node gets exactly one NodeAdd with its request; on success its deployment carries the cluster and the new node id, which is a member of the cluster |
| `Heketi.AddNodeRegisterPath` | pkg/heketi/client.go:101-121 | when the shortcut does not apply, AddNode is the registration after at most one cluster read |
| `Heketi.RegisterNodeCalls` | pkg/heketi/client.go:122-153 | registration makes the NodeAdd call first and then device calls only, and none if the deployment update fails |
| `Heketi.RegisterNodeStored` | pkg/heketi/client.go:134-142 | a successful registration stores the labelled deployment (differing only in the generation the server stamps) and makes the node a member of the cluster |
| `Heketi.RegisterConflictLeaksNode` | pkg/heketi/client.go:128-142 | when the label write is refused with a conflict, the conflict is returned and the store is unchanged, but heketi keeps the new node as a member of the cluster |
| `Heketi.NewClusterConflictLeaksCluster` | pkg/heketi/client.go:64-76 | when the cluster-id label write is refused with a conflict, the conflict is returned and the store is unchanged, but heketi keeps the fresh cluster |
| `Heketi.HeketiServer.ClusterList` | pkg/heketi/client.go:45 | lists the clusters or fails |
| `Heketi.HeketiServer.ClusterCreate` | pkg/heketi/client.go:57-64 | creates a cluster under a fresh id or fails |
| `Heketi.HeketiServer.ClusterInfo` | pkg/heketi/client.go:85 | returns a known cluster's nodes or fails |
| `Heketi.HeketiServer.NodeInfo` | pkg/heketi/client.go:157 | returns a known node's info or fails |
| `Heketi.HeketiServer.NodeAdd` | pkg/heketi/client.go:122-128 | adds a node under a fresh id to a known cluster or fails |
| `Heketi.HeketiServer.DeviceAdd` | pkg/heketi/client.go:174-178 | adds a device to a known node or fails |
| `Heketi.Listed` | pkg/heketi/client.go:50-54 | the search loop finds x iff x is listed |
| `Heketi.HeketiClient.CreateCluster` | pkg/heketi/client.go:43-81 | the method follows the cluster-creation specification |
| `Heketi.HeketiClient.GetCluster` | pkg/heketi/client.go:83-92 | one ClusterInfo call; the nodes, or its failure |
| `Heketi.HeketiClient.GetNode` | pkg/heketi/client.go:155-164 | one NodeInfo call; the info, or its failure |
| `Heketi.HeketiClient.AddDevice` | pkg/heketi/client.go:166-184 | a device heketi knows is skipped; otherwise one DeviceAdd |
| `Heketi.HeketiClient.AddDevices` | pkg/heketi/client.go:146-150 | AddDevice over the container's device paths, stopping at the first error |
| `Heketi.HeketiClient.AddNode` | pkg/heketi/client.go:94-153 | the method follows the node-addition specification |
| `Heketi.HeketiClient.RegisterNode` | pkg/heketi/client.go:122-153 | the method follows the registration specification |
| `Heketi.NewClient` | pkg/heketi/client.go:23-41 | the heketi deployment is read; on success the client has URL `http://<heketi>.<cluster>:<port>`, the admin key, and the deployment's cluster id label |
| `Update.DiffGlusterNodeVolume` | pkg/controller/update.go:221-249 | no update iff both volumes exist and agree on every compared field, or both are nil at index 0; otherwise the update names both volumes and the index |
| `Update.CommonUpdatesSpec` | pkg/controller/update.go:131-136 | over the common prefix, one entry per changed index, in ascending order, carrying that index's volumes |
| `Update.TrailingUpdatesSpec` | pkg/controller/update.go:138-157 | past the shorter list, one entry per index with the one volume that exists |
| `Update.Layout` | pkg/controller/update.go:119-158 | the update list is the state entry, then the common entries, then the trailing ones |
| `Update.StateEntryFirst` | pkg/controller/update.go:123-126 | the state flag is set on the first entry exactly when the state volume changed |
| `Update.DeviceEntriesChanged` | pkg/controller/update.go:131-157 | every device entry is a real change at a valid index |
| `Update.DeviceEntriesAscending` | pkg/controller/update.go:131-157 | device entries are in strictly ascending index order |
| `Update.DeviceEntriesComplete` | pkg/controller/update.go:131-157 | every changed device index has an entry |
| `Update.TrailingEntries` | pkg/controller/update.go:138-157 | the tail lists the added devices, or the removed ones, in order |
| `Update.SameNodeNoUpdates` | pkg/controller/update.go:119-160 | an unchanged node yields no update |
| `Update.WipeListSpec` | pkg/controller/update.go:189-195 | every update with a new volume has its `/dev/<name>` in the wipe list, every listed path comes from such an update, and the list is no longer than the updates |
| `Update.WipeListSingle` | pkg/controller/update.go:192-194 | one update contributes its new volume's `/dev/<name>`, or nothing when it has no new volume |
| `Update.WipeListAppend` | pkg/controller/update.go:190-195 | the wipe list of two runs of updates is the first's followed by the second's: one path per update with a new volume, in update order, repeats kept |
| `Update.WipeListMissesMountedPaths` | pkg/controller/update.go:193 | no path wiped after an update is a path init mounted a device at |
| `Update.WipePathIsNotMounted` | pkg/controller/update.go:193 | `/dev/<a>` never equals `/dev/gluster/<b>` for a name without `/` |
| `Update.StateEntry` | pkg/controller/update.go:123-126 | builds the state entry as specified |
| `Update.CommonEntries` | pkg/controller/update.go:131-136 | the loop over the common prefix builds the common entries |
| `Update.PastShorterEntries` | pkg/controller/update.go:138-157 | the loops past the shorter list build the trailing entries |
| `Update.BuildUpdateVolumes` | pkg/controller/update.go:119-158 | builds the whole update list |
| `Update.CollectWipeList` | pkg/controller/update.go:190-195 | the loop builds the wipe list |
| `Update.Rewired` | pkg/controller/update.go:176-177 | the rewired deployment takes the node's volumes and container-0 devices and keeps everything else |
| `Update.RedeployOutcome` | pkg/controller/update.go:176-199 | a redeploy succeeds only if both container lists are non-empty |
| `Update.RedeployWaitsForNewGeneration` | pkg/controller/update.go:179-187 | after an update that changes the pod template, the wait is on the returned deployment at the next generation, which no status observed at the old generation completes; without wipe its outcome is the redeploy's |
| `Update.RedeployConflict` | pkg/controller/update.go:179-183 | a conflict on the write-back is returned after the one update request, with nothing waited for, wiped or stored |
| `Update.NewNodes` | pkg/controller/update.go:51-58 | the nodes to deploy are exactly those past the old list's end, in order |
| `Update.UnchangedNodeUntouched` | pkg/controller/update.go:160 | an empty update list changes nothing and calls nothing, and so does updating a node to itself |
| `Update.VolumesUpdateKeeps` | pkg/controller/update.go:251-262 | applying updates keeps every stored object, and removals alone change nothing |
| `Update.UpdateStoresRewired` | pkg/controller/update.go:162-183 | a successful node update stores the rewired deployment, differing only in the generation the server stamps |
| `Update.UpdateOffersNewDevices` | pkg/controller/update.go:201-215 | a successful node update reads the heketi node by its id label and offers it exactly the new pod's unknown device paths |
| `Update.WalkOverEqualListsIsIdle` | pkg/controller/update.go:43-49 | walking equal node lists updates nothing |
| `Update.DeployAllFirstError` | pkg/controller/update.go:62-82 | all deploys run, and the error returned is the first one |
| `Update.EarlierErrorSkipsRegistration` | pkg/controller/update.go:78-97 | a deploy error is returned before heketi is contacted |
| `Update.FirstPassConfigError` | pkg/controller/update.go:25-37 | on first deploy a config error is returned, heketi is untouched, and the heketi and storage deployments still ran |
| `Update.UpdateGlusterNodeVolume` | pkg/controller/update.go:251-262 | creates the new volume's resources, if any |
| `Update.UpdateNodeVolumes` | pkg/controller/update.go:170-174 | applies the updates in order, stopping at the first error |
| `Update.Redeploy` | pkg/controller/update.go:176-199 | rewire, update, wait on the deployment the update returned, and wipe when asked, as specified |
| `Update.RefreshDevices` | pkg/controller/update.go:201-215 | new client, node info, then the device loop, as specified |
| `Update.UpdateGlusterNode` | pkg/controller/update.go:119-219 | the node update follows its specification |
| `Update.HeketiSetup` | pkg/controller/update.go:26-36 | heketi configuration, then the heketi node's deploy, with the first error |
| `Update.DeployAll` | pkg/controller/update.go:62-71 | deploys every node, keeping the first error |
| `Update.Launch` | pkg/controller/update.go:62-71 | one goroutine of the deploy pass: the rest of the pass from the next node gives what the pass from this node gives |
| `Update.WalkNodes` | pkg/controller/update.go:42-49 | updates each changed common node, stopping at the first error |
| `Update.WalkSlot` | pkg/controller/update.go:43-48 | one slot of the walk: an error is the walk's outcome, otherwise the rest of the walk gives what the walk from this slot gives |
| `Update.SelectNewNodes` | pkg/controller/update.go:51-58 | collects the nodes past the old list's end |
| `Update.RegisterNodes` | pkg/controller/update.go:93-97 | adds each new node to heketi, stopping at the first error |
| `Update.Finish` | pkg/controller/update.go:62-97 | deploy pass, then client, cluster and nodes |
| `Update.UpdateGlusterCluster` | pkg/controller/update.go:16-110 | the cluster update follows its specification |
| `Controller.Classify` | pkg/controller/controller.go:172-238 | only a cached item whose version and spec both differ from the old one is reconciled; an item without a new object is removed or crashes, and crashes exactly when its old object has no spec or asks for cascade |
| `Controller.OnAdd` | pkg/controller/controller.go:80-86 | an added cluster is never a no-op or a status-only change |
| `Controller.OnUpdate` | pkg/controller/controller.go:87-93 | an update with equal resource versions is a no-op whatever the cache holds |
| `Controller.OnDelete` | pkg/controller/controller.go:94-100 | a deletion is removed when the old object has a spec without cascade, and crashes otherwise |
| `Controller.DeployedStatus` | pkg/controller/controller.go:228 | the written status says deployed |
| `Controller.Deployed` | pkg/controller/controller.go:215-229 | the status write keeps metadata and spec and sets deployed |
| `Controller.ReconcileOutcome` | pkg/controller/controller.go:208-231 | a status write happens only on success and is the single deployed write; no write means an error |
| `Controller.QueueEvents` | pkg/controller/controller.go:240-250 | a panicking pass yields no event at all; otherwise Done comes last; an item is requeued iff uncached or failed without a panic, and forgotten iff dropped or reconciled |
| `Controller.PanicLeavesQueue` | pkg/controller/controller.go:235-251 | a closure that panicked has forgotten nothing and `work` tells the queue nothing |
| `Controller.WorkQueue.Get` | pkg/controller/controller.go:141-145 | takes the head item, or reports shutdown on an empty closing queue |
| `Controller.WorkQueue.Forget` | pkg/controller/controller.go:240 | logs a forget |
| `Controller.WorkQueue.AddRateLimited` | pkg/controller/controller.go:247 | logs a requeue |
| `Controller.WorkQueue.Done` | pkg/controller/controller.go:250 | logs done |
| `Controller.Controller.UpdateStatus` | pkg/controller/update.go:264-286 | the status write lands, or fails and changes nothing |
| `Controller.Controller.ReconcileItem` | pkg/controller/controller.go:208-231 | init both clusters, update, then the status write, as specified |
| `Controller.Controller.InitVersion` | pkg/controller/controller.go:208-213 | a version of the item is initialized: nil stays nil, otherwise the derived cluster |
| `Controller.Controller.Process` | pkg/controller/controller.go:147-243 | the filter chain: filtered items change nothing and are forgotten unless no-op, uncached or crashing; the crashing removal is the one filtered item that panics; reconciled items follow the specification and are forgotten on success |
| `Controller.Controller.Handle` | pkg/controller/controller.go:147-251 | the queue events are exactly `QueueEvents` for the item's class and result, and the pass reports a panic exactly when it panicked |
| `Controller.Controller.Report` | pkg/controller/controller.go:245-251 | after a panic the queue is untouched; otherwise a failure is retried, then Done, completing `QueueEvents` |
| `Controller.Controller.Work` | pkg/controller/controller.go:135-252 | a closed empty queue stops the worker; otherwise the head item is handled, and the worker goes on unless the pass panicked |
| `Controller.StaleMeansLaterInCache` | pkg/controller/controller.go:191-195 | a stale item's cached version differs and is not smaller |
| `Controller.CachedVersionIsReconciled` | pkg/controller/controller.go:172-213 | a cached, version-current item with a changed spec is reconciled |
| `Controller.StringOrderDropsLaterVersion` | pkg/controller/controller.go:192 | an added cluster at version "100" is dropped as stale when the cache holds "99" |
| `Controller.ForgottenIffDeployed` | pkg/controller/controller.go:224-251 | status is written iff the update succeeded and the status write did not fail; the item is forgotten iff deployed was written and requeued iff not |
| `Wiring.InitializedVolumes` | pkg/controller/init.go:451-467 | a storage pod's volumes are the defaults', then the state and kernel-modules claims, then one claim per device, all in the node's namespace |
| `Wiring.DeployedPodClaimsExist` | pkg/controller/deploy.go:81-90 | every claim init wires into a storage pod exists after a successful deploy |
| `Wiring.NodeGroupLabel` | pkg/controller/init.go:430-435 | a storage pod's `anthill` label is `<cluster>-node`, or `gluster-node` when the cluster is named `anthill` |
| `Wiring.ServiceSelectsEveryNode` | pkg/controller/objects.go:39-41 | the cluster service selects the heketi pod and every storage pod unless the cluster is named `anthill` |
| `Wiring.ClusterNamedAnthillIsNotSelected` | pkg/controller/init.go:430-435 | a cluster named `anthill` selects none of its storage pods |
| `Wiring.OfferedDevicesEndWithInitPaths` | pkg/controller/init.go:509-514 | container 0's device paths end with `/dev/gluster/<device>` for each device, in order |

## Left out

- Concurrency: the goroutines and channel of `updateGlusterCluster` run sequentially in launch order, so another interleaving's first error is not modelled. The controller mutex (controller.go:205-206), `Run`, `runWorker` and the informer and event plumbing of `New` are left out.
- The type assertions on work items (controller.go:154-170): items are typed `Option<GlusterCluster>`, so the invalid-item branches cannot occur.
- The process-wide effect of a panic: the model stops the worker that panicked (verdict `Crashes`, or a `Crash` error from a reconciling pass); what `HandleCrash` does to the rest of the process is left out.
- The recorder event and all `glog` output.
- `updateGlusterClusterStatus` retries on conflict; the model makes one attempt that succeeds or fails. The aliasing through which `newCluster.Status` shares the informer's status object is not modelled.
- `wait.Poll` timing: a wait is a sequence of observations of the deployment, at most one per two seconds of timeout.
- The exec transport of `wipeDevices` (rest config copy, `setConfigDefaults`, stdin and stdout streams): an exec is a request that succeeds or fails.
- `mergo.Map` failure and the full default documents: merging fills only the fields the controller reads, and never fails.
- `json.Marshal` is the `encoded` parameter. Resource quantities are compared as text.
- `reflect.DeepEqual` does not tell nil from empty slices here.
- The API server's own behaviour beyond the generation of deployments: other kinds are stored as sent, without defaulting, resource versions or status.
- `Node.devices` holds volumes, not pointers, so a nil device entry, on which init's device loop would panic (init.go:323-327), cannot be written down.
- `Heketi.HeketiClient.CreateCluster`: after a failed label write the client keeps the labelled deployment, where Go stores the object `Update` returned with the error; the caller stops at that error, so nothing reads it.
- The heketi REST protocol and authentication: `HeketiServer` keeps a topology and hands out fresh ids.
- `createDeviceVolume` (create.go:150-159) is not called by the core; `CreateVolumeResources` on the device is what it does.
- Node removal, volume removal and "bring down node" are TODO branches in the source and do nothing here too. The commented-out `deployGlusterCluster` in deploy.go is not modelled.
- The blocking `Get` on a live empty queue: `Controller.WorkQueue.Get` requires an item or a closing queue. The rate-limit delay of a requeue is recorded only as an event.
- `Objects.PollBudget`: states the bounds and the no-limit case, not the exact count for a positive timeout.
- `Create.HeketiConfigOutcome`: its own contract covers only the encoding failure. The chain it then runs is stated by the lemmas on `EnsureAll`.
- `Create.MountVolumesOutcome`: its own contract covers only the missing state volume. The success path is stated by `Deploy.PreparedNodeHasClaims`.
- `Update.RedeployOutcome`: its own contract covers only the precondition of success. What a successful redeploy stores is stated by `Update.UpdateStoresRewired`.
