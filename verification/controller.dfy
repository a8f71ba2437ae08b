/** The work loop of pkg/controller/controller.go: a work item carries the old
    and the new version of a GlusterCluster as the informer saw them; `work`
    takes one item off the queue, filters out events that need no
    reconciliation, reconciles the rest, and tells the queue whether to
    forget the item or to retry it. */
module Controller {
  import opened Types
  import opened Text
  import opened Init
  import opened Heketi
  import opened Api
  import opened Update

  /** The old and the new version of a cluster; None where the event has
      none (an add has no old version, a delete no new one). */
  datatype WorkItem = WorkItem(oldCluster: Option<GlusterCluster>, newCluster: Option<GlusterCluster>)

  /** How `work` treats an item. */
  datatype Verdict =
    | NoOp          // both versions have the same resource version
    | NotCached     // the lister has no cluster under the new version's name
    | Stale         // the lister holds a later resource version
    | SpecUnchanged // only the status changed
    | Reconcile
    | Removed       // no new version: nothing is reconciled
    | Crashes       // no new version, and the old one cascades or has no spec: the removal branch panics

  /** Where the lister finds a cluster. */
  datatype ClusterRef = ClusterRef(namespace: string, name: string)

  function RefOf(gc: GlusterCluster): ClusterRef
  {
    ClusterRef(gc.meta.namespace, gc.meta.name)
  }

  /** The filter chain of `work`, given the lister's cache. Resource
      versions are compared as Go compares strings. */
  function Classify(lister: map<ClusterRef, GlusterCluster>, item: WorkItem): (v: Verdict)
    ensures v == Reconcile ==>
      && item.newCluster.Some? && RefOf(item.newCluster.value) in lister
      && (item.oldCluster.Some? ==> item.oldCluster.value.meta.resourceVersion != item.newCluster.value.meta.resourceVersion
                                    && item.oldCluster.value.spec != item.newCluster.value.spec)
    ensures v in {Removed, Crashes} <==> item.newCluster.None?
    ensures v == Crashes <==>
      item.newCluster.None? && item.oldCluster.Some? && (item.oldCluster.value.spec.None? || item.oldCluster.value.spec.value.cascade)
  {
    if item.oldCluster.Some? && item.newCluster.Some?
       && item.oldCluster.value.meta.resourceVersion == item.newCluster.value.meta.resourceVersion then NoOp
    else if item.newCluster.None? then
      // Reading a nil spec panics; a cascading one reaches the log line that
      // reads the name of the never-initialized oldCluster, which panics too.
      if item.oldCluster.Some? && (item.oldCluster.value.spec.None? || item.oldCluster.value.spec.value.cascade) then Crashes
      else Removed
    else
      var n := item.newCluster.value;
      if RefOf(n) !in lister then NotCached
      else if Less(n.meta.resourceVersion, lister[RefOf(n)].meta.resourceVersion) then Stale
      else if item.oldCluster.Some? && n.spec == item.oldCluster.value.spec then SpecUnchanged
      else Reconcile
  }

  // ---------------------------------------------------------------------------
  // The event handlers of New.

  function OnAdd(c: GlusterCluster): (item: WorkItem)
    ensures item.oldCluster.None? && item.newCluster == Some(c)
    ensures forall lister :: Classify(lister, item) != NoOp && Classify(lister, item) != SpecUnchanged
  {
    WorkItem(None, Some(c))
  }

  function OnUpdate(oldC: GlusterCluster, newC: GlusterCluster): (item: WorkItem)
    ensures item.oldCluster == Some(oldC) && item.newCluster == Some(newC)
    ensures oldC.meta.resourceVersion == newC.meta.resourceVersion ==> forall lister :: Classify(lister, item) == NoOp
  {
    WorkItem(Some(oldC), Some(newC))
  }

  function OnDelete(oldC: GlusterCluster): (item: WorkItem)
    ensures item.oldCluster == Some(oldC) && item.newCluster.None?
    ensures forall lister :: Classify(lister, item) == (if oldC.spec.Some? && !oldC.spec.value.cascade then Removed else Crashes)
  {
    WorkItem(Some(oldC), None)
  }

  // ---------------------------------------------------------------------------
  // Reconciliation.

  /** The status `work` writes: the new version's own status, or a fresh
      one, marked deployed. */
  function DeployedStatus(n: GlusterCluster): (s: ClusterStatus)
    ensures s.deployed
  {
    (if n.status.Some? then n.status.value else ClusterStatus(false)).(deployed := true)
  }

  /** The new version of the cluster as the status update writes it. */
  function Deployed(n: GlusterCluster): (r: GlusterCluster)
    ensures r.meta == n.meta && r.spec == n.spec && r.status == Some(ClusterStatus(true))
  {
    n.(status := Some(DeployedStatus(n)))
  }

  /** The initialized versions of a work item's clusters. */
  ghost predicate Initialized(raw: Option<GlusterCluster>, r: Option<GlusterCluster>)
  {
    (raw.None? && r.None?) || (raw.Some? && r.Some? && ClusterDerived(raw.value, r.value) && Defaulted(r.value))
  }

  datatype Pass = Pass(backend: Backend, writes: seq<GlusterCluster>, err: Option<Error>)

  /** A reconciling pass over the initialized versions of the cluster: the
      update, then the status write of the new version, which fails for the
      clusters in `statusFailing`. */
  function ReconcileOutcome(env: Env, f: set<RemoteOp>, encoded: Option<string>, b: Backend, statusFailing: set<ClusterRef>,
                            oldInit: Option<GlusterCluster>, newInit: GlusterCluster, n: GlusterCluster): (p: Pass)
    requires Updatable(newInit) && (oldInit.Some? ==> oldInit.value.spec.Some?)
    ensures p.writes != [] ==> p.writes == [Deployed(n)] && p.err.None?
    ensures p.writes == [] ==> p.err.Some?
  {
    var u := UpdateClusterOutcome(env, f, encoded, b, oldInit, newInit);
    if u.err.Some? then Pass(u.backend, [], u.err)
    else if RefOf(n) in statusFailing then Pass(u.backend, [], Some(StatusWriteFailed(n.meta.name)))
    else Pass(u.backend, [Deployed(n)], None)
  }

  // ---------------------------------------------------------------------------
  // The queue.

  datatype QueueEvent = Forgot(item: WorkItem) | Requeued(item: WorkItem) | Finished(item: WorkItem)

  /** A pass panics: the removal branch of verdict Crashes, or a
      reconciling pass that ends in a Go panic. */
  predicate Panics(v: Verdict, err: Option<Error>)
  {
    v == Crashes || (v == Reconcile && err.Some? && err.value.Crash?)
  }

  /** What `work` tells the queue about an item of verdict v; `err` is the
      outcome of a reconciling pass. A panic unwinds past `work` before the
      queue hears anything. */
  function QueueEvents(item: WorkItem, v: Verdict, err: Option<Error>): (r: seq<QueueEvent>)
    ensures Panics(v, err) <==> r == []
    ensures r != [] ==> r[|r| - 1] == Finished(item)
    ensures Requeued(item) in r <==> v == NotCached || (v == Reconcile && err.Some? && !err.value.Crash?)
    ensures Forgot(item) in r <==> v in {Stale, SpecUnchanged, Removed} || (v == Reconcile && err.None?)
  {
    match v
    case NoOp => [Finished(item)]
    case NotCached => [Requeued(item), Finished(item)]
    case Stale => [Forgot(item), Finished(item)]
    case SpecUnchanged => [Forgot(item), Finished(item)]
    case Removed => [Forgot(item), Finished(item)]
    case Crashes => []
    case Reconcile =>
      if err.None? then [Forgot(item), Finished(item)]
      else if err.value.Crash? then []
      else [Requeued(item), Finished(item)]
  }

  /** The Forget the closure of `work` has issued for an item of verdict v
      whose closure returned err. */
  function Forgotten(item: WorkItem, v: Verdict, err: Option<Error>): seq<QueueEvent>
  {
    if v == Reconcile then (if err.None? then [Forgot(item)] else [])
    else if v in {Stale, SpecUnchanged, Removed} then [Forgot(item)] else []
  }

  /** The retry `work` adds after a failed closure. */
  function Retried(item: WorkItem, err: Option<Error>): seq<QueueEvent>
  {
    if err.Some? then [Requeued(item)] else []
  }

  /** The events of one pass: the closure's Forget, the retry, then Done. */
  lemma EventsAfterProcess(item: WorkItem, v: Verdict, err: Option<Error>)
    requires v != Crashes && (v != Reconcile ==> (err.Some? <==> v == NotCached))
    requires !(err.Some? && err.value.Crash?)
    ensures Forgotten(item, v, err) + Retried(item, err) + [Finished(item)]
      == QueueEvents(item, v, if v == Reconcile then err else None)
  {
  }

  /** A closure that panicked has issued no queue call, and nothing after
      it reaches the queue. */
  lemma PanicLeavesQueue(item: WorkItem, v: Verdict, err: Option<Error>)
    requires err.Some? && err.value.Crash?
    requires v != Reconcile ==> v == Crashes
    ensures Forgotten(item, v, err) == []
    ensures QueueEvents(item, v, if v == Reconcile then err else None) == []
    ensures Panics(v, err)
  {
  }

  /** The rate-limited work queue, as far as `work` uses it. */
  class WorkQueue {
    var pending: seq<WorkItem>
    var shuttingDown: bool
    var events: seq<QueueEvent>

    constructor (items: seq<WorkItem>, closing: bool)
      ensures pending == items && shuttingDown == closing && events == []
    {
      pending := items;
      shuttingDown := closing;
      events := [];
    }

    /** The next item; None once the queue is shutting down and empty. A
        live empty queue blocks, which callers cannot observe here. */
    method Get() returns (item: Option<WorkItem>)
      requires pending != [] || shuttingDown
      modifies this
      ensures old(pending) == [] ==> item.None? && pending == []
      ensures old(pending) != [] ==> item == Some(old(pending)[0]) && pending == old(pending)[1..]
      ensures shuttingDown == old(shuttingDown) && events == old(events)
    {
      if pending == [] {
        return None;
      }
      item := Some(pending[0]);
      pending := pending[1..];
    }

    method Forget(item: WorkItem)
      modifies this
      ensures events == old(events) + [Forgot(item)]
      ensures pending == old(pending) && shuttingDown == old(shuttingDown)
    {
      events := events + [Forgot(item)];
    }

    method AddRateLimited(item: WorkItem)
      modifies this
      ensures events == old(events) + [Requeued(item)]
      ensures pending == old(pending) && shuttingDown == old(shuttingDown)
    {
      events := events + [Requeued(item)];
    }

    method Done(item: WorkItem)
      modifies this
      ensures events == old(events) + [Finished(item)]
      ensures pending == old(pending) && shuttingDown == old(shuttingDown)
    {
      events := events + [Finished(item)];
    }
  }

  // ---------------------------------------------------------------------------
  // The controller.

  class Controller {
    const api: KubeApi
    const server: HeketiServer
    const queue: WorkQueue
    /** The lister's cache of clusters. */
    const lister: map<ClusterRef, GlusterCluster>
    /** The clusters whose status update fails. */
    const statusFailing: set<ClusterRef>
    /** The clusters written back by status updates, in order. */
    var statusWrites: seq<GlusterCluster>

    constructor (api: KubeApi, server: HeketiServer, queue: WorkQueue, lister: map<ClusterRef, GlusterCluster>, statusFailing: set<ClusterRef>)
      ensures this.api == api && this.server == server && this.queue == queue
      ensures this.lister == lister && this.statusFailing == statusFailing && statusWrites == []
    {
      this.api := api;
      this.server := server;
      this.queue := queue;
      this.lister := lister;
      this.statusFailing := statusFailing;
      statusWrites := [];
    }

    /** updateGlusterClusterStatus, as one attempt. */
    method UpdateStatus(n: GlusterCluster, status: ClusterStatus) returns (err: Option<Error>)
      modifies this
      ensures RefOf(n) in statusFailing ==> err == Some(StatusWriteFailed(n.meta.name)) && statusWrites == old(statusWrites)
      ensures RefOf(n) !in statusFailing ==> err.None? && statusWrites == old(statusWrites) + [n.(status := Some(status))]
    {
      if RefOf(n) in statusFailing {
        return Some(StatusWriteFailed(n.meta.name));
      }
      statusWrites := statusWrites + [n.(status := Some(status))];
      err := None;
    }

    /** The reconciling branch of `work`: both versions are initialized,
        the cluster is updated, and only then is the status written. */
    method ReconcileItem(item: WorkItem, encoded: Option<string>) returns (err: Option<Error>, ghost oldInit: Option<GlusterCluster>, ghost newInit: Option<GlusterCluster>)
      requires item.newCluster.Some?
      modifies this, api, server
      ensures Initialized(item.oldCluster, oldInit) && Initialized(item.newCluster, newInit)
      ensures var p := ReconcileOutcome(api.env, server.failing, encoded, old(Observe(api, server)), statusFailing,
                                        oldInit, newInit.value, item.newCluster.value);
        && Observe(api, server) == p.backend
        && statusWrites == old(statusWrites) + p.writes
        && err == p.err
    {
      var n := item.newCluster.value;
      var o := InitVersion(item.oldCluster);
      var c := InitVersion(item.newCluster);
      oldInit, newInit := o, c;
      var status := if n.status.Some? then n.status.value else ClusterStatus(false);
      err := UpdateGlusterCluster(api, server, encoded, o, c.value);
      if err.Some? {
        return;
      }
      status := status.(deployed := true);
      err := UpdateStatus(n, status);
    }

    /** One version of the item, initialized. */
    static method InitVersion(raw: Option<GlusterCluster>) returns (r: Option<GlusterCluster>)
      ensures Initialized(raw, r)
    {
      r := InitGlusterCluster(raw);
      if r.Some? {
        DerivedIsDefaulted(raw.value, r.value);
      }
    }

    /** The closure inside `work`: the filter chain, the reconciling pass,
        and the Forget calls; the error it returns makes `work` retry. */
    method Process(item: WorkItem, encoded: Option<string>)
      returns (err: Option<Error>, ghost oldInit: Option<GlusterCluster>, ghost newInit: Option<GlusterCluster>, ghost p: Pass)
      modifies this, queue, api, server
      ensures queue.pending == old(queue.pending) && queue.shuttingDown == old(queue.shuttingDown)
      ensures Classify(lister, item) != Reconcile ==>
        && Observe(api, server) == old(Observe(api, server)) && statusWrites == old(statusWrites)
        && (err.Some? <==> Classify(lister, item) in {NotCached, Crashes})
        && (err.Some? && err.value.Crash? <==> Classify(lister, item) == Crashes)
        && queue.events == old(queue.events) + (if Classify(lister, item) in {Stale, SpecUnchanged, Removed} then [Forgot(item)] else [])
      ensures Classify(lister, item) == Reconcile ==>
        && Initialized(item.oldCluster, oldInit) && Initialized(item.newCluster, newInit)
        && p == ReconcileOutcome(api.env, server.failing, encoded, old(Observe(api, server)), statusFailing,
                                 oldInit, newInit.value, item.newCluster.value)
        && Observe(api, server) == p.backend
        && statusWrites == old(statusWrites) + p.writes
        && err == p.err
        && queue.events == old(queue.events) + (if err.None? then [Forgot(item)] else [])
    {
      oldInit, newInit, p := None, None, Pass(Observe(api, server), [], None);
      err := None;
      if item.oldCluster.Some? && item.newCluster.Some?
         && item.oldCluster.value.meta.resourceVersion == item.newCluster.value.meta.resourceVersion {
        // Nothing to do, and the item is not forgotten either.
        return;
      }
      if item.newCluster.None? {
        if item.oldCluster.Some? && (item.oldCluster.value.spec.None? || item.oldCluster.value.spec.value.cascade) {
          return Some(Crash("nil oldCluster")), None, None, p;
        }
        queue.Forget(item);
        return;
      }
      var n := item.newCluster.value;
      if RefOf(n) !in lister {
        return Some(LookupFailed(n.meta.name)), None, None, p;
      }
      if Less(n.meta.resourceVersion, lister[RefOf(n)].meta.resourceVersion) {
        queue.Forget(item);
        return;
      }
      if item.oldCluster.Some? && n.spec == item.oldCluster.value.spec {
        queue.Forget(item);
        return;
      }
      ghost var b0 := Observe(api, server);
      err, oldInit, newInit := ReconcileItem(item, encoded);
      p := ReconcileOutcome(api.env, server.failing, encoded, b0, statusFailing, oldInit, newInit.value, n);
      if err.None? {
        queue.Forget(item);
      }
    }

    /** The rest of `work` once an item is taken: the closure, a
        rate-limited retry when it failed, and Done; a panic in the closure
        leaves the queue as it was and stops the worker. */
    method Handle(item: WorkItem, encoded: Option<string>)
      returns (panicked: bool, ghost oldInit: Option<GlusterCluster>, ghost newInit: Option<GlusterCluster>, ghost p: Pass)
      modifies this, queue, api, server
      ensures queue.pending == old(queue.pending) && queue.shuttingDown == old(queue.shuttingDown)
      ensures Classify(lister, item) != Reconcile ==>
        && queue.events == old(queue.events) + QueueEvents(item, Classify(lister, item), None)
        && Observe(api, server) == old(Observe(api, server)) && statusWrites == old(statusWrites)
        && (panicked <==> Classify(lister, item) == Crashes)
      ensures Classify(lister, item) == Reconcile ==>
        && Initialized(item.oldCluster, oldInit) && Initialized(item.newCluster, newInit)
        && p == ReconcileOutcome(api.env, server.failing, encoded, old(Observe(api, server)), statusFailing,
                                 oldInit, newInit.value, item.newCluster.value)
        && Observe(api, server) == p.backend
        && statusWrites == old(statusWrites) + p.writes
        && queue.events == old(queue.events) + QueueEvents(item, Reconcile, p.err)
        && (panicked <==> Panics(Reconcile, p.err))
    {
      ghost var events := queue.events;
      var err;
      err, oldInit, newInit, p := Process(item, encoded);
      panicked := Report(item, Classify(lister, item), err, events);
    }

    /** The end of `work` once the closure is over: a panic leaves the queue
        alone; otherwise a rate-limited retry when the closure failed, then
        Done. `before` is the queue's history before the closure, which
        forgot the item or not as its verdict `v` and error say. */
    method Report(item: WorkItem, ghost v: Verdict, err: Option<Error>, ghost before: seq<QueueEvent>) returns (panicked: bool)
      requires v != Reconcile ==> (err.Some? <==> v in {NotCached, Crashes}) && (err.Some? && err.value.Crash? <==> v == Crashes)
      requires queue.events == before + Forgotten(item, v, err)
      modifies queue
      ensures queue.events == before + QueueEvents(item, v, if v == Reconcile then err else None)
      ensures panicked <==> Panics(v, err)
      ensures queue.pending == old(queue.pending) && queue.shuttingDown == old(queue.shuttingDown)
    {
      if err.Some? && err.value.Crash? {
        PanicLeavesQueue(item, v, err);
        return true;
      }
      if err.Some? {
        queue.AddRateLimited(item);
      }
      queue.Done(item);
      EventsAfterProcess(item, v, err);
      assert queue.events == before + (Forgotten(item, v, err) + Retried(item, err) + [Finished(item)]);
      panicked := false;
    }

    /** One pass of `work`; `encoded` is the outcome of encoding the heketi
        configuration of the item's new version. The ghost results are the
        initialized versions of a reconciled item and the outcome of its
        reconciling pass. */
    method Work(encoded: Option<string>)
      returns (more: bool, ghost oldInit: Option<GlusterCluster>, ghost newInit: Option<GlusterCluster>, ghost p: Pass)
      requires queue.pending != [] || queue.shuttingDown
      modifies this, queue, api, server
      ensures old(queue.pending) == [] ==>
        && !more && queue.events == old(queue.events)
        && Observe(api, server) == old(Observe(api, server)) && statusWrites == old(statusWrites)
      ensures old(queue.pending) != [] ==> queue.pending == old(queue.pending)[1..]
      ensures old(queue.pending) != [] && Classify(lister, old(queue.pending)[0]) != Reconcile ==>
        var item := old(queue.pending)[0];
        && queue.events == old(queue.events) + QueueEvents(item, Classify(lister, item), None)
        && Observe(api, server) == old(Observe(api, server)) && statusWrites == old(statusWrites)
        && (more <==> Classify(lister, item) != Crashes)
      ensures old(queue.pending) != [] && Classify(lister, old(queue.pending)[0]) == Reconcile ==>
        var item := old(queue.pending)[0];
        && Initialized(item.oldCluster, oldInit) && Initialized(item.newCluster, newInit)
        && p == ReconcileOutcome(api.env, server.failing, encoded, old(Observe(api, server)), statusFailing,
                                 oldInit, newInit.value, item.newCluster.value)
        && Observe(api, server) == p.backend
        && statusWrites == old(statusWrites) + p.writes
        && queue.events == old(queue.events) + QueueEvents(item, Reconcile, p.err)
        && (more <==> !Panics(Reconcile, p.err))
    {
      var next := queue.Get();
      if next.None? {
        return false, None, None, Pass(Observe(api, server), [], None);
      }
      var panicked;
      panicked, oldInit, newInit, p := Handle(next.value, encoded);
      more := !panicked;
    }
  }

  // ---------------------------------------------------------------------------
  // Properties of the filter.

  /** A stale item's cached version is strictly later, as strings. */
  lemma StaleMeansLaterInCache(lister: map<ClusterRef, GlusterCluster>, item: WorkItem)
    requires Classify(lister, item) == Stale
    ensures item.newCluster.Some? && RefOf(item.newCluster.value) in lister
    ensures var cached := lister[RefOf(item.newCluster.value)].meta.resourceVersion;
      var rv := item.newCluster.value.meta.resourceVersion;
      cached != rv && !Less(cached, rv)
  {
    var cached := lister[RefOf(item.newCluster.value)].meta.resourceVersion;
    var rv := item.newCluster.value.meta.resourceVersion;
    LessAsymmetric(rv, cached);
    LessIrreflexive(rv);
  }

  /** An item whose new version is the one the lister holds is not stale,
      and with a changed spec it is reconciled. */
  lemma CachedVersionIsReconciled(lister: map<ClusterRef, GlusterCluster>, item: WorkItem)
    requires item.newCluster.Some? && RefOf(item.newCluster.value) in lister
    requires lister[RefOf(item.newCluster.value)].meta.resourceVersion == item.newCluster.value.meta.resourceVersion
    requires item.oldCluster.Some? ==>
      (item.oldCluster.value.meta.resourceVersion != item.newCluster.value.meta.resourceVersion
       && item.oldCluster.value.spec != item.newCluster.value.spec)
    ensures Classify(lister, item) == Reconcile
  {
    LessIrreflexive(item.newCluster.value.meta.resourceVersion);
  }

  /** Resource versions compared as strings: a cache still at version "99"
      makes an event for version "100" look stale, and it is forgotten. */
  lemma StringOrderDropsLaterVersion(lister: map<ClusterRef, GlusterCluster>, n: GlusterCluster)
    requires RefOf(n) in lister
    requires n.meta.resourceVersion == "100" && lister[RefOf(n)].meta.resourceVersion == "99"
    ensures Classify(lister, OnAdd(n)) == Stale
  {
    DecimalOrderDisagrees();
  }

  /** A reconciling pass writes the status exactly when the update
      succeeded and the write goes through, and forgets its item exactly
      when the status was written; otherwise the item is retried. */
  lemma ForgottenIffDeployed(env: Env, f: set<RemoteOp>, encoded: Option<string>, b: Backend, statusFailing: set<ClusterRef>,
                             oldInit: Option<GlusterCluster>, newInit: GlusterCluster, item: WorkItem)
    requires Updatable(newInit) && (oldInit.Some? ==> oldInit.value.spec.Some?) && item.newCluster.Some?
    ensures var p := ReconcileOutcome(env, f, encoded, b, statusFailing, oldInit, newInit, item.newCluster.value);
      && (p.writes != [] <==> UpdateClusterOutcome(env, f, encoded, b, oldInit, newInit).err.None? && RefOf(item.newCluster.value) !in statusFailing)
      && (Forgot(item) in QueueEvents(item, Reconcile, p.err) <==> p.writes == [Deployed(item.newCluster.value)])
      && (Requeued(item) in QueueEvents(item, Reconcile, p.err) <==> p.writes == [] && !p.err.value.Crash?)
  {
    var p := ReconcileOutcome(env, f, encoded, b, statusFailing, oldInit, newInit, item.newCluster.value);
    assert p.writes == [] || p.writes == [Deployed(item.newCluster.value)];
  }
}
