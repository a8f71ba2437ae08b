/** The Kubernetes API as the controller sees it: a name-keyed object table,
    a log of the requests that change something, and the answers the cluster
    gives that the controller cannot influence (which requests are refused,
    what rollouts report, which pods run, which commands fail). */
module Api {
  import opened Types
  import opened Objects

  datatype Request =
    | CreateRequest(key: ObjectKey)
    | UpdateRequest(key: ObjectKey)
    | ExecRequest(pod: string, command: seq<string>)

  datatype Pod = Pod(name: string, namespace: string, labels: Labels)

  /** `failing`: keys every request for fails (read, create or update);
      `conflicting`: keys whose updates the server refuses with a conflict
      although reads of them succeed. */
  datatype Env = Env(
    failing: set<ObjectKey>,
    conflicting: set<ObjectKey>,
    rollouts: map<ObjectKey, seq<Poll>>,
    pods: seq<Pod>,
    listFailing: set<string>,
    execFailing: set<seq<string>>)

  datatype World = World(objects: map<ObjectKey, Object>, requests: seq<Request>)

  datatype Outcome = Outcome(world: World, err: Option<Error>)

  /** What a deployment's generation counts: changes of its desired state. */
  predicate SameDesired(a: Deployment, b: Deployment)
  {
    a.replicas == b.replicas && a.selector == b.selector && a.template == b.template
  }

  /** a is b with the generation the server gave it. */
  predicate AsAdmitted(a: Deployment, b: Deployment)
  {
    a == b.(meta := b.meta.(generation := a.meta.generation))
  }

  /** The object the server stores, and returns, for a write of o over the
      object stored before (None for a create). The server owns a
      deployment's generation: 1 when it is created, and on a replacement
      the stored one, plus one when the desired state changed; the
      generation the request carries is ignored. The controller reads no
      server-set field of the other kinds, which are kept as sent. */
  function Admitted(prior: Option<Object>, o: Object): (r: Object)
    ensures KindOf(r) == KindOf(o) && MetaOf(r).name == MetaOf(o).name
    ensures !o.DeploymentObject? ==> r == o
    ensures o.DeploymentObject? ==> r.DeploymentObject? && AsAdmitted(r.deployment, o.deployment)
    ensures o.DeploymentObject? && prior.None? ==> r.deployment.meta.generation == 1
    ensures o.DeploymentObject? && prior.Some? && prior.value.DeploymentObject? ==>
      var before := prior.value.deployment.meta.generation;
      r.deployment.meta.generation == (if SameDesired(prior.value.deployment, o.deployment) then before else before + 1)
  {
    if !o.DeploymentObject? then o
    else
      var d := o.deployment;
      var g := if prior.Some? && prior.value.DeploymentObject? then
          var p := prior.value.deployment;
          if SameDesired(p, d) then p.meta.generation else p.meta.generation + 1
        else 1;
      DeploymentObject(d.(meta := d.meta.(generation := g)))
  }

  /** A create request: refused when its key fails, AlreadyExists when an
      object is stored under the key, otherwise stored as admitted. */
  function CreateRaw(env: Env, w: World, namespace: string, o: Object): Outcome
  {
    var key := KeyOf(namespace, o);
    var logged := w.requests + [CreateRequest(key)];
    if key in env.failing then Outcome(w.(requests := logged), Some(ApiFailure(key)))
    else if key in w.objects then Outcome(w.(requests := logged), Some(AlreadyExists(key)))
    else Outcome(World(w.objects[key := Admitted(None, o)], logged), None)
  }

  /** An update request replaces a stored object with the admitted one; it
      can be refused with a conflict although the object is there. */
  function UpdateRaw(env: Env, w: World, namespace: string, o: Object): Outcome
  {
    var key := KeyOf(namespace, o);
    var logged := w.requests + [UpdateRequest(key)];
    if key in env.failing then Outcome(w.(requests := logged), Some(ApiFailure(key)))
    else if key !in w.objects then Outcome(w.(requests := logged), Some(NotFound(key)))
    else if key in env.conflicting then Outcome(w.(requests := logged), Some(Conflict(key)))
    else Outcome(World(w.objects[key := Admitted(Some(w.objects[key]), o)], logged), None)
  }

  /** The create-or-accept of every create in pkg/controller/create.go: an
      object that already exists counts as success, any other error is
      returned. An object already stored is never replaced. */
  function Ensure(env: Env, w: World, namespace: string, o: Object): (r: Outcome)
    ensures r.err.None? <==> KeyOf(namespace, o) !in env.failing
    ensures r.err.Some? ==> r.err == Some(ApiFailure(KeyOf(namespace, o)))
    ensures r.world.requests == w.requests + [CreateRequest(KeyOf(namespace, o))]
    ensures r.err.None? ==> KeyOf(namespace, o) in r.world.objects
    ensures forall k <- w.objects :: k in r.world.objects && r.world.objects[k] == w.objects[k]
    ensures forall k <- r.world.objects :: k in w.objects || k == KeyOf(namespace, o)
  {
    var r := CreateRaw(env, w, namespace, o);
    if r.err.Some? && r.err.value.AlreadyExists? then r.(err := None) else r
  }

  /** One create of a plan: the object and the namespace of the client. */
  datatype Step = Step(namespace: string, obj: Object)

  function StepKey(s: Step): ObjectKey
  {
    KeyOf(s.namespace, s.obj)
  }

  /** A sequence of create-or-accept calls that returns at the first error. */
  function EnsureAll(env: Env, w: World, plan: seq<Step>): Outcome
    decreases |plan|
  {
    if plan == [] then Outcome(w, None)
    else
      var r := Ensure(env, w, plan[0].namespace, plan[0].obj);
      if r.err.Some? then r else EnsureAll(env, r.world, plan[1..])
  }

  /** The position of the first step whose create is refused, |plan| if none. */
  function FirstFailure(env: Env, plan: seq<Step>): (i: nat)
    ensures i <= |plan|
    ensures forall j :: 0 <= j < i ==> StepKey(plan[j]) !in env.failing
    ensures i < |plan| ==> StepKey(plan[i]) in env.failing
    decreases |plan|
  {
    if plan == [] then 0
    else if StepKey(plan[0]) in env.failing then 0
    else 1 + FirstFailure(env, plan[1..])
  }

  /** The create requests of the steps attempted: all steps up to and
      including the first refused one. */
  function Attempted(env: Env, plan: seq<Step>): (r: seq<Request>)
  {
    var n := if FirstFailure(env, plan) < |plan| then FirstFailure(env, plan) + 1 else |plan|;
    seq(n, i requires 0 <= i < n => CreateRequest(StepKey(plan[i])))
  }

  /** A plan fails exactly at its first refused step, with that step's error,
      and it attempts the steps up to that one and no later step. */
  lemma {:induction false} EnsureAllStopsAtFirstFailure(env: Env, w: World, plan: seq<Step>)
    ensures var r := EnsureAll(env, w, plan);
      && r.err == (if FirstFailure(env, plan) < |plan| then Some(ApiFailure(StepKey(plan[FirstFailure(env, plan)]))) else None)
      && r.world.requests == w.requests + Attempted(env, plan)
    decreases |plan|
  {
    if plan != [] {
      var r0 := Ensure(env, w, plan[0].namespace, plan[0].obj);
      if r0.err.None? {
        EnsureAllStopsAtFirstFailure(env, r0.world, plan[1..]);
        var n := FirstFailure(env, plan[1..]);
        assert FirstFailure(env, plan) == n + 1;
        assert n < |plan[1..]| ==> plan[1..][n] == plan[n + 1];
        AttemptedAfterAccepted(env, plan);
      } else {
        assert Attempted(env, plan) == [CreateRequest(StepKey(plan[0]))];
      }
    }
  }

  /** A plan whose first create is accepted attempts that step, then what
      the rest of the plan attempts. */
  lemma AttemptedAfterAccepted(env: Env, plan: seq<Step>)
    requires plan != [] && StepKey(plan[0]) !in env.failing
    ensures Attempted(env, plan) == [CreateRequest(StepKey(plan[0]))] + Attempted(env, plan[1..])
  {
    var n := FirstFailure(env, plan[1..]);
    assert FirstFailure(env, plan) == n + 1;
    var a := Attempted(env, plan);
    var b := [CreateRequest(StepKey(plan[0]))] + Attempted(env, plan[1..]);
    assert |a| == |b|;
    forall i | 0 <= i < |a| ensures a[i] == b[i] {
      if i > 0 {
        assert plan[1..][i - 1] == plan[i];
      }
    }
  }

  /** A plan succeeds exactly when none of its creates is refused; then every
      object it names is stored. */
  lemma {:induction false} EnsureAllSucceeds(env: Env, w: World, plan: seq<Step>)
    ensures EnsureAll(env, w, plan).err.None? <==> forall s <- plan :: StepKey(s) !in env.failing
    ensures EnsureAll(env, w, plan).err.None? ==> forall s <- plan :: StepKey(s) in EnsureAll(env, w, plan).world.objects
    decreases |plan|
  {
    if plan != [] {
      var r0 := Ensure(env, w, plan[0].namespace, plan[0].obj);
      if r0.err.None? {
        EnsureAllSucceeds(env, r0.world, plan[1..]);
        EnsureAllKeeps(env, r0.world, plan[1..]);
        assert forall s <- plan :: s == plan[0] || s in plan[1..];
      } else {
        assert plan[0] in plan;
      }
    }
  }

  /** Nothing stored before a plan runs is replaced or removed, and the plan
      adds objects only under its own keys. */
  lemma {:induction false} EnsureAllKeeps(env: Env, w: World, plan: seq<Step>)
    ensures var r := EnsureAll(env, w, plan);
      && (forall k <- w.objects :: k in r.world.objects && r.world.objects[k] == w.objects[k])
      && (forall k <- r.world.objects :: k in w.objects || exists s <- plan :: StepKey(s) == k)
    decreases |plan|
  {
    if plan != [] {
      var r0 := Ensure(env, w, plan[0].namespace, plan[0].obj);
      if r0.err.None? {
        EnsureAllKeeps(env, r0.world, plan[1..]);
        var r := EnsureAll(env, w, plan);
        forall k <- r.world.objects ensures k in w.objects || exists s <- plan :: StepKey(s) == k {
          if k !in w.objects {
            if k in r0.world.objects {
              assert StepKey(plan[0]) == k;
            } else {
              var s :| s in plan[1..] && StepKey(s) == k;
              assert s in plan;
            }
          }
        }
      }
    }
  }

  /** Running a plan again after it succeeded stores nothing new and changes
      nothing stored. */
  lemma EnsureAllIdempotent(env: Env, w: World, plan: seq<Step>)
    requires EnsureAll(env, w, plan).err.None?
    ensures var w1 := EnsureAll(env, w, plan).world;
      var r2 := EnsureAll(env, w1, plan);
      r2.err.None? && r2.world.objects == w1.objects
  {
    var w1 := EnsureAll(env, w, plan).world;
    EnsureAllSucceeds(env, w, plan);
    EnsureAllSucceeds(env, w1, plan);
    EnsureAllKeeps(env, w1, plan);
  }

  /** Running two plans one after the other is running their concatenation. */
  lemma {:induction false} EnsureAllAppend(env: Env, w: World, p1: seq<Step>, p2: seq<Step>)
    ensures var r1 := EnsureAll(env, w, p1);
      EnsureAll(env, w, p1 + p2) == if r1.err.Some? then r1 else EnsureAll(env, r1.world, p2)
    decreases |p1|
  {
    if p1 == [] {
      assert p1 + p2 == p2;
    } else {
      assert (p1 + p2)[0] == p1[0] && (p1 + p2)[1..] == p1[1..] + p2;
      var r0 := Ensure(env, w, p1[0].namespace, p1[0].obj);
      if r0.err.None? {
        EnsureAllAppend(env, r0.world, p1[1..], p2);
      }
    }
  }

  /** The error of a get of the deployment under key: refused, missing, or
      none; a get changes nothing. */
  function GetError(env: Env, w: World, key: ObjectKey): (err: Option<Error>)
    ensures err.None? <==> key !in env.failing && key in w.objects && w.objects[key].DeploymentObject?
  {
    if key in env.failing then Some(ApiFailure(key))
    else if key !in w.objects || !w.objects[key].DeploymentObject? then Some(NotFound(key))
    else None
  }

  function PodsNamed(pods: seq<Pod>, namespace: string, name: string): (r: seq<Pod>)
    ensures forall p <- r :: p in pods && p.namespace == namespace && Label(p.labels, "name") == name
    ensures forall p <- pods :: p.namespace == namespace && Label(p.labels, "name") == name ==> p in r
  {
    if pods == [] then []
    else if pods[0].namespace == namespace && Label(pods[0].labels, "name") == name
    then [pods[0]] + PodsNamed(pods[1..], namespace, name)
    else PodsNamed(pods[1..], namespace, name)
  }

  /** The observations a wait on the deployment under key gets. */
  function Polls(env: Env, key: ObjectKey): seq<Poll>
  {
    if key in env.rollouts then env.rollouts[key] else []
  }

  function DeploymentKey(d: Deployment): ObjectKey
  {
    ObjectKey(DeploymentKind, d.meta.namespace, d.meta.name)
  }

  /** The outcome of waitForDeployment: the rollout outcome over the
      observations made within the time budget. */
  function WaitOutcome(env: Env, d: Deployment, timeout: int): Option<Error>
  {
    var polls := Polls(env, DeploymentKey(d));
    RolloutOutcome(polls[..PollBudget(timeout, |polls|)], d)
  }

  class KubeApi {
    var objects: map<ObjectKey, Object>
    var requests: seq<Request>
    const env: Env

    constructor (env: Env, objects: map<ObjectKey, Object>)
      ensures this.env == env && State() == World(objects, [])
    {
      this.env := env;
      this.objects := objects;
      this.requests := [];
    }

    function State(): World
      reads this
    {
      World(objects, requests)
    }

    /** Returns the object as the server stored it, or None on an error. */
    method Create(namespace: string, o: Object) returns (stored: Option<Object>, err: Option<Error>)
      modifies this
      ensures Outcome(State(), err) == CreateRaw(env, old(State()), namespace, o)
      ensures err.None? ==> stored == Some(objects[KeyOf(namespace, o)])
      ensures err.Some? ==> stored == None
    {
      var key := KeyOf(namespace, o);
      requests := requests + [CreateRequest(key)];
      if key in env.failing {
        err := Some(ApiFailure(key));
      } else if key in objects {
        err := Some(AlreadyExists(key));
      } else {
        objects := objects[key := Admitted(None, o)];
        err := None;
      }
      stored := if err.None? then Some(objects[key]) else None;
    }

    /** Returns the object as the server stored it, or None on an error. */
    method Update(namespace: string, o: Object) returns (stored: Option<Object>, err: Option<Error>)
      modifies this
      ensures Outcome(State(), err) == UpdateRaw(env, old(State()), namespace, o)
      ensures err.None? ==> stored == Some(objects[KeyOf(namespace, o)])
      ensures err.Some? ==> stored == None
    {
      var key := KeyOf(namespace, o);
      requests := requests + [UpdateRequest(key)];
      if key in env.failing {
        err := Some(ApiFailure(key));
      } else if key !in objects {
        err := Some(NotFound(key));
      } else if key in env.conflicting {
        err := Some(Conflict(key));
      } else {
        objects := objects[key := Admitted(Some(objects[key]), o)];
        err := None;
      }
      stored := if err.None? then Some(objects[key]) else None;
    }

    method GetDeployment(namespace: string, name: string) returns (d: Option<Deployment>, err: Option<Error>)
      ensures err == GetError(env, State(), ObjectKey(DeploymentKind, namespace, name))
      ensures err.None? ==> d == Some(objects[ObjectKey(DeploymentKind, namespace, name)].deployment)
      ensures err.Some? ==> d == None
    {
      var key := ObjectKey(DeploymentKind, namespace, name);
      if key in env.failing {
        return None, Some(ApiFailure(key));
      }
      if key !in objects || !objects[key].DeploymentObject? {
        return None, Some(NotFound(key));
      }
      return Some(objects[key].deployment), None;
    }

    method ListPods(namespace: string, name: string) returns (pods: seq<Pod>, err: Option<Error>)
      ensures namespace in env.listFailing ==> pods == [] && err == Some(ListFailed(namespace))
      ensures namespace !in env.listFailing ==> pods == PodsNamed(env.pods, namespace, name) && err == None
    {
      if namespace in env.listFailing {
        return [], Some(ListFailed(namespace));
      }
      return PodsNamed(env.pods, namespace, name), None;
    }

    method Exec(pod: string, command: seq<string>) returns (err: Option<Error>)
      modifies this
      ensures objects == old(objects) && requests == old(requests) + [ExecRequest(pod, command)]
      ensures err == if command in env.execFailing then Some(ExecFailed(pod, command)) else None
    {
      requests := requests + [ExecRequest(pod, command)];
      err := if command in env.execFailing then Some(ExecFailed(pod, command)) else None;
    }
  }

  /** waitForDeployment: poll the deployment until its rollout is complete,
      a read fails, or the time budget is spent. */
  method WaitForDeployment(api: KubeApi, d: Deployment, timeout: int) returns (err: Option<Error>)
    ensures err == WaitOutcome(api.env, d, timeout)
  {
    var polls := Polls(api.env, DeploymentKey(d));
    var budget := PollBudget(timeout, |polls|);
    var i := 0;
    while i < budget
      invariant 0 <= i <= budget
      invariant RolloutOutcome(polls[..budget], d) == RolloutOutcome(polls[i..budget], d)
    {
      assert polls[i..budget][1..] == polls[i + 1..budget];
      if polls[i].PollError? {
        return Some(PollFailed(d.meta.name));
      }
      if RolloutComplete(polls[i].status, d) {
        return None;
      }
      i := i + 1;
    }
    return Some(RolloutTimeout(d.meta.name));
  }
}
