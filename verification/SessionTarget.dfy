/** What a session wants of the API servers: the keys of its objects, their content, and the
    slot each of them should reach. */
module SessionTarget {
  import opened Wrappers
  import opened Sessions
  import opened Manifests
  import opened Kubernetes

  datatype Target = Target(
    headless: Key, service: Key, statefulSet: Key, deployment: Key, job: Key,
    sessionLabel: string, serviceMode: bool, probe: bool,
    headlessManifest: Manifest, serviceManifest: Manifest, serverManifest: Manifest,
    deploymentManifest: Manifest, jobManifest: Manifest)
  {
    /** The keys name objects of the right kinds, server and client objects in one place each,
        the two Services are different, and the Job carries the session's label. */
    ghost predicate Valid() {
      && headless.kind == ServiceKind && service.kind == ServiceKind && headless != service
      && statefulSet.kind == StatefulSetKind && deployment.kind == DeploymentKind && job.kind == JobKind
      && headless.place == service.place == statefulSet.place && deployment.place == job.place
      && SessionKey in jobManifest.labels.session && jobManifest.labels.session[SessionKey] == sessionLabel
    }

    /** The two objects a reconciliation makes whatever the mode, and the Service it makes or removes. */
    function ServerKeys(): set<Key> {
      {headless, service, statefulSet}
    }

    predicate IsJobKey(k: Key) {
      k.place == job.place && k.kind == JobKind
    }

    /** A Job at the client's cluster that carries the session's label. */
    predicate IsSessionJob(w: World, k: Key) {
      IsJobKey(k) && HasLabel(At(w, k), SessionKey, sessionLabel)
    }
  }

  predicate IsReady(s: Slot) {
    s.current.Some? && s.current.value.progress.ready >= 1
  }

  /** What a successful reconciliation makes of each slot. */
  function GoalSlot(t: Target, w: World, k: Key): Slot {
    if k == t.headless then AppliedSlot(At(w, k), t.headlessManifest)
    else if k == t.service then
      if t.serviceMode then AppliedSlot(At(w, k), t.serviceManifest) else DeletedSlot(At(w, k))
    else if k == t.statefulSet then AppliedSlot(At(w, k), t.serverManifest)
    else if k == t.deployment then
      if t.probe then DeletedSlot(At(w, k)) else AppliedSlot(At(w, k), t.deploymentManifest)
    else if k == t.job && t.probe then
      if !t.IsSessionJob(w, k) && IsReady(At(w, t.statefulSet)) then AppliedSlot(At(w, k), t.jobManifest)
      else At(w, k)
    else if t.IsSessionJob(w, k) then DeletedSlot(At(w, k))
    else At(w, k)
  }

  function Goal(t: Target, w: World): Key -> Slot {
    k => GoalSlot(t, w, k)
  }

  /** What deleting some objects makes of each slot. */
  function Removed(keys: set<Key>, w: World): Key -> Slot {
    k => if k in keys then DeletedSlot(At(w, k)) else At(w, k)
  }

  /** The named workloads of a session. */
  function TargetKeys(t: Target): set<Key> {
    {t.headless, t.service, t.statefulSet, t.deployment, t.job}
  }

  // ----- Reconciliation of the server side -----

  method ReconcileServer(api: Api, t: Target, ghost w0: World, ghost goal: Key -> Slot)
    returns (r: Result<(), ApiError>)
    requires t.Valid() && w0 == api.world && goal == Goal(t, w0)
    modifies api
    ensures r.Success? ==> Partway(w0, api.world, goal, t.ServerKeys())
    ensures r.Failure? ==> Between(w0, api.world, goal)
    ensures old(api.Calm()) ==> api.Calm() && r.Success?
  {
    r := Apply(api, t.headless, t.headlessManifest, w0, goal, {});
    if r.Failure? {
      return;
    }
    if t.serviceMode {
      r := Apply(api, t.service, t.serviceManifest, w0, goal, {t.headless});
    } else {
      r := DeleteIfExists(api, t.service, w0, goal, {t.headless});
    }
    if r.Failure? {
      return;
    }
    r := Apply(api, t.statefulSet, t.serverManifest, w0, goal, {t.headless, t.service});
    assert {t.headless, t.service} + {t.statefulSet} == t.ServerKeys();
  }

  // ----- Reconciliation of the client side -----

  method StatefulSetReady(api: Api, k: Key) returns (r: Result<bool, ApiError>)
    modifies api`faults
    ensures r.Success? ==> r.value == IsReady(At(api.world, k))
    ensures old(api.Calm()) ==> api.Calm() && r.Success?
  {
    var o := api.Read(k);
    if o.Success? {
      return Success(o.value.progress.ready >= 1);
    }
    return if o.error == NotFound then Success(false) else Failure(o.error);
  }

  /** Delete the listed Jobs, except the one to keep; tell whether that one was listed. */
  method DeleteJobs(api: Api, t: Target, names: seq<string>, keep: Option<string>,
                    ghost w0: World, ghost goal: Key -> Slot, ghost done: set<Key>)
    returns (r: Result<bool, ApiError>)
    requires Partway(w0, api.world, goal, done) && (forall k :: k in done ==> !t.IsJobKey(k))
    requires forall name :: name in names && Some(name) != keep ==>
      var k := Key(t.job.place, JobKind, name); goal(k) == DeletedSlot(At(w0, k))
    modifies api
    ensures r.Success? ==> (r.value <==> keep.Some? && keep.value in names)
    ensures r.Success? ==> Partway(w0, api.world, goal,
      done + set name | name in names && Some(name) != keep :: Key(t.job.place, JobKind, name))
    ensures r.Failure? ==> Between(w0, api.world, goal)
    ensures old(api.Calm()) ==> api.Calm() && r.Success?
  {
    var found := false;
    ghost var gone: set<Key> := done;
    for i := 0 to |names|
      invariant found <==> keep.Some? && keep.value in names[..i]
      invariant gone == done + set name | name in names[..i] && Some(name) != keep :: Key(t.job.place, JobKind, name)
      invariant Partway(w0, api.world, goal, gone)
      invariant old(api.Calm()) ==> api.Calm()
    {
      var k := Key(t.job.place, JobKind, names[i]);
      assert names[..i + 1] == names[..i] + [names[i]];
      if Some(names[i]) == keep {
        found := true;
      } else {
        var deleted := DeleteIfExists(api, k, w0, goal, gone);
        if deleted.Failure? {
          return Failure(deleted.error);
        }
        gone := gone + {k};
      }
    }
    assert names[..|names|] == names;
    return Success(found);
  }

  lemma AllStaleGone(t: Target, w0: World, names: seq<string>, keep: Option<string>, done: set<Key>)
    requires t.Valid() && keep == (if t.probe then Some(t.job.name) else None)
    requires forall name :: name in names <==>
             HasLabel(At(w0, Key(t.job.place, JobKind, name)), SessionKey, t.sessionLabel)
    requires done == t.ServerKeys() + {t.deployment} +
               set name | name in names && Some(name) != keep :: Key(t.job.place, JobKind, name)
    ensures forall k :: k !in done && !(t.probe && k == t.job) ==> GoalSlot(t, w0, k) == At(w0, k)
    ensures t.probe ==> t.job !in done
  {
  }

  /** Delete all Jobs of the session but the wanted one, and tell whether that one is there.
      Afterwards only the slot of the wanted Job may differ from the goal. */
  method DeleteStaleJobs(api: Api, t: Target, ghost w0: World, ghost goal: Key -> Slot)
    returns (r: Result<bool, ApiError>, ghost done: set<Key>)
    requires t.Valid() && goal == Goal(t, w0) && Partway(w0, api.world, goal, t.ServerKeys() + {t.deployment})
    modifies api
    ensures r.Success? ==> (r.value <==> t.probe && t.IsSessionJob(w0, t.job))
    ensures r.Success? ==> Partway(w0, api.world, goal, done) && (t.probe ==> t.job !in done) && t.statefulSet in done
    ensures r.Success? ==> forall k :: k !in done && !(t.probe && k == t.job) ==> goal(k) == At(w0, k)
    ensures r.Failure? ==> Between(w0, api.world, goal)
    ensures old(api.Calm()) ==> api.Calm() && r.Success?
  {
    done := t.ServerKeys() + {t.deployment};
    var names := api.List(t.job.place, JobKind, SessionKey, t.sessionLabel);
    if names.Failure? {
      return Failure(names.error), done;
    }
    var keep := if t.probe then Some(t.job.name) else None;
    r := DeleteJobs(api, t, names.value, keep, w0, goal, done);
    done := done + set name | name in names.value && Some(name) != keep :: Key(t.job.place, JobKind, name);
    AllStaleGone(t, w0, names.value, keep, done);
  }

  method ReconcileProbe(api: Api, t: Target, ghost w0: World, ghost goal: Key -> Slot)
    returns (r: Result<(), ApiError>)
    requires t.Valid() && t.probe && goal == Goal(t, w0) && Partway(w0, api.world, goal, t.ServerKeys())
    modifies api
    ensures r.Success? ==> Reached(api.world, goal)
    ensures r.Failure? ==> Between(w0, api.world, goal)
    ensures old(api.Calm()) ==> api.Calm() && r.Success?
  {
    r := DeleteIfExists(api, t.deployment, w0, goal, t.ServerKeys());
    if r.Failure? {
      return;
    }
    var found, done := DeleteStaleJobs(api, t, w0, goal);
    if found.Failure? {
      return Failure(found.error);
    }
    if found.value {
      return Success(());
    }
    var ready := StatefulSetReady(api, t.statefulSet);
    if ready.Failure? {
      return Failure(ready.error);
    }
    if ready.value {
      r := Apply(api, t.job, t.jobManifest, w0, goal, done);
    }
  }

  method ReconcileDeployment(api: Api, t: Target, ghost w0: World, ghost goal: Key -> Slot)
    returns (r: Result<(), ApiError>)
    requires t.Valid() && !t.probe && goal == Goal(t, w0) && Partway(w0, api.world, goal, t.ServerKeys())
    modifies api
    ensures r.Success? ==> Reached(api.world, goal)
    ensures r.Failure? ==> Between(w0, api.world, goal)
    ensures old(api.Calm()) ==> api.Calm() && r.Success?
  {
    r := Apply(api, t.deployment, t.deploymentManifest, w0, goal, t.ServerKeys());
    if r.Failure? {
      return;
    }
    var found, done := DeleteStaleJobs(api, t, w0, goal);
    return if found.Success? then Success(()) else Failure(found.error);
  }

  /** Bring the objects of a session to their goal. */
  method ReconcileWorkloads(api: Api, t: Target) returns (r: Result<(), ApiError>)
    requires t.Valid()
    modifies api
    ensures r.Success? ==> Reached(api.world, Goal(t, old(api.world)))
    ensures r.Failure? ==> Between(old(api.world), api.world, Goal(t, old(api.world)))
    ensures old(api.Calm()) ==> api.Calm() && r.Success?
  {
    ghost var w0, goal := api.world, Goal(t, api.world);
    r := ReconcileServer(api, t, w0, goal);
    if r.Failure? {
      return;
    }
    if t.probe {
      r := ReconcileProbe(api, t, w0, goal);
    } else {
      r := ReconcileDeployment(api, t, w0, goal);
    }
  }
}
