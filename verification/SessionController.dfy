/** The handlers of a measurement session: reconcile, refresh the status, clean up. */
module SessionController {
  import opened Wrappers
  import opened Names
  import opened SessionNames
  import opened Sessions
  import opened Manifests
  import opened Kubernetes
  import opened SessionTarget
  import opened OperatorMetrics

  // ----- Clusters -----

  /** A RemoteCluster object and whether its credentials can be loaded. */
  datatype Remote = Remote(server: string, namespace: string, usable: bool)

  /** The operator: how it designs the objects of a session, the clusters it knows, the image it
      falls back to. */
  datatype Operator = Operator(
    digest: Digest, design: Session -> Design, localName: string, remotes: map<string, Remote>, defaultImage: string)

  datatype Context = Context(name: string, place: Place)

  datatype OpError = Permanent | ApiFailure | BadBody

  predicate IsLocal(op: Operator, cluster: string) {
    cluster == op.localName || cluster == "local"
  }

  function RemoteContext(remote: Remote, namespace: string, cluster: string): Context {
    Context(cluster, Place(remote.server, if remote.namespace == "" then namespace else remote.namespace))
  }

  function ContextOf(op: Operator, namespace: string, cluster: string): Option<Context> {
    if IsLocal(op, cluster) then Some(Context(op.localName, Place("", namespace)))
    else if cluster in op.remotes && op.remotes[cluster].usable then
      Some(RemoteContext(op.remotes[cluster], namespace, cluster))
    else None
  }

  method ClusterContext(api: Api, op: Operator, namespace: string, cluster: string)
    returns (r: Result<Context, OpError>)
    modifies api`faults
    ensures r.Success? ==> ContextOf(op, namespace, cluster) == Some(r.value)
    ensures old(api.Calm()) ==> api.Calm() && (ContextOf(op, namespace, cluster).Some? ==> r.Success?)
  {
    if IsLocal(op, cluster) {
      return Success(Context(op.localName, Place("", namespace)));
    }
    var fault := api.NextFault();
    if fault.Some? {
      return Failure(ApiFailure);
    }
    if cluster !in op.remotes {
      return Failure(Permanent);
    }
    fault := api.NextFault();
    if fault.Some? {
      return Failure(ApiFailure);
    }
    if !op.remotes[cluster].usable {
      return Failure(Permanent);
    }
    return Success(RemoteContext(op.remotes[cluster], namespace, cluster));
  }

  /** The cluster of the server and the cluster of the client; they may be the same. */
  datatype Site = Site(server: Context, client: Context)

  function SiteOf(op: Operator, body: Session): Option<Site> {
    var server := ContextOf(op, body.namespace, body.spec.destination.cluster);
    var client := ContextOf(op, body.namespace, body.spec.source.cluster);
    if server.Some? && client.Some? then Some(Site(server.value, client.value)) else None
  }

  function TargetOf(op: Operator, site: Site, body: Session): Target {
    var d, server, client := op.design(body), site.server.place, site.client.place;
    Target(
      Key(server, ServiceKind, d.headlessName), Key(server, ServiceKind, d.serviceName),
      Key(server, StatefulSetKind, d.statefulSetName), Key(client, DeploymentKind, d.deploymentName),
      Key(client, JobKind, d.jobName), d.sessionLabel, d.serviceMode, d.probe,
      d.headless, d.service, d.server, d.deployment, d.job)
  }

  /** The two Services of a design have different names, and its Job carries the session's label. */
  predicate IsSound(d: Design) {
    && d.headlessName != d.serviceName
    && SessionKey in d.job.labels.session && d.job.labels.session[SessionKey] == d.sessionLabel
  }

  /** What is asked of a session before it is built: a label to tell its Jobs by is checked later. */
  predicate CanBuild(d: Design, body: Session) {
    d.buildable && (SessionKey in body.labels ==> IsSound(d))
  }

  lemma TargetIsValid(op: Operator, site: Site, body: Session)
    requires IsSound(op.design(body))
    ensures TargetOf(op, site, body).Valid()
  {
  }

  // ----- Status -----

  datatype Counts = Counts(active: nat, succeeded: nat, failed: nat)

  datatype Phase = Reconciling | Running | Completed | Failed

  function PhaseText(phase: Phase): string {
    match phase
    case Reconciling => "Reconciling"
    case Running => "Running"
    case Completed => "Completed"
    case Failed => "Failed"
  }

  datatype Readiness = Readiness(serverReady: bool, clientReady: bool, counts: Option<Counts>, phase: Phase)

  datatype Status = Status(
    readiness: Readiness, clientPeer: string, headlessService: string, service: string,
    statefulSet: string, deployment: string, job: string, server: Context, client: Context)

  function DeploymentReadiness(w: World, t: Target): Readiness {
    if !Exists(w, t.statefulSet) || !Exists(w, t.deployment) then Readiness(false, false, None, Reconciling)
    else
      var server, client := IsReady(At(w, t.statefulSet)), IsReady(At(w, t.deployment));
      Readiness(server, client, None, if server && client then Running else Reconciling)
  }

  function JobPhase(serverReady: bool, p: Progress): Phase {
    if p.failed > 0 then Failed
    else if p.active > 0 && serverReady then Running
    else if p.succeeded > 0 && serverReady then Completed
    else Reconciling
  }

  function JobReadiness(w: World, t: Target): Readiness {
    if !Exists(w, t.statefulSet) || !Exists(w, t.job) then
      Readiness(false, false, Some(Counts(0, 0, 0)), Reconciling)
    else
      var server, p := IsReady(At(w, t.statefulSet)), At(w, t.job).current.value.progress;
      var phase := JobPhase(server, p);
      Readiness(server, phase.Running? || phase.Completed?, Some(Counts(p.active, p.succeeded, p.failed)), phase)
  }

  /** One incarnation of a Job. */
  datatype JobId = JobId(key: Key, uid: nat)

  datatype Outcome = Outcome(job: JobId, result: string, duration: Option<int>)

  /** The finished probe a status call sees, if any. */
  function ProbeOutcome(w: World, t: Target): Option<Outcome> {
    if !t.probe || !Exists(w, t.statefulSet) || !Exists(w, t.job) then None
    else
      var o := At(w, t.job).current.value;
      match JobPhase(IsReady(At(w, t.statefulSet)), o.progress)
      case Failed => Some(OutcomeOf(t.job, o, "failed"))
      case Completed => Some(OutcomeOf(t.job, o, "success"))
      case _ => None
  }

  function StatusWith(op: Operator, site: Site, body: Session, t: Target, readiness: Readiness): Status {
    Status(readiness, op.design(body).peer, t.headless.name, if t.serviceMode then t.service.name else "",
           t.statefulSet.name, if t.probe then "" else t.deployment.name, if t.probe then t.job.name else "",
           site.server, site.client)
  }

  function StatusOf(op: Operator, site: Site, body: Session, w: World): Status {
    var t := TargetOf(op, site, body);
    StatusWith(op, site, body, t, if t.probe then JobReadiness(w, t) else DeploymentReadiness(w, t))
  }

  function TargetFor(op: Operator, body: Session): Option<Target> {
    match SiteOf(op, body) case Some(site) => Some(TargetOf(op, site, body)) case None => None
  }

  function StatusFor(op: Operator, body: Session, w: World): Option<Status> {
    match SiteOf(op, body) case Some(site) => Some(StatusOf(op, site, body, w)) case None => None
  }

  function OutcomeFor(op: Operator, body: Session, w: World): Option<Outcome> {
    match SiteOf(op, body) case Some(site) => ProbeOutcome(w, TargetOf(op, site, body)) case None => None
  }

  method ReadDeploymentReadiness(api: Api, t: Target) returns (r: Result<Readiness, ApiError>)
    modifies api`faults
    ensures r.Success? ==> r.value == DeploymentReadiness(api.world, t)
    ensures old(api.Calm()) ==> api.Calm() && r.Success?
  {
    var missing := Readiness(false, false, None, Reconciling);
    var server := api.Read(t.statefulSet);
    if server.Failure? {
      return if server.error == NotFound then Success(missing) else Failure(server.error);
    }
    var client := api.Read(t.deployment);
    if client.Failure? {
      return if client.error == NotFound then Success(missing) else Failure(client.error);
    }
    var serverReady, clientReady := server.value.progress.ready >= 1, client.value.progress.ready >= 1;
    return Success(Readiness(serverReady, clientReady, None,
                             if serverReady && clientReady then Running else Reconciling));
  }

  /** How the metrics change when a finished probe is seen: once for each incarnation. */
  ghost function Observed(t: ProbeTable<JobId>, outcome: Option<Outcome>): ProbeTable<JobId> {
    if outcome.Some? then ProbeSeen(t, outcome.value.job, outcome.value.result, outcome.value.duration) else t
  }

  function OutcomeOf(k: Key, o: Object, result: string): Outcome {
    var p := o.progress;
    var duration := if p.started.Some? && p.completed.Some? then Some(p.completed.value - p.started.value) else None;
    Outcome(JobId(k, o.uid), result, duration)
  }

  method ObserveProbeJob(metrics: Metrics<JobId>, k: Key, o: Object, result: string)
    requires metrics.ValidProbes()
    modifies metrics`probes
    ensures metrics.ValidProbes() && metrics.probes == Observed(old(metrics.probes), Some(OutcomeOf(k, o, result)))
  {
    var outcome := OutcomeOf(k, o, result);
    metrics.ObserveProbeJob(Some(outcome.job), result, outcome.duration);
  }

  method ReadJobReadiness(api: Api, metrics: Metrics<JobId>, t: Target) returns (r: Result<Readiness, ApiError>)
    requires t.probe && metrics.ValidProbes()
    modifies api`faults, metrics`probes
    ensures metrics.ValidProbes()
    ensures r.Success? ==> r.value == JobReadiness(api.world, t)
    ensures r.Success? ==> metrics.probes == Observed(old(metrics.probes), ProbeOutcome(api.world, t))
    ensures r.Failure? ==> metrics.probes == Observed(old(metrics.probes), None)
    ensures old(api.Calm()) ==> api.Calm() && r.Success?
  {
    var missing := Readiness(false, false, Some(Counts(0, 0, 0)), Reconciling);
    var server := api.Read(t.statefulSet);
    if server.Failure? {
      return if server.error == NotFound then Success(missing) else Failure(server.error);
    }
    var job := api.Read(t.job);
    if job.Failure? {
      return if job.error == NotFound then Success(missing) else Failure(job.error);
    }
    var serverReady, p := server.value.progress.ready >= 1, job.value.progress;
    var phase, clientReady := Reconciling, false;
    if p.failed > 0 {
      phase := Failed;
      ObserveProbeJob(metrics, t.job, job.value, "failed");
    } else if p.active > 0 && serverReady {
      phase, clientReady := Running, true;
    } else if p.succeeded > 0 && serverReady {
      phase, clientReady := Completed, true;
      ObserveProbeJob(metrics, t.job, job.value, "success");
    }
    return Success(Readiness(serverReady, clientReady, Some(Counts(p.active, p.succeeded, p.failed)), phase));
  }

  method SessionSite(api: Api, op: Operator, body: Session) returns (r: Result<Site, OpError>)
    modifies api`faults
    ensures r.Success? ==> SiteOf(op, body) == Some(r.value)
    ensures old(api.Calm()) ==> api.Calm() && (SiteOf(op, body).Some? ==> r.Success?)
  {
    var server := ClusterContext(api, op, body.namespace, body.spec.destination.cluster);
    if server.Failure? {
      return Failure(server.error);
    }
    var client := ClusterContext(api, op, body.namespace, body.spec.source.cluster);
    if client.Failure? {
      return Failure(client.error);
    }
    return Success(Site(server.value, client.value));
  }

  method SessionStatus(api: Api, metrics: Metrics<JobId>, op: Operator, body: Session)
    returns (r: Result<Status, OpError>)
    requires metrics.ValidProbes()
    modifies api`faults, metrics`probes
    ensures metrics.ValidProbes()
    ensures Handled(op, body, false, old(api.world), api.world, r)
    ensures metrics.probes == Observed(old(metrics.probes), SeenOutcome(op, body, api.world, r))
    ensures old(api.Calm()) ==> api.Calm() && (SiteOf(op, body).Some? ==> r.Success?)
  {
    var site := SessionSite(api, op, body);
    if site.Failure? {
      return Failure(site.error);
    }
    var t := TargetOf(op, site.value, body);
    var readiness: Result<Readiness, ApiError>;
    if t.probe {
      readiness := ReadJobReadiness(api, metrics, t);
    } else {
      readiness := ReadDeploymentReadiness(api, t);
    }
    if readiness.Failure? {
      return Failure(ApiFailure);
    }
    return Success(StatusWith(op, site.value, body, t, readiness.value));
  }

  // ----- Reconciliation -----

  /** An interrupted reconciliation leaves every slot as it was or as it should become. */
  ghost predicate Attempted(op: Operator, body: Session, w: World, w': World) {
    match TargetFor(op, body)
    case Some(t) => Between(w, w', Goal(t, w))
    case None => w' == w
  }

  /** A reconciliation that went through leaves every slot as it should become. */
  ghost predicate Settled(op: Operator, body: Session, w: World, w': World) {
    TargetFor(op, body).Some? && Reached(w', Goal(TargetFor(op, body).value, w))
  }

  /** What a call for a session did: reconcile it, or only read its status. */
  ghost predicate Handled(op: Operator, body: Session, reconcile: bool, w: World, w': World,
                          r: Result<Status, OpError>) {
    && (r.Success? ==> StatusFor(op, body, w') == Some(r.value))
    && (if !reconcile then w' == w
        else if r.Success? then Settled(op, body, w, w')
        else Attempted(op, body, w, w'))
  }

  /** The probe that a call has seen finished. */
  ghost function SeenOutcome(op: Operator, body: Session, w: World, r: Result<Status, OpError>): Option<Outcome> {
    if r.Success? then OutcomeFor(op, body, w) else None
  }

  method ReconcileSession(api: Api, metrics: Metrics<JobId>, op: Operator, body: Session)
    returns (r: Result<Status, OpError>)
    requires CanBuild(op.design(body), body) && metrics.ValidProbes()
    modifies api, metrics`probes
    ensures metrics.ValidProbes()
    ensures r.Success? ==> SessionKey in body.labels
    ensures Handled(op, body, true, old(api.world), api.world, r)
    ensures metrics.probes == Observed(old(metrics.probes), SeenOutcome(op, body, api.world, r))
    ensures old(api.Calm()) && SiteOf(op, body).Some? && SessionKey in body.labels ==> r.Success?
  {
    ghost var w0 := api.world;
    var reconciled := ReconcileSite(api, op, body);
    if reconciled.Failure? {
      return Failure(reconciled.error);
    }
    r := SessionStatus(api, metrics, op, body);
    ReachedHandled(op, body, w0, api.world, r);
  }

  /** Reconcile the workloads at the clusters the body names. */
  method ReconcileSite(api: Api, op: Operator, body: Session) returns (r: Result<(), OpError>)
    requires CanBuild(op.design(body), body)
    modifies api
    ensures r.Success? ==> SessionKey in body.labels && Settled(op, body, old(api.world), api.world)
    ensures r.Failure? ==> Handled(op, body, true, old(api.world), api.world, Failure(r.error))
    ensures old(api.Calm()) && SiteOf(op, body).Some? && SessionKey in body.labels ==> r.Success? && api.Calm()
  {
    var site := LabelledSite(api, op, body);
    if site.Failure? {
      NothingAttempted(op, body, api.world, site.error);
      return Failure(site.error);
    }
    r := ReconcileAt(api, op, body, site.value);
  }

  method LabelledSite(api: Api, op: Operator, body: Session) returns (r: Result<Site, OpError>)
    modifies api`faults
    ensures r.Success? ==> SiteOf(op, body) == Some(r.value) && SessionKey in body.labels
    ensures old(api.Calm()) ==> api.Calm() && (SiteOf(op, body).Some? && SessionKey in body.labels ==> r.Success?)
  {
    r := SessionSite(api, op, body);
    if r.Success? && SessionKey !in body.labels {
      r := Failure(BadBody);
    }
  }

  method ReconcileAt(api: Api, op: Operator, body: Session, site: Site) returns (r: Result<(), OpError>)
    requires SiteOf(op, body) == Some(site) && IsSound(op.design(body))
    modifies api
    ensures r.Success? ==> Settled(op, body, old(api.world), api.world)
    ensures r.Failure? ==> Handled(op, body, true, old(api.world), api.world, Failure(r.error))
    ensures old(api.Calm()) ==> r.Success? && api.Calm()
  {
    ghost var w0 := api.world;
    TargetIsValid(op, site, body);
    var reconciled := ReconcileWorkloads(api, TargetOf(op, site, body));
    if reconciled.Failure? {
      AttemptHandled(op, body, site, w0, api.world, ApiFailure);
      return Failure(ApiFailure);
    }
    SiteSettles(op, body, site, w0, api.world);
    return Success(());
  }

  lemma NothingAttempted(op: Operator, body: Session, w: World, e: OpError)
    ensures Handled(op, body, true, w, w, Failure(e))
  {
  }

  lemma AttemptHandled(op: Operator, body: Session, site: Site, w: World, w': World, e: OpError)
    requires SiteOf(op, body) == Some(site) && Between(w, w', Goal(TargetOf(op, site, body), w))
    ensures Handled(op, body, true, w, w', Failure(e))
  {
  }

  lemma SiteSettles(op: Operator, body: Session, site: Site, w: World, w': World)
    requires SiteOf(op, body) == Some(site) && Reached(w', Goal(TargetOf(op, site, body), w))
    ensures Settled(op, body, w, w')
  {
  }

  lemma ReachedHandled(op: Operator, body: Session, w: World, w': World, r: Result<Status, OpError>)
    requires Settled(op, body, w, w') && Handled(op, body, false, w', w', r)
    ensures Handled(op, body, true, w, w', r)
  {
  }

  // ----- Clean-up -----

  function ServerCleanKeys(op: Operator, server: Context, body: Session): set<Key> {
    {Key(server.place, StatefulSetKind, op.design(body).statefulSetName),
     Key(server.place, ServiceKind, op.design(body).headlessName),
     Key(server.place, ServiceKind, op.design(body).serviceName)}
  }

  function ClientCleanKeys(op: Operator, client: Context, body: Session): set<Key> {
    {Key(client.place, DeploymentKind, op.design(body).deploymentName),
     Key(client.place, JobKind, op.design(body).jobName)}
  }

  /** The named workloads of a session on the clusters its body names, as far as these resolve. */
  function CleanKeys(op: Operator, body: Session): set<Key> {
    var server := ContextOf(op, body.namespace, body.spec.destination.cluster);
    var client := ContextOf(op, body.namespace, body.spec.source.cluster);
    (if server.Some? then ServerCleanKeys(op, server.value, body) else {})
    + (if client.Some? then ClientCleanKeys(op, client.value, body) else {})
  }

  /** With both clusters known, the workloads to clean are the named objects of the target. */
  lemma CleanKeysAreTargetKeys(op: Operator, body: Session)
    requires SiteOf(op, body).Some?
    ensures CleanKeys(op, body) == TargetKeys(TargetFor(op, body).value)
  {
  }

  /** Delete some of the objects to clean, one after another. */
  method DeleteAll(api: Api, order: seq<Key>, ghost w0: World, ghost keys: set<Key>, ghost done: set<Key>)
    returns (r: Result<(), ApiError>)
    requires Partway(w0, api.world, Removed(keys, w0), done) && forall k :: k in order ==> k in keys
    modifies api
    ensures r.Success? ==> Partway(w0, api.world, Removed(keys, w0), done + set k | k in order)
    ensures r.Failure? ==> Between(w0, api.world, Removed(keys, w0))
    ensures forall k | k !in order :: At(api.world, k) == At(old(api.world), k)
    ensures old(api.Calm()) ==> api.Calm() && r.Success?
  {
    ghost var gone: set<Key> := done;
    for i := 0 to |order|
      invariant gone == done + set k | k in order[..i]
      invariant Partway(w0, api.world, Removed(keys, w0), gone)
      invariant forall k | k !in order :: At(api.world, k) == At(old(api.world), k)
      invariant old(api.Calm()) ==> api.Calm()
    {
      assert order[..i + 1] == order[..i] + [order[i]];
      r := DeleteIfExists(api, order[i], w0, Removed(keys, w0), gone);
      if r.Failure? {
        return;
      }
      gone := gone + {order[i]};
    }
    assert order[..|order|] == order;
    return Success(());
  }

  function CountedFailure(op: Operator, failures: map<string, nat>, cluster: string): map<string, nat> {
    if IsLocal(op, cluster) then failures else Incremented(failures, cluster)
  }

  method RecordCleanupFailure(metrics: Metrics<JobId>, op: Operator, cluster: string)
    modifies metrics`remoteCleanupFailures
    ensures metrics.remoteCleanupFailures == CountedFailure(op, old(metrics.remoteCleanupFailures), cluster)
  {
    if !IsLocal(op, cluster) {
      metrics.RecordRemoteCleanupFailure(cluster);
    }
  }

  predicate IsServerKind(kind: Kind) {
    kind == StatefulSetKind || kind == ServiceKind
  }

  /** The objects of the server's kinds, or those of the others, are as they were. */
  ghost predicate KindsKept(w: World, w': World, server: bool) {
    forall k: Key | IsServerKind(k.kind) == server :: At(w', k) == At(w, k)
  }

  /** Delete the workloads at one cluster, or count the failure against it. */
  method DeleteAtCluster(api: Api, metrics: Metrics<JobId>, op: Operator, body: Session, cluster: string,
                         isServer: bool, ghost w0: World, ghost done: set<Key>)
    returns (r: Result<(), OpError>, ghost done': set<Key>)
    requires cluster == if isServer then body.spec.destination.cluster else body.spec.source.cluster
    requires Partway(w0, api.world, Removed(CleanKeys(op, body), w0), done)
    modifies api, metrics`remoteCleanupFailures
    ensures r.Success? ==> ContextOf(op, body.namespace, cluster).Some?
    ensures r.Success? ==> metrics.remoteCleanupFailures == old(metrics.remoteCleanupFailures)
    ensures r.Success? ==> Partway(w0, api.world, Removed(CleanKeys(op, body), w0), done')
    ensures r.Success? ==>
      var context := ContextOf(op, body.namespace, cluster).value;
      done' == done + if isServer then ServerCleanKeys(op, context, body) else ClientCleanKeys(op, context, body)
    ensures r.Failure? ==> Between(w0, api.world, Removed(CleanKeys(op, body), w0))
    ensures r.Failure? ==>
            metrics.remoteCleanupFailures == CountedFailure(op, old(metrics.remoteCleanupFailures), cluster)
    ensures KindsKept(old(api.world), api.world, !isServer)
    ensures old(api.Calm()) ==> api.Calm() && (ContextOf(op, body.namespace, cluster).Some? ==> r.Success?)
  {
    done' := done;
    var context := ClusterContext(api, op, body.namespace, cluster);
    if context.Failure? {
      RecordCleanupFailure(metrics, op, cluster);
      return Failure(context.error), done;
    }
    var deleted;
    deleted, done' := DeleteWorkloads(api, op, body, context.value, isServer, w0, done);
    if deleted.Failure? {
      RecordCleanupFailure(metrics, op, cluster);
      return Failure(ApiFailure), done';
    }
    return Success(()), done';
  }

  /** Delete the workloads of the server, or those of the client, in a cluster that is known. */
  method DeleteWorkloads(api: Api, op: Operator, body: Session, context: Context, isServer: bool,
                         ghost w0: World, ghost done: set<Key>)
    returns (r: Result<(), ApiError>, ghost done': set<Key>)
    requires ContextOf(op, body.namespace, if isServer then body.spec.destination.cluster else body.spec.source.cluster)
             == Some(context)
    requires Partway(w0, api.world, Removed(CleanKeys(op, body), w0), done)
    modifies api
    ensures done' == done + if isServer then ServerCleanKeys(op, context, body) else ClientCleanKeys(op, context, body)
    ensures r.Success? ==> Partway(w0, api.world, Removed(CleanKeys(op, body), w0), done')
    ensures r.Failure? ==> Between(w0, api.world, Removed(CleanKeys(op, body), w0))
    ensures KindsKept(old(api.world), api.world, !isServer)
    ensures old(api.Calm()) ==> api.Calm() && r.Success?
  {
    var order := if isServer then ServerOrder(op, context, body) else ClientOrder(op, context, body);
    OrdersCover(op, context, body);
    OrderIsClean(op, body, context, isServer, order);
    OrderKinds(op, context, body);
    ghost var w := api.world;
    r := DeleteAll(api, order, w0, CleanKeys(op, body), done);
    OrderKeepsKinds(w, api.world, isServer, order);
    done' := done + set k | k in order;
  }

  lemma OrderIsClean(op: Operator, body: Session, context: Context, isServer: bool, order: seq<Key>)
    requires ContextOf(op, body.namespace, if isServer then body.spec.destination.cluster else body.spec.source.cluster)
             == Some(context)
    requires (set k | k in order) == if isServer then ServerCleanKeys(op, context, body)
             else ClientCleanKeys(op, context, body)
    ensures forall k :: k in order ==> k in CleanKeys(op, body)
  {
    var keys := set k | k in order;
    assert keys <= CleanKeys(op, body);
    forall k | k in order ensures k in CleanKeys(op, body) {
      assert k in keys;
    }
  }

  lemma OrderKinds(op: Operator, context: Context, body: Session)
    ensures forall k :: k in ServerOrder(op, context, body) ==> IsServerKind(k.kind)
    ensures forall k :: k in ClientOrder(op, context, body) ==> !IsServerKind(k.kind)
  {
  }

  lemma OrderKeepsKinds(w: World, w': World, isServer: bool, order: seq<Key>)
    requires forall k :: k in order ==> IsServerKind(k.kind) == isServer
    requires forall k | k !in order :: At(w', k) == At(w, k)
    ensures KindsKept(w, w', !isServer)
  {
  }

  function ServerOrder(op: Operator, server: Context, body: Session): seq<Key> {
    [Key(server.place, StatefulSetKind, op.design(body).statefulSetName),
     Key(server.place, ServiceKind, op.design(body).headlessName),
     Key(server.place, ServiceKind, op.design(body).serviceName)]
  }

  function ClientOrder(op: Operator, client: Context, body: Session): seq<Key> {
    [Key(client.place, DeploymentKind, op.design(body).deploymentName),
     Key(client.place, JobKind, op.design(body).jobName)]
  }

  lemma OrdersCover(op: Operator, context: Context, body: Session)
    ensures (set k | k in ServerOrder(op, context, body)) == ServerCleanKeys(op, context, body)
    ensures (set k | k in ClientOrder(op, context, body)) == ClientCleanKeys(op, context, body)
  {
  }

  /** A clean-up removes the named workloads of a session; an interrupted one only some of them. */
  ghost predicate Cleaned(op: Operator, body: Session, w: World, w': World, success: bool) {
    if success then SiteOf(op, body).Some? && Reached(w', Removed(CleanKeys(op, body), w))
    else Between(w, w', Removed(CleanKeys(op, body), w))
  }

  lemma BothCleaned(op: Operator, body: Session, done: set<Key>)
    requires SiteOf(op, body).Some?
    requires done == {} + ServerCleanKeys(op, SiteOf(op, body).value.server, body) +
             ClientCleanKeys(op, SiteOf(op, body).value.client, body)
    ensures done == CleanKeys(op, body)
  {
  }

  /** A failure is counted against the destination if the client's workloads were not tried, and
      against the source if the server's are gone. */
  ghost predicate FailureIsCounted(op: Operator, body: Session, w: World, w': World,
                                   was: map<string, nat>, now: map<string, nat>) {
    || (now == CountedFailure(op, was, body.spec.destination.cluster) && KindsKept(w, w', false))
    || (now == CountedFailure(op, was, body.spec.source.cluster) && ServerIsGone(op, body, w'))
  }

  ghost predicate ServerIsGone(op: Operator, body: Session, w: World) {
    var server := ContextOf(op, body.namespace, body.spec.destination.cluster);
    server.Some? && forall k :: k in ServerCleanKeys(op, server.value, body) ==> !Exists(w, k)
  }

  lemma PartwayGone(op: Operator, body: Session, w0: World, w: World, done: set<Key>)
    requires Partway(w0, w, Removed(CleanKeys(op, body), w0), done)
    requires ContextOf(op, body.namespace, body.spec.destination.cluster).Some?
    requires done == {} + ServerCleanKeys(op, ContextOf(op, body.namespace, body.spec.destination.cluster).value, body)
    ensures ServerIsGone(op, body, w)
  {
  }

  lemma StillGone(op: Operator, body: Session, w: World, w': World)
    requires ServerIsGone(op, body, w) && KindsKept(w, w', true)
    ensures ServerIsGone(op, body, w')
  {
  }

  method DeleteSessionWorkloads(api: Api, metrics: Metrics<JobId>, op: Operator, body: Session)
    returns (r: Result<(), OpError>)
    modifies api, metrics`remoteCleanupFailures
    ensures Cleaned(op, body, old(api.world), api.world, r.Success?)
    ensures var was, now := old(metrics.remoteCleanupFailures), metrics.remoteCleanupFailures;
      if r.Success? then now == was else FailureIsCounted(op, body, old(api.world), api.world, was, now)
    ensures old(api.Calm()) ==> api.Calm() && (SiteOf(op, body).Some? ==> r.Success?)
  {
    ghost var w0, done := api.world, {};
    r, done := DeleteAtCluster(api, metrics, op, body, body.spec.destination.cluster, true, w0, done);
    if r.Failure? {
      return;
    }
    ghost var w1 := api.world;
    PartwayGone(op, body, w0, w1, done);
    r, done := DeleteAtCluster(api, metrics, op, body, body.spec.source.cluster, false, w0, done);
    StillGone(op, body, w1, api.world);
    if r.Success? { BothCleaned(op, body, done); }
  }

  // ----- Handlers -----

  const SESSION_KIND := "MeasurementSession"

  /** Create, update and resume always reconcile; the timer reconciles probes and otherwise only
      reads the status. */
  method UpdateMeasurementSession(api: Api, metrics: Metrics<JobId>, op: Operator, body: Session, reconcile: bool)
    returns (r: Result<Status, OpError>)
    requires CanBuild(op.design(body), body)
    requires metrics.ValidResources() && metrics.ValidProbes()
    modifies api, metrics`tables,
             metrics`probes
    ensures metrics.ValidResources() && metrics.ValidProbes()
    ensures Handled(op, body, reconcile, old(api.world), api.world, r)
    ensures metrics.probes == Observed(old(metrics.probes), SeenOutcome(op, body, api.world, r))
    ensures metrics.tables.phases == old(metrics.tables.phases)[
      ResourceId(SESSION_KIND, body.namespace, body.name) := StatusPhase(r)]
  {
    r := ReconcileOrRead(api, metrics, op, body, reconcile);
    metrics.SetResourcePhase(SESSION_KIND, body.namespace, body.name, StatusPhase(r));
  }

  function StatusPhase(r: Result<Status, OpError>): (phase: string)
    ensures phase != ""
  {
    if r.Success? then PhaseText(r.value.readiness.phase) else "Error"
  }

  method ReconcileOrRead(api: Api, metrics: Metrics<JobId>, op: Operator, body: Session, reconcile: bool)
    returns (r: Result<Status, OpError>)
    requires CanBuild(op.design(body), body) && metrics.ValidProbes()
    modifies api, metrics`probes
    ensures metrics.ValidProbes()
    ensures Handled(op, body, reconcile, old(api.world), api.world, r)
    ensures metrics.probes == Observed(old(metrics.probes), SeenOutcome(op, body, api.world, r))
  {
    if reconcile {
      r := ReconcileSession(api, metrics, op, body);
    } else {
      r := SessionStatus(api, metrics, op, body);
    }
  }

  method RefreshMeasurementSessionStatus(api: Api, metrics: Metrics<JobId>, op: Operator, body: Session)
    returns (r: Result<Status, OpError>)
    requires CanBuild(op.design(body), body)
    requires metrics.ValidResources() && metrics.ValidProbes()
    modifies api, metrics`tables,
             metrics`probes
    ensures metrics.ValidResources() && metrics.ValidProbes()
    ensures Handled(op, body, body.spec.execution.mode == "probe", old(api.world), api.world, r)
  {
    r := UpdateMeasurementSession(api, metrics, op, body, body.spec.execution.mode == "probe");
  }

  /** The store, and the resources with a pending finalizer. */
  datatype DeletionState = DeletionState(world: World, pending: set<(string, string)>)

  /** What one attempt to delete a session makes of both. */
  ghost predicate DeletionLeads(op: Operator, body: Session, d: DeletionState, d': DeletionState, success: bool) {
    var id := (body.namespace, body.name);
    && Cleaned(op, body, d.world, d'.world, success)
    && d'.pending == MarkedOver(d.pending, if success then [Pending(id), Complete(id)] else [Pending(id)])
  }

  lemma AttemptMarks(pending: set<(string, string)>, id: (string, string))
    ensures MarkedOver(pending, [Pending(id)]) == pending + {id}
    ensures MarkedOver(pending, [Pending(id), Complete(id)]) == pending - {id}
  {
    assert [Pending(id)][..0] == [] && [Pending(id), Complete(id)][..1] == [Pending(id)];
    assert MarkedOver(pending, [Pending(id)]) == pending + {id};
  }

  /** The finalizer stays pending from the first attempt to clean up until one succeeds. */
  method DeleteMeasurementSession(api: Api, metrics: Metrics<JobId>, op: Operator, body: Session)
    returns (r: Result<(), OpError>)
    requires metrics.ValidResources() && metrics.ValidFinalizers()
    modifies api, metrics`tables, metrics`finalizers, metrics`remoteCleanupFailures
    ensures metrics.ValidResources() && metrics.ValidFinalizers()
    ensures DeletionLeads(op, body, DeletionState(old(api.world), old(metrics.finalizers.pending)),
                          DeletionState(api.world, metrics.finalizers.pending), r.Success?)
    ensures var id := ResourceId(SESSION_KIND, body.namespace, body.name);
      metrics.tables.phases ==
      if r.Success? then old(metrics.tables.phases) - {id} else old(metrics.tables.phases)[id := "Error"]
    ensures old(api.Calm()) && SiteOf(op, body).Some? ==> r.Success?
  {
    ghost var phases, pending := metrics.tables.phases, metrics.finalizers.pending;
    BeginDeletion(metrics, body);
    r := DeleteSessionWorkloads(api, metrics, op, body);
    EndDeletion(metrics, body, r.Success?, phases, pending);
    AttemptMarks(pending, (body.namespace, body.name));
  }

  method BeginDeletion(metrics: Metrics<JobId>, body: Session)
    requires metrics.ValidResources() && metrics.ValidFinalizers()
    modifies metrics`tables, metrics`finalizers
    ensures metrics.ValidResources() && metrics.ValidFinalizers()
    ensures metrics.finalizers.pending == old(metrics.finalizers.pending) + {(body.namespace, body.name)}
    ensures DiffersAt(old(metrics.tables.phases), metrics.tables.phases,
                      ResourceId(SESSION_KIND, body.namespace, body.name))
  {
    metrics.MarkFinalizerPending(body.namespace, body.name);
    MarkDeleting(metrics, body, "Deleting");
  }

  method MarkDeleting(metrics: Metrics<JobId>, body: Session, phase: string)
    requires metrics.ValidResources()
    modifies metrics`tables
    ensures metrics.ValidResources()
    ensures DiffersAt(old(metrics.tables.phases), metrics.tables.phases,
                      ResourceId(SESSION_KIND, body.namespace, body.name))
  {
    SetDiffers(metrics.tables.phases, ResourceId(SESSION_KIND, body.namespace, body.name),
               if phase == "" then "Unknown" else phase);
    metrics.SetResourcePhase(SESSION_KIND, body.namespace, body.name, phase);
  }

  lemma SetDiffers(m: map<ResourceId, string>, id: ResourceId, phase: string)
    ensures DiffersAt(m, m[id := phase], id)
  {
  }

  /** The two tables agree, except perhaps on one resource. */
  ghost predicate DiffersAt(m: map<ResourceId, string>, m': map<ResourceId, string>, id: ResourceId) {
    m - {id} == m' - {id}
  }

  lemma SetAgain(m: map<ResourceId, string>, m': map<ResourceId, string>, id: ResourceId, phase: string)
    requires DiffersAt(m, m', id)
    ensures m'[id := phase] == m[id := phase]
  {
    assert forall j :: j != id ==> (j in m <==> j in m - {id}) && (j in m' <==> j in m' - {id});
    assert forall j :: j in m && j != id ==> m[j] == (m - {id})[j];
    assert forall j :: j in m' && j != id ==> m'[j] == (m' - {id})[j];
  }

  method EndDeletion(metrics: Metrics<JobId>, body: Session, success: bool, ghost phases: map<ResourceId, string>,
                     ghost pending: set<(string, string)>)
    requires metrics.ValidResources() && metrics.ValidFinalizers()
    requires DiffersAt(phases, metrics.tables.phases, ResourceId(SESSION_KIND, body.namespace, body.name))
    requires metrics.finalizers.pending == pending + {(body.namespace, body.name)}
    modifies metrics`tables, metrics`finalizers
    ensures metrics.ValidResources() && metrics.ValidFinalizers()
    ensures var id := (body.namespace, body.name);
      metrics.finalizers.pending == if success then pending - {id} else pending + {id}
    ensures var id := ResourceId(SESSION_KIND, body.namespace, body.name);
      metrics.tables.phases == if success then phases - {id} else phases[id := "Error"]
  {
    if success {
      metrics.MarkFinalizerComplete(body.namespace, body.name);
      metrics.RemoveResource(SESSION_KIND, body.namespace, body.name);
    } else {
      SetAgain(phases, metrics.tables.phases, ResourceId(SESSION_KIND, body.namespace, body.name), "Error");
      metrics.SetResourcePhase(SESSION_KIND, body.namespace, body.name, "Error");
    }
  }
}
