/** What the status of a session says, read off the objects in the store. */
module StatusMeaning {
  import opened Wrappers
  import opened Sessions
  import opened Manifests
  import opened Kubernetes
  import opened OperatorMetrics
  import opened SessionTarget
  import opened SessionController

  // ----- Where the objects are -----

  /** The API server and namespace of a cluster: the operator's own, or those of a usable remote. */
  predicate IsAt(op: Operator, namespace: string, cluster: string, c: Context) {
    if cluster == op.localName || cluster == "local" then c.name == op.localName && c.place == Place("", namespace)
    else
      && cluster in op.remotes && op.remotes[cluster].usable && c.name == cluster
      && c.place.server == op.remotes[cluster].server
      && c.place.namespace == if op.remotes[cluster].namespace != "" then op.remotes[cluster].namespace else namespace
  }

  /** The server is at the destination, the client at the source. */
  predicate IsSite(op: Operator, body: Session, site: Site) {
    && IsAt(op, body.namespace, body.spec.destination.cluster, site.server)
    && IsAt(op, body.namespace, body.spec.source.cluster, site.client)
  }

  lemma SiteMeans(op: Operator, body: Session, site: Site)
    requires SiteOf(op, body) == Some(site)
    ensures IsSite(op, body, site)
  {
  }

  function StatefulSetAt(site: Site, name: string): Key {
    Key(site.server.place, StatefulSetKind, name)
  }

  function DeploymentAt(site: Site, name: string): Key {
    Key(site.client.place, DeploymentKind, name)
  }

  function JobAt(site: Site, name: string): Key {
    Key(site.client.place, JobKind, name)
  }

  // ----- Phases -----

  predicate ServerIsUp(server: Option<Object>) {
    server.Some? && server.value.progress.ready >= 1
  }

  /** The run of a probe is over: it failed, or it succeeded and is not active, with the server up. */
  predicate HasFailed(server: Option<Object>, job: Option<Object>) {
    server.Some? && job.Some? && job.value.progress.failed > 0
  }

  predicate HasSucceeded(server: Option<Object>, job: Option<Object>) {
    && ServerIsUp(server) && job.Some?
    && job.value.progress.failed == 0 && job.value.progress.active == 0 && job.value.progress.succeeded > 0
  }

  predicate IsActive(server: Option<Object>, job: Option<Object>) {
    ServerIsUp(server) && job.Some? && job.value.progress.failed == 0 && job.value.progress.active > 0
  }

  predicate IsProbeReadiness(r: Readiness, server: Option<Object>, job: Option<Object>) {
    && (r.phase.Failed? <==> HasFailed(server, job))
    && (r.phase.Running? <==> IsActive(server, job))
    && (r.phase.Completed? <==> HasSucceeded(server, job))
    && (r.clientReady <==> IsActive(server, job) || HasSucceeded(server, job))
    && (r.serverReady <==> ServerIsUp(server) && job.Some?)
    && r.counts ==
       if server.Some? && job.Some?
       then Some(Counts(job.value.progress.active, job.value.progress.succeeded, job.value.progress.failed))
       else Some(Counts(0, 0, 0))
  }

  predicate IsStreamReadiness(r: Readiness, server: Option<Object>, client: Option<Object>) {
    && (r.phase.Running? <==> ServerIsUp(server) && ServerIsUp(client))
    && (r.phase.Reconciling? <==> !(ServerIsUp(server) && ServerIsUp(client)))
    && (r.serverReady <==> ServerIsUp(server) && client.Some?)
    && (r.clientReady <==> ServerIsUp(client) && server.Some?)
    && r.counts == None
  }

  lemma ProbeReadiness(op: Operator, site: Site, body: Session, d: Design, w: World)
    requires d == op.design(body) && d.probe
    ensures IsProbeReadiness(StatusOf(op, site, body, w).readiness,
                             At(w, StatefulSetAt(site, d.statefulSetName)).current,
                             At(w, JobAt(site, d.jobName)).current)
  {
  }

  lemma StreamReadiness(op: Operator, site: Site, body: Session, d: Design, w: World)
    requires d == op.design(body) && !d.probe
    ensures IsStreamReadiness(StatusOf(op, site, body, w).readiness,
                              At(w, StatefulSetAt(site, d.statefulSetName)).current,
                              At(w, DeploymentAt(site, d.deploymentName)).current)
  {
  }

  /** The phase that is recorded for the session, as a text. */
  lemma PhaseTexts(status: Status)
    ensures var text := StatusPhase(Success(status));
      && (text == "Failed" <==> status.readiness.phase.Failed?)
      && (text == "Running" <==> status.readiness.phase.Running?)
      && (text == "Completed" <==> status.readiness.phase.Completed?)
      && (text == "Reconciling" <==> status.readiness.phase.Reconciling?)
    ensures forall e :: StatusPhase(Failure(e)) == "Error"
  {
    assert "Failed"[0] != "Running"[0] && "Completed"[0] != "Failed"[0] && "Completed"[0] != "Running"[0];
    assert |"Reconciling"| == 11 && |"Completed"| == 9 && |"Running"| == 7 && |"Failed"| == 6;
  }

  // ----- Counted runs -----

  /** One more run with this result, and its duration if it has one that does not run backwards. */
  ghost predicate CountsRun(t: ProbeTable<JobId>, t': ProbeTable<JobId>, id: JobId, result: string, p: Progress) {
    && t'.observed == t.observed + {id}
    && (forall k :: Count(t'.runs, k) == Count(t.runs, k) + if k == result then 1 else 0)
    && (forall k | k != result :: DurationsOf(t', k) == DurationsOf(t, k))
    && DurationsOf(t', result) ==
       if p.started.Some? && p.completed.Some? && p.completed.value >= p.started.value
       then DurationsOf(t, result) + [p.completed.value - p.started.value] else DurationsOf(t, result)
  }

  function DurationsOf(t: ProbeTable<JobId>, result: string): seq<int> {
    if result in t.durations then t.durations[result] else []
  }

  /** A probe that is over is counted under its result, once for each incarnation of its Job. */
  ghost predicate IsCounted(t: ProbeTable<JobId>, t': ProbeTable<JobId>, k: Key, server: Option<Object>,
                            job: Option<Object>) {
    if HasFailed(server, job) && JobId(k, job.value.uid) !in t.observed then
      CountsRun(t, t', JobId(k, job.value.uid), "failed", job.value.progress)
    else if HasSucceeded(server, job) && JobId(k, job.value.uid) !in t.observed then
      CountsRun(t, t', JobId(k, job.value.uid), "success", job.value.progress)
    else t' == t
  }

  lemma SeenIsCounted(t: ProbeTable<JobId>, k: Key, o: Object, result: string)
    requires JobId(k, o.uid) !in t.observed
    ensures CountsRun(t, Observed(t, Some(OutcomeOf(k, o, result))), JobId(k, o.uid), result, o.progress)
  {
  }

  lemma OutcomeSeen(w: World, t: Target, server: Option<Object>, job: Option<Object>)
    requires t.probe && server == At(w, t.statefulSet).current && job == At(w, t.job).current
    ensures ProbeOutcome(w, t) ==
            if HasFailed(server, job) then Some(OutcomeOf(t.job, job.value, "failed"))
            else if HasSucceeded(server, job) then Some(OutcomeOf(t.job, job.value, "success")) else None
  {
  }

  lemma OutcomeIsCounted(t: ProbeTable<JobId>, k: Key, server: Option<Object>, job: Option<Object>,
                         outcome: Option<Outcome>)
    requires outcome == if HasFailed(server, job) then Some(OutcomeOf(k, job.value, "failed"))
                        else if HasSucceeded(server, job) then Some(OutcomeOf(k, job.value, "success")) else None
    ensures IsCounted(t, Observed(t, outcome), k, server, job)
  {
    if outcome.Some? && JobId(k, job.value.uid) !in t.observed {
      SeenIsCounted(t, k, job.value, outcome.value.result);
    }
  }

  lemma ProbeIsCounted(op: Operator, site: Site, body: Session, d: Design, w: World, t: ProbeTable<JobId>)
    requires d == op.design(body) && d.probe
    ensures var k := JobAt(site, d.jobName);
      IsCounted(t, Observed(t, ProbeOutcome(w, TargetOf(op, site, body))), k,
                At(w, StatefulSetAt(site, d.statefulSetName)).current, At(w, k).current)
  {
    var k := JobAt(site, d.jobName);
    var server, job := At(w, StatefulSetAt(site, d.statefulSetName)).current, At(w, k).current;
    OutcomeSeen(w, TargetOf(op, site, body), server, job);
    OutcomeIsCounted(t, k, server, job, ProbeOutcome(w, TargetOf(op, site, body)));
  }

  // ----- A successful status -----

  /** A design follows the modes of its session. */
  predicate FollowsModes(d: Design, body: Session) {
    && (d.probe <==> body.spec.execution.mode == "probe")
    && (d.serviceMode <==> body.spec.networkMode == "service")
  }

  lemma DesignFollowsModes(digest: Names.Digest, s: Session)
    ensures FollowsModes(DesignOf(digest, s), s)
  {
  }

  /** Names of objects that a session does not have are empty. */
  predicate IsNamedStatus(d: Design, body: Session, status: Status) {
    && status.clientPeer == d.peer && status.headlessService == d.headlessName &&
        status.statefulSet == d.statefulSetName
    && status.service == (if body.spec.networkMode == "service" then d.serviceName else "")
    && status.deployment == (if body.spec.execution.mode == "probe" then "" else d.deploymentName)
    && status.job == (if body.spec.execution.mode == "probe" then d.jobName else "")
  }

  /** What a status says, and what it makes of the table of finished probes. */
  ghost predicate IsStatus(op: Operator, body: Session, d: Design, w: World, status: Status,
                           t: ProbeTable<JobId>, t': ProbeTable<JobId>) {
    var site := Site(status.server, status.client);
    var server := At(w, StatefulSetAt(site, d.statefulSetName)).current;
    && IsSite(op, body, site) && IsNamedStatus(d, body, status)
    && if body.spec.execution.mode == "probe" then
         && IsProbeReadiness(status.readiness, server, At(w, JobAt(site, d.jobName)).current)
         && IsCounted(t, t', JobAt(site, d.jobName), server, At(w, JobAt(site, d.jobName)).current)
       else IsStreamReadiness(status.readiness, server, At(w, DeploymentAt(site, d.deploymentName)).current) && t' == t
  }

  lemma NamesOfStatus(op: Operator, site: Site, body: Session, d: Design, w: World)
    requires d == op.design(body) && FollowsModes(d, body)
    ensures IsNamedStatus(d, body, StatusOf(op, site, body, w))
    ensures StatusOf(op, site, body, w).server == site.server && StatusOf(op, site, body, w).client == site.client
  {
  }

  lemma StreamIsNotCounted(op: Operator, site: Site, body: Session, w: World)
    requires !op.design(body).probe
    ensures ProbeOutcome(w, TargetOf(op, site, body)) == None
  {
  }

  lemma SiteStatus(op: Operator, site: Site, body: Session, d: Design, w: World, t: ProbeTable<JobId>)
    requires d == op.design(body) && FollowsModes(d, body) && SiteOf(op, body) == Some(site)
    ensures IsStatus(op, body, d, w, StatusOf(op, site, body, w), t,
                     Observed(t, ProbeOutcome(w, TargetOf(op, site, body))))
  {
    SiteMeans(op, body, site);
    NamesOfStatus(op, site, body, d, w);
    if d.probe {
      ProbeReadiness(op, site, body, d, w);
      ProbeIsCounted(op, site, body, d, w, t);
    } else {
      StreamReadiness(op, site, body, d, w);
      StreamIsNotCounted(op, site, body, w);
    }
  }

  /** Reading or reconciling, a call that succeeds says of the store what there is in it, and
      counts a finished probe under its result. */
  lemma StatusMeans(op: Operator, body: Session, d: Design, reconcile: bool, w: World, w': World, status: Status,
                    t: ProbeTable<JobId>, t': ProbeTable<JobId>)
    requires d == op.design(body) && d == DesignOf(op.digest, body)
    requires Handled(op, body, reconcile, w, w', Success(status))
    requires t' == Observed(t, SeenOutcome(op, body, w', Success(status)))
    ensures IsStatus(op, body, d, w', status, t, t')
  {
    DesignFollowsModes(op.digest, body);
    SiteStatus(op, SiteOf(op, body).value, body, d, w', t);
  }
}
