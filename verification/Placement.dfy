/** Where the pods of a session run, and with what, once its objects are in the store. */
module Placement {
  import opened Wrappers
  import opened ExporterEnv
  import opened Sessions
  import opened Manifests
  import opened Kubernetes
  import opened SessionTarget
  import opened SessionController
  import opened SessionProtocol
  import opened StatusMeaning

  // ----- Pods -----

  /** A pod is pinned to a node, shares its network in host mode only, and runs the session's image. */
  predicate RunsOn(pod: PodSpec, node: string, body: Session) {
    && pod.nodeName == node && pod.runtime == body.spec.runtime
    && (pod.hostNetwork <==> body.spec.networkMode == "host")
    && pod.dnsPolicy == if body.spec.networkMode == "host" then "ClusterFirstWithHostNet" else "ClusterFirst"
  }

  predicate IsServerPod(m: Manifest, body: Session) {
    && m.StatefulSetManifest? && m.labels == ResourceLabels(body.labels, "server")
    && RunsOn(m.pod, body.spec.destination.nodeName, body) && ServerEnv(body) == Success(m.pod.env)
  }

  predicate IsClientPod(digest: Names.Digest, m: Manifest, body: Session) {
    && (m.DeploymentManifest? || m.JobManifest?) && m.labels == ResourceLabels(body.labels, "client")
    && RunsOn(m.pod, body.spec.source.nodeName, body) && ClientEnv(digest, body) == Success(m.pod.env)
  }

  predicate IsServiceOf(m: Manifest, headless: bool, body: Session) {
    m.ServiceManifest? && m.headless == headless && m.labels == ResourceLabels(body.labels, "server")
  }

  predicate PlacesPods(digest: Names.Digest, d: Design, body: Session) {
    && IsServerPod(d.server, body)
    && IsClientPod(digest, d.deployment, body) && d.deployment.DeploymentManifest?
    && IsClientPod(digest, d.job, body) && d.job.JobManifest?
    && IsServiceOf(d.headless, true, body) && IsServiceOf(d.service, false, body)
  }

  lemma ServerIsPlaced(digest: Names.Digest, s: Session)
    requires IsAdmitted(s)
    ensures IsServerPod(ServerManifest(digest, s), s)
  {
    EnvironmentsExist(digest, s);
  }

  lemma ClientIsPlaced(digest: Names.Digest, s: Session)
    requires IsAdmitted(s)
    ensures IsClientPod(digest, ClientManifest(digest, s), s) && ClientManifest(digest, s).DeploymentManifest?
    ensures IsClientPod(digest, ClientJobManifest(digest, s), s) && ClientJobManifest(digest, s).JobManifest?
  {
    EnvironmentsExist(digest, s);
  }

  lemma DesignPlacesPods(digest: Names.Digest, s: Session)
    requires IsAdmitted(s)
    ensures PlacesPods(digest, DesignOf(digest, s), s)
  {
    ServerIsPlaced(digest, s);
    ClientIsPlaced(digest, s);
  }

  // ----- The store after a reconciliation -----

  predicate Stored(w: World, k: Key, m: Manifest) {
    At(w, k).current.Some? && At(w, k).current.value.manifest == m
  }

  function ServiceAt(site: Site, name: string): Key {
    Key(site.server.place, ServiceKind, name)
  }

  /** The server is stored at the destination, on the destination's node. */
  ghost predicate ServerIsStored(d: Design, body: Session, site: Site, w: World) {
    && (exists m :: Stored(w, StatefulSetAt(site, d.statefulSetName), m) && IsServerPod(m, body))
    && (exists m :: Stored(w, ServiceAt(site, d.headlessName), m) && IsServiceOf(m, true, body))
    && if body.spec.networkMode == "service"
       then exists m :: Stored(w, ServiceAt(site, d.serviceName), m) && IsServiceOf(m, false, body)
       else At(w, ServiceAt(site, d.serviceName)).current == None
  }

  /** A Job of the session that is there before a reconciliation is left alone; one that is made
      needs the server to be up. */
  predicate MakesJob(d: Design, body: Session, site: Site, w: World) {
    && ServerIsUp(At(w, StatefulSetAt(site, d.statefulSetName)).current)
    && !HasLabel(At(w, JobAt(site, d.jobName)), SessionKey, d.sessionLabel)
  }

  /** The client is stored at the source, on the source's node: as a Deployment, or as the Job that
      was just made. */
  ghost predicate ClientIsStored(digest: Names.Digest, d: Design, body: Session, site: Site, w: World, w': World) {
    if body.spec.execution.mode != "probe" then
      exists m :: Stored(w', DeploymentAt(site, d.deploymentName), m) && m.DeploymentManifest? &&
          IsClientPod(digest, m, body)
    else
      && At(w', DeploymentAt(site, d.deploymentName)).current == None
      && if MakesJob(d, body, site, w)
         then exists m :: Stored(w', JobAt(site, d.jobName), m) && m.JobManifest? && IsClientPod(digest, m, body)
         else At(w', JobAt(site, d.jobName)) == At(w, JobAt(site, d.jobName))
  }

  /** The objects of the server, and those of the client, as a design has them. */
  ghost predicate HoldsServer(d: Design, site: Site, w: World) {
    && Stored(w, StatefulSetAt(site, d.statefulSetName), d.server)
    && Stored(w, ServiceAt(site, d.headlessName), d.headless)
    && if d.serviceMode then Stored(w, ServiceAt(site, d.serviceName), d.service)
       else At(w, ServiceAt(site, d.serviceName)).current == None
  }

  ghost predicate HoldsClient(d: Design, body: Session, site: Site, w: World, w': World) {
    if !d.probe then Stored(w', DeploymentAt(site, d.deploymentName), d.deployment)
    else
      && At(w', DeploymentAt(site, d.deploymentName)).current == None
      && if MakesJob(d, body, site, w) then Stored(w', JobAt(site, d.jobName), d.job)
         else At(w', JobAt(site, d.jobName)) == At(w, JobAt(site, d.jobName))
  }

  /** The target has the design's names and manifests at the session's clusters. */
  predicate IsTargetOf(t: Target, d: Design, site: Site) {
    && t.statefulSet == StatefulSetAt(site, d.statefulSetName) && t.serverManifest == d.server
    && t.headless == ServiceAt(site, d.headlessName) && t.headlessManifest == d.headless
    && t.service == ServiceAt(site, d.serviceName) && t.serviceManifest == d.service && t.serviceMode == d.serviceMode
    && t.deployment == DeploymentAt(site, d.deploymentName) && t.deploymentManifest == d.deployment
    && t.job == JobAt(site, d.jobName) && t.jobManifest == d.job && t.probe == d.probe
    && t.sessionLabel == d.sessionLabel
  }

  lemma TargetFollowsDesign(op: Operator, site: Site, body: Session)
    ensures IsTargetOf(TargetOf(op, site, body), op.design(body), site)
  {
  }

  lemma ReachedHoldsServer(t: Target, d: Design, site: Site, w: World, w': World)
    requires IsTargetOf(t, d, site) && t.Valid() && Reached(w', Goal(t, w))
    ensures HoldsServer(d, site, w')
  {
    ReconciliationConverges(t, w, w');
  }

  lemma ReachedHoldsClient(t: Target, d: Design, body: Session, site: Site, w: World, w': World)
    requires IsTargetOf(t, d, site) && t.Valid() && Reached(w', Goal(t, w))
    ensures HoldsClient(d, body, site, w, w')
  {
    assert At(w', t.deployment) == GoalSlot(t, w, t.deployment);
    assert At(w', t.job) == GoalSlot(t, w, t.job);
  }

  lemma ServerStored(digest: Names.Digest, site: Site, body: Session, d: Design, w: World)
    requires FollowsModes(d, body) && PlacesPods(digest, d, body) && HoldsServer(d, site, w)
    ensures ServerIsStored(d, body, site, w)
  {
  }

  lemma ClientStored(digest: Names.Digest, site: Site, body: Session, d: Design, w: World, w': World)
    requires FollowsModes(d, body) && PlacesPods(digest, d, body) && HoldsClient(d, body, site, w, w')
    ensures ClientIsStored(digest, d, body, site, w, w')
  {
  }

  /** A design, and a store that holds its objects. */
  lemma DesignIsStored(op: Operator, site: Site, body: Session, d: Design, w: World, w': World)
    requires d == op.design(body) && IsSound(d) && FollowsModes(d, body) && PlacesPods(op.digest, d, body)
    requires Reached(w', Goal(TargetOf(op, site, body), w))
    ensures ServerIsStored(d, body, site, w') && ClientIsStored(op.digest, d, body, site, w, w')
  {
    var t := TargetOf(op, site, body);
    TargetIsValid(op, site, body);
    TargetFollowsDesign(op, site, body);
    ReachedHoldsServer(t, d, site, w, w');
    ReachedHoldsClient(t, d, body, site, w, w');
    ServerStored(op.digest, site, body, d, w');
    ClientStored(op.digest, site, body, d, w, w');
  }

  lemma HandledStatus(op: Operator, body: Session, d: Design, w: World, w': World, status: Status)
    requires d == op.design(body) && FollowsModes(d, body) && Handled(op, body, true, w, w', Success(status))
    ensures var site := Site(status.server, status.client);
      SiteOf(op, body) == Some(site) && IsSite(op, body, site) && Reached(w', Goal(TargetOf(op, site, body), w))
  {
    var site := SiteOf(op, body).value;
    SiteMeans(op, body, site);
    NamesOfStatus(op, site, body, d, w');
  }

  /** After a successful reconciliation, in every mode, the server of a session runs at its
      destination and the client at its source, each on its node, with the session's image and the
      environment its exporter reads. */
  lemma PodsArePlaced(op: Operator, body: Session, d: Design, w: World, w': World, status: Status)
    requires d == op.design(body) && d == DesignOf(op.digest, body) && IsSound(d) && IsAdmitted(body)
    requires Handled(op, body, true, w, w', Success(status))
    ensures var site := Site(status.server, status.client);
      IsSite(op, body, site) && ServerIsStored(d, body, site, w') && ClientIsStored(op.digest, d, body, site, w, w')
  {
    DesignFollowsModes(op.digest, body);
    DesignPlacesPods(op.digest, body);
    HandledStatus(op, body, d, w, w', status);
    DesignIsStored(op, Site(status.server, status.client), body, d, w, w');
  }

  /** A successful clean-up leaves none of the five objects at the clusters of the session. */
  lemma CleanUpRemoves(op: Operator, body: Session, d: Design, w: World, w': World)
    requires d == op.design(body) && Cleaned(op, body, w, w', true)
    ensures exists site :: IsSite(op, body, site) && IsRemoved(d, site, w')
  {
    var site := SiteOf(op, body).value;
    SiteMeans(op, body, site);
    KeysOfSite(op, body, site, d);
    KeysRemoved(op, body, site, d, w, w');
  }

  predicate IsRemoved(d: Design, site: Site, w: World) {
    && At(w, StatefulSetAt(site, d.statefulSetName)).current == None
    && At(w, ServiceAt(site, d.headlessName)).current == None && At(w, ServiceAt(site, d.serviceName)).current == None
    && At(w, DeploymentAt(site, d.deploymentName)).current == None && At(w, JobAt(site, d.jobName)).current == None
  }

  lemma KeysOfSite(op: Operator, body: Session, site: Site, d: Design)
    requires d == op.design(body) && SiteOf(op, body) == Some(site)
    ensures {StatefulSetAt(site, d.statefulSetName), ServiceAt(site, d.headlessName), ServiceAt(site, d.serviceName),
             DeploymentAt(site, d.deploymentName), JobAt(site, d.jobName)} <= CleanKeys(op, body)
  {
  }

  lemma KeysRemoved(op: Operator, body: Session, site: Site, d: Design, w: World, w': World)
    requires {StatefulSetAt(site, d.statefulSetName), ServiceAt(site, d.headlessName), ServiceAt(site, d.serviceName),
              DeploymentAt(site, d.deploymentName), JobAt(site, d.jobName)} <= CleanKeys(op, body)
    requires Reached(w', Removed(CleanKeys(op, body), w))
    ensures IsRemoved(d, site, w')
  {
    forall k | k in CleanKeys(op, body) ensures At(w', k).current == None {
      assert At(w', k) == Removed(CleanKeys(op, body), w)(k);
    }
  }
}
