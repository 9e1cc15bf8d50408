/** How the objects of a session fit together once they run: the Services find the server, the
    client finds a Service, and both ends agree on what they were told. */
module Wiring {
  import opened Wrappers
  import opened ExporterConfig
  import opened ExporterEnv
  import opened Sessions
  import opened Manifests
  import opened Kubernetes
  import opened SessionTarget
  import opened SessionController
  import opened SessionProtocol
  import opened SessionDesigns
  import opened ExporterArgs

  // ----- Selectors -----

  /** Pods carry the labels of the object that makes them. */
  predicate Selects(selector: Selector, labels: ResourceLabels) {
    labels.role == selector.role && SessionKey in labels.session && labels.session[SessionKey] == selector.session
  }

  /** The selectors of a session pick the pods of its server among the pods of all labelled
      sessions, and its client's Deployment picks its own. */
  lemma ServicesSelectTheServer(digest: Names.Digest, s: Session, s': Session)
    requires SessionKey in s.labels && SessionKey in s'.labels
    ensures forall selector | selector in {HeadlessManifest(s).selector, ClusterIpManifest(s).selector,
                                           ServerManifest(digest, s).selector} ::
              && (Selects(selector, ServerManifest(digest, s').labels) <==> LabelOf(s) == LabelOf(s'))
              && !Selects(selector, ClientManifest(digest, s').labels)
              && !Selects(selector, ClientJobManifest(digest, s').labels)
    ensures var selector := ClientManifest(digest, s).selector;
      && (Selects(selector, ClientManifest(digest, s').labels) <==> LabelOf(s) == LabelOf(s'))
      && !Selects(selector, ServerManifest(digest, s').labels)
  {
    RolesDiffer();
  }

  /** No selector of a session picks a pod of a session that is told apart from it. */
  lemma SelectorsApart(digest: Names.Digest, s: Session, s': Session)
    requires Distinguished(digest, s, s')
    ensures forall selector | selector in {HeadlessManifest(s).selector, ClusterIpManifest(s).selector,
                                           ServerManifest(digest, s).selector, ClientManifest(digest, s).selector} ::
              && !Selects(selector, ServerManifest(digest, s').labels)
              && !Selects(selector, ClientManifest(digest, s').labels)
              && !Selects(selector, ClientJobManifest(digest, s').labels)
  {
    ServicesSelectTheServer(digest, s, s');
  }

  lemma RolesDiffer()
    ensures "server" != "client"
  {
  }

  // ----- The client's peer -----

  function HostName(name: string, namespace: string): string {
    name + "." + namespace + ".svc.cluster.local"
  }

  /** The peer is the host name of a Service that exists, or of the server's pod in one. */
  ghost predicate IsServed(w: World, t: Target, s: Session, peer: string) {
    if s.spec.networkMode == "service" then
      Exists(w, t.service) && At(w, t.service).current.value.manifest.ServiceManifest? &&
          peer == HostName(t.service.name, s.namespace)
    else
      && Exists(w, t.headless) && Exists(w, t.statefulSet)
      && var server := At(w, t.statefulSet).current.value.manifest;
         server.StatefulSetManifest? && server.serviceName == t.headless.name
         && peer == HostName(t.statefulSet.name + "-0." + server.serviceName, s.namespace)
  }

  /** What a design says of its peer. */
  ghost predicate HasPeer(d: Design, s: Session) {
    if s.spec.networkMode == "host" then
      d.peer == s.spec.destination.nodeAddress && d.server.StatefulSetManifest?
      && d.server.pod.hostNetwork && d.server.pod.nodeName == s.spec.destination.nodeName
    else if s.spec.networkMode == "service" then
      d.serviceMode && d.service.ServiceManifest? && d.peer == HostName(d.serviceName, s.namespace)
    else
      d.server.StatefulSetManifest? && d.server.serviceName == d.headlessName
      && d.peer == HostName(d.statefulSetName + "-0." + d.headlessName, s.namespace)
  }

  lemma DesignHasPeer(digest: Names.Digest, s: Session)
    ensures HasPeer(DesignOf(digest, s), s)
  {
  }

  lemma PeerIsServed(op: Operator, site: Site, s: Session, d: Design, w': World)
    requires d == op.design(s) && HasPeer(d, s) && ServerConverged(TargetOf(op, site, s), w')
    ensures s.spec.networkMode != "host" ==> IsServed(w', TargetOf(op, site, s), s, d.peer)
  {
  }

  /** After a successful reconciliation the client's peer is served by the objects just made, or
      is the address of the node whose network the server shares. */
  lemma ClientFindsServer(op: Operator, site: Site, s: Session, d: Design, w: World, w': World)
    requires d == op.design(s) && d == DesignOf(op.digest, s) && IsSound(d)
    requires Reached(w', Goal(TargetOf(op, site, s), w))
    ensures StatusOf(op, site, s, w').clientPeer == d.peer
    ensures if s.spec.networkMode == "host" then d.peer == s.spec.destination.nodeAddress && d.server.pod.hostNetwork
                                                 && d.server.pod.nodeName == s.spec.destination.nodeName
            else IsServed(w', TargetOf(op, site, s), s, d.peer)
  {
    DesignHasPeer(op.digest, s);
    TargetIsValid(op, site, s);
    ReconciliationConverges(TargetOf(op, site, s), w, w');
    PeerIsServed(op, site, s, d, w');
  }

  // ----- Both ends -----

  /** A server that starts listens where the Services of its session lead. */
  lemma ServerListens(args: Args, s: Session)
    requires Understood(args, s.spec.exporter, ServerMode, MetricContext(s))
    ensures Port in args.ints && BindPort in args.ints
    ensures args.ints[Port] == HeadlessManifest(s).port == ClusterIpManifest(s).port
    ensures args.ints[BindPort] == HeadlessManifest(s).metricsPort == ClusterIpManifest(s).metricsPort
  {
  }

  /** A client that starts calls the same port, and its Job's deadline is a minute more than the
      time it is told to run. */
  lemma ClientCalls(args: Args, digest: Names.Digest, s: Session)
    requires Understood(args, ClientExporter(s), ClientMode, MetricContext(s)) && IsValidExecution(s.spec.execution)
    ensures Port in args.ints && args.ints[Port] == HeadlessManifest(s).port == ClusterIpManifest(s).port
    ensures ClientDuration in args.ints &&
            ClientJobManifest(digest, s).deadlineSeconds == args.ints[ClientDuration] + 60
  {
    ClientInts(args, s, ClientExporter(s), MetricContext(s));
    SamePort(s);
    Deadline(digest, s);
  }

  lemma ClientInts(args: Args, s: Session, exporter: Exporter, context: ContextLabels)
    requires Understood(args, exporter, ClientMode, context)
    ensures Port in args.ints && IntOf(exporter.values, Port) == args.ints[Port]
    ensures ClientDuration in args.ints && IntOf(exporter.values, ClientDuration) == args.ints[ClientDuration]
  {
  }

  lemma SamePort(s: Session)
    ensures IntOf(ClientExporter(s).values, Port) == HeadlessManifest(s).port == ClusterIpManifest(s).port
  {
  }

  lemma Deadline(digest: Names.Digest, s: Session)
    requires IsValidExecution(s.spec.execution)
    ensures ClientJobManifest(digest, s).deadlineSeconds == IntOf(ClientExporter(s).values, ClientDuration) + 60
  {
  }

  /** Whatever the images add, a server and a client of a session that start agree on protocol and
      port, which are those of the Services, and the client runs against the session's peer, for a
      minute less than its Job's deadline. */
  lemma EndsAgree(server: Environ, client: Environ, digest: Names.Digest, s: Session, atServer: Args, atClient: Args)
    requires IsAdmitted(s) && IsValidExecution(s.spec.execution)
    requires ServerEnv(s).Success? && ParseArgs(EnvironOf(server, ServerEnv(s).value)) == Some(atServer)
    requires ClientEnv(digest, s).Success? && ParseArgs(EnvironOf(client, ClientEnv(digest, s).value)) == Some(atClient)
    ensures atServer.proto == atClient.proto == s.spec.exporter.protocol && atClient.peer == ClientPeer(digest, s)
    ensures Port in atServer.ints && Port in atClient.ints && ClientDuration in atClient.ints
    ensures atServer.ints[Port] == atClient.ints[Port] == HeadlessManifest(s).port == ClusterIpManifest(s).port
    ensures ClientJobManifest(digest, s).deadlineSeconds == atClient.ints[ClientDuration] + 60
  {
    var context := MetricContext(s);
    BothUnderstood(server, client, digest, s, context, atServer, atClient);
    ServerListens(atServer, s);
    ClientCalls(atClient, digest, s);
  }

  lemma BothUnderstood(server: Environ, client: Environ, digest: Names.Digest, s: Session, context: ContextLabels,
                       atServer: Args, atClient: Args)
    requires IsAdmitted(s) && IsValidExecution(s.spec.execution) && context == MetricContext(s)
    requires ServerEnv(s).Success? && ParseArgs(EnvironOf(server, ServerEnv(s).value)) == Some(atServer)
    requires ClientEnv(digest, s).Success? && ParseArgs(EnvironOf(client, ClientEnv(digest, s).value)) == Some(atClient)
    ensures Understood(atServer, s.spec.exporter, ServerMode, context) &&
            Understood(atClient, ClientExporter(s), ClientMode, context)
    ensures atClient.peer == ClientPeer(digest, s)
  {
    ServerAccepted(server, s);
    ClientAccepted(client, digest, s);
  }
}
