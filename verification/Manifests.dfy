/** The Kubernetes objects the operator makes for a session. */
module Manifests {
  import opened Wrappers
  import opened Decimal
  import opened Names
  import opened SessionNames
  import opened ExporterConfig
  import opened ExporterEnv
  import opened Sessions

  /** The labels of a session together with the component the object belongs to. */
  datatype ResourceLabels = ResourceLabels(session: Labels, role: string)

  datatype Selector = Selector(role: string, session: string)

  datatype PodSpec = PodSpec(
    nodeName: string, hostNetwork: bool, dnsPolicy: string, runtime: Runtime, env: Env)

  datatype Manifest =
    | ServiceManifest(labels: ResourceLabels, selector: Selector, headless: bool,
                      protocol: string, port: int, metricsPortName: string, metricsPort: int)
    | StatefulSetManifest(labels: ResourceLabels, selector: Selector, serviceName: string, pod: PodSpec)
    | DeploymentManifest(labels: ResourceLabels, selector: Selector, pod: PodSpec)
    | JobManifest(labels: ResourceLabels, deadlineSeconds: int, pod: PodSpec)
    | SessionManifest(labels: ResourceLabels, session: SessionSpec, trigger: string)

  /** What the schema of the session resource admits, and what building manifests relies on. */
  ghost predicate IsAdmitted(s: Session) {
    IsNormal(s.spec.exporter)
  }

  // ----- Names -----

  function HeadlessServiceName(digest: Digest, s: Session): string {
    ResourceName(digest, s.name, "headless")
  }

  function ServiceName(digest: Digest, s: Session): string {
    ResourceName(digest, s.name, "service")
  }

  function StatefulSetName(digest: Digest, s: Session): string {
    ResourceName(digest, s.name, "server")
  }

  function DeploymentName(digest: Digest, s: Session): string {
    ResourceName(digest, s.name, "client")
  }

  function GenerationText(s: Session): string {
    match s.generation case Some(g) => PrintNat(g) case None => "1"
  }

  function ClientJobName(digest: Digest, s: Session): string {
    JobName(digest, s.name, GenerationText(s))
  }

  function ClientPeer(digest: Digest, s: Session): string {
    if s.spec.networkMode == "host" then s.spec.destination.nodeAddress
    else if s.spec.networkMode == "service" then
      ServiceName(digest, s) + "." + s.namespace + ".svc.cluster.local"
    else
      StatefulSetName(digest, s) + "-0." + HeadlessServiceName(digest, s) + "." + s.namespace + ".svc.cluster.local"
  }

  // ----- Environments -----

  function MetricContext(s: Session): ContextLabels {
    map[
      MeasurementId := s.spec.measurement,
      ProfileRef := s.spec.profile,
      SessionId := SessionNames.SessionId(s.spec.measurement, s.spec.networkMode, s.spec.direction),
      ExecutionMode := s.spec.execution.mode,
      Direction := s.spec.direction,
      NetworkMode := s.spec.networkMode,
      SrcNode := s.spec.source.nodeName,
      DstNode := s.spec.destination.nodeName,
      SrcCluster := s.spec.source.cluster,
      DstCluster := s.spec.destination.cluster
    ]
  }

  function ServerEnv(s: Session): Result<Env, SpecError> {
    ExporterEnvOf(s.spec.exporter, ServerMode, "", MetricContext(s))
  }

  /** The client runs for the duration of the execution, if one is given. */
  function ClientExporter(s: Session): Exporter {
    var duration := s.spec.execution.durationSeconds;
    if duration.Some? && duration.value > 0
    then s.spec.exporter.(values := s.spec.exporter.values[ClientDuration := Int(duration.value)])
    else s.spec.exporter
  }

  function ExecutionEntries(e: Execution): Env {
    [EnvVar(ExecutionModeVar, e.mode)]
    + (if e.mode == "periodicProbe"
       then [EnvVar(PeriodSecondsVar, PrintInt(if e.every.Some? then e.every.value.seconds else 0))] else [])
  }

  function ClientEnv(digest: Digest, s: Session): Result<Env, SpecError> {
    var env :- ExporterEnvOf(ClientExporter(s), ClientMode, ClientPeer(digest, s), MetricContext(s));
    Success(env + ExecutionEntries(s.spec.execution))
  }

  lemma ClientExporterIsNormal(s: Session)
    requires IsAdmitted(s)
    ensures IsNormal(ClientExporter(s))
  {
  }

  /** An admitted session always has its environments: overriding the duration breaks no bound. */
  lemma EnvironmentsExist(digest: Digest, s: Session)
    requires IsAdmitted(s)
    ensures ServerEnv(s) == Success(Entries(s.spec.exporter, ServerMode, "", MetricContext(s)))
    ensures ClientEnv(digest, s) ==
            Success(Entries(ClientExporter(s), ClientMode, ClientPeer(digest, s), MetricContext(s))
                    + ExecutionEntries(s.spec.execution))
  {
    NormalIsFixed(s.spec.exporter);
    ClientExporterIsNormal(s);
    NormalIsFixed(ClientExporter(s));
  }

  // ----- Manifests -----

  function LabelsFor(s: Session, role: string): ResourceLabels {
    ResourceLabels(s.labels, role)
  }

  /** The session label; a session without one is turned away before anything is built. */
  function LabelOf(s: Session): string {
    if SessionKey in s.labels then s.labels[SessionKey] else ""
  }

  function SelectorFor(s: Session, role: string): Selector {
    Selector(role, LabelOf(s))
  }

  function PodFor(s: Session, nodeName: string, env: Env): PodSpec {
    var host := s.spec.networkMode == "host";
    PodSpec(nodeName, host, if host then "ClusterFirstWithHostNet" else "ClusterFirst", s.spec.runtime, env)
  }

  function IntOf(values: Settings, f: Field): int {
    if f in values && values[f].Int? then values[f].n else 0
  }

  function EnvOrEmpty(r: Result<Env, SpecError>): Env {
    match r case Success(env) => env case Failure(_) => []
  }

  function HeadlessManifest(s: Session): Manifest {
    ServiceManifest(LabelsFor(s, "server"), SelectorFor(s, "server"), true, s.spec.protocol,
                    IntOf(s.spec.exporter.values, Port), "metrics", IntOf(s.spec.exporter.values, BindPort))
  }

  function ClusterIpManifest(s: Session): Manifest {
    ServiceManifest(LabelsFor(s, "server"), SelectorFor(s, "server"), false, s.spec.protocol,
                    IntOf(s.spec.exporter.values, Port), "service-metrics", IntOf(s.spec.exporter.values, BindPort))
  }

  function ServerManifest(digest: Digest, s: Session): Manifest {
    StatefulSetManifest(LabelsFor(s, "server"), SelectorFor(s, "server"), HeadlessServiceName(digest, s),
                        PodFor(s, s.spec.destination.nodeName, EnvOrEmpty(ServerEnv(s))))
  }

  function ClientManifest(digest: Digest, s: Session): Manifest {
    DeploymentManifest(LabelsFor(s, "client"), SelectorFor(s, "client"),
                       PodFor(s, s.spec.source.nodeName, EnvOrEmpty(ClientEnv(digest, s))))
  }

  function ClientJobManifest(digest: Digest, s: Session): Manifest {
    var duration := s.spec.execution.durationSeconds;
    JobManifest(LabelsFor(s, "client"),
                (if duration.Some? && duration.value != 0 then duration.value
                 else IntOf(s.spec.exporter.values, ClientDuration)) + 60,
                PodFor(s, s.spec.source.nodeName, EnvOrEmpty(ClientEnv(digest, s))))
  }

  // ----- Designs -----

  /** All that follows from a session alone, wherever its clusters are. */
  datatype Design = Design(
    headlessName: string, serviceName: string, statefulSetName: string, deploymentName: string, jobName: string,
    peer: string, sessionLabel: string, serviceMode: bool, probe: bool,
    headless: Manifest, service: Manifest, server: Manifest, deployment: Manifest, job: Manifest, buildable: bool)

  function DesignOf(digest: Digest, s: Session): Design {
    Design(
      HeadlessServiceName(digest, s), ServiceName(digest, s), StatefulSetName(digest, s),
      DeploymentName(digest, s), ClientJobName(digest, s), ClientPeer(digest, s), LabelOf(s),
      s.spec.networkMode == "service", s.spec.execution.mode == "probe",
      HeadlessManifest(s), ClusterIpManifest(s), ServerManifest(digest, s),
      ClientManifest(digest, s), ClientJobManifest(digest, s), ServerEnv(s).Success? && ClientEnv(digest, s).Success?)
  }

  /** Everything an admitted session needs can be built. */
  lemma AdmittedIsBuildable(digest: Digest, s: Session)
    requires IsAdmitted(s)
    ensures DesignOf(digest, s).buildable
  {
    EnvironmentsExist(digest, s);
  }
}
