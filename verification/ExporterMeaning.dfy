/** What the exporters of a session are told: its context labels, its settings, how long to run. */
module ExporterMeaning {
  import opened Wrappers
  import opened ExporterConfig
  import opened ExporterEnv
  import opened Sessions
  import opened Manifests
  import opened ExporterArgs

  /** The labels a session's metrics carry. */
  predicate HasContext(args: Args, s: SessionSpec) {
    && (forall key: ContextKey :: key in args.context)
    && args.context[MeasurementId] == s.measurement && args.context[ProfileRef] == s.profile
    && args.context[SessionId] == s.measurement + ":" + s.networkMode + ":" + s.direction
    && args.context[ExecutionMode] == s.execution.mode
    && args.context[Direction] == s.direction && args.context[NetworkMode] == s.networkMode
    && args.context[SrcNode] == s.source.nodeName && args.context[DstNode] == s.destination.nodeName
    && args.context[SrcCluster] == s.source.cluster && args.context[DstCluster] == s.destination.cluster
  }

  lemma ContextMeans(args: Args, exporter: Exporter, mode: Mode, s: Session)
    requires Understood(args, exporter, mode, MetricContext(s))
    ensures HasContext(args, s.spec)
  {
  }

  /** An integer setting as it was given. */
  predicate HasInt(args: Args, values: Settings, f: Field) {
    f in args.ints && f in values && values[f] == Int(args.ints[f])
  }

  /** A text as it was given. */
  predicate HasText(args: Args, values: Settings, f: Field, g: Field) {
    f in args.texts && g in values && (values[g].Text? ==> args.texts[f] == values[g].text)
  }

  /** A server listens, measures and traces as the session's settings say. A hint about the client
      that is empty is what the client is told. */
  predicate IsToldServer(args: Args, values: Settings) {
    HasServerInts(args, values) && HasServerTexts(args, values)
  }

  predicate HasServerInts(args: Args, values: Settings) {
    && Debug in values && values[Debug] == Bool(args.debug)
    && HasInt(args, values, Port) && HasInt(args, values, BindPort) && HasInt(args, values, Interval)
    && HasInt(args, values, Len) && HasInt(args, values, MetricTTL) && HasInt(args, values, PathTraceTTL)
    && HasInt(args, values, PathTraceMaxHops) && HasInt(args, values, PathTraceTimeout)
  }

  predicate HasServerTexts(args: Args, values: Settings) {
    && HasText(args, values, ServerAdditionalParams, ServerAdditionalParams)
    && ContextClientBandwidth in values && ContextClientAdditionalParams in values
    && HasText(args, values, ContextClientBandwidth,
               if values[ContextClientBandwidth] == Text("") then ClientBandwidth else ContextClientBandwidth)
    && HasText(args, values, ContextClientAdditionalParams,
               if values[ContextClientAdditionalParams] == Text("") then ClientAdditionalParams
               else ContextClientAdditionalParams)
  }

  /** A client runs for the duration of its execution, or else for that of its settings. */
  predicate IsToldClient(args: Args, values: Settings, e: Execution) {
    && Debug in values && values[Debug] == Bool(args.debug)
    && HasInt(args, values, Port) && HasInt(args, values, Interval) && HasInt(args, values, Len)
    && ClientDuration in args.ints
    && (if e.durationSeconds.Some? then args.ints[ClientDuration] == e.durationSeconds.value
        else HasInt(args, values, ClientDuration))
    && HasText(args, values, ClientBandwidth, ClientBandwidth)
    && HasText(args, values, ClientAdditionalParams, ClientAdditionalParams)
  }

  lemma ServerInt(args: Args, exporter: Exporter, context: ContextLabels, f: Field)
    requires Understood(args, exporter, ServerMode, context) && IsInteger(f) && f != ClientDuration
    ensures HasInt(args, exporter.values, f)
  {
  }

  lemma ServerInts(args: Args, exporter: Exporter, context: ContextLabels)
    requires Understood(args, exporter, ServerMode, context) && IsNormal(exporter)
    ensures HasServerInts(args, exporter.values)
  {
    forall f | IsInteger(f) && f != ClientDuration ensures HasInt(args, exporter.values, f) {
      ServerInt(args, exporter, context, f);
    }
  }

  lemma ClientInt(args: Args, exporter: Exporter, context: ContextLabels, f: Field)
    requires Understood(args, exporter, ClientMode, context) && f in {Port, Interval, Len, ClientDuration}
    ensures HasInt(args, exporter.values, f)
  {
  }

  lemma TextOf(args: Args, exporter: Exporter, mode: Mode, context: ContextLabels, f: Field)
    requires Understood(args, exporter, mode, context) && IsText(f) && !LeftOut(mode, f) && f in exporter.values
    requires f in {ContextClientBandwidth, ContextClientAdditionalParams} ==> exporter.values[f] != Text("")
    ensures HasText(args, exporter.values, f, f)
  {
  }

  lemma HintOf(args: Args, exporter: Exporter, context: ContextLabels, f: Field, g: Field)
    requires Understood(args, exporter, ServerMode, context) && f in exporter.values && g in exporter.values
    requires (f == ContextClientBandwidth && g == ClientBandwidth) ||
             (f == ContextClientAdditionalParams && g == ClientAdditionalParams)
    requires exporter.values[f] == Text("")
    ensures HasText(args, exporter.values, f, g)
  {
  }

  lemma ServerIsTold(args: Args, exporter: Exporter, context: ContextLabels)
    requires Understood(args, exporter, ServerMode, context) && IsNormal(exporter)
    ensures IsToldServer(args, exporter.values)
  {
    ServerInts(args, exporter, context);
    ServerTexts(args, exporter, context);
  }

  lemma ServerTexts(args: Args, exporter: Exporter, context: ContextLabels)
    requires Understood(args, exporter, ServerMode, context) && IsNormal(exporter)
    ensures HasServerTexts(args, exporter.values)
  {
    TextOf(args, exporter, ServerMode, context, ServerAdditionalParams);
    if exporter.values[ContextClientBandwidth] == Text("") {
      HintOf(args, exporter, context, ContextClientBandwidth, ClientBandwidth);
    } else {
      TextOf(args, exporter, ServerMode, context, ContextClientBandwidth);
    }
    if exporter.values[ContextClientAdditionalParams] == Text("") {
      HintOf(args, exporter, context, ContextClientAdditionalParams, ClientAdditionalParams);
    } else {
      TextOf(args, exporter, ServerMode, context, ContextClientAdditionalParams);
    }
  }

  lemma ClientIsTold(args: Args, s: Session, exporter: Exporter, context: ContextLabels)
    requires exporter == ClientExporter(s) && IsNormal(s.spec.exporter) && IsNormal(exporter)
    requires Understood(args, exporter, ClientMode, context) && IsValidExecution(s.spec.execution)
    ensures IsToldClient(args, s.spec.exporter.values, s.spec.execution)
  {
    ClientValues(args, exporter, context);
    OnlyDuration(s);
  }

  lemma ClientValues(args: Args, exporter: Exporter, context: ContextLabels)
    requires Understood(args, exporter, ClientMode, context) && IsNormal(exporter)
    ensures forall f | f in {Port, Interval, Len, ClientDuration} :: HasInt(args, exporter.values, f)
    ensures HasText(args, exporter.values, ClientBandwidth, ClientBandwidth)
    ensures HasText(args, exporter.values, ClientAdditionalParams, ClientAdditionalParams)
    ensures exporter.values[Debug] == Bool(args.debug)
  {
    forall f | f in {Port, Interval, Len, ClientDuration} ensures HasInt(args, exporter.values, f) {
      ClientInt(args, exporter, context, f);
    }
    TextOf(args, exporter, ClientMode, context, ClientBandwidth);
    TextOf(args, exporter, ClientMode, context, ClientAdditionalParams);
  }

  lemma OnlyDuration(s: Session)
    requires IsValidExecution(s.spec.execution) && IsNormal(s.spec.exporter)
    ensures forall f: Field | f != ClientDuration :: ClientExporter(s).values[f] == s.spec.exporter.values[f]
    ensures var e := s.spec.execution;
      ClientExporter(s).values[ClientDuration] ==
      if e.durationSeconds.Some? then Int(e.durationSeconds.value) else s.spec.exporter.values[ClientDuration]
  {
  }

  /** On the exporter image, the server of an admitted session is told its settings and labels. */
  lemma ServerIsToldSession(s: Session)
    requires IsAdmitted(s)
    ensures ServerEnv(s).Success? && ParseArgs(EnvironOf(IMAGE, ServerEnv(s).value)).Some?
    ensures var args := ParseArgs(EnvironOf(IMAGE, ServerEnv(s).value)).value;
      && args.mode == "server" && args.proto == s.spec.exporter.protocol
      && HasContext(args, s.spec) && IsToldServer(args, s.spec.exporter.values)
  {
    ServerStarts(s);
    var args := ParseArgs(EnvironOf(IMAGE, ServerEnv(s).value)).value;
    ContextMeans(args, s.spec.exporter, ServerMode, s);
    ServerIsTold(args, s.spec.exporter, MetricContext(s));
  }

  /** So is its client, with its peer, mode and period. */
  lemma ClientIsToldSession(digest: Names.Digest, s: Session)
    requires IsAdmitted(s) && IsValidExecution(s.spec.execution)
    ensures ClientEnv(digest, s).Success? && ParseArgs(EnvironOf(IMAGE, ClientEnv(digest, s).value)).Some?
    ensures var args := ParseArgs(EnvironOf(IMAGE, ClientEnv(digest, s).value)).value;
      && args.mode == "client" && args.proto == s.spec.exporter.protocol && args.peer == ClientPeer(digest, s)
      && args.executionMode == s.spec.execution.mode
      && (s.spec.execution.every.Some? ==> args.periodSeconds == s.spec.execution.every.value.seconds)
      && HasContext(args, s.spec) && IsToldClient(args, s.spec.exporter.values, s.spec.execution)
  {
    ClientStarts(digest, s);
    ClientExporterIsNormal(s);
    var args := ParseArgs(EnvironOf(IMAGE, ClientEnv(digest, s).value)).value;
    ContextMeans(args, ClientExporter(s), ClientMode, s);
    ClientIsTold(args, s, ClientExporter(s), MetricContext(s));
  }
}
