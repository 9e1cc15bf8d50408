/** How the exporter reads its environment, and the proof that it accepts what the operator
    writes there and understands it as it was meant. */
module ExporterArgs {
  import opened Wrappers
  import opened Decimal
  import Names
  import opened ExporterConfig
  import opened ExporterEnv
  import opened Sessions
  import opened Manifests

  /** The parsed arguments; integer and text options are indexed by their setting. */
  datatype Args = Args(
    mode: string, proto: string, debug: bool, ints: map<Field, int>, texts: map<Field, string>,
    peer: string, executionMode: string, periodSeconds: int, context: ContextLabels)

  function Lookup(env: Environ, v: Variable, default: string): string {
    match InBase(env, v) case Some(value) => value case None => default
  }

  function Minimum(f: Field): int {
    if f.MetricTTL? || f.PathTraceTTL? then 0 else 1
  }

  function Maximum(f: Field): Option<int> {
    if f.Port? || f.BindPort? then Some(65535) else None
  }

  function DefaultText(f: Field): string {
    match f
    case Port => "5001"
    case BindPort => "9868"
    case Interval => "1"
    case Len => "1280"
    case MetricTTL => "3600"
    case ClientDuration => "315360000"
    case PathTraceTTL => "300"
    case PathTraceMaxHops => "16"
    case PathTraceTimeout => "10"
    case ClientBandwidth => "1M"
    case _ => ""
  }

  function BoundedInt(text: string, minimum: int, maximum: Option<int>): Option<int> {
    match ParseInt(text)
    case Some(n) => if n < minimum || (maximum.Some? && n > maximum.value) then None else Some(n)
    case None => None
  }

  function DebugFlag(text: string): Option<bool> {
    var normalized := Names.Lower(text);
    if normalized in {"1", "true", "yes", "on", "debug"} then Some(true)
    else if normalized in {"0", "false", "no", "off"} then Some(false)
    else None
  }

  function IntArg(env: Environ, f: Field): Option<int> {
    BoundedInt(Lookup(env, Setting(f), DefaultText(f)), Minimum(f), Maximum(f))
  }

  predicate IsText(f: Field) {
    !IsInteger(f) && !f.Debug?
  }

  /** The context hints fall back to the client settings of the same environment. */
  function TextArg(env: Environ, f: Field): string {
    if f.ContextClientBandwidth? then Lookup(env, Setting(f), Lookup(env, Setting(ClientBandwidth), ""))
    else if f.ContextClientAdditionalParams? then
      Lookup(env, Setting(f), Lookup(env, Setting(ClientAdditionalParams), ""))
    else Lookup(env, Setting(f), DefaultText(f))
  }

  function PeriodArg(env: Environ): Option<int> {
    BoundedInt(Lookup(env, PeriodSecondsVar, "0"), 0, None)
  }

  function ModeArg(env: Environ): string {
    Lookup(env, ExecutionModeVar, "continuous")
  }

  /** What parse_args makes of the environment when the command line is empty. */
  function ParseArgs(env: Environ): Option<Args> {
    if !AllReadable(env) || DebugArg(env).None? || PeriodArg(env).None? then None
    else if ModeArg(env) == "periodicProbe" && PeriodArg(env).value == 0 then None
    else
      Some(Args(
             Lookup(env, ModeVar, "server"), Lookup(env, ProtoVar, "udp"), DebugArg(env).value,
             IntArgs(env), TextArgs(env), Lookup(env, PeerVar, "127.0.0.1"),
             ModeArg(env), PeriodArg(env).value, ContextArgs(env)))
  }

  predicate AllReadable(env: Environ) {
    forall f: Field | IsInteger(f) :: IntArg(env, f).Some?
  }

  function DebugArg(env: Environ): Option<bool> {
    DebugFlag(Lookup(env, DebugVar, "0"))
  }

  function IntArgs(env: Environ): map<Field, int> {
    map f: Field | IsInteger(f) && IntArg(env, f).Some? :: IntArg(env, f).value
  }

  function TextArgs(env: Environ): map<Field, string> {
    map f: Field | IsText(f) :: TextArg(env, f)
  }

  function ContextArgs(env: Environ): ContextLabels {
    map key: ContextKey | true :: Lookup(env, Context(key), "")
  }

  // ----- The bounds of the two programs agree -----

  /** Printing a bounded setting and parsing it gives it back, whatever the setting. */
  lemma PrintedSettingAccepted(f: Field, n: int)
    requires IsInteger(f)
    ensures BoundedInt(PrintInt(n), Minimum(f), Maximum(f)) == if InBounds(f, n) then Some(n) else None
  {
    ParsePrinted(n);
  }

  lemma FlagAccepted(flag: bool, text: string)
    requires text == if flag then "1" else "0"
    ensures DebugFlag(text) == Some(flag)
  {
    assert text[1..] == "";
    assert Names.Lower(text) == text;
  }

  // ----- Environments the operator writes -----

  /** The variables the operator leaves to the image can be read. */
  ghost predicate BaseReadable(base: Environ, mode: Mode) {
    forall f: Field | IsInteger(f) && LeftOut(mode, f) :: IntArg(base, f).Some?
  }

  lemma SeenInt(env: Environ, base: Environ, exporter: Exporter, mode: Mode, peer: string, context: ContextLabels,
                f: Field)
    requires IsNormal(exporter) && IsInteger(f)
    requires InBase(env, Setting(f)) == Seen(base, exporter, mode, peer, context, Setting(f))
    ensures IntArg(env, f) == if LeftOut(mode, f) then IntArg(base, f) else Some(exporter.values[f].n)
  {
    if !LeftOut(mode, f) {
      PrintedSettingAccepted(f, exporter.values[f].n);
    }
  }

  /** An environment in which every variable but those of the execution mode is as written. */
  ghost predicate IsWritten(env: Environ, base: Environ, exporter: Exporter, mode: Mode, peer: string,
                            context: ContextLabels) {
    forall v: Variable | !v.ExecutionModeVar? && !v.PeriodSecondsVar? ::
      InBase(env, v) == Seen(base, exporter, mode, peer, context, v)
  }

  lemma WrittenInts(env: Environ, base: Environ, exporter: Exporter, mode: Mode, peer: string, context: ContextLabels)
    requires IsNormal(exporter) && IsWritten(env, base, exporter, mode, peer, context)
    ensures AllReadable(env) <==> BaseReadable(base, mode)
    ensures forall f: Field | IsInteger(f) && !LeftOut(mode, f) :: IntArg(env, f) == Some(exporter.values[f].n)
  {
    forall f: Field | IsInteger(f)
      ensures IntArg(env, f) == if LeftOut(mode, f) then IntArg(base, f) else Some(exporter.values[f].n)
    {
      SeenInt(env, base, exporter, mode, peer, context, f);
    }
  }

  lemma WrittenFlag(env: Environ, base: Environ, exporter: Exporter, mode: Mode, peer: string, context: ContextLabels)
    requires IsNormal(exporter) && IsWritten(env, base, exporter, mode, peer, context)
    ensures DebugArg(env) == Some(exporter.values[Debug].flag)
  {
    assert InBase(env, DebugVar) == Seen(base, exporter, mode, peer, context, DebugVar);
    FlagAccepted(exporter.values[Debug].flag, Lookup(env, DebugVar, "0"));
  }

  lemma WrittenTexts(env: Environ, base: Environ, exporter: Exporter, mode: Mode, peer: string, context: ContextLabels)
    requires IsWritten(env, base, exporter, mode, peer, context)
    ensures forall f: Field | IsText(f) && !LeftOut(mode, f) ::
              f in TextArgs(env) && TextArgs(env)[f] == SettingText(exporter.values, f)
    ensures forall key: ContextKey :: key in ContextArgs(env) && ContextArgs(env)[key] == ContextText(context, key)
  {
    forall f: Field | IsText(f) && !LeftOut(mode, f)
      ensures f in TextArgs(env) && TextArgs(env)[f] == SettingText(exporter.values, f)
    {
      assert InBase(env, Setting(f)) == Seen(base, exporter, mode, peer, context, Setting(f));
    }
    forall key: ContextKey
      ensures key in ContextArgs(env) && ContextArgs(env)[key] == ContextText(context, key)
    {
      assert InBase(env, Context(key)) == Seen(base, exporter, mode, peer, context, Context(key));
    }
  }

  /** The arguments say what the exporter settings say. */
  ghost predicate Understood(args: Args, exporter: Exporter, mode: Mode, context: ContextLabels) {
    && args.mode == ModeText(mode) && args.proto == exporter.protocol
    && Debug in exporter.values && exporter.values[Debug] == Bool(args.debug)
    && (forall f: Field | IsInteger(f) && !LeftOut(mode, f) ::
          f in args.ints && f in exporter.values && exporter.values[f] == Int(args.ints[f]))
    && (forall f: Field | IsText(f) && !LeftOut(mode, f) ::
          f in args.texts && args.texts[f] == SettingText(exporter.values, f))
    && (forall key: ContextKey :: key in args.context && args.context[key] == ContextText(context, key))
  }

  /** The exporter accepts a written environment exactly if it can read what the operator left to
      the image and the execution variables. */
  lemma WrittenEnvironmentAccepted(env: Environ, base: Environ, exporter: Exporter, mode: Mode, peer: string,
                                   context: ContextLabels)
    requires IsNormal(exporter) && IsWritten(env, base, exporter, mode, peer, context)
    ensures ParseArgs(env).Some? <==>
            BaseReadable(base, mode) && PeriodArg(env).Some? &&
                !(ModeArg(env) == "periodicProbe" && PeriodArg(env) == Some(0))
  {
    WrittenInts(env, base, exporter, mode, peer, context);
    WrittenFlag(env, base, exporter, mode, peer, context);
  }

  /** What it accepts it understands as it was meant. */
  lemma WrittenEnvironmentUnderstood(env: Environ, base: Environ, exporter: Exporter, mode: Mode, peer: string,
                                     context: ContextLabels)
    requires IsNormal(exporter) && IsWritten(env, base, exporter, mode, peer, context) && ParseArgs(env).Some?
    ensures Understood(ParseArgs(env).value, exporter, mode, context)
    ensures var args := ParseArgs(env).value;
      args.executionMode == ModeArg(env) && Some(args.periodSeconds) == PeriodArg(env) &&
          (mode.ClientMode? ==> args.peer == peer)
  {
    WrittenInts(env, base, exporter, mode, peer, context);
    WrittenFlag(env, base, exporter, mode, peer, context);
    WrittenTexts(env, base, exporter, mode, peer, context);
    assert InBase(env, ModeVar) == Seen(base, exporter, mode, peer, context, ModeVar);
    assert InBase(env, ProtoVar) == Seen(base, exporter, mode, peer, context, ProtoVar);
    assert InBase(env, PeerVar) == Seen(base, exporter, mode, peer, context, PeerVar);
  }

  // ----- Sessions -----

  lemma ServerIsWritten(base: Environ, s: Session)
    requires IsAdmitted(s)
    ensures ServerEnv(s).Success?
    ensures IsWritten(EnvironOf(base, ServerEnv(s).value), base, s.spec.exporter, ServerMode, "", MetricContext(s))
    ensures ModeArg(EnvironOf(base, ServerEnv(s).value)) == ModeArg(base)
    ensures PeriodArg(EnvironOf(base, ServerEnv(s).value)) == PeriodArg(base)
  {
    NormalIsFixed(s.spec.exporter);
    EntriesSeen(base, s.spec.exporter, ServerMode, "", MetricContext(s));
  }

  /** The server exporter accepts the environment of its session exactly if the image leaves the
      rest readable, and then it runs as the session says. */
  lemma ServerAccepted(base: Environ, s: Session)
    requires IsAdmitted(s)
    ensures ServerEnv(s).Success?
    ensures var parsed := ParseArgs(EnvironOf(base, ServerEnv(s).value));
      && (parsed.Some? <==>
            BaseReadable(base, ServerMode) && PeriodArg(base).Some? &&
                !(ModeArg(base) == "periodicProbe" && PeriodArg(base) == Some(0)))
      && (parsed.Some? ==> Understood(parsed.value, s.spec.exporter, ServerMode, MetricContext(s)))
  {
    ServerIsWritten(base, s);
    var env := EnvironOf(base, ServerEnv(s).value);
    WrittenEnvironmentAccepted(env, base, s.spec.exporter, ServerMode, "", MetricContext(s));
    if ParseArgs(env).Some? {
      WrittenEnvironmentUnderstood(env, base, s.spec.exporter, ServerMode, "", MetricContext(s));
    }
  }

  lemma ExecutionSeen(base: Environ, e: Execution, v: Variable)
    requires e.every.Some? <==> e.mode == "periodicProbe"
    ensures InBase(EnvironOf(base, ExecutionEntries(e)), v) ==
            if v.ExecutionModeVar? then Some(e.mode)
            else if v.PeriodSecondsVar? && e.every.Some? then Some(PrintInt(e.every.value.seconds))
            else InBase(base, v)
  {
    var first := EnvVar(ExecutionModeVar, e.mode);
    EnvironAppendOne(base, [], first);
    if e.every.Some? {
      EnvironAppendOne(base, [] + [first], EnvVar(PeriodSecondsVar, PrintInt(e.every.value.seconds)));
      assert ExecutionEntries(e) == [] + [first] + [EnvVar(PeriodSecondsVar, PrintInt(e.every.value.seconds))];
    } else {
      assert ExecutionEntries(e) == [] + [first];
    }
  }

  lemma ClientIsWritten(base: Environ, digest: Names.Digest, s: Session)
    requires IsAdmitted(s) && IsValidExecution(s.spec.execution)
    ensures ClientEnv(digest, s).Success?
    ensures var env := EnvironOf(base, ClientEnv(digest, s).value);
      && IsWritten(env, base, ClientExporter(s), ClientMode, ClientPeer(digest, s), MetricContext(s))
      && InBase(env, ExecutionModeVar) == Some(s.spec.execution.mode)
      && InBase(env, PeriodSecondsVar) ==
         if s.spec.execution.every.Some? then Some(PrintInt(s.spec.execution.every.value.seconds))
             else InBase(base, PeriodSecondsVar)
  {
    EnvironmentsExist(digest, s);
    var exporter, peer, context := ClientExporter(s), ClientPeer(digest, s), MetricContext(s);
    var entries, e := Entries(exporter, ClientMode, peer, context), s.spec.execution;
    EnvironAppend(base, entries, ExecutionEntries(e));
    EntriesSeen(base, exporter, ClientMode, peer, context);
    ExecutionKeepsWritten(base, EnvironOf(base, entries), exporter, peer, context, e);
  }

  lemma EntriesSeen(base: Environ, exporter: Exporter, mode: Mode, peer: string, context: ContextLabels)
    ensures forall v: Variable ::
      InBase(EnvironOf(base, Entries(exporter, mode, peer, context)), v) == Seen(base, exporter, mode, peer, context, v)
  {
    forall v: Variable
      ensures InBase(EnvironOf(base, Entries(exporter, mode, peer, context)), v) ==
              Seen(base, exporter, mode, peer, context, v)
    {
      EnvironSeen(base, exporter, mode, peer, context, v);
    }
  }

  lemma ExecutionKeepsWritten(base: Environ, env: Environ, exporter: Exporter, peer: string, context: ContextLabels,
                              e: Execution)
    requires IsValidExecution(e)
    requires forall v: Variable :: InBase(env, v) == Seen(base, exporter, ClientMode, peer, context, v)
    ensures var env' := EnvironOf(env, ExecutionEntries(e));
      && IsWritten(env', base, exporter, ClientMode, peer, context)
      && InBase(env', ExecutionModeVar) == Some(e.mode)
      && InBase(env', PeriodSecondsVar) ==
         if e.every.Some? then Some(PrintInt(e.every.value.seconds)) else InBase(base, PeriodSecondsVar)
  {
    forall v: Variable
      ensures InBase(EnvironOf(env, ExecutionEntries(e)), v) ==
              if v.ExecutionModeVar? then Some(e.mode)
              else if v.PeriodSecondsVar? && e.every.Some? then Some(PrintInt(e.every.value.seconds))
              else InBase(env, v)
    {
      ExecutionSeen(env, e, v);
    }
  }

  /** The period a client of the session sees. */
  function SeenPeriod(base: Environ, e: Execution): Option<int> {
    if e.every.Some? then Some(e.every.value.seconds) else PeriodArg(base)
  }

  lemma ClientExecution(base: Environ, env: Environ, e: Execution)
    requires IsValidExecution(e)
    requires InBase(env, ExecutionModeVar) == Some(e.mode)
    requires InBase(env, PeriodSecondsVar) ==
             if e.every.Some? then Some(PrintInt(e.every.value.seconds)) else InBase(base, PeriodSecondsVar)
    ensures ModeArg(env) == e.mode && PeriodArg(env) == SeenPeriod(base, e)
    ensures !(ModeArg(env) == "periodicProbe" && PeriodArg(env) == Some(0))
  {
    if e.every.Some? { ParsePrinted(e.every.value.seconds); }
  }

  /** The client exporter accepts the environment of its session exactly if the image leaves the
      rest readable, and then it runs against the session's peer, in its mode and period. */
  lemma ClientAccepted(base: Environ, digest: Names.Digest, s: Session)
    requires IsAdmitted(s) && IsValidExecution(s.spec.execution)
    ensures ClientEnv(digest, s).Success?
    ensures var parsed := ParseArgs(EnvironOf(base, ClientEnv(digest, s).value));
      && (parsed.Some? <==> BaseReadable(base, ClientMode) && SeenPeriod(base, s.spec.execution).Some?)
      && (parsed.Some? ==>
            && Understood(parsed.value, ClientExporter(s), ClientMode, MetricContext(s))
            && parsed.value.peer == ClientPeer(digest, s)
            && parsed.value.executionMode == s.spec.execution.mode
            && Some(parsed.value.periodSeconds) == SeenPeriod(base, s.spec.execution))
  {
    ClientIsWritten(base, digest, s);
    ClientExporterIsNormal(s);
    var env := EnvironOf(base, ClientEnv(digest, s).value);
    ClientExecution(base, env, s.spec.execution);
    WrittenEnvironmentAccepted(env, base, ClientExporter(s), ClientMode, ClientPeer(digest, s), MetricContext(s));
    if ParseArgs(env).Some? {
      WrittenEnvironmentUnderstood(env, base, ClientExporter(s), ClientMode, ClientPeer(digest, s), MetricContext(s));
    }
  }

  /** The variables the exporter image sets. */
  const IMAGE: Environ := map[
    DebugVar := "0", ModeVar := "server", Setting(Port) := "5001", ProtoVar := "udp", Setting(Len) := "1280",
    Setting(BindPort) := "9868", Setting(MetricTTL) := "3600", Setting(ClientBandwidth) := "1M", PeerVar := "127.0.0.1"
  ]

  lemma DigitsReadable(f: Field, text: string)
    requires IsInteger(f) && IsDecimal(text) && text[0] != '0'
    requires Maximum(f).Some? ==> |text| == 4
    ensures BoundedInt(text, Minimum(f), Maximum(f)).Some?
  {
    ParseDigits(text);
    ParseIntDigits(text);
    assert Pow10(4) == 10000;
    Pow10Positive(|text| - 1);
  }

  lemma {:induction false} Pow10Positive(k: nat)
    ensures Pow10(k) >= 1
  {
    if k > 0 { Pow10Positive(k - 1); }
  }

  lemma DefaultReadable(f: Field)
    requires IsInteger(f)
    ensures BoundedInt(DefaultText(f), Minimum(f), Maximum(f)).Some?
  {
    DigitsReadable(f, DefaultText(f));
  }

  lemma ImageSaysDefaults(f: Field)
    requires IsInteger(f)
    ensures Lookup(IMAGE, Setting(f), DefaultText(f)) == DefaultText(f)
  {
  }

  lemma ImageExecution()
    ensures InBase(IMAGE, PeriodSecondsVar) == None && InBase(IMAGE, ExecutionModeVar) == None
  {
  }

  lemma UnsetExecution(env: Environ)
    requires InBase(env, PeriodSecondsVar) == None && InBase(env, ExecutionModeVar) == None
    ensures PeriodArg(env) == Some(0) && ModeArg(env) != "periodicProbe"
  {
  }

  lemma ImageReadable(mode: Mode)
    ensures BaseReadable(IMAGE, mode) && PeriodArg(IMAGE) == Some(0) && ModeArg(IMAGE) != "periodicProbe"
  {
    forall f: Field | IsInteger(f) && LeftOut(mode, f)
      ensures IntArg(IMAGE, f).Some?
    {
      ImageSaysDefaults(f);
      DefaultReadable(f);
    }
    ImageExecution();
    UnsetExecution(IMAGE);
  }

  /** The server of a session starts, and does what its settings say. */
  ghost predicate ServerRuns(s: Session) {
    && ServerEnv(s).Success?
    && var parsed := ParseArgs(EnvironOf(IMAGE, ServerEnv(s).value));
       parsed.Some? && Understood(parsed.value, s.spec.exporter, ServerMode, MetricContext(s))
  }

  /** So does its client, against the session's peer, in its mode and period. */
  ghost predicate ClientRuns(digest: Names.Digest, s: Session) {
    && ClientEnv(digest, s).Success?
    && var parsed := ParseArgs(EnvironOf(IMAGE, ClientEnv(digest, s).value));
       parsed.Some? && Understood(parsed.value, ClientExporter(s), ClientMode, MetricContext(s))
       && parsed.value.peer == ClientPeer(digest, s) && HasExecution(parsed.value, s.spec.execution)
  }

  predicate HasExecution(args: Args, e: Execution) {
    args.executionMode == e.mode && args.periodSeconds == if e.every.Some? then e.every.value.seconds else 0
  }

  lemma ServerStarts(s: Session)
    requires IsAdmitted(s)
    ensures ServerRuns(s)
  {
    ServerAccepted(IMAGE, s);
    ImageReadable(ServerMode);
  }

  lemma ClientStarts(digest: Names.Digest, s: Session)
    requires IsAdmitted(s) && IsValidExecution(s.spec.execution)
    ensures ClientRuns(digest, s)
  {
    ClientAccepted(IMAGE, digest, s);
    ImageReadable(ClientMode);
  }

  /** Every session the operator expands, from any measurement and profile it accepts, starts a
      server and a client on the exporter image, and both do what the session says. */
  lemma ExpandedSessionsRun(digest: Names.Digest, m: Measurement, profile: Profile, addresses: NodeAddresses,
                            image: string, s: Session)
    requires Expanded(digest, m, profile, addresses, image).Success?
    requires s in Expanded(digest, m, profile, addresses, image).value
    ensures ServerRuns(s) && ClientRuns(digest, s)
  {
    ExpandedIsAdmitted(digest, m, profile, addresses, image, s);
    ServerStarts(s);
    ClientStarts(digest, s);
  }

  lemma ExpandedIsAdmitted(digest: Names.Digest, m: Measurement, profile: Profile, addresses: NodeAddresses,
                           image: string, s: Session)
    requires Expanded(digest, m, profile, addresses, image).Success?
    requires s in Expanded(digest, m, profile, addresses, image).value
    ensures IsAdmitted(s) && IsValidExecution(s.spec.execution)
  {
    PlanIsChecked(m, profile, addresses, image);
    var p := MakePlan(m, profile, addresses, image).value;
    ExpandedMember(digest, p, s);
    PlannedParts(digest, p, s.spec.networkMode, s.spec.direction);
  }

  lemma PlannedParts(digest: Names.Digest, p: Plan, mode: string, direction: string)
    ensures var spec := PlannedSession(digest, p, mode, direction).spec;
      spec.exporter == p.exporter && spec.execution == p.execution
  {
  }
}
