/** The environment of the exporter containers, as the operator writes it. */
module ExporterEnv {
  import opened Wrappers
  import opened ExporterConfig

  datatype Mode = ServerMode | ClientMode

  datatype ContextKey =
    | MeasurementId | ProfileRef | SessionId | ExecutionMode | Direction | NetworkMode
    | SrcNode | DstNode | SrcCluster | DstCluster

  type ContextLabels = map<ContextKey, string>

  /** The environment variables both programs know, one constructor for each name. */
  datatype Variable =
    | ModeVar | ProtoVar | DebugVar | Setting(field: Field) | PeerVar
    | ExecutionModeVar | PeriodSecondsVar | Context(key: ContextKey)

  datatype EnvVar = EnvVar(name: Variable, value: string)

  type Env = seq<EnvVar>

  const ENV_FIELDS: seq<Field> := [
    Port, BindPort, Interval, Len, MetricTTL, ClientBandwidth, ClientDuration, ServerAdditionalParams,
    ClientAdditionalParams, ContextClientBandwidth, ContextClientAdditionalParams, PathTraceTTL,
    PathTraceMaxHops, PathTraceTimeout
  ]
  const CONTEXT_KEYS: seq<ContextKey> := [
    MeasurementId, ProfileRef, SessionId, ExecutionMode, Direction, NetworkMode,
    SrcNode, DstNode, SrcCluster, DstCluster
  ]

  function ModeText(mode: Mode): string {
    match mode case ServerMode => "server" case ClientMode => "client"
  }

  predicate LeftOut(mode: Mode, f: Field) {
    match mode
    case ServerMode => f.ClientBandwidth? || f.ClientDuration? || f.ClientAdditionalParams?
    case ClientMode =>
      || f.BindPort? || f.MetricTTL? || f.ContextClientBandwidth? || f.ContextClientAdditionalParams?
      || f.PathTraceTTL? || f.PathTraceMaxHops? || f.PathTraceTimeout? || f.ServerAdditionalParams?
  }

  function ValueOf(values: Settings, f: Field): Value {
    if f in values then values[f] else Text("")
  }

  /** An empty context hint falls back to the setting it hints at. */
  function SettingText(values: Settings, f: Field): string {
    var value := ValueOf(values, f);
    if f.ContextClientBandwidth? && value == Text("") then Str(ValueOf(values, ClientBandwidth))
    else if f.ContextClientAdditionalParams? && value == Text("") then Str(ValueOf(values, ClientAdditionalParams))
    else Str(value)
  }

  function ContextText(context: ContextLabels, key: ContextKey): string {
    if key in context then context[key] else ""
  }

  function SettingEntries(fields: seq<Field>, values: Settings, mode: Mode): Env {
    if fields == [] then []
    else
      var f := fields[|fields| - 1];
      var front := SettingEntries(fields[..|fields| - 1], values, mode);
      if LeftOut(mode, f) then front else front + [EnvVar(Setting(f), SettingText(values, f))]
  }

  function ContextEntries(keys: seq<ContextKey>, context: ContextLabels): Env {
    if keys == [] then []
    else
      var key := keys[|keys| - 1];
      ContextEntries(keys[..|keys| - 1], context) + [EnvVar(Context(key), ContextText(context, key))]
  }

  function Header(exporter: Exporter, mode: Mode): Env {
    [EnvVar(ModeVar, ModeText(mode)),
     EnvVar(ProtoVar, exporter.protocol),
     EnvVar(DebugVar, if ValueOf(exporter.values, Debug) == Bool(true) then "1" else "0")]
  }

  function Entries(exporter: Exporter, mode: Mode, peer: string, context: ContextLabels): Env {
    Header(exporter, mode)
    + SettingEntries(ENV_FIELDS, exporter.values, mode)
    + (if mode.ClientMode? then [EnvVar(PeerVar, peer)] else [])
    + ContextEntries(CONTEXT_KEYS, context)
  }

  function ExporterEnvOf(exporter: Exporter, mode: Mode, peer: string, context: ContextLabels): Result<Env, SpecError> {
    var normal :- Normalized(exporter.protocol, exporter.values);
    Success(Entries(normal, mode, peer, context))
  }

  method AppendSettings(env: Env, fields: seq<Field>, values: Settings, mode: Mode) returns (r: Env)
    ensures r == env + SettingEntries(fields, values, mode)
  {
    r := env;
    for i := 0 to |fields|
      invariant r == env + SettingEntries(fields[..i], values, mode)
    {
      var f := fields[i];
      assert fields[..i + 1][..i] == fields[..i];
      if !LeftOut(mode, f) {
        var value := ValueOf(values, f);
        if f.ContextClientBandwidth? && value == Text("") {
          value := ValueOf(values, ClientBandwidth);
        }
        if f.ContextClientAdditionalParams? && value == Text("") {
          value := ValueOf(values, ClientAdditionalParams);
        }
        r := r + [EnvVar(Setting(f), Str(value))];
      }
    }
    assert fields[..|fields|] == fields;
  }

  method AppendContext(env: Env, keys: seq<ContextKey>, context: ContextLabels) returns (r: Env)
    ensures r == env + ContextEntries(keys, context)
  {
    r := env;
    for i := 0 to |keys|
      invariant r == env + ContextEntries(keys[..i], context)
    {
      assert keys[..i + 1][..i] == keys[..i];
      r := r + [EnvVar(Context(keys[i]), ContextText(context, keys[i]))];
    }
    assert keys[..|keys|] == keys;
  }

  method BuildExporterEnv(exporter: Exporter, mode: Mode, peer: string, context: ContextLabels)
    returns (r: Result<Env, SpecError>)
    ensures r == ExporterEnvOf(exporter, mode, peer, context)
  {
    var normal := NormalizeExporterConfig(exporter.protocol, exporter.values);
    if normal.Failure? {
      return Failure(normal.error);
    }
    var env := AppendSettings(Header(normal.value, mode), ENV_FIELDS, normal.value.values, mode);
    env := env + (if mode.ClientMode? then [EnvVar(PeerVar, peer)] else []);
    env := AppendContext(env, CONTEXT_KEYS, context);
    return Success(env);
  }

  // ----- The environment a process sees -----

  type Environ = map<Variable, string>

  /** The entries laid over the variables of the image, the last entry of a name winning. */
  function EnvironOf(base: Environ, env: Env): Environ {
    if env == [] then base
    else
      var last := env[|env| - 1];
      EnvironOf(base, env[..|env| - 1])[last.name := last.value]
  }

  lemma {:induction false} EnvironAppend(base: Environ, a: Env, b: Env)
    ensures EnvironOf(base, a + b) == EnvironOf(EnvironOf(base, a), b)
  {
    if b == [] {
      assert a + b == a;
    } else {
      var front := b[..|b| - 1];
      assert (a + b)[..|a + b| - 1] == a + front;
      EnvironAppend(base, a, front);
    }
  }

  lemma EnvironAppendOne(base: Environ, a: Env, e: EnvVar)
    ensures EnvironOf(base, a + [e]) == EnvironOf(base, a)[e.name := e.value]
  {
  }

  lemma InFrontOrLast<T>(s: seq<T>, x: T)
    requires s != []
    ensures x in s <==> x in s[..|s| - 1] || x == s[|s| - 1]
  {
  }

  lemma SettingsStep(base: Environ, fields: seq<Field>, values: Settings, mode: Mode)
    requires fields != []
    ensures EnvironOf(base, SettingEntries(fields, values, mode)) ==
            var env := EnvironOf(base, SettingEntries(fields[..|fields| - 1], values, mode));
            var f := fields[|fields| - 1];
            if LeftOut(mode, f) then env else env[Setting(f) := SettingText(values, f)]
  {
  }

  lemma {:induction false} SettingsEnviron(base: Environ, fields: seq<Field>, values: Settings, mode: Mode, v: Variable)
    ensures InBase(EnvironOf(base, SettingEntries(fields, values, mode)), v) ==
            if v.Setting? && v.field in fields && !LeftOut(mode, v.field)
            then Some(SettingText(values, v.field)) else InBase(base, v)
  {
    if fields != [] {
      SettingsEnviron(base, fields[..|fields| - 1], values, mode, v);
      SettingsStep(base, fields, values, mode);
      if v.Setting? { InFrontOrLast(fields, v.field); }
    }
  }

  lemma ContextStep(base: Environ, keys: seq<ContextKey>, context: ContextLabels)
    requires keys != []
    ensures var key := keys[|keys| - 1];
            EnvironOf(base, ContextEntries(keys, context)) ==
            EnvironOf(base, ContextEntries(keys[..|keys| - 1], context))[Context(key) := ContextText(context, key)]
  {
  }

  lemma {:induction false} ContextEnviron(base: Environ, keys: seq<ContextKey>, context: ContextLabels, v: Variable)
    ensures InBase(EnvironOf(base, ContextEntries(keys, context)), v) ==
            if v.Context? && v.key in keys then Some(ContextText(context, v.key)) else InBase(base, v)
  {
    if keys != [] {
      ContextEnviron(base, keys[..|keys| - 1], context, v);
      ContextStep(base, keys, context);
      if v.Context? { InFrontOrLast(keys, v.key); }
    }
  }

  lemma EnvFieldsComplete(f: Field)
    ensures f in ENV_FIELDS <==> f != Debug
  {
  }

  lemma ContextKeysComplete(key: ContextKey)
    ensures key in CONTEXT_KEYS
  {
  }

  /** What a container sees of each variable: every written variable has its written value, and
      the variables the operator leaves out keep the value of the image. */
  function Seen(base: Environ, exporter: Exporter, mode: Mode, peer: string, context: ContextLabels, v: Variable):
    Option<string>
  {
    match v
    case ModeVar => Some(ModeText(mode))
    case ProtoVar => Some(exporter.protocol)
    case DebugVar => Some(if ValueOf(exporter.values, Debug) == Bool(true) then "1" else "0")
    case Setting(f) => if f != Debug && !LeftOut(mode, f) then Some(SettingText(exporter.values, f))
        else InBase(base, v)
    case PeerVar => if mode.ClientMode? then Some(peer) else InBase(base, v)
    case ExecutionModeVar => InBase(base, v)
    case PeriodSecondsVar => InBase(base, v)
    case Context(key) => Some(ContextText(context, key))
  }

  function InBase(base: Environ, v: Variable): Option<string> {
    if v in base then Some(base[v]) else None
  }

  lemma EnvironSeen(base: Environ, exporter: Exporter, mode: Mode, peer: string, context: ContextLabels, v: Variable)
    ensures InBase(EnvironOf(base, Entries(exporter, mode, peer, context)), v) ==
            Seen(base, exporter, mode, peer, context, v)
  {
    var header, settings := Header(exporter, mode), SettingEntries(ENV_FIELDS, exporter.values, mode);
    var peers := if mode.ClientMode? then [EnvVar(PeerVar, peer)] else [];
    var e1 := EnvironOf(base, header);
    var e2 := EnvironOf(e1, settings);
    var e3 := EnvironOf(e2, peers);
    EnvironAppend(base, header, settings);
    EnvironAppend(base, header + settings, peers);
    EnvironAppend(base, header + settings + peers, ContextEntries(CONTEXT_KEYS, context));
    ContextEnviron(e3, CONTEXT_KEYS, context, v);
    PeerEnviron(e2, peers, v);
    SettingsEnviron(e1, ENV_FIELDS, exporter.values, mode, v);
    HeaderEnviron(base, exporter, mode, v);
    if v.Setting? { EnvFieldsComplete(v.field); }
    if v.Context? { ContextKeysComplete(v.key); }
  }

  lemma PeerEnviron(base: Environ, peers: Env, v: Variable)
    requires peers == [] || (|peers| == 1 && peers[0].name == PeerVar)
    ensures InBase(EnvironOf(base, peers), v) ==
            if v.PeerVar? && peers != [] then Some(peers[0].value) else InBase(base, v)
  {
  }

  lemma HeaderEnviron(base: Environ, exporter: Exporter, mode: Mode, v: Variable)
    ensures InBase(EnvironOf(base, Header(exporter, mode)), v) ==
            if v.ModeVar? then Some(ModeText(mode))
            else if v.ProtoVar? then Some(exporter.protocol)
            else if v.DebugVar? then Some(if ValueOf(exporter.values, Debug) == Bool(true) then "1" else "0")
            else InBase(base, v)
  {
    var h := Header(exporter, mode);
    assert h == [] + [h[0]] + [h[1]] + [h[2]];
    EnvironAppendOne(base, [], h[0]);
    EnvironAppendOne(base, [] + [h[0]], h[1]);
    EnvironAppendOne(base, [] + [h[0]] + [h[1]], h[2]);
  }
}
