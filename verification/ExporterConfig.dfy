/** Exporter settings: how the operator normalises them and prints them into the environment of
    the exporter containers. */
module ExporterConfig {
  import opened Wrappers
  import opened Decimal

  datatype SpecError =
    | WrongKind | UnsupportedProtocol | BadInteger | OutOfBounds | MissingNode | MissingAddress
    | EmptyChoice | RepeatedChoice | UnsupportedChoice | CrossCluster
    | UnsupportedMode | BadDuration | MissingEvery | BadPullPolicy

  datatype Field =
    | Port | BindPort | Interval | Len | MetricTTL | Debug
    | ClientBandwidth | ClientDuration | ServerAdditionalParams | ClientAdditionalParams
    | ContextClientBandwidth | ContextClientAdditionalParams
    | PathTraceTTL | PathTraceMaxHops | PathTraceTimeout

  datatype Value = Int(n: int) | Text(text: string) | Bool(flag: bool) | Null

  type Settings = map<Field, Value>

  datatype Exporter = Exporter(protocol: string, values: Settings)

  const DEFAULTS: Settings := map[
    Port := Int(5001), BindPort := Int(9868), Interval := Int(1), Len := Int(1280),
    MetricTTL := Int(3600), Debug := Bool(false), ClientBandwidth := Text("1M"),
    ClientDuration := Int(315360000), ServerAdditionalParams := Text(""),
    ClientAdditionalParams := Text(""), ContextClientBandwidth := Text(""),
    ContextClientAdditionalParams := Text(""), PathTraceTTL := Int(300),
    PathTraceMaxHops := Int(16), PathTraceTimeout := Int(10)
  ]

  const INT_FIELDS: seq<Field> := [
    Port, BindPort, Interval, Len, MetricTTL, ClientDuration, PathTraceTTL, PathTraceMaxHops, PathTraceTimeout
  ]
  const PORT_FIELDS: seq<Field> := [Port, BindPort]
  const POSITIVE_FIELDS: seq<Field> := [Interval, Len, ClientDuration, PathTraceMaxHops, PathTraceTimeout]
  const UNSIGNED_FIELDS: seq<Field> := [MetricTTL, PathTraceTTL]

  predicate IsProtocol(protocol: string) {
    protocol == "tcp" || protocol == "udp"
  }

  function ToInt(v: Value): Option<int> {
    match v
    case Int(n) => Some(n)
    case Text(text) => ParseInt(text)
    case Bool(flag) => Some(if flag then 1 else 0)
    case Null => None
  }

  function ToBool(v: Value): bool {
    match v
    case Int(n) => n != 0
    case Text(text) => text != ""
    case Bool(flag) => flag
    case Null => false
  }

  function Str(v: Value): string {
    match v
    case Int(n) => PrintInt(n)
    case Text(text) => text
    case Bool(flag) => if flag then "True" else "False"
    case Null => "None"
  }

  // ----- Normalisation -----

  predicate IsPort(f: Field) {
    f.Port? || f.BindPort?
  }

  predicate IsPositive(f: Field) {
    f.Interval? || f.Len? || f.ClientDuration? || f.PathTraceMaxHops? || f.PathTraceTimeout?
  }

  predicate IsUnsigned(f: Field) {
    f.MetricTTL? || f.PathTraceTTL?
  }

  predicate IsInteger(f: Field) {
    IsPort(f) || IsPositive(f) || IsUnsigned(f)
  }

  predicate InBounds(f: Field, n: int) {
    if IsPort(f) then 1 <= n <= 65535 else if IsPositive(f) then n > 0 else n >= 0
  }

  lemma FieldLists(f: Field)
    ensures f in INT_FIELDS <==> IsInteger(f)
    ensures f in PORT_FIELDS <==> IsPort(f)
    ensures f in POSITIVE_FIELDS <==> IsPositive(f)
    ensures f in UNSIGNED_FIELDS <==> IsUnsigned(f)
  {
    assert INT_FIELDS[0] == Port && INT_FIELDS[1] == BindPort && INT_FIELDS[2] == Interval && INT_FIELDS[3] == Len;
    assert INT_FIELDS[4] == MetricTTL && INT_FIELDS[5] == ClientDuration && INT_FIELDS[6] == PathTraceTTL;
    assert INT_FIELDS[7] == PathTraceMaxHops && INT_FIELDS[8] == PathTraceTimeout;
  }

  /** Every setting is present, integers are integers within bounds, and the flag is a flag. */
  ghost predicate IsNormal(exporter: Exporter) {
    && IsProtocol(exporter.protocol)
    && (forall f: Field :: f in exporter.values)
    && exporter.values[Debug].Bool?
    && forall f: Field | IsInteger(f) :: exporter.values[f].Int? && InBounds(f, exporter.values[f].n)
  }

  predicate AllIntegers(values: Settings) {
    forall f: Field | f in values && IsInteger(f) :: ToInt(values[f]).Some?
  }

  /** The settings after conversion, each integer field holding an integer. */
  function Converted(values: Settings): Settings
    requires AllIntegers(values)
  {
    map f | f in values ::
      if IsInteger(f) then Int(ToInt(values[f]).value)
      else if f == Debug then Bool(ToBool(values[f]))
      else values[f]
  }

  predicate WithinBounds(values: Settings) {
    forall f: Field | f in values && IsInteger(f) && values[f].Int? :: InBounds(f, values[f].n)
  }

  function Normalized(protocol: string, config: Settings): Result<Exporter, SpecError> {
    Checked(protocol, DEFAULTS + config)
  }

  function Checked(protocol: string, merged: Settings): Result<Exporter, SpecError> {
    if !IsProtocol(protocol) then Failure(UnsupportedProtocol)
    else if !AllIntegers(merged) then Failure(BadInteger)
    else if !WithinBounds(Converted(merged)) then Failure(OutOfBounds)
    else Success(Exporter(protocol, Converted(merged)))
  }

  method ConvertIntegers(values: Settings) returns (r: Option<Settings>)
    requires forall f: Field :: f in values
    ensures r.Some? <==> AllIntegers(values)
    ensures r.Some? ==> r.value.Keys == values.Keys && forall f: Field ::
      r.value[f] == if IsInteger(f) then Int(ToInt(values[f]).value) else values[f]
  {
    var merged := values;
    for i := 0 to |INT_FIELDS|
      invariant merged.Keys == values.Keys
      invariant forall f: Field :: if f in INT_FIELDS[..i]
        then ToInt(values[f]).Some? && merged[f] == Int(ToInt(values[f]).value)
        else merged[f] == values[f]
    {
      var f := INT_FIELDS[i];
      assert INT_FIELDS[..i + 1] == INT_FIELDS[..i] + [f];
      FieldLists(f);
      var n := ToInt(merged[f]);
      if n.None? {
        return None;
      }
      merged := merged[f := Int(n.value)];
    }
    assert INT_FIELDS[..|INT_FIELDS|] == INT_FIELDS;
    forall f: Field { FieldLists(f); }
    return Some(merged);
  }

  method CheckRange(values: Settings, fields: seq<Field>, low: int, high: Option<int>) returns (ok: bool)
    requires forall f :: f in fields ==> f in values && values[f].Int?
    ensures ok <==> forall f :: f in fields ==> low <= values[f].n && (high.Some? ==> values[f].n <= high.value)
  {
    for i := 0 to |fields|
      invariant forall f :: f in fields[..i] ==> low <= values[f].n && (high.Some? ==> values[f].n <= high.value)
    {
      var n := values[fields[i]].n;
      if n < low || (high.Some? && n > high.value) {
        return false;
      }
      assert fields[..i + 1] == fields[..i] + [fields[i]];
    }
    assert fields[..|fields|] == fields;
    return true;
  }

  method CheckBounds(values: Settings) returns (ok: bool)
    requires forall f: Field :: f in values && (IsInteger(f) ==> values[f].Int?)
    ensures ok <==> WithinBounds(values)
  {
    forall f: Field { FieldLists(f); }
    var ports := CheckRange(values, PORT_FIELDS, 1, Some(65535));
    var positive := CheckRange(values, POSITIVE_FIELDS, 1, None);
    var unsigned := CheckRange(values, UNSIGNED_FIELDS, 0, None);
    return ports && positive && unsigned;
  }

  method NormalizeExporterConfig(protocol: string, config: Settings) returns (r: Result<Exporter, SpecError>)
    ensures r == Normalized(protocol, config)
  {
    AllFieldsPresent(config);
    r := CheckMerged(protocol, DEFAULTS + config);
  }

  method CheckMerged(protocol: string, merged: Settings) returns (r: Result<Exporter, SpecError>)
    requires forall f: Field :: f in merged
    ensures r == Checked(protocol, merged)
  {
    if !IsProtocol(protocol) {
      return Failure(UnsupportedProtocol);
    }
    var integers := ConvertIntegers(merged);
    if integers.None? {
      return Failure(BadInteger);
    }
    var values := integers.value[Debug := Bool(ToBool(merged[Debug]))];
    assert values == Converted(merged);
    var ok := CheckBounds(values);
    return if ok then Success(Exporter(protocol, values)) else Failure(OutOfBounds);
  }

  lemma AllFieldsPresent(config: Settings)
    ensures forall f: Field :: f in DEFAULTS + config
  {
    forall f: Field ensures f in DEFAULTS {
      match f
      case Port => case BindPort => case Interval => case Len => case MetricTTL => case Debug =>
      case ClientBandwidth => case ClientDuration => case ServerAdditionalParams =>
      case ClientAdditionalParams => case ContextClientBandwidth => case ContextClientAdditionalParams =>
      case PathTraceTTL => case PathTraceMaxHops => case PathTraceTimeout =>
    }
  }

  /** Normalisation succeeds exactly on convertible, bounded settings, and its results are
      its fixed points. */
  lemma NormalizedIsNormal(protocol: string, config: Settings)
    requires Normalized(protocol, config).Success?
    ensures IsNormal(Normalized(protocol, config).value)
    ensures Normalized(protocol, Normalized(protocol, config).value.values) == Normalized(protocol, config)
  {
    AllFieldsPresent(config);
    NormalIsFixed(Normalized(protocol, config).value);
  }

  lemma NormalIsFixed(exporter: Exporter)
    requires IsNormal(exporter)
    ensures Normalized(exporter.protocol, exporter.values) == Success(exporter)
  {
    assert DEFAULTS + exporter.values == exporter.values;
    assert Converted(exporter.values) == exporter.values;
  }

  /** A profile that sets nothing gets the defaults. */
  lemma DefaultsAreNormal(protocol: string)
    requires IsProtocol(protocol)
    ensures IsNormal(Exporter(protocol, DEFAULTS)) &&
            Normalized(protocol, map[]) == Success(Exporter(protocol, DEFAULTS))
  {
    AllFieldsPresent(map[]);
    assert DEFAULTS + map[] == DEFAULTS;
    NormalIsFixed(Exporter(protocol, DEFAULTS));
    assert DEFAULTS + DEFAULTS == DEFAULTS;
  }
}
