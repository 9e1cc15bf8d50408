/** What the sessions of a measurement say, in terms of the measurement, its profile and the
    addresses of its nodes. */
module Expansion {
  import opened Wrappers
  import opened Decimal
  import opened Names
  import opened SessionNames
  import opened ExporterConfig
  import opened Sessions

  // ----- Parts of a session -----

  function ClusterNamed(e: EndpointSpec): string {
    match e.cluster case Some(cluster) => cluster case None => "local"
  }

  /** The endpoint is the node that was named, with the address of that node in its cluster, or
      else of a node of that name. */
  predicate IsEndpoint(spec: EndpointSpec, addresses: NodeAddresses, e: Endpoint) {
    && spec.nodeName != "" && e.nodeName == spec.nodeName && e.cluster == ClusterNamed(spec)
    && if (e.cluster, e.nodeName) in addresses.pairs then e.nodeAddress == addresses.pairs[(e.cluster, e.nodeName)]
       else e.nodeName in addresses.nodes && e.nodeAddress == addresses.nodes[e.nodeName]
  }

  lemma EndpointMeans(spec: EndpointSpec, addresses: NodeAddresses)
    ensures var r := NormalizeEndpoint(spec, addresses);
      r.Success? ==> IsEndpoint(spec, addresses, r.value)
  {
  }

  /** A number, possibly with the letter of a unit, and that many seconds. */
  ghost predicate IsDuration(text: string, seconds: int) {
    exists digits, n :: IsDecimal(digits) && ParseNat(digits) == Some(n) &&
        IsAmount(StripSpace(text), digits, n, seconds)
  }

  predicate IsAmount(text: string, digits: string, n: int, seconds: int) {
    || (text == digits && seconds == n)
    || (text == digits + "s" && seconds == n)
    || (text == digits + "m" && seconds == 60 * n)
    || (text == digits + "h" && seconds == 60 * 60 * n)
    || (text == digits + "d" && seconds == 24 * 60 * 60 * n)
  }

  lemma UnitMeans(digits: string, unit: char, text: string, n: int)
    requires text == digits + [unit]
    ensures UnitSeconds(unit).Some? ==> IsAmount(text, digits, n, n * UnitSeconds(unit).value)
    ensures IsAmount(text, text, n, n)
  {
  }

  lemma DurationMeans(text: string)
    ensures var r := ParseDuration(text);
      r.Some? ==> IsDuration(text, r.value)
  {
    var s := StripSpace(text);
    if ParseDuration(text).Some? {
      var last := s[|s| - 1];
      var digits := if UnitSeconds(last).Some? then s[..|s| - 1] else s;
      UnitMeans(s[..|s| - 1], last, s, ParseNat(digits).value);
      assert IsAmount(s, digits, ParseNat(digits).value, ParseDuration(text).value);
    }
  }

  lemma {:induction false} StripTwice(text: string)
    ensures StripSpace(StripSpace(text)) == StripSpace(text)
    decreases |text|
  {
    if text != "" && IsSpace(text[0]) {
      StripTwice(text[1..]);
    } else if text != "" && IsSpace(text[|text| - 1]) {
      StripTwice(text[..|text| - 1]);
    }
  }

  /** A period is kept for periodic probes only; a duration wherever one is given. */
  ghost predicate IsExecution(spec: ExecutionSpec, e: Execution) {
    && e.mode == (match spec.mode case Some(mode) => mode case None => "continuous")
    && (e.every.Some? <==> e.mode == "periodicProbe")
    && (e.every.Some? ==> e.every.value.text == StripSpace(spec.every) && IsDuration(spec.every, e.every.value.seconds))
    && (e.durationSeconds.Some? <==> spec.durationSeconds.Some?)
    && (e.durationSeconds.Some? ==> e.durationSeconds.value == spec.durationSeconds.value)
  }

  lemma ExecutionMeans(spec: ExecutionSpec)
    ensures var r := NormalizeExecution(spec);
      r.Success? ==> IsExecution(spec, r.value)
  {
    var every := StripSpace(spec.every);
    StripTwice(spec.every);
    DurationMeans(every);
    PeriodMeans(spec, every);
  }

  lemma PeriodMeans(spec: ExecutionSpec, every: string)
    requires every == StripSpace(spec.every) && StripSpace(every) == every
    ensures forall seconds :: IsDuration(every, seconds) <==> IsDuration(spec.every, seconds)
  {
  }

  predicate IsRuntime(spec: RuntimeSpec, image: string, r: Runtime) {
    && r.image == (match spec.image case Some(given) => given case None => image)
    && r.imagePullPolicy == (match spec.imagePullPolicy case Some(given) => given case None => "IfNotPresent")
  }

  lemma RuntimeMeans(spec: RuntimeSpec, image: string)
    ensures var r := NormalizeRuntime(spec, image);
      r.Success? ==> IsRuntime(spec, image, r.value)
  {
  }

  /** The profile's value over the default, as a number or a flag where the field is one. */
  predicate IsSetting(config: Settings, f: Field, v: Value) {
    var given := if f in config then config[f] else if f in DEFAULTS then DEFAULTS[f] else Null;
    if IsInteger(f) then
      v.Int? && match given
                case Int(n) => v.n == n
                case Text(text) => ParseInt(text) == Some(v.n)
                case Bool(flag) => v.n == (if flag then 1 else 0)
                case Null => false
    else if f == Debug then v == Bool(given != Bool(false) && given != Int(0) && given != Text("") && given != Null)
    else v == given
  }

  ghost predicate IsExporter(profile: Profile, e: Exporter) {
    e.protocol == profile.protocol && forall f: Field :: f in e.values && IsSetting(profile.exporter, f, e.values[f])
  }

  lemma SettingMeans(config: Settings, f: Field)
    requires AllIntegers(DEFAULTS + config)
    ensures f in Converted(DEFAULTS + config) && IsSetting(config, f, Converted(DEFAULTS + config)[f])
  {
    AllFieldsPresent(config);
    AllFieldsPresent(map[]);
    assert f in DEFAULTS + map[];
  }

  lemma ExporterMeans(profile: Profile)
    ensures var r := Normalized(profile.protocol, profile.exporter);
      r.Success? ==> IsExporter(profile, r.value)
  {
    if Normalized(profile.protocol, profile.exporter).Success? {
      forall f: Field { SettingMeans(profile.exporter, f); }
    }
  }

  // ----- A session -----

  function ChosenModes(m: Measurement): seq<string> {
    match m.networkModes case Some(modes) => modes case None => ["pod"]
  }

  function ChosenDirections(m: Measurement): seq<string> {
    match m.directions case Some(directions) => directions case None => ["sourceToDestination", "destinationToSource"]
  }

  /** What all sessions share. */
  ghost predicate SharesSpec(m: Measurement, profile: Profile, image: string, s: SessionSpec) {
    && s.measurement == m.name && s.profile == profile.name && s.protocol == profile.protocol
    && IsExporter(profile, s.exporter) && IsExecution(m.execution, s.execution) &&
        IsRuntime(m.runtime, image, s.runtime)
  }

  /** The client is at the measurement's source in one direction, and at its destination in the other. */
  predicate HasEnds(m: Measurement, addresses: NodeAddresses, s: SessionSpec) {
    if s.direction == "sourceToDestination"
    then IsEndpoint(m.source, addresses, s.source) && IsEndpoint(m.destination, addresses, s.destination)
    else IsEndpoint(m.destination, addresses, s.source) && IsEndpoint(m.source, addresses, s.destination)
  }

  predicate HasLabels(digest: Digest, m: Measurement, s: Session) {
    s.labels == map[
      MeasurementKey := LabelValue(digest, m.name),
      SessionKey := LabelValue(digest, m.name + ":" + s.spec.networkMode + ":" + s.spec.direction),
      DirectionKey := LabelValue(digest, s.spec.direction), NetworkModeKey := LabelValue(digest, s.spec.networkMode),
      SrcNodeKey := LabelValue(digest, s.spec.source.nodeName),
          DstNodeKey := LabelValue(digest, s.spec.destination.nodeName),
      SrcClusterKey := LabelValue(digest, s.spec.source.cluster),
          DstClusterKey := LabelValue(digest, s.spec.destination.cluster)
    ]
  }

  ghost predicate IsSessionOf(digest: Digest, m: Measurement, profile: Profile, addresses: NodeAddresses, image: string,
                              s: Session) {
    && s.spec.networkMode in ChosenModes(m) && s.spec.direction in ChosenDirections(m)
    && s.name == SessionName(digest, m.name, s.spec.networkMode, s.spec.direction)
    && s.namespace == (match m.namespace case Some(namespace) => namespace case None => "default")
    && s.generation == None
    && SharesSpec(m, profile, image, s.spec) && HasEnds(m, addresses, s.spec) && HasLabels(digest, m, s)
  }

  // ----- The plan -----

  ghost predicate IsPlan(m: Measurement, profile: Profile, addresses: NodeAddresses, image: string, p: Plan) {
    && p.measurement == m.name && p.profile == profile.name && IsExporter(profile, p.exporter)
    && p.namespace == (match m.namespace case Some(namespace) => namespace case None => "default")
    && IsEndpoint(m.source, addresses, p.source) && IsEndpoint(m.destination, addresses, p.destination)
    && p.directions == ChosenDirections(m) && p.networkModes == ChosenModes(m)
    && IsExecution(m.execution, p.execution) && IsRuntime(m.runtime, image, p.runtime)
  }

  lemma ChoicesMean(m: Measurement)
    ensures ChooseDirections(m).Success? ==> ChooseDirections(m).value == ChosenDirections(m)
    ensures ChooseModes(m).Success? ==> ChooseModes(m).value == ChosenModes(m)
  {
  }

  lemma PlanMeans(m: Measurement, profile: Profile, addresses: NodeAddresses, image: string)
    ensures var r := MakePlan(m, profile, addresses, image);
      r.Success? ==> IsPlan(m, profile, addresses, image, r.value)
  {
    ExporterMeans(profile);
    EndpointMeans(m.source, addresses);
    EndpointMeans(m.destination, addresses);
    ChoicesMean(m);
    ExecutionMeans(m.execution);
    RuntimeMeans(m.runtime, image);
  }

  lemma PlannedLabels(digest: Digest, m: Measurement, p: Plan, mode: string, direction: string)
    requires p.measurement == m.name
    ensures HasLabels(digest, m, PlannedSession(digest, p, mode, direction))
  {
  }

  lemma PlannedMeans(digest: Digest, m: Measurement, profile: Profile, addresses: NodeAddresses, image: string, p: Plan,
                     mode: string, direction: string)
    requires IsPlan(m, profile, addresses, image, p) && mode in p.networkModes && direction in p.directions
    ensures IsSessionOf(digest, m, profile, addresses, image, PlannedSession(digest, p, mode, direction))
  {
    PlannedLabels(digest, m, p, mode, direction);
  }

  /** The sessions of an accepted measurement: for every mode and direction it chooses there is one,
      and each says of its endpoints, names, labels and settings what the measurement says. */
  lemma SessionsMean(digest: Digest, m: Measurement, profile: Profile, addresses: NodeAddresses, image: string)
    requires Expanded(digest, m, profile, addresses, image).Success?
    ensures var sessions := Expanded(digest, m, profile, addresses, image).value;
      && (forall s :: s in sessions ==> IsSessionOf(digest, m, profile, addresses, image, s))
      && (forall mode, direction | mode in ChosenModes(m) && direction in ChosenDirections(m) ::
            exists s :: s in sessions && s.spec.networkMode == mode && s.spec.direction == direction)
  {
    var sessions := Expanded(digest, m, profile, addresses, image).value;
    var p := MakePlan(m, profile, addresses, image).value;
    PlanMeans(m, profile, addresses, image);
    PlanIsChecked(m, profile, addresses, image);
    forall s | s in sessions ensures IsSessionOf(digest, m, profile, addresses, image, s) {
      ExpandedMember(digest, p, s);
      PlannedMeans(digest, m, profile, addresses, image, p, s.spec.networkMode, s.spec.direction);
    }
    forall mode, direction | mode in ChosenModes(m) && direction in ChosenDirections(m)
      ensures exists s :: s in sessions && s.spec.networkMode == mode && s.spec.direction == direction
    {
      var s := PlannedSession(digest, p, mode, direction);
      PlannedSpec(digest, p, mode, direction);
      ExpandedMember(digest, p, s);
    }
  }

  // ----- What is accepted -----

  /** The settings a profile gives, with the defaults, are numbers within their bounds. */
  ghost predicate AreSettings(config: Settings) {
    forall f: Field | IsInteger(f) :: exists n :: IsSetting(config, f, Int(n)) && InBounds(f, n)
  }

  lemma SettingAccepted(config: Settings, f: Field)
    requires IsInteger(f)
    ensures f in DEFAULTS + config
    ensures forall n :: IsSetting(config, f, Int(n)) <==> ToInt((DEFAULTS + config)[f]) == Some(n)
  {
    AllFieldsPresent(config);
    AllFieldsPresent(map[]);
    assert f in DEFAULTS + map[];
  }

  lemma ConfigAccepted(protocol: string, config: Settings)
    ensures Normalized(protocol, config).Success? <==> IsProtocol(protocol) && AreSettings(config)
  {
    var merged := DEFAULTS + config;
    forall f: Field | IsInteger(f)
      ensures f in merged && forall n :: IsSetting(config, f, Int(n)) <==> ToInt(merged[f]) == Some(n)
    {
      SettingAccepted(config, f);
    }
    if IsProtocol(protocol) && AreSettings(config) {
      forall f: Field | f in merged && IsInteger(f) ensures ToInt(merged[f]).Some? &&
          InBounds(f, ToInt(merged[f]).value) {
        var n :| IsSetting(config, f, Int(n)) && InBounds(f, n);
      }
    }
    if Normalized(protocol, config).Success? {
      forall f: Field | IsInteger(f) ensures exists n :: IsSetting(config, f, Int(n)) && InBounds(f, n) {
        assert IsSetting(config, f, Int(ToInt(merged[f]).value));
        assert Converted(merged)[f] == Int(ToInt(merged[f]).value);
      }
    }
  }

  /** Some modes or directions are chosen, each once, and all are known. */
  predicate IsChoice(choice: seq<string>, known: set<string>) {
    choice != [] && (forall i, j :: 0 <= i < j < |choice| ==> choice[i] != choice[j]) && forall c :: c in choice ==>
        c in known
  }

  lemma ChoiceAccepted(choice: seq<string>, supported: string -> bool, known: set<string>)
    requires forall c :: supported(c) <==> c in known
    ensures CheckChoice(choice, supported).Success? <==> IsChoice(choice, known)
  {
  }

  lemma ChoicesAccepted(m: Measurement)
    ensures ChooseDirections(m).Success? <==>
            IsChoice(ChosenDirections(m), {"sourceToDestination", "destinationToSource"})
    ensures ChooseModes(m).Success? <==> IsChoice(ChosenModes(m), {"host", "pod", "service"})
  {
    ChoiceAccepted(ChosenDirections(m), (d: string) => IsDirection(d), {"sourceToDestination", "destinationToSource"});
    ChoiceAccepted(ChosenModes(m), (n: string) => IsNetworkMode(n), {"host", "pod", "service"});
  }

  /** An amount of time is read exactly if it is one. */
  lemma DurationAccepted(text: string)
    requires StripSpace(text) == text
    ensures ParseDuration(text).Some? <==> exists seconds :: IsDuration(text, seconds)
    ensures forall seconds :: IsDuration(text, seconds) ==> ParseDuration(text) == Some(seconds)
  {
    DurationMeans(text);
    forall seconds | IsDuration(text, seconds) ensures ParseDuration(text) == Some(seconds) {
      var digits, n :| IsDecimal(digits) && ParseNat(digits) == Some(n) && IsAmount(text, digits, n, seconds);
      AmountIsRead(text, digits, n, seconds);
    }
  }

  lemma AmountIsRead(text: string, digits: string, n: nat, seconds: int)
    requires StripSpace(text) == text && IsDecimal(digits) && ParseNat(digits) == Some(n)
    requires IsAmount(text, digits, n, seconds)
    ensures ParseDuration(text) == Some(seconds)
  {
    if text == digits {
      assert IsDigit(text[|text| - 1]);
    } else {
      assert text[..|text| - 1] == digits;
    }
  }

  ghost predicate IsExecutionSpec(spec: ExecutionSpec) {
    var mode, every := if spec.mode.Some? then spec.mode.value else "continuous", StripSpace(spec.every);
    && mode in {"continuous", "probe", "periodicProbe"}
    && (every != "" ==> exists seconds :: IsDuration(spec.every, seconds))
    && (mode == "periodicProbe" ==> every != "" && exists seconds :: IsDuration(spec.every, seconds) && seconds > 0)
    && (spec.durationSeconds.Some? ==> spec.durationSeconds.value > 0)
  }

  lemma ExecutionAccepted(spec: ExecutionSpec)
    ensures NormalizeExecution(spec).Success? <==> IsExecutionSpec(spec)
  {
    var every := StripSpace(spec.every);
    StripTwice(spec.every);
    DurationAccepted(every);
    PeriodMeans(spec, every);
    assert ParseDuration(every).Some? ==>
           IsDuration(spec.every, ParseDuration(every).value) by { DurationMeans(every); }
  }

  /** A node is named, and has an address. */
  predicate IsResolvable(e: EndpointSpec, addresses: NodeAddresses) {
    e.nodeName != "" && ((ClusterNamed(e), e.nodeName) in addresses.pairs || e.nodeName in addresses.nodes)
  }

  predicate IsPolicy(spec: RuntimeSpec) {
    spec.imagePullPolicy.Some? ==> spec.imagePullPolicy.value in {"Always", "IfNotPresent", "Never"}
  }

  predicate ChoosesWithinCluster(m: Measurement) {
    ClusterNamed(m.source) == ClusterNamed(m.destination) || forall mode :: mode in ChosenModes(m) ==> mode == "host"
  }

  lemma EndpointAccepted(e: EndpointSpec, addresses: NodeAddresses)
    ensures NormalizeEndpoint(e, addresses).Success? <==> IsResolvable(e, addresses)
  {
  }

  lemma RuntimeAccepted(spec: RuntimeSpec, image: string)
    ensures NormalizeRuntime(spec, image).Success? <==> IsPolicy(spec)
  {
  }

  /** All that is asked of a measurement, its profile and the addresses of its nodes. */
  ghost predicate IsAcceptable(m: Measurement, profile: Profile, addresses: NodeAddresses) {
    && m.kind == "LinkMeasurement" && profile.kind == "MeasurementProfile"
    && IsProtocol(profile.protocol) && AreSettings(profile.exporter)
    && IsResolvable(m.source, addresses) && IsResolvable(m.destination, addresses)
    && IsChoice(ChosenDirections(m), {"sourceToDestination", "destinationToSource"})
    && IsChoice(ChosenModes(m), {"host", "pod", "service"})
    && ChoosesWithinCluster(m) && IsExecutionSpec(m.execution) && IsPolicy(m.runtime)
  }

  predicate CrossesCluster(modes: seq<string>, source: Endpoint, destination: Endpoint) {
    source.cluster != destination.cluster && exists i :: 0 <= i < |modes| && modes[i] != "host"
  }

  lemma CrossingIsRefused(m: Measurement, addresses: NodeAddresses, source: Endpoint, destination: Endpoint)
    requires IsEndpoint(m.source, addresses, source) && IsEndpoint(m.destination, addresses, destination)
    ensures ChoosesWithinCluster(m) <==> !CrossesCluster(ChosenModes(m), source, destination)
  {
    var modes := ChosenModes(m);
    forall mode | mode in modes && mode != "host" ensures exists i :: 0 <= i < |modes| && modes[i] != "host" {
      var i :| 0 <= i < |modes| && modes[i] == mode;
    }
    forall i | 0 <= i < |modes| && modes[i] != "host" ensures modes[i] in modes {}
  }

  /** A plan is made exactly if every part of it is accepted. */
  lemma PlanParts(m: Measurement, profile: Profile, addresses: NodeAddresses, image: string)
    ensures MakePlan(m, profile, addresses, image).Success? <==>
            && m.kind == "LinkMeasurement" && profile.kind == "MeasurementProfile"
            && Normalized(profile.protocol, profile.exporter).Success?
            && NormalizeEndpoint(m.source, addresses).Success? && NormalizeEndpoint(m.destination, addresses).Success?
            && ChooseDirections(m).Success? && ChooseModes(m).Success?
            && !CrossesCluster(ChooseModes(m).value, NormalizeEndpoint(m.source, addresses).value,
                               NormalizeEndpoint(m.destination, addresses).value)
            && NormalizeExecution(m.execution).Success? && NormalizeRuntime(m.runtime, image).Success?
  {
  }

  lemma EndsAccepted(m: Measurement, addresses: NodeAddresses)
    requires ChooseModes(m).Success?
    ensures (NormalizeEndpoint(m.source, addresses).Success? && NormalizeEndpoint(m.destination, addresses).Success? &&
             !CrossesCluster(ChooseModes(m).value, NormalizeEndpoint(m.source, addresses).value,
                             NormalizeEndpoint(m.destination, addresses).value)) <==>
            IsResolvable(m.source, addresses) && IsResolvable(m.destination, addresses) && ChoosesWithinCluster(m)
  {
    EndpointAccepted(m.source, addresses);
    EndpointAccepted(m.destination, addresses);
    EndpointMeans(m.source, addresses);
    EndpointMeans(m.destination, addresses);
    ChoicesMean(m);
    if NormalizeEndpoint(m.source, addresses).Success? && NormalizeEndpoint(m.destination, addresses).Success? {
      CrossingIsRefused(m, addresses, NormalizeEndpoint(m.source, addresses).value,
                        NormalizeEndpoint(m.destination, addresses).value);
    }
  }

  /** A measurement is expanded exactly if it is acceptable. */
  lemma ExpansionAccepted(digest: Digest, m: Measurement, profile: Profile, addresses: NodeAddresses, image: string)
    ensures Expanded(digest, m, profile, addresses, image).Success? <==> IsAcceptable(m, profile, addresses)
  {
    PlanParts(m, profile, addresses, image);
    ConfigAccepted(profile.protocol, profile.exporter);
    ChoicesAccepted(m);
    if ChooseModes(m).Success? { EndsAccepted(m, addresses); }
    ExecutionAccepted(m.execution);
    RuntimeAccepted(m.runtime, image);
  }
}
