/** Measurements and profiles, and their expansion into measurement sessions. */
module Sessions {
  import opened Wrappers
  import opened Decimal
  import opened Names
  import opened SessionNames
  import opened ExporterConfig

  datatype LabelKey =
    | MeasurementKey | SessionKey | DirectionKey | NetworkModeKey
    | SrcNodeKey | DstNodeKey | SrcClusterKey | DstClusterKey

  type Labels = map<LabelKey, string>

  datatype Endpoint = Endpoint(cluster: string, nodeName: string, nodeAddress: string)

  datatype Every = Every(text: string, seconds: nat)

  datatype Execution = Execution(mode: string, every: Option<Every>, durationSeconds: Option<nat>)

  datatype Runtime = Runtime(image: string, imagePullPolicy: string)

  datatype SessionSpec = SessionSpec(
    measurement: string, profile: string, protocol: string, direction: string, networkMode: string,
    source: Endpoint, destination: Endpoint, execution: Execution, runtime: Runtime, exporter: Exporter)

  /** A session object; the API server assigns the generation. */
  datatype Session = Session(name: string, namespace: string, labels: Labels, generation: Option<nat>,
                             spec: SessionSpec)

  datatype EndpointSpec = EndpointSpec(cluster: Option<string>, nodeName: string)

  datatype ExecutionSpec = ExecutionSpec(mode: Option<string>, every: string, durationSeconds: Option<int>)

  datatype RuntimeSpec = RuntimeSpec(image: Option<string>, imagePullPolicy: Option<string>)

  datatype Measurement = Measurement(
    kind: string, name: string, namespace: Option<string>, profileRef: string,
    source: EndpointSpec, destination: EndpointSpec,
    directions: Option<seq<string>>, networkModes: Option<seq<string>>,
    execution: ExecutionSpec, runtime: RuntimeSpec)

  datatype Profile = Profile(kind: string, name: string, protocol: string, exporter: Settings)

  /** Node addresses by cluster and node, and by node alone. */
  datatype NodeAddresses = NodeAddresses(pairs: map<(string, string), string>, nodes: map<string, string>)

  // ----- Execution -----

  function UnitSeconds(c: char): Option<nat> {
    match c
    case 's' => Some(1)
    case 'm' => Some(60)
    case 'h' => Some(3600)
    case 'd' => Some(86400)
    case _ => None
  }

  /** Digits with an optional unit, spaces around. */
  function ParseDuration(text: string): Option<nat> {
    var s := StripSpace(text);
    if s == "" then None
    else
      var suffix := UnitSeconds(s[|s| - 1]);
      var digits := if suffix.Some? then s[..|s| - 1] else s;
      if !IsDecimal(digits) then None
      else
        match ParseNat(digits)
        case Some(n) => Some(n * (if suffix.Some? then suffix.value else 1))
        case None => None
  }

  predicate IsExecutionMode(mode: string) {
    mode == "continuous" || mode == "probe" || mode == "periodicProbe"
  }

  function NormalizeExecution(spec: ExecutionSpec): Result<Execution, SpecError> {
    var mode := if spec.mode.Some? then spec.mode.value else "continuous";
    if !IsExecutionMode(mode) then Failure(UnsupportedMode)
    else
      var every := StripSpace(spec.every);
      var seconds := ParseDuration(every);
      if every != "" && seconds.None? then Failure(BadDuration)
      else if mode == "periodicProbe" && (every == "" || seconds.value == 0) then Failure(MissingEvery)
      else if spec.durationSeconds.Some? && spec.durationSeconds.value <= 0 then Failure(BadDuration)
      else
        Success(Execution(
                  mode,
                  if mode == "periodicProbe" then Some(Every(every, seconds.value)) else None,
                  if spec.durationSeconds.Some? then Some(spec.durationSeconds.value) else None))
  }

  function NormalizeRuntime(spec: RuntimeSpec, defaultImage: string): Result<Runtime, SpecError> {
    var image := if spec.image.Some? then spec.image.value else defaultImage;
    var policy := if spec.imagePullPolicy.Some? then spec.imagePullPolicy.value else "IfNotPresent";
    if policy != "Always" && policy != "IfNotPresent" && policy != "Never" then Failure(BadPullPolicy)
    else Success(Runtime(image, policy))
  }

  // ----- Endpoints -----

  function NormalizeEndpoint(spec: EndpointSpec, addresses: NodeAddresses): Result<Endpoint, SpecError> {
    var cluster := if spec.cluster.Some? then spec.cluster.value else "local";
    if spec.nodeName == "" then Failure(MissingNode)
    else if (cluster, spec.nodeName) in addresses.pairs then
      Success(Endpoint(cluster, spec.nodeName, addresses.pairs[(cluster, spec.nodeName)]))
    else if spec.nodeName in addresses.nodes then
      Success(Endpoint(cluster, spec.nodeName, addresses.nodes[spec.nodeName]))
    else Failure(MissingAddress)
  }

  // ----- Expansion -----

  predicate Distinct<T(==)>(s: seq<T>) {
    forall i, j :: 0 <= i < j < |s| ==> s[i] != s[j]
  }

  function CheckChoice(choice: seq<string>, supported: string -> bool): Result<seq<string>, SpecError> {
    if choice == [] then Failure(EmptyChoice)
    else if !Distinct(choice) then Failure(RepeatedChoice)
    else if exists i :: 0 <= i < |choice| && !supported(choice[i]) then Failure(UnsupportedChoice)
    else Success(choice)
  }

  function ChooseDirections(m: Measurement): Result<seq<string>, SpecError> {
    CheckChoice(
      if m.directions.Some? then m.directions.value else [SOURCE_TO_DESTINATION, DESTINATION_TO_SOURCE],
      (d: string) => IsDirection(d))
  }

  function ChooseModes(m: Measurement): Result<seq<string>, SpecError> {
    CheckChoice(
      if m.networkModes.Some? then m.networkModes.value else ["pod"],
      (n: string) => IsNetworkMode(n))
  }

  /** What all sessions of a measurement have in common. */
  datatype Plan = Plan(
    measurement: string, namespace: string, profile: string, exporter: Exporter,
    source: Endpoint, destination: Endpoint, directions: seq<string>, networkModes: seq<string>,
    execution: Execution, runtime: Runtime)

  function MakePlan(m: Measurement, profile: Profile, addresses: NodeAddresses, defaultImage: string):
    Result<Plan, SpecError>
  {
    if m.kind != "LinkMeasurement" || profile.kind != "MeasurementProfile" then Failure(WrongKind)
    else
      var exporter :- Normalized(profile.protocol, profile.exporter);
      var source :- NormalizeEndpoint(m.source, addresses);
      var destination :- NormalizeEndpoint(m.destination, addresses);
      var directions :- ChooseDirections(m);
      var modes :- ChooseModes(m);
      if source.cluster != destination.cluster && exists i :: 0 <= i < |modes| && modes[i] != "host"
      then Failure(CrossCluster)
      else
        var execution :- NormalizeExecution(m.execution);
        var runtime :- NormalizeRuntime(m.runtime, defaultImage);
        Success(Plan(
                  m.name, if m.namespace.Some? then m.namespace.value else "default", profile.name, exporter,
                  source, destination, directions, modes, execution, runtime))
  }

  function MakeLabels(measurement: string, session: string, direction: string, mode: string,
                      srcNode: string, dstNode: string, srcCluster: string, dstCluster: string): (labels: Labels)
    ensures SessionKey in labels && labels[SessionKey] == session
    ensures MeasurementKey in labels && labels[MeasurementKey] == measurement
  {
    map[
      MeasurementKey := measurement, SessionKey := session, DirectionKey := direction, NetworkModeKey := mode,
      SrcNodeKey := srcNode, DstNodeKey := dstNode, SrcClusterKey := srcCluster, DstClusterKey := dstCluster
    ]
  }

  function SessionLabels(digest: Digest, p: Plan, mode: string, direction: string, src: Endpoint,
                         dst: Endpoint): Labels {
    MakeLabels(
      LabelValue(digest, p.measurement), SessionLabel(digest, p.measurement, mode, direction),
      LabelValue(digest, direction), LabelValue(digest, mode),
      LabelValue(digest, src.nodeName), LabelValue(digest, dst.nodeName),
      LabelValue(digest, src.cluster), LabelValue(digest, dst.cluster))
  }

  function PlannedSession(digest: Digest, p: Plan, mode: string, direction: string): Session {
    var forward := direction == SOURCE_TO_DESTINATION;
    var src, dst := if forward then p.source else p.destination, if forward then p.destination else p.source;
    Session(
      SessionName(digest, p.measurement, mode, direction), p.namespace,
      SessionLabels(digest, p, mode, direction, src, dst), None,
      SessionSpec(p.measurement, p.profile, p.exporter.protocol, direction, mode, src, dst,
                  p.execution, p.runtime, p.exporter))
  }

  function Planner(digest: Digest, p: Plan): (string, string) -> Session {
    (mode, direction) => PlannedSession(digest, p, mode, direction)
  }

  function Row<T>(plan: (string, string) -> T, mode: string, directions: seq<string>): seq<T> {
    if directions == [] then []
    else Row(plan, mode, directions[..|directions| - 1]) + [plan(mode, directions[|directions| - 1])]
  }

  function Grid<T>(plan: (string, string) -> T, modes: seq<string>, directions: seq<string>): seq<T> {
    if modes == [] then []
    else Grid(plan, modes[..|modes| - 1], directions) + Row(plan, modes[|modes| - 1], directions)
  }

  function Expanded(digest: Digest, m: Measurement, profile: Profile, addresses: NodeAddresses, defaultImage: string):
    Result<seq<Session>, SpecError>
  {
    var plan :- MakePlan(m, profile, addresses, defaultImage);
    Success(Grid(Planner(digest, plan), plan.networkModes, plan.directions))
  }

  method ExpandMeasurementSessions(digest: Digest, m: Measurement, profile: Profile, addresses: NodeAddresses,
                                   defaultImage: string)
    returns (r: Result<seq<Session>, SpecError>)
    ensures r == Expanded(digest, m, profile, addresses, defaultImage)
  {
    var plan := MakePlan(m, profile, addresses, defaultImage);
    if plan.Failure? {
      return Failure(plan.error);
    }
    var sessions := PlanSessions(Planner(digest, plan.value), plan.value.networkModes, plan.value.directions);
    return Success(sessions);
  }

  method PlanSessions<T>(plan: (string, string) -> T, modes: seq<string>, directions: seq<string>)
    returns (sessions: seq<T>)
    ensures sessions == Grid(plan, modes, directions)
  {
    sessions := [];
    for i := 0 to |modes|
      invariant sessions == Grid(plan, modes[..i], directions)
    {
      ghost var before := sessions;
      for j := 0 to |directions|
        invariant sessions == before + Row(plan, modes[i], directions[..j])
      {
        assert directions[..j + 1][..j] == directions[..j];
        sessions := sessions + [plan(modes[i], directions[j])];
      }
      assert directions[..|directions|] == directions;
      assert modes[..i + 1][..i] == modes[..i];
    }
    assert modes[..|modes|] == modes;
  }

  // ----- What expansion yields -----

  lemma {:induction false} RowMember<T>(plan: (string, string) -> T, mode: string, directions: seq<string>, s: T)
    ensures s in Row(plan, mode, directions) <==> exists d :: d in directions && s == plan(mode, d)
  {
    if directions != [] {
      var front, d := directions[..|directions| - 1], directions[|directions| - 1];
      RowMember(plan, mode, front, s);
      assert directions == front + [d];
    }
  }

  /** A grid holds what is planned for each of its modes and directions, and nothing else. */
  lemma {:induction false} GridMember<T>(plan: (string, string) -> T, modes: seq<string>, directions: seq<string>, s: T)
    ensures s in Grid(plan, modes, directions) <==>
            exists mode, d :: mode in modes && d in directions && s == plan(mode, d)
  {
    if modes != [] {
      var front, mode := modes[..|modes| - 1], modes[|modes| - 1];
      GridMember(plan, front, directions, s);
      RowMember(plan, mode, directions, s);
      assert modes == front + [mode];
    }
  }

  /** What every accepted plan satisfies. */
  ghost predicate IsChecked(p: Plan) {
    && IsNormal(p.exporter)
    && p.directions != [] && Distinct(p.directions) && (forall d :: d in p.directions ==> IsDirection(d))
    && p.networkModes != [] && Distinct(p.networkModes) && (forall n :: n in p.networkModes ==> IsNetworkMode(n))
    && (p.source.cluster != p.destination.cluster ==> forall n :: n in p.networkModes ==> n == "host")
    && p.source.nodeName != "" && p.destination.nodeName != ""
    && IsValidExecution(p.execution)
  }

  predicate IsValidExecution(e: Execution) {
    && IsExecutionMode(e.mode)
    && (e.every.Some? <==> e.mode == "periodicProbe")
    && (e.every.Some? ==> e.every.value.seconds > 0)
    && (e.durationSeconds.Some? ==> e.durationSeconds.value > 0)
  }

  lemma DirectionsAreSupported(m: Measurement)
    requires ChooseDirections(m).Success?
    ensures var ds := ChooseDirections(m).value;
            ds != [] && Distinct(ds) && forall d :: d in ds ==> IsDirection(d)
  {
  }

  lemma ModesAreSupported(m: Measurement)
    requires ChooseModes(m).Success?
    ensures var ns := ChooseModes(m).value;
            ns != [] && Distinct(ns) && forall n :: n in ns ==> IsNetworkMode(n)
  {
  }

  lemma ExecutionIsValid(spec: ExecutionSpec)
    requires NormalizeExecution(spec).Success?
    ensures IsValidExecution(NormalizeExecution(spec).value)
  {
  }

  /** Whatever passes the checks of the expansion is well-formed. */
  lemma PlanIsChecked(m: Measurement, profile: Profile, addresses: NodeAddresses, defaultImage: string)
    requires MakePlan(m, profile, addresses, defaultImage).Success?
    ensures IsChecked(MakePlan(m, profile, addresses, defaultImage).value)
  {
    NormalizedIsNormal(profile.protocol, profile.exporter);
    DirectionsAreSupported(m);
    ModesAreSupported(m);
    ExecutionIsValid(m.execution);
  }

  /** The digest has no collision on the texts behind the session names of two measurements. */
  ghost predicate SessionsSeparated(digest: Digest, m: string, m': string) {
    forall mode, d, mode', d' | IsNetworkMode(mode) && IsDirection(d) && IsNetworkMode(mode') && IsDirection(d') ::
      NoCollision(digest, Raw([m, mode, d]), Raw([m', mode', d']))
  }

  /** Nor on those of one. */
  ghost predicate NamesSeparated(digest: Digest, m: string) {
    SessionsSeparated(digest, m, m)
  }

  /** No two sessions of a measurement share a name. */
  lemma PlannedNamesDistinct(digest: Digest, p: Plan, mode: string, d: string, mode': string, d': string)
    requires IsNetworkMode(mode) && IsDirection(d) && IsNetworkMode(mode') && IsDirection(d')
    requires NamesSeparated(digest, p.measurement)
    ensures PlannedSession(digest, p, mode, d).name == PlannedSession(digest, p, mode', d').name <==>
            mode == mode' && d == d'
  {
    SessionNameInjective(digest, p.measurement, mode, d, p.measurement, mode', d');
  }

  /** What holds of every session an expansion yields. */
  ghost predicate IsExpanded(digest: Digest, p: Plan, s: Session) {
    && IsNetworkMode(s.spec.networkMode) && s.spec.networkMode in p.networkModes
    && IsDirection(s.spec.direction) && s.spec.direction in p.directions
    && s == PlannedSession(digest, p, s.spec.networkMode, s.spec.direction)
  }

  lemma ExpandedMember(digest: Digest, p: Plan, s: Session)
    requires IsChecked(p)
    ensures s in Grid(Planner(digest, p), p.networkModes, p.directions) <==> IsExpanded(digest, p, s)
  {
    var plan, mode0, d0 := Planner(digest, p), s.spec.networkMode, s.spec.direction;
    forall mode, d | s == plan(mode, d)
      ensures mode == mode0 && d == d0
    {
      PlannedSpec(digest, p, mode, d);
    }
    GridMemberAt(plan, p.networkModes, p.directions, s, mode0, d0);
  }

  lemma GridMemberAt<T>(plan: (string, string) -> T, modes: seq<string>, directions: seq<string>, s: T,
                        mode0: string, d0: string)
    requires forall mode, d :: s == plan(mode, d) ==> mode == mode0 && d == d0
    ensures s in Grid(plan, modes, directions) <==> mode0 in modes && d0 in directions && s == plan(mode0, d0)
  {
    GridMember(plan, modes, directions, s);
  }

  lemma PlannedSpec(digest: Digest, p: Plan, mode: string, d: string)
    ensures var s := PlannedSession(digest, p, mode, d); s.spec.networkMode == mode && s.spec.direction == d
  {
  }

  /** The opposite direction exchanges the endpoints and keeps the rest of the specification. */
  lemma DirectionsMirror(digest: Digest, p: Plan, mode: string)
    ensures var forth := PlannedSession(digest, p, mode, SOURCE_TO_DESTINATION).spec;
            var back := PlannedSession(digest, p, mode, DESTINATION_TO_SOURCE).spec;
            && back.source == forth.destination == p.destination
            && back.destination == forth.source == p.source
            && back == forth.(direction := back.direction, source := back.source, destination := back.destination)
  {
    assert SOURCE_TO_DESTINATION[0] != DESTINATION_TO_SOURCE[0];
  }

  ghost predicate NamesDiffer(sessions: seq<Session>) {
    forall i, j :: 0 <= i < j < |sessions| ==> sessions[i].name != sessions[j].name
  }

  lemma {:induction false} RowDistinct(plan: (string, string) -> Session, mode: string, directions: seq<string>)
    requires Distinct(directions)
    requires forall d, d' | d in directions && d' in directions && d != d' :: plan(mode, d).name != plan(mode, d').name
    ensures NamesDiffer(Row(plan, mode, directions))
  {
    if directions != [] {
      var front := directions[..|directions| - 1];
      RowDistinct(plan, mode, front);
      forall s | s in Row(plan, mode, front)
        ensures s.name != plan(mode, directions[|front|]).name
      {
        RowMember(plan, mode, front, s);
        assert forall d :: d in front ==> d != directions[|front|];
      }
    }
  }

  /** A plan that gives every mode and direction a session name of its own. */
  ghost predicate NamesApart(plan: (string, string) -> Session, modes: seq<string>, directions: seq<string>) {
    forall mode, d, mode', d' |
      mode in modes && d in directions && mode' in modes && d' in directions && (mode != mode' || d != d') ::
      plan(mode, d).name != plan(mode', d').name
  }

  lemma {:induction false} GridDistinct(plan: (string, string) -> Session, modes: seq<string>, directions: seq<string>)
    requires Distinct(modes) && Distinct(directions) && NamesApart(plan, modes, directions)
    ensures NamesDiffer(Grid(plan, modes, directions))
  {
    if modes != [] {
      var front, mode := modes[..|modes| - 1], modes[|modes| - 1];
      GridDistinct(plan, front, directions);
      RowDistinct(plan, mode, directions);
      forall s, s' | s in Grid(plan, front, directions) && s' in Row(plan, mode, directions)
        ensures s.name != s'.name
      {
        GridMember(plan, front, directions, s);
        RowMember(plan, mode, directions, s');
        assert forall n :: n in front ==> n != mode;
      }
    }
  }

  lemma PlannedNamesApart(digest: Digest, p: Plan)
    requires IsChecked(p) && NamesSeparated(digest, p.measurement)
    ensures NamesApart(Planner(digest, p), p.networkModes, p.directions)
  {
    forall mode, d, mode', d' |
      mode in p.networkModes && d in p.directions && mode' in p.networkModes && d' in p.directions &&
          (mode != mode' || d != d')
      ensures Planner(digest, p)(mode, d).name != Planner(digest, p)(mode', d').name
    {
      PlannedNamesDistinct(digest, p, mode, d, mode', d');
    }
  }

  /** The sessions of a measurement have pairwise different names. */
  lemma ExpandedNamesDistinct(digest: Digest, p: Plan)
    requires IsChecked(p) && NamesSeparated(digest, p.measurement)
    ensures NamesDiffer(Grid(Planner(digest, p), p.networkModes, p.directions))
  {
    PlannedNamesApart(digest, p);
    GridDistinct(Planner(digest, p), p.networkModes, p.directions);
  }

  // ----- Defaults -----

  predicate IsResolved(e: EndpointSpec, addresses: NodeAddresses) {
    var cluster := if e.cluster.Some? then e.cluster.value else "local";
    e.nodeName != "" && ((cluster, e.nodeName) in addresses.pairs || e.nodeName in addresses.nodes)
  }

  lemma ResolvedIsNormalized(e: EndpointSpec, addresses: NodeAddresses)
    requires IsResolved(e, addresses)
    ensures var r := NormalizeEndpoint(e, addresses);
      r.Success? && r.value.cluster == if e.cluster.Some? then e.cluster.value else "local"
  {
  }

  lemma DefaultExecution()
    ensures NormalizeExecution(ExecutionSpec(None, "", None)) == Success(Execution("continuous", None, None))
  {
    assert StripSpace("") == "";
  }

  /** A measurement that only names two nodes of a cluster and a profile is always accepted, for
      both directions in pod mode. */
  lemma MinimalMeasurementIsPlanned(m: Measurement, profile: Profile, addresses: NodeAddresses, image: string)
    requires m.kind == "LinkMeasurement" && profile.kind == "MeasurementProfile"
    requires IsProtocol(profile.protocol) && profile.exporter == map[]
    requires IsResolved(m.source, addresses) && IsResolved(m.destination, addresses) &&
             m.source.cluster == m.destination.cluster
    requires m.directions == None && m.networkModes == None
    requires m.execution == ExecutionSpec(None, "", None) && m.runtime == RuntimeSpec(None, None)
    ensures var r := MakePlan(m, profile, addresses, image);
      && r.Success? && r.value.networkModes == ["pod"] &&
          r.value.directions == [SOURCE_TO_DESTINATION, DESTINATION_TO_SOURCE]
      && r.value.exporter == Exporter(profile.protocol, DEFAULTS) && r.value.execution.mode == "continuous"
  {
    DefaultsAreNormal(profile.protocol);
    ResolvedIsNormalized(m.source, addresses);
    ResolvedIsNormalized(m.destination, addresses);
    DefaultExecution();
    DefaultChoices(m);
  }

  lemma DefaultChoices(m: Measurement)
    requires m.directions == None && m.networkModes == None
    ensures ChooseDirections(m) == Success([SOURCE_TO_DESTINATION, DESTINATION_TO_SOURCE])
    ensures ChooseModes(m) == Success(["pod"])
  {
    assert SOURCE_TO_DESTINATION[0] != DESTINATION_TO_SOURCE[0];
  }
}
