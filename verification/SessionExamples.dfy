/** The conditions under which sessions are told apart can be met: a digest and two sessions that
    meet all of them. */
module SessionExamples {
  import opened Wrappers
  import opened Decimal
  import opened Names
  import opened SessionNames
  import opened ExporterConfig
  import opened Sessions
  import opened Manifests
  import opened SessionController
  import opened SessionDesigns
  import opened SessionRuns

  // ----- A digest -----

  function FirstDigit(c: char): (digit: char)
    ensures IsHex(digit)
  {
    if IsHex(c) then c else '0'
  }

  function LastDigit(c: char): (digit: char)
    ensures IsHex(digit)
  {
    if IsHex(c) then c else if c == 's' then '1' else if c == 'r' then '2' else if c == 't' then '3' else '0'
  }

  predicate EndsDiffer(a: string, b: string) {
    && a != "" && b != ""
    && (FirstDigit(a[0]) != FirstDigit(b[0]) || LastDigit(a[|a| - 1]) != LastDigit(b[|b| - 1]) || |a| % 10 != |b| % 10)
  }

  function Padded(first: char, last: char, length: char): (digest: string)
    requires IsHex(first) && IsHex(last) && IsHex(length)
    ensures IsDigest(digest)
  {
    [first, last, length, '0', '0', '0', '0', '0']
  }

  function ExampleDigest(): Digest {
    text => if text == "" then Padded('0', '0', '0')
            else Padded(FirstDigit(text[0]), LastDigit(text[|text| - 1]), DigitChar(|text| % 10))
  }

  lemma DigitCharIsHex(d: nat, e: nat)
    requires d < 10 && e < 10
    ensures IsHex(DigitChar(d)) && (DigitChar(d) == DigitChar(e) <==> d == e)
  {
  }

  /** The digest tells texts apart by their first and last characters and their length. */
  ghost predicate ReadsEnds(digest: Digest) {
    forall a, b | EndsDiffer(a, b) :: NoCollision(digest, a, b)
  }

  lemma ExampleReadsEnds()
    ensures ReadsEnds(ExampleDigest())
  {
    forall a, b | EndsDiffer(a, b) ensures NoCollision(ExampleDigest(), a, b) {
      var x, y := ExampleDigest()(a), ExampleDigest()(b);
      assert x[0] == FirstDigit(a[0]) && y[0] == FirstDigit(b[0]);
      assert x[2] == DigitChar(|a| % 10) && y[2] == DigitChar(|b| % 10);
      DigitCharIsHex(|a| % 10, |b| % 10);
      assert x[1] == LastDigit(a[|a| - 1]) && y[1] == LastDigit(b[|b| - 1]);
    }
  }

  // ----- The texts behind the names -----

  /** A measurement whose name is one letter that is a hexadecimal digit. */
  ghost predicate IsExample(m: string) {
    |m| == 1 && IsHostLabel(m, 1) && IsHex(m[0])
  }

  /** What the text of a session name starts with. */
  lemma ExampleStart(m: string, rest: string)
    requires IsExample(m)
    ensures NamePrefix(m) == m + "-" && (NamePrefix(m) + rest)[0] == m[0] && |NamePrefix(m) + rest| == 2 + |rest|
  {
    HostLabelPrefix(m);
  }

  lemma ExampleName(digest: Digest, m: string, mode: string, d: string, name: string)
    requires IsExample(m) && IsNetworkMode(mode) && IsDirection(d)
    requires name == SessionName(digest, m, mode, d)
    ensures name != "" && name[0] == m[0] && Slug(name) == name
  {
    var rest := mode + "-" + DirectionSlug(d);
    SessionRaw(m, mode, d);
    Assoc(NamePrefix(m), mode, "-");
    Assoc(NamePrefix(m), mode + "-", DirectionSlug(d));
    ExampleStart(m, rest);
    ModeIsHostLabel(mode);
    SlugLengths(d);
    ShortText(digest, Raw([m, mode, d]), m[0]);
    NameIsSlug(digest, m, mode, d);
  }

  lemma ShortText(digest: Digest, raw: string, first: char)
    requires 0 < |raw| <= 63 && raw[0] == first
    ensures Bounded(digest, raw, LABEL_MAX_LENGTH) == raw
  {
  }

  lemma ExampleLabel(m: string, s: SessionSpec)
    requires IsExample(m) && s.measurement == m && IsNetworkMode(s.networkMode) && IsDirection(s.direction)
    ensures LabelText(s) != "" && LabelText(s)[0] == m[0]
  {
    SessionLabelRaw(m, s.networkMode, s.direction);
    KeptLowerFixed(m);
  }

  lemma LastLetters(suffix: string)
    requires IsRole(suffix)
    ensures suffix != ""
    ensures suffix[|suffix| - 1] ==
            if suffix == "headless" then 's' else if suffix == "service" then 'e'
            else if suffix == "server" then 'r' else 't'
  {
  }

  lemma RoleEnds(name: string, suffix: string)
    requires name != "" && Slug(name) == name && IsRole(suffix)
    ensures var raw := Raw([name, suffix]);
      raw != "" && raw[0] == name[0] && suffix != "" && raw[|raw| - 1] == suffix[|suffix| - 1]
  {
    ResourceRaw(name, suffix);
    LastLetters(suffix);
  }

  lemma RolesDifferAtTheEnd(suffix: string, suffix': string)
    requires IsRole(suffix) && IsRole(suffix') && suffix != suffix'
    ensures suffix != "" && suffix' != "" && LastDigit(suffix[|suffix| - 1]) != LastDigit(suffix'[|suffix'| - 1])
  {
    LastLetters(suffix);
    LastLetters(suffix');
  }

  lemma ExampleRoles(digest: Digest, s: string, s': string)
    requires s != "" && Slug(s) == s && s' != "" && Slug(s') == s'
    requires ReadsEnds(digest)
    requires s == s' || FirstDigit(s[0]) != FirstDigit(s'[0])
    ensures RolesSeparated(digest, s, s')
  {
    forall suffix, suffix' | IsRole(suffix) && IsRole(suffix')
      ensures NoCollision(digest, Raw([s, suffix]), Raw([s', suffix']))
    {
      RoleEnds(s, suffix);
      RoleEnds(s', suffix');
      if s != s' || suffix != suffix' {
        if suffix != suffix' { RolesDifferAtTheEnd(suffix, suffix'); }
        assert EndsDiffer(Raw([s, suffix]), Raw([s', suffix']));
      }
    }
  }

  lemma ExampleJobs(digest: Digest, s: Session, s': Session)
    requires ReadsEnds(digest)
    requires s.generation == None && s'.generation == None
    requires s.name != "" && Slug(s.name) == s.name && s'.name != "" && Slug(s'.name) == s'.name
    requires FirstDigit(s.name[0]) != FirstDigit(s'.name[0])
    ensures JobsSeparated(digest, s, s')
  {
    var g, g' := GenerationText(s), GenerationText(s');
    GenerationIsDecimal(s);
    GenerationIsDecimal(s');
    JobRaw(s.name, g);
    JobRaw(s'.name, g');
    assert EndsDiffer(Raw([s.name, "client", g]), Raw([s'.name, "client", g']));
    OrdinaryGenerationsAreSeparated(digest, s, s');
  }

  /** What the texts of an expanded session start with. */
  ghost predicate StartsWith(s: Session, first: char) {
    && s.generation == None && IsHex(first)
    && s.name != "" && Slug(s.name) == s.name && s.name[0] == first
    && LabelText(s.spec) != "" && LabelText(s.spec)[0] == first
  }

  lemma ExampleSession(digest: Digest, p: Plan, s: Session)
    requires IsExample(p.measurement) && IsExpanded(digest, p, s)
    ensures StartsWith(s, p.measurement[0])
  {
    UnassignedIsStored(digest, p, s);
    StoredMeasurement(digest, p, s);
    ExpandedNameIsSlug(digest, p, s);
    ExampleName(digest, p.measurement, s.spec.networkMode, s.spec.direction, s.name);
    ExampleLabel(p.measurement, s.spec);
  }

  lemma UnassignedIsStored(digest: Digest, p: Plan, s: Session)
    requires p.measurement != "" && IsExpanded(digest, p, s)
    ensures s.generation == None && IsStored(digest, p, s)
  {
    assert s.(generation := None) == s;
  }

  lemma ExamplesAreSeparated(digest: Digest, s: Session, s': Session, first: char, first': char)
    requires ReadsEnds(digest) && StartsWith(s, first) && StartsWith(s', first') && first != first'
    ensures s.name != s'.name && LabelsSeparated(digest, s.spec, s'.spec) && Separated(digest, s, s')
  {
    ExampleRoles(digest, s.name, s'.name);
    ExampleRoles(digest, s.name, s.name);
    ExampleRoles(digest, s'.name, s'.name);
    ExampleJobs(digest, s, s');
    assert EndsDiffer(LabelText(s.spec), LabelText(s'.spec));
  }

  lemma ExpandedAreSeparated(digest: Digest, p: Plan, s: Session, p': Plan, s': Session)
    requires ReadsEnds(digest)
    requires IsExample(p.measurement) && IsExample(p'.measurement) && p.measurement != p'.measurement
    requires IsExpanded(digest, p, s) && IsExpanded(digest, p', s')
    ensures s.name != s'.name && LabelsSeparated(digest, s.spec, s'.spec) && Separated(digest, s, s')
  {
    var first, first' := p.measurement[0], p'.measurement[0];
    LettersDiffer(p.measurement, p'.measurement);
    ExampleSession(digest, p, s);
    ExampleSession(digest, p', s');
    ExamplesAreSeparated(digest, s, s', first, first');
  }

  lemma LettersDiffer(m: string, m': string)
    requires |m| == |m'| == 1 && m != m'
    ensures m[0] != m'[0]
  {
  }

  /** Every session of one such measurement is told apart from every session of another. */
  lemma ExamplesAreDistinguished(digest: Digest, p: Plan, s: Session, p': Plan, s': Session)
    requires ReadsEnds(digest)
    requires IsExample(p.measurement) && IsExample(p'.measurement) && p.measurement != p'.measurement
    requires IsExpanded(digest, p, s) && IsExpanded(digest, p', s')
    ensures Distinguished(digest, s, s')
  {
    ExpandedAreSeparated(digest, p, s, p', s');
    UnassignedIsStored(digest, p, s);
    UnassignedIsStored(digest, p', s');
    StoredAreDistinguished(digest, p, s, p', s');
  }

  // ----- All conditions at once -----

  /** A plan for probes in one direction and one mode, between two nodes of a cluster. */
  function ExamplePlan(measurement: string, protocol: string, execution: string, mode: string, direction: string,
                       cluster: string, node: string): Plan {
    Plan(measurement, node, node, Exporter(protocol, DEFAULTS), Endpoint(cluster, node, node),
         Endpoint(cluster, node, node),
         [direction], [mode], Execution(execution, None, None), Runtime(node, node))
  }

  /** It is a plan that an accepted measurement could have. */
  lemma ExamplePlanIsChecked(measurement: string, protocol: string, execution: string, mode: string, direction: string,
                             cluster: string, node: string)
    requires IsProtocol(protocol) && IsExecutionMode(execution) && execution != "periodicProbe"
    requires IsNetworkMode(mode) && IsDirection(direction) && node != ""
    ensures IsChecked(ExamplePlan(measurement, protocol, execution, mode, direction, cluster, node))
  {
    DefaultsAreNormal(protocol);
  }

  lemma ExampleIsExpanded(digest: Digest, p: Plan, mode: string, direction: string)
    requires mode in p.networkModes && direction in p.directions && IsNetworkMode(mode) && IsDirection(direction)
    ensures IsExpanded(digest, p, PlannedSession(digest, p, mode, direction))
  {
  }

  /** An operator that knows no cluster but its own. */
  function ExampleOperator(digest: Digest, cluster: string): Operator {
    Operator(digest, s => DesignOf(digest, s), cluster, map[], "")
  }

  lemma ExampleTarget(digest: Digest, s: Session)
    requires s.spec.source.cluster == s.spec.destination.cluster
    ensures TargetFor(ExampleOperator(digest, s.spec.source.cluster), s).Some?
  {
  }

  lemma ExampleOf(digest: Digest, m: string, protocol: string, execution: string, mode: string, direction: string,
                  cluster: string)
    returns (p: Plan, s: Session)
    requires IsProtocol(protocol) && IsExecutionMode(execution) && execution != "periodicProbe"
    requires IsNetworkMode(mode) && IsDirection(direction) && m != ""
    ensures p.measurement == m && IsChecked(p) && IsExpanded(digest, p, s)
    ensures s.spec.source.cluster == s.spec.destination.cluster == cluster && s.spec.execution.mode == execution
  {
    p := ExamplePlan(m, protocol, execution, mode, direction, cluster, m);
    s := PlannedSession(digest, p, mode, direction);
    ExamplePlanIsChecked(m, protocol, execution, mode, direction, cluster, m);
    ExampleIsExpanded(digest, p, mode, direction);
  }

  /** The texts of the example: two measurements, a protocol, and so on. */
  datatype Texts = Texts(m: string, m': string, protocol: string, execution: string, mode: string, direction: string,
                         cluster: string)

  ghost predicate AreExamples(x: Texts) {
    && IsExample(x.m) && IsExample(x.m') && x.m != x.m' && IsProtocol(x.protocol)
    && IsExecutionMode(x.execution) && x.execution != "periodicProbe" && IsNetworkMode(x.mode) &&
        IsDirection(x.direction)
  }

  lemma ExampleTexts() returns (x: Texts)
    ensures AreExamples(x) && x.execution == "probe"
  {
    x := Texts("a", "b", "udp", "probe", "pod", SOURCE_TO_DESTINATION, "local");
    assert x.m[0] != x.m'[0] && x.execution[1] != "periodicProbe"[1];
  }

  lemma ExamplesExist(digest: Digest, x: Texts) returns (p: Plan, s: Session, p': Plan, s': Session)
    requires ReadsEnds(digest) && AreExamples(x)
    ensures IsChecked(p) && IsChecked(p') && IsStored(digest, p, s) && IsStored(digest, p', s')
    ensures s.name != s'.name && LabelsSeparated(digest, s.spec, s'.spec) && Distinguished(digest, s, s')
    ensures s.spec.source.cluster == s.spec.destination.cluster == x.cluster
    ensures s'.spec.source.cluster == s'.spec.destination.cluster == x.cluster
    ensures s.spec.execution.mode == s'.spec.execution.mode == x.execution
  {
    p, s := ExampleOf(digest, x.m, x.protocol, x.execution, x.mode, x.direction, x.cluster);
    p', s' := ExampleOf(digest, x.m', x.protocol, x.execution, x.mode, x.direction, x.cluster);
    ExpandedAreSeparated(digest, p, s, p', s');
    UnassignedIsStored(digest, p, s);
    UnassignedIsStored(digest, p', s');
    ExamplesAreDistinguished(digest, p, s, p', s');
  }

  /** There are an operator and two probes, sessions of two expansions, that satisfy all that is
      asked of sessions to be reconciled in either order, run once and cleaned up alone. */
  lemma DistinguishedSessionsExist() returns (op: Operator, p: Plan, s: Session, p': Plan, s': Session)
    ensures IsChecked(p) && IsChecked(p') && IsStored(op.digest, p, s) && IsStored(op.digest, p', s')
    ensures s.name != s'.name && LabelsSeparated(op.digest, s.spec, s'.spec) && IsOther(op, s, s')
    ensures s.spec.execution.mode == s'.spec.execution.mode == "probe"
    ensures TargetFor(op, s).Some? && TargetFor(op, s').Some?
  {
    ExampleReadsEnds();
    var x := ExampleTexts();
    p, s, p', s' := ExamplesExist(ExampleDigest(), x);
    op := ExampleOperator(ExampleDigest(), x.cluster);
    ExampleTarget(op.digest, s);
    ExampleTarget(op.digest, s');
  }

  // ----- Two measurements -----

  lemma SessionText(m: string, mode: string, d: string)
    requires IsExample(m) && IsNetworkMode(mode) && IsDirection(d)
    ensures var raw := Raw([m, mode, d]);
      |raw| == |mode| + 22 && raw[0] == m[0] && raw[|raw| - 1] == DirectionSlug(d)[|DirectionSlug(d)| - 1]
  {
    SessionRaw(m, mode, d);
    HostLabelPrefix(m);
    SlugLengths(d);
  }

  lemma ModesDiffer(mode: string, mode': string)
    requires IsNetworkMode(mode) && IsNetworkMode(mode')
    ensures mode != mode' <==> (|mode| + 22) % 10 != (|mode'| + 22) % 10
  {
  }

  lemma DirectionsDiffer(d: string, d': string)
    requires IsDirection(d) && IsDirection(d') && d != d'
    ensures var x, y := DirectionSlug(d), DirectionSlug(d');
      |x| == |y| == 19 && LastDigit(x[18]) != LastDigit(y[18])
  {
  }

  lemma ExampleSessionsAreSeparated(digest: Digest, m: string, m': string)
    requires ReadsEnds(digest) && IsExample(m) && IsExample(m')
    ensures SessionsSeparated(digest, m, m')
  {
    forall mode, d, mode', d' | IsNetworkMode(mode) && IsDirection(d) && IsNetworkMode(mode') && IsDirection(d')
      ensures NoCollision(digest, Raw([m, mode, d]), Raw([m', mode', d']))
    {
      SessionText(m, mode, d);
      SessionText(m', mode', d');
      ModesDiffer(mode, mode');
      if m != m' {
        LettersDiffer(m, m');
        assert EndsDiffer(Raw([m, mode, d]), Raw([m', mode', d']));
      } else if mode != mode' {
        assert EndsDiffer(Raw([m, mode, d]), Raw([m', mode', d']));
      } else if d != d' {
        DirectionsDiffer(d, d');
        assert EndsDiffer(Raw([m, mode, d]), Raw([m', mode', d']));
      }
    }
  }

  lemma ExampleLabelValue(digest: Digest, m: string)
    requires IsExample(m)
    ensures LabelValue(digest, m) == m
  {
    RawOne(m);
    SlugFixed(m);
  }

  /** Two measurements whose sessions, and whose own sessions, have separate names, with different
      label values. */
  lemma SeparatedMeasurementsExist() returns (digest: Digest, m: string, m': string)
    ensures SessionsSeparated(digest, m, m') && NamesSeparated(digest, m) && NamesSeparated(digest, m')
    ensures LabelValue(digest, m) != LabelValue(digest, m')
  {
    ExampleReadsEnds();
    var x := ExampleTexts();
    digest, m, m' := ExampleDigest(), x.m, x.m';
    ExampleSessionsAreSeparated(digest, m, m');
    ExampleSessionsAreSeparated(digest, m, m);
    ExampleSessionsAreSeparated(digest, m', m');
    ExampleLabelValue(digest, m);
    ExampleLabelValue(digest, m');
  }
}
