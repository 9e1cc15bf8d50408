/** The stream table of the iperf server as a value: what each line of output and each cleanup
    tick makes of it, and the laws that hold over every run. */
module StreamTable {
  import opened Wrappers

  datatype Connection = Connection(
    peer: string, localAddress: string, interfaceName: string, localPort: string,
    peerAddress: string, peerPort: string, metadata: map<string, string>)

  datatype Common = Common(intervalStart: string, intervalEnd: string, transfer: string, bandwidth: string)

  /** The read sizes of a TCP report: absent, a list of numbers, or not a list of numbers. */
  datatype Distribution = NoDistribution | Numbers(values: seq<int>) | Unreadable

  /** A line of output by the pattern it matches. A report that cannot be taken apart further is
      marked as such. */
  datatype Line =
    | UdpReport(peer: string, common: Common, details: map<string, string>, readable: bool)
    | TripTimesReport(peer: string, common: Common, details: map<string, string>, readable: bool,
                      distribution: Distribution)
    | TcpReport(peer: string, common: Common, details: map<string, string>, distribution: Distribution)
    | HistogramLine(peer: string, name: string, content: string, readable: bool)
    | Connected(connection: Connection)
    | StrayInterval
    | Ignored

  datatype Stream = Stream(
    connection: Connection, ttl: nat, common: Option<Common>, details: map<string, string>,
    bins: Option<seq<int>>, reported: bool, lastSample: Option<int>, testDuration: Option<string>)

  datatype Histogram = Histogram(connection: Connection, name: string, content: string)

  datatype Protocol = Udp | Tcp

  datatype Table = Table(
    proto: Protocol, metricTtl: nat,
    streams: map<string, Stream>, histograms: map<string, Histogram>,
    connections: nat, samples: nat, parseErrors: nat, evicted: nat, successes: nat, timeouts: nat,
    lastConnection: Option<int>, lastSample: Option<int>, lastSuccess: Option<int>)

  datatype Event = Output(now: int, line: Line) | Tick

  function EmptyTable(proto: Protocol, metricTtl: nat): Table {
    Table(proto, metricTtl, map[], map[], 0, 0, 0, 0, 0, 0, None, None, None)
  }

  // ----- One stream -----

  function NewStream(c: Connection, metricTtl: nat): Stream {
    Stream(c, metricTtl, None, map[], None, false, None, None)
  }

  /** Eight bins, cut or padded with zeros. */
  function ReadBins(values: seq<int>): seq<int> {
    if |values| >= 8 then values[..8] else values + seq(8 - |values|, _ => 0)
  }

  function UpdatedStream(s: Stream, metricTtl: nat, common: Common, details: map<string, string>,
                         bins: Option<seq<int>>): Stream {
    s.(common := Some(common), ttl := metricTtl, details := details, bins := bins)
  }

  function SampledStream(s: Stream, now: int, end: string): Stream {
    s.(lastSample := Some(now), testDuration := Some(end), reported := true)
  }

  function Decreased(s: Stream): Stream {
    if s.ttl > 0 then s.(ttl := s.ttl - 1) else s
  }

  // ----- Steps -----

  function ParseError(t: Table): Table {
    t.(parseErrors := t.parseErrors + 1)
  }

  function Written(t: Table, peer: string, s: Stream): Table {
    t.(streams := t.streams[peer := s])
  }

  /** A sample of an updated stream is counted, the first one of a stream as a success. */
  function Recorded(t: Table, now: int, peer: string, end: string): Table
    requires peer in t.streams
  {
    var first := !t.streams[peer].reported;
    t.(streams := t.streams[peer := SampledStream(t.streams[peer], now, end)],
       samples := t.samples + 1, lastSample := Some(now),
       successes := t.successes + (if first then 1 else 0), lastSuccess := if first then Some(now) else t.lastSuccess)
  }

  function Sampled(t: Table, now: int, peer: string, updated: Stream, end: string): Table {
    Recorded(Written(t, peer, updated), now, peer, end)
  }

  /** What a TCP report writes; the bins only if the distribution can be read. */
  function TcpUpdated(s: Stream, metricTtl: nat, common: Common, details: map<string, string>,
                      d: Distribution): Stream {
    UpdatedStream(s, metricTtl, common, details,
                  match d
                  case NoDistribution => Some(ReadBins([]))
                  case Numbers(values) => Some(ReadBins(values))
                  case Unreadable => s.bins)
  }

  /** A TCP report refreshes its stream even if its distribution then turns out unreadable. */
  function TcpReported(t: Table, now: int, peer: string, common: Common, details: map<string, string>,
                       d: Distribution): Table {
    if peer !in t.streams then ParseError(t)
    else
      var s := TcpUpdated(t.streams[peer], t.metricTtl, common, details, d);
      if d.Unreadable? then ParseError(Written(t, peer, s)) else Sampled(t, now, peer, s, common.intervalEnd)
  }

  function UdpReported(t: Table, now: int, peer: string, common: Common, details: map<string, string>): Table {
    if peer !in t.streams then ParseError(t)
    else
      Sampled(t, now, peer, UpdatedStream(t.streams[peer], t.metricTtl, common, details, t.streams[peer].bins),
              common.intervalEnd)
  }

  function HistogramKey(peer: string, name: string): string {
    peer + ":" + name
  }

  function HistogramReported(t: Table, peer: string, name: string, content: string, readable: bool): Table {
    if peer !in t.streams || !readable then ParseError(t)
    else t.(histograms :=
            t.histograms[HistogramKey(peer, name) := Histogram(t.streams[peer].connection, name, content)])
  }

  function Opened(t: Table, now: int, c: Connection): Table {
    t.(streams := t.streams[c.peer := NewStream(c, t.metricTtl)],
       connections := t.connections + 1, lastConnection := Some(now))
  }

  /** Reports of the other protocol match no pattern of this one but look like interval lines. */
  function Parsed(t: Table, now: int, line: Line): Table {
    match line
    case UdpReport(peer, common, details, readable) =>
      if t.proto.Tcp? || !readable then ParseError(t) else UdpReported(t, now, peer, common, details)
    case TripTimesReport(peer, common, details, readable, d) =>
      if t.proto.Udp? || !readable then ParseError(t) else TcpReported(t, now, peer, common, details, d)
    case TcpReport(peer, common, details, d) =>
      if t.proto.Udp? then ParseError(t) else TcpReported(t, now, peer, common, details, d)
    case HistogramLine(peer, name, content, readable) =>
      if t.proto.Udp? then ParseError(t) else HistogramReported(t, peer, name, content, readable)
    case Connected(c) => Opened(t, now, c)
    case StrayInterval => ParseError(t)
    case Ignored => t
  }

  function Alive(streams: map<string, Stream>): map<string, Stream> {
    map p | p in streams && Decreased(streams[p]).ttl > 0 :: Decreased(streams[p])
  }

  function Expired(streams: map<string, Stream>): set<string> {
    set p | p in streams && Decreased(streams[p]).ttl == 0
  }

  function Unreported(streams: map<string, Stream>): set<string> {
    set p | p in streams && !streams[p].reported
  }

  function Ticked(t: Table): Table {
    var gone := Expired(t.streams);
    t.(streams := Alive(t.streams),
       histograms := map k | k in t.histograms && t.histograms[k].connection.peer in Alive(t.streams) ::
           t.histograms[k],
       evicted := t.evicted + |gone|,
       timeouts := t.timeouts + |gone * Unreported(t.streams)|)
  }

  function Step(t: Table, e: Event): Table {
    match e case Output(now, line) => Parsed(t, now, line) case Tick => Ticked(t)
  }

  function Run(t: Table, es: seq<Event>): Table
    decreases |es|
  {
    if es == [] then t else Run(Step(t, es[0]), es[1..])
  }

  // ----- Conservation of connections -----

  /** A connection line for a peer that is still in the table replaces that stream. */
  predicate Replaces(t: Table, e: Event) {
    e.Output? && e.line.Connected? && e.line.connection.peer in t.streams
  }

  predicate ReplacesUnreported(t: Table, e: Event) {
    Replaces(t, e) && !t.streams[e.line.connection.peer].reported
  }

  function Replacements(t: Table, es: seq<Event>): nat
    decreases |es|
  {
    if es == [] then 0
    else (if Replaces(t, es[0]) then 1 else 0) + Replacements(Step(t, es[0]), es[1..])
  }

  function UnreportedReplacements(t: Table, es: seq<Event>): nat
    decreases |es|
  {
    if es == [] then 0
    else (if ReplacesUnreported(t, es[0]) then 1 else 0) + UnreportedReplacements(Step(t, es[0]), es[1..])
  }

  lemma WriteSize(streams: map<string, Stream>, p: string, s: Stream)
    ensures |streams[p := s]| == |streams| + (if p in streams then 0 else 1)
  {
  }

  lemma WriteUnreported(streams: map<string, Stream>, p: string, s: Stream)
    ensures |Unreported(streams[p := s])| + (if p in streams && !streams[p].reported then 1 else 0) ==
            |Unreported(streams)| + (if s.reported then 0 else 1)
  {
    var others, was, now := Unreported(streams) - {p}, Unreported(streams), Unreported(streams[p := s]);
    assert now == if s.reported then others else others + {p};
    assert was == if p in streams && !streams[p].reported then others + {p} else others;
  }

  lemma TickSize(streams: map<string, Stream>)
    ensures |Alive(streams)| + |Expired(streams)| == |streams|
  {
    assert streams.Keys == Alive(streams).Keys + Expired(streams);
    assert |Alive(streams)| == |Alive(streams).Keys| && |streams| == |streams.Keys|;
  }

  lemma TickUnreported(streams: map<string, Stream>)
    ensures |Unreported(Alive(streams))| + |Expired(streams) * Unreported(streams)| == |Unreported(streams)|
  {
    forall p ensures p in Unreported(Alive(streams)) <==> p in Unreported(streams) - Expired(streams) {}
    assert Unreported(Alive(streams)) == Unreported(streams) - Expired(streams);
    SplitSize(Unreported(streams), Expired(streams));
  }

  lemma SplitSize(s: set<string>, e: set<string>)
    ensures |s| == |s - e| + |e * s|
  {
  }

  /** Connections on one side are matched on the other: by live, evicted and replaced streams, and
      by successes, timeouts, unreported streams and streams replaced before a report. */
  ghost predicate Balanced(t: Table, u: Table, replaced: nat, unreported: nat) {
    && u.connections + |t.streams| + t.evicted == t.connections + |u.streams| + u.evicted + replaced
    && u.connections + t.successes + t.timeouts + |Unreported(t.streams)| ==
       t.connections + u.successes + u.timeouts + |Unreported(u.streams)| + unreported
  }

  lemma SampleBalances(t: Table, now: int, peer: string, updated: Stream, end: string)
    requires peer in t.streams && updated.reported == t.streams[peer].reported
    ensures Balanced(t, Sampled(t, now, peer, updated, end), 0, 0)
  {
    var s := SampledStream(updated, now, end);
    assert t.streams[peer := updated][peer := s] == t.streams[peer := s];
    WriteSize(t.streams, peer, s);
    WriteUnreported(t.streams, peer, s);
  }

  lemma TcpReportBalances(t: Table, now: int, peer: string, common: Common, details: map<string, string>,
                          d: Distribution)
    ensures Balanced(t, TcpReported(t, now, peer, common, details, d), 0, 0)
  {
    if peer in t.streams {
      var s := TcpUpdated(t.streams[peer], t.metricTtl, common, details, d);
      if d.Unreadable? {
        WriteSize(t.streams, peer, s);
        WriteUnreported(t.streams, peer, s);
      } else {
        SampleBalances(t, now, peer, s, common.intervalEnd);
      }
    }
  }

  lemma UdpReportBalances(t: Table, now: int, peer: string, common: Common, details: map<string, string>)
    ensures Balanced(t, UdpReported(t, now, peer, common, details), 0, 0)
  {
    if peer in t.streams {
      SampleBalances(t, now, peer, UpdatedStream(t.streams[peer], t.metricTtl, common, details, t.streams[peer].bins),
                     common.intervalEnd);
    }
  }

  lemma OpeningBalances(t: Table, now: int, c: Connection)
    ensures Balanced(t, Opened(t, now, c), if c.peer in t.streams then 1 else 0,
                     if c.peer in t.streams && !t.streams[c.peer].reported then 1 else 0)
  {
    WriteSize(t.streams, c.peer, NewStream(c, t.metricTtl));
    WriteUnreported(t.streams, c.peer, NewStream(c, t.metricTtl));
  }

  lemma TickBalances(t: Table)
    ensures Balanced(t, Ticked(t), 0, 0)
  {
    TickSize(t.streams);
    TickUnreported(t.streams);
  }

  /** What one event adds to the connections on one side it adds to the other. */
  lemma StepBalances(t: Table, e: Event)
    ensures Balanced(t, Step(t, e), if Replaces(t, e) then 1 else 0, if ReplacesUnreported(t, e) then 1 else 0)
  {
    match e
    case Tick => TickBalances(t);
    case Output(now, line) =>
      match line
      case UdpReport(peer, common, details, _) => UdpReportBalances(t, now, peer, common, details);
      case TripTimesReport(peer, common, details, _, d) => TcpReportBalances(t, now, peer, common, details, d);
      case TcpReport(peer, common, details, d) => TcpReportBalances(t, now, peer, common, details, d);
      case Connected(c) => OpeningBalances(t, now, c);
      case _ =>
  }

  /** Over every run from an empty table, each connection is accounted for twice: it is live,
      evicted or replaced; and it was a success, a timeout, is live without a report or was
      replaced before one. */
  lemma ConnectionsConserved(proto: Protocol, metricTtl: nat, es: seq<Event>)
    ensures var t0 := EmptyTable(proto, metricTtl);
            var t := Run(t0, es);
      && t.connections == |t.streams| + t.evicted + Replacements(t0, es)
      && t.connections == t.successes + t.timeouts + |Unreported(t.streams)| + UnreportedReplacements(t0, es)
  {
    var t0 := EmptyTable(proto, metricTtl);
    assert Unreported(t0.streams) == {};
    RunBalances(t0, es);
  }

  lemma {:induction false} RunBalances(t: Table, es: seq<Event>)
    ensures Balanced(t, Run(t, es), Replacements(t, es), UnreportedReplacements(t, es))
    decreases |es|
  {
    if es != [] {
      StepBalances(t, es[0]);
      RunBalances(Step(t, es[0]), es[1..]);
    }
  }

  // ----- Eviction -----

  /** The event puts a stream's time to live back to its start: a connection line, or a report of
      the right protocol that can be read, whatever its distribution. */
  predicate Refreshes(proto: Protocol, e: Event, p: string) {
    match e
    case Tick => false
    case Output(_, line) =>
      match line
      case UdpReport(peer, _, _, readable) => proto.Udp? && readable && peer == p
      case TripTimesReport(peer, _, _, readable, _) => proto.Tcp? && readable && peer == p
      case TcpReport(peer, _, _, _) => proto.Tcp? && peer == p
      case Connected(c) => c.peer == p
      case _ => false
  }

  function Ticks(es: seq<Event>): nat {
    if es == [] then 0 else (if es[0].Tick? then 1 else 0) + Ticks(es[1..])
  }

  lemma RefreshStarts(t: Table, e: Event, p: string)
    requires Refreshes(t.proto, e, p) && (p in t.streams || e.line.Connected?)
    ensures p in Step(t, e).streams && Step(t, e).streams[p].ttl == t.metricTtl
  {
  }

  /** Whatever is not a refresh leaves a stream's time to live alone, unless it is a tick. */
  lemma UnrefreshedLine(t: Table, now: int, line: Line, p: string)
    requires !Refreshes(t.proto, Output(now, line), p)
    ensures var u := Parsed(t, now, line);
      u.proto == t.proto && (p in u.streams <==> p in t.streams) && (p in t.streams ==> u.streams[p] == t.streams[p])
  {
    match line
    case UdpReport(peer, common, details, readable) =>
    case TripTimesReport(peer, common, details, readable, d) =>
    case TcpReport(peer, common, details, d) =>
    case _ =>
  }

  lemma TickStep(t: Table, p: string)
    ensures var u := Ticked(t);
      && u.proto == t.proto
      && (p in u.streams <==> p in t.streams && t.streams[p].ttl > 1)
      && (p in u.streams ==> u.streams[p].ttl == t.streams[p].ttl - 1)
  {
  }

  lemma UnrefreshedStep(t: Table, e: Event, p: string)
    requires !Refreshes(t.proto, e, p)
    ensures var u := Step(t, e);
      && u.proto == t.proto
      && (p in u.streams <==> p in t.streams && (e.Tick? ==> t.streams[p].ttl > 1))
      && (p in u.streams ==> u.streams[p].ttl == t.streams[p].ttl - if e.Tick? then 1 else 0)
  {
    match e
    case Tick => TickStep(t, p);
    case Output(now, line) => UnrefreshedLine(t, now, line, p);
  }

  lemma {:induction false} AbsentStaysAbsent(t: Table, es: seq<Event>, p: string)
    requires p !in t.streams && forall e :: e in es ==> !Refreshes(t.proto, e, p)
    ensures p !in Run(t, es).streams
    decreases |es|
  {
    if es != [] {
      UnrefreshedStep(t, es[0], p);
      AbsentStaysAbsent(Step(t, es[0]), es[1..], p);
    }
  }

  function Lifetime(ttl: nat): nat {
    if ttl == 0 then 1 else ttl
  }

  lemma {:induction false} UnrefreshedUntil(t: Table, es: seq<Event>, p: string)
    requires p in t.streams && forall e :: e in es ==> !Refreshes(t.proto, e, p)
    ensures p in Run(t, es).streams <==> Ticks(es) < Lifetime(t.streams[p].ttl)
    decreases |es|
  {
    if es != [] {
      var u := Step(t, es[0]);
      UnrefreshedStep(t, es[0], p);
      if p in u.streams {
        UnrefreshedUntil(u, es[1..], p);
      } else {
        AbsentStaysAbsent(u, es[1..], p);
      }
    }
  }

  /** In every interleaving, a stream is gone exactly from the max(1, ttl)-th tick after its last
      refresh on. */
  lemma ExactEviction(t: Table, refresh: Event, es: seq<Event>, p: string)
    requires Refreshes(t.proto, refresh, p) && (p in t.streams || refresh.line.Connected?)
    requires forall e :: e in es ==> !Refreshes(t.proto, e, p)
    ensures p in Run(t, [refresh] + es).streams <==> Ticks(es) < Lifetime(t.metricTtl)
  {
    RefreshStarts(t, refresh, p);
    assert ([refresh] + es)[1..] == es;
    assert Step(t, refresh).proto == t.proto;
    UnrefreshedUntil(Step(t, refresh), es, p);
  }

  // ----- Histograms -----

  /** Every histogram belongs to a stream of the table. */
  ghost predicate HistogramsContained(t: Table) {
    forall k :: k in t.histograms ==> t.histograms[k].connection.peer in t.streams
  }

  /** Streams are filed under their own peer. */
  ghost predicate StreamsFiled(t: Table) {
    forall p :: p in t.streams ==> t.streams[p].connection.peer == p
  }

  lemma WriteContains(t: Table, u: Table, p: string, s: Stream)
    requires HistogramsContained(t) && StreamsFiled(t) && s.connection.peer == p
    requires p in u.streams && u.streams[p] == s && u.histograms == t.histograms
    requires forall q | q != p :: q in u.streams <==> q in t.streams
    requires forall q | q != p :: q in t.streams ==> u.streams[q] == t.streams[q]
    ensures HistogramsContained(u) && StreamsFiled(u)
  {
  }

  lemma TcpReportContains(t: Table, now: int, peer: string, common: Common, details: map<string, string>,
                          d: Distribution)
    requires HistogramsContained(t) && StreamsFiled(t)
    ensures HistogramsContained(TcpReported(t, now, peer, common, details, d)) &&
            StreamsFiled(TcpReported(t, now, peer, common, details, d))
  {
  }

  lemma LineContains(t: Table, now: int, line: Line)
    requires HistogramsContained(t) && StreamsFiled(t)
    ensures HistogramsContained(Parsed(t, now, line)) && StreamsFiled(Parsed(t, now, line))
  {
    match line
    case UdpReport(peer, common, details, readable) =>
      var u := UdpReported(t, now, peer, common, details);
      if peer in t.streams { WriteContains(t, u, peer, u.streams[peer]); }
    case TripTimesReport(peer, common, details, readable, d) => TcpReportContains(t, now, peer, common, details, d);
    case TcpReport(peer, common, details, d) => TcpReportContains(t, now, peer, common, details, d);
    case Connected(c) => WriteContains(t, Opened(t, now, c), c.peer, NewStream(c, t.metricTtl));
    case _ =>
  }

  lemma StepContains(t: Table, e: Event)
    requires HistogramsContained(t) && StreamsFiled(t)
    ensures HistogramsContained(Step(t, e)) && StreamsFiled(Step(t, e))
  {
    match e
    case Tick =>
    case Output(now, line) => LineContains(t, now, line);
  }

  lemma {:induction false} RunContains(t: Table, es: seq<Event>)
    requires HistogramsContained(t) && StreamsFiled(t)
    ensures HistogramsContained(Run(t, es)) && StreamsFiled(Run(t, es))
    decreases |es|
  {
    if es != [] {
      StepContains(t, es[0]);
      RunContains(Step(t, es[0]), es[1..]);
    }
  }
}
