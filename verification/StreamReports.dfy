/** What lines of output make known of a stream: the figures of its last report, its samples, its
    histograms, and which lines count as parse errors. */
module StreamReports {
  import opened Wrappers
  import opened StreamTable

  // ----- Kinds of lines -----

  predicate IsFigures(line: Line) {
    line.UdpReport? || line.TripTimesReport? || line.TcpReport? || line.HistogramLine?
  }

  /** A report that reaches its stream, if it has one: of the table's protocol, and readable up to
      its distribution. */
  predicate IsReport(proto: Protocol, line: Line) {
    match proto
    case Udp => line.UdpReport? && line.readable
    case Tcp => line.TcpReport? || (line.TripTimesReport? && line.readable)
  }

  /** A report that is readable to its end. */
  predicate IsSample(proto: Protocol, line: Line) {
    IsReport(proto, line) && (proto.Tcp? ==> !line.distribution.Unreadable?)
  }

  predicate IsHistogram(proto: Protocol, line: Line) {
    proto.Tcp? && line.HistogramLine? && line.readable
  }

  /** Lines of figures that cannot be used, and interval lines that are nothing else. */
  predicate IsParseError(t: Table, line: Line) {
    || line.StrayInterval?
    || (IsFigures(line) && !((IsSample(t.proto, line) || IsHistogram(t.proto, line)) && line.peer in t.streams))
  }

  lemma ErrorsCounted(t: Table, now: int, line: Line)
    ensures Step(t, Output(now, line)).parseErrors == t.parseErrors + if IsParseError(t, line) then 1 else 0
  {
  }

  // ----- Reports -----

  /** The first eight read sizes, with zeros behind. */
  predicate IsBins(values: seq<int>, bins: seq<int>) {
    |bins| == 8 && forall i :: 0 <= i < 8 ==> bins[i] == if i < |values| then values[i] else 0
  }

  predicate HasBins(d: Distribution, bins: Option<seq<int>>) {
    bins.Some? && match d
                  case Numbers(values) => IsBins(values, bins.value)
                  case NoDistribution => IsBins([], bins.value)
                  case Unreadable => false
  }

  /** Nothing but the stream of this peer differs between the two tables of streams. */
  predicate OnlyStream(streams: map<string, Stream>, streams': map<string, Stream>, p: string) {
    p in streams' && streams' - {p} == streams - {p}
  }

  /** The figures of a report are those of its stream. */
  predicate ShowsFigures(s: Stream, line: Line)
    requires line.UdpReport? || line.TripTimesReport? || line.TcpReport?
  {
    s.common == Some(line.common) && s.details == line.details
  }

  lemma WriteOnly(streams: map<string, Stream>, p: string, s: Stream)
    ensures OnlyStream(streams, streams[p := s], p)
  {
  }

  /** A report that can be read is shown by its stream, counted as a sample, and the first of its
      stream as a success. */
  lemma SampleIsShown(t: Table, now: int, line: Line)
    requires IsSample(t.proto, line) && line.peer in t.streams
    ensures var u := Step(t, Output(now, line));
      && OnlyStream(t.streams, u.streams, line.peer)
      && ShowsFigures(u.streams[line.peer], line) && u.streams[line.peer].connection == t.streams[line.peer].connection
      && u.streams[line.peer].testDuration == Some(line.common.intervalEnd)
      && u.streams[line.peer].lastSample == Some(now) == u.lastSample && u.streams[line.peer].reported
      && u.samples == t.samples + 1 && u.parseErrors == t.parseErrors && u.histograms == t.histograms
      && u.successes == t.successes + (if t.streams[line.peer].reported then 0 else 1)
      && u.lastSuccess == (if t.streams[line.peer].reported then t.lastSuccess else Some(now))
      && (if t.proto.Tcp? then HasBins(line.distribution, u.streams[line.peer].bins)
          else u.streams[line.peer].bins == t.streams[line.peer].bins)
  {
    var u, p := Step(t, Output(now, line)), line.peer;
    if t.proto.Tcp? { BinsShown(line.distribution, u.streams[p].bins.value); }
    assert u.streams == t.streams[p := u.streams[p]];
    WriteOnly(t.streams, p, u.streams[p]);
  }

  lemma BinsShown(d: Distribution, bins: seq<int>)
    requires d.NoDistribution? ==> bins == ReadBins([])
    requires d.Numbers? ==> bins == ReadBins(d.values)
    ensures !d.Unreadable? ==> HasBins(d, Some(bins))
  {
  }

  /** A report whose distribution cannot be read still shows its figures, and is an error. */
  lemma UnreadableIsShown(t: Table, now: int, line: Line)
    requires IsReport(t.proto, line) && !IsSample(t.proto, line) && line.peer in t.streams
    ensures var u := Step(t, Output(now, line));
      && OnlyStream(t.streams, u.streams, line.peer)
      && ShowsFigures(u.streams[line.peer], line)
      && u.streams[line.peer] == t.streams[line.peer].(
           common := u.streams[line.peer].common, details := u.streams[line.peer].details, ttl := t.metricTtl)
      && u == t.(streams := u.streams, parseErrors := t.parseErrors + 1)
  {
    var u, p := Step(t, Output(now, line)), line.peer;
    WriteOnly(t.streams, p, u.streams[p]);
  }

  /** A connection line starts a stream of which nothing is known yet. */
  lemma ConnectionIsShown(t: Table, now: int, c: Connection)
    ensures var u := Step(t, Output(now, Connected(c)));
      && OnlyStream(t.streams, u.streams, c.peer)
      && u.streams[c.peer] == Stream(c, t.metricTtl, None, map[], None, false, None, None)
      && u.connections == t.connections + 1 && u.lastConnection == Some(now)
      && u == t.(streams := u.streams, connections := u.connections, lastConnection := u.lastConnection)
  {
    WriteOnly(t.streams, c.peer, NewStream(c, t.metricTtl));
  }

  /** A histogram is filed under its peer and name, with the addresses of the stream. */
  lemma HistogramIsFiled(t: Table, now: int, line: Line)
    requires line.HistogramLine?
    ensures var u := Step(t, Output(now, line));
      if IsHistogram(t.proto, line) && line.peer in t.streams then
        u == t.(histograms := t.histograms[line.peer + ":" + line.name :=
                                Histogram(t.streams[line.peer].connection, line.name, line.content)])
      else u == t.(parseErrors := t.parseErrors + 1)
  {
  }

  /** Any other line changes nothing but the count of errors. */
  lemma OtherLines(t: Table, now: int, line: Line)
    requires !line.Connected? && !line.HistogramLine? && (IsReport(t.proto, line) ==> line.peer !in t.streams)
    ensures var u := Step(t, Output(now, line));
      u == t.(parseErrors := u.parseErrors)
  {
  }

  // ----- Over runs -----

  predicate ConcernsPeer(proto: Protocol, e: Event, p: string) {
    e.Output? && (e.line.Connected? || IsReport(proto, e.line)) && PeerOf(e.line) == Some(p)
  }

  function PeerOf(line: Line): Option<string> {
    match line
    case Connected(c) => Some(c.peer)
    case UdpReport(peer, _, _, _) => Some(peer)
    case TripTimesReport(peer, _, _, _, _) => Some(peer)
    case TcpReport(peer, _, _, _) => Some(peer)
    case HistogramLine(peer, _, _, _) => Some(peer)
    case _ => None
  }

  /** The last connection line or report of a peer, and the last connection line or sample. */
  function LastReport(proto: Protocol, es: seq<Event>, p: string): Option<Line> {
    if es == [] then None
    else
      var last := es[|es| - 1];
      if ConcernsPeer(proto, last, p) then Some(last.line) else LastReport(proto, es[..|es| - 1], p)
  }

  function LastSample(proto: Protocol, es: seq<Event>, p: string): Option<Event> {
    if es == [] then None
    else
      var last := es[|es| - 1];
      if ConcernsPeer(proto, last, p) && (last.line.Connected? || IsSample(proto, last.line)) then Some(last)
      else LastSample(proto, es[..|es| - 1], p)
  }

  /** The stream shows the last report of its peer, or nothing if its connection came after. */
  predicate ShowsLast(s: Stream, last: Option<Line>) {
    last.Some? && if last.value.Connected? then s.common == None && s.details == map[] &&
        s.connection == last.value.connection
                  else IsFigures(last.value) && !last.value.HistogramLine? && ShowsFigures(s, last.value)
  }

  /** So with its last sample. */
  predicate ShowsSample(proto: Protocol, s: Stream, last: Option<Event>) {
    && last.Some? && last.value.Output?
    && var line := last.value.line;
       if line.Connected? then !s.reported && s.lastSample == None && s.testDuration == None && s.bins == None
       else
         && IsSample(proto, line)
         && s.reported && s.lastSample == Some(last.value.now) && s.testDuration == Some(line.common.intervalEnd)
         && (proto.Tcp? ==> HasBins(line.distribution, s.bins))
  }

  lemma {:induction false} RunThen(t: Table, es: seq<Event>, e: Event)
    ensures Run(t, es + [e]) == Step(Run(t, es), e)
    decreases |es|
  {
    if es == [] {
      assert es + [e] == [e] && [e][1..] == [];
    } else {
      assert (es + [e])[1..] == es[1..] + [e];
      RunThen(Step(t, es[0]), es[1..], e);
    }
  }

  lemma {:induction false} ProtoStays(t: Table, es: seq<Event>)
    ensures Run(t, es).proto == t.proto
    decreases |es|
  {
    if es != [] {
      ProtoStays(Step(t, es[0]), es[1..]);
    }
  }

  /** An event that does not concern a peer leaves what is known of its stream, if that stays. */
  lemma UnconcernedStep(t: Table, e: Event, p: string)
    requires !ConcernsPeer(t.proto, e, p) && p in Step(t, e).streams
    ensures p in t.streams && Step(t, e).streams[p] == t.streams[p].(ttl := Step(t, e).streams[p].ttl)
  {
    match e
    case Tick =>
    case Output(now, line) => UnconcernedLine(t, now, line, p);
  }

  lemma UnconcernedLine(t: Table, now: int, line: Line, p: string)
    requires !ConcernsPeer(t.proto, Output(now, line), p) && p in Step(t, Output(now, line)).streams
    ensures p in t.streams && Step(t, Output(now, line)).streams[p] == t.streams[p]
  {
    if line.Connected? {
      ConnectionIsShown(t, now, line.connection);
      OtherStream(t.streams, Step(t, Output(now, line)).streams, line.connection.peer, p);
    } else if IsReport(t.proto, line) && line.peer in t.streams {
      if IsSample(t.proto, line) { SampleIsShown(t, now, line); } else { UnreadableIsShown(t, now, line); }
      OtherStream(t.streams, Step(t, Output(now, line)).streams, line.peer, p);
    } else if line.HistogramLine? {
      HistogramIsFiled(t, now, line);
    } else {
      OtherLines(t, now, line);
    }
  }

  lemma OtherStream(streams: map<string, Stream>, streams': map<string, Stream>, q: string, p: string)
    requires OnlyStream(streams, streams', q) && p != q && p in streams'
    ensures p in streams && streams'[p] == streams[p]
  {
    assert p in streams' - {q} && (streams' - {q})[p] == (streams - {q})[p];
  }

  /** A report that concerns a peer without a stream leaves it without one. */
  lemma ConcernedStep(t: Table, e: Event, p: string)
    requires ConcernsPeer(t.proto, e, p) && p in Step(t, e).streams
    requires e.line.Connected? || p in t.streams
    ensures ShowsLast(Step(t, e).streams[p], Some(e.line))
    ensures e.line.Connected? || IsSample(t.proto, e.line) ==> ShowsSample(t.proto, Step(t, e).streams[p], Some(e))
    ensures !(e.line.Connected? || IsSample(t.proto, e.line)) ==>
            var s, s' := t.streams[p], Step(t, e).streams[p];
            s' == s.(common := s'.common, details := s'.details, ttl := s'.ttl)
  {
    if e.line.Connected? {
      ConnectionIsShown(t, e.now, e.line.connection);
    } else if IsSample(t.proto, e.line) {
      SampleIsShown(t, e.now, e.line);
    } else {
      UnreadableIsShown(t, e.now, e.line);
    }
  }

  lemma StaysWithout(t: Table, e: Event, p: string)
    requires ConcernsPeer(t.proto, e, p) && !e.line.Connected? && p !in t.streams
    ensures p !in Step(t, e).streams
  {
    OtherLines(t, e.now, e.line);
  }

  /** In every run from an empty table, a stream shows the last report of its peer since its
      connection, and its last sample is the last one that could be read. */
  lemma {:induction false} LastReportIsShown(proto: Protocol, metricTtl: nat, es: seq<Event>, p: string)
    requires p in Run(EmptyTable(proto, metricTtl), es).streams
    ensures var s := Run(EmptyTable(proto, metricTtl), es).streams[p];
      ShowsLast(s, LastReport(proto, es, p)) && ShowsSample(proto, s, LastSample(proto, es, p))
  {
    if es != [] {
      var front, e := es[..|es| - 1], es[|es| - 1];
      var t := Run(EmptyTable(proto, metricTtl), front);
      assert es == front + [e];
      RunThen(EmptyTable(proto, metricTtl), front, e);
      ProtoStays(EmptyTable(proto, metricTtl), front);
      if p in t.streams { LastReportIsShown(proto, metricTtl, front, p); }
      LastStep(t, e, p, LastReport(proto, front, p), LastSample(proto, front, p));
    }
  }

  lemma LastStep(t: Table, e: Event, p: string, last: Option<Line>, sample: Option<Event>)
    requires p in Step(t, e).streams
    requires p in t.streams ==> ShowsLast(t.streams[p], last) && ShowsSample(t.proto, t.streams[p], sample)
    ensures var s := Step(t, e).streams[p];
      && ShowsLast(s, if ConcernsPeer(t.proto, e, p) then Some(e.line) else last)
      && ShowsSample(t.proto, s,
                     if ConcernsPeer(t.proto, e, p) && (e.line.Connected? || IsSample(t.proto, e.line)) then Some(e)
                     else sample)
  {
    if !ConcernsPeer(t.proto, e, p) {
      UnconcernedStep(t, e, p);
    } else {
      if !e.line.Connected? && p !in t.streams { StaysWithout(t, e, p); }
      ConcernedStep(t, e, p);
    }
  }
}
