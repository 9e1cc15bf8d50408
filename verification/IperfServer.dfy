/** The iperf server's stream table as the program keeps it: stream objects updated in place. */
module IperfServer {
  import opened Wrappers
  import opened StreamTable

  /** One stream; reports write into it, cleanup ticks count it down. */
  class PeerOutput {
    const connection: Connection
    const metricTtl: nat
    var currentMetricTtl: nat
    var common: Option<Common>
    var details: map<string, string>
    var readBins: Option<seq<int>>
    var successfulReportSeen: bool
    var lastSample: Option<int>
    var testDuration: Option<string>

    constructor (connection: Connection, metricTtl: nat)
      ensures View() == NewStream(connection, metricTtl) && this.metricTtl == metricTtl
    {
      this.connection, this.metricTtl, this.currentMetricTtl := connection, metricTtl, metricTtl;
      common, details, readBins, successfulReportSeen, lastSample, testDuration := None, map[], None, false, None, None;
    }

    ghost function View(): Stream
      reads this
    {
      Stream(connection, currentMetricTtl, common, details, readBins, successfulReportSeen, lastSample, testDuration)
    }

    method UpdateCommon(common: Common)
      modifies this
      ensures View() == old(View()).(common := Some(common), ttl := metricTtl)
    {
      this.common := Some(common);
      ResetCurrentMetricTtl();
    }

    method ResetCurrentMetricTtl()
      modifies `currentMetricTtl
      ensures currentMetricTtl == metricTtl
    {
      currentMetricTtl := metricTtl;
    }

    method DecreaseCurrentMetricTtl()
      modifies `currentMetricTtl
      ensures View() == Decreased(old(View()))
    {
      if currentMetricTtl > 0 {
        currentMetricTtl := currentMetricTtl - 1;
      }
    }

    /** Write a TCP report; whatever its distribution, everything else is written first. */
    method UpdateTcp(common: Common, details: map<string, string>, distribution: Distribution) returns (ok: bool)
      modifies this
      ensures ok <==> !distribution.Unreadable?
      ensures View() == TcpUpdated(old(View()), metricTtl, common, details, distribution)
    {
      UpdateCommon(common);
      this.details := details;
      match distribution {
        case Unreadable => return false;
        case NoDistribution => readBins := Some(ReadBins([]));
        case Numbers(values) => readBins := Some(ReadBins(values));
      }
      return true;
    }

    /** Note a successful report, and tell whether it was the first. */
    method RecordSample(now: int, end: string) returns (first: bool)
      modifies this
      ensures View() == SampledStream(old(View()), now, end) && first == !old(View()).reported
    {
      lastSample := Some(now);
      testDuration := Some(end);
      first := !successfulReportSeen;
      successfulReportSeen := true;
    }

    method UpdateUdp(common: Common, details: map<string, string>)
      modifies this
      ensures View() == UpdatedStream(old(View()), metricTtl, common, details, old(View()).bins)
    {
      UpdateCommon(common);
      this.details := details;
    }
  }

  class IPerfServer {
    const proto: Protocol
    const metricTtl: nat
    var output: map<string, PeerOutput>
    var tcpHistograms: map<string, Histogram>
    var connectionsTotal: nat
    var samplesTotal: nat
    var parseErrorsTotal: nat
    var evictedByTtl: nat
    var successes: nat
    var timeouts: nat
    var lastConnection: Option<int>
    var lastSample: Option<int>
    var lastSuccess: Option<int>

    /** What the stream objects say, by peer. */
    ghost var streams: map<string, Stream>

    /** Every stream has an object of its own, which says what is known of it. */
    ghost predicate Valid()
      reads `output, `streams, output.Values
    {
      && output.Keys == streams.Keys
      && (forall p :: p in output ==> output[p].View() == streams[p] && output[p].metricTtl == metricTtl)
      && (forall p, q :: p in output && q in output && p != q ==> output[p] != output[q])
    }

    ghost function View(): Table
      reads this
    {
      Table(proto, metricTtl, streams, tcpHistograms, connectionsTotal, samplesTotal, parseErrorsTotal,
            evictedByTtl, successes, timeouts, lastConnection, lastSample, lastSuccess)
    }

    constructor (proto: Protocol, metricTtl: nat)
      ensures Valid() && fresh(output.Values) && View() == EmptyTable(proto, metricTtl)
    {
      this.proto, this.metricTtl := proto, metricTtl;
      output, tcpHistograms, streams := map[], map[], map[];
      connectionsTotal, samplesTotal, parseErrorsTotal, evictedByTtl, successes, timeouts := 0, 0, 0, 0, 0, 0;
      lastConnection, lastSample, lastSuccess := None, None, None;
    }

    method RecordParseError()
      modifies `parseErrorsTotal
      ensures View() == ParseError(old(View()))
    {
      parseErrorsTotal := parseErrorsTotal + 1;
    }

    method SampleStream(peer: string, now: int, end: string) returns (first: bool)
      requires Valid() && peer in output
      modifies this`streams, output[peer]
      ensures Valid() && peer in old(streams) && first == !old(streams)[peer].reported
      ensures View() == Written(old(View()), peer, SampledStream(old(streams)[peer], now, end))
    {
      first := output[peer].RecordSample(now, end);
      streams := streams[peer := output[peer].View()];
    }

    method CountSample(now: int, first: bool)
      modifies this`samplesTotal, this`successes, this`lastSample, this`lastSuccess
      ensures View() == Counted(old(View()), now, first)
    {
      samplesTotal := samplesTotal + 1;
      lastSample := Some(now);
      if first {
        successes := successes + 1;
        lastSuccess := Some(now);
      }
    }

    method RecordSuccessfulSample(peer: string, now: int, end: string)
      requires Valid() && peer in output
      modifies this`streams, this`samplesTotal, this`successes, this`lastSample, this`lastSuccess, output[peer]
      ensures Valid() && peer in old(streams) && View() == Recorded(old(View()), now, peer, end)
    {
      var first := SampleStream(peer, now, end);
      CountSample(now, first);
    }

    method UpdateTcpStream(peer: string, common: Common, details: map<string, string>, distribution: Distribution)
      returns (ok: bool)
      requires Valid() && peer in output
      modifies this`streams, output[peer]
      ensures ok <==> !distribution.Unreadable?
      ensures Valid() && peer in old(streams)
      ensures View() == Written(old(View()), peer,
                                TcpUpdated(old(streams)[peer], metricTtl, common, details, distribution))
    {
      ok := output[peer].UpdateTcp(common, details, distribution);
      streams := streams[peer := output[peer].View()];
    }

    method ParseTcpReport(now: int, peer: string, common: Common, details: map<string, string>,
                          distribution: Distribution)
      requires Valid()
      modifies this, output.Values
      ensures Valid() && output == old(output)
      ensures View() == TcpReported(old(View()), now, peer, common, details, distribution)
    {
      if peer !in output {
        RecordParseError();
      } else {
        var ok := UpdateTcpStream(peer, common, details, distribution);
        if ok {
          RecordSuccessfulSample(peer, now, common.intervalEnd);
        } else {
          RecordParseError();
        }
      }
    }

    method UpdateUdpStream(peer: string, common: Common, details: map<string, string>)
      requires Valid() && peer in output
      modifies this`streams, output[peer]
      ensures Valid() && peer in old(streams)
      ensures var s := old(streams)[peer];
        View() == Written(old(View()), peer, UpdatedStream(s, metricTtl, common, details, s.bins))
    {
      output[peer].UpdateUdp(common, details);
      streams := streams[peer := output[peer].View()];
    }

    method ParseUdpReport(now: int, peer: string, common: Common, details: map<string, string>)
      requires Valid()
      modifies this, output.Values
      ensures Valid() && output == old(output)
      ensures View() == UdpReported(old(View()), now, peer, common, details)
    {
      if peer !in output {
        RecordParseError();
      } else {
        UpdateUdpStream(peer, common, details);
        RecordSuccessfulSample(peer, now, common.intervalEnd);
      }
    }

    method ParseHistogram(peer: string, name: string, content: string, readable: bool)
      requires Valid()
      modifies this`tcpHistograms, this`parseErrorsTotal
      ensures Valid() && View() == HistogramReported(old(View()), peer, name, content, readable)
    {
      if peer !in output || !readable {
        RecordParseError();
        return;
      }
      tcpHistograms := tcpHistograms[HistogramKey(peer, name) := Histogram(output[peer].connection, name, content)];
    }

    method OpenConnection(now: int, connection: Connection)
      requires Valid()
      modifies this`output, this`streams, this`connectionsTotal, this`lastConnection
      ensures Valid() && fresh(output.Values - old(output.Values))
      ensures View() == Opened(old(View()), now, connection)
    {
      connectionsTotal := connectionsTotal + 1;
      lastConnection := Some(now);
      var stream := new PeerOutput(connection, metricTtl);
      output := output[connection.peer := stream];
      streams := streams[connection.peer := stream.View()];
    }

    method ParseOutput(now: int, line: Line)
      requires Valid()
      modifies this, output.Values
      ensures Valid() && fresh(output.Values - old(output.Values))
      ensures View() == Parsed(old(View()), now, line)
    {
      match line {
        case UdpReport(peer, common, details, readable) =>
          if proto.Tcp? || !readable { RecordParseError(); } else { ParseUdpReport(now, peer, common, details); }
        case TripTimesReport(peer, common, details, readable, d) =>
          if proto.Udp? || !readable { RecordParseError(); } else { ParseTcpReport(now, peer, common, details, d); }
        case TcpReport(peer, common, details, d) =>
          if proto.Udp? { RecordParseError(); } else { ParseTcpReport(now, peer, common, details, d); }
        case HistogramLine(peer, name, content, readable) =>
          if proto.Udp? { RecordParseError(); } else { ParseHistogram(peer, name, content, readable); }
        case Connected(connection) => OpenConnection(now, connection);
        case StrayInterval => RecordParseError();
        case Ignored =>
      }
    }

    // ----- Cleanup -----

    method CountOneDown(peer: string)
      requires Valid() && peer in output
      modifies this`streams, output[peer]
      ensures Valid() && peer in old(streams) && streams == old(streams)[peer := Decreased(old(streams)[peer])]
    {
      output[peer].DecreaseCurrentMetricTtl();
      streams := streams[peer := output[peer].View()];
    }

    /** Count every stream down. */
    method CountDown()
      requires Valid()
      modifies this`streams, output.Values
      ensures Valid() && View() == old(View()).(streams := CountedDown(old(streams), {}))
    {
      ghost var before := streams;
      var pending := output.Keys;
      assert streams == CountedDown(before, pending);
      while pending != {}
        invariant pending <= output.Keys && Valid()
        invariant streams == CountedDown(before, pending)
      {
        var p :| p in pending;
        CountedOneDown(before, pending, p);
        CountOneDown(p);
        pending := pending - {p};
      }
    }

    /** How many of the given streams never reported. */
    method CountUnreported(peers: set<string>) returns (n: nat)
      requires Valid() && peers <= output.Keys
      ensures n == |peers * Unreported(streams)|
    {
      n := 0;
      var pending := peers;
      assert (peers - pending) * Unreported(streams) == {};
      while pending != {}
        invariant pending <= peers
        invariant n == |(peers - pending) * Unreported(streams)|
      {
        var p :| p in pending;
        var unreported := !output[p].successfulReportSeen;
        CountOne(peers, pending, p, Unreported(streams));
        pending := pending - {p};
        if unreported {
          n := n + 1;
        }
      }
      assert peers - {} == peers;
    }

    method AddEvictions(gone: nat, unreported: nat)
      modifies this`evictedByTtl, this`timeouts
      ensures View() == old(View()).(evicted := old(evictedByTtl) + gone, timeouts := old(timeouts) + unreported)
    {
      evictedByTtl := evictedByTtl + gone;
      timeouts := timeouts + unreported;
    }

    method CountEvictions(removed: set<string>)
      requires Valid() && removed <= output.Keys
      modifies this`evictedByTtl, this`timeouts
      ensures Valid() && View() == Evicted(old(View()), removed)
    {
      if removed != {} {
        var unreported := CountUnreported(removed);
        AddEvictions(|removed|, unreported);
      } else {
        NoEvictions(View());
      }
    }

    /** The streams that still have time to live, and the peers of the others. */
    method AliveStreams() returns (alive: map<string, PeerOutput>, removed: set<string>)
      requires Valid()
      ensures alive.Keys == Kept(streams).Keys && forall p :: p in alive ==> p in output && alive[p] == output[p]
      ensures alive.Values <= output.Values
      ensures removed == Gone(streams) && removed <= output.Keys
    {
      alive := map p | p in output && output[p].currentMetricTtl != 0 :: output[p];
      removed := output.Keys - alive.Keys;
      forall p | p in output ensures output[p].View().ttl == streams[p].ttl {}
    }

    method Keep(alive: map<string, PeerOutput>)
      requires Valid() && alive.Values <= output.Values
      requires alive.Keys == Kept(streams).Keys && forall p :: p in alive ==> p in output && alive[p] == output[p]
      modifies this`output, this`streams
      ensures Valid() && output.Values <= old(output.Values)
      ensures View() == old(View()).(streams := Kept(old(streams)))
    {
      output := alive;
      streams := Kept(streams);
    }

    method PruneHistograms()
      requires Valid()
      modifies this`tcpHistograms
      ensures View() == Pruned(old(View()))
    {
      if tcpHistograms != map[] {
        tcpHistograms := map k | k in tcpHistograms && tcpHistograms[k].connection.peer in output :: tcpHistograms[k];
      }
    }

    method RemoveExpired()
      requires Valid()
      modifies this`output, this`streams, this`evictedByTtl, this`timeouts
      ensures Valid() && output.Values <= old(output.Values)
      ensures View() == Retained(Evicted(old(View()), Gone(old(View()).streams)))
    {
      var alive, removed := AliveStreams();
      CountEvictions(removed);
      Keep(alive);
    }

    /** One tick of the cleanup loop, under the lock. */
    method RemoveDeadClients()
      requires Valid()
      modifies this, output.Values
      ensures Valid() && output.Values <= old(output.Values)
      ensures View() == Ticked(old(View()))
    {
      CountDown();
      RemoveExpired();
      PruneHistograms();
      TickInParts(old(View()));
    }
  }

  /** A sample counted, as a success if it is the first of its stream. */
  ghost function Counted(t: Table, now: int, first: bool): Table {
    t.(samples := t.samples + 1, lastSample := Some(now),
       successes := t.successes + (if first then 1 else 0), lastSuccess := if first then Some(now) else t.lastSuccess)
  }

  ghost function Evicted(t: Table, gone: set<string>): Table {
    t.(evicted := t.evicted + |gone|, timeouts := t.timeouts + |gone * Unreported(t.streams)|)
  }

  lemma NoEvictions(t: Table)
    ensures Evicted(t, {}) == t
  {
  }

  ghost function Retained(t: Table): Table {
    t.(streams := Kept(t.streams))
  }

  ghost function Pruned(t: Table): Table {
    t.(histograms := map k | k in t.histograms && t.histograms[k].connection.peer in t.streams :: t.histograms[k])
  }

  /** All but the pending streams have been counted down. */
  ghost function CountedDown(streams: map<string, Stream>, pending: set<string>): map<string, Stream> {
    map p | p in streams :: if p in pending then streams[p] else Decreased(streams[p])
  }

  ghost function Kept(streams: map<string, Stream>): map<string, Stream> {
    map p | p in streams && streams[p].ttl > 0 :: streams[p]
  }

  ghost function Gone(streams: map<string, Stream>): set<string> {
    streams.Keys - Kept(streams).Keys
  }

  lemma CountedOneDown(streams: map<string, Stream>, pending: set<string>, p: string)
    requires p in pending && p in streams
    ensures var was := CountedDown(streams, pending);
            CountedDown(streams, pending - {p}) == was[p := Decreased(was[p])]
  {
  }

  lemma KeptOfCountedDown(streams: map<string, Stream>)
    ensures Kept(CountedDown(streams, {})) == Alive(streams)
  {
  }

  lemma GoneOfCountedDown(streams: map<string, Stream>)
    ensures Gone(CountedDown(streams, {})) == Expired(streams)
  {
  }

  lemma UnreportedOfCountedDown(streams: map<string, Stream>)
    ensures Unreported(CountedDown(streams, {})) == Unreported(streams)
  {
  }

  /** Counting down, counting what ran out and keeping the rest is what a tick does. */
  lemma TickInParts(t: Table)
    ensures var down := CountedDown(t.streams, {});
            Ticked(t) == Pruned(Retained(Evicted(t.(streams := down), Gone(down))))
  {
    KeptOfCountedDown(t.streams);
    GoneOfCountedDown(t.streams);
    UnreportedOfCountedDown(t.streams);
  }

  lemma CountOne(peers: set<string>, pending: set<string>, p: string, unreported: set<string>)
    requires p in pending && pending <= peers
    ensures |(peers - (pending - {p})) * unreported| ==
            |(peers - pending) * unreported| + (if p in unreported then 1 else 0)
  {
    var done := (peers - pending) * unreported;
    assert (peers - (pending - {p})) * unreported == if p in unreported then done + {p} else done;
  }
}
