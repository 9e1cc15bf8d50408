/** The scanner of the socket table: rows, each perhaps followed by a line of details. */
module SocketStats {
  import opened Wrappers
  import opened SocketDetails

  datatype Protocol = Udp | Tcp

  datatype Row = Row(
    state: string, recvQueue: nat, sendQueue: nat,
    localAddress: string, localPort: string, peerAddress: string, peerPort: string)

  /** A line is empty, a socket row, or anything else, as a list of words. */
  datatype Line = Blank | Socket(row: Row) | Text(tokens: seq<Token>)

  datatype Key = Key(localAddress: string, localPort: string, peerAddress: string, peerPort: string)

  datatype Snapshot = UdpSnapshot(row: Row) | TcpSnapshot(row: Row, detail: Detail)

  type Snapshots = map<Key, Snapshot>

  function KeyOf(r: Row): Key {
    Key(r.localAddress, r.localPort, r.peerAddress, r.peerPort)
  }

  /** What a row and the line below it, if it has one, say of a socket. */
  function SnapshotOf(proto: Protocol, row: Row, below: Option<Line>): Result<Snapshot, DetailError> {
    match proto
    case Udp => Success(UdpSnapshot(row))
    case Tcp =>
      var detail :- DetailOf(if below.Some? && below.value.Text? then below.value.tokens else []);
      Success(TcpSnapshot(row, detail))
  }

  function Below(lines: seq<Line>, i: nat): Option<Line> {
    if i + 1 < |lines| then Some(lines[i + 1]) else None
  }

  function Filed(snapshots: Snapshots, proto: Protocol, row: Row, below: Option<Line>): Result<Snapshots, DetailError> {
    var snapshot :- SnapshotOf(proto, row, below);
    Success(snapshots[KeyOf(row) := snapshot])
  }

  /** Every row of the port among the first n lines filed on its own, without skipping a line. */
  function Scanned(proto: Protocol, port: string, lines: seq<Line>, n: nat): Result<Snapshots, DetailError>
    requires n <= |lines|
  {
    if n == 0 then Success(map[])
    else
      var snapshots :- Scanned(proto, port, lines, n - 1);
      match lines[n - 1]
      case Socket(row) =>
        if row.localPort == port then Filed(snapshots, proto, row, Below(lines, n - 1)) else Success(snapshots)
      case _ => Success(snapshots)
  }

  function Scan(proto: Protocol, port: string, lines: seq<Line>): Result<Snapshots, DetailError> {
    Scanned(proto, port, lines, |lines|)
  }

  lemma {:induction false} FailureStays(proto: Protocol, port: string, lines: seq<Line>, n: nat, m: nat)
    requires n <= m <= |lines| && Scanned(proto, port, lines, n).Failure?
    ensures Scanned(proto, port, lines, m) == Scanned(proto, port, lines, n)
  {
    if n < m {
      FailureStays(proto, port, lines, n, m - 1);
    }
  }

  class SocketStatsCollector {
    const port: string
    const proto: Protocol

    constructor (port: string, proto: Protocol)
      ensures this.port == port && this.proto == proto
    {
      this.port, this.proto := port, proto;
    }

    /** Scan the table, taking the line below a row with the row where it belongs to it. */
    method ParseOutput(lines: seq<Line>) returns (r: Result<Snapshots, DetailError>)
      ensures r == Scan(proto, port, lines)
    {
      var snapshots: Snapshots := map[];
      var index := 0;
      while index < |lines|
        invariant 0 <= index <= |lines|
        invariant Scanned(proto, port, lines, index) == Success(snapshots)
      {
        if !lines[index].Socket? {
          index := index + 1;
          continue;
        }
        var row := lines[index].row;
        var at := index;
        var detailLine := [];
        if proto.Tcp? && index + 1 < |lines| && lines[index + 1].Text? {
          detailLine := lines[index + 1].tokens;
          index := index + 1;
        }
        index := index + 1;
        if row.localPort != port { continue; }
        match proto {
          case Tcp =>
            var detail := ParseTcpDetailLine(detailLine);
            if detail.Failure? {
              FailureStays(proto, port, lines, at + 1, |lines|);
              return Failure(detail.error);
            }
            snapshots := snapshots[KeyOf(row) := TcpSnapshot(row, detail.value)];
          case Udp =>
            snapshots := snapshots[KeyOf(row) := UdpSnapshot(row)];
        }
      }
      return Success(snapshots);
    }
  }

  // ----- Which row says what -----

  predicate IsRowOf(port: string, key: Key, l: Line) {
    l.Socket? && l.row.localPort == port && KeyOf(l.row) == key
  }

  /** The snapshot comes from the last row of its key, and from the line right below that row. */
  ghost predicate IsFromRow(proto: Protocol, port: string, lines: seq<Line>, n: nat, key: Key, snapshot: Snapshot)
    requires n <= |lines|
  {
    exists i :: 0 <= i < n && IsRowOf(port, key, lines[i]) &&
                SnapshotOf(proto, lines[i].row, Below(lines, i)) == Success(snapshot) &&
                forall j :: i < j < n ==> !IsRowOf(port, key, lines[j])
  }

  /** A table has an entry for exactly the sockets of the port, each from the last row of the
      socket and the line right below. */
  ghost predicate IsTable(proto: Protocol, port: string, lines: seq<Line>, n: nat, snapshots: Snapshots)
    requires n <= |lines|
  {
    && (forall key :: key in snapshots ==> IsFromRow(proto, port, lines, n, key, snapshots[key]))
    && (forall i :: 0 <= i < n && lines[i].Socket? && lines[i].row.localPort == port ==>
        KeyOf(lines[i].row) in snapshots)
  }

  lemma {:induction false} ScannedRows(proto: Protocol, port: string, lines: seq<Line>, n: nat)
    requires n <= |lines|
    ensures var r := Scanned(proto, port, lines, n);
      r.Success? ==> IsTable(proto, port, lines, n, r.value)
  {
    if n > 0 {
      ScannedRows(proto, port, lines, n - 1);
      var was, r := Scanned(proto, port, lines, n - 1), Scanned(proto, port, lines, n);
      if r.Success? {
        forall key | key in r.value ensures IsFromRow(proto, port, lines, n, key, r.value[key]) {
          FromRowThen(proto, port, lines, n, key, was.value, r.value[key]);
        }
      }
    }
  }

  lemma FromRowThen(proto: Protocol, port: string, lines: seq<Line>, n: nat, key: Key, was: Snapshots,
                    snapshot: Snapshot)
    requires 0 < n <= |lines|
    requires if IsRowOf(port, key, lines[n - 1])
             then SnapshotOf(proto, lines[n - 1].row, Below(lines, n - 1)) == Success(snapshot)
             else IsFromRow(proto, port, lines, n - 1, key, snapshot)
    ensures IsFromRow(proto, port, lines, n, key, snapshot)
  {
  }

  /** A scan fails exactly if the details of some row of the port cannot be read. */
  lemma {:induction false} ScanFails(proto: Protocol, port: string, lines: seq<Line>, n: nat)
    requires n <= |lines|
    ensures Scanned(proto, port, lines, n).Failure? <==>
            exists i :: 0 <= i < n && lines[i].Socket? && lines[i].row.localPort == port &&
                        SnapshotOf(proto, lines[i].row, Below(lines, i)).Failure?
  {
    if n > 0 {
      ScanFails(proto, port, lines, n - 1);
    }
  }

  // ----- Composition -----

  /** The line after the cut is not a detail of the row before it. */
  predicate IsCut(proto: Protocol, above: seq<Line>, below: seq<Line>) {
    proto.Tcp? && above != [] && above[|above| - 1].Socket? ==> below == [] || !below[0].Text?
  }

  function Overridden(a: Result<Snapshots, DetailError>, b: Result<Snapshots, DetailError>):
    Result<Snapshots, DetailError>
  {
    var first :- a;
    var second :- b;
    Success(first + second)
  }

  lemma {:induction false} ScannedAbove(proto: Protocol, port: string, above: seq<Line>, below: seq<Line>, n: nat)
    requires n <= |above| && IsCut(proto, above, below)
    ensures Scanned(proto, port, above + below, n) == Scanned(proto, port, above, n)
  {
    if n > 0 {
      ScannedAbove(proto, port, above, below, n - 1);
    }
  }

  lemma FiledBelow(a: Snapshots, b: Snapshots, proto: Protocol, row: Row, below: Option<Line>)
    ensures Filed(a + b, proto, row, below) == Overridden(Success(a), Filed(b, proto, row, below))
  {
    var snapshot := SnapshotOf(proto, row, below);
    if snapshot.Success? {
      assert (a + b)[KeyOf(row) := snapshot.value] == a + b[KeyOf(row) := snapshot.value];
    }
  }

  lemma {:induction false} ScannedBelow(proto: Protocol, port: string, above: seq<Line>, below: seq<Line>, n: nat)
    requires n <= |below| && IsCut(proto, above, below)
    ensures Scanned(proto, port, above + below, |above| + n) ==
            Overridden(Scan(proto, port, above), Scanned(proto, port, below, n))
  {
    if n == 0 {
      ScannedAbove(proto, port, above, below, |above|);
      var r := Scan(proto, port, above);
      if r.Success? { assert r.value + map[] == r.value; }
    } else {
      ScannedBelow(proto, port, above, below, n - 1);
      assert (above + below)[|above| + n - 1] == below[n - 1];
      assert Below(above + below, |above| + n - 1) == Below(below, n - 1);
      var a, b := Scan(proto, port, above), Scanned(proto, port, below, n - 1);
      if a.Success? && b.Success? && below[n - 1].Socket? {
        FiledBelow(a.value, b.value, proto, below[n - 1].row, Below(below, n - 1));
      }
    }
  }

  /** Scanning is compositional wherever a cut does not part a row from its details: the scan of
      the whole is that of the part above, overridden by that of the part below. */
  lemma ScanComposes(proto: Protocol, port: string, above: seq<Line>, below: seq<Line>)
    requires IsCut(proto, above, below)
    ensures Scan(proto, port, above + below) == Overridden(Scan(proto, port, above), Scan(proto, port, below))
  {
    ScannedBelow(proto, port, above, below, |below|);
  }

  /** At any other place the line after the cut goes to the row before it, and to no other. */
  lemma DetailGoesToRowAbove(proto: Protocol, port: string, above: seq<Line>, row: Row, tokens: seq<Token>,
                             below: seq<Line>)
    ensures Scan(proto, port, above + [Socket(row), Text(tokens)] + below) ==
            Overridden(Overridden(Scan(proto, port, above), Scan(proto, port, [Socket(row), Text(tokens)])),
                       Scan(proto, port, below))
  {
    var pair := [Socket(row), Text(tokens)];
    ScanComposes(proto, port, above, pair);
    ScanComposes(proto, port, above + pair, below);
  }
}
