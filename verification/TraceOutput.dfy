/** What the trace command prints, line by line, and the report made of it. */
module TraceOutput {
  import opened Wrappers

  datatype Hop = Hop(index: nat, address: string)

  datatype Report = Report(success: bool, pmtu: Option<nat>, hopsTotal: Option<nat>, hops: seq<Hop>)

  /** The report of a trace that gave none. */
  const NO_REPORT := Report(false, None, Some(0), [])

  /** A line by what it matches. */
  datatype Line =
    | Resume(pmtu: nat, hops: nat)
    | LocalPmtu(pmtu: nat)
    | HopLine(index: nat, address: string, reached: bool)
    | Other

  // ----- What a report says -----

  predicate HasPmtu(l: Line) {
    l.Resume? || l.LocalPmtu?
  }

  predicate IsHop(l: Line, index: nat) {
    l.HopLine? && l.index == index
  }

  /** The value was set by the last line that could set it, if any. */
  ghost predicate IsPmtu(lines: seq<Line>, pmtu: Option<nat>) {
    if pmtu.None? then forall l :: l in lines ==> !HasPmtu(l)
    else
      exists i :: 0 <= i < |lines| && HasPmtu(lines[i]) && lines[i].pmtu == pmtu.value &&
                  forall j :: i < j < |lines| ==> !HasPmtu(lines[j])
  }

  ghost predicate IsResumedTotal(lines: seq<Line>, total: Option<nat>) {
    if total.None? then forall l :: l in lines ==> !l.Resume?
    else
      exists i :: 0 <= i < |lines| && lines[i].Resume? && lines[i].hops == total.value &&
                  forall j :: i < j < |lines| ==> !lines[j].Resume?
  }

  /** The last line of a hop gives its address. */
  ghost predicate IsAddress(lines: seq<Line>, index: nat, address: string) {
    exists i :: 0 <= i < |lines| && IsHop(lines[i], index) && lines[i].address == address &&
                forall j :: i < j < |lines| ==> !IsHop(lines[j], index)
  }

  ghost predicate IsHopTable(lines: seq<Line>, table: map<nat, string>) {
    && (forall index :: index in table ==> IsAddress(lines, index, table[index]))
    && (forall l :: l in lines && l.HopLine? ==> l.index in table)
  }

  ghost predicate IsAscending(hops: seq<Hop>) {
    forall i, j :: 0 <= i < j < |hops| ==> hops[i].index < hops[j].index
  }

  /** The hops in order of their indices, each once, with the address it was last given. */
  ghost predicate AreHops(lines: seq<Line>, hops: seq<Hop>) {
    && IsAscending(hops)
    && (forall h :: h in hops ==> IsAddress(lines, h.index, h.address))
    && (forall l :: l in lines && l.HopLine? ==> exists h :: h in hops && h.index == l.index)
  }

  ghost predicate IsTotal(lines: seq<Line>, hops: seq<Hop>, total: Option<nat>) {
    IsResumedTotal(lines, total) ||
    (IsResumedTotal(lines, None) && |hops| > 0 && total == Some(hops[|hops| - 1].index))
  }

  ghost predicate IsReached(lines: seq<Line>) {
    exists l :: l in lines && l.HopLine? && l.reached
  }

  ghost predicate SaysSomething(lines: seq<Line>) {
    exists l :: l in lines && !l.Other?
  }

  /** Output that says nothing gives no report. */
  ghost predicate IsReport(lines: seq<Line>, report: Option<Report>) {
    match report
    case None => !SaysSomething(lines)
    case Some(r) =>
      && SaysSomething(lines)
      && (r.success <==> IsReached(lines))
      && IsPmtu(lines, r.pmtu)
      && AreHops(lines, r.hops)
      && IsTotal(lines, r.hops, r.hopsTotal)
      && (r.hopsTotal.None? ==> r.hops == [])
  }

  // ----- Sorting -----

  lemma {:induction false} HasGreatest(s: set<nat>)
    requires s != {}
    ensures exists m :: m in s && forall x :: x in s ==> x <= m
  {
    var k :| k in s;
    var rest := s - {k};
    if rest == {} {
      assert s == {k};
    } else {
      HasGreatest(rest);
      var m :| m in rest && forall x :: x in rest ==> x <= m;
      var greatest := if m < k then k else m;
      assert greatest in s && forall x :: x in s ==> x in rest || x == k;
    }
  }

  function Sorted(table: map<nat, string>): (hops: seq<Hop>)
    ensures IsAscending(hops)
    ensures forall h :: h in hops <==> h.index in table && table[h.index] == h.address
    decreases |table|
  {
    if table == map[] then []
    else
      HasGreatest(table.Keys);
      var m :| m in table && forall x :: x in table ==> x <= m;
      Sorted(table - {m}) + [Hop(m, table[m])]
  }

  // ----- Parsing -----

  method ParseLine(line: Line, pmtu: Option<nat>, hopsTotal: Option<nat>, success: bool, table: map<nat, string>)
    returns (pmtu': Option<nat>, hopsTotal': Option<nat>, success': bool, table': map<nat, string>)
    ensures pmtu' == if HasPmtu(line) then Some(line.pmtu) else pmtu
    ensures hopsTotal' == if line.Resume? then Some(line.hops) else hopsTotal
    ensures success' == (success || (line.HopLine? && line.reached))
    ensures table' == if line.HopLine? then table[line.index := line.address] else table
  {
    pmtu', hopsTotal', success', table' := pmtu, hopsTotal, success, table;
    match line {
      case Resume(p, hops) =>
        pmtu' := Some(p);
        hopsTotal' := Some(hops);
      case LocalPmtu(p) =>
        pmtu' := Some(p);
      case HopLine(index, address, reached) =>
        if reached { success' := true; }
        table' := table[index := address];
      case Other =>
    }
  }

  method ParseOutput(lines: seq<Line>) returns (report: Option<Report>)
    ensures IsReport(lines, report)
  {
    var pmtu, hopsTotal := None, None;
    var success := false;
    var hopsByIndex: map<nat, string> := map[];
    for n := 0 to |lines|
      invariant IsPmtu(lines[..n], pmtu)
      invariant IsResumedTotal(lines[..n], hopsTotal)
      invariant IsHopTable(lines[..n], hopsByIndex)
      invariant success <==> IsReached(lines[..n])
      invariant SaysSomething(lines[..n]) <==> hopsByIndex != map[] || pmtu.Some? || hopsTotal.Some?
    {
      var line := lines[n];
      assert lines[..n + 1] == lines[..n] + [line];
      PmtuThen(lines[..n], line, pmtu);
      TotalThen(lines[..n], line, hopsTotal);
      HopsThen(lines[..n], line, hopsByIndex);
      SaysThen(lines[..n], line);
      pmtu, hopsTotal, success, hopsByIndex := ParseLine(line, pmtu, hopsTotal, success, hopsByIndex);
    }
    assert lines[..|lines|] == lines;
    if hopsByIndex == map[] && pmtu.None? && hopsTotal.None? {
      return None;
    }
    var hops := Sorted(hopsByIndex);
    TableGivesHops(lines, hopsByIndex);
    if hopsTotal.None? && hops != [] {
      hopsTotal := Some(hops[|hops| - 1].index);
    }
    return Some(Report(success, pmtu, hopsTotal, hops));
  }

  lemma SaysThen(lines: seq<Line>, l: Line)
    ensures SaysSomething(lines + [l]) <==> SaysSomething(lines) || !l.Other?
    ensures IsReached(lines + [l]) <==> IsReached(lines) || (l.HopLine? && l.reached)
  {
  }

  lemma PmtuThen(lines: seq<Line>, l: Line, pmtu: Option<nat>)
    requires IsPmtu(lines, pmtu)
    ensures IsPmtu(lines + [l], if HasPmtu(l) then Some(l.pmtu) else pmtu)
  {
    var all := lines + [l];
    if HasPmtu(l) {
      assert HasPmtu(all[|lines|]) && all[|lines|].pmtu == l.pmtu;
    } else if pmtu.Some? {
      var i :| 0 <= i < |lines| && HasPmtu(lines[i]) && lines[i].pmtu == pmtu.value &&
        forall j :: i < j < |lines| ==> !HasPmtu(lines[j]);
      assert HasPmtu(all[i]) && all[i].pmtu == pmtu.value;
    }
  }

  lemma TotalThen(lines: seq<Line>, l: Line, total: Option<nat>)
    requires IsResumedTotal(lines, total)
    ensures IsResumedTotal(lines + [l], if l.Resume? then Some(l.hops) else total)
  {
    var all := lines + [l];
    if l.Resume? {
      assert all[|lines|].Resume? && all[|lines|].hops == l.hops;
    } else if total.Some? {
      var i :| 0 <= i < |lines| && lines[i].Resume? && lines[i].hops == total.value &&
        forall j :: i < j < |lines| ==> !lines[j].Resume?;
      assert all[i].Resume? && all[i].hops == total.value;
    }
  }

  lemma AddressThen(lines: seq<Line>, l: Line, index: nat, address: string)
    requires if IsHop(l, index) then l.address == address else IsAddress(lines, index, address)
    ensures IsAddress(lines + [l], index, address)
  {
    var all := lines + [l];
    if IsHop(l, index) {
      assert IsHop(all[|lines|], index) && all[|lines|].address == address;
    } else {
      var i :| 0 <= i < |lines| && IsHop(lines[i], index) && lines[i].address == address &&
        forall j :: i < j < |lines| ==> !IsHop(lines[j], index);
      assert IsHop(all[i], index) && all[i].address == address;
    }
  }

  lemma HopsThen(lines: seq<Line>, l: Line, table: map<nat, string>)
    requires IsHopTable(lines, table)
    ensures IsHopTable(lines + [l], if l.HopLine? then table[l.index := l.address] else table)
  {
    var table' := if l.HopLine? then table[l.index := l.address] else table;
    forall index | index in table' ensures IsAddress(lines + [l], index, table'[index]) {
      AddressThen(lines, l, index, table'[index]);
    }
  }

  lemma TableGivesHops(lines: seq<Line>, table: map<nat, string>)
    requires IsHopTable(lines, table)
    ensures AreHops(lines, Sorted(table))
  {
    var hops := Sorted(table);
    forall l | l in lines && l.HopLine? ensures exists h :: h in hops && h.index == l.index {
      assert Hop(l.index, table[l.index]) in hops;
    }
  }

  // ----- The report is determined -----

  lemma OnePmtu(lines: seq<Line>, a: Option<nat>, b: Option<nat>)
    requires IsPmtu(lines, a) && IsPmtu(lines, b)
    ensures a == b
  {
  }

  lemma SameHops(lines: seq<Line>, hops: seq<Hop>, others: seq<Hop>)
    requires AreHops(lines, hops) && AreHops(lines, others)
    ensures forall h :: h in hops ==> h in others
  {
  }

  lemma FirstIsHop(hops: seq<Hop>)
    requires hops != []
    ensures exists h :: h in hops
  {
    assert hops[0] in hops;
  }

  /** Ascending sequences of the same hops are equal. */
  lemma {:induction false} OneOrder(hops: seq<Hop>, others: seq<Hop>)
    requires IsAscending(hops) && IsAscending(others)
    requires forall h :: h in hops <==> h in others
    ensures hops == others
    decreases |hops|
  {
    if hops == [] {
      if others != [] { FirstIsHop(others); }
    } else {
      assert hops[0] in others && others[0] in hops;
      FirstIsLeast(hops, others[0]);
      FirstIsLeast(others, hops[0]);
      assert hops[0] == others[0];
      forall h ensures h in hops[1..] <==> h in others[1..] {
        TailWithout(hops, h);
        TailWithout(others, h);
      }
      OneOrder(hops[1..], others[1..]);
    }
  }

  lemma FirstIsLeast(hops: seq<Hop>, h: Hop)
    requires IsAscending(hops) && h in hops
    ensures h == hops[0] || hops[0].index < h.index
  {
  }

  lemma TailWithout(hops: seq<Hop>, h: Hop)
    requires IsAscending(hops) && hops != []
    ensures h in hops[1..] <==> h in hops && h != hops[0]
  {
  }

  /** What is said of a report holds of one report only. */
  lemma ReportIsDetermined(lines: seq<Line>, a: Option<Report>, b: Option<Report>)
    requires IsReport(lines, a) && IsReport(lines, b)
    ensures a == b
  {
    if a.Some? && b.Some? {
      SameHops(lines, a.value.hops, b.value.hops);
      SameHops(lines, b.value.hops, a.value.hops);
      OneOrder(a.value.hops, b.value.hops);
      OnePmtu(lines, a.value.pmtu, b.value.pmtu);
      OneTotal(lines, a.value.hops, a.value.hopsTotal, b.value.hopsTotal);
    }
  }

  lemma OneTotal(lines: seq<Line>, hops: seq<Hop>, a: Option<nat>, b: Option<nat>)
    requires IsTotal(lines, hops, a) && IsTotal(lines, hops, b)
    requires (a.None? || b.None?) ==> hops == []
    ensures a == b
  {
  }
}
