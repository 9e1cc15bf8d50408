/** What becomes known of a path: the report of each trace, and which report a collection answers. */
module TraceRuns {
  import opened Wrappers
  import opened TraceOutput
  import opened PathTrace

  // ----- The end of a trace -----

  /** A snapshot of the target with this report. */
  predicate Reports(snapshot: Snapshot, t: Target, report: Report) {
    && snapshot.localAddress == t.localAddress && snapshot.localPort == t.localPort
    && snapshot.peerAddress == t.peerAddress && snapshot.peerPort == t.peerPort
    && snapshot.report == report
  }

  /** The trace came back with this report. */
  predicate ReturnsReport(f: Future, t: Target, report: Report) {
    f.Returned? && f.target == t && Reports(f.snapshot, t, report)
  }

  /** It came back without success, path MTU or hops. */
  predicate ReturnsNothing(f: Future, t: Target) {
    ReturnsReport(f, t, Report(false, None, Some(0), []))
  }

  /** The errors counted grow by one for this reason, and by none for any other. */
  ghost predicate CountsOnly(s: State, u: State, reason: Option<Reason>) {
    forall r :: ErrorCount(u, r) == ErrorCount(s, r) + if reason == Some(r) then 1 else 0
  }

  /** What a worker makes of the result of its command. */
  ghost predicate IsWorkerEnd(s: State, u: State, pair: Pair, result: CommandResult)
    requires pair in s.inFlight && pair in u.inFlight
  {
    var t, f := s.inFlight[pair].target, u.inFlight[pair];
    match result
    case CommandNotFound => ReturnsNothing(f, t) && CountsOnly(s, u, Some(Unavailable))
    case CommandTimedOut => ReturnsNothing(f, t) && CountsOnly(s, u, Some(Timeout))
    case CommandCrashed => f == Raised(t) && CountsOnly(s, u, None)
    case CommandCompleted(returnCode, lines) =>
      && (IsReport(lines, None) ==>
            ReturnsNothing(f, t) && CountsOnly(s, u, if returnCode == 0 then Some(Unparsed) else Some(Command)))
      && (forall report | IsReport(lines, Some(report)) ::
            ReturnsReport(f, t, report) && CountsOnly(s, u, if report.success then None else Some(Unreachable)))
  }

  /** A trace ends as its command and its output say, and nothing else changes. */
  lemma WorkerMeans(s: State, pair: Pair, result: CommandResult, outcome: Outcome)
    requires pair in s.inFlight && s.inFlight[pair].Pending? && Leads(result, outcome)
    ensures var u := Step(s, WorkerEnds(pair, outcome));
      && pair in u.inFlight && IsWorkerEnd(s, u, pair, result)
      && u == s.(inFlight := s.inFlight[pair := u.inFlight[pair]], errors := u.errors)
  {
    var u := Step(s, WorkerEnds(pair, outcome));
    if result.CommandCompleted? {
      forall report | IsReport(result.lines, Some(report)) ensures outcome.report == Some(report) {
        ReportIsDetermined(result.lines, outcome.report, Some(report));
      }
      if IsReport(result.lines, None) { ReportIsDetermined(result.lines, outcome.report, None); }
    }
  }

  // ----- Over runs -----

  /** The reports of traces that came back and wait to be taken in, and of those taken in last. */
  datatype Ledger = Ledger(returned: map<Pair, Report>, stored: map<Pair, Report>)

  function ReportOf(outcome: Outcome): Option<Report> {
    match outcome
    case Finished(_, Some(report)) => Some(report)
    case Crashed => None
    case _ => Some(Report(false, None, Some(0), []))
  }

  /** The reports that came back replace older ones; pairs no longer asked for are forgotten. */
  function TakenIn(l: Ledger, pairs: set<Pair>): map<Pair, Report> {
    map p | p in l.stored.Keys + l.returned.Keys && p in pairs :: if p in l.returned then l.returned[p] else l.stored[p]
  }

  function Entered(l: Ledger, s: State, e: Event): Ledger {
    match e
    case WorkerEnds(p, outcome) =>
      if p in s.inFlight && s.inFlight[p].Pending? && ReportOf(outcome).Some?
      then l.(returned := l.returned[p := ReportOf(outcome).value]) else l
    case Collect(now, targets) => if s.ttl > 0 && !s.closed then Ledger(map[], TakenIn(l, Pairs(targets))) else l
    case Close => l
  }

  function LedgerOf(s: State, l: Ledger, es: seq<Event>): Ledger
    decreases |es|
  {
    if es == [] then l else LedgerOf(Step(s, es[0]), Entered(l, s, es[0]), es[1..])
  }

  ghost predicate CacheAgrees(cache: map<Pair, Cached>, stored: map<Pair, Report>) {
    cache.Keys == stored.Keys && forall p :: p in cache ==> cache[p].snapshot.report == stored[p]
  }

  ghost predicate FuturesAgree(s: State, returned: map<Pair, Report>) {
    && (forall p :: p in returned <==> Completed(s, p))
    && forall p :: p in returned ==> s.inFlight[p].snapshot.report == returned[p]
  }

  ghost predicate Agrees(s: State, l: Ledger) {
    CacheAgrees(s.cache, l.stored) && FuturesAgree(s, l.returned)
  }

  lemma KeptAgrees(s: State, l: Ledger, now: int, targets: seq<Target>)
    requires Agrees(s, l)
    ensures CacheAgrees(Kept(s, now, targets).cache, TakenIn(l, Pairs(targets)))
  {
  }

  lemma NoneReturned(s: State, now: int, targets: seq<Target>)
    ensures forall p :: !Completed(Submitted(Kept(s, now, targets), now, targets), p)
  {
    var k := Kept(s, now, targets);
    SubmittedExactly(k, now, targets);
    forall p ensures !Completed(Submitted(k, now, targets), p) {
      assert !Completed(k, p);
    }
  }

  lemma StepAgrees(s: State, l: Ledger, e: Event)
    requires Agrees(s, l)
    ensures Agrees(Step(s, e), Entered(l, s, e))
  {
    match e
    case Collect(now, targets) =>
      if IsActive(s) {
        KeptAgrees(s, l, now, targets);
        SubmittedExactly(Kept(s, now, targets), now, targets);
        NoneReturned(s, now, targets);
      }
    case WorkerEnds(p, outcome) =>
    case Close =>
  }

  lemma {:induction false} RunAgrees(s: State, l: Ledger, es: seq<Event>)
    requires Agrees(s, l)
    ensures Agrees(Run(s, es), LedgerOf(s, l, es))
    decreases |es|
  {
    if es != [] {
      StepAgrees(s, l, es[0]);
      RunAgrees(Step(s, es[0]), Entered(l, s, es[0]), es[1..]);
    }
  }

  const NO_REPORTS := Ledger(map[], map[])

  /** After every run, a collection answers exactly the sockets whose pair has a trace taken in, and
      answers each with the report of the last one. */
  lemma LastTraceIsAnswered(ttl: nat, es: seq<Event>, now: int, targets: seq<Target>)
    requires IsActive(Run(Empty(ttl), es))
    ensures var answer := Answer(Run(Empty(ttl), es), now, targets);
      var stored := TakenIn(LedgerOf(Empty(ttl), NO_REPORTS, es), Pairs(targets));
      && (forall t :: t in answer <==> t in targets && PairOf(t) in stored)
      && (forall t :: t in answer ==> Reports(answer[t], t, stored[PairOf(t)]))
  {
    var s := Run(Empty(ttl), es);
    RunAgrees(Empty(ttl), NO_REPORTS, es);
    KeptAgrees(s, LedgerOf(Empty(ttl), NO_REPORTS, es), now, targets);
    AnswersMatchKeys(ttl, es, now, targets);
  }

  // ----- When a path is traced again -----

  /** A stored snapshot is fresh for the time to live. */
  lemma StoreIsFresh(s: State, e: Event, p: Pair)
    requires p in PathTrace.Stores(s, e) && Presents(e, p)
    ensures p in Step(s, e).cache && Step(s, e).cache[p].refreshAfter == e.now + s.ttl
    ensures Step(s, e).cache[p].snapshot == s.inFlight[p].snapshot && p !in Stored(s, e.now).inFlight
  {
    SubmittedExactly(Kept(s, e.now, e.targets), e.now, e.targets);
  }

  lemma StepKeepsSnapshot(s: State, e: Event, p: Pair)
    requires p in s.cache && Presents(e, p) && p !in PathTrace.Stores(s, e)
    ensures p in Step(s, e).cache && Step(s, e).cache[p] == s.cache[p]
  {
    if e.Collect? && IsActive(s) { SubmittedExactly(Kept(s, e.now, e.targets), e.now, e.targets); }
  }

  lemma {:induction false} KeptUntilStored(s: State, es: seq<Event>, p: Pair)
    requires p in s.cache && (forall e :: e in es ==> Presents(e, p)) && NextStore(s, es, p) == None
    ensures p in Run(s, es).cache && Run(s, es).cache[p] == s.cache[p]
    decreases |es|
  {
    if es != [] {
      assert Presents(es[0], p);
      StepKeepsSnapshot(s, es[0], p);
      KeptUntilStored(Step(s, es[0]), es[1..], p);
    }
  }

  /** Once the time to live of a snapshot is over, the next collection that asks for its pair leaves
      a trace in flight. */
  lemma TracedAgain(s: State, e: Event, es: seq<Event>, p: Pair, now: int, targets: seq<Target>)
    requires p in PathTrace.Stores(s, e) && Presents(e, p) && (forall e' :: e' in es ==> Presents(e', p))
    requires NextStore(Step(s, e), es, p) == None
    requires var u := Run(Step(s, e), es);
      IsActive(u) && u.ttl == s.ttl && p in Pairs(targets) && !Completed(u, p) && now >= e.now + s.ttl
    ensures p in Step(Run(Step(s, e), es), Collect(now, targets)).inFlight
  {
    StoreIsFresh(s, e, p);
    KeptUntilStored(Step(s, e), es, p);
    var u := Run(Step(s, e), es);
    SubmittedExactly(Kept(u, now, targets), now, targets);
  }
}
