/** The path-trace cache: traces in flight, snapshots kept for a time, and the runs of both. */
module PathTrace {
  import opened Wrappers
  import opened TraceOutput

  datatype Target = Target(localAddress: string, localPort: string, peerAddress: string, peerPort: string)

  datatype Pair = Pair(localAddress: string, peerAddress: string)

  datatype Snapshot = Snapshot(localAddress: string, localPort: string, peerAddress: string, peerPort: string,
                               report: Report)

  datatype Cached = Cached(snapshot: Snapshot, refreshAfter: int)

  /** A trace handed to the worker. */
  datatype Future = Pending(target: Target) | Returned(target: Target, snapshot: Snapshot) | Raised(target: Target)

  datatype Reason = Worker | Unavailable | Timeout | Command | Unparsed | Unreachable

  /** How running the trace command ends. */
  datatype Outcome = NotFound | TimedOut | Crashed | Finished(returnCode: int, report: Option<Report>)

  datatype CommandResult =
    | CommandNotFound
    | CommandTimedOut
    | CommandCrashed
    | CommandCompleted(returnCode: int, lines: seq<Line>)

  /** A completed command is judged by the report its output determines. */
  ghost predicate Leads(result: CommandResult, outcome: Outcome) {
    match result
    case CommandNotFound => outcome == NotFound
    case CommandTimedOut => outcome == TimedOut
    case CommandCrashed => outcome == Crashed
    case CommandCompleted(returnCode, lines) =>
      outcome.Finished? && outcome.returnCode == returnCode && IsReport(lines, outcome.report)
  }

  datatype State = State(
    ttl: nat, cache: map<Pair, Cached>, inFlight: map<Pair, Future>, closed: bool, errors: map<Reason, nat>)

  datatype Event =
    | Collect(now: int, targets: seq<Target>)
    | WorkerEnds(pair: Pair, outcome: Outcome)
    | Close

  function PairOf(t: Target): Pair {
    Pair(t.localAddress, t.peerAddress)
  }

  function Pairs(targets: seq<Target>): set<Pair> {
    set t | t in targets :: PairOf(t)
  }

  function SnapshotOf(t: Target, report: Report): Snapshot {
    Snapshot(t.localAddress, t.localPort, t.peerAddress, t.peerPort, report)
  }

  function Counted(errors: map<Reason, nat>, reason: Reason, n: nat): map<Reason, nat> {
    errors[reason := n + if reason in errors then errors[reason] else 0]
  }

  function ErrorCount(s: State, reason: Reason): nat {
    if reason in s.errors then s.errors[reason] else 0
  }

  // ----- The worker -----

  /** Why a trace is counted as an error, if it is. */
  function Failure(outcome: Outcome): Option<Reason> {
    match outcome
    case NotFound => Some(Unavailable)
    case TimedOut => Some(Timeout)
    case Crashed => None
    case Finished(returnCode, None) => Some(if returnCode != 0 then Command else Unparsed)
    case Finished(_, Some(report)) => if report.success then None else Some(Unreachable)
  }

  function Ended(target: Target, outcome: Outcome): Future {
    match outcome
    case Crashed => Raised(target)
    case Finished(_, Some(report)) => Returned(target, SnapshotOf(target, report))
    case _ => Returned(target, SnapshotOf(target, NO_REPORT))
  }

  function WorkerEnded(s: State, pair: Pair, outcome: Outcome): State {
    if pair !in s.inFlight || !s.inFlight[pair].Pending? then s
    else
      s.(inFlight := s.inFlight[pair := Ended(s.inFlight[pair].target, outcome)],
         errors := if Failure(outcome).Some? then Counted(s.errors, Failure(outcome).value, 1) else s.errors)
  }

  // ----- Collecting -----

  predicate Completed(s: State, p: Pair) {
    p in s.inFlight && s.inFlight[p].Returned?
  }

  function FailedOf(s: State, pairs: set<Pair>): set<Pair> {
    set p | p in pairs && p in s.inFlight && s.inFlight[p].Raised?
  }

  function Failed(s: State): set<Pair> {
    FailedOf(s, s.inFlight.Keys)
  }

  function StoredCache(s: State, now: int, pairs: set<Pair>): map<Pair, Cached> {
    map p | p in s.cache.Keys + pairs && (p in s.cache || Completed(s, p)) ::
      if p in pairs && Completed(s, p) then Cached(s.inFlight[p].snapshot, now + s.ttl) else s.cache[p]
  }

  function StillInFlight(s: State, pairs: set<Pair>): map<Pair, Future> {
    map p | p in s.inFlight && (p in pairs ==> s.inFlight[p].Pending?) :: s.inFlight[p]
  }

  function WorkerErrors(errors: map<Reason, nat>, n: nat): map<Reason, nat> {
    if n == 0 then errors else Counted(errors, Worker, n)
  }

  /** The futures of some pairs taken in: snapshots that came back replace cached ones, and
      whatever is done is no longer in flight. */
  function StoredOf(s: State, now: int, pairs: set<Pair>): State {
    s.(cache := StoredCache(s, now, pairs), inFlight := StillInFlight(s, pairs),
       errors := WorkerErrors(s.errors, |FailedOf(s, pairs)|))
  }

  function Stored(s: State, now: int): State {
    StoredOf(s, now, s.inFlight.Keys)
  }

  function Pruned(s: State, pairs: set<Pair>): State {
    s.(cache := map p | p in s.cache && p in pairs :: s.cache[p])
  }

  /** A pair needs a trace if none is in flight and it has no snapshot, or only an old one. */
  predicate IsDue(s: State, now: int, p: Pair) {
    p !in s.inFlight && (p !in s.cache || s.cache[p].refreshAfter <= now)
  }

  function Submitted(s: State, now: int, targets: seq<Target>): State {
    if targets == [] then s
    else
      var last := targets[|targets| - 1];
      var t := Submitted(s, now, targets[..|targets| - 1]);
      if IsDue(t, now, PairOf(last)) then t.(inFlight := t.inFlight[PairOf(last) := Pending(last)]) else t
  }

  predicate IsActive(s: State) {
    s.ttl > 0 && !s.closed
  }

  function Kept(s: State, now: int, targets: seq<Target>): State {
    Pruned(Stored(s, now), Pairs(targets))
  }

  function Collected(s: State, now: int, targets: seq<Target>): State {
    if IsActive(s) then Submitted(Kept(s, now, targets), now, targets) else s
  }

  /** Each target whose pair has a snapshot gets that snapshot with its own ports. */
  function Snapshots(cache: map<Pair, Cached>, targets: seq<Target>): map<Target, Snapshot> {
    map t | t in targets && PairOf(t) in cache ::
      cache[PairOf(t)].snapshot.(localPort := t.localPort, peerPort := t.peerPort)
  }

  function Answer(s: State, now: int, targets: seq<Target>): map<Target, Snapshot> {
    if IsActive(s) then Snapshots(Kept(s, now, targets).cache, targets) else map[]
  }

  function Step(s: State, e: Event): State {
    match e
    case Collect(now, targets) => Collected(s, now, targets)
    case WorkerEnds(pair, outcome) => WorkerEnded(s, pair, outcome)
    case Close => s.(closed := true)
  }

  function Run(s: State, es: seq<Event>): State
    decreases |es|
  {
    if es == [] then s else Run(Step(s, es[0]), es[1..])
  }

  const NO_ERRORS: map<Reason, nat> := map[]

  function Empty(ttl: nat): State {
    State(ttl, map[], map[], false, NO_ERRORS)
  }

  // ----- The program -----

  class PathTraceCollector {
    const ttl: nat
    var cache: map<Pair, Cached>
    var inFlight: map<Pair, Future>
    var closed: bool
    var errorCounts: map<Reason, nat>

    ghost function View(): State
      reads this
    {
      State(ttl, cache, inFlight, closed, errorCounts)
    }

    constructor (ttl: int)
      ensures View() == Empty(if ttl > 0 then ttl else 0)
    {
      this.ttl := if ttl > 0 then ttl else 0;
      cache, inFlight, closed, errorCounts := map[], map[], false, NO_ERRORS;
    }

    /** Take in one future. */
    method StoreTrace(now: int, p: Pair)
      requires p in inFlight
      modifies this`cache, this`inFlight, this`errorCounts
      ensures View() == StoredThen(old(View()), now, p)
    {
      match inFlight[p] {
        case Pending(_) =>
        case Raised(_) =>
          errorCounts := Counted(errorCounts, Worker, 1);
          inFlight := inFlight - {p};
        case Returned(_, snapshot) =>
          cache := cache[p := Cached(snapshot, now + ttl)];
          inFlight := inFlight - {p};
      }
    }

    /** Store what has come back, one future at a time. */
    method StoreCompletedTraces(now: int)
      modifies this`cache, this`inFlight, this`errorCounts
      ensures View() == Stored(old(View()), now)
    {
      ghost var s := View();
      var items := inFlight.Keys;
      StoredNone(s, now);
      while items != {}
        invariant IsStoredBut(s, now, items, View())
      {
        var p :| p in items;
        StoredNext(s, now, items, View(), p);
        StoreTrace(now, p);
        items := items - {p};
      }
      StoredAll(s, now, View());
    }

    /** What the worker does with the trace it was handed. */
    method CollectForTarget(pair: Pair, result: CommandResult) returns (ghost outcome: Outcome)
      requires pair in inFlight && inFlight[pair].Pending?
      modifies this`inFlight, this`errorCounts
      ensures View() == Step(old(View()), WorkerEnds(pair, outcome))
      ensures Leads(result, outcome)
    {
      var target := inFlight[pair].target;
      var snapshot := SnapshotOf(target, NO_REPORT);
      match result {
        case CommandNotFound =>
          outcome := NotFound;
          errorCounts := Counted(errorCounts, Unavailable, 1);
        case CommandTimedOut =>
          outcome := TimedOut;
          errorCounts := Counted(errorCounts, Timeout, 1);
        case CommandCrashed =>
          outcome := Crashed;
          inFlight := inFlight[pair := Raised(target)];
          return;
        case CommandCompleted(returnCode, lines) =>
          var report := ParseOutput(lines);
          outcome := Finished(returnCode, report);
          if report.None? {
            errorCounts := Counted(errorCounts, if returnCode != 0 then Command else Unparsed, 1);
          } else {
            snapshot := SnapshotOf(target, report.value);
            if !report.value.success {
              errorCounts := Counted(errorCounts, Unreachable, 1);
            }
          }
      }
      inFlight := inFlight[pair := Returned(target, snapshot)];
    }

    /** The snapshots known for the sockets of the table; traces are started where needed. */
    method Collect(now: int, output: seq<Target>) returns (snapshots: map<Target, Snapshot>)
      modifies this`cache, this`inFlight, this`errorCounts
      ensures View() == Step(old(View()), Event.Collect(now, output))
      ensures snapshots == Answer(old(View()), now, output)
    {
      if ttl == 0 || closed { return map[]; }
      StoreCompletedTraces(now);
      var pairs := Pairs(output);
      cache := map p | p in cache && p in pairs :: cache[p];
      snapshots := SubmitTraces(now, output);
    }

    method SubmitTraces(now: int, targets: seq<Target>) returns (snapshots: map<Target, Snapshot>)
      modifies this`inFlight
      ensures View() == Submitted(old(View()), now, targets)
      ensures snapshots == Snapshots(cache, targets)
    {
      ghost var s := View();
      snapshots := map[];
      for i := 0 to |targets|
        invariant View() == Submitted(s, now, targets[..i])
        invariant snapshots == Snapshots(cache, targets[..i])
      {
        var target := targets[i];
        var pair := PairOf(target);
        assert targets[..i + 1][..i] == targets[..i];
        SnapshotsThen(cache, targets[..i], target);
        assert targets[..i + 1] == targets[..i] + [target];
        if pair in cache {
          var snapshot := cache[pair].snapshot;
          snapshots := snapshots[target := snapshot.(localPort := target.localPort, peerPort := target.peerPort)];
        }
        if pair !in inFlight && (pair !in cache || cache[pair].refreshAfter <= now) {
          inFlight := inFlight[pair := Pending(target)];
        }
      }
      assert targets[..|targets|] == targets;
    }
  }

  /** All futures but those of some pairs are taken in. */
  ghost predicate IsStoredBut(s: State, now: int, items: set<Pair>, t: State) {
    items <= s.inFlight.Keys && t == StoredOf(s, now, s.inFlight.Keys - items)
  }

  lemma StoredNone(s: State, now: int)
    ensures IsStoredBut(s, now, s.inFlight.Keys, s)
  {
  }

  lemma StoredAll(s: State, now: int, t: State)
    requires IsStoredBut(s, now, {}, t)
    ensures t == Stored(s, now)
  {
    assert s.inFlight.Keys - {} == s.inFlight.Keys;
  }

  /** One more future taken in. */
  function StoredThen(s: State, now: int, p: Pair): State
    requires p in s.inFlight
  {
    match s.inFlight[p]
    case Pending(_) => s
    case Raised(_) => s.(errors := Counted(s.errors, Worker, 1), inFlight := s.inFlight - {p})
    case Returned(_, snapshot) => s.(cache := s.cache[p := Cached(snapshot, now + s.ttl)], inFlight := s.inFlight - {p})
  }

  lemma CacheNext(s: State, now: int, done: set<Pair>, p: Pair)
    requires p in s.inFlight && p !in done
    ensures var was := StoredCache(s, now, done);
      StoredCache(s, now, done + {p}) ==
      if Completed(s, p) then was[p := Cached(s.inFlight[p].snapshot, now + s.ttl)] else was
  {
  }

  lemma InFlightNext(s: State, done: set<Pair>, p: Pair)
    requires p in s.inFlight && p !in done
    ensures var was := StillInFlight(s, done);
      && p in was && was[p] == s.inFlight[p]
      && StillInFlight(s, done + {p}) == if s.inFlight[p].Pending? then was else was - {p}
  {
  }

  lemma ErrorsNext(s: State, done: set<Pair>, p: Pair)
    requires p in s.inFlight && p !in done
    ensures var errors := WorkerErrors(s.errors, |FailedOf(s, done)|);
      WorkerErrors(s.errors, |FailedOf(s, done + {p})|) ==
      if s.inFlight[p].Raised? then Counted(errors, Worker, 1) else errors
  {
    FailedNext(s, done, p);
    CountedTwice(s.errors, |FailedOf(s, done)|);
  }

  lemma CountedTwice(errors: map<Reason, nat>, n: nat)
    ensures Counted(WorkerErrors(errors, n), Worker, 1) == WorkerErrors(errors, n + 1)
  {
  }

  lemma ThenFromParts(s: State, now: int, p: Pair, t: State, u: State)
    requires p in s.inFlight && p in t.inFlight && t.inFlight[p] == s.inFlight[p] && t.ttl == u.ttl == s.ttl &&
             t.closed == u.closed
    requires u.cache == if Completed(s, p) then t.cache[p := Cached(s.inFlight[p].snapshot, now + s.ttl)] else t.cache
    requires u.inFlight == if s.inFlight[p].Pending? then t.inFlight else t.inFlight - {p}
    requires u.errors == if s.inFlight[p].Raised? then Counted(t.errors, Worker, 1) else t.errors
    ensures u == StoredThen(t, now, p)
  {
  }

  lemma StoredStep(s: State, now: int, done: set<Pair>, p: Pair)
    requires p in s.inFlight && p !in done
    ensures p in StoredOf(s, now, done).inFlight
    ensures StoredOf(s, now, done + {p}) == StoredThen(StoredOf(s, now, done), now, p)
  {
    CacheNext(s, now, done, p);
    InFlightNext(s, done, p);
    ErrorsNext(s, done, p);
    ThenFromParts(s, now, p, StoredOf(s, now, done), StoredOf(s, now, done + {p}));
  }

  lemma StoredNext(s: State, now: int, items: set<Pair>, t: State, p: Pair)
    requires IsStoredBut(s, now, items, t) && p in items
    ensures p in t.inFlight && IsStoredBut(s, now, items - {p}, StoredThen(t, now, p))
  {
    var all := s.inFlight.Keys;
    StoredStep(s, now, all - items, p);
    assert all - (items - {p}) == all - items + {p};
  }

  lemma FailedNext(s: State, done: set<Pair>, p: Pair)
    requires p in s.inFlight && p !in done
    ensures var failed := FailedOf(s, done);
      p !in failed && FailedOf(s, done + {p}) == if s.inFlight[p].Raised? then failed + {p} else failed
  {
  }

  lemma SnapshotsThen(cache: map<Pair, Cached>, targets: seq<Target>, t: Target)
    ensures var was := Snapshots(cache, targets);
      Snapshots(cache, targets + [t]) ==
      if PairOf(t) in cache
      then was[t := cache[PairOf(t)].snapshot.(localPort := t.localPort, peerPort := t.peerPort)] else was
  {
  }

  // ----- What a collection answers -----

  predicate Matches(snapshot: Snapshot, p: Pair) {
    snapshot.localAddress == p.localAddress && snapshot.peerAddress == p.peerAddress
  }

  /** Snapshots, cached or on their way, belong to their pair. */
  ghost predicate IsSound(s: State) {
    && (forall p :: p in s.cache ==> Matches(s.cache[p].snapshot, p))
    && (forall p :: p in s.inFlight ==> PairOf(s.inFlight[p].target) == p)
    && (forall p :: Completed(s, p) ==> Matches(s.inFlight[p].snapshot, p))
  }

  lemma {:induction false} SubmissionsSound(s: State, now: int, targets: seq<Target>)
    requires IsSound(s)
    ensures IsSound(Submitted(s, now, targets))
  {
    if targets != [] {
      SubmissionsSound(s, now, targets[..|targets| - 1]);
    }
  }

  lemma KeptSound(s: State, now: int, targets: seq<Target>)
    requires IsSound(s)
    ensures IsSound(Kept(s, now, targets))
  {
  }

  lemma WorkerSound(s: State, pair: Pair, outcome: Outcome)
    requires IsSound(s)
    ensures IsSound(WorkerEnded(s, pair, outcome))
  {
  }

  lemma StepSound(s: State, e: Event)
    requires IsSound(s)
    ensures IsSound(Step(s, e))
  {
    match e
    case Collect(now, targets) =>
      KeptSound(s, now, targets);
      SubmissionsSound(Kept(s, now, targets), now, targets);
    case WorkerEnds(pair, outcome) => WorkerSound(s, pair, outcome);
    case Close =>
  }

  lemma {:induction false} RunSound(s: State, es: seq<Event>)
    requires IsSound(s)
    ensures IsSound(Run(s, es))
    decreases |es|
  {
    if es != [] {
      StepSound(s, es[0]);
      RunSound(Step(s, es[0]), es[1..]);
    }
  }

  /** What is answered is filed under its own addresses and ports, those of a socket asked for. */
  ghost predicate AnswersFor(targets: seq<Target>, answer: map<Target, Snapshot>) {
    forall t :: t in answer ==> t in targets && answer[t] == SnapshotOf(t, answer[t].report)
  }

  lemma SoundAnswer(cache: map<Pair, Cached>, targets: seq<Target>)
    requires forall p :: p in cache ==> Matches(cache[p].snapshot, p)
    ensures AnswersFor(targets, Snapshots(cache, targets))
  {
  }

  lemma AnswerMatches(s: State, now: int, targets: seq<Target>)
    requires IsSound(s)
    ensures AnswersFor(targets, Answer(s, now, targets))
  {
    KeptSound(s, now, targets);
    SoundAnswer(Kept(s, now, targets).cache, targets);
  }

  /** After every run, each snapshot that is answered has the addresses and ports it is filed
      under. */
  lemma AnswersMatchKeys(ttl: nat, es: seq<Event>, now: int, targets: seq<Target>)
    ensures AnswersFor(targets, Answer(Run(Empty(ttl), es), now, targets))
  {
    RunSound(Empty(ttl), es);
    AnswerMatches(Run(Empty(ttl), es), now, targets);
  }

  /** Submitting starts a trace exactly for the pairs that are due, and touches nothing else. */
  lemma {:induction false} SubmittedExactly(s: State, now: int, targets: seq<Target>)
    ensures var u := Submitted(s, now, targets);
      && u == s.(inFlight := u.inFlight)
      && (forall p :: p in u.inFlight <==> p in s.inFlight || (p in Pairs(targets) && IsDue(s, now, p)))
      && (forall p :: p in s.inFlight ==> u.inFlight[p] == s.inFlight[p])
      && (forall p :: p in u.inFlight && p !in s.inFlight ==> u.inFlight[p].Pending?)
  {
    if targets != [] {
      var front, last := targets[..|targets| - 1], targets[|targets| - 1];
      SubmittedExactly(s, now, front);
      assert targets == front + [last];
      forall p ensures p in Pairs(targets) <==> p in Pairs(front) || p == PairOf(last) {}
    }
  }

  /** A collection leaves snapshots of current pairs only, and every current pair with a trace
      in flight or a snapshot that has not expired; it answers exactly the sockets whose pair
      has a snapshot. */
  lemma CollectionCovers(s: State, now: int, targets: seq<Target>)
    requires IsActive(s)
    ensures var u := Collected(s, now, targets);
      && u.cache.Keys <= Pairs(targets)
      && (forall t :: t in targets ==>
            PairOf(t) in u.inFlight || (PairOf(t) in u.cache && u.cache[PairOf(t)].refreshAfter > now))
      && (forall t :: t in Answer(s, now, targets) <==> t in targets && PairOf(t) in u.cache)
  {
    var k := Kept(s, now, targets);
    SubmittedExactly(k, now, targets);
    forall t | t in targets ensures PairOf(t) in Pairs(targets) {}
  }

  // ----- Conservation of traces -----

  /** The pairs for which an event starts a trace, stores one, or finds that its worker failed. */
  function Starts(s: State, e: Event): set<Pair> {
    if e.Collect? && IsActive(s) then Step(s, e).inFlight.Keys - Stored(s, e.now).inFlight.Keys else {}
  }

  function Stores(s: State, e: Event): set<Pair> {
    if e.Collect? && IsActive(s) then Returns(s) else {}
  }

  function Fails(s: State, e: Event): set<Pair> {
    if e.Collect? && IsActive(s) then Failed(s) else {}
  }

  function StartsOver(s: State, es: seq<Event>): nat
    decreases |es|
  {
    if es == [] then 0 else |Starts(s, es[0])| + StartsOver(Step(s, es[0]), es[1..])
  }

  function StoresOver(s: State, es: seq<Event>): nat
    decreases |es|
  {
    if es == [] then 0 else |Stores(s, es[0])| + StoresOver(Step(s, es[0]), es[1..])
  }

  function Returns(s: State): set<Pair> {
    set p | p in s.inFlight && Completed(s, p)
  }

  lemma StoredShrinks(s: State, now: int)
    ensures Stored(s, now).inFlight.Keys == s.inFlight.Keys - Returns(s) - Failed(s)
  {
  }

  lemma StoredCounts(s: State, now: int)
    ensures ErrorCount(Stored(s, now), Worker) == ErrorCount(s, Worker) + |Failed(s)|
  {
  }

  lemma CardinalityOfParts(all: set<Pair>, a: set<Pair>, b: set<Pair>, more: set<Pair>)
    requires a <= all && b <= all && a !! b && more !! all - a - b
    ensures |all - a - b + more| + |a| + |b| == |all| + |more|
  {
  }

  lemma CollectSplits(s: State, now: int, targets: seq<Target>)
    requires IsActive(s)
    ensures var e := Collect(now, targets);
      && Step(s, e).inFlight.Keys == Stored(s, now).inFlight.Keys + Starts(s, e)
      && Starts(s, e) !! Stored(s, now).inFlight.Keys
      && Step(s, e).errors == Stored(s, now).errors
  {
    SubmittedExactly(Kept(s, now, targets), now, targets);
  }

  lemma CollectConserves(s: State, now: int, targets: seq<Target>)
    requires IsActive(s)
    ensures var e := Collect(now, targets);
      var u := Step(s, e);
      && |s.inFlight| + |Starts(s, e)| == |u.inFlight| + |Stores(s, e)| + |Fails(s, e)|
      && ErrorCount(u, Worker) == ErrorCount(s, Worker) + |Fails(s, e)|
  {
    var e := Collect(now, targets);
    CollectSplits(s, now, targets);
    StoredShrinks(s, now);
    StoredCounts(s, now);
    CardinalityOfParts(s.inFlight.Keys, Returns(s), Failed(s), Starts(s, e));
    var u := Step(s, e);
    assert |u.inFlight| == |u.inFlight.Keys| && |s.inFlight| == |s.inFlight.Keys|;
  }

  lemma StepConserves(s: State, e: Event)
    ensures var u := Step(s, e);
      && |s.inFlight| + |Starts(s, e)| == |u.inFlight| + |Stores(s, e)| + |Fails(s, e)|
      && ErrorCount(u, Worker) == ErrorCount(s, Worker) + |Fails(s, e)|
  {
    match e
    case Collect(now, targets) => if IsActive(s) { CollectConserves(s, now, targets); }
    case WorkerEnds(pair, outcome) =>
      var u := Step(s, e);
      assert u.inFlight.Keys == s.inFlight.Keys;
      assert |u.inFlight| == |u.inFlight.Keys| && |s.inFlight| == |s.inFlight.Keys|;
    case Close =>
  }

  lemma {:induction false} RunConserves(s: State, es: seq<Event>)
    ensures var u := Run(s, es);
      |s.inFlight| + StartsOver(s, es) + ErrorCount(s, Worker) ==
          |u.inFlight| + StoresOver(s, es) + ErrorCount(u, Worker)
    decreases |es|
  {
    if es != [] {
      StepConserves(s, es[0]);
      RunConserves(Step(s, es[0]), es[1..]);
    }
  }

  /** Over every run, each trace that was started was stored, was counted as a worker failure or
      is in flight. */
  lemma TracesConserved(ttl: nat, es: seq<Event>)
    ensures var u := Run(Empty(ttl), es);
      StartsOver(Empty(ttl), es) == StoresOver(Empty(ttl), es) + ErrorCount(u, Worker) + |u.inFlight|
  {
    RunConserves(Empty(ttl), es);
  }

  // ----- The rate of traces -----

  predicate Presents(e: Event, p: Pair) {
    e.Collect? ==> p in Pairs(e.targets)
  }

  /** The clock does not run backwards. */
  predicate Clocked(es: seq<Event>, from: int) {
    if es == [] then true
    else if es[0].Collect? then from <= es[0].now && Clocked(es[1..], es[0].now)
    else Clocked(es[1..], from)
  }

  /** When a run first stores a snapshot of a pair. */
  function NextStore(s: State, es: seq<Event>, p: Pair): Option<int>
    decreases |es|
  {
    if es == [] then None
    else if p in Stores(s, es[0]) then Some(es[0].now)
    else NextStore(Step(s, es[0]), es[1..], p)
  }

  /** The snapshot of a pair is kept until it is due, and no trace is in flight before. */
  ghost predicate IsFreshUntil(s: State, p: Pair, due: int, clock: int) {
    p in s.cache && s.cache[p].refreshAfter == due && (p in s.inFlight ==> due <= clock)
  }

  lemma CollectKeepsFresh(s: State, now: int, targets: seq<Target>, p: Pair, due: int, clock: int)
    requires IsActive(s) && IsFreshUntil(s, p, due, clock) && clock <= now && p in Pairs(targets) && !Completed(s, p)
    ensures IsFreshUntil(Collected(s, now, targets), p, due, now)
  {
    SubmittedExactly(Kept(s, now, targets), now, targets);
  }

  lemma {:induction false} NotBefore(s: State, es: seq<Event>, p: Pair, due: int, clock: int)
    requires IsFreshUntil(s, p, due, clock) && Clocked(es, clock) && forall e :: e in es ==> Presents(e, p)
    ensures var next := NextStore(s, es, p);
      next.Some? ==> next.value >= due
    decreases |es|
  {
    if es != [] && p !in Stores(s, es[0]) {
      assert Presents(es[0], p);
      match es[0] {
        case Collect(now, targets) =>
          if IsActive(s) { CollectKeepsFresh(s, now, targets, p, due, clock); }
          NotBefore(Step(s, es[0]), es[1..], p, due, now);
        case _ => NotBefore(Step(s, es[0]), es[1..], p, due, clock);
      }
    }
  }

  /** While a pair stays in the table, two stores of its traces are at least the time to live apart. */
  lemma StoresApart(s: State, e: Event, es: seq<Event>, p: Pair)
    requires p in Stores(s, e) && Clocked(es, e.now) && forall e' :: e' in [e] + es ==> Presents(e', p)
    ensures var next := NextStore(Step(s, e), es, p);
      next.Some? ==> next.value - e.now >= s.ttl
  {
    assert Presents(([e] + es)[0], p);
    forall e' | e' in es ensures Presents(e', p) {
      assert e' in [e] + es;
    }
    SubmittedExactly(Kept(s, e.now, e.targets), e.now, e.targets);
    assert IsFreshUntil(Step(s, e), p, e.now + s.ttl, e.now);
    NotBefore(Step(s, e), es, p, e.now + s.ttl, e.now);
  }

  /** Once closed, or without a time to live, no run changes the snapshots or starts a trace. */
  lemma {:induction false} InactiveStays(s: State, es: seq<Event>)
    requires !IsActive(s)
    ensures var u := Run(s, es);
      !IsActive(u) && u.cache == s.cache && u.inFlight.Keys == s.inFlight.Keys && StartsOver(s, es) == 0
    decreases |es|
  {
    if es != [] {
      InactiveStays(Step(s, es[0]), es[1..]);
    }
  }
}
