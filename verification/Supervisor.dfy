/** The supervised iperf process: starting, polling, restarting and stopping a child, the error
    count the server keeps of restarts, and the loop of the periodic client. */
module Supervisor {
  import opened Wrappers
  import opened Sums

  /** The children ever started, by process number: None while alive, then the exit code. */
  type Children = seq<Option<int>>

  datatype State = State(children: Children, process: Option<nat>, lastExit: Option<int>, restarts: nat, errors: nat)

  /** How the attempt to stop a live child ends: a signal may be refused by the operating system,
      and the child may outlive the wait after each. */
  datatype Ending = TermRefused | ExitsOnTerm(code: int) | KillRefused | ExitsOnKill(code: int) | SurvivesKill

  datatype Event =
    | ChildExits(pid: nat, code: int)
    | EnsureRunning(spawns: bool)
    | EnsureServerRunning(spawns: bool)
    | PollExitCode
    | Stop(ending: Ending)

  datatype Error = SpawnFailed | TimeoutExpired

  const IDLE := State([], None, None, 0, 0)

  predicate IsProper(s: State) {
    s.process.Some? ==> s.process.value < |s.children|
  }

  /** The current child has exited with this code. */
  function ExitCode(s: State): Option<int>
    requires IsProper(s)
  {
    if s.process.None? then None else s.children[s.process.value]
  }

  predicate IsRunning(s: State)
    requires IsProper(s)
  {
    s.process.Some? && s.children[s.process.value].None?
  }

  // ----- Steps -----

  function Spawned(s: State, spawns: bool): State {
    if spawns then s.(children := s.children + [None], process := Some(|s.children|)) else s.(process := None)
  }

  function Noted(s: State): State
    requires IsProper(s)
  {
    if ExitCode(s).Some? then s.(lastExit := ExitCode(s)) else s
  }

  function Ensured(s: State, spawns: bool): State
    requires IsProper(s)
  {
    if IsRunning(s) then s
    else if s.process.None? then Spawned(s, spawns)
    else Spawned(Noted(s).(restarts := s.restarts + 1), spawns)
  }

  /** The server counts the restarts of a call that returns. */
  function ServerEnsured(s: State, spawns: bool): State
    requires IsProper(s)
  {
    var after := Ensured(s, spawns);
    if spawns then after.(errors := s.errors + (after.restarts - s.restarts)) else after
  }

  function Ended(s: State, code: int): State
    requires IsProper(s) && s.process.Some?
  {
    s.(children := s.children[s.process.value := Some(code)], lastExit := Some(code))
  }

  /** Whatever becomes of the child, it is no longer the current one. */
  function Stopped(s: State, ending: Ending): State
    requires IsProper(s)
  {
    if !IsRunning(s) then s.(process := None)
    else
      match ending
      case ExitsOnTerm(code) => Ended(s, code).(process := None)
      case ExitsOnKill(code) => Ended(s, code).(process := None)
      case _ => s.(process := None)
  }

  function Step(s: State, e: Event): (t: State)
    requires IsProper(s)
    ensures IsProper(t)
  {
    match e
    case ChildExits(pid, code) =>
      if pid < |s.children| && s.children[pid].None? then s.(children := s.children[pid := Some(code)]) else s
    case EnsureRunning(spawns) => Ensured(s, spawns)
    case EnsureServerRunning(spawns) => ServerEnsured(s, spawns)
    case PollExitCode => Noted(s)
    case Stop(ending) => Stopped(s, ending)
  }

  function Run(s: State, es: seq<Event>): (t: State)
    requires IsProper(s)
    ensures IsProper(t)
    decreases |es|
  {
    if es == [] then s else Run(Step(s, es[0]), es[1..])
  }

  // ----- The program -----

  /** The children of this program, as the operating system knows them. */
  class Host {
    var children: Children

    constructor ()
      ensures children == []
    {
      children := [];
    }

    method Spawn(possible: bool) returns (pid: Option<nat>)
      modifies this
      ensures if possible then pid == Some(|old(children)|) && children == old(children) + [None]
              else pid == None && children == old(children)
    {
      if !possible { return None; }
      pid := Some(|children|);
      children := children + [None];
    }

    method Exit(pid: nat, code: int)
      requires pid < |children|
      modifies this
      ensures children == if old(children)[pid].None? then old(children)[pid := Some(code)] else old(children)
    {
      if children[pid].None? {
        children := children[pid := Some(code)];
      }
    }

    /** Ask a child to end; it may take the hint. */
    method Signal(pid: nat, accepted: bool, exit: Option<int>) returns (ok: bool)
      requires pid < |children| && children[pid].None?
      modifies this
      ensures ok == accepted
      ensures children == if accepted && exit.Some? then old(children)[pid := exit] else old(children)
    {
      if accepted && exit.Some? { Exit(pid, exit.value); }
      return accepted;
    }

    /** Wait for a child until the timeout. */
    method Wait(pid: nat) returns (code: Option<int>)
      requires pid < |children|
      ensures code == children[pid]
    {
      return children[pid];
    }
  }

  class IPerf {
    const host: Host
    var process: Option<nat>
    var lastExitCode: Option<int>
    var restartCount: nat
    /** Runs that ended in an error, as the server counts them. */
    var errorRuns: nat

    ghost function View(): State
      reads this, host
    {
      State(host.children, process, lastExitCode, restartCount, errorRuns)
    }

    constructor ()
      ensures fresh(host) && View() == IDLE
    {
      host := new Host();
      process, lastExitCode, restartCount, errorRuns := None, None, 0, 0;
    }

    method SpawnProcess(possible: bool) returns (r: Result<(), Error>)
      requires process.None?
      modifies this`process, host
      ensures View() == Spawned(old(View()), possible)
      ensures r == if possible then Success(()) else Failure(SpawnFailed)
    {
      process := host.Spawn(possible);
      return if process.Some? then Success(()) else Failure(SpawnFailed);
    }

    /** Start a child unless one is alive; tell whether one was started. */
    method EnsureRunning(possible: bool) returns (r: Result<bool, Error>)
      requires IsProper(View())
      modifies this, host
      ensures View() == Step(old(View()), Event.EnsureRunning(possible))
      ensures r == if IsRunning(old(View())) then Success(false)
                   else if possible then Success(true) else Failure(SpawnFailed)
    {
      if process.None? {
        var _ :- SpawnProcess(possible);
        return Success(true);
      }
      var exitCode := host.Wait(process.value);
      if exitCode.None? { return Success(false); }
      lastExitCode := exitCode;
      restartCount := restartCount + 1;
      process := None;
      var _ :- SpawnProcess(possible);
      return Success(true);
    }

    /** The server's version counts the restarts it finds after the call. */
    method EnsureServerRunning(possible: bool) returns (r: Result<bool, Error>)
      requires IsProper(View())
      modifies this, host
      ensures View() == Step(old(View()), Event.EnsureServerRunning(possible))
      ensures r == if IsRunning(old(View())) then Success(false)
                   else if possible then Success(true) else Failure(SpawnFailed)
    {
      var previous := restartCount;
      var started :- EnsureRunning(possible);
      if restartCount > previous {
        errorRuns := errorRuns + (restartCount - previous);
      }
      return Success(started);
    }

    method PollExitCode() returns (code: Option<int>)
      requires IsProper(View())
      modifies this`lastExitCode
      ensures View() == Step(old(View()), Event.PollExitCode) && code == ExitCode(View())
    {
      if process.None? { return None; }
      code := host.Wait(process.value);
      if code.Some? { lastExitCode := code; }
    }

    /** Ask the current child to end, then force it; in any case it is current no more. */
    method Stop(ending: Ending) returns (r: Result<(), Error>)
      requires IsProper(View())
      modifies this`process, this`lastExitCode, host
      ensures View() == Step(old(View()), Event.Stop(ending))
      ensures r == if IsRunning(old(View())) && ending.SurvivesKill? then Failure(TimeoutExpired) else Success(())
    {
      if process.None? { return Success(()); }
      var pid := process.value;
      process := None;
      var exitCode := host.Wait(pid);
      if exitCode.Some? { return Success(()); }
      var signalled := host.Signal(pid, !ending.TermRefused?, if ending.ExitsOnTerm? then Some(ending.code) else None);
      if !signalled { return Success(()); }
      exitCode := host.Wait(pid);
      if exitCode.None? {
        var killed := host.Signal(pid, !ending.KillRefused?, if ending.ExitsOnKill? then Some(ending.code) else None);
        if !killed { return Success(()); }
        exitCode := host.Wait(pid);
        if exitCode.None? { return Failure(TimeoutExpired); }
      }
      lastExitCode := exitCode;
      return Success(());
    }
  }

  // ----- At most one child -----

  function Alive(s: State): set<nat> {
    set i | 0 <= i < |s.children| && s.children[i].None?
  }

  function Current(s: State): set<nat> {
    if s.process.Some? then {s.process.value} else {}
  }

  predicate Ends(ending: Ending) {
    ending.ExitsOnTerm? || ending.ExitsOnKill?
  }

  /** The child a stop gives up on while it is alive. */
  function AbandonedBy(s: State, e: Event): set<nat>
    requires IsProper(s)
  {
    if e.Stop? && IsRunning(s) && !Ends(e.ending) then Current(s) else {}
  }

  function Abandoned(s: State, es: seq<Event>): set<nat>
    requires IsProper(s)
    decreases |es|
  {
    if es == [] then {} else AbandonedBy(s, es[0]) + Abandoned(Step(s, es[0]), es[1..])
  }

  predicate Starts(e: Event) {
    e == EnsureRunning(true) || e == EnsureServerRunning(true)
  }

  predicate Spawns(s: State, e: Event)
    requires IsProper(s)
  {
    |Step(s, e).children| > |s.children|
  }

  /** Every live child is the current one or was abandoned. */
  ghost predicate Supervised(s: State, abandoned: set<nat>) {
    && IsProper(s)
    && Alive(s) <= Current(s) + abandoned
    && Current(s) !! abandoned
    && (forall i :: i in abandoned ==> i < |s.children|)
  }

  lemma StepSupervised(s: State, e: Event, abandoned: set<nat>)
    requires Supervised(s, abandoned)
    ensures Supervised(Step(s, e), abandoned + AbandonedBy(s, e))
  {
  }

  lemma {:induction false} RunSupervised(s: State, es: seq<Event>, abandoned: set<nat>)
    requires Supervised(s, abandoned)
    ensures Supervised(Run(s, es), abandoned + Abandoned(s, es))
    decreases |es|
  {
    if es == [] {
      assert abandoned + Abandoned(s, es) == abandoned;
    } else {
      StepSupervised(s, es[0], abandoned);
      RunSupervised(Step(s, es[0]), es[1..], abandoned + AbandonedBy(s, es[0]));
      assert abandoned + Abandoned(s, es) == abandoned + AbandonedBy(s, es[0]) + Abandoned(Step(s, es[0]), es[1..]);
    }
  }

  lemma SpawnsExactly(s: State, e: Event)
    requires IsProper(s)
    ensures Spawns(s, e) <==> Starts(e) && !IsRunning(s)
  {
  }

  lemma AliveIsCurrent(s: State)
    requires Supervised(s, {})
    ensures |Alive(s)| <= 1 && (Alive(s) == {} || IsRunning(s))
  {
    assert Alive(s) <= Current(s);
    if Alive(s) != {} { assert Alive(s) == Current(s); }
  }

  lemma AliveWasAbandoned(s: State, abandoned: set<nat>)
    requires Supervised(s, abandoned) && !IsRunning(s)
    ensures Alive(s) <= abandoned
  {
  }

  /** Over every run, a child is started beside a live one exactly if a stop gave up on that one
      earlier and it has not exited since. */
  lemma OverlapsExactly(es: seq<Event>, e: Event, pid: nat)
    ensures var s := Run(IDLE, es);
      Spawns(s, e) && pid in Alive(s) <==>
      Starts(e) && !IsRunning(s) && pid in Abandoned(IDLE, es) && pid in Alive(s)
  {
    var s := Run(IDLE, es);
    EmptyIsNeutral(Abandoned(IDLE, es));
    RunSupervised(IDLE, es, {});
    SpawnsExactly(s, e);
    if !IsRunning(s) { AliveWasAbandoned(s, Abandoned(IDLE, es)); }
  }

  lemma EmptyIsNeutral(s: set<nat>)
    ensures {} + s == s
  {
  }

  lemma StaysAlone(s: State, es: seq<Event>, e: Event)
    requires IsProper(s) && Alive(s) <= Current(s) && Abandoned(s, es) == {}
    ensures var t := Run(s, es);
      |Alive(t)| <= 1 && (Spawns(t, e) ==> Alive(t) == {})
  {
    RunSupervised(s, es, {});
    EmptyIsNeutral(Abandoned(s, es));
    AliveIsCurrent(Run(s, es));
    SpawnsExactly(Run(s, es), e);
  }

  /** While every stop that had to end a child did, no run starts a child beside a live one. */
  lemma NoOverlap(es: seq<Event>, e: Event)
    requires forall e :: e in es && e.Stop? ==> Ends(e.ending)
    ensures var s := Run(IDLE, es);
      |Alive(s)| <= 1 && (Spawns(s, e) ==> Alive(s) == {})
  {
    StopsSucceed(IDLE, es);
    StaysAlone(IDLE, es, e);
  }

  lemma {:induction false} StopsSucceed(s: State, es: seq<Event>)
    requires IsProper(s) && forall e :: e in es && e.Stop? ==> Ends(e.ending)
    ensures Abandoned(s, es) == {}
    decreases |es|
  {
    if es != [] {
      assert es[0] in es;
      StopsSucceed(Step(s, es[0]), es[1..]);
    }
  }

  /** A child that outlives a stop runs beside its successor. */
  lemma FailedStopOverlaps() returns (es: seq<Event>)
    ensures Alive(Run(IDLE, es)) == {0, 1}
  {
    es := [EnsureRunning(true), Stop(TermRefused), EnsureRunning(true)];
    var s1 := Step(IDLE, es[0]);
    var s2 := Step(s1, es[1]);
    var s3 := Step(s2, es[2]);
    assert es[1..][1..] == [es[2]] && es[1..][0] == es[1];
    assert Run(s2, [es[2]]) == s3;
    assert s3.children == [None, None];
  }

  // ----- Restarts -----

  function FirstStarts(s: State, es: seq<Event>): nat
    requires IsProper(s)
    decreases |es|
  {
    if es == [] then 0
    else (if s.process.None? && Spawns(s, es[0]) then 1 else 0) + FirstStarts(Step(s, es[0]), es[1..])
  }

  predicate IsFailedStart(e: Event) {
    e == EnsureRunning(false) || e == EnsureServerRunning(false)
  }

  function FailedRestarts(s: State, es: seq<Event>): nat
    requires IsProper(s)
    decreases |es|
  {
    if es == [] then 0
    else
      (if IsFailedStart(es[0]) && ExitCode(s).Some? then 1 else 0) + FailedRestarts(Step(s, es[0]), es[1..])
  }

  lemma {:induction false} RestartsOverRun(s: State, es: seq<Event>)
    requires IsProper(s)
    ensures var t := Run(s, es);
      t.restarts - s.restarts == |t.children| - |s.children| - FirstStarts(s, es) + FailedRestarts(s, es)
    decreases |es|
  {
    if es != [] {
      RestartsOverRun(Step(s, es[0]), es[1..]);
    }
  }

  lemma {:induction false} ErrorsOverRun(s: State, es: seq<Event>)
    requires IsProper(s) && forall e :: e in es ==> !e.EnsureRunning?
    ensures var t := Run(s, es);
      t.errors - s.errors == t.restarts - s.restarts - FailedRestarts(s, es)
    decreases |es|
  {
    if es != [] {
      assert es[0] in es;
      ErrorsOverRun(Step(s, es[0]), es[1..]);
    }
  }

  /** Over every run, each restart was of a child that had exited: restarts are the children
      started beyond the first starts, plus the attempts that failed to start one. The error
      count of a server leaves out exactly the latter. */
  lemma RestartsCounted(es: seq<Event>)
    ensures var t := Run(IDLE, es);
      && t.restarts == |t.children| - FirstStarts(IDLE, es) + FailedRestarts(IDLE, es)
      && ((forall e :: e in es ==> !e.EnsureRunning?) ==> t.errors == t.restarts - FailedRestarts(IDLE, es))
  {
    RestartsOverRun(IDLE, es);
    if forall e :: e in es ==> !e.EnsureRunning? { ErrorsOverRun(IDLE, es); }
  }

  /** The exit code an event makes known: that of the current child where it is looked at, and that
      of a child a stop ends. */
  function NoticedBy(s: State, e: Event): Option<int>
    requires IsProper(s)
  {
    if s.process.None? || e.ChildExits? then None
    else if !e.Stop? then s.children[s.process.value]
    else if s.children[s.process.value].None? && Ends(e.ending) then Some(e.ending.code) else None
  }

  /** The last exit code made known over a run. */
  function LastNoticed(s: State, es: seq<Event>, last: Option<int>): Option<int>
    requires IsProper(s)
    decreases |es|
  {
    if es == [] then last
    else LastNoticed(Step(s, es[0]), es[1..], if NoticedBy(s, es[0]).Some? then NoticedBy(s, es[0]) else last)
  }

  /** In every run the recorded exit code is the last one that was made known. */
  lemma {:induction false} LastExitIsLatest(s: State, es: seq<Event>)
    requires IsProper(s)
    ensures Run(s, es).lastExit == LastNoticed(s, es, s.lastExit)
    decreases |es|
  {
    if es != [] {
      LastExitIsLatest(Step(s, es[0]), es[1..]);
    }
  }

  /** What an event does to the children, and which of them is the current one. */
  lemma ChildrenChange(s: State, e: Event)
    requires IsProper(s)
    ensures var t := Step(s, e);
      match e
      case ChildExits(pid, code) =>
        && t.process == s.process
        && t.children == if pid in Alive(s) then s.children[pid := Some(code)] else s.children
      case PollExitCode => t.process == s.process && t.children == s.children
      case Stop(ending) =>
        && t.process == None
        && t.children == if IsRunning(s) && Ends(ending) then s.children[s.process.value := Some(ending.code)]
            else s.children
      case _ =>
        if IsRunning(s) then t.process == s.process && t.children == s.children
        else if Starts(e) then t.process == Some(|s.children|) && t.children == s.children + [None]
        else t.process == None && t.children == s.children
  {
  }

  /** The last exit code is that of some child, and no restart goes without one. */
  ghost predicate ExitsNoted(s: State) {
    && (s.lastExit.Some? ==> s.lastExit in s.children)
    && (s.restarts > 0 ==> s.lastExit.Some?)
  }

  lemma StepNotes(s: State, e: Event)
    requires IsProper(s) && ExitsNoted(s)
    ensures ExitsNoted(Step(s, e))
  {
    var t := Step(s, e);
    if s.lastExit.Some? {
      var i :| 0 <= i < |s.children| && s.children[i] == s.lastExit;
      assert t.children[i] == s.lastExit;
    }
    if s.process.Some? {
      assert t.children[s.process.value] in t.children;
    }
  }

  lemma {:induction false} LastExitNoted(s: State, es: seq<Event>)
    requires IsProper(s) && ExitsNoted(s)
    ensures ExitsNoted(Run(s, es))
    decreases |es|
  {
    if es != [] {
      StepNotes(s, es[0]);
      LastExitNoted(Step(s, es[0]), es[1..]);
    }
  }

  // ----- The periodic client -----

  /** What happens while the client sleeps: its child may exit. Whether another could be started
      afterwards is up to the operating system. The last moment ends in the request to shut down. */
  datatype Moment = Moment(exit: Option<int>, spawnable: bool)

  lemma {:induction false} RunAppend(s: State, es: seq<Event>, fs: seq<Event>)
    requires IsProper(s)
    ensures Run(s, es + fs) == Run(Run(s, es), fs)
    decreases |es|
  {
    if es == [] {
      assert es + fs == fs;
    } else {
      assert (es + fs)[1..] == es[1..] + fs;
      RunAppend(Step(s, es[0]), es[1..], fs);
    }
  }

  lemma RunOne(s: State, e: Event)
    requires IsProper(s)
    ensures Run(s, [e]) == Step(s, e)
  {
  }

  predicate IsQuiet(e: Event) {
    e.ChildExits? || e.PollExitCode?
  }

  /** Nothing but polls and exits lead from one state to the other. */
  ghost predicate Waited(s: State, t: State, es: seq<Event>) {
    && IsProper(s) && t == Run(s, es) && (forall e :: e in es ==> IsQuiet(e))
    && t.process == s.process && |t.children| == |s.children| && t.restarts == s.restarts
    && forall i :: 0 <= i < |s.children| && s.children[i].Some? ==> t.children[i] == s.children[i]
  }

  lemma WaitedOn(s: State, t: State, u: State, es: seq<Event>, fs: seq<Event>)
    requires Waited(s, t, es) && Waited(t, u, fs)
    ensures Waited(s, u, es + fs)
  {
    RunAppend(s, es, fs);
  }

  /** Between polls the child may exit. */
  method Sleep(client: IPerf, moment: Moment) returns (ghost es: seq<Event>)
    requires IsProper(client.View()) && client.process.Some?
    modifies client.host
    ensures Waited(old(client.View()), client.View(), es)
  {
    es := [];
    if moment.exit.Some? {
      ghost var e := ChildExits(client.process.value, moment.exit.value);
      es := [e];
      RunOne(client.View(), e);
      client.host.Exit(client.process.value, moment.exit.value);
    }
  }

  method Poll(client: IPerf) returns (code: Option<int>, ghost es: seq<Event>)
    requires IsProper(client.View())
    modifies client`lastExitCode
    ensures Waited(old(client.View()), client.View(), es) && code == ExitCode(client.View())
  {
    es := [PollExitCode];
    RunOne(client.View(), PollExitCode);
    code := client.PollExitCode();
  }

  /** Follow a probe until it exits, or until the shutdown. */
  method StreamClientOnce(client: IPerf, moments: seq<Moment>)
    returns (code: Option<int>, rest: seq<Moment>, ghost es: seq<Event>)
    requires IsProper(client.View()) && client.process.Some?
    modifies client`lastExitCode, client.host
    ensures Waited(old(client.View()), client.View(), es)
    ensures |rest| <= |moments| && if code.Some? then code == ExitCode(client.View()) else rest == []
  {
    rest, es := moments, [];
    while rest != []
      invariant |rest| <= |moments| && Waited(old(client.View()), client.View(), es)
      decreases |rest|
    {
      ghost var fs;
      ghost var s := client.View();
      code, fs := Poll(client);
      WaitedOn(old(client.View()), s, client.View(), es, fs);
      es := es + fs;
      if code.Some? { return; }
      s := client.View();
      fs := Sleep(client, rest[0]);
      WaitedOn(old(client.View()), s, client.View(), es, fs);
      es, rest := es + fs, rest[1..];
    }
    code := None;
  }

  /** The client's runs never stop a child. The reports are the exit codes of its children from
      the first on, in order, and only the last child has no report. */
  ghost predicate Reported(s0: State, s: State, es: seq<Event>, reports: seq<int>) {
    && IsProper(s0) && s == Run(s0, es) && (forall e :: e in es ==> !e.Stop?)
    && s0.process.Some? && s0.process.value + |reports| <= |s.children| <= s0.process.value + |reports| + 1
    && (forall i :: 0 <= i < |reports| ==> s.children[s0.process.value + i] == Some(reports[i]))
    && s.restarts - s0.restarts in {|reports| - 1, |reports|}
  }

  /** The last child is the current one; if it has its report already, its restart is due. */
  ghost predicate Following(s0: State, s: State, es: seq<Event>, reports: seq<int>, due: nat) {
    && Reported(s0, s, es, reports)
    && s.process == Some(|s.children| - 1)
    && s0.process.value + |reports| + 1 == |s.children| + due
    && s.restarts + due == s0.restarts + |reports|
    && (due > 0 ==> ExitCode(s).Some?)
  }

  lemma FollowingWaits(s0: State, s: State, t: State, es: seq<Event>, fs: seq<Event>, reports: seq<int>, due: nat)
    requires Following(s0, s, es, reports, due) && Waited(s, t, fs)
    ensures Following(s0, t, es + fs, reports, due)
  {
    RunAppend(s0, es, fs);
  }

  lemma FollowingReports(s0: State, s: State, es: seq<Event>, reports: seq<int>, code: int)
    requires Following(s0, s, es, reports, 0) && ExitCode(s) == Some(code)
    ensures Following(s0, s, es, reports + [code], 1)
  {
  }

  lemma FollowingRestarts(s0: State, s: State, es: seq<Event>, reports: seq<int>, spawns: bool)
    requires Following(s0, s, es, reports, 1)
    ensures var e, t := EnsureRunning(spawns), Step(s, EnsureRunning(spawns));
      if spawns then Following(s0, t, es + [e], reports, 0) else Reported(s0, t, es + [e], reports)
  {
    RunOne(s, EnsureRunning(spawns));
    RunAppend(s0, es, [EnsureRunning(spawns)]);
  }

  /** Run probe after probe until the shutdown. Every probe that ends is reported exactly once,
      with its own exit code, and the next one is started only then. */
  method StreamClientPeriodically(client: IPerf, script: seq<Moment>)
    returns (reports: seq<int>, r: Result<(), Error>, ghost es: seq<Event>)
    requires IsProper(client.View()) && client.process == Some(|client.host.children| - 1)
    modifies client, client.host
    ensures Reported(old(client.View()), client.View(), es, reports)
  {
    var moments := script;
    ghost var s0 := client.View();
    reports, es, r := [], [], Success(());
    while moments != []
      invariant Following(s0, client.View(), es, reports, 0)
      decreases |moments|
    {
      var code;
      ghost var fs;
      ghost var s := client.View();
      code, moments, fs := StreamClientOnce(client, moments);
      FollowingWaits(s0, s, client.View(), es, fs, reports, 0);
      es := es + fs;
      if code.Some? {
        FollowingReports(s0, client.View(), es, reports, code.value);
        reports := reports + [code.value];
      }
      if moments == [] { break; }
      var moment := moments[0];
      moments := moments[1..];
      s := client.View();
      fs := Sleep(client, moment);
      FollowingWaits(s0, s, client.View(), es, fs, reports, 1);
      es := es + fs;
      if moments == [] { break; }
      FollowingRestarts(s0, client.View(), es, reports, moment.spawnable);
      es := es + [EnsureRunning(moment.spawnable)];
      var started := client.EnsureRunning(moment.spawnable);
      if started.Failure? {
        r := Failure(started.error);
        return;
      }
    }
  }

  /** The loop never has two probes alive. */
  lemma PeriodicNeverOverlaps(s: State, es: seq<Event>, e: Event)
    requires IsProper(s) && Alive(s) <= Current(s) && forall e :: e in es ==> !e.Stop?
    ensures var t := Run(s, es);
      |Alive(t)| <= 1 && (Spawns(t, e) ==> Alive(t) == {})
  {
    StopsSucceed(s, es);
    StaysAlone(s, es, e);
  }

  // ----- Overlapping calls of the server -----

  /** Calls of several threads at once: the restart count each read before it took the lock, the
      restarts it made itself, and the calls that found the count risen and are about to add. */
  datatype Account = Account(restarts: nat, errors: nat, previous: map<nat, nat>, own: map<nat, nat>,
                             counting: set<nat>)

  /** A call reads the count, works under the lock, compares the count, and reads it again to add. */
  datatype Move = Begin(call: nat) | Locked(call: nat, restarted: bool) | Compare(call: nat) | Add(call: nat)

  const NO_CALLS := Account(0, 0, map[], map[], {})

  predicate IsOpen(a: Account) {
    && a.previous.Keys == a.own.Keys && a.counting <= a.own.Keys
    && forall c :: c in a.own ==> a.previous[c] + a.own[c] <= a.restarts
  }

  /** What a call may do next. */
  predicate IsNext(a: Account, m: Move) {
    match m
    case Begin(c) => c !in a.own
    case Locked(c, _) => c in a.own && c !in a.counting
    case Compare(c) => c in a.own && c !in a.counting
    case Add(c) => c in a.counting
  }

  function Closed(a: Account, c: nat): Account {
    a.(previous := a.previous - {c}, own := a.own - {c}, counting := a.counting - {c})
  }

  function Moved(a: Account, m: Move): (b: Account)
    requires IsOpen(a)
    ensures IsOpen(b)
  {
    if !IsNext(a, m) then a
    else
      match m
      case Begin(c) => a.(previous := a.previous[c := a.restarts], own := a.own[c := 0])
      case Locked(c, restarted) =>
        var n := if restarted then 1 else 0;
        a.(restarts := a.restarts + n, own := a.own[c := a.own[c] + n])
      case Compare(c) => if a.restarts > a.previous[c] then a.(counting := a.counting + {c}) else Closed(a, c)
      case Add(c) => Closed(a.(errors := a.errors + (a.restarts - a.previous[c])), c)
  }

  function Moves(a: Account, ms: seq<Move>): (b: Account)
    requires IsOpen(a)
    ensures IsOpen(b)
    decreases |ms|
  {
    if ms == [] then a else Moves(Moved(a, ms[0]), ms[1..])
  }

  /** Restarts of others that a call counts as well. */
  function Foreign(a: Account, m: Move): nat
    requires IsOpen(a)
  {
    if m.Add? && m.call in a.counting then a.restarts - a.previous[m.call] - a.own[m.call] else 0
  }

  function ForeignRestarts(a: Account, ms: seq<Move>): nat
    requires IsOpen(a)
    decreases |ms|
  {
    if ms == [] then 0 else Foreign(a, ms[0]) + ForeignRestarts(Moved(a, ms[0]), ms[1..])
  }

  /** Restarts made by calls that have not finished. */
  ghost function Owed(a: Account): nat {
    Sum(a.own.Keys, a.own)
  }

  lemma MoveOwes(a: Account, m: Move)
    requires IsOpen(a)
    ensures var b := Moved(a, m);
      b.errors + Owed(b) + a.restarts == a.errors + Owed(a) + b.restarts + Foreign(a, m)
  {
    var b, c := Moved(a, m), m.call;
    if IsNext(a, m) {
      SumFrame(a.own.Keys - {c}, a.own, b.own);
      if c in a.own { SumSplit(a.own.Keys, a.own, c); }
      if c in b.own { SumSplit(b.own.Keys, b.own, c); }
      assert b.own.Keys - {c} == a.own.Keys - {c};
      if c !in a.own { assert a.own.Keys - {c} == a.own.Keys; }
      if c !in b.own { assert b.own.Keys - {c} == b.own.Keys; }
    }
  }

  lemma {:induction false} MovesOwe(a: Account, ms: seq<Move>)
    requires IsOpen(a)
    ensures var b := Moves(a, ms);
      b.errors + Owed(b) + a.restarts == a.errors + Owed(a) + b.restarts + ForeignRestarts(a, ms)
    decreases |ms|
  {
    if ms != [] {
      MoveOwes(a, ms[0]);
      MovesOwe(Moved(a, ms[0]), ms[1..]);
    }
  }

  /** Once all calls have finished, in whatever way they overlapped, the error count is at least
      the number of restarts, and equal to it exactly if no call saw another's restart. */
  lemma ErrorsCountRestarts(ms: seq<Move>)
    ensures var a := Moves(NO_CALLS, ms);
      a.own == map[] ==> a.errors == a.restarts + ForeignRestarts(NO_CALLS, ms)
  {
    MovesOwe(NO_CALLS, ms);
  }

  lemma MovesFirst(a: Account, m: Move, ms: seq<Move>)
    requires IsOpen(a)
    ensures Moves(a, [m] + ms) == Moves(Moved(a, m), ms)
  {
  }

  /** Two calls that both began before a restart by the first. */
  function BothRead(): Account {
    Account(1, 0, map[0 := 0, 1 := 0], map[0 := 1, 1 := 0], {})
  }

  lemma BothAdd()
    ensures Moves(BothRead(), [Compare(0), Add(0), Compare(1), Add(1)]).restarts == 1
    ensures Moves(BothRead(), [Compare(0), Add(0), Compare(1), Add(1)]).errors == 2
    ensures Moves(BothRead(), [Compare(0), Add(0), Compare(1), Add(1)]).own == map[]
  {
    var a := BothRead();
    var b := Moved(Moved(a, Compare(0)), Add(0));
    assert b.restarts == 1 && b.errors == 1 && b.previous == map[1 := 0] && b.own == map[1 := 0] && b.counting == {};
    var c := Moved(Moved(b, Compare(1)), Add(1));
    assert c.restarts == 1 && c.errors == 2 && c.own == map[];
    MovesFirst(Moved(b, Compare(1)), Add(1), []);
    MovesFirst(b, Compare(1), [Add(1)]);
    MovesFirst(Moved(a, Compare(0)), Add(0), [Compare(1), Add(1)]);
    MovesFirst(a, Compare(0), [Add(0), Compare(1), Add(1)]);
  }

  lemma BothBegin(tail: seq<Move>) returns (ms: seq<Move>)
    ensures Moves(NO_CALLS, ms) == Moves(BothRead(), tail)
  {
    var a1 := Account(0, 0, map[0 := 0], map[0 := 0], {});
    var a2 := Account(0, 0, map[0 := 0, 1 := 0], map[0 := 0, 1 := 0], {});
    assert Moved(NO_CALLS, Begin(0)) == a1 && Moved(a1, Begin(1)) == a2;
    assert Moved(a2, Locked(0, true)) == BothRead() && Moved(BothRead(), Locked(1, false)) == BothRead();
    MovesFirst(BothRead(), Locked(1, false), tail);
    ms := [Locked(1, false)] + tail;
    MovesFirst(a2, Locked(0, true), ms);
    ms := [Locked(0, true)] + ms;
    MovesFirst(a1, Begin(1), ms);
    ms := [Begin(1)] + ms;
    MovesFirst(NO_CALLS, Begin(0), ms);
    ms := [Begin(0)] + ms;
  }

  /** Two overlapping calls count one restart twice. */
  lemma OverlappingCallsCountTwice() returns (ms: seq<Move>)
    ensures var a := Moves(NO_CALLS, ms);
      a.restarts == 1 && a.errors == 2 && a.own == map[]
  {
    BothAdd();
    ms := BothBegin([Compare(0), Add(0), Compare(1), Add(1)]);
  }
}
