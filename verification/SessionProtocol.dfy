/** What the handlers of measurement sessions guarantee: convergence, idempotence, recovery from
    interruptions, non-interference, one-shot probes, and complete clean-up. */
module SessionProtocol {
  import opened Wrappers
  import opened Sessions
  import opened Manifests
  import opened Kubernetes
  import opened SessionTarget

  // ----- Convergence -----

  predicate Holds(s: Slot, m: Manifest) {
    s.current.Some? && s.current.value.manifest == m
  }

  /** The client side runs either a Deployment and no Job of the session, or at most the wanted
      Job; it runs that one if the server was ready. */
  ghost predicate ClientConverged(t: Target, w: World) {
    if t.probe then
      && !Exists(w, t.deployment)
      && (forall k :: t.IsSessionJob(w, k) ==> k == t.job)
      && (IsReady(At(w, t.statefulSet)) ==> t.IsSessionJob(w, t.job))
    else
      && Holds(At(w, t.deployment), t.deploymentManifest)
      && forall k :: !t.IsSessionJob(w, k)
  }

  ghost predicate ServerConverged(t: Target, w: World) {
    && Holds(At(w, t.headless), t.headlessManifest)
    && Holds(At(w, t.statefulSet), t.serverManifest)
    && (if t.serviceMode then Holds(At(w, t.service), t.serviceManifest) else !Exists(w, t.service))
  }

  /** From any state, a successful reconciliation leaves exactly the wanted objects. */
  lemma ReconciliationConverges(t: Target, w: World, w': World)
    requires t.Valid() && Reached(w', Goal(t, w))
    ensures ServerConverged(t, w') && ClientConverged(t, w')
  {
    assert At(w', t.headless) == GoalSlot(t, w, t.headless);
    assert At(w', t.service) == GoalSlot(t, w, t.service);
    assert At(w', t.statefulSet) == GoalSlot(t, w, t.statefulSet);
    assert At(w', t.deployment) == GoalSlot(t, w, t.deployment);
    assert At(w', t.job) == GoalSlot(t, w, t.job);
    forall k | t.IsSessionJob(w', k)
      ensures t.probe && k == t.job
    {
      assert At(w', k) == GoalSlot(t, w, k);
    }
  }

  // ----- Interruption and repetition -----

  lemma JobGoalStable(t: Target, w: World, w1: World)
    requires t.Valid() && t.probe && Between(w, w1, Goal(t, w))
    ensures GoalSlot(t, w1, t.job) == GoalSlot(t, w, t.job)
  {
  }

  /** An interrupted reconciliation does not change where reconciliation leads. */
  lemma GoalStable(t: Target, w: World, w1: World, k: Key)
    requires t.Valid() && Between(w, w1, Goal(t, w))
    ensures GoalSlot(t, w1, k) == GoalSlot(t, w, k)
  {
    assert At(w1, k) == At(w, k) || At(w1, k) == GoalSlot(t, w, k);
    if k == t.job && t.probe { JobGoalStable(t, w, w1); }
  }

  /** Worlds after successive attempts, each of which failed somewhere on its way. */
  ghost predicate FailedAttempts(t: Target, ws: seq<World>) {
    forall i :: 0 <= i < |ws| - 1 ==> Between(ws[i], ws[i + 1], Goal(t, ws[i]))
  }

  /** However many attempts are interrupted and wherever, the first that succeeds ends in the
      state an undisturbed reconciliation would have produced. */
  lemma {:induction false} RetriesConverge(t: Target, ws: seq<World>, w': World)
    requires t.Valid() && ws != [] && FailedAttempts(t, ws)
    requires Reached(w', Goal(t, ws[|ws| - 1]))
    ensures Reached(w', Goal(t, ws[0]))
  {
    if |ws| > 1 {
      var front := ws[..|ws| - 1];
      var last := ws[|ws| - 2];
      assert Between(last, ws[|ws| - 1], Goal(t, last));
      forall k ensures At(w', k) == GoalSlot(t, last, k) {
        GoalStable(t, last, ws[|ws| - 1], k);
        assert At(w', k) == Goal(t, ws[|ws| - 1])(k);
      }
      RetriesConverge(t, front, w');
    }
  }

  /** With nothing else happening, reconciling again changes nothing. */
  lemma ReconciliationIdempotent(t: Target, w: World, w': World, w'': World)
    requires t.Valid() && Reached(w', Goal(t, w)) && Reached(w'', Goal(t, w'))
    ensures Same(w', w'')
  {
    forall k ensures At(w'', k) == At(w', k) {
      assert At(w'', k) == Goal(t, w')(k) && At(w', k) == Goal(t, w)(k);
      GoalStable(t, w, w', k) by { assert forall j :: At(w', j) == Goal(t, w)(j); }
    }
  }

  // ----- Non-interference -----

  /** No object of one session is an object of the other. */
  ghost predicate Apart(t: Target, u: Target) {
    && {t.headless, t.service} !! {u.headless, u.service}
    && t.statefulSet != u.statefulSet && t.deployment != u.deployment && t.job != u.job
    && t.sessionLabel != u.sessionLabel
  }

  /** The slot of the session's Job holds no Job that is labelled as another session's. */
  ghost predicate Labelled(t: Target, w: World) {
    Exists(w, t.job) ==> HasLabel(At(w, t.job), SessionKey, t.sessionLabel)
  }

  /** Of two sessions apart, at most one changes a slot. */
  lemma OneOwner(t: Target, u: Target, w: World, k: Key)
    requires t.Valid() && u.Valid() && Apart(t, u) && Labelled(t, w) && Labelled(u, w)
    ensures GoalSlot(u, w, k) == At(w, k) || GoalSlot(t, w, k) == At(w, k)
  {
  }

  lemma ReadinessUndisturbed(t: Target, u: Target, w: World, a: World)
    requires t.Valid() && u.Valid() && Apart(t, u) && Reached(a, Goal(u, w))
    ensures At(a, t.statefulSet) == At(w, t.statefulSet)
  {
  }

  /** What one session makes of a slot does not depend on whether another reconciled first,
      except where the other session itself put it. */
  lemma GoalUndisturbed(t: Target, u: Target, w: World, a: World, k: Key)
    requires t.Valid() && u.Valid() && Apart(t, u) && Labelled(t, w) && Labelled(u, w)
    requires Reached(a, Goal(u, w))
    ensures GoalSlot(t, a, k) == if GoalSlot(u, w, k) == At(w, k) then GoalSlot(t, w, k) else GoalSlot(u, w, k)
  {
    assert At(a, k) == Goal(u, w)(k);
    ReadinessUndisturbed(t, u, w, a);
  }

  /** Two sessions may be reconciled in either order. */
  lemma ReconciliationsCommute(t: Target, u: Target, w: World, a: World, ab: World, b: World, ba: World)
    requires t.Valid() && u.Valid() && Apart(t, u) && Labelled(t, w) && Labelled(u, w)
    requires Reached(a, Goal(t, w)) && Reached(ab, Goal(u, a))
    requires Reached(b, Goal(u, w)) && Reached(ba, Goal(t, b))
    ensures Same(ab, ba)
  {
    forall k ensures At(ba, k) == At(ab, k) {
      assert At(ab, k) == Goal(u, a)(k) && At(ba, k) == Goal(t, b)(k);
      GoalUndisturbed(u, t, w, a, k);
      GoalUndisturbed(t, u, w, b, k);
      OneOwner(t, u, w, k);
    }
  }

  // ----- Runs -----

  /** What can happen between two observations: a reconciliation, complete or interrupted, the
      deletion of some named workloads, complete or interrupted, progress reported on an object,
      or somebody deleting an object. */
  datatype Step =
    | Reconcile(target: Target, complete: bool)
    | CleanUp(keys: set<Key>, complete: bool)
    | Report(key: Key, progress: Progress)
    | Remove(key: Key)

  function Reported(w: World, k: Key, p: Progress): Slot {
    match At(w, k).current
    case Some(o) => At(w, k).(current := Some(o.(progress := p)))
    case None => At(w, k)
  }

  ghost predicate StepLeads(w: World, step: Step, w': World) {
    match step
    case Reconcile(t, true) => t.Valid() && Reached(w', Goal(t, w))
    case Reconcile(t, false) => t.Valid() && Between(w, w', Goal(t, w))
    case CleanUp(keys, true) => Reached(w', Removed(keys, w))
    case CleanUp(keys, false) => Between(w, w', Removed(keys, w))
    case Report(k, p) => Replaced(w, w', k, Reported(w, k, p))
    case Remove(k) => Replaced(w, w', k, DeletedSlot(At(w, k)))
  }

  ghost predicate IsRun(ws: seq<World>, steps: seq<Step>) {
    |ws| == |steps| + 1 && forall i :: 0 <= i < |steps| ==> StepLeads(ws[i], steps[i], ws[i + 1])
  }

  /** Any session may be reconciled and cleaned up in a run that watches the probe of one; but
      the watched session keeps its generation and is not cleaned up. */
  ghost predicate Spares(t: Target, step: Step) {
    match step
    case Reconcile(u, _) => u == t || (u.job != t.job && u.sessionLabel != t.sessionLabel)
    case CleanUp(keys, _) => t.job !in keys
    case _ => true
  }

  predicate Deletes(t: Target, w: World, step: Step) {
    step.Remove? && step.key == t.job && Exists(w, t.job)
  }

  function Presence(w: World, k: Key): nat {
    if Exists(w, k) then 1 else 0
  }

  /** One step of a run, seen at the Job of a probe: only an explicit deletion takes the Job away,
      only an absent Job is created, and the operator leaves a Job alone once it is there. */
  lemma ProbeStep(t: Target, w: World, step: Step, w': World)
    requires t.Valid() && t.probe && Labelled(t, w) && StepLeads(w, step, w') && Spares(t, step)
    ensures Labelled(t, w')
    ensures At(w', t.job).created + Presence(w, t.job) ==
            At(w, t.job).created + Presence(w', t.job) + (if Deletes(t, w, step) then 1 else 0)
    ensures (step.Reconcile? || step.CleanUp?) && Exists(w, t.job) ==> At(w', t.job) == At(w, t.job)
  {
    match step
    case Reconcile(u, _) =>
      assert At(w', t.job) == At(w, t.job) || At(w', t.job) == Goal(u, w)(t.job);
    case CleanUp(keys, _) =>
      assert At(w', t.job) == At(w, t.job) || At(w', t.job) == Removed(keys, w)(t.job);
    case Report(k, p) =>
    case Remove(k) =>
  }

  function Deletions(t: Target, ws: seq<World>, steps: seq<Step>): nat
    requires |ws| == |steps| + 1
  {
    if steps == [] then 0
    else (if Deletes(t, ws[0], steps[0]) then 1 else 0) + Deletions(t, ws[1..], steps[1..])
  }

  lemma RunTail(ws: seq<World>, steps: seq<Step>)
    requires IsRun(ws, steps) && steps != []
    ensures IsRun(ws[1..], steps[1..])
  {
  }

  /** In every run, the Jobs created for a probe of one generation are exactly those explicitly
      deleted plus the one that is there at the end, less the one that was there at the start. */
  lemma {:induction false} OneShotProbe(t: Target, ws: seq<World>, steps: seq<Step>)
    requires t.Valid() && t.probe && IsRun(ws, steps) && Labelled(t, ws[0])
    requires forall i :: 0 <= i < |steps| ==> Spares(t, steps[i])
    ensures Labelled(t, ws[|steps|])
    ensures At(ws[|steps|], t.job).created + Presence(ws[0], t.job) ==
            At(ws[0], t.job).created + Presence(ws[|steps|], t.job) + Deletions(t, ws, steps)
    ensures At(ws[|steps|], t.job).created - At(ws[0], t.job).created <= Deletions(t, ws, steps) + 1
  {
    if steps != [] {
      assert StepLeads(ws[0], steps[0], ws[1]);
      ProbeStep(t, ws[0], steps[0], ws[1]);
      RunTail(ws, steps);
      OneShotProbe(t, ws[1..], steps[1..]);
    }
  }

  ghost predicate JobIsDesigned(t: Target, w: World) {
    Exists(w, t.job) ==> Holds(At(w, t.job), t.jobManifest)
  }

  /** In every run the Job of a probe is as the session designs it, if it was so at the start or
      not there. */
  lemma {:induction false} JobStaysDesigned(t: Target, ws: seq<World>, steps: seq<Step>)
    requires t.Valid() && t.probe && IsRun(ws, steps) && Labelled(t, ws[0]) && JobIsDesigned(t, ws[0])
    requires forall i :: 0 <= i < |steps| ==> Spares(t, steps[i])
    ensures JobIsDesigned(t, ws[|steps|])
  {
    if steps != [] {
      assert StepLeads(ws[0], steps[0], ws[1]);
      ProbeStep(t, ws[0], steps[0], ws[1]);
      JobStepStaysDesigned(t, ws[0], steps[0], ws[1]);
      RunTail(ws, steps);
      JobStaysDesigned(t, ws[1..], steps[1..]);
    }
  }

  lemma JobStepStaysDesigned(t: Target, w: World, step: Step, w': World)
    requires t.Valid() && t.probe && Labelled(t, w) && JobIsDesigned(t, w) && StepLeads(w, step, w') && Spares(t, step)
    ensures JobIsDesigned(t, w')
  {
    match step
    case Reconcile(u, _) =>
      assert At(w', t.job) == At(w, t.job) || At(w', t.job) == Goal(u, w)(t.job);
    case CleanUp(keys, _) =>
      assert At(w', t.job) == At(w, t.job) || At(w', t.job) == Removed(keys, w)(t.job);
    case Report(k, p) =>
    case Remove(k) =>
  }

  // ----- Counted probes -----

  /** Every object is an incarnation that was created, and everything counted so far existed. */
  ghost predicate CountedExisted(w: World, counted: set<(Key, nat)>) {
    && (forall k :: Exists(w, k) ==> At(w, k).current.value.uid < At(w, k).created)
    && (forall c :: c in counted ==> c.1 < At(w, c.0).created)
  }

  lemma SlotOnlyGrows(t: Target, w: World, k: Key)
    requires Exists(w, k) ==> At(w, k).current.value.uid < At(w, k).created
    ensures At(w, k).created <= GoalSlot(t, w, k).created
    ensures GoalSlot(t, w, k).current.Some? ==> GoalSlot(t, w, k).current.value.uid < GoalSlot(t, w, k).created
  {
  }

  /** Steps keep it that way, and so does counting an object that exists. */
  lemma CountedStillExisted(w: World, step: Step, w': World, counted: set<(Key, nat)>)
    requires CountedExisted(w, counted) && StepLeads(w, step, w')
    ensures CountedExisted(w', counted)
    ensures forall k :: Exists(w', k) ==> CountedExisted(w', counted + {(k, At(w', k).current.value.uid)})
  {
    forall k
      ensures At(w, k).created <= At(w', k).created
      ensures Exists(w', k) ==> At(w', k).current.value.uid < At(w', k).created
    {
      match step
      case Reconcile(t, _) =>
        SlotOnlyGrows(t, w, k);
        assert At(w', k) == At(w, k) || At(w', k) == Goal(t, w)(k);
      case CleanUp(keys, _) =>
        assert At(w', k) == At(w, k) || At(w', k) == Removed(keys, w)(k);
      case Report(j, p) =>
      case Remove(j) =>
    }
  }

  function CountedAt(counted: set<(Key, nat)>, k: Key): set<nat> {
    set c | c in counted && c.0 == k :: c.1
  }

  lemma {:induction false} BelowBound(s: set<nat>, n: nat)
    requires forall i :: i in s ==> i < n
    ensures |s| <= n
  {
    if n == 0 {
      assert s == {};
    } else {
      BelowBound(s - {n - 1}, n - 1);
    }
  }

  /** No Job is counted more often than it was created. */
  lemma CountedAtMostCreated(w: World, counted: set<(Key, nat)>, k: Key)
    requires CountedExisted(w, counted)
    ensures |CountedAt(counted, k)| <= At(w, k).created
  {
    BelowBound(CountedAt(counted, k), At(w, k).created);
  }

  /** What is counted after a step was counted before it or is an object seen after it. */
  ghost predicate Seen(before: set<(Key, nat)>, w: World, after: set<(Key, nat)>) {
    forall c :: c in after ==> c in before || (Exists(w, c.0) && c.1 == At(w, c.0).current.value.uid)
  }

  ghost predicate CountsSeen(ws: seq<World>, counts: seq<set<(Key, nat)>>) {
    |counts| == |ws| && forall i :: 0 <= i < |ws| - 1 ==> Seen(counts[i], ws[i + 1], counts[i + 1])
  }

  lemma {:induction false} CountedInRuns(ws: seq<World>, steps: seq<Step>, counts: seq<set<(Key, nat)>>)
    requires IsRun(ws, steps) && CountsSeen(ws, counts) && CountedExisted(ws[0], counts[0])
    ensures CountedExisted(ws[|steps|], counts[|steps|])
  {
    if steps != [] {
      assert StepLeads(ws[0], steps[0], ws[1]) && Seen(counts[0], ws[1], counts[1]);
      CountedStillExisted(ws[0], steps[0], ws[1], counts[0]);
      RunTail(ws, steps);
      CountsTail(ws, counts);
      CountedInRuns(ws[1..], steps[1..], counts[1..]);
    }
  }

  lemma CountsTail(ws: seq<World>, counts: seq<set<(Key, nat)>>)
    requires CountsSeen(ws, counts) && |ws| > 1
    ensures CountsSeen(ws[1..], counts[1..])
  {
  }

  /** In every run that starts without the probe's Job, the outcomes counted for that Job are at
      most one more than the explicit deletions. */
  lemma ProbesCountedOnce(t: Target, ws: seq<World>, steps: seq<Step>, counts: seq<set<(Key, nat)>>)
    requires t.Valid() && t.probe && IsRun(ws, steps) && CountsSeen(ws, counts)
    requires CountedExisted(ws[0], counts[0]) && At(ws[0], t.job) == Slot(None, 0)
    requires forall i :: 0 <= i < |steps| ==> Spares(t, steps[i])
    ensures |CountedAt(counts[|steps|], t.job)| <= Deletions(t, ws, steps) + 1
  {
    OneShotProbe(t, ws, steps);
    CountedInRuns(ws, steps, counts);
    CountedAtMostCreated(ws[|steps|], counts[|steps|], t.job);
  }

  // ----- Clean-up -----

  lemma RemovedStable(keys: set<Key>, w: World, w1: World, k: Key)
    requires Between(w, w1, Removed(keys, w))
    ensures Removed(keys, w1)(k) == Removed(keys, w)(k)
  {
  }

  ghost predicate FailedCleanUps(keys: set<Key>, ws: seq<World>) {
    forall i :: 0 <= i < |ws| - 1 ==> Between(ws[i], ws[i + 1], Removed(keys, ws[i]))
  }

  /** However many attempts to clean up fail and wherever, the first that succeeds leaves none of
      the named workloads and has touched nothing else. */
  lemma {:induction false} CleanUpCompletes(keys: set<Key>, ws: seq<World>, w': World)
    requires ws != [] && FailedCleanUps(keys, ws) && Reached(w', Removed(keys, ws[|ws| - 1]))
    ensures Reached(w', Removed(keys, ws[0]))
    ensures forall k :: if k in keys then !Exists(w', k) else At(w', k) == At(ws[0], k)
  {
    if |ws| > 1 {
      var last := ws[|ws| - 2];
      assert Between(last, ws[|ws| - 1], Removed(keys, last));
      forall k ensures At(w', k) == Removed(keys, last)(k) {
        RemovedStable(keys, last, ws[|ws| - 1], k);
        assert At(w', k) == Removed(keys, ws[|ws| - 1])(k);
      }
      CleanUpCompletes(keys, ws[..|ws| - 1], w');
    }
    forall k ensures if k in keys then !Exists(w', k) else At(w', k) == At(ws[0], k) {
      assert At(w', k) == Removed(keys, ws[0])(k);
    }
  }

  /** No attempt, failed or not, touches anything but the workloads to clean. */
  lemma {:induction false} CleanUpTouchesOnlyItsKeys(keys: set<Key>, ws: seq<World>, i: nat)
    requires i < |ws| && FailedCleanUps(keys, ws)
    ensures forall k :: k !in keys ==> At(ws[i], k) == At(ws[0], k)
  {
    if i > 0 {
      CleanUpTouchesOnlyItsKeys(keys, ws, i - 1);
      assert Between(ws[i - 1], ws[i], Removed(keys, ws[i - 1]));
    }
  }

  /** The named workloads of another session, and every Job under its label. */
  ghost predicate Owns(u: Target, w: World, k: Key) {
    k in TargetKeys(u) || u.IsSessionJob(w, k)
  }

  lemma KeysApart(t: Target, u: Target, w: World, k: Key)
    requires t.Valid() && u.Valid() && Apart(t, u) && Labelled(t, w) && Owns(u, w, k)
    ensures k !in TargetKeys(t)
  {
  }

  /** While a session is cleaned up, at every failed attempt and at the first successful one,
      whatever belongs to a session apart is as it was. */
  lemma CleanUpSparesOthers(t: Target, u: Target, ws: seq<World>, w': World)
    requires t.Valid() && u.Valid() && Apart(t, u) && ws != [] && Labelled(t, ws[0])
    requires FailedCleanUps(TargetKeys(t), ws) && Reached(w', Removed(TargetKeys(t), ws[|ws| - 1]))
    ensures forall k, i | Owns(u, ws[0], k) && 0 <= i < |ws| :: At(ws[i], k) == At(ws[0], k)
    ensures forall k | Owns(u, ws[0], k) :: At(w', k) == At(ws[0], k)
  {
    CleanUpCompletes(TargetKeys(t), ws, w');
    forall k | Owns(u, ws[0], k) ensures k !in TargetKeys(t) {
      KeysApart(t, u, ws[0], k);
    }
    forall k, i | Owns(u, ws[0], k) && 0 <= i < |ws| ensures At(ws[i], k) == At(ws[0], k) {
      CleanUpTouchesOnlyItsKeys(TargetKeys(t), ws, i);
    }
  }

  /** After a clean-up, a Job of the session survives exactly if it was not the Job of the
      generation the clean-up was called with. */
  lemma CleanUpLeavesOtherGenerations(t: Target, w: World, w': World)
    requires t.Valid() && Reached(w', Removed(TargetKeys(t), w))
    ensures (exists k :: t.IsSessionJob(w', k)) <==> (exists k :: k != t.job && t.IsSessionJob(w, k))
  {
    forall k ensures t.IsSessionJob(w', k) <==> k != t.job && t.IsSessionJob(w, k) {
      assert At(w', k) == Removed(TargetKeys(t), w)(k);
    }
  }

  /** Cleaning up the generation last reconciled leaves nothing of the session. */
  lemma CleanUpAfterReconciliation(t: Target, w: World, w1: World, w2: World)
    requires t.Valid() && Reached(w1, Goal(t, w)) && Reached(w2, Removed(TargetKeys(t), w1))
    ensures forall k :: !t.IsSessionJob(w2, k)
    ensures forall k :: k in TargetKeys(t) ==> !Exists(w2, k)
  {
    ReconciliationConverges(t, w, w1);
    forall k ensures !t.IsSessionJob(w2, k) && (k in TargetKeys(t) ==> !Exists(w2, k)) {
      assert At(w2, k) == Removed(TargetKeys(t), w1)(k);
    }
  }
}
