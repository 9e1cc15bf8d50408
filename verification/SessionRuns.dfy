/** What the protocol guarantees of the sessions the operator makes: they may be reconciled in
    either order, their probes run once, and their clean-up leaves the others alone. */
module SessionRuns {
  import opened Wrappers
  import opened Names
  import opened SessionNames
  import opened Sessions
  import opened Manifests
  import opened Kubernetes
  import opened OperatorMetrics
  import opened SessionTarget
  import opened SessionController
  import opened SessionProtocol
  import opened SessionDesigns

  // ----- Sessions of expansions -----

  /** A session the operator expanded; the API server has assigned its generation since. */
  ghost predicate IsStored(digest: Digest, p: Plan, s: Session) {
    p.measurement != "" && IsExpanded(digest, p, s.(generation := None))
  }

  /** The text behind the label of a session. */
  function LabelText(s: SessionSpec): string {
    Raw([SessionNames.SessionId(s.measurement, s.networkMode, s.direction)])
  }

  predicate LabelsSeparated(digest: Digest, s: SessionSpec, s': SessionSpec) {
    NoCollision(digest, LabelText(s), LabelText(s'))
  }

  lemma StoredMeasurement(digest: Digest, p: Plan, s: Session)
    requires IsStored(digest, p, s)
    ensures s.spec.measurement == p.measurement
  {
  }

  /** Two sessions of any expansions are told apart as soon as their names differ. */
  lemma StoredAreDistinguished(digest: Digest, p: Plan, s: Session, p': Plan, s': Session)
    requires IsStored(digest, p, s) && IsStored(digest, p', s') && s.name != s'.name
    requires LabelsSeparated(digest, s.spec, s'.spec) && Separated(digest, s, s')
    ensures Distinguished(digest, s, s')
  {
    StoredMeasurement(digest, p, s);
    StoredMeasurement(digest, p', s');
    ExpandedSessionsApart(digest, p, s.(generation := None), p', s'.(generation := None));
  }

  /** The operator designs these sessions by its naming scheme. */
  predicate DesignsBoth(op: Operator, s: Session, s': Session) {
    op.design(s) == DesignOf(op.digest, s) && op.design(s') == DesignOf(op.digest, s')
  }

  /** Any two sessions of any expansions may be reconciled in either order, wherever their
      clusters are. */
  lemma ExpandedSessionsCommute(op: Operator, p: Plan, s: Session, p': Plan, s': Session, t: Target, t': Target,
                                w: World, a: World, ab: World, b: World, ba: World)
    requires DesignsBoth(op, s, s') && IsStored(op.digest, p, s) && IsStored(op.digest, p', s') && s.name != s'.name
    requires LabelsSeparated(op.digest, s.spec, s'.spec) && Separated(op.digest, s, s')
    requires TargetFor(op, s) == Some(t) && TargetFor(op, s') == Some(t')
    requires Labelled(t, w) && Labelled(t', w)
    requires Reached(a, Goal(t, w)) && Reached(ab, Goal(t', a))
    requires Reached(b, Goal(t', w)) && Reached(ba, Goal(t, b))
    ensures Same(ab, ba)
  {
    StoredAreDistinguished(op.digest, p, s, p', s');
    DistinctSessionsCommute(op, op.digest, s, s', t, t', w, a, ab, b, ba);
  }

  // ----- Probes -----

  /** Another session, told apart from this one. */
  ghost predicate IsOther(op: Operator, s: Session, s': Session) {
    DesignsBoth(op, s, s') && Distinguished(op.digest, s, s')
  }

  /** A step of this session in its generation, of other sessions, or of the environment. */
  ghost predicate IsStepAround(op: Operator, s: Session, t: Target, step: Step) {
    match step
    case Reconcile(u, _) => u == t || exists s' :: IsOther(op, s, s') && TargetFor(op, s') == Some(u)
    case CleanUp(keys, _) => exists s' :: IsOther(op, s, s') && keys == CleanKeys(op, s')
    case _ => true
  }

  lemma CleanJobs(op: Operator, s: Session, d: Design, k: Key)
    requires d == op.design(s) && k in CleanKeys(op, s) && k.kind == JobKind
    ensures k.name == d.jobName
  {
  }

  lemma TargetJob(op: Operator, s: Session, d: Design, t: Target)
    requires d == op.design(s) && TargetFor(op, s) == Some(t)
    ensures t.job.kind == JobKind && t.job.name == d.jobName
  {
  }

  lemma DesignsSpare(op: Operator, s: Session, s': Session, d: Design, d': Design, t: Target)
    requires d == op.design(s) && d' == op.design(s') && d.jobName != d'.jobName && TargetFor(op, s) == Some(t)
    ensures t.job !in CleanKeys(op, s')
  {
    TargetJob(op, s, d, t);
    if t.job in CleanKeys(op, s') { CleanJobs(op, s', d', t.job); }
  }

  /** Cleaning up another session spares the Job of this one, whichever clusters are known. */
  lemma CleanUpSpares(op: Operator, s: Session, s': Session, t: Target, complete: bool)
    requires IsOther(op, s, s') && TargetFor(op, s) == Some(t)
    ensures Spares(t, CleanUp(CleanKeys(op, s'), complete))
  {
    DesignsApart(op.digest, s, s');
    DesignsSpare(op, s, s', op.design(s), op.design(s'), t);
  }

  /** So does reconciling it. */
  lemma ReconcileSpares(op: Operator, s: Session, s': Session, t: Target, u: Target, complete: bool)
    requires IsOther(op, s, s') && TargetFor(op, s) == Some(t) && TargetFor(op, s') == Some(u)
    ensures Spares(t, Reconcile(u, complete))
  {
    SessionsApart(op, op.digest, s, s');
  }

  /** In every run of such steps the Job of a session's probe is created at most once more than
      it was explicitly deleted. */
  lemma SessionProbeRunsOnce(op: Operator, s: Session, t: Target, ws: seq<World>, steps: seq<Step>)
    requires op.design(s) == DesignOf(op.digest, s) && TargetFor(op, s) == Some(t)
    requires s.name != "" && SessionKey in s.labels && RolesSeparated(op.digest, s.name, s.name)
    requires t.probe && IsRun(ws, steps) && Labelled(t, ws[0])
    requires forall i :: 0 <= i < |steps| ==> IsStepAround(op, s, t, steps[i])
    ensures At(ws[|steps|], t.job).created - At(ws[0], t.job).created <= Deletions(t, ws, steps) + 1
  {
    forall i | 0 <= i < |steps| ensures Spares(t, steps[i]) {
      StepSpares(op, s, t, steps[i]);
    }
    DesignIsSound(op.digest, s);
    TargetIsValid(op, SiteOf(op, s).value, s);
    OneShotProbe(t, ws, steps);
  }

  lemma StepSpares(op: Operator, s: Session, t: Target, step: Step)
    requires TargetFor(op, s) == Some(t) && IsStepAround(op, s, t, step)
    ensures Spares(t, step)
  {
    match step
    case Reconcile(u, complete) =>
      if u != t {
        var s' :| IsOther(op, s, s') && TargetFor(op, s') == Some(u);
        ReconcileSpares(op, s, s', t, u, complete);
      }
    case CleanUp(keys, complete) =>
      var s' :| IsOther(op, s, s') && keys == CleanKeys(op, s');
      CleanUpSpares(op, s, s', t, complete);
    case _ =>
  }

  // ----- Clean-up -----

  /** Attempts to delete a session that failed, one after another. */
  ghost predicate FailedDeletions(op: Operator, s: Session, ds: seq<DeletionState>) {
    forall i :: 0 <= i < |ds| - 1 ==> DeletionLeads(op, s, ds[i], ds[i + 1], false)
  }

  function Worlds(ds: seq<DeletionState>): (ws: seq<World>)
    ensures |ws| == |ds| && forall i :: 0 <= i < |ds| ==> ws[i] == ds[i].world
  {
    seq(|ds|, i requires 0 <= i < |ds| => ds[i].world)
  }

  lemma FailedDeletionsAreCleanUps(op: Operator, s: Session, ds: seq<DeletionState>)
    requires FailedDeletions(op, s, ds)
    ensures FailedCleanUps(CleanKeys(op, s), Worlds(ds))
  {
    forall i | 0 <= i < |ds| - 1
      ensures Between(Worlds(ds)[i], Worlds(ds)[i + 1], Removed(CleanKeys(op, s), Worlds(ds)[i]))
    {
      assert DeletionLeads(op, s, ds[i], ds[i + 1], false);
    }
  }

  lemma {:induction false} PendingThroughout(op: Operator, s: Session, ds: seq<DeletionState>, i: nat)
    requires FailedDeletions(op, s, ds) && i < |ds|
    ensures ds[i].pending == if i == 0 then ds[0].pending else ds[0].pending + {(s.namespace, s.name)}
  {
    if i > 0 {
      PendingThroughout(op, s, ds, i - 1);
      assert DeletionLeads(op, s, ds[i - 1], ds[i], false);
      AttemptMarks(ds[i - 1].pending, (s.namespace, s.name));
    }
  }

  /** However many attempts to delete a session fail and wherever, the session is pending from the
      first on until one succeeds; that one leaves none of its named workloads. */
  lemma DeletionCompletes(op: Operator, s: Session, ds: seq<DeletionState>, d: DeletionState)
    requires ds != [] && FailedDeletions(op, s, ds) && DeletionLeads(op, s, ds[|ds| - 1], d, true)
    ensures var id := (s.namespace, s.name);
      && (forall i :: 0 < i < |ds| ==> ds[i].pending == ds[0].pending + {id})
      && d.pending == ds[0].pending - {id}
    ensures forall k :: if k in CleanKeys(op, s) then !Exists(d.world, k) else At(d.world, k) == At(ds[0].world, k)
  {
    forall i | 0 < i < |ds| ensures ds[i].pending == ds[0].pending + {(s.namespace, s.name)} {
      PendingThroughout(op, s, ds, i);
    }
    PendingThroughout(op, s, ds, |ds| - 1);
    AttemptMarks(ds[|ds| - 1].pending, (s.namespace, s.name));
    FailedDeletionsAreCleanUps(op, s, ds);
    CleanUpCompletes(CleanKeys(op, s), Worlds(ds), d.world);
  }

  /** Meanwhile, whatever belongs to another session is as it was, after every attempt. */
  lemma DeletionSparesOthers(op: Operator, s: Session, s': Session, t: Target, t': Target, ds: seq<DeletionState>,
                             d: DeletionState)
    requires IsOther(op, s, s') && TargetFor(op, s) == Some(t) && TargetFor(op, s') == Some(t')
    requires ds != [] && FailedDeletions(op, s, ds) && DeletionLeads(op, s, ds[|ds| - 1], d, true)
    requires Labelled(t, ds[0].world)
    ensures forall k | Owns(t', ds[0].world, k) :: At(d.world, k) == At(ds[0].world, k)
    ensures forall k, i | Owns(t', ds[0].world, k) && 0 <= i < |ds| :: At(ds[i].world, k) == At(ds[0].world, k)
  {
    SessionsApart(op, op.digest, s, s');
    CleanKeysAreTargetKeys(op, s);
    FailedDeletionsAreCleanUps(op, s, ds);
    CleanUpSparesOthers(t, t', Worlds(ds), d.world);
    forall k, i | Owns(t', ds[0].world, k) && 0 <= i < |ds| ensures At(ds[i].world, k) == At(ds[0].world, k) {
      assert At(Worlds(ds)[i], k) == At(Worlds(ds)[0], k);
    }
  }
}
