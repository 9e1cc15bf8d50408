/** The operator's own metrics: gauges recomputed from the tracked resources, finalizers still
    pending, and probe runs counted once for each Job. */
module OperatorMetrics {
  import opened Wrappers
  import opened Sums

  datatype ResourceId = ResourceId(kind: string, namespace: string, name: string)

  /** The tracked resources of a kind that are in one of the given phases. */
  function InPhases(m: map<ResourceId, string>, kind: string, phases: set<string>): set<ResourceId> {
    set id | id in m && id.kind == kind && m[id] in phases
  }

  function OfKind(m: map<ResourceId, string>, kind: string): set<ResourceId> {
    set id | id in m && id.kind == kind
  }

  /** Gauges that agree with the tracked resources on some phases of a kind sum to the number of
      resources in those phases. */
  lemma {:induction false} GaugesSum(m: map<ResourceId, string>, kind: string, phases: set<string>,
                                     gauges: map<string, nat>)
    requires forall p :: p in phases ==> p in gauges && gauges[p] == PhaseCount(m, kind, p)
    ensures Sum(phases, gauges) == |InPhases(m, kind, phases)|
  {
    if phases == {} {
      assert InPhases(m, kind, phases) == {};
    } else {
      var p :| p in phases;
      SumSplit(phases, gauges, p);
      GaugesSum(m, kind, phases - {p}, gauges);
      assert InPhases(m, kind, phases) == InPhases(m, kind, {p}) + InPhases(m, kind, phases - {p});
    }
  }

  function PhaseCount(m: map<ResourceId, string>, kind: string, phase: string): nat {
    |InPhases(m, kind, {phase})|
  }

  /** The gauges of a kind cover its known phases, which cover its resources, and count them. */
  ghost predicate GaugesAgree(m: map<ResourceId, string>, kind: string, known: set<string>, gauges: map<string, nat>) {
    && gauges.Keys == known
    && (forall phase :: phase in known ==> gauges[phase] == PhaseCount(m, kind, phase))
    && PhasesKnown(m, kind, known)
  }

  ghost predicate PhasesKnown(m: map<ResourceId, string>, kind: string, known: set<string>) {
    forall id :: id in m && id.kind == kind ==> m[id] in known
  }

  function AddPhase(known: map<string, set<string>>, kind: string, phase: string): map<string, set<string>> {
    known[kind := (if kind in known then known[kind] else {}) + {phase}]
  }

  lemma KnownAfterSet(t: ResourceTables, id: ResourceId, phase: string)
    requires TablesAgree(t)
    ensures PhasesKnown(t.phases[id := phase], id.kind, AddPhase(t.known, id.kind, phase)[id.kind])
    ensures SameOtherKinds(t.phases, t.phases[id := phase], id.kind)
  {
  }

  lemma KnownAfterRemove(t: ResourceTables, id: ResourceId)
    requires TablesAgree(t)
    ensures SameOtherKinds(t.phases, t.phases - {id}, id.kind)
    ensures if id.kind in t.known then PhasesKnown(t.phases - {id}, id.kind, t.known[id.kind])
            else t.phases - {id} == t.phases
  {
  }

  /** The phase of every tracked resource, the phases ever seen of each kind, and the gauges. */
  datatype ResourceTables = ResourceTables(
    phases: map<ResourceId, string>, known: map<string, set<string>>, gauges: map<string, map<string, nat>>)

  ghost predicate TablesAgree(t: ResourceTables) {
    && t.gauges.Keys == t.known.Keys
    && (forall id :: id in t.phases ==> id.kind in t.known)
    && (forall kind :: kind in t.known ==> GaugesAgree(t.phases, kind, t.known[kind], t.gauges[kind]))
  }

  /** The two tables track the same resources, except of one kind. */
  ghost predicate SameOtherKinds(m: map<ResourceId, string>, m': map<ResourceId, string>, kind: string) {
    forall id: ResourceId | id.kind != kind :: (id in m <==> id in m') && (id in m ==> m'[id] == m[id])
  }

  lemma OtherKindAgrees(m: map<ResourceId, string>, m': map<ResourceId, string>, changed: string,
                        kind: string, known: set<string>, gauges: map<string, nat>)
    requires SameOtherKinds(m, m', changed) && kind != changed && GaugesAgree(m, kind, known, gauges)
    ensures GaugesAgree(m', kind, known, gauges)
  {
    forall phase | phase in known
      ensures PhaseCount(m', kind, phase) == PhaseCount(m, kind, phase)
    {
      assert InPhases(m', kind, {phase}) == InPhases(m, kind, {phase});
    }
  }

  lemma TablesStillAgree(t: ResourceTables, t': ResourceTables, kind: string)
    requires TablesAgree(t) && SameOtherKinds(t.phases, t'.phases, kind)
    requires kind in t'.known && t'.known == t.known[kind := t'.known[kind]]
    requires kind in t'.gauges && t'.gauges == t.gauges[kind := t'.gauges[kind]]
    requires GaugesAgree(t'.phases, kind, t'.known[kind], t'.gauges[kind])
    ensures TablesAgree(t')
  {
    forall k | k in t.known && k != kind
      ensures GaugesAgree(t'.phases, k, t.known[k], t.gauges[k])
    {
      OtherKindAgrees(t.phases, t'.phases, kind, k, t.known[k], t.gauges[k]);
    }
  }

  /** A resource's clean-up is attempted, or has succeeded. */
  datatype Mark = Pending(id: (string, string)) | Complete(id: (string, string))

  function Marked(pending: set<(string, string)>, m: Mark): set<(string, string)> {
    match m case Pending(id) => pending + {id} case Complete(id) => pending - {id}
  }

  function MarkedOver(pending: set<(string, string)>, ms: seq<Mark>): set<(string, string)> {
    if ms == [] then pending else Marked(MarkedOver(pending, ms[..|ms| - 1]), ms[|ms| - 1])
  }

  /** The last mark of a resource says that its clean-up was attempted. */
  ghost predicate LastIsPending(ms: seq<Mark>, id: (string, string)) {
    exists i :: 0 <= i < |ms| && ms[i] == Pending(id) && forall j :: i < j < |ms| ==> ms[j].id != id
  }

  /** However the clean-ups of resources interleave, one is pending exactly from its first attempt
      until its success. */
  lemma {:induction false} PendingUntilComplete(ms: seq<Mark>, id: (string, string))
    ensures id in MarkedOver({}, ms) <==> LastIsPending(ms, id)
  {
    if ms != [] {
      var front, last := ms[..|ms| - 1], ms[|ms| - 1];
      PendingUntilComplete(front, id);
      if last.id == id {
        assert LastIsPending(ms, id) <==> last == Pending(id);
      } else {
        LastOfOthers(front, last, id);
        assert ms == front + [last];
      }
    }
  }

  lemma LastOfOthers(ms: seq<Mark>, m: Mark, id: (string, string))
    requires m.id != id
    ensures LastIsPending(ms + [m], id) <==> LastIsPending(ms, id)
  {
    var all := ms + [m];
    assert ms == all[..|ms|];
    if LastIsPending(ms, id) {
      var i :| 0 <= i < |ms| && ms[i] == Pending(id) && forall j :: i < j < |ms| ==> ms[j].id != id;
      assert all[i] == Pending(id);
    }
    if LastIsPending(all, id) {
      var i :| 0 <= i < |all| && all[i] == Pending(id) && forall j :: i < j < |all| ==> all[j].id != id;
      assert ms[i] == Pending(id);
    }
  }

  /** Resources whose finalizer is pending, and the gauge of their number. */
  datatype Finalizers = Finalizers(pending: set<(string, string)>, gauge: nat)

  /** What is known of finished probes. */
  datatype ProbeTable<Uid> = ProbeTable(observed: set<Uid>, runs: map<string, nat>, durations: map<string, seq<int>>)

  /** Probe outcomes carry the incarnation of the Job they come from; a Job without an identity
      is not counted. */
  class Metrics<Uid(==, !new)> {
    var tables: ResourceTables
    var finalizers: Finalizers
    var probes: ProbeTable<Uid>
    var remoteCleanupFailures: map<string, nat>

    ghost predicate ValidResources()
      reads `tables
    {
      TablesAgree(tables)
    }

    ghost predicate ValidFinalizers()
      reads `finalizers
    {
      finalizers.gauge == |finalizers.pending|
    }

    ghost predicate ValidProbes()
      reads `probes
    {
      Sum(probes.runs.Keys, probes.runs) == |probes.observed|
    }

    /** The gauges and counters agree with the collections behind them. */
    ghost predicate Valid()
      reads this
    {
      ValidResources() && ValidFinalizers() && ValidProbes()
    }

    constructor ()
      ensures Valid() && tables.phases == map[] && finalizers.pending == {} && probes.observed == {}
    {
      tables := ResourceTables(map[], map[], map[]);
      finalizers := Finalizers({}, 0);
      probes := ProbeTable({}, map[], map[]);
      remoteCleanupFailures := map[];
    }

    method SetResourcePhase(kind: string, namespace: string, name: string, phase: string)
      requires ValidResources()
      modifies `tables
      ensures ValidResources()
      ensures var id, normalized := ResourceId(kind, namespace, name), if phase == "" then "Unknown" else phase;
        tables.phases == old(tables.phases)[id := normalized] &&
            tables.known == AddPhase(old(tables.known), kind, normalized)
    {
      var id := ResourceId(kind, namespace, name);
      var normalized := if phase == "" then "Unknown" else phase;
      KnownAfterSet(tables, id, normalized);
      tables := tables.(phases := tables.phases[id := normalized]);
      tables := tables.(known := AddPhase(tables.known, kind, normalized));
      UpdateResourceGauges(kind);
      TablesStillAgree(old(tables), tables, kind);
    }

    method RemoveResource(kind: string, namespace: string, name: string)
      requires ValidResources()
      modifies `tables
      ensures ValidResources()
      ensures tables.phases == old(tables.phases) - {ResourceId(kind, namespace, name)} &&
              tables.known == old(tables.known)
    {
      KnownAfterRemove(tables, ResourceId(kind, namespace, name));
      tables := tables.(phases := tables.phases - {ResourceId(kind, namespace, name)});
      if kind in tables.known {
        UpdateResourceGauges(kind);
        TablesStillAgree(old(tables), tables, kind);
      }
    }

    /** Recompute the gauges of one kind: count the phases, then set every known phase. */
    method UpdateResourceGauges(kind: string)
      requires kind in tables.known && PhasesKnown(tables.phases, kind, tables.known[kind])
      modifies `tables
      ensures kind in tables.gauges && tables == old(tables).(gauges := old(tables.gauges)[kind := tables.gauges[kind]])
      ensures GaugesAgree(tables.phases, kind, tables.known[kind], tables.gauges[kind])
    {
      var counts := CountPhases(tables.phases, kind);
      var known := tables.known[kind];
      tables := tables.(gauges := tables.gauges[kind := map phase | phase in known :: Count(counts, phase)]);
    }

    method MarkFinalizerPending(namespace: string, name: string)
      requires ValidFinalizers()
      modifies `finalizers
      ensures ValidFinalizers() && finalizers.pending == Marked(old(finalizers.pending), Pending((namespace, name)))
    {
      finalizers := finalizers.(pending := finalizers.pending + {(namespace, name)});
      finalizers := finalizers.(gauge := |finalizers.pending|);
    }

    method MarkFinalizerComplete(namespace: string, name: string)
      requires ValidFinalizers()
      modifies `finalizers
      ensures ValidFinalizers() && finalizers.pending == Marked(old(finalizers.pending), Complete((namespace, name)))
    {
      finalizers := finalizers.(pending := finalizers.pending - {(namespace, name)});
      finalizers := finalizers.(gauge := |finalizers.pending|);
    }

    method RecordRemoteCleanupFailure(cluster: string)
      modifies `remoteCleanupFailures
      ensures remoteCleanupFailures == Incremented(old(remoteCleanupFailures), cluster)
    {
      remoteCleanupFailures := Incremented(remoteCleanupFailures, cluster);
    }

    /** Whether an outcome with this identity would be counted. */
    predicate IsNewProbe(uid: Option<Uid>)
      reads `probes
    {
      uid.Some? && uid.value !in probes.observed
    }

    method ObserveProbeJob(uid: Option<Uid>, result: string, duration: Option<int>)
      requires ValidProbes()
      modifies `probes
      ensures ValidProbes()
      ensures probes == if uid.Some? then ProbeSeen(old(probes), uid.value, result, duration) else old(probes)
    {
      if !IsNewProbe(uid) {
        return;
      }
      SumIncrement(probes.runs, result);
      probes := probes.(observed := probes.observed + {uid.value}, runs := Incremented(probes.runs, result));
      if duration.Some? && duration.value >= 0 {
        probes := probes.(durations := Recorded(probes.durations, result, duration));
      }
    }
  }

  /** A finished probe is counted once for each identity. */
  function ProbeSeen<Uid(==, !new)>(t: ProbeTable<Uid>, uid: Uid, result: string,
                                    duration: Option<int>): ProbeTable<Uid> {
    if uid in t.observed then t
    else ProbeTable(t.observed + {uid}, Incremented(t.runs, result), Recorded(t.durations, result, duration))
  }

  function Incremented(counts: map<string, nat>, key: string): map<string, nat> {
    counts[key := Count(counts, key) + 1]
  }

  /** Durations that ran backwards are not recorded. */
  function Recorded(durations: map<string, seq<int>>, key: string, duration: Option<int>): map<string, seq<int>> {
    if duration.Some? && duration.value >= 0
    then durations[key := (if key in durations then durations[key] else []) + [duration.value]]
    else durations
  }

  function Count(counts: map<string, nat>, phase: string): nat {
    if phase in counts then counts[phase] else 0
  }

  method CountPhases(m: map<ResourceId, string>, kind: string) returns (counts: map<string, nat>)
    ensures forall phase :: Count(counts, phase) == PhaseCount(m, kind, phase)
  {
    counts := map[];
    var pending := OfKind(m, kind);
    assert forall phase :: InPhases(m, kind, {phase}) - pending == {};
    while pending != {}
      invariant pending <= OfKind(m, kind)
      invariant forall phase :: Count(counts, phase) == |InPhases(m, kind, {phase}) - pending|
    {
      var id :| id in pending;
      ghost var before := counts;
      counts := counts[m[id] := Count(counts, m[id]) + 1];
      forall phase
        ensures Count(counts, phase) == |InPhases(m, kind, {phase}) - (pending - {id})|
      {
        CountOne(m, kind, pending, id, phase);
      }
      pending := pending - {id};
    }
    assert forall phase :: InPhases(m, kind, {phase}) - {} == InPhases(m, kind, {phase});
  }

  lemma CountOne(m: map<ResourceId, string>, kind: string, pending: set<ResourceId>, id: ResourceId, phase: string)
    requires id in pending && pending <= OfKind(m, kind)
    ensures |InPhases(m, kind, {phase}) - (pending - {id})| ==
            |InPhases(m, kind, {phase}) - pending| + (if phase == m[id] then 1 else 0)
  {
    var done, all := InPhases(m, kind, {phase}) - pending, InPhases(m, kind, {phase});
    assert all - (pending - {id}) == if phase == m[id] then done + {id} else done;
  }

  lemma SumIncrement(table: map<string, nat>, key: string)
    ensures Sum(Incremented(table, key).Keys, Incremented(table, key)) == Sum(table.Keys, table) + 1
  {
    var table' := Incremented(table, key);
    SumSplit(table'.Keys, table', key);
    SumFrame(table'.Keys - {key}, table, table');
    if key in table {
      SumSplit(table.Keys, table, key);
      assert table'.Keys == table.Keys;
    } else {
      assert table'.Keys - {key} == table.Keys;
    }
  }

  /** The gauges of a kind add up to the number of its tracked resources. */
  lemma GaugesSumToResources<Uid(!new)>(metrics: Metrics<Uid>, kind: string)
    requires metrics.Valid() && kind in metrics.tables.known
    ensures Sum(metrics.tables.known[kind], metrics.tables.gauges[kind]) == |OfKind(metrics.tables.phases, kind)|
  {
    var t := metrics.tables;
    assert GaugesAgree(t.phases, kind, t.known[kind], t.gauges[kind]);
    GaugesSum(t.phases, kind, t.known[kind], t.gauges[kind]);
    assert InPhases(t.phases, kind, t.known[kind]) == OfKind(t.phases, kind);
  }
}
