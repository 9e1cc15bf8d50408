# Verified model of the iperf operator and exporter

This project models the two programs of the repository and proves what their documentation and
code promise of them.

- The **operator** expands a measurement into sessions, a session into Kubernetes objects, and keeps
  the API servers of up to two clusters in the wanted state. The model covers its naming scheme,
  the expansion and normalisation of specifications, the manifests, the handlers of measurements
  and sessions, and its own metrics.
- The **exporter** supervises an iperf process and keeps a table of streams, a cache of traced paths
  and a table of socket statistics. The model covers the environment it is configured by, the stream
  table, the supervision of the process, the trace cache and the two scanners.

Both meet in one theorem: whatever the operator prints into an environment, the exporter accepts,
and understands as it was meant (`ExporterArgs`).

## How it is built

| files | content |
|---|---|
| `Names`, `SessionNames`, `Decimal` | bounded names and labels, and which of them are injective |
| `ExporterConfig`, `ExporterEnv`, `ExporterArgs`, `ExporterMeaning` | settings, their way through the environment, the arguments, what an exporter is told |
| `Sessions`, `Expansion` | expansion of a measurement, and what its sessions say in terms of the measurement |
| `Manifests`, `Wiring` | objects of a session, how they fit together |
| `Kubernetes` | an API server as a store that may refuse a call or lose the reply to it |
| `SessionTarget`, `SessionController` | the handlers of a session, call by call |
| `StatusMeaning`, `Placement` | what a status says of the store, and where the pods of a session run |
| `SessionProtocol` | what holds over runs of those handlers |
| `SessionDesigns`, `SessionRuns` | where the names come in: the same for the sessions the operator makes |
| `SessionExamples` | a digest, sessions and measurements that meet every condition on names at once |
| `MeasurementController`, `MeasurementMeaning`, `MeasurementRuns` | the handler of a measurement, what the store holds after it, and measurements kept apart by their names |
| `OperatorMetrics`, `Sums` | gauges, pending finalizers, counted probes |
| `StreamTable`, `IperfServer` | the stream table as a value with its laws, and the objects updated in place |
| `StreamReports` | what lines of output make known of a stream |
| `Supervisor` | the supervised process, the server's error count, the loop of the periodic client |
| `PathTrace`, `TraceOutput`, `TraceRuns` | the trace cache, the parser of a trace, and which report is answered when |
| `SocketStats`, `SocketDetails`, `SocketMeaning` | the scanner of the socket table and of its detail lines, and what an entry says |
| `Wrappers` | optional values and results |

Code that changes state is a class or a method with loops, and each such method is proved against a
function of the old state: `View()` of an object is its abstract value, and contracts read
`View() == F(old(View()), ...)`. The laws are lemmas about those functions, and the modules of meanings
say what they compute in terms of what goes in and comes out, without naming them.

An operation on an API server is described by a *goal*: the slot every key should reach. A call that
succeeds has *reached* the goal (every slot is as the goal says); a call that fails at any point
leaves the store *between* (every slot is as it was, or as the goal says). Retrying, idempotence and
non-interference are statements about goals.

## Facts about the code worth knowing

- Measurements whose names have the same slug (`a.b` and `a-b`) share their session names, and the
  injectivity results are about slugs.
- Job names are injective among truncated and among untruncated names, but a truncated one can meet
  an untruncated one whose generation has exactly eight digits: `JobNameClash` says exactly when,
  `JobNamesCanClash` gives two sessions, named as the operator names them.
- Clean-up looks for the Job of the generation it was called with. Jobs of other generations survive
  it (`CleanUpLeavesOtherGenerations`), and none survives if that generation was the one last
  reconciled (`CleanUpAfterReconciliation`).
- `docs/operator-crds.md` lets an endpoint leave out its cluster and take `local`. The operator looks
  the node up under its own local name, so an endpoint without a cluster has an address exactly if
  that name is `local` or some endpoint brings the address in (`UnnamedClusterHasAddress`). Otherwise a
  measurement without clusters gets no sessions (`UnnamedClustersHaveNoSessions`, `UnnamedClustersCanFail`).
- A stop that cannot end its child forgets it all the same. `OverlapsExactly` says that this is the
  only way to two live children, `FailedStopOverlaps` gives a run.
- A restart that fails to start a child is not in the server's error count (`RestartsCounted`), and
  overlapping calls count a restart more than once (`ErrorsCountRestarts`, `OverlappingCallsCountTwice`).
- A TCP report with an unreadable distribution counts as a parse error and still refreshes its stream
  (`ExactEviction`).

## What is assumed

- SHA-1 is an arbitrary function to eight hexadecimal digits. Injectivity is stated for texts on
  which it has no collision, and the lemma names those texts: for two sessions, the texts behind their
  workload names and their Job names in the generations at hand. `DistinguishedSessionsExist` and
  `SeparatedMeasurementsExist` show that all these conditions can be met together.
- A session body carries settings that are complete and in bounds, as the schema of the resource and
  the expansion guarantee (`IsAdmitted`, `PlanIsChecked`).
- A handler runs without another handler of the operator acting inside it; handlers, job progress,
  readiness changes and deletions by others interleave freely between them.
- The clock of the trace cache does not run backwards.

## Model

| member | source | states |
|---|---|---|
| Names.Slugify | iperf_operator/specs.py:115-124 | the character loop computes the slug: letters and digits kept, each separator a dash, the rest dropped, no dash at either end |
| Names.StableNameIsHostLabel | iperf_operator/specs.py:101-108 | a name is empty or a valid host label of at most the given length, as in section 2.1 of RFC 1123 |
| Names.SlugFixed | iperf_operator/specs.py:115-124 | a host label is its own slug |
| Names.LabelValueIdempotent | iperf_operator/specs.py:111-112 | a label value is its own label value |
| Names.BoundedInjective | iperf_operator/specs.py:101-108 | truncation loses nothing: two texts get the same name exactly if they are equal, as long as no text within the limit itself ends in a dash and a digest |
| SessionNames.SessionNameInjective | iperf_operator/specs.py:308 | sessions share a name exactly if measurement slug, mode and direction agree |
| SessionNames.SessionLabelInjective | iperf_operator/specs.py:344-363 | the session label determines slug, mode and direction although its separators vanish |
| SessionNames.DistinctNamesHaveDistinctLabels | iperf_operator/specs.py:308-321 | sessions with different names have different labels |
| SessionNames.ResourceNameInjective | iperf_operator/specs.py:417-472 | Service, StatefulSet and Deployment names agree exactly if session slug and role do, and are host labels of at most 50 characters |
| SessionNames.JobNameInjective | iperf_operator/specs.py:475-482 | Job names agree exactly if session slug and generation do, within the truncated and within the untruncated names, and across them unless a generation has eight digits |
| SessionNames.JobNameClash | iperf_operator/specs.py:475-482 | the exact condition under which a truncated Job name equals an untruncated one |
| SessionNames.JobNamesAgree | iperf_operator/specs.py:475-482 | Job names agree exactly for the same session slug and generation, or in such a clash, whatever the generations |
| SessionNames.OrdinaryGenerationsNeverClash | iperf_operator/specs.py:475-482 | only an eight-digit generation can clash |
| SessionNames.JobNamesCanClash | iperf_operator/specs.py:101-108 | two session names the operator generates, and generations, for which it happens, with a hand-made digest that has no collision on the two texts |
| Decimal.ParsePrinted | iperf_exporter/cli.py:29-35 | parsing a printed integer gives it back |
| Decimal.PrintNatInjective | iperf_operator/specs.py:475-482 | different generations are printed differently |
| ExporterConfig.NormalizeExporterConfig | iperf_operator/specs.py:127-162 | merging, conversion of every integer, and every bound check, with each error in its place |
| ExporterConfig.NormalizedIsNormal | iperf_operator/specs.py:127-162 | whatever is accepted has every field, converted and within its bounds |
| ExporterConfig.NormalIsFixed | iperf_operator/specs.py:366-376 | normalising again, as the environment builder does, changes nothing |
| ExporterConfig.DefaultsAreNormal | iperf_operator/specs.py:59-162 | a profile that sets nothing gets the defaults, which are within every bound |
| ExporterEnv.BuildExporterEnv | iperf_operator/specs.py:366-414 | the list of variables the loops append, in order |
| ExporterEnv.EnvironSeen | iperf_operator/specs.py:366-414 | what a process finds in each variable: the operator's text, or what its image had for those left out in its mode |
| Sessions.ExpandMeasurementSessions | iperf_operator/specs.py:240-341 | the double loop over modes and directions computes the expansion, or its first error; what its sessions are is `Expansion.SessionsMean`, when it succeeds `Expansion.ExpansionAccepted` |
| Sessions.PlanIsChecked | iperf_operator/specs.py:240-306 | an accepted measurement has supported, distinct modes and directions, host mode only across clusters, both nodes, normal settings and a valid execution |
| Sessions.MinimalMeasurementIsPlanned | iperf_operator/specs.py:240-294 | a measurement that only names two nodes of a cluster and a profile is always accepted, for both directions in pod mode |
| Sessions.ExpandedMember | iperf_operator/specs.py:295-341 | a session is in the expansion exactly for a planned mode and direction |
| Sessions.DirectionsMirror | iperf_operator/specs.py:297-307 | the two directions of a mode exchange source and destination and share everything else |
| Sessions.ExpandedNamesDistinct | iperf_operator/specs.py:295-341 | the sessions of an expansion have pairwise different names |
| Expansion.SessionsMean | iperf_operator/specs.py:240-363 | for every chosen mode and direction there is a session; the ends are the measurement's in one direction and exchanged in the other, each with its node's address; namespace, profile, protocol, every exporter field, image, pull policy, execution, period and all eight labels are what the measurement and its profile say |
| Expansion.ExpansionAccepted | iperf_operator/specs.py:240-306 | the exact condition, on the measurement, profile and addresses, under which a measurement is expanded |
| Expansion.ConfigAccepted | iperf_operator/specs.py:127-162 | the exact condition under which settings are accepted: each is a number within its bounds |
| Expansion.DurationAccepted | iperf_operator/specs.py:78-98 | an amount of time is read exactly if it is digits with a unit, as that many seconds |
| Manifests.EnvironmentsExist | iperf_operator/manifests.py:161-193 | an admitted session always gets both environments; overriding the duration breaks no bound |
| Manifests.AdmittedIsBuildable | iperf_operator/manifests.py:91-257 | both environments of an admitted session can be built; what the manifests hold is `Placement.PodsArePlaced` |
| ExporterArgs.PrintedSettingAccepted | iperf_exporter/cli.py:29-44 | a bounded integer is accepted exactly if it is within the exporter's bounds, and read as the value printed |
| ExporterArgs.WrittenEnvironmentAccepted | iperf_exporter/cli.py:58-286 | the exact condition under which an environment written by the operator is accepted: only what it left to the image can fail |
| ExporterArgs.WrittenEnvironmentUnderstood | iperf_exporter/cli.py:58-293 | each integer, flag, text and context label is read as the session says |
| ExporterArgs.ServerAccepted | iperf_operator/manifests.py:123-129 | the same for the server's environment |
| ExporterArgs.ClientAccepted | iperf_operator/manifests.py:161-193 | the same for the client's, with peer, execution mode and period |
| ExporterArgs.ImageReadable | Dockerfile:25-36 | the environment of the exporter image, and every default, is readable |
| ExporterArgs.ExpandedSessionsRun | iperf_operator/specs.py:240-341 | both exporters of every session of every accepted expansion start on the exporter image and read every setting as the session says; the client runs against the session's peer, in its mode and period |
| Wiring.ServicesSelectTheServer | iperf_operator/specs.py:423-437 | selectors pick server pods exactly under the session's own label, and never a client |
| Wiring.SelectorsApart | iperf_operator/specs.py:423-437 | no selector of a session picks any pod of a session told apart from it |
| Wiring.ClientFindsServer | iperf_operator/specs.py:485-496 | after a reconciliation the client's peer is the name of a Service just made, of the server's pod in one, or the address of the node whose network the server shares |
| Wiring.EndsAgree | iperf_operator/manifests.py:17-257 | a server and a client that start agree on protocol and port, those of the Services; the client runs a minute less than its Job's deadline |
| Placement.PodsArePlaced | iperf_operator/manifests.py:17-257 | after a successful reconciliation, in every mode, read from the store: the server is at the destination's cluster on its node, the client, as Deployment or as the Job just made, at the source's; host network exactly in host mode with the matching DNS policy; image, environment and labels are the session's; the Services are headless or not as they should be |
| Placement.CleanUpRemoves | iperf_operator/controller.py:551-574 | after a successful clean-up none of the five named objects is left at the clusters of the session |
| SessionProtocol.JobStaysDesigned | iperf_operator/manifests.py:226-257 | in every run the Job of a probe is the designed one, if it was or was not there at the start |
| ExporterMeaning.ServerIsToldSession | iperf_operator/specs.py:366-456 | on the exporter image the server reads mode, protocol, each setting, the client hints or what they default to, and every context label as the session has them |
| ExporterMeaning.ClientIsToldSession | iperf_operator/manifests.py:161-193 | so does the client, with its peer, execution mode, period, and the duration of its execution or else of its settings |
| Kubernetes.Api.Patch | iperf_operator/controller.py:186-251 | a patch sets the managed content, and raises the generation only with the specification; it may be refused, or done with the reply lost |
| Kubernetes.Api.Create | iperf_operator/controller.py:254-265 | a creation fails with a conflict exactly if the object exists |
| Kubernetes.Api.Delete | iperf_operator/controller.py:268-321 | a deletion reports a missing object and removes a present one, possibly with the reply lost |
| Kubernetes.Apply | iperf_operator/controller.py:186-251 | patch, then create if not found: brings one slot to its goal, whatever fails |
| Kubernetes.DeleteIfExists | iperf_operator/controller.py:268-321 | a missing object counts as deleted |
| SessionTarget.ReconcileWorkloads | iperf_operator/controller.py:631-704 | the calls of a reconciliation reach the goal, or stop between |
| SessionTarget.DeleteStaleJobs | iperf_operator/controller.py:658-686 | of the Jobs under the session's label, all but the wanted one are deleted |
| SessionController.ReconcileSession | iperf_operator/controller.py:631-746 | success means the goal is reached and the status is that of the new state; failure anywhere leaves the store between |
| SessionController.SessionStatus | iperf_operator/controller.py:707-746 | the status is a function of the store, as `StatusMeaning.StatusMeans` spells it out; a finished probe is observed once |
| SessionController.ReadJobReadiness | iperf_operator/controller.py:375-439 | the reads and branches compute the readiness that `StatusMeaning.ProbeReadiness` spells out, and observe the outcome |
| StatusMeaning.StatusMeans | iperf_operator/controller.py:329-439 | a successful status, read off the store: clusters, namespaces and names; for a probe, Failed, Running and Completed exactly by the Job's counts and the server's readiness, the three counts, and one run and its duration counted under the right result for a new incarnation; for a stream, Running exactly if both are ready |
| StatusMeaning.ProbeReadiness | iperf_operator/controller.py:375-427 | phase, readiness and counts of a probe from the progress of the StatefulSet and the Job |
| StatusMeaning.StreamReadiness | iperf_operator/controller.py:329-359 | phase and readiness from the progress of the StatefulSet and the Deployment |
| StatusMeaning.PhaseTexts | iperf_operator/controller.py:924-953 | the text recorded for each phase, and for an error |
| StatusMeaning.SiteMeans | iperf_operator/controller.py:149-183 | the API server and namespace of the destination's cluster and of the source's |
| SessionController.UpdateMeasurementSession | iperf_operator/controller.py:924-953 | what is reconciled, observed and recorded as the session's phase, on success and on failure |
| SessionController.RefreshMeasurementSessionStatus | iperf_operator/controller.py:915-921 | the timer reconciles probes and otherwise changes nothing in the store |
| SessionController.DeleteSessionWorkloads | iperf_operator/controller.py:551-579 | success removes every named workload; a failure is counted against the destination if the client's workloads were not tried, and against the source if the server's are gone |
| SessionController.DeleteMeasurementSession | iperf_operator/controller.py:889-911 | one attempt marks the finalizer pending, removes the named workloads or stops between, and completes the finalizer exactly on success |
| SessionController.CleanKeysAreTargetKeys | iperf_operator/controller.py:551-574 | clean-up names exactly the objects reconciliation names |
| SessionProtocol.ReconciliationConverges | iperf_operator/controller.py:631-704 | from any state: headless Service and StatefulSet, a ClusterIP Service exactly in service mode, and a Deployment without Jobs or at most the wanted Job without a Deployment |
| SessionProtocol.RetriesConverge | iperf_operator/controller.py:631-704 | any number of attempts failing anywhere do not change where the first success ends |
| SessionProtocol.ReconciliationIdempotent | iperf_operator/controller.py:631-704 | reconciling again changes nothing |
| SessionProtocol.ReconciliationsCommute | iperf_operator/controller.py:631-704 | sessions apart may be reconciled in either order, with the same store as result |
| SessionProtocol.ProbeStep | iperf_operator/controller.py:650-686 | the operator never changes the Job of a probe once it exists; only an absent one is created |
| SessionProtocol.OneShotProbe | iperf_operator/controller.py:650-686 | in every run of handlers, failures, progress and deletions, the Job of a generation is created at most once more than it was explicitly deleted |
| SessionProtocol.CountedStillExisted | iperf_operator/controller.py:430-439 | every counted probe is an incarnation that was created, over every step |
| SessionProtocol.ProbesCountedOnce | iperf_operator/metrics.py:172-186 | in every run the outcomes counted for a probe's Job are at most one more than its explicit deletions |
| SessionProtocol.CleanUpCompletes | iperf_operator/controller.py:551-574 | after any failed attempts the first successful clean-up leaves none of the workloads to clean and touches no other object |
| SessionProtocol.CleanUpSparesOthers | iperf_operator/controller.py:551-574 | at every failed attempt and at the first success, whatever belongs to a session apart, named workloads and Jobs, is as it was |
| SessionProtocol.CleanUpLeavesOtherGenerations | iperf_operator/specs.py:475-482 | a Job of the session survives clean-up exactly if it belonged to another generation |
| SessionProtocol.CleanUpAfterReconciliation | iperf_operator/controller.py:551-574 | cleaning up the generation last reconciled leaves nothing of the session |
| SessionDesigns.DesignIsSound | iperf_operator/specs.py:417-482 | the two Services of a session have different names, and its Job carries its label, if the digest has no collision on its four workload texts |
| SessionDesigns.GenerationsDiffer | iperf_operator/specs.py:475-482 | two generations of a session have different Job names unless the two clash |
| SessionDesigns.OrdinaryGenerationsAreSeparated | iperf_operator/specs.py:475-482 | generations of at most seven digits never clash |
| SessionDesigns.SessionsApart | iperf_operator/controller.py:631-704 | sessions with different slugs and labels have targets apart, wherever their clusters are |
| SessionDesigns.SecondCallSameStatus | iperf_operator/controller.py:631-746 | a second reconciliation changes nothing and reports the same status |
| SessionDesigns.DistinctSessionsCommute | iperf_operator/controller.py:631-704 | such sessions may be reconciled in either order |
| SessionDesigns.ExpandedSessionsApart | iperf_operator/specs.py:295-341 | sessions expanded from any measurements are apart as soon as their names differ |
| SessionRuns.ExpandedSessionsCommute | iperf_operator/controller.py:631-704 | two sessions of any expansions, in any generation and on any clusters, may be reconciled in either order as soon as their names differ |
| SessionRuns.ReconcileSpares | iperf_operator/controller.py:631-704 | reconciling a session leaves the probe's Job of one told apart from it alone |
| SessionRuns.CleanUpSpares | iperf_operator/controller.py:551-574 | so does cleaning it up, whichever clusters are known |
| SessionRuns.SessionProbeRunsOnce | iperf_operator/controller.py:650-686 | in every run of a session's own handlers, those of other sessions, failures, progress and deletions, its probe's Job is created at most once more than it was explicitly deleted |
| SessionRuns.DeletionCompletes | iperf_operator/controller.py:889-911 | over any run of failed attempts the session is pending from the first on; the first success ends that, leaves none of its named workloads and has touched nothing else |
| SessionRuns.DeletionSparesOthers | iperf_operator/controller.py:889-911 | after each of those attempts everything of a session told apart from it is as it was |
| SessionExamples.DistinguishedSessionsExist | iperf_operator/specs.py:295-341 | an operator and two probes of two accepted plans that meet every condition of these results |
| SessionExamples.SeparatedMeasurementsExist | iperf_operator/specs.py:308 | two measurements that meet the conditions on session names |
| MeasurementController.SyncSessions | iperf_operator/controller.py:594-628 | apply all, list, delete the rest: reaches the goal or stops between |
| MeasurementController.ReconcileMeasurement | iperf_operator/controller.py:582-628 | success means exactly the expanded sessions were synchronised; a measurement that cannot be expanded changes nothing |
| MeasurementController.ExpansionIsValid | iperf_operator/controller.py:594-617 | an expansion has one content for each name, all under the measurement's label |
| MeasurementController.MeasurementConverges | iperf_operator/controller.py:582-628 | from any sessions, exactly the wanted ones are left under the label and every other session is untouched |
| MeasurementMeaning.MeasurementIsHeld | iperf_operator/controller.py:582-628 | after a successful reconciliation the objects under the measurement's label are exactly its sessions, with their content, labels and the version of the profile, and with the addresses of their nodes in their clusters |
| MeasurementMeaning.AddressesMean | iperf_operator/controller.py:442-474 | each address is that of the node at the API server of its cluster |
| MeasurementController.UnchangedSessionKeepsGeneration | iperf_operator/controller.py:600-617 | a wanted session keeps its identity, and its generation unless its specification changes |
| MeasurementController.MeasurementIdempotent | iperf_operator/controller.py:582-628 | synchronising again changes nothing |
| MeasurementController.FailedSyncsRecover | iperf_operator/controller.py:582-628 | failed attempts do not change where the first success ends |
| MeasurementController.MeasurementsCommute | iperf_operator/controller.py:582-628 | measurements apart may be reconciled in either order |
| MeasurementRuns.WishIsNamed | iperf_operator/controller.py:582-617 | a measurement wants sessions by its own session names only, under its own label value |
| MeasurementRuns.WishesApart | iperf_operator/controller.py:594-628 | measurements with different label values want no common session, and list none of the other's while stored sessions carry their labels |
| MeasurementRuns.SyncKeepsLabels | iperf_operator/controller.py:594-628 | synchronising, completely or not, keeps it that way |
| MeasurementRuns.ExpandedMeasurementsCommute | iperf_operator/controller.py:582-628 | any two measurements with different label values may be reconciled in either order |
| MeasurementController.NodeAddressesOf | iperf_operator/controller.py:442-474 | the addresses of the named nodes, or a failure |
| MeasurementController.UnnamedClusterHasAddress | iperf_operator/controller.py:442-474 | the exact condition under which any endpoint without a cluster gets an address |
| MeasurementController.UnnamedClustersHaveNoSessions | iperf_operator/controller.py:442-474 | under a local name other than `local`, a measurement whose endpoints name no cluster has no sessions, whatever nodes there are |
| MeasurementController.UnnamedClustersCanFail | iperf_operator/specs.py:202-211 | an operator on `cluster-a` that knows both nodes, and two endpoints without an address |
| OperatorMetrics.Metrics.SetResourcePhase | iperf_operator/metrics.py:126-137 | the tracked phase changes and every gauge agrees with the tracked resources |
| OperatorMetrics.Metrics.RemoveResource | iperf_operator/metrics.py:139-142 | the resource is forgotten, its phase stays known, and every gauge agrees |
| OperatorMetrics.Metrics.UpdateResourceGauges | iperf_operator/metrics.py:144-151 | the gauges of one kind are recomputed and no other kind is touched |
| OperatorMetrics.CountPhases | iperf_operator/metrics.py:144-151 | counts every phase of a kind |
| OperatorMetrics.Metrics.MarkFinalizerPending | iperf_operator/metrics.py:159-162 | the gauge is the number of pending finalizers |
| OperatorMetrics.Metrics.MarkFinalizerComplete | iperf_operator/metrics.py:164-167 | the gauge is the number of pending finalizers |
| OperatorMetrics.PendingUntilComplete | iperf_operator/metrics.py:159-167 | however clean-ups interleave, a resource is pending exactly from its first attempt until its success |
| OperatorMetrics.Metrics.ObserveProbeJob | iperf_operator/metrics.py:172-186 | an incarnation is counted once, and the run totals sum to the number of incarnations seen |
| OperatorMetrics.GaugesSumToResources | iperf_operator/metrics.py:126-151 | the gauges of a kind sum to the number of its resources |
| StreamTable.ConnectionsConserved | iperf_exporter/iperf.py:725-776 | over every run, connections are live, evicted and replaced streams; and successes, timeouts, unreported streams and streams replaced before a report |
| StreamTable.StepBalances | iperf_exporter/iperf.py:858-1022 | what one event adds to one side of both equations it adds to the other |
| StreamTable.ExactEviction | iperf_exporter/iperf.py:725-751 | in every interleaving a stream is gone from exactly the max(1, ttl)-th tick after its last refresh on |
| StreamTable.UnrefreshedStep | iperf_exporter/iperf.py:319-342 | only a tick moves the time to live of a stream that is not refreshed |
| StreamTable.RunContains | iperf_exporter/iperf.py:745-751 | every histogram belongs to a stream of the table |
| StreamReports.SampleIsShown | iperf_exporter/iperf.py:872-990 | a readable report of a known peer: its stream has the line's figures, details, bins, time and duration, one sample is counted, the first as a success, no error, and no other stream changes |
| StreamReports.UnreadableIsShown | iperf_exporter/iperf.py:417-446 | a report with an unreadable distribution still shows its figures and counts one error |
| StreamReports.ConnectionIsShown | iperf_exporter/iperf.py:994-1022 | a connection line starts a stream of which nothing else is known |
| StreamReports.HistogramIsFiled | iperf_exporter/iperf.py:933-971 | what a histogram line files, or that it counts as an error |
| StreamReports.ErrorsCounted | iperf_exporter/iperf.py:858-1002 | the exact set of lines that count as parse errors |
| StreamReports.LastReportIsShown | iperf_exporter/iperf.py:858-1022 | in every run a stream shows the last report of its peer since its connection, and its sample is the last one that could be read |
| IperfServer.PeerOutput.UpdateTcp | iperf_exporter/iperf.py:417-446 | an unreadable distribution leaves everything but the bins written; what is written is `StreamReports.SampleIsShown` and `UnreadableIsShown` |
| IperfServer.IPerfServer.ParseOutput | iperf_exporter/iperf.py:858-1022 | every line changes the objects as the table's step says, and streams keep objects of their own; what a line makes known is stated in `StreamReports` |
| IperfServer.IPerfServer.RecordSuccessfulSample | iperf_exporter/iperf.py:765-776 | the sample is counted, and the first of a stream as a success |
| IperfServer.IPerfServer.CountUnreported | iperf_exporter/iperf.py:738-743 | counts the given streams without a report |
| IperfServer.IPerfServer.RemoveDeadClients | iperf_exporter/iperf.py:725-751 | a cleanup tick counts down, counts evictions and timeouts, and prunes streams and histograms |
| Supervisor.IPerf.EnsureRunning | iperf_exporter/iperf.py:227-249 | starts a child unless one is alive, and counts a restart exactly if one had exited |
| Supervisor.IPerf.EnsureServerRunning | iperf_exporter/iperf.py:688-693 | the restarts made by the call are counted as errors, unless it raises |
| Supervisor.IPerf.PollExitCode | iperf_exporter/iperf.py:257-267 | the exit code of the current child, noted if there is one |
| Supervisor.IPerf.Stop | iperf_exporter/iperf.py:269-290 | terminate, wait, kill, wait, with every way to fail; the child is forgotten in all of them |
| Supervisor.OverlapsExactly | iperf_exporter/iperf.py:227-290 | over every run a child is started beside a live one exactly if a stop had given that one up |
| Supervisor.NoOverlap | iperf_exporter/iperf.py:227-290 | while stops succeed there is never more than one child alive |
| Supervisor.FailedStopOverlaps | iperf_exporter/iperf.py:285-290 | a run in which a refused signal leads to two live children |
| Supervisor.RestartsCounted | iperf_exporter/iperf.py:227-249 | over every run restarts are the children started beyond first starts plus the restarts that failed, which the error count leaves out |
| Supervisor.LastExitNoted | iperf_exporter/iperf.py:227-290 | the last exit code is that of a child, and there is one after every restart |
| Supervisor.LastExitIsLatest | iperf_exporter/iperf.py:227-290 | in every run the recorded exit code is the last one a poll, restart or stop made known |
| Supervisor.ChildrenChange | iperf_exporter/iperf.py:227-290 | which child each call starts, ends or forgets, and what it leaves alone |
| Supervisor.StreamClientOnce | iperf_exporter/cli.py:312-319 | follows a probe until its exit code is known or the shutdown |
| Supervisor.StreamClientPeriodically | iperf_exporter/cli.py:322-332 | every probe that ends is reported once with its own exit code, and the next starts only then |
| Supervisor.PeriodicNeverOverlaps | iperf_exporter/cli.py:322-332 | such a run never has two probes alive |
| Supervisor.ErrorsCountRestarts | iperf_exporter/iperf.py:688-693 | however calls overlap, between any two of their steps, the error count is the restarts plus those that a call saw another make |
| Supervisor.OverlappingCallsCountTwice | iperf_exporter/iperf.py:688-693 | two overlapping calls that count one restart twice |
| PathTrace.PathTraceCollector.Collect | iperf_exporter/path_trace.py:137-171 | stores, prunes, answers and submits as the step function says |
| PathTrace.PathTraceCollector.StoreCompletedTraces | iperf_exporter/path_trace.py:173-188 | every future that is done is taken in, in any order, and the others stay |
| PathTrace.PathTraceCollector.CollectForTarget | iperf_exporter/path_trace.py:202-260 | the worker's result and error count for every way the command can end, as `TraceRuns.WorkerMeans` spells them out |
| TraceRuns.WorkerMeans | iperf_exporter/path_trace.py:202-260 | a completed command returns exactly the report its lines fit with the target's addresses and ports, anything else but a crash the failed one; exactly one reason is counted for each way to fail, and none for success |
| TraceRuns.LastTraceIsAnswered | iperf_exporter/path_trace.py:137-188 | after every run a collection answers exactly the sockets whose pair has a trace taken in, each with the report of the last one |
| TraceRuns.TracedAgain | iperf_exporter/path_trace.py:145-188 | once the time to live is over, the next collection that asks for the pair leaves a trace in flight |
| PathTrace.AnswersMatchKeys | iperf_exporter/path_trace.py:137-171 | after every run a snapshot has the addresses and ports it is filed under |
| PathTrace.SubmittedExactly | iperf_exporter/path_trace.py:162-169 | traces are started exactly for current pairs without one in flight and without a fresh snapshot |
| PathTrace.CollectionCovers | iperf_exporter/path_trace.py:137-171 | only current pairs stay cached, and each is in flight or has an unexpired snapshot |
| PathTrace.TracesConserved | iperf_exporter/path_trace.py:145-188 | over every run traces started are traces stored, worker failures and traces in flight |
| PathTrace.StoresApart | iperf_exporter/path_trace.py:145-188 | while a pair stays in the table its stores are at least the time to live apart |
| PathTrace.InactiveStays | iperf_exporter/path_trace.py:137-139 | once closed, or with no time to live, nothing is stored or started |
| TraceOutput.ParseOutput | iperf_exporter/path_trace.py:340-397 | hops in order with their last address, success, path MTU and total as the lines determine them, or no report |
| TraceOutput.ReportIsDetermined | iperf_exporter/path_trace.py:340-397 | at most one report fits the lines |
| SocketStats.SocketStatsCollector.ParseOutput | iperf_exporter/socket_stats.py:246-299 | the scan that skips detail lines equals filing every row on its own |
| SocketStats.ScannedRows | iperf_exporter/socket_stats.py:246-299 | exactly the sockets of the port are there, each from its last row and the line right below |
| SocketMeaning.ScanMeans | iperf_exporter/socket_stats.py:246-299 | the entries are exactly the pairs of ends of the rows of the local port, each the last such row with its state and queues, and the details of the words right below it |
| SocketMeaning.DetailMeans | iperf_exporter/socket_stats.py:73-147 | by position of the words: which are values of rates, when the line is unreadable, the flag, each metric's last value and the first name |
| SocketStats.ScanFails | iperf_exporter/socket_stats.py:246-299 | a scan fails exactly if the details of a row of the port cannot be read |
| SocketStats.ScanComposes | iperf_exporter/socket_stats.py:246-299 | wherever a cut does not part a row from its details, the whole is the upper part overridden by the lower |
| SocketStats.DetailGoesToRowAbove | iperf_exporter/socket_stats.py:254-262 | at any other cut the line goes to the row above and to no other |
| SocketDetails.ParseTcpDetailLine | iperf_exporter/socket_stats.py:73-147 | the index loop reads the items of a line, of one word or two, or fails |
| SocketDetails.LastValueWins | iperf_exporter/socket_stats.py:112-139 | the last item that gives a metric gives its value |
| SocketDetails.FirstNameWins | iperf_exporter/socket_stats.py:141-145 | the congestion control is the first word that is nothing else |

## Left out

- Kubernetes.Api.Patch: replaces the managed content of an object; the keys a merge patch would keep from an older content are not modelled.
- Kubernetes.Api.Delete: removes the object at once; finalizers of other controllers, propagation policies, owner references and garbage collection are not modelled.
- Workloads at clusters a changed session no longer names: the code does not look there either.
- Changes of a store inside a handler by others: handlers are steps; the environment acts between them.
- Supervisor.ErrorsCountRestarts: adding to the error count is one step; two calls that add at the same moment could lose one of the additions.
- OperatorMetrics.Metrics.ObserveProbeJob: calls are sequential; its counters are incremented after the lock is released.
- PathTrace.PathTraceCollector.Collect: calls are sequential and the worker ends between them; the clock is read before the lock is taken, so two concurrent calls could take it in the other order.
- IperfServer.IPerfServer.ParseOutput: lines are given by the pattern they match and whether their parts can be read; the regular expressions are not modelled.
- SocketStats.SocketStatsCollector.ParseOutput: lines are given as blank, as a row with its endpoints taken apart, or as words.
- TraceOutput.ParseOutput: lines are given by what they match.
- Names.Slugify: lower-casing outside ASCII is modelled only where it matters, for the two characters whose lower case begins with an ASCII letter; all other such characters are dropped, as in the code.
- Decimal.ParsePrinted: digits outside ASCII are not modelled.
- ExporterConfig.NormalizeExporterConfig: settings are texts, integers, booleans and absent values; floating-point settings are not modelled.
- SHA-1, wall-clock formatting, logging and the Prometheus families of `iperf_exporter/collector.py`.
- Remote cluster, profile and credential handlers, the loading of kubeconfigs and the metrics of reconciliation time.
- Starting commands of iperf, additional parameters, signals, threads and the event loop.
- The optional timeouts and log lines of the worker that runs the trace command, and its shutdown.
- The duration and last success of path traces and socket statistics.
