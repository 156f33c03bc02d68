# Verification of the Proxmox VE exporter

A Dafny model of the exporter's core, with proofs. Three parts are modelled closely and
then joined:

1. **Collection, snapshot, export** (`internal/pve`). One worker per target, one worker per
   node below it, a sample list shared under a lock, an error counter shared by all workers
   of a target, the index over the results, the published snapshot, the Prometheus scrape
   that drops duplicate series by a joined signature, and the OTLP gauges.
2. **`${VAR}` and `${VAR:-default}`** (`internal/utils/env.go`). The reference pattern as a
   scanner, the replacement loop, the stricter rule for credentials, and the in-place
   resolution of a configuration.
3. **Validation and hot reload** (`internal/models`, `main.go`). What loads, what a reload
   changes, and what overlapping reloads can leave behind.

Every API answer is arbitrary: a server is a function from paths to answers, and an answer
is a transport error, or a status with a body that does not decode, has no data, or has
data of any shape. The elapsed time of a cycle is an arbitrary number, the environment an
arbitrary map, a configuration file an arbitrary decoded value.

Code that works by changing things is modelled by classes and loops (`SampleSet`, `Client`,
`Snapshot`, `SnapshotStore`, `Collector`, `OTLPExporter`, `Config`, `SafeConfig`, `Server`,
and the collectors as methods), each proved against a specification function. Concurrency
is modelled by transition systems over their steps: `Schedules` (workers, counter and
concurrency limit), `Locks` (the mutex), `Publication` (publishers, scrapes, registrations and
pushes), `Reloads`, and `Lifetimes` (reloads and cycles together).

## Modules

- `Seqs`, `Strings`, `Decimals`: sequence vocabulary; TrimSpace and ToLower; numbers as text.
- `Metrics`, `MetricNames`, `Api`, `Clients`: samples, names, PVE rows and answers, the client.
- `Resources`, `ClusterInfos`, `Nodes`: the emitters. `Readings`, `InfoLabels`: what they say
  metric by metric and label by label.
- `Plans`: a target's cycle once the answers are fixed. `Collectors`, `Cycles`: the same as
  methods, run one worker at a time. `Schedules`, `Limits`: every interleaving.
- `Locks`: the merge under the mutex in its own steps.
- `Toggles`, `HAStates`, `Failures`, `Requests`: what one collector, one node, one target contribute; calls
  and counters.
- `Snapshots`, `Signatures`, `Exports`, `ScrapeProperties`, `SeriesValues`, `Isolation`: index and
  scrape.
- `Otlp`, `Publication`: gauges; readers and publishers interleaved.
- `EnvRefs`, `EnvExpand`, `EnvNames`, `Secrets`: the reference language, expansion, the same said of
  plain strings, credentials.
- `Models`, `Configs`, `SafeConfigs`, `Servers`, `Reloads`: configuration and reload.
- `Pipelines`: the results above composed, from the file to the scrape. `NulFreedom`: from
  NUL-free answers to exact scrapes. `Interference`: exactly when targets leave each other
  alone. `MergeOrders`, `ScheduledScrapes`: exactly when the schedule shows in a value.
  `Histories`: many cycles, with readers beside them. `Lifetimes`: with reloads beside them.

## Where the code and its documentation differ

The model follows the code.

- `pve_subscription_status` carries the label key `state`, as every enum does
  (internal/pve/resources.go:13-17); docs/metrics.md says `status`.
- A guest HA state outside the list yields all zeros, not a one (`Readings.GuestOneHot`).
- `nodeNames` returns every named node row, online or not (internal/pve/collector.go:218-226),
  although its comment speaks of online nodes (`Plans.NodeNamesExact`, `Plans.StatusDoesNotMatter`).
- Where a guest's config has no `onboot` field the sample is exported with value 0
  (internal/pve/node.go:77-80); docs/adr/0006 excludes invented zeros
  (`Readings.OnbootInvented`, and `Readings.OnbootFollowsIff` for exactly when the collector
  does). The numeric
  fields of resource rows, replication jobs and subscriptions do follow that rule
  (`Readings.AbsentNotZero`, `Readings.JobAbsentNotZero`, `Readings.DueAbsentNotZero`). The
  total of guests without a backup is a count, and 0 also for status 200 without data
  (`Readings.BackupTotal`).
- docs/adr/0002 says both exports always read the identical snapshot. A scrape loads once,
  but each OTLP callback loads for itself, so a push can mix two snapshots
  (`Publication.MixedPush`, `Histories.PushCanMix`); it does not exactly when nothing is
  published between its first and last callback (`Publication.PushConsistentIff`).
- The signal handler and the file watcher call `ReloadConfig` from two goroutines with no lock
  around the whole of it. Overlapping reloads can leave stale targets for good
  (`Reloads.StaleTargets`); `Reloads.InOrderMirrors` and `Reloads.MirrorsIff` say when they do not.
- Unique target names do not by themselves keep targets apart in the export: the signature
  joins values by NUL, so a target whose name extends another one by a NUL can lose a series to
  it, or the other way around (`Interference.UndisturbedIff`, `Interference.UnseparatedLoads`).
- Which value is exported for a series that two nodes of a target report differently depends
  on whose worker merges first (`MergeOrders.ScheduleFreeIff`, `ScheduledScrapes.FreeScrapesIff`,
  `ScheduledScrapes.ScrapesDiffer`).
- Only the cluster list is applied by a hot reload; the collector keeps the toggles, interval,
  timeout and concurrency limit it was built with (main.go:66-76).

## Model

| member | source | states |
|---|---|---|
| Clients.Client.Fetch | internal/pve/client.go:112-141 | the call is logged with its answer; in every state the counter is the number of past calls that ended in a transport error or non-200, except 403/404 on optional calls; decode failures never count |
| Clients.Client.Get | internal/pve/client.go:97-99 | the same for a required endpoint: every status but 200 counts |
| Clients.Client.GetOptional | internal/pve/client.go:106-108 | the same for a best-effort endpoint: 403 and 404 do not count |
| Clients.CallsTell | internal/pve/client.go:112-148 | code by code: which answers count, and that a caller fails for a transport error, any status but 200 and an undecodable body, and for nothing else |
| Api.DataIsDecoded | internal/pve/client.go:129-141 | a caller gets the data of the shape it asked for, and an error for any other |
| Metrics.SampleSet.Add | internal/pve/metrics.go:96-101 | one sample is appended, with the set's cluster label first |
| Metrics.SampleSet.AddFlex | internal/pve/resources.go:5-9 | a sample is appended exactly when the value is present |
| Metrics.SampleSet.AddStateEnum | internal/pve/resources.go:13-17 | one sample per listed state, in order |
| Metrics.EnumShape | internal/pve/resources.go:13-17 | the enum has every listed state once, in list order, whatever the active one, with value 1 exactly for it |
| Metrics.OneHot | internal/pve/resources.go:13-17 | in an enum over a duplicate-free list exactly one sample is 1 if the active state is listed, none if it is not |
| Decimals.FormatIntExact | internal/pve/parse.go:96-98 | the text of a number is its usual decimal form after the fraction is dropped, towards zero, also below zero |
| Strings.TrimExact | internal/utils/env.go:99-99 | trimming removes all the space at both ends and nothing else |
| MetricNames.TextInjective | internal/pve/metrics.go:5-49 | no two of the thirty-six metrics share a name string |
| Resources.CollectHostGauges | internal/pve/resources.go:34-44 | the samples of a node row, and of the first half of a guest row |
| Resources.CollectGuestResource | internal/pve/resources.go:46-82 | the samples of a guest row |
| Resources.CollectStorageResource | internal/pve/resources.go:84-97 | the samples of a storage row |
| Resources.CollectResources | internal/pve/resources.go:20-32 | the samples of all rows, in row order; rows of another kind have none |
| Readings.AbsentNotZero | internal/pve/resources.go:34-97 | for every numeric metric, a row yields one sample with the value of that metric's field if the field is present and none if it is absent |
| Readings.OneUpPerRow | internal/pve/resources.go:34-97 | every node, guest and storage row has exactly one pve_up sample, 1 exactly in the status that counts as up for its kind |
| Readings.GuestOneHot | internal/pve/resources.go:63-65 | a guest's HA samples are the whole list with exactly one 1 if its state is listed, and all zeros if it is not |
| Readings.LockOneHot | internal/pve/resources.go:66-68 | the same for its config lock |
| Readings.SubscriptionOneHot | internal/pve/node.go:51-53 | the same for a node's subscription status |
| Readings.JobAbsentNotZero | internal/pve/node.go:31-36 | absent, not zero, for the five fields of a replication job's status |
| Readings.DueAbsentNotZero | internal/pve/node.go:54-56 | absent, not zero, for the due date of a subscription |
| Readings.OnbootFollowsIff | internal/pve/node.go:62-89 | the onboot collector, listings and early return included, follows that rule exactly when no guest it gets to has a config that is answered without the field |
| Readings.OnbootInvented | internal/pve/node.go:77-80 | it happens: a server lists one guest and answers its config without onboot; the collector emits a zero where the rule has nothing |
| Readings.BackupTotal | internal/pve/resources.go:163-164 | an answered endpoint gives exactly one total, the number of listed guests; it is 0 exactly for an empty list and for status 200 without data |
| InfoLabels.GuestInfoExact | internal/pve/resources.go:70-81 | a guest row has one info sample, and its labels by name; template is 1 exactly for the value 1 |
| InfoLabels.StorageInfoExact | internal/pve/resources.go:90-96 | the same for a storage row |
| InfoLabels.OtherRows | internal/pve/resources.go:20-32 | rows of any other kind emit nothing, and no kind emits the info of another |
| InfoLabels.NodeInfoLabels | internal/pve/resources.go:104-115 | the labels of a node's info by name, the number empty when absent |
| InfoLabels.ClusterInfoLabels | internal/pve/resources.go:116-133 | the same for a cluster row |
| InfoLabels.VersionLabels | internal/pve/resources.go:139-145 | the labels of the version by name |
| InfoLabels.QDeviceLabels | internal/pve/resources.go:148-160 | with a model, presence and info with their labels by name; without, neither |
| InfoLabels.EachMissingGuest | internal/pve/resources.go:165-170 | every guest without a backup that has a type and a number is named by them, in order |
| InfoLabels.JobInfoLabels | internal/pve/node.go:15-26 | the labels of a job's info by name |
| InfoLabels.EachJob | internal/pve/node.go:14-37 | every listed job has its info, and its status exactly when the status call is answered, in order |
| InfoLabels.SubscriptionParts | internal/pve/node.go:42-58 | an answered subscription gives level, status and due date under the node's id |
| ClusterInfos.NodeEntryOneHot | internal/pve/ha.go:28-39 | every accepted node entry contributes the whole node state list with exactly one 1: the canonical states are all listed |
| ClusterInfos.HAEntryExact | internal/pve/ha.go:22-50 | an HA entry counts exactly for a named node with one of the five states, up to case and space around, and its own state is the one that is 1 |
| ClusterInfos.CollectStatus | internal/pve/resources.go:100-136 | one info sample per node and cluster row |
| ClusterInfos.CollectVersion | internal/pve/resources.go:139-145 | the version sample |
| ClusterInfos.CollectQDevice | internal/pve/resources.go:148-160 | two samples when a model is configured, none otherwise |
| ClusterInfos.CollectNotBackedUp | internal/pve/resources.go:163-171 | the total counts every guest; only guests with a vmid and a type get an info sample |
| ClusterInfos.CollectHAStatus | internal/pve/ha.go:22-40 | one optional call; the node HA samples, none when it fails |
| Nodes.CollectReplication | internal/pve/node.go:9-39 | the calls and samples of the replication collector: one status call per listed job; a failed status call costs only that job's status samples |
| Nodes.CollectSubscription | internal/pve/node.go:42-58 | the call and samples of the subscription collector |
| Nodes.CollectOnboot | internal/pve/node.go:62-89 | the calls and samples of the onboot collector: a failed listing ends it, a failed config call costs that guest alone |
| Nodes.CollectNode | internal/pve/collector.go:191-207 | a node worker up to the lock: its calls, and its block of samples in a set of its own |
| Plans.Schema | internal/pve/metrics.go:96-101 | whatever the answers, toggles and merge order, every sample of a target's cycle carries exactly the keys of its metric, with the target's own name first |
| Plans.PlanOfConforms | internal/pve/collector.go:98-173 | every cycle of every target is under that schema, and none of what it collects from the API is one of the two self metrics |
| Collectors.FindNodeNames | internal/pve/collector.go:218-226 | every row of kind node with a name and no other, online or not |
| Collectors.CollectNodes | internal/pve/collector.go:176-215 | the fan-out run one worker at a time: calls and blocks in node order; nothing when every node collector is off |
| Collectors.CollectTarget | internal/pve/collector.go:98-173 | one target run sequentially: the calls of its plan are logged, and the result is prefix, blocks in node order and closing samples; the degraded result when the primary call fails; it ends with pve_up, elapsed time and errors as every result does (`Plans.ResultCloses`) |
| Collectors.SequentialIsAResult | internal/pve/collector.go:176-215 | the sequential result is the concurrent one for the identity merge order |
| Plans.NodeNamesExact | internal/pve/collector.go:218-226 | the nodes of the fan-out are those of exactly the rows of kind node that name one, each row once, in row order |
| Plans.StatusDoesNotMatter | internal/pve/collector.go:218-226 | two row lists that differ in nothing but status, or any field but kind and node, give the same nodes |
| Plans.HeadPaths | internal/pve/collector.go:104-161 | the paths asked before the fan-out, required and optional, for every setting of the toggles |
| Plans.WorkerPaths | internal/pve/collector.go:191-207 | the paths a node worker starts with, for every setting of the toggles |
| Plans.ResultCloses | internal/pve/collector.go:102-173 | every result ends with pve_up, 1 exactly when /cluster/resources is answered 200 without data or with rows, under the name the cluster gives itself or the configured one; then the elapsed time and the errors |
| Cycles.CollectEach | internal/pve/collector.go:78-92 | the loop over the targets: each slot holds its own target's result, each client has logged its own calls |
| Cycles.Collector.CollectOnce | internal/pve/collector.go:57-62 | the snapshot published is the index of one result per target, in target order, with counters that include the cycle; the snapshot it replaces is unchanged |
| Cycles.Collector.SetTargets | internal/pve/collector.go:31-35 | the target list is replaced and no client is touched |
| Schedules.StepOk | internal/pve/collector.go:98-215 | every step of every worker keeps the invariant: merged blocks whole and each once, the counter equal to the counted calls made so far |
| Schedules.StepCostsOne | internal/pve/collector.go:98-215 | every step uses up exactly one of the steps left, so no schedule runs forever or skips work |
| Schedules.NoDeadlock | internal/pve/collector.go:81-92 | an unfinished cycle can always move, under every concurrency limit at both levels |
| Schedules.TargetSteps | internal/pve/collector.go:98-215 | a target takes as many steps as it makes calls, two more per node worker and three of its own |
| Schedules.CycleOutcome | internal/pve/collector.go:78-94 | schedule independence: under every limit and interleaving a cycle that cannot move is finished after a number of steps fixed by the answers, with one result per target in target order: fixed prefix, node blocks whole in some order, fixed tail with a counter that includes every call |
| Schedules.OrderIrrelevant | internal/pve/collector.go:208-210 | any two merge orders give the same multiset of samples |
| Schedules.Completes | internal/pve/collector.go:81-92 | from every reachable state the cycle can be finished |
| Locks.StepIsMerge | internal/pve/collector.go:208-210 | taking the lock, reading the list, writing it back and letting go: each step appends one whole new block or leaves the list alone, so the merge is one step |
| Locks.NothingLostUnderLock | internal/pve/collector.go:184-214 | at most one worker is inside, and once all have let go the list has each block whole and once |
| Locks.LostWithoutLock | internal/pve/collector.go:208-210 | a run without the lock that loses a block |
| Limits.BoundedConcurrency | internal/pve/collector.go:82-84 | in every reachable state no more target workers, and no more node workers of a target, run than the limit allows |
| Limits.LimitOneIsSequential | internal/pve/collector.go:186-188 | with a limit of one, every schedule gives every target exactly the sequential result |
| Requests.CallsExact | internal/pve/collector.go:98-215 | the number of calls of a cycle, in closed form: it depends on the toggles and on what the server lists |
| Requests.RequestBound | internal/pve/node.go:9-89 | at most six calls for the target, four per node, one per listed job and guest; the counter grows by no more |
| Requests.StableSelfIdentity | internal/pve/collector.go:108-173 | up or down, under every schedule, a result ends with its only elapsed-time and its only error-count sample, keyed by the configured name, and the count includes the whole cycle |
| Requests.TargetCloses | internal/pve/collector.go:102-173 | so it ends under every schedule |
| Toggles.ByCollector | internal/pve/collector.go:119-207 | conservation: a cycle collects the uncontrolled samples and, for each enabled collector, its own, and nothing else |
| Toggles.ToggleFrame | internal/pve/collector.go:139-161 | with the same answers, turning one collector off removes exactly its own samples, under any two schedules |
| HAStates.HAStatesIndependent | internal/pve/resources.go:63-65 | guest and node pve_ha_state are independent: a cycle has those of the resource rows under all toggles and, exactly when the HA collector is on, those of the HA endpoint |
| Failures.WorkerAlikeIff | internal/pve/collector.go:191-207 | two servers give a node worker the same block and calls exactly when they answer alike what it asks |
| Failures.UntouchedIff | internal/pve/collector.go:191-207 | no change of the answers for one node reaches the worker of another exactly when that worker asks nothing below the first one's directory |
| Failures.ApartAsksElsewhere | internal/pve/node.go:9-89 | so it is for nodes whose directories are apart |
| Failures.NodeIsolation | internal/pve/collector.go:189-213 | changing the answers of one node changes nothing of the target's plan but the blocks and calls of the workers that ask below its directory |
| Failures.NodeIsolated | internal/pve/collector.go:189-213 | the same of finished results under any two schedules: what is collected differs by the blocks of those workers alone |
| Failures.ApartIff | internal/pve/node.go:11-11 | two nodes' directories are apart exactly when neither name is the other one followed by a slash and more; those of host names always are |
| Failures.TargetIsolation | internal/pve/collector.go:85-91 | a target answered alike in two cycles has the same result but for the elapsed time, whatever the other targets, limits and schedules |
| Snapshots.BuildSnapshot | internal/pve/snapshot.go:26-44 | the snapshot is the index of the results; nil results are skipped |
| Snapshots.NamesExact | internal/pve/snapshot.go:36-40 | the name list has no duplicates, is in order of first occurrence, and has exactly the names that occur |
| Seqs.FirstIndicesExact | internal/pve/snapshot.go:37-39 | what "first occurrence" means there: the indices taken increase, and an index is taken exactly when no earlier element has its key |
| Snapshots.LookupIsFilter | internal/pve/snapshot.go:50-50 | a lookup is the concatenated samples filtered by name, in order |
| Snapshots.NothingLost | internal/pve/snapshot.go:31-42 | the groups of all names together are the collected samples, each as often as it was collected |
| Snapshots.PerTargetExact | internal/pve/snapshot.go:35-35 | with distinct target names no target is lost from the per-target map |
| Snapshots.SnapshotStore.constructor | internal/pve/snapshot.go:62-64 | a new store serves the empty snapshot |
| Snapshots.SnapshotStore.Store | internal/pve/snapshot.go:74-78 | only the pointer is swapped |
| Signatures.JoinInjective | internal/pve/prometheus.go:32-32 | joining non-empty lists of NUL-free strings by NUL loses nothing, whatever their lengths |
| Signatures.JoinInjectiveIff | internal/pve/prometheus.go:32-32 | over an alphabet, the join of equally long lists is injective exactly when the alphabet has no NUL |
| Signatures.SignatureIsLabels | internal/pve/prometheus.go:31-36 | for samples of one metric the value-only signature identifies the whole label list |
| Signatures.TargetsApart | internal/pve/prometheus.go:31-36 | samples of differently named, separated targets never share a signature, whatever the API answered |
| Signatures.TargetsApartIff | internal/pve/prometheus.go:31-36 | no two samples under the schema collide exactly for separated names; for real answers see Interference.UndisturbedIff |
| Pipelines.NulFreeSeparated | internal/pve/prometheus.go:32-32 | names without a NUL are separated |
| Exports.SplitLabels | internal/pve/prometheus.go:52-60 | the parallel key and value slices |
| Exports.Collect | internal/pve/prometheus.go:25-49 | one load; per metric the first sample of each signature, if accepted |
| ScrapeProperties.MetricExact | internal/pve/prometheus.go:27-48 | where the signatures of a metric tell its label lists apart, a scrape emits the samples that are the first collected of their name and label list, in order |
| ScrapeProperties.ExactIff | internal/pve/prometheus.go:27-48 | exactly there: every metric is emitted so if and only if no two different label lists of one metric share a signature |
| ScrapeProperties.ScrapeExact | internal/pve/prometheus.go:25-49 | under the same condition a scrape emits exactly the first sample of each identity, each once, and its series are pairwise distinct |
| ScrapeProperties.ScrapeComplete | internal/pve/prometheus.go:25-49 | under the same condition a series is in a scrape exactly when it is accepted and some sample has its name and labels |
| SeriesValues.ScrapeIff | internal/pve/prometheus.go:25-49 | under the same condition, field by field: a series is in a scrape exactly when it is accepted and has the name, labels and value of a sample that none of the same name and labels precedes |
| SeriesValues.ObservesExactly | internal/pve/otlp.go:83-88 | field by field: a gauge observes every sample of its name, in the order of targets and samples, each with its own value and labels |
| NulFreedom.FreeCycleTells | internal/pve/prometheus.go:31-36 | the condition holds in every reachable state of a cycle when no target name and no string of an answer has a NUL |
| Isolation.OwnSamples | internal/pve/metrics.go:96-101 | under unique names the samples that carry a target's name are the ones it collected |
| Isolation.NonInterference | internal/pve/prometheus.go:31-36 | under unique and separated names the series of one target in a scrape are those of a scrape of that target alone |
| Otlp.OTLPExporter.EnsureInstruments | internal/pve/otlp.go:73-96 | the registered set and the meter after one pass, which stops at the first name the meter refuses |
| Otlp.OTLPExporter.Callback | internal/pve/otlp.go:83-88 | a callback observes every sample of its metric in the snapshot current at the call |
| Otlp.AttrsFor | internal/pve/otlp.go:104-110 | attributes are the labels, in order |
| Otlp.SucceedsIff | internal/pve/otlp.go:77-95 | a pass succeeds exactly when the meter accepts every name that is not registered yet |
| Otlp.RegisteredOnce | internal/pve/otlp.go:73-96 | over any run of calls and snapshot swaps each name is registered at most once, and only names of some loaded snapshot are |
| Otlp.NeverShrinks | internal/pve/otlp.go:93-93 | the registered set never shrinks |
| Otlp.SuccessCovers | internal/pve/otlp.go:73-96 | a successful call covers every name of the snapshot it loaded from then on, whatever earlier calls failed part-way |
| Otlp.ReadersAgree | internal/pve/otlp.go:84-86 | of one snapshot whose signatures tell label lists apart, a scrape has exactly the accepted series its gauge observes, with the value the gauge observes first for their labels |
| Publication.EachReadIsOneSnapshot | internal/pve/snapshot.go:67-78 | over every interleaving a finished scrape is the scrape of one snapshot, and each callback observes one; each is one the run has published, or the initial empty one |
| Publication.LoadsArePublished | internal/pve/snapshot.go:67-78 | nothing is read before it is published: at every moment of every run all versions loaded so far are among those published so far and the initial one |
| Publication.RegistrationRefines | internal/pve/otlp.go:73-96 | gauges registered one at a time beside cycles, scrapes and pushes are in every reachable state those of the calls so far run one after another, none twice |
| Publication.PushesArePublished | internal/pve/otlp.go:77-93 | a push never reads the empty store: its gauges are different names of published snapshots, and every version it has loaded is published |
| Publication.ColdStart | internal/pve/snapshot.go:62-64 | before the first publication both exports are empty |
| Publication.NeverBackwards | main.go:179-187 | with the single publisher the code has, the versions loaded by all readers together never go backwards |
| Publication.TwoPublishersGoBack | main.go:179-187 | with two publishers they can: the shared goroutine is what the guarantee rests on |
| Publication.LoadOrder | main.go:179-187 | of two scrapes the one that loads later has the same version or a newer one |
| Publication.PushConsistentIff | internal/pve/otlp.go:83-88 | a push reads a single snapshot exactly when nothing is published between its first and its last callback |
| Publication.MixedPush | internal/pve/otlp.go:83-88 | whenever the first snapshot has two names, some push of gauges registered from it observes one gauge in it and the next in the snapshot published in between |
| EnvRefs.ScanSound | internal/utils/env.go:14-14 | what the scanner returns is a well-formed reference whose text is there |
| EnvRefs.RefAtExact | internal/utils/env.go:14-14 | a string starts with at most one reference, of one length, and the scanner finds it exactly when it is there |
| EnvRefs.Decomposes | internal/utils/env.go:14-14 | every string decomposes leftmost into literals and references, and re-concatenating them gives it back |
| EnvRefs.DecomposesUniquely | internal/utils/env.go:14-14 | in one way only |
| EnvRefs.CutIff | internal/utils/env.go:14-14 | cutting a string leaves its decomposition alone exactly when no reference straddles the cut |
| EnvRefs.CutAfterBrace | internal/utils/env.go:14-14 | right after any closing brace it can always be cut, whatever follows |
| EnvExpand.ExpandEnv | internal/utils/env.go:29-50 | the replacement loop returns the literals interleaved with the looked-up values, or the unset bare names in order of occurrence |
| EnvExpand.Replace | internal/utils/env.go:31-45 | the callback, which matches the matched text again, gets the same groups |
| EnvExpand.ExpandReference | internal/utils/env.go:31-45 | one reference: the value if set and not null, else the fallback, else empty if set, else an error that names it |
| EnvNames.BareIff | internal/utils/env.go:14-50 | character by character: ${name} is the value of that variable, for all values, exactly when name is a letter or underscore followed by letters, digits and underscores |
| EnvNames.FallbackIff | internal/utils/env.go:14-50 | ${name:-f} is the value, and f when the variable is unset or empty, exactly for the same names |
| EnvNames.FallbackAloneDoesNotTell | internal/utils/env.go:14-14 | falling back alone does not tell a name: a text with two references in it falls back too |
| EnvNames.NameExpands | internal/utils/env.go:31-45 | in every environment: set, empty and unset, with and without a fallback |
| EnvNames.NameAsCredential | internal/utils/env.go:60-74 | as a credential the variable must be set and come to something |
| EnvExpand.ExpandCut | internal/utils/env.go:29-50 | where no reference straddles the cut, the whole expands to the two expansions concatenated, or to their errors concatenated |
| EnvExpand.ExpandAfterBrace | internal/utils/env.go:29-50 | such a place is right after every reference |
| EnvExpand.ValuesAreNotRescanned | internal/utils/env.go:29-50 | wherever a reference is read, its value or fallback is inserted as it is, whatever it says and whatever stands before and after it |
| EnvExpand.CleanAfterLiterals | internal/utils/env.go:14-14 | a reference is read after any text without a dollar sign, and right after a dollar sign |
| EnvExpand.UnchangedIff | internal/utils/env.go:16-18 | a string is unchanged in every environment exactly when it has no reference; a result without one is a fixed point |
| EnvExpand.FailsIff | internal/utils/env.go:41-48 | expansion fails exactly when a bare variable is unset, and names exactly those |
| EnvExpand.MatchIff | internal/utils/env.go:69-69 | an unanchored match exists exactly when the decomposition has a reference |
| EnvExpand.ExpandEnvSecret | internal/utils/env.go:60-74 | the credential, the unset names, or the refusal of an empty one |
| EnvExpand.SecretStrictness | internal/utils/env.go:60-74 | a credential is refused exactly when a bare variable is unset or it is a non-empty run of references that all come to nothing; otherwise it is the plain expansion |
| EnvExpand.AcceptedIsEmptyIff | internal/utils/env.go:69-71 | an accepted credential is what its text expands to, and is empty exactly when it was written empty |
| EnvExpand.DollarFree | internal/utils/env.go:14-14 | a string without a dollar sign has no reference |
| EnvExpand.LiteralCredential | internal/utils/env.go:57-59 | a credential without a reference is accepted as it is, in every environment |
| Secrets.ResolveSecrets | internal/utils/env.go:78-110 | the clusters as they are left in place, also after a failure half-way, and the first failure |
| Secrets.StopsAtFailure | internal/utils/env.go:78-110 | after a failure the later clusters are as they were |
| Secrets.FailsAtFirst | internal/utils/env.go:78-110 | a list that does not resolve stops at the first cluster that cannot: why, which of its fields were replaced before, those before it resolved and those after untouched |
| Secrets.ClusterResolved | internal/utils/env.go:78-110 | a resolved cluster changed in its credentials only, each to its expansion; one that was written is not empty unless it came from a blank file |
| Secrets.AllResolveIff | internal/utils/env.go:78-110 | resolution succeeds exactly when every cluster's credentials are accepted and its secret file, if it needs one, can be read |
| Configs.Config.SetDefaults | internal/models/config.go:127-155 | the configuration with its defaults filled in |
| Configs.DefaultsSettle | internal/models/config.go:127-155 | defaults apply once, leave the clusters alone, and never give a URI that is refused |
| Configs.DefaultsExact | internal/models/config.go:127-155 | every field that is set keeps its value, the others get the documented default, and no other field changes |
| Configs.AcceptedIff | internal/models/config.go:158-201 | a configuration is accepted exactly when it passes every check, field by field |
| Configs.FirstReport | internal/models/config.go:161-173 | which violation outside the cluster list is reported when |
| Configs.ClusterReport | internal/models/config.go:176-194 | which one is reported of a cluster, in the order of the checks |
| Configs.Config.Validate | internal/models/config.go:158-201 | applies the defaults and reports the first violation, none exactly for a valid configuration |
| Configs.Config.CheckClusters | internal/models/config.go:176-194 | the loop with the seen set finds the first violation of the cluster list |
| Configs.ClustersValidIff | internal/models/config.go:176-194 | the cluster checks pass exactly when every cluster is complete and the names are pairwise different |
| Configs.ReportsFirst | internal/models/config.go:176-194 | the violation reported is that of the first bad cluster |
| SafeConfigs.LoadConfig | internal/models/safe_config.go:36-54 | resolve, then validate; a new configuration or the first error |
| SafeConfigs.LoadsIff | internal/models/safe_config.go:36-54 | a file loads exactly when its clusters all resolve and it is valid as written, before anything is expanded |
| SafeConfigs.LiteralFile | internal/utils/env.go:57-59 | a file that refers to nothing loads, but for its defaults, as it is in every environment if it is valid, and is refused for its first violation if not |
| SafeConfigs.LoadedTargets | internal/models/safe_config.go:36-54 | in a loaded configuration every target has a name, host and token ID, and its secret is empty only if it was left to a blank file |
| SafeConfigs.SafeConfig.ReloadConfig | internal/models/safe_config.go:58-68 | a refused file changes nothing; an accepted one is swapped in and reported as changed exactly when the cluster lists differ |
| Servers.BuildTargets | main.go:79-88 | one target per cluster, in order, each with a new client of its own |
| Servers.Server.ReloadConfig | main.go:66-76 | a reload that nothing overlaps keeps targets and clusters mirrored; a failed one changes nothing, an unchanged cluster list keeps the clients and their counters |
| Reloads.TargetsAlwaysValid | main.go:66-76 | in every reachable state of overlapping reloads the collector polls the targets of some valid configuration |
| Reloads.SerialMirrors | main.go:66-76 | after any sequence of reloads that do not overlap the targets are those of the published configuration |
| Reloads.InOrderMirrors | main.go:66-76 | reloads may overlap as long as targets are installed in the order in which the configuration was read back |
| Reloads.MirrorsIff | main.go:66-76 | at every moment of any overlapping run the targets mirror the published clusters exactly when the list swapped in last is the one swapped in last before the read of the reload that installs last |
| Reloads.QuietMirrorsIff | main.go:66-76 | once all reloads are over, if any has installed and no two read the same list: exactly when the reload that installs last is the one that reads last |
| Reloads.StaleTargets | main.go:66-76 | a run of two overlapping reloads that ends with the targets of the older one |
| Pipelines.ReachableResults | internal/pve/collector.go:78-94 | in every reachable state of a cycle each finished result conforms to its own target |
| Pipelines.LoadedTargetsDoNotInterfere | internal/models/config.go:176-184 | from the file to the scrape: if it loaded and its names are separated, under every schedule and whatever the answers, a target keeps its index entry and its series are those of a scrape of it alone |
| Pipelines.ScheduleInvisible | internal/pve/collector.go:78-94 | two finished cycles with the same answers, in which signatures tell label lists apart, export the same series, names and labels, under any limits and schedules |
| Interference.UndisturbedIff | internal/pve/prometheus.go:31-36 | over all answers, toggles, limits and schedules, uniquely named targets never lose a series to one another if and only if no name is another one followed by a NUL and more |
| Interference.LoadedUndisturbedIff | internal/models/config.go:176-184 | the same for every file that loads |
| Interference.NameCollides | internal/pve/collector.go:108-118 | the answers that do it, and under every limit a finished cycle: the target with the shorter name lists a node whose id spells the rest of the longer one, the others are down, and the target configured later of the two loses a pve_up series |
| Interference.UnseparatedLoads | internal/models/config.go:176-184 | files with such names do load |
| MergeOrders.OrderFreeIff | internal/pve/collector.go:208-210 | all merge orders show the same samples of a target exactly when, for every series its prefix does not have, the node blocks that have it start it with the same sample |
| MergeOrders.OrderHappens | internal/pve/collector.go:186-214 | without a limit every merge order of every target happens in some finished cycle |
| MergeOrders.ScheduleFreeIff | internal/pve/prometheus.go:31-36 | so for whole cycles: the first samples of all series, elapsed times aside, are the same under all limits and schedules exactly when the node workers of every target agree in that way |
| MergeOrders.TwoReportsDisagree | internal/pve/node.go:27-36 | answers for which they do not: two nodes list one replication job with different durations |
| MergeOrders.ScheduleShows | internal/pve/collector.go:208-210 | so two finished cycles of that target show different values |
| ScheduledScrapes.ScrapesFreeIff | internal/pve/prometheus.go:25-49 | where signatures tell label lists apart, the same of scrapes: all finished cycles scrape alike, elapsed times aside, exactly when the node workers of every target agree |
| ScheduledScrapes.FreeScrapesIff | internal/pve/prometheus.go:25-49 | so for all answers and names without a NUL |
| ScheduledScrapes.ScrapesDiffer | internal/pve/collector.go:208-210 | for the two nodes that report one job differently, two finished cycles are scraped differently |
| Histories.ScrapeOfCycle | internal/pve/prometheus.go:25-27 | beside any publishers and readers, a finished scrape is empty or the scrape of one finished cycle that was published, with the exactness and non-interference that such a scrape has |
| Histories.PushCanMix | internal/pve/otlp.go:77-93 | for every history whose first cycle has a target, some finished push observes two of its cycles |
| Histories.CountersExported | internal/pve/collector.go:169-169 | a scrape of a finished cycle has one error counter per target, whatever the unique names are, with its value at the end of the cycle |
| Histories.CounterGrows | internal/pve/client.go:112-141 | over cycles that keep the client the counter never decreases |
| Histories.CounterNeverDrops | internal/pve/collector.go:169-169 | of two finished scrapes the one that loads later never shows a smaller pve_request_errors_total of a target that kept its client |
| Lifetimes.KeptWithoutInstall | main.go:66-76 | a target keeps its client from one cycle to a later one if no reload installs targets between them, however reloads overlap |
| Lifetimes.CountsAnew | main.go:79-88 | targets that a reload installs count from zero until they are polled |
| Lifetimes.UnchangedNeverInstalls | internal/models/safe_config.go:58-68 | reloads of files with the cluster list that is running never install targets |
| Lifetimes.CounterDropsOnlyByInstall | internal/pve/collector.go:169-169 | so the counter a scrape shows never drops from one scrape to a later one, unless a reload installs targets between the cycles they show |

## Left out

- HTTP, TLS, retries, timeouts and cancellation: each logical call is its final outcome. A cycle cut short by its deadline shows as transport errors.
- Cancellation of sibling workers by errgroup: it needs a worker that returns an error, and every worker returns nil (internal/pve/collector.go:87-90, 191-212).
- Answers that change during a cycle: one path has one answer within a cycle.
- JSON and YAML decoding, and the parsing of numbers, dates and durations: a number is absent or a real, a due date is already parsed, and which strings are durations is a parameter.
- Floating point: values are reals; NaN, infinities and rounding are not modelled, nor is the int64 range in the integer formatting of labels.
- Clients.Client.Fetch: does not model the wrap-around of the 64-bit counter.
- Strings that are not valid UTF-8; lower-casing is modelled where the result is ASCII, which decides the HA node states.
- The Prometheus registry and the OTel SDK: an emission is a record appended to an output, and whether a metric or a gauge is accepted is a parameter.
- Metric help texts, counter or gauge types, timestamps, and the error text and scrape time kept in a target snapshot.
- Help, flags, dotenv loading, routes, probes, signal handling, file watching, logging and tracing.
- Getters, BaseURL and AuthHeader: each is settled by reading one line.
- Cycles.Collector.CollectOnce: runs the target workers one after another; the interleavings are the subject of Schedules, which works on plans and not on the heap.
- Publication: a configuration reload is not a step of it, because a reload touches no snapshot; `Lifetimes` has reloads and cycles, a cycle as one event.
