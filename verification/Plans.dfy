/** What one collection cycle of one target amounts to once the server's answers
    are fixed: the calls and samples before the node fan-out, one list of calls
    and one block of samples per node worker, and the closing samples. */
module Plans {
  import opened Seqs
  import opened Metrics
  import opened Api
  import opened Clients
  import opened Models
  import opened Resources
  import opened ClusterInfos
  import opened Nodes

  datatype TargetSnapshot = TargetSnapshot(cluster: string, up: bool, samples: seq<Sample>)

  datatype NodePlan = NodePlan(calls: seq<Exchange>, block: seq<Sample>)

  datatype Plan = Plan(
    name: string,            // the configured target name
    up: bool,                // the primary call succeeded
    head: seq<Exchange>,     // calls before the fan-out
    prefix: seq<Sample>,     // samples before the fan-out
    nodes: seq<NodePlan>,    // one worker each
    upId: string)            // id of the target's own pve_up series

  function Required(pve: Pve, path: string): Exchange { Exchange(path, false, pve(path)) }

  /** Every row of kind node with a name, whatever its status. */
  function NodeNames(rows: seq<ClusterResource>): seq<string> {
    if rows == [] then []
    else
      var r := rows[|rows| - 1];
      NodeNames(rows[..|rows| - 1]) + (if r.kind == "node" && r.node != "" then [r.node] else [])
  }

  /** The fan-out is over the nodes of exactly the rows of kind node that name one, each
      row once and in row order. */
  lemma NodeNamesExact(rows: seq<ClusterResource>) returns (ix: seq<nat>)
    ensures Increasing(ix)
    ensures forall i: nat :: i in ix <==> i < |rows| && rows[i].kind == "node" && rows[i].node != ""
    ensures |NodeNames(rows)| == |ix|
    ensures forall k :: 0 <= k < |ix| ==> ix[k] < |rows| && NodeNames(rows)[k] == rows[ix[k]].node
  {
    var p := (r: ClusterResource) => r.kind == "node" && r.node != "";
    ix := FilterIndices(p, rows);
    NamesOfNodeRows(p, rows);
  }

  lemma {:induction false} NamesOfNodeRows(p: ClusterResource -> bool, rows: seq<ClusterResource>)
    requires forall r :: p(r) <==> r.kind == "node" && r.node != ""
    ensures var found := Filter(p, rows);
      |NodeNames(rows)| == |found| && forall k :: 0 <= k < |found| ==> NodeNames(rows)[k] == found[k].node
  {
    if rows == [] {
    } else {
      NamesOfNodeRows(p, rows[..|rows| - 1]);
    }
  }

  /** Whether a node is online does not matter, nor does anything else in its row. */
  lemma {:induction false} StatusDoesNotMatter(rows: seq<ClusterResource>, others: seq<ClusterResource>)
    requires |rows| == |others|
    requires forall i :: 0 <= i < |rows| ==> rows[i].kind == others[i].kind && rows[i].node == others[i].node
    ensures NodeNames(rows) == NodeNames(others)
  {
    if rows == [] {
    } else {
      var n := |rows| - 1;
      StatusDoesNotMatter(rows[..n], others[..n]);
    }
  }

  /** The name in the first cluster row, or "". */
  function ClusterNameFromStatus(rows: seq<ClusterStatusEntry>): string {
    if rows == [] then ""
    else if rows[0].kind == "cluster" then rows[0].name
    else ClusterNameFromStatus(rows[1..])
  }

  /** That row, if there is one. */
  lemma {:induction false} FirstClusterRow(rows: seq<ClusterStatusEntry>) returns (k: nat)
    ensures k <= |rows| && forall j :: 0 <= j < k ==> rows[j].kind != "cluster"
    ensures k < |rows| ==> rows[k].kind == "cluster" && ClusterNameFromStatus(rows) == rows[k].name
    ensures k == |rows| ==> ClusterNameFromStatus(rows) == ""
  {
    if rows == [] || rows[0].kind == "cluster" {
      k := 0;
    } else {
      var later := FirstClusterRow(rows[1..]);
      k := later + 1;
      assert forall j :: 0 < j < k ==> rows[j] == rows[1..][j - 1];
    }
  }

  function SelfId(name: string): string { "cluster/" + name }

  /** The cluster's own name if the status rows give one, else the target's. */
  function ResolvedId(name: string, rows: seq<ClusterStatusEntry>): string {
    var cn := ClusterNameFromStatus(rows);
    SelfId(if cn != "" then cn else name)
  }

  function ClusterId(name: string, pve: Pve): string {
    match AsStatus(ReplyOf(pve(STATUS_PATH)))
    case None => SelfId(name)
    case Some(rows) => ResolvedId(name, rows)
  }

  function StatusPart(c: string, pve: Pve): (out: seq<Sample>)
    ensures AllCollected(c, out)
  {
    match AsStatus(ReplyOf(pve(STATUS_PATH))) case None => [] case Some(rows) => StatusSamples(c, rows)
  }

  function VersionPart(c: string, pve: Pve): (out: seq<Sample>)
    ensures AllCollected(c, out)
  {
    match AsVersion(ReplyOf(pve(VERSION_PATH))) case None => [] case Some(v) => [VersionSample(c, v)]
  }

  function QDevicePart(c: string, t: CollectorToggles, pve: Pve): (out: seq<Sample>)
    ensures AllCollected(c, out)
  {
    if !t.QDeviceEnabled() then []
    else match AsQDevice(ReplyOf(pve(QDEVICE_PATH))) case None => []
      case Some(q) => QDeviceSamples(c, ClusterId(c, pve), q)
  }

  function BackupPart(c: string, t: CollectorToggles, pve: Pve): (out: seq<Sample>)
    ensures AllCollected(c, out)
  {
    if !t.BackupInfoEnabled() then []
    else match AsNotBackedUp(ReplyOf(pve(BACKUP_PATH))) case None => []
      case Some(gs) => BackupSamples(c, ClusterId(c, pve), gs)
  }

  function HATogglePart(c: string, t: CollectorToggles, pve: Pve): (out: seq<Sample>)
    ensures AllCollected(c, out)
  {
    if t.HAStatusEnabled() then HAPart(c, pve) else []
  }

  function Prefix(c: string, t: CollectorToggles, pve: Pve, rows: seq<ClusterResource>): (out: seq<Sample>)
    ensures AllCollected(c, out)
  {
    [] + ResourceSamples(c, rows) + StatusPart(c, pve) + VersionPart(c, pve)
    + QDevicePart(c, t, pve) + BackupPart(c, t, pve) + HATogglePart(c, t, pve)
  }

  function OptionalIf(enabled: bool, pve: Pve, path: string): (calls: seq<Exchange>)
    ensures |calls| <= 1
  {
    if enabled then [Optional(pve, path)] else []
  }

  function HeadCalls(t: CollectorToggles, pve: Pve): seq<Exchange> {
    [] + [Required(pve, RESOURCES_PATH)] + [Required(pve, STATUS_PATH)] + [Required(pve, VERSION_PATH)]
    + OptionalIf(t.QDeviceEnabled(), pve, QDEVICE_PATH)
    + OptionalIf(t.BackupInfoEnabled(), pve, BACKUP_PATH)
    + OptionalIf(t.HAStatusEnabled(), pve, HA_PATH)
  }

  predicate AnyNodeCollector(t: CollectorToggles) {
    t.ReplicationEnabled() || t.SubscriptionEnabled() || t.OnbootEnabled()
  }

  function NodePlanOf(c: string, t: CollectorToggles, pve: Pve, node: string): NodePlan {
    NodePlan(NodeCalls(t, pve, node), NodeBlock(c, t, pve, node))
  }

  function NodePlans(c: string, t: CollectorToggles, pve: Pve, nodes: seq<string>): (ps: seq<NodePlan>)
    ensures |ps| == |nodes|
    ensures forall i :: 0 <= i < |nodes| ==> ps[i] == NodePlanOf(c, t, pve, nodes[i])
  {
    if nodes == [] then []
    else NodePlans(c, t, pve, nodes[..|nodes| - 1]) + [NodePlanOf(c, t, pve, nodes[|nodes| - 1])]
  }

  /** The workers of the fan-out: none when every node collector is off. */
  function FanOut(c: string, t: CollectorToggles, pve: Pve, nodes: seq<string>): seq<NodePlan> {
    if AnyNodeCollector(t) then NodePlans(c, t, pve, nodes) else []
  }

  function PlanOf(name: string, t: CollectorToggles, pve: Pve): Plan {
    match AsResources(ReplyOf(pve(RESOURCES_PATH)))
    case None => Plan(name, false, [Required(pve, RESOURCES_PATH)], [], [], SelfId(name))
    case Some(rows) =>
      Plan(name, true, HeadCalls(t, pve), Prefix(name, t, pve, rows),
        FanOut(name, t, pve, NodeNames(rows)), ClusterId(name, pve))
  }

  lemma PlanPrefix(c: string, t: CollectorToggles, pve: Pve, rows: seq<ClusterResource>)
    requires AsResources(ReplyOf(pve(RESOURCES_PATH))) == Some(rows)
    ensures PlanOf(c, t, pve).prefix == Prefix(c, t, pve, rows)
  {
  }

  /** One plan per configured target, each answered by a server of its own. */
  function PlansFor(cs: seq<ClusterConfig>, t: CollectorToggles, pves: seq<Pve>): (ps: seq<Plan>)
    requires |pves| == |cs|
    ensures |ps| == |cs|
  {
    seq(|cs|, i requires 0 <= i < |cs| => PlanOf(cs[i].name, t, pves[i]))
  }

  function Blocks(ps: seq<NodePlan>): (bs: seq<seq<Sample>>)
    ensures |bs| == |ps|
  {
    seq(|ps|, i requires 0 <= i < |ps| => ps[i].block)
  }

  function WorkerCalls(ps: seq<NodePlan>): (cs: seq<seq<Exchange>>)
    ensures |cs| == |ps|
  {
    seq(|ps|, i requires 0 <= i < |ps| => ps[i].calls)
  }

  lemma LastWorker(ps: seq<NodePlan>)
    requires ps != []
    ensures Flatten(Blocks(ps)) == Flatten(Blocks(ps[..|ps| - 1])) + ps[|ps| - 1].block
    ensures Flatten(WorkerCalls(ps)) == Flatten(WorkerCalls(ps[..|ps| - 1])) + ps[|ps| - 1].calls
  {
    assert Blocks(ps)[..|ps| - 1] == Blocks(ps[..|ps| - 1]);
    assert WorkerCalls(ps)[..|ps| - 1] == WorkerCalls(ps[..|ps| - 1]);
  }

  /** All calls of the cycle, in the order of a one-at-a-time run. */
  function AllCalls(p: Plan): seq<Exchange> {
    p.head + Flatten(WorkerCalls(p.nodes))
  }

  /** The closing samples: up, duration and the error counter. The last two are
      keyed by the configured name, up or down. */
  function Tail(p: Plan, elapsed: real, errors: nat): (out: seq<Sample>)
    ensures AllConform(p.name, out)
  {
    [MakeSample(p.name, Up, BoolToReal(p.up), [IdLabel(p.upId)]),
     MakeSample(p.name, CollectionDuration, elapsed, [IdLabel(SelfId(p.name))]),
     MakeSample(p.name, RequestErrors, errors as real, [IdLabel(SelfId(p.name))])]
  }

  /** The samples of a finished cycle whose workers merged in the given order. */
  function Samples(p: Plan, order: seq<nat>, elapsed: real, errors: nat): seq<Sample>
    requires IsOrder(order, |p.nodes|)
  {
    p.prefix + Flatten(Pick(Blocks(p.nodes), order)) + Tail(p, elapsed, errors)
  }

  function Result(p: Plan, order: seq<nat>, elapsed: real, errors: nat): TargetSnapshot
    requires IsOrder(order, |p.nodes|)
  {
    TargetSnapshot(p.name, p.up, Samples(p, order, elapsed, errors))
  }

  // ---- how every result ends ----

  /** The primary call succeeds: 200, with resource rows or without data. */
  predicate Answers(pve: Pve) {
    var a := pve("/cluster/resources");
    a.Response? && a.code == 200 && (a.body.NoData? || (a.body.Data? && a.body.payload.Resources?))
  }

  /** The status call names the cluster, in the first row of kind cluster. */
  ghost predicate NamesItself(pve: Pve, cn: string) {
    var a := pve("/cluster/status");
    && cn != "" && a.Response? && a.code == 200 && a.body.Data? && a.body.payload.StatusRows?
    && var rows := a.body.payload.entries;
       exists k :: (0 <= k < |rows| && rows[k].kind == "cluster" && rows[k].name == cn
         && forall j :: 0 <= j < k ==> rows[j].kind != "cluster")
  }

  function IdLabels(c: string, name: string): seq<Label> { [Label("cluster", c), Label("id", "cluster/" + name)] }

  /** The last three samples of a target's result: whether it is up, under the name the
      cluster gives itself if it is and gives one; the time it took; and its errors. */
  ghost predicate ClosesAs(ts: TargetSnapshot, c: string, pve: Pve, elapsed: real, errors: nat) {
    var n := |ts.samples|;
    && n >= 3 && ts.cluster == c && (ts.up <==> Answers(pve))
    && ts.samples[n - 3].name == Up && ts.samples[n - 3].value == (if Answers(pve) then 1.0 else 0.0)
    && (forall cn :: Answers(pve) && NamesItself(pve, cn) ==> ts.samples[n - 3].labels == IdLabels(c, cn))
    && ((!Answers(pve) || forall cn :: !NamesItself(pve, cn)) ==> ts.samples[n - 3].labels == IdLabels(c, c))
    && ts.samples[n - 2] == Sample(CollectionDuration, IdLabels(c, c), elapsed)
    && ts.samples[n - 1] == Sample(RequestErrors, IdLabels(c, c), errors as real)
  }

  lemma ClusterIdExact(c: string, pve: Pve)
    ensures forall cn :: NamesItself(pve, cn) ==> ClusterId(c, pve) == "cluster/" + cn
    ensures (forall cn :: !NamesItself(pve, cn)) ==> ClusterId(c, pve) == "cluster/" + c
  {
    var r := AsStatus(ReplyOf(pve(STATUS_PATH)));
    if r.Some? {
      var k := FirstClusterRow(r.value);
      if k < |r.value| && r.value[k].name != "" {
        assert NamesItself(pve, r.value[k].name);
      }
    }
  }

  lemma UpIdExact(c: string, t: CollectorToggles, pve: Pve)
    ensures var p := PlanOf(c, t, pve);
      && p.name == c && (p.up <==> Answers(pve))
      && p.upId == if Answers(pve) then ClusterId(c, pve) else "cluster/" + c
  {
    AnswersIff(pve);
    PlanHeader(c, t, pve);
  }

  lemma AnswersIff(pve: Pve)
    ensures Answers(pve) <==> AsResources(ReplyOf(pve(RESOURCES_PATH))).Some?
  {
  }

  lemma PlanWhenUp(c: string, t: CollectorToggles, pve: Pve)
    requires AsResources(ReplyOf(pve(RESOURCES_PATH))).Some?
    ensures PlanOf(c, t, pve).up && PlanOf(c, t, pve).upId == ClusterId(c, pve)
  {
  }

  lemma PlanHeader(c: string, t: CollectorToggles, pve: Pve)
    ensures var p, up := PlanOf(c, t, pve), AsResources(ReplyOf(pve(RESOURCES_PATH))).Some?;
      p.name == c && p.up == up && p.upId == if up then ClusterId(c, pve) else SelfId(c)
  {
    if AsResources(ReplyOf(pve(RESOURCES_PATH))).Some? {
      PlanWhenUp(c, t, pve);
    }
  }

  lemma TailCloses(p: Plan, body: seq<Sample>, pve: Pve, elapsed: real, errors: nat)
    requires p.up <==> Answers(pve)
    requires p.upId == if Answers(pve) then ClusterId(p.name, pve) else "cluster/" + p.name
    ensures ClosesAs(TargetSnapshot(p.name, p.up, body + Tail(p, elapsed, errors)), p.name, pve, elapsed, errors)
  {
    ClusterIdExact(p.name, pve);
    var tail := Tail(p, elapsed, errors);
    assert [Label("cluster", p.name)] + [IdLabel(p.upId)] == [Label("cluster", p.name), Label("id", p.upId)];
    assert [Label("cluster", p.name)] + [IdLabel(SelfId(p.name))] == IdLabels(p.name, p.name);
    assert |tail| == 3;
  }

  /** Every result ends so, whatever the merge order. */
  lemma ResultCloses(c: string, t: CollectorToggles, pve: Pve, order: seq<nat>, elapsed: real, errors: nat)
    requires IsOrder(order, |PlanOf(c, t, pve).nodes|)
    ensures ClosesAs(Result(PlanOf(c, t, pve), order, elapsed, errors), c, pve, elapsed, errors)
  {
    UpIdExact(c, t, pve);
    SamplesEndInTail(PlanOf(c, t, pve), order, pve, elapsed, errors);
  }

  lemma SamplesEndInTail(p: Plan, order: seq<nat>, pve: Pve, elapsed: real, errors: nat)
    requires IsOrder(order, |p.nodes|) && (p.up <==> Answers(pve))
    requires p.upId == if Answers(pve) then ClusterId(p.name, pve) else "cluster/" + p.name
    ensures ClosesAs(Result(p, order, elapsed, errors), p.name, pve, elapsed, errors)
  {
    TailCloses(p, p.prefix + Flatten(Pick(Blocks(p.nodes), order)), pve, elapsed, errors);
  }

  // ---- the fixed calls of a target ----

  function PathsOf(calls: seq<Exchange>): seq<string> {
    seq(|calls|, i requires 0 <= i < |calls| => calls[i].path)
  }

  /** The calls before the fan-out, path by path: three required ones, then those of the
      collectors that are not switched off, optional. */
  lemma HeadPaths(t: CollectorToggles, pve: Pve)
    ensures PathsOf(HeadCalls(t, pve)) == ["/cluster/resources", "/cluster/status", "/version"]
      + (if t.qdevice == Some(false) then [] else ["/cluster/config/qdevice"])
      + (if t.backupInfo == Some(false) then [] else ["/cluster/backup-info/not-backed-up"])
      + (if t.haStatus == Some(false) then [] else ["/cluster/ha/status/current"])
    ensures forall i :: 0 <= i < |HeadCalls(t, pve)| ==>
      (HeadCalls(t, pve)[i].optional <==> i >= 3) && HeadCalls(t, pve)[i].answer == pve(HeadCalls(t, pve)[i].path)
  {
  }

  /** The calls a node worker starts its collectors with, unless they are switched off;
      with all three off it makes none. */
  lemma WorkerPaths(t: CollectorToggles, pve: Pve, node: string)
    ensures var dir, calls := "/nodes/" + node + "/", NodeCalls(t, pve, node);
      && (t.replication != Some(false) ==> Exchange(dir + "replication", true, pve(dir + "replication")) in calls)
      && (t.subscription != Some(false) ==> Exchange(dir + "subscription", true, pve(dir + "subscription")) in calls)
      && (t.onboot != Some(false) ==> Exchange(dir + "qemu", true, pve(dir + "qemu")) in calls)
      && (t.replication == t.subscription == t.onboot == Some(false) ==> calls == [])
  {
  }

  predicate PlanConforms(p: Plan) {
    AllCollected(p.name, p.prefix) && forall i :: 0 <= i < |p.nodes| ==> AllCollected(p.name, p.nodes[i].block)
  }

  lemma PlanOfConforms(name: string, t: CollectorToggles, pve: Pve)
    ensures PlanConforms(PlanOf(name, t, pve)) && PlanOf(name, t, pve).name == name
  {
  }

  lemma {:induction false} FlattenCollected(c: string, bs: seq<seq<Sample>>)
    requires forall i :: 0 <= i < |bs| ==> AllCollected(c, bs[i])
    ensures AllCollected(c, Flatten(bs))
  {
    if bs == [] {
    } else {
      FlattenCollected(c, bs[..|bs| - 1]);
    }
  }

  /** The label-key schema, for every set of answers, toggles, merge order and
      target: each sample of a cycle carries exactly the keys of its metric, with
      the target's own name first. */
  lemma Schema(p: Plan, order: seq<nat>, elapsed: real, errors: nat)
    requires PlanConforms(p) && IsOrder(order, |p.nodes|)
    ensures AllConform(p.name, Samples(p, order, elapsed, errors))
  {
    FlattenCollected(p.name, Pick(Blocks(p.nodes), order));
  }
}
