/** internal/pve/collector.go, one worker at a time: the body of collectTarget and
    of its node fan-out, against the plan of the target. What changes when workers
    interleave is the subject of module Schedules. */
module Collectors {
  import opened Seqs
  import opened Metrics
  import opened Api
  import opened Clients
  import opened Models
  import opened Resources
  import opened ClusterInfos
  import opened Nodes
  import opened Plans

  datatype Target = Target(cfg: ClusterConfig, client: Client)

  // Each optional section of collectTarget, with its toggle.

  method QDeviceSection(client: Client, t: CollectorToggles, pve: Pve, clusterId: string, s: SampleSet)
    requires client.Valid() && clusterId == ClusterId(s.cluster, pve)
    modifies client, s
    ensures client.Called(OptionalIf(t.QDeviceEnabled(), pve, QDEVICE_PATH))
    ensures s.Appended(QDevicePart(s.cluster, t, pve))
  {
    if t.QDeviceEnabled() {
      var r := client.GetOptional(pve, QDEVICE_PATH);
      if AsQDevice(r).Some? {
        CollectQDevice(s, clusterId, AsQDevice(r).value);
      } else {
        s.NothingAppended();
      }
    } else {
      client.NothingCalled();
      s.NothingAppended();
    }
  }

  method BackupSection(client: Client, t: CollectorToggles, pve: Pve, clusterId: string, s: SampleSet)
    requires client.Valid() && clusterId == ClusterId(s.cluster, pve)
    modifies client, s
    ensures client.Called(OptionalIf(t.BackupInfoEnabled(), pve, BACKUP_PATH))
    ensures s.Appended(BackupPart(s.cluster, t, pve))
  {
    if t.BackupInfoEnabled() {
      var r := client.GetOptional(pve, BACKUP_PATH);
      if AsNotBackedUp(r).Some? {
        CollectNotBackedUp(s, clusterId, AsNotBackedUp(r).value);
      } else {
        s.NothingAppended();
      }
    } else {
      client.NothingCalled();
      s.NothingAppended();
    }
  }

  method HASection(client: Client, t: CollectorToggles, pve: Pve, s: SampleSet)
    requires client.Valid()
    modifies client, s
    ensures client.Called(OptionalIf(t.HAStatusEnabled(), pve, HA_PATH))
    ensures s.Appended(HATogglePart(s.cluster, t, pve))
  {
    if t.HAStatusEnabled() {
      CollectHAStatus(client, pve, s);
    } else {
      client.NothingCalled();
      s.NothingAppended();
    }
  }

  /** The status call also resolves the cluster id used by the later sections. */
  method StatusSection(client: Client, pve: Pve, s: SampleSet) returns (clusterId: string)
    requires client.Valid()
    modifies client, s
    ensures client.Called([Required(pve, STATUS_PATH)])
    ensures s.Appended(StatusPart(s.cluster, pve))
    ensures clusterId == ClusterId(s.cluster, pve)
  {
    clusterId := SelfId(s.cluster);
    var r := client.Get(pve, STATUS_PATH);
    if AsStatus(r).Some? {
      CollectStatus(s, AsStatus(r).value);
      clusterId := ResolveId(s.cluster, AsStatus(r).value);
    } else {
      s.NothingAppended();
    }
  }

  method ResolveId(name: string, rows: seq<ClusterStatusEntry>) returns (id: string)
    ensures id == ResolvedId(name, rows)
  {
    id := SelfId(name);
    for i := 0 to |rows|
      invariant ClusterNameFromStatus(rows) == ClusterNameFromStatus(rows[i..])
    {
      if rows[i].kind == "cluster" {
        if rows[i].name != "" {
          id := SelfId(rows[i].name);
        }
        return;
      }
      assert rows[i..][1..] == rows[i + 1..];
    }
  }

  method VersionSection(client: Client, pve: Pve, s: SampleSet)
    requires client.Valid()
    modifies client, s
    ensures client.Called([Required(pve, VERSION_PATH)])
    ensures s.Appended(VersionPart(s.cluster, pve))
  {
    var r := client.Get(pve, VERSION_PATH);
    if AsVersion(r).Some? {
      CollectVersion(s, AsVersion(r).value);
    } else {
      s.NothingAppended();
    }
  }

  method FindNodeNames(rows: seq<ClusterResource>) returns (names: seq<string>)
    ensures names == NodeNames(rows)
    ensures forall n :: n in names <==>
      exists i :: 0 <= i < |rows| && rows[i].kind == "node" && rows[i].node != "" && rows[i].node == n
  {
    names := [];
    for i := 0 to |rows|
      invariant names == NodeNames(rows[..i])
    {
      assert rows[..i + 1][..i] == rows[..i];
      if rows[i].kind == "node" && rows[i].node != "" {
        names := names + [rows[i].node];
      }
    }
    assert rows[..|rows|] == rows;
    ghost var ix := NodeNamesExact(rows);
    forall i | 0 <= i < |rows| && rows[i].kind == "node" && rows[i].node != "" ensures rows[i].node in names {
      assert i in ix;
    }
    assert forall k :: 0 <= k < |ix| ==> ix[k] in ix;
  }

  function NodesSamples(c: string, t: CollectorToggles, pve: Pve, nodes: seq<string>): seq<Sample> {
    if nodes == [] then []
    else NodesSamples(c, t, pve, nodes[..|nodes| - 1]) + NodeBlock(c, t, pve, nodes[|nodes| - 1])
  }

  function NodesCalls(t: CollectorToggles, pve: Pve, nodes: seq<string>): seq<Exchange> {
    if nodes == [] then []
    else NodesCalls(t, pve, nodes[..|nodes| - 1]) + NodeCalls(t, pve, nodes[|nodes| - 1])
  }

  /** The node fan-out, with the workers run one after another. */
  method CollectNodes(client: Client, t: CollectorToggles, pve: Pve, nodes: seq<string>, s: SampleSet)
    requires client.Valid()
    modifies client, s
    ensures client.Called(if AnyNodeCollector(t) then NodesCalls(t, pve, nodes) else [])
    ensures s.Appended(if AnyNodeCollector(t) then NodesSamples(s.cluster, t, pve, nodes) else [])
  {
    ghost var b, a := s.Mark();
    ghost var cb, ca := client.Mark();
    if |nodes| == 0 || (!t.ReplicationEnabled() && !t.SubscriptionEnabled() && !t.OnbootEnabled()) {
      s.Release(b, a);
      client.Release(cb, ca);
      return;
    }
    for i := 0 to |nodes|
      invariant s.Marked() && s.base == old(s.out) && s.added == NodesSamples(s.cluster, t, pve, nodes[..i])
      invariant client.Valid() && client.Marked() && client.base == old(client.log)
      invariant client.added == NodesCalls(t, pve, nodes[..i])
    {
      assert nodes[..i + 1][..i] == nodes[..i];
      var local := CollectNode(client, s.cluster, t, pve, nodes[i]);
      s.AddAll(local.out);
    }
    assert nodes[..|nodes|] == nodes;
    s.Release(b, a);
    client.Release(cb, ca);
  }

  lemma {:induction false} NodesOfPlan(c: string, t: CollectorToggles, pve: Pve, nodes: seq<string>)
    ensures NodesSamples(c, t, pve, nodes) == Flatten(Blocks(NodePlans(c, t, pve, nodes)))
    ensures NodesCalls(t, pve, nodes) == Flatten(WorkerCalls(NodePlans(c, t, pve, nodes)))
  {
    if nodes == [] {
    } else {
      NodesOfPlan(c, t, pve, nodes[..|nodes| - 1]);
      LastWorker(NodePlans(c, t, pve, nodes));
    }
  }

  lemma FanOutOfPlan(c: string, t: CollectorToggles, pve: Pve, nodes: seq<string>)
    ensures Flatten(Blocks(FanOut(c, t, pve, nodes)))
      == (if AnyNodeCollector(t) then NodesSamples(c, t, pve, nodes) else [])
    ensures Flatten(WorkerCalls(FanOut(c, t, pve, nodes)))
      == (if AnyNodeCollector(t) then NodesCalls(t, pve, nodes) else [])
  {
    NodesOfPlan(c, t, pve, nodes);
  }

  /** Everything between the primary call and the node fan-out. */
  method CollectHead(client: Client, t: CollectorToggles, pve: Pve, rows: seq<ClusterResource>, s: SampleSet)
    returns (clusterId: string)
    requires client.Valid() && client.Marked() && client.added == [] + [Required(pve, RESOURCES_PATH)]
    requires s.Marked() && s.added == []
    modifies client, s
    ensures client.Valid() && client.Marked() && client.base == old(client.base) && client.added == HeadCalls(t, pve)
    ensures s.Marked() && s.base == old(s.base) && s.added == Prefix(s.cluster, t, pve, rows)
    ensures clusterId == ClusterId(s.cluster, pve)
  {
    CollectResources(s, rows);
    clusterId := StatusSection(client, pve, s);
    VersionSection(client, pve, s);
    QDeviceSection(client, t, pve, clusterId, s);
    BackupSection(client, t, pve, clusterId, s);
    HASection(client, t, pve, s);
  }

  /** The samples every target ends with, whether it answered or not. */
  method CloseTarget(client: Client, up: bool, upId: string, elapsed: real, s: SampleSet)
    modifies s
    ensures s.out == old(s.out) + [
      MakeSample(s.cluster, Up, BoolToReal(up), [IdLabel(upId)]),
      MakeSample(s.cluster, CollectionDuration, elapsed, [IdLabel(SelfId(s.cluster))]),
      MakeSample(s.cluster, RequestErrors, client.requestErrors as real, [IdLabel(SelfId(s.cluster))])]
  {
    s.Add(Up, BoolToReal(up), [IdLabel(upId)]);
    s.Add(CollectionDuration, elapsed, [IdLabel(SelfId(s.cluster))]);
    s.Add(RequestErrors, client.requestErrors as real, [IdLabel(SelfId(s.cluster))]);
  }

  /** The rest of a cycle whose primary call succeeded. */
  method CollectUp(client: Client, t: CollectorToggles, pve: Pve, rows: seq<ClusterResource>, s: SampleSet)
    returns (clusterId: string)
    requires AsResources(ReplyOf(pve(RESOURCES_PATH))) == Some(rows)
    requires client.Valid() && client.Marked() && client.added == [] + [Required(pve, RESOURCES_PATH)]
    requires s.Marked() && s.added == []
    modifies client, s
    ensures var p := PlanOf(s.cluster, t, pve);
      && client.Valid() && client.Marked() && client.base == old(client.base) && client.added == AllCalls(p)
      && s.Marked() && s.base == old(s.base) && s.added == p.prefix + Flatten(Blocks(p.nodes))
      && clusterId == p.upId
  {
    clusterId := CollectHead(client, t, pve, rows, s);
    var nodes := FindNodeNames(rows);
    CollectNodes(client, t, pve, nodes, s);
    FanOutOfPlan(s.cluster, t, pve, nodes);
  }

  /** One target, one cycle. elapsed is the time the cycle took. A failed primary
      call leaves a degraded result: the closing samples alone. */
  method CollectTarget(target: Target, t: CollectorToggles, pve: Pve, elapsed: real) returns (ts: TargetSnapshot)
    requires target.client.Valid()
    modifies target.client
    ensures target.client.Valid()
    ensures target.client.log == old(target.client.log) + AllCalls(PlanOf(target.cfg.name, t, pve))
    ensures ts == SequentialResult(PlanOf(target.cfg.name, t, pve), elapsed, target.client.requestErrors)
    ensures ClosesAs(ts, target.cfg.name, pve, elapsed, target.client.requestErrors)
  {
    var client, name := target.client, target.cfg.name;
    var s := new SampleSet(name);
    ghost var b, a := s.Mark();
    ghost var cb, ca := client.Mark();
    var r := client.Get(pve, RESOURCES_PATH);
    if AsResources(r).None? {
      DegradedPlan(name, t, pve, elapsed, client.requestErrors);
      CloseTarget(client, false, SelfId(name), elapsed, s);
      ts := TargetSnapshot(name, false, s.out);
    } else {
      var upId := CollectUp(client, t, pve, AsResources(r).value, s);
      Regroup(s.added, [], []);
      CloseTarget(client, true, upId, elapsed, s);
      ts := TargetSnapshot(name, true, s.out);
    }
    SequentialCloses(name, t, pve, elapsed, client.requestErrors);
  }

  lemma SequentialCloses(name: string, t: CollectorToggles, pve: Pve, elapsed: real, errors: nat)
    ensures ClosesAs(SequentialResult(PlanOf(name, t, pve), elapsed, errors), name, pve, elapsed, errors)
  {
    UpIdExact(name, t, pve);
    var p := PlanOf(name, t, pve);
    TailCloses(p, p.prefix + Flatten(Blocks(p.nodes)), pve, elapsed, errors);
  }

  lemma DegradedPlan(name: string, t: CollectorToggles, pve: Pve, elapsed: real, errors: nat)
    requires AsResources(ReplyOf(pve(RESOURCES_PATH))).None?
    ensures var p := PlanOf(name, t, pve);
      && AllCalls(p) == [] + [Required(pve, RESOURCES_PATH)]
      && SequentialResult(p, elapsed, errors) == TargetSnapshot(name, false, [] + Tail(p, elapsed, errors))
  {
  }

  /** The result of the one-at-a-time run: blocks in node order. */
  function SequentialResult(p: Plan, elapsed: real, errors: nat): TargetSnapshot {
    TargetSnapshot(p.name, p.up, p.prefix + Flatten(Blocks(p.nodes)) + Tail(p, elapsed, errors))
  }

  /** It is one of the results a concurrent run can have. */
  lemma SequentialIsAResult(p: Plan, elapsed: real, errors: nat)
    ensures SequentialResult(p, elapsed, errors) == Result(p, IdentityOrder(|p.nodes|), elapsed, errors)
  {
    PickIdentity(Blocks(p.nodes));
  }
}
