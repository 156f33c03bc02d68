/** internal/pve/resources.go (status, version, qdevice, backups) and ha.go:
    the other target-level endpoints. */
module ClusterInfos {
  import opened Seqs
  import opened Metrics
  import opened Api
  import opened Clients
  import opened Strings

  function IntLabel(name: string, f: FlexFloat): Label {
    Label(name, if f.Some? then FormatInt(f.value) else "")
  }

  function StatusEntrySamples(c: string, e: ClusterStatusEntry): (out: seq<Sample>)
    ensures AllCollected(c, out)
  {
    if e.kind == "node" then
      [MakeSample(c, NodeInfo, 1.0,
        [IdLabel(e.id), Label("name", e.name), Label("level", e.level), IntLabel("nodeid", e.nodeId)])]
    else if e.kind == "cluster" then
      [MakeSample(c, Metric.ClusterInfo, 1.0,
        [IdLabel(e.id), IntLabel("nodes", e.nodes), IntLabel("quorate", e.quorate), IntLabel("version", e.version)])]
    else []
  }

  function StatusSamples(c: string, rows: seq<ClusterStatusEntry>): (out: seq<Sample>)
    ensures AllCollected(c, out)
  {
    if rows == [] then []
    else StatusSamples(c, rows[..|rows| - 1]) + StatusEntrySamples(c, rows[|rows| - 1])
  }

  function VersionSample(c: string, v: ReleaseInfo): (s: Sample)
    ensures Conforms(c, s)
  {
    MakeSample(c, VersionInfo, 1.0,
      [Label("release", v.release), Label("repoid", v.repoId), Label("version", v.version)])
  }

  function NetworkField(q: QDeviceConfig, key: string): string {
    if key in q.network then q.network[key] else ""
  }

  function QDeviceSamples(c: string, clusterId: string, q: QDeviceConfig): (out: seq<Sample>)
    ensures AllCollected(c, out)
  {
    if q.model == "" then []
    else [
      MakeSample(c, QDeviceUp, 1.0, [IdLabel(clusterId)]),
      MakeSample(c, QDeviceInfo, 1.0,
        [IdLabel(clusterId), Label("model", q.model),
         Label("host", NetworkField(q, "host")), Label("algorithm", NetworkField(q, "algorithm"))])]
  }

  /** Guests without a valid vmid or without a type are skipped, but counted. */
  function MissingSamples(c: string, guests: seq<NotBackedUpGuest>): (out: seq<Sample>)
    ensures AllCollected(c, out)
  {
    if guests == [] then []
    else
      var g := guests[|guests| - 1];
      MissingSamples(c, guests[..|guests| - 1])
      + (if g.vmid.None? || g.kind == "" then []
         else [MakeSample(c, NotBackedUpInfo, 1.0, [IdLabel(g.kind + "/" + FormatInt(g.vmid.value))])])
  }

  function BackupSamples(c: string, clusterId: string, guests: seq<NotBackedUpGuest>): (out: seq<Sample>)
    ensures AllCollected(c, out)
  {
    [MakeSample(c, NotBackedUpTotal, |guests| as real, [IdLabel(clusterId)])] + MissingSamples(c, guests)
  }

  const HA_NODE_STATUS_MAP := map[
    "online" := "online", "maintenance" := "maintenance", "unknown" := "unknown", "fence" := "fence", "gone" := "gone"]

  function CanonicalNodeHAState(status: string): string {
    var s := ToLower(TrimSpace(status));
    if s in HA_NODE_STATUS_MAP then HA_NODE_STATUS_MAP[s] else ""
  }

  predicate Accepted(e: HAStatusEntry) {
    e.kind == "node" && e.node != "" && CanonicalNodeHAState(e.status) != ""
  }

  function HAEntrySamples(c: string, e: HAStatusEntry): (out: seq<Sample>)
    ensures AllCollected(c, out)
  {
    if Accepted(e) then StateEnum(c, HAState, "node/" + e.node, CanonicalNodeHAState(e.status), HA_NODE_STATES) else []
  }

  function HASamples(c: string, entries: seq<HAStatusEntry>): (out: seq<Sample>)
    ensures AllCollected(c, out)
  {
    if entries == [] then []
    else HASamples(c, entries[..|entries| - 1]) + HAEntrySamples(c, entries[|entries| - 1])
  }

  lemma StateListsDistinct()
    ensures NoDup(HA_NODE_STATES) && NoDup(HA_GUEST_STATES) && NoDup(LOCK_STATES) && NoDup(SUB_STATES)
  {
  }

  /** Every accepted node entry contributes the whole node state list with
      exactly one 1: the canonical states are all listed. */
  lemma NodeEntryOneHot(c: string, e: HAStatusEntry)
    requires Accepted(e)
    ensures |HAEntrySamples(c, e)| == |HA_NODE_STATES| == 5
    ensures |Ones(HAEntrySamples(c, e))| == 1
  {
    var state := CanonicalNodeHAState(e.status);
    assert state in HA_NODE_STATES by {
      assert HA_NODE_STATES[0] == "online" && HA_NODE_STATES[1] == "maintenance" && HA_NODE_STATES[2] == "unknown"
        && HA_NODE_STATES[3] == "fence" && HA_NODE_STATES[4] == "gone";
    }
    StateListsDistinct();
    OneHot(c, HAState, "node/" + e.node, state, HA_NODE_STATES);
    EnumShape(c, HAState, "node/" + e.node, state, HA_NODE_STATES);
  }

  /** An HA entry counts when it is a node's, names it, and has one of the five states,
      up to case and space around; the sample of that state is 1 and the others are 0. */
  lemma HAEntryExact(c: string, e: HAStatusEntry)
    ensures var state, xs := ToLower(TrimSpace(e.status)), HAEntrySamples(c, e);
      && (Accepted(e) <==>
           e.kind == "node" && e.node != "" && state in {"online", "maintenance", "unknown", "fence", "gone"})
      && |xs| == (if Accepted(e) then 5 else 0) && |HA_NODE_STATES| == 5
      && forall i :: 0 <= i < |xs| ==>
           xs[i] == Sample(HAState,
             [Label("cluster", c), Label("id", "node/" + e.node), Label("state", HA_NODE_STATES[i])],
             if HA_NODE_STATES[i] == state then 1.0 else 0.0)
  {
    EnumShape(c, HAState, "node/" + e.node, CanonicalNodeHAState(e.status), HA_NODE_STATES);
  }

  method CollectStatus(s: SampleSet, rows: seq<ClusterStatusEntry>)
    modifies s
    ensures s.Appended(StatusSamples(s.cluster, rows))
  {
    ghost var b, a := s.Mark();
    for i := 0 to |rows|
      invariant s.Marked() && s.base == old(s.out) && s.added == StatusSamples(s.cluster, rows[..i])
    {
      var e := rows[i];
      assert rows[..i + 1][..i] == rows[..i];
      if e.kind == "node" {
        s.Add(NodeInfo, 1.0,
          [IdLabel(e.id), Label("name", e.name), Label("level", e.level), IntLabel("nodeid", e.nodeId)]);
      } else if e.kind == "cluster" {
        s.Add(Metric.ClusterInfo, 1.0,
          [IdLabel(e.id), IntLabel("nodes", e.nodes), IntLabel("quorate", e.quorate), IntLabel("version", e.version)]);
      } else {
        assert s.added + [] == s.added;
      }
    }
    assert rows[..|rows|] == rows;
    s.Release(b, a);
  }

  method CollectVersion(s: SampleSet, v: ReleaseInfo)
    modifies s
    ensures s.Appended([VersionSample(s.cluster, v)])
  {
    s.Add(VersionInfo, 1.0, [Label("release", v.release), Label("repoid", v.repoId), Label("version", v.version)]);
  }

  method CollectQDevice(s: SampleSet, clusterId: string, q: QDeviceConfig)
    modifies s
    ensures s.Appended(QDeviceSamples(s.cluster, clusterId, q))
  {
    ghost var b, a := s.Mark();
    if q.model != "" {
      s.Add(QDeviceUp, 1.0, [IdLabel(clusterId)]);
      s.Add(QDeviceInfo, 1.0,
        [IdLabel(clusterId), Label("model", q.model),
         Label("host", NetworkField(q, "host")), Label("algorithm", NetworkField(q, "algorithm"))]);
    }
    s.Release(b, a);
  }

  method CollectNotBackedUp(s: SampleSet, clusterId: string, guests: seq<NotBackedUpGuest>)
    modifies s
    ensures s.Appended(BackupSamples(s.cluster, clusterId, guests))
  {
    ghost var b, a := s.Mark();
    s.Add(NotBackedUpTotal, |guests| as real, [IdLabel(clusterId)]);
    for i := 0 to |guests|
      invariant s.Marked() && s.base == old(s.out)
      invariant s.added == BackupSamples(s.cluster, clusterId, guests)[..1] + MissingSamples(s.cluster, guests[..i])
    {
      var g := guests[i];
      assert guests[..i + 1][..i] == guests[..i];
      if g.vmid.None? || g.kind == "" {
        continue;
      }
      s.Add(NotBackedUpInfo, 1.0, [IdLabel(g.kind + "/" + FormatInt(g.vmid.value))]);
    }
    assert guests[..|guests|] == guests;
    s.Release(b, a);
  }

  method CollectHAStatus(client: Client, pve: Pve, s: SampleSet)
    requires client.Valid()
    modifies client, s
    ensures client.Called([Exchange(HA_PATH, true, pve(HA_PATH))])
    ensures s.Appended(HAPart(s.cluster, pve))
  {
    var r := client.GetOptional(pve, HA_PATH);
    ghost var b, a := s.Mark();
    if AsHA(r).Some? {
      var entries := AsHA(r).value;
      for i := 0 to |entries|
        invariant s.Marked() && s.base == old(s.out) && s.added == HASamples(s.cluster, entries[..i])
        invariant client.Called([Exchange(HA_PATH, true, pve(HA_PATH))])
      {
        var e := entries[i];
        assert entries[..i + 1][..i] == entries[..i];
        if e.kind != "node" || e.node == "" {
          continue;
        }
        var canonical := CanonicalNodeHAState(e.status);
        if canonical == "" {
          continue;
        }
        s.AddStateEnum(HAState, "node/" + e.node, canonical, HA_NODE_STATES);
      }
      assert entries[..|entries|] == entries;
    }
    s.Release(b, a);
  }

  /** The node HA samples of one cycle; nothing when the endpoint is absent. */
  function HAPart(c: string, pve: Pve): (out: seq<Sample>)
    ensures AllCollected(c, out)
  {
    match AsHA(ReplyOf(pve(HA_PATH)))
    case None => []
    case Some(entries) => HASamples(c, entries)
  }
}
