/** internal/pve/resources.go: samples from the cluster-level endpoints. */
module Resources {
  import opened Seqs
  import opened Metrics
  import opened Api

  // What each emitter appends, for a target of the given name.

  // A list of optional gauges is split in short pieces, each conforming by itself.

  function HostUp(c: string, up: bool, r: ClusterResource): (out: seq<Sample>)
    ensures AllCollected(c, out)
  {
    [] + [MakeSample(c, Up, BoolToReal(up), [IdLabel(r.id)])] + Flex(c, CpuRatio, r.cpu, r.id)
  }

  function HostCpu(c: string, up: bool, r: ClusterResource): (out: seq<Sample>)
    ensures AllCollected(c, out)
  {
    HostUp(c, up, r) + Flex(c, CpuLimit, r.maxCpu, r.id)
  }

  function HostHead(c: string, up: bool, r: ClusterResource): (out: seq<Sample>)
    ensures AllCollected(c, out)
  {
    HostCpu(c, up, r) + Flex(c, MemSize, r.maxMem, r.id)
  }

  function HostMemory(c: string, up: bool, r: ClusterResource): (out: seq<Sample>)
    ensures AllCollected(c, out)
  {
    HostHead(c, up, r) + Flex(c, MemUsage, r.mem, r.id) + Flex(c, DiskSize, r.maxDisk, r.id)
  }

  function HostGauges(c: string, up: bool, r: ClusterResource): (out: seq<Sample>)
    ensures AllCollected(c, out)
  {
    HostMemory(c, up, r) + Flex(c, DiskUsage, r.disk, r.id) + Flex(c, Uptime, r.uptime, r.id)
  }

  function Traffic(c: string, r: ClusterResource): (out: seq<Sample>)
    ensures AllCollected(c, out)
  {
    [] + Flex(c, NetRxTotal, r.netIn, r.id) + Flex(c, NetTxTotal, r.netOut, r.id)
  }

  function GuestCounters(c: string, r: ClusterResource): (out: seq<Sample>)
    ensures AllCollected(c, out)
  {
    Traffic(c, r) + Flex(c, DiskReadTotal, r.diskRead, r.id) + Flex(c, DiskWriteTotal, r.diskWrite, r.id)
  }

  function GuestStates(c: string, r: ClusterResource): (out: seq<Sample>)
    ensures AllCollected(c, out)
  {
    [] + (if r.haState != "" then StateEnum(c, HAState, r.id, r.haState, HA_GUEST_STATES) else [])
    + (if r.lock != "" then StateEnum(c, LockState, r.id, r.lock, LOCK_STATES) else [])
  }

  function GuestInfoSample(c: string, r: ClusterResource): (s: Sample)
    ensures Conforms(c, s)
  {
    MakeSample(c, GuestInfo, 1.0,
      [IdLabel(r.id), Label("node", r.node), Label("name", r.name), Label("type", r.kind),
       Label("template", if r.template == Some(1.0) then "1" else "0"), Label("tags", r.tags)])
  }

  function StorageInfoSample(c: string, r: ClusterResource): (s: Sample)
    ensures Conforms(c, s)
  {
    MakeSample(c, StorageInfo, 1.0,
      [IdLabel(r.id), Label("node", r.node), Label("storage", r.storage),
       Label("plugintype", r.pluginType), Label("content", r.content)])
  }

  function StorageDisk(c: string, r: ClusterResource): (out: seq<Sample>)
    ensures AllCollected(c, out)
  {
    [] + [MakeSample(c, Up, BoolToReal(r.status == "available"), [IdLabel(r.id)])] + Flex(c, DiskSize, r.maxDisk, r.id)
  }

  function StorageUsage(c: string, r: ClusterResource): (out: seq<Sample>)
    ensures AllCollected(c, out)
  {
    StorageDisk(c, r) + Flex(c, DiskUsage, r.disk, r.id)
  }

  function StorageHead(c: string, r: ClusterResource): (out: seq<Sample>)
    ensures AllCollected(c, out)
  {
    StorageUsage(c, r) + Flex(c, StorShare, r.shared, r.id)
  }

  function StorageSamples(c: string, r: ClusterResource): (out: seq<Sample>)
    ensures AllCollected(c, out)
  {
    StorageHead(c, r) + [StorageInfoSample(c, r)]
  }

  function RowSamples(c: string, r: ClusterResource): (out: seq<Sample>)
    ensures AllCollected(c, out)
  {
    if r.kind == "node" then HostGauges(c, r.status == "online", r)
    else if r.kind == "qemu" || r.kind == "lxc" then
      var gauges := [] + HostGauges(c, r.status == "running", r) + GuestCounters(c, r);
      assert AllCollected(c, gauges);
      gauges + GuestStates(c, r) + [GuestInfoSample(c, r)]
    else if r.kind == "storage" then StorageSamples(c, r)
    else []
  }

  function ResourceSamples(c: string, rows: seq<ClusterResource>): (out: seq<Sample>)
    ensures AllCollected(c, out)
  {
    if rows == [] then []
    else ResourceSamples(c, rows[..|rows| - 1]) + RowSamples(c, rows[|rows| - 1])
  }

  // The emitters.

  /** The gauges that nodes and guests have in common. */
  method CollectHostGauges(s: SampleSet, up: bool, r: ClusterResource)
    modifies s
    ensures s.Appended(HostGauges(s.cluster, up, r))
  {
    ghost var b, a := s.Mark();
    s.Add(Up, BoolToReal(up), [IdLabel(r.id)]);
    s.AddFlex(CpuRatio, r.cpu, r.id);
    s.AddFlex(CpuLimit, r.maxCpu, r.id);
    s.AddFlex(MemSize, r.maxMem, r.id);
    s.AddFlex(MemUsage, r.mem, r.id);
    s.AddFlex(DiskSize, r.maxDisk, r.id);
    s.AddFlex(DiskUsage, r.disk, r.id);
    s.AddFlex(Uptime, r.uptime, r.id);
    s.Release(b, a);
  }

  method CollectGuestResource(s: SampleSet, r: ClusterResource)
    requires r.kind == "qemu" || r.kind == "lxc"
    modifies s
    ensures s.Appended(RowSamples(s.cluster, r))
  {
    ghost var b, a := s.Mark();
    CollectHostGauges(s, r.status == "running", r);
    CollectGuestCounters(s, r);
    CollectGuestStates(s, r);

    var template := "0";
    if r.template.Some? && r.template.value == 1.0 {
      template := "1";
    }
    s.Add(GuestInfo, 1.0,
      [IdLabel(r.id), Label("node", r.node), Label("name", r.name), Label("type", r.kind),
       Label("template", template), Label("tags", r.tags)]);
    s.Release(b, a);
  }

  /** The cumulative IO and network counters, for guests only. */
  method CollectGuestCounters(s: SampleSet, r: ClusterResource)
    modifies s
    ensures s.Appended(GuestCounters(s.cluster, r))
  {
    ghost var b, a := s.Mark();
    s.AddFlex(NetRxTotal, r.netIn, r.id);
    s.AddFlex(NetTxTotal, r.netOut, r.id);
    s.AddFlex(DiskReadTotal, r.diskRead, r.id);
    s.AddFlex(DiskWriteTotal, r.diskWrite, r.id);
    s.Release(b, a);
  }

  method CollectGuestStates(s: SampleSet, r: ClusterResource)
    modifies s
    ensures s.Appended(GuestStates(s.cluster, r))
  {
    ghost var b, a := s.Mark();
    if r.haState != "" {
      s.AddStateEnum(HAState, r.id, r.haState, HA_GUEST_STATES);
    } else {
      Regroup(s.added, [], []);
    }
    if r.lock != "" {
      s.AddStateEnum(LockState, r.id, r.lock, LOCK_STATES);
    } else {
      Regroup(s.added, [], []);
    }
    s.Release(b, a);
  }

  method CollectStorageResource(s: SampleSet, r: ClusterResource)
    modifies s
    ensures s.Appended(StorageSamples(s.cluster, r))
  {
    ghost var b, a := s.Mark();
    s.Add(Up, BoolToReal(r.status == "available"), [IdLabel(r.id)]);
    s.AddFlex(DiskSize, r.maxDisk, r.id);
    s.AddFlex(DiskUsage, r.disk, r.id);
    s.AddFlex(StorShare, r.shared, r.id);
    s.Add(StorageInfo, 1.0,
      [IdLabel(r.id), Label("node", r.node), Label("storage", r.storage),
       Label("plugintype", r.pluginType), Label("content", r.content)]);
    s.Release(b, a);
  }

  method CollectResources(s: SampleSet, rows: seq<ClusterResource>)
    modifies s
    ensures s.Appended(ResourceSamples(s.cluster, rows))
  {
    ghost var b, a := s.Mark();
    for i := 0 to |rows|
      invariant s.Marked() && s.base == old(s.out) && s.added == ResourceSamples(s.cluster, rows[..i])
    {
      var r := rows[i];
      assert rows[..i + 1][..i] == rows[..i];
      if r.kind == "node" {
        CollectHostGauges(s, r.status == "online", r);
      } else if r.kind == "qemu" || r.kind == "lxc" {
        CollectGuestResource(s, r);
      } else if r.kind == "storage" {
        CollectStorageResource(s, r);
      } else {
        assert s.added + [] == s.added;
      }
    }
    assert rows[..|rows|] == rows;
    s.Release(b, a);
  }
}
