/** What a row of /cluster/resources says about one metric: the emitters of Resources
    read metric by metric instead of line by line. */
module Readings {
  import opened Seqs
  import opened Metrics
  import opened Api
  import opened Models
  import opened ClusterInfos
  import opened Resources
  import opened Nodes
  import opened Plans
  import opened Snapshots

  predicate IsGuest(r: ClusterResource) { r.kind == "qemu" || r.kind == "lxc" }

  predicate IsStorage(r: ClusterResource) { r.kind == "storage" }

  // The field each numeric metric is read from, by kind of row.

  function HostReading(r: ClusterResource, m: Metric): FlexFloat {
    match m
    case CpuRatio => r.cpu
    case CpuLimit => r.maxCpu
    case MemUsage => r.mem
    case MemSize => r.maxMem
    case Uptime => r.uptime
    case DiskUsage => r.disk
    case DiskSize => r.maxDisk
    case _ => None
  }

  function CounterReading(r: ClusterResource, m: Metric): FlexFloat {
    match m
    case NetRxTotal => r.netIn
    case NetTxTotal => r.netOut
    case DiskReadTotal => r.diskRead
    case DiskWriteTotal => r.diskWrite
    case _ => None
  }

  function StorageReading(r: ClusterResource, m: Metric): FlexFloat {
    match m
    case DiskUsage => r.disk
    case DiskSize => r.maxDisk
    case StorShare => r.shared
    case _ => None
  }

  function Reading(r: ClusterResource, m: Metric): FlexFloat {
    if r.kind == "node" then HostReading(r, m)
    else if IsGuest(r) then if CounterReading(r, m).Some? then CounterReading(r, m) else HostReading(r, m)
    else if IsStorage(r) then StorageReading(r, m)
    else None
  }

  /** A node row that has an id and a node name and reports nothing else. */
  function BareNode(id: string, node: string): ClusterResource {
    ClusterResource(id, "node", node, "", "online", None, None, None, None, None, None, None,
      None, None, None, None, None, None, "", "", "", "", "", "")
  }

  /** The metrics that are not plain readings: up, the states and the infos. */
  predicate IsReading(m: Metric) {
    !(m.Up? || m.HAState? || m.LockState? || m.GuestInfo? || m.StorageInfo?)
  }

  lemma NamedFlex(m: Metric, c: string, name: Metric, f: FlexFloat, id: string)
    ensures Named(m, Flex(c, name, f, id)) == if m == name then Flex(c, name, f, id) else []
  {
    if m == name {
      FilterAll(IsNamed(m), Flex(c, name, f, id));
    } else {
      FilterNone(IsNamed(m), Flex(c, name, f, id));
    }
  }

  /** One more optional sample at the end. */
  lemma AndFlex(m: Metric, before: seq<Sample>, c: string, name: Metric, f: FlexFloat, id: string)
    ensures m != name ==> Named(m, before + Flex(c, name, f, id)) == Named(m, before)
    ensures m == name && Named(m, before) == [] ==> Named(m, before + Flex(c, name, f, id)) == Flex(c, m, f, id)
  {
    FilterConcat(IsNamed(m), before, Flex(c, name, f, id));
    NamedFlex(m, c, name, f, id);
    Regroup(Named(m, before), [], []);
    Regroup(Flex(c, name, f, id), [], []);
  }

  lemma FlexAdded(m: Metric, before: seq<Sample>, c: string, name: Metric, f: FlexFloat, id: string)
    requires m == name && Named(m, before) == []
    ensures Named(m, before + Flex(c, name, f, id)) == Flex(c, m, f, id)
  {
    AndFlex(m, before, c, name, f, id);
  }

  lemma OtherFlex(m: Metric, before: seq<Sample>, c: string, name: Metric, f: FlexFloat, id: string)
    requires m != name
    ensures Named(m, before + Flex(c, name, f, id)) == Named(m, before)
  {
    AndFlex(m, before, c, name, f, id);
  }

  lemma {:induction false} NamedEnum(m: Metric, c: string, name: Metric, id: string,
    active: string, states: seq<string>)
    ensures Named(m, StateEnum(c, name, id, active, states))
      == if m == name then StateEnum(c, name, id, active, states) else []
  {
    var e := StateEnum(c, name, id, active, states);
    EnumShape(c, name, id, active, states);
    if m == name {
      FilterAll(IsNamed(m), e);
    } else {
      FilterNone(IsNamed(m), e);
    }
  }

  lemma NamedOne(m: Metric, s: Sample)
    ensures Named(m, [s]) == if s.name == m then [s] else []
  {
    FilterSnoc(IsNamed(m), [], s);
    assert [] + [s] == [s];
  }

  lemma UpMetric(c: string, up: bool, r: ClusterResource, m: Metric)
    ensures Named(m, HostUp(c, up, r)) ==
      if m.Up? then [MakeSample(c, Up, BoolToReal(up), [IdLabel(r.id)])]
      else if m.CpuRatio? then Flex(c, m, r.cpu, r.id)
      else []
  {
    var s0 := [MakeSample(c, Up, BoolToReal(up), [IdLabel(r.id)])];
    NamedOne(m, s0[0]);
    Regroup(s0, [], []);
    AndFlex(m, [] + s0, c, CpuRatio, r.cpu, r.id);
  }

  lemma CpuMetric(c: string, up: bool, r: ClusterResource, m: Metric)
    ensures Named(m, HostCpu(c, up, r)) ==
      if m.Up? then [MakeSample(c, Up, BoolToReal(up), [IdLabel(r.id)])]
      else if m.CpuRatio? || m.CpuLimit? then Flex(c, m, HostReading(r, m), r.id)
      else []
  {
    UpMetric(c, up, r, m);
    if m.CpuLimit? {
      FlexAdded(m, HostUp(c, up, r), c, CpuLimit, r.maxCpu, r.id);
    } else {
      OtherFlex(m, HostUp(c, up, r), c, CpuLimit, r.maxCpu, r.id);
    }
  }

  lemma HeadMetric(c: string, up: bool, r: ClusterResource, m: Metric)
    ensures Named(m, HostHead(c, up, r)) ==
      if m.Up? then [MakeSample(c, Up, BoolToReal(up), [IdLabel(r.id)])]
      else if m.CpuRatio? || m.CpuLimit? || m.MemSize? then Flex(c, m, HostReading(r, m), r.id)
      else []
  {
    CpuMetric(c, up, r, m);
    if m.MemSize? {
      FlexAdded(m, HostCpu(c, up, r), c, MemSize, r.maxMem, r.id);
    } else {
      OtherFlex(m, HostCpu(c, up, r), c, MemSize, r.maxMem, r.id);
    }
  }

  lemma HostMetric(c: string, up: bool, r: ClusterResource, m: Metric)
    ensures Named(m, HostGauges(c, up, r))
      == if m.Up? then [MakeSample(c, Up, BoolToReal(up), [IdLabel(r.id)])] else Flex(c, m, HostReading(r, m), r.id)
  {
    var usage, disk := Flex(c, MemUsage, r.mem, r.id), Flex(c, DiskUsage, r.disk, r.id);
    HeadMetric(c, up, r, m);
    AndFlex(m, HostHead(c, up, r), c, MemUsage, r.mem, r.id);
    AndFlex(m, HostHead(c, up, r) + usage, c, DiskSize, r.maxDisk, r.id);
    AndFlex(m, HostMemory(c, up, r), c, DiskUsage, r.disk, r.id);
    AndFlex(m, HostMemory(c, up, r) + disk, c, Uptime, r.uptime, r.id);
  }

  lemma NamedOfTwoLists(m: Metric, x: seq<Sample>, y: seq<Sample>)
    ensures Named(m, y) == [] ==> Named(m, [] + x + y) == Named(m, x)
    ensures Named(m, x) == [] ==> Named(m, [] + x + y) == Named(m, y)
  {
    Regroup(x, [], []);
    FilterConcat(IsNamed(m), x, y);
    Regroup(Named(m, x), [], []);
    Regroup(Named(m, y), [], []);
  }

  lemma TrafficMetric(c: string, r: ClusterResource, m: Metric)
    ensures Named(m, Traffic(c, r)) ==
      if m.NetRxTotal? then Flex(c, m, r.netIn, r.id) else if m.NetTxTotal? then Flex(c, m, r.netOut, r.id) else []
  {
    var rx, tx := Flex(c, NetRxTotal, r.netIn, r.id), Flex(c, NetTxTotal, r.netOut, r.id);
    NamedFlex(m, c, NetRxTotal, r.netIn, r.id);
    NamedFlex(m, c, NetTxTotal, r.netOut, r.id);
    NamedOfTwoLists(m, rx, tx);
  }

  lemma CounterMetric(c: string, r: ClusterResource, m: Metric)
    ensures Named(m, GuestCounters(c, r)) == Flex(c, m, CounterReading(r, m), r.id)
  {
    var read := Flex(c, DiskReadTotal, r.diskRead, r.id);
    TrafficMetric(c, r, m);
    AndFlex(m, Traffic(c, r), c, DiskReadTotal, r.diskRead, r.id);
    AndFlex(m, Traffic(c, r) + read, c, DiskWriteTotal, r.diskWrite, r.id);
  }

  function EnumIf(c: string, name: Metric, id: string, active: string, states: seq<string>): seq<Sample> {
    if active != "" then StateEnum(c, name, id, active, states) else []
  }

  lemma NamedEnumIf(m: Metric, c: string, name: Metric, id: string, active: string, states: seq<string>)
    ensures Named(m, EnumIf(c, name, id, active, states))
      == if m == name then EnumIf(c, name, id, active, states) else []
  {
    NamedEnum(m, c, name, id, active, states);
  }

  lemma StateMetric(c: string, r: ClusterResource, m: Metric)
    ensures Named(m, GuestStates(c, r)) ==
      if m.HAState? then EnumIf(c, HAState, r.id, r.haState, HA_GUEST_STATES)
      else if m.LockState? then EnumIf(c, LockState, r.id, r.lock, LOCK_STATES)
      else []
  {
    var ha, lock := EnumIf(c, HAState, r.id, r.haState, HA_GUEST_STATES),
      EnumIf(c, LockState, r.id, r.lock, LOCK_STATES);
    NamedEnumIf(m, c, HAState, r.id, r.haState, HA_GUEST_STATES);
    NamedEnumIf(m, c, LockState, r.id, r.lock, LOCK_STATES);
    NamedOfTwoLists(m, ha, lock);
  }

  lemma DiskMetric(c: string, r: ClusterResource, m: Metric)
    ensures Named(m, StorageDisk(c, r)) ==
      if m.Up? then [MakeSample(c, Up, BoolToReal(r.status == "available"), [IdLabel(r.id)])]
      else if m.DiskSize? then Flex(c, m, r.maxDisk, r.id)
      else []
  {
    var s0 := [MakeSample(c, Up, BoolToReal(r.status == "available"), [IdLabel(r.id)])];
    NamedOne(m, s0[0]);
    Regroup(s0, [], []);
    AndFlex(m, [] + s0, c, DiskSize, r.maxDisk, r.id);
  }

  lemma StorageUsageMetric(c: string, r: ClusterResource, m: Metric)
    ensures Named(m, StorageUsage(c, r)) ==
      if m.Up? then [MakeSample(c, Up, BoolToReal(r.status == "available"), [IdLabel(r.id)])]
      else if m.DiskSize? then Flex(c, m, r.maxDisk, r.id)
      else if m.DiskUsage? then Flex(c, m, r.disk, r.id)
      else []
  {
    DiskMetric(c, r, m);
    AndFlex(m, StorageDisk(c, r), c, DiskUsage, r.disk, r.id);
  }

  lemma AndShare(c: string, r: ClusterResource, m: Metric, before: seq<Sample>, up: seq<Sample>)
    requires Named(m, before) ==
      if m.Up? then up
      else if m.DiskSize? then Flex(c, m, r.maxDisk, r.id)
      else if m.DiskUsage? then Flex(c, m, r.disk, r.id)
      else []
    ensures Named(m, before + Flex(c, StorShare, r.shared, r.id))
      == if m.Up? then up else Flex(c, m, StorageReading(r, m), r.id)
  {
    if m.StorShare? {
      FlexAdded(m, before, c, StorShare, r.shared, r.id);
    } else {
      OtherFlex(m, before, c, StorShare, r.shared, r.id);
    }
  }

  lemma StorageHeadMetric(c: string, r: ClusterResource, m: Metric)
    ensures Named(m, StorageHead(c, r)) ==
      if m.Up? then [MakeSample(c, Up, BoolToReal(r.status == "available"), [IdLabel(r.id)])]
      else Flex(c, m, StorageReading(r, m), r.id)
  {
    StorageUsageMetric(c, r, m);
    AndShare(c, r, m, StorageUsage(c, r), [MakeSample(c, Up, BoolToReal(r.status == "available"), [IdLabel(r.id)])]);
  }

  lemma StorageMetric(c: string, r: ClusterResource, m: Metric)
    requires !m.StorageInfo?
    ensures Named(m, StorageSamples(c, r)) ==
      if m.Up? then [MakeSample(c, Up, BoolToReal(r.status == "available"), [IdLabel(r.id)])]
      else Flex(c, m, StorageReading(r, m), r.id)
  {
    StorageHeadMetric(c, r, m);
    AndOther(m, StorageHead(c, r), StorageInfoSample(c, r));
  }

  lemma AndOther(m: Metric, before: seq<Sample>, s: Sample)
    requires s.name != m
    ensures Named(m, before + [s]) == Named(m, before)
  {
  }

  lemma NamedOfThreeLists(m: Metric, x: seq<Sample>, y: seq<Sample>, z: seq<Sample>)
    ensures Named(m, [] + x + y + z) == Named(m, x) + Named(m, y) + Named(m, z)
  {
    Regroup(x, [], []);
    FilterConcat(IsNamed(m), x, y);
    FilterConcat(IsNamed(m), x + y, z);
  }

  lemma ThreeAndOther(m: Metric, x: seq<Sample>, y: seq<Sample>, z: seq<Sample>, s: Sample)
    requires s.name != m
    ensures Named(m, [] + x + y + z + [s]) == Named(m, x) + Named(m, y) + Named(m, z)
  {
    NamedOfThreeLists(m, x, y, z);
    AndOther(m, [] + x + y + z, s);
  }

  lemma GuestRowParts(c: string, r: ClusterResource)
    requires IsGuest(r)
    ensures RowSamples(c, r)
      == [] + HostGauges(c, r.status == "running", r) + GuestCounters(c, r) + GuestStates(c, r)
       + [GuestInfoSample(c, r)]
  {
  }

  lemma GuestMetric(c: string, r: ClusterResource, m: Metric)
    requires IsGuest(r) && !m.GuestInfo?
    ensures Named(m, RowSamples(c, r))
      == Named(m, HostGauges(c, r.status == "running", r)) + Named(m, GuestCounters(c, r)) + Named(m, GuestStates(c, r))
  {
    GuestRowParts(c, r);
    ThreeAndOther(m, HostGauges(c, r.status == "running", r), GuestCounters(c, r), GuestStates(c, r),
                  GuestInfoSample(c, r));
  }

  lemma GuestRow(c: string, r: ClusterResource, m: Metric)
    requires IsReading(m) && IsGuest(r)
    ensures Named(m, RowSamples(c, r)) == Flex(c, m, HostReading(r, m), r.id) + Flex(c, m, CounterReading(r, m), r.id)
  {
    GuestMetric(c, r, m);
    HostMetric(c, r.status == "running", r, m);
    CounterMetric(c, r, m);
    StateMetric(c, r, m);
    Regroup(Named(m, HostGauges(c, r.status == "running", r)) + Named(m, GuestCounters(c, r)), [], []);
  }

  lemma OneSource(c: string, r: ClusterResource, m: Metric)
    requires IsGuest(r)
    ensures Flex(c, m, HostReading(r, m), r.id) + Flex(c, m, CounterReading(r, m), r.id)
      == Flex(c, m, Reading(r, m), r.id)
  {
  }

  lemma NodeRow(c: string, r: ClusterResource, m: Metric)
    requires IsReading(m) && r.kind == "node"
    ensures Named(m, RowSamples(c, r)) == Flex(c, m, Reading(r, m), r.id)
  {
    HostMetric(c, r.status == "online", r, m);
  }

  /** Absent, not zero: for every numeric metric a row yields one sample when the
      field for its kind is present, with that value, and none when it is absent. */
  lemma AbsentNotZero(c: string, r: ClusterResource, m: Metric)
    requires IsReading(m)
    ensures Named(m, RowSamples(c, r)) == Flex(c, m, Reading(r, m), r.id)
  {
    if r.kind == "node" {
      NodeRow(c, r, m);
    } else if IsGuest(r) {
      GuestRow(c, r, m);
      OneSource(c, r, m);
    } else if IsStorage(r) {
      StorageMetric(c, r, m);
    }
  }

  /** The status that counts as up, by kind of row. */
  function UpStatus(r: ClusterResource): string {
    if r.kind == "node" then "online" else if IsGuest(r) then "running" else "available"
  }

  /** Every node, guest and storage row yields exactly one pve_up sample. */
  lemma OneUpPerRow(c: string, r: ClusterResource)
    requires r.kind == "node" || IsGuest(r) || IsStorage(r)
    ensures Named(Up, RowSamples(c, r))
      == [Sample(Up, [Label("cluster", c), Label("id", r.id)], if r.status == UpStatus(r) then 1.0 else 0.0)]
  {
    assert [Label("cluster", c)] + [IdLabel(r.id)] == [Label("cluster", c), Label("id", r.id)];
    if IsGuest(r) {
      GuestMetric(c, r, Up);
      HostMetric(c, r.status == "running", r, Up);
      CounterMetric(c, r, Up);
      StateMetric(c, r, Up);
      Regroup(Named(Up, HostGauges(c, r.status == "running", r)), [], []);
    } else if r.kind == "node" {
      HostMetric(c, r.status == "online", r, Up);
    } else {
      StorageMetric(c, r, Up);
    }
  }

  /** Rows that do not report a metric leave no sample of it. */
  lemma {:induction false} NoReading(c: string, rows: seq<ClusterResource>, m: Metric)
    requires IsReading(m) && forall i :: 0 <= i < |rows| ==> Reading(rows[i], m).None?
    ensures Named(m, ResourceSamples(c, rows)) == []
  {
    if rows == [] {
    } else {
      var init, last := rows[..|rows| - 1], rows[|rows| - 1];
      NoReading(c, init, m);
      AbsentNotZero(c, last, m);
      FilterConcat(IsNamed(m), ResourceSamples(c, init), RowSamples(c, last));
    }
  }

  // ---- the other numeric readings ----

  function JobReading(st: ReplicationStatus, m: Metric): FlexFloat {
    match m
    case ReplDuration => st.duration
    case ReplLastSync => st.lastSync
    case ReplLastTry => st.lastTry
    case ReplNextSync => st.nextSync
    case ReplFailed => st.failCount
    case _ => None
  }

  lemma TimesMetric(c: string, id: string, st: ReplicationStatus, m: Metric)
    ensures Named(m, JobTimes(c, id, st)) ==
      if m.ReplDuration? then Flex(c, m, st.duration, id)
        else if m.ReplLastSync? then Flex(c, m, st.lastSync, id) else []
  {
    var duration, lastSync := Flex(c, ReplDuration, st.duration, id), Flex(c, ReplLastSync, st.lastSync, id);
    NamedFlex(m, c, ReplDuration, st.duration, id);
    NamedFlex(m, c, ReplLastSync, st.lastSync, id);
    NamedOfTwoLists(m, duration, lastSync);
  }

  lemma TriesMetric(c: string, id: string, st: ReplicationStatus, m: Metric)
    ensures Named(m, JobTries(c, id, st)) ==
      if m.ReplDuration? then Flex(c, m, st.duration, id)
      else if m.ReplLastSync? then Flex(c, m, st.lastSync, id)
      else if m.ReplLastTry? then Flex(c, m, st.lastTry, id)
      else if m.ReplNextSync? then Flex(c, m, st.nextSync, id)
      else []
  {
    var times, tried := JobTimes(c, id, st), Flex(c, ReplLastTry, st.lastTry, id);
    TimesMetric(c, id, st, m);
    AndFlex(m, times, c, ReplLastTry, st.lastTry, id);
    AndFlex(m, times + tried, c, ReplNextSync, st.nextSync, id);
  }

  /** Absent, not zero, for the status of a replication job. */
  lemma JobAbsentNotZero(c: string, id: string, st: ReplicationStatus, m: Metric)
    ensures Named(m, JobStatusSamples(c, id, st)) == Flex(c, m, JobReading(st, m), id)
  {
    TriesMetric(c, id, st, m);
    AndFlex(m, JobTries(c, id, st), c, ReplFailed, st.failCount, id);
  }

  /** Absent, not zero, for the due date of a subscription. */
  lemma DueAbsentNotZero(c: string, pve: Pve, node: string, sub: SubscriptionInfo)
    requires AsSubscription(ReplyOf(pve(SubscriptionPath(node)))) == Some(sub)
    ensures Named(SubNextDue, SubscriptionSamples(c, pve, node)) == Flex(c, SubNextDue, sub.nextDue, "node/" + node)
  {
    var id := "node/" + node;
    var level, status := SubLevelSamples(c, id, sub.level), SubStatusSamples(c, id, sub.status);
    assert Named(SubNextDue, level) == [] by {
      FilterNone(IsNamed(SubNextDue), level);
    }
    assert Named(SubNextDue, status) == [] by {
      NamedEnumIf(SubNextDue, c, SubStatus, id, sub.status, SUB_STATES);
    }
    NamedOfTwoLists(SubNextDue, level, status);
    AndFlex(SubNextDue, [] + level + status, c, SubNextDue, sub.nextDue, id);
  }

  // ---- onboot ----

  /** The rule for one guest's onboot field, as for the other fields: a sample with its
      value when the config answers and has it, and none otherwise. */
  function OnbootByTheRule(c: string, pve: Pve, node: string, kind: string, vmid: FlexFloat): seq<Sample> {
    if vmid.None? then []
    else
      var v := FormatInt(vmid.value);
      match AsGuestConfig(ReplyOf(pve("/nodes/" + node + "/" + (kind + "/" + v + "/config"))))
      case Some(Some(onboot)) => [OnbootSample(c, node, kind, v, onboot)]
      case _ => []
  }

  function OnbootSample(c: string, node: string, kind: string, vmid: string, onboot: real): Sample {
    MakeSample(c, Onboot, onboot, [IdLabel(kind + "/" + vmid), Label("node", node), Label("type", kind)])
  }

  function GuestsByTheRule(c: string, pve: Pve, node: string, kind: string, vmids: seq<FlexFloat>): seq<Sample> {
    if vmids == [] then []
    else
      GuestsByTheRule(c, pve, node, kind, vmids[..|vmids| - 1])
      + OnbootByTheRule(c, pve, node, kind, vmids[|vmids| - 1])
  }

  /** What the collector would emit by the rule; here too a failed listing ends it. */
  function NodeByTheRule(c: string, pve: Pve, node: string, kinds: seq<string>): seq<Sample> {
    if kinds == [] then []
    else
      match AsGuestRefs(ReplyOf(pve("/nodes/" + node + "/" + kinds[0])))
      case None => []
      case Some(vmids) => GuestsByTheRule(c, pve, node, kinds[0], vmids) + NodeByTheRule(c, pve, node, kinds[1..])
  }

  /** The config call of a listed guest succeeds, and the field is not there. */
  predicate OnbootAbsent(pve: Pve, node: string, kind: string, vmid: FlexFloat) {
    vmid.Some? && AsGuestConfig(ReplyOf(pve(GuestConfigPath(node, kind, FormatInt(vmid.value))))) == Some(None)
  }

  predicate SomeAbsent(pve: Pve, node: string, kind: string, vmids: seq<FlexFloat>) {
    exists g :: 0 <= g < |vmids| && OnbootAbsent(pve, node, kind, vmids[g])
  }

  /** So it is for some guest that the collector gets to: no listing failed before. */
  predicate ReachesAbsent(pve: Pve, node: string, kinds: seq<string>) {
    && kinds != []
    && match ListedGuests(pve, node, kinds[0])
       case None => false
       case Some(vmids) => SomeAbsent(pve, node, kinds[0], vmids) || ReachesAbsent(pve, node, kinds[1..])
  }

  lemma GuestFollows(c: string, pve: Pve, node: string, kind: string, vmid: FlexFloat)
    ensures var made, ruled := GuestSamples(c, pve, node, kind, vmid), OnbootByTheRule(c, pve, node, kind, vmid);
      if OnbootAbsent(pve, node, kind, vmid) then |made| > |ruled| else made == ruled
  {
  }

  lemma LastAbsent(pve: Pve, node: string, kind: string, vmids: seq<FlexFloat>)
    requires vmids != []
    ensures SomeAbsent(pve, node, kind, vmids) <==>
      SomeAbsent(pve, node, kind, vmids[..|vmids| - 1]) || OnbootAbsent(pve, node, kind, vmids[|vmids| - 1])
  {
    var init := vmids[..|vmids| - 1];
    assert forall g :: 0 <= g < |init| ==> init[g] == vmids[g];
  }

  /** A made-up zero is one more sample, so it shows in the length. */
  lemma {:induction false} GuestsFollow(c: string, pve: Pve, node: string, kind: string, vmids: seq<FlexFloat>)
    ensures var made, ruled := GuestsSamples(c, pve, node, kind, vmids), GuestsByTheRule(c, pve, node, kind, vmids);
      if SomeAbsent(pve, node, kind, vmids) then |made| > |ruled| else made == ruled
  {
    if vmids == [] {
    } else {
      GuestsFollow(c, pve, node, kind, vmids[..|vmids| - 1]);
      GuestFollows(c, pve, node, kind, vmids[|vmids| - 1]);
      LastAbsent(pve, node, kind, vmids);
    }
  }

  lemma {:induction false} NodeFollows(c: string, pve: Pve, node: string, kinds: seq<string>)
    ensures var made, ruled := OnbootSamples(c, pve, node, kinds), NodeByTheRule(c, pve, node, kinds);
      if ReachesAbsent(pve, node, kinds) then |made| > |ruled| else made == ruled
  {
    if kinds == [] {
    } else {
      var vmids := ListedGuests(pve, node, kinds[0]);
      if vmids.Some? {
        GuestsFollow(c, pve, node, kinds[0], vmids.value);
        NodeFollows(c, pve, node, kinds[1..]);
      }
    }
  }

  /** The onboot collector follows the rule exactly when no guest that it gets to has a
      config that answers without the field; otherwise it emits more than the rule. */
  lemma OnbootFollowsIff(c: string, pve: Pve, node: string)
    ensures OnbootSamples(c, pve, node, GUEST_TYPES) == NodeByTheRule(c, pve, node, ["qemu", "lxc"])
      <==> !ReachesAbsent(pve, node, ["qemu", "lxc"])
  {
    NodeFollows(c, pve, node, GUEST_TYPES);
    assert GUEST_TYPES == ["qemu", "lxc"];
  }

  /** A server that lists one guest, whose config is answered without onboot. */
  function WithoutOnboot(node: string, vmid: real): Pve {
    (path: string) =>
      if path == GuestListPath(node, "qemu") then Response(STATUS_OK, Data(GuestRefs([Some(vmid)])))
      else if path == GuestConfigPath(node, "qemu", FormatInt(vmid)) then Response(STATUS_OK, Data(GuestConfig(None)))
      else TransportError
  }

  lemma WithoutOnbootAnswers(node: string, vmid: real)
    ensures ListedGuests(WithoutOnboot(node, vmid), node, "qemu") == Some([Some(vmid)])
    ensures ListedGuests(WithoutOnboot(node, vmid), node, "lxc") == None
    ensures OnbootAbsent(WithoutOnboot(node, vmid), node, "qemu", Some(vmid))
  {
    var list, config := GuestListPath(node, "qemu"), GuestConfigPath(node, "qemu", FormatInt(vmid));
    assert |list| == |NodeDir(node)| + 4 && |GuestListPath(node, "lxc")| == |NodeDir(node)| + 3;
    assert |config| > |list|;
  }

  /** It does happen: for that server the collector makes up a zero, where the rule has
      no sample. */
  lemma OnbootInvented(c: string, node: string, vmid: real)
    ensures OnbootSamples(c, WithoutOnboot(node, vmid), node, GUEST_TYPES)
      == [OnbootSample(c, node, "qemu", FormatInt(vmid), 0.0)]
    ensures NodeByTheRule(c, WithoutOnboot(node, vmid), node, GUEST_TYPES) == []
  {
    var pve, kinds := WithoutOnboot(node, vmid), GUEST_TYPES;
    WithoutOnbootAnswers(node, vmid);
    assert kinds[0] == "qemu" && kinds[1..] == ["lxc"];
    OneGuest(c, pve, node, "qemu", Some(vmid));
    assert OnbootSamples(c, pve, node, ["lxc"]) == [] && NodeByTheRule(c, pve, node, ["lxc"]) == [];
  }

  lemma OneGuest(c: string, pve: Pve, node: string, kind: string, vmid: FlexFloat)
    ensures GuestsSamples(c, pve, node, kind, [vmid]) == GuestSamples(c, pve, node, kind, vmid)
    ensures GuestsByTheRule(c, pve, node, kind, [vmid]) == OnbootByTheRule(c, pve, node, kind, vmid)
  {
    assert [vmid][..0] == [];
    Regroup(GuestSamples(c, pve, node, kind, vmid), [], []);
    Regroup(OnbootByTheRule(c, pve, node, kind, vmid), [], []);
  }

  lemma {:induction false} MissingIsInfo(c: string, guests: seq<NotBackedUpGuest>)
    ensures Named(NotBackedUpTotal, MissingSamples(c, guests)) == []
  {
    if guests == [] {
    } else {
      var init, g := guests[..|guests| - 1], guests[|guests| - 1];
      MissingIsInfo(c, init);
      var last := if g.vmid.None? || g.kind == "" then []
        else [MakeSample(c, NotBackedUpInfo, 1.0, [IdLabel(g.kind + "/" + FormatInt(g.vmid.value))])];
      FilterConcat(IsNamed(NotBackedUpTotal), MissingSamples(c, init), last);
      FilterNone(IsNamed(NotBackedUpTotal), last);
    }
  }

  /** The total of guests without a backup is a count, not a field: an answer always has
      exactly one, and it is 0 for an empty list and also for status 200 without data. */
  lemma BackupTotal(c: string, t: CollectorToggles, pve: Pve)
    requires t.BackupInfoEnabled()
    ensures var reply, total := ReplyOf(pve(BACKUP_PATH)), Named(NotBackedUpTotal, BackupPart(c, t, pve));
      match AsNotBackedUp(reply)
      case None => total == []
      case Some(gs) =>
        && total == [MakeSample(c, NotBackedUpTotal, |gs| as real, [IdLabel(ClusterId(c, pve))])]
        && (total[0].value == 0.0 <==> reply == Reply.Ok(None) || reply == Reply.Ok(Some(NotBackedUp([]))))
  {
    var r := AsNotBackedUp(ReplyOf(pve(BACKUP_PATH)));
    if r.Some? {
      var one := [MakeSample(c, NotBackedUpTotal, |r.value| as real, [IdLabel(ClusterId(c, pve))])];
      NamedOne(NotBackedUpTotal, one[0]);
      MissingIsInfo(c, r.value);
      FilterConcat(IsNamed(NotBackedUpTotal), one, MissingSamples(c, r.value));
      Regroup(one, [], []);
    }
  }

  lemma EmptyIsNoState()
    ensures "" !in HA_GUEST_STATES && "" !in LOCK_STATES && "" !in SUB_STATES
  {
  }

  /** The samples are the enum of that state: every listed one, 1 for the active one. */
  predicate IsEnum(xs: seq<Sample>, c: string, m: Metric, id: string, active: string, states: seq<string>) {
    |xs| == |states| && forall i :: 0 <= i < |xs| ==>
      xs[i] == Sample(m, [Label("cluster", c), Label("id", id), Label("state", states[i])],
        if states[i] == active then 1.0 else 0.0)
  }

  /** A guest with an HA state contributes every listed state, exactly one of them 1
      if its own is listed and all 0 if it is not; without one it contributes none. */
  lemma GuestOneHot(c: string, r: ClusterResource)
    requires IsGuest(r)
    ensures if r.haState == "" then Named(HAState, RowSamples(c, r)) == []
      else IsEnum(Named(HAState, RowSamples(c, r)), c, HAState, r.id, r.haState, HA_GUEST_STATES)
    ensures |Ones(Named(HAState, RowSamples(c, r)))| == (if r.haState in HA_GUEST_STATES then 1 else 0)
  {
    StateListsDistinct();
    EmptyIsNoState();
    OneGuestEnum(c, r, HAState, r.haState, HA_GUEST_STATES);
  }

  /** The same for a guest's config lock. */
  lemma LockOneHot(c: string, r: ClusterResource)
    requires IsGuest(r)
    ensures if r.lock == "" then Named(LockState, RowSamples(c, r)) == []
      else IsEnum(Named(LockState, RowSamples(c, r)), c, LockState, r.id, r.lock, LOCK_STATES)
    ensures |Ones(Named(LockState, RowSamples(c, r)))| == (if r.lock in LOCK_STATES then 1 else 0)
  {
    StateListsDistinct();
    EmptyIsNoState();
    OneGuestEnum(c, r, LockState, r.lock, LOCK_STATES);
  }

  lemma StatesOnly(c: string, r: ClusterResource, m: Metric)
    requires IsGuest(r) && (m.HAState? || m.LockState?)
    ensures Named(m, RowSamples(c, r)) == Named(m, GuestStates(c, r))
  {
    GuestMetric(c, r, m);
    HostMetric(c, r.status == "running", r, m);
    CounterMetric(c, r, m);
    Regroup(Named(m, GuestStates(c, r)), [], []);
  }

  lemma OneGuestEnum(c: string, r: ClusterResource, m: Metric, active: string, states: seq<string>)
    requires IsGuest(r) && NoDup(states) && "" !in states
    requires (m.HAState? && active == r.haState && states == HA_GUEST_STATES)
      || (m.LockState? && active == r.lock && states == LOCK_STATES)
    ensures if active == "" then Named(m, RowSamples(c, r)) == []
      else IsEnum(Named(m, RowSamples(c, r)), c, m, r.id, active, states)
    ensures |Ones(Named(m, RowSamples(c, r)))| == (if active in states then 1 else 0)
  {
    StatesOnly(c, r, m);
    StateMetric(c, r, m);
    EnumShape(c, m, r.id, active, states);
    OneHot(c, m, r.id, active, states);
  }

  /** The same for a node's subscription status. */
  lemma SubscriptionOneHot(c: string, id: string, status: string)
    ensures if status == "" then SubStatusSamples(c, id, status) == []
      else IsEnum(SubStatusSamples(c, id, status), c, SubStatus, id, status, SUB_STATES)
    ensures |Ones(SubStatusSamples(c, id, status))| == (if status in SUB_STATES then 1 else 0)
  {
    StateListsDistinct();
    EnumShape(c, SubStatus, id, status, SUB_STATES);
    OneHot(c, SubStatus, id, status, SUB_STATES);
    EmptyIsNoState();
  }
}
