/** NUL-free names and answers give samples without a NUL in any label, and so exact
    scrapes of every cycle. */
module NulFreedom {
  import opened Seqs
  import opened Metrics
  import opened Api
  import opened Models
  import opened Resources
  import opened ClusterInfos
  import opened Nodes
  import opened Plans
  import opened Schedules
  import opened Snapshots
  import opened Signatures
  import opened ScrapeProperties

  // ---- the strings that end up in labels ----

  predicate FreeRow(r: ClusterResource) {
    && NulFree(r.id) && NulFree(r.kind) && NulFree(r.node) && NulFree(r.name) && NulFree(r.tags)
    && NulFree(r.storage) && NulFree(r.pluginType) && NulFree(r.content)
  }

  predicate FreeEntry(e: ClusterStatusEntry) { NulFree(e.id) && NulFree(e.name) && NulFree(e.level) }

  predicate FreeJob(j: ReplicationJob) { NulFree(j.id) && NulFree(j.kind) && NulFree(j.source) && NulFree(j.target) }

  predicate FreePayload(p: Payload) {
    match p
    case Resources(rows) => forall i :: 0 <= i < |rows| ==> FreeRow(rows[i])
    case StatusRows(entries) => forall i :: 0 <= i < |entries| ==> FreeEntry(entries[i])
    case Version(v) => NulFree(v.release) && NulFree(v.repoId) && NulFree(v.version)
    case QDevice(q) => NulFree(q.model) && forall k :: k in q.network ==> NulFree(q.network[k])
    case NotBackedUp(gs) => forall i :: 0 <= i < |gs| ==> NulFree(gs[i].kind)
    case HAEntries(es) => forall i :: 0 <= i < |es| ==> NulFree(es[i].node)
    case Jobs(js) => forall i :: 0 <= i < |js| ==> FreeJob(js[i])
    case Subscription(sub) => NulFree(sub.level)
    case _ => true
  }

  predicate FreeAnswer(a: Answer) {
    a.Response? && a.body.Data? ==> FreePayload(a.body.payload)
  }

  /** Every answer is free of NUL. */
  ghost predicate FreeServer(pve: Pve) {
    forall path :: FreeAnswer(pve(path))
  }

  // ---- samples ----

  predicate FreeLabels(labels: seq<Label>) {
    forall i :: 0 <= i < |labels| ==> NulFree(labels[i].value)
  }

  predicate AllFree(ss: seq<Sample>) {
    forall i :: 0 <= i < |ss| ==> FreeLabels(ss[i].labels)
  }

  lemma FreeMade(c: string, m: Metric, v: real, labels: seq<Label>)
    requires NulFree(c) && FreeLabels(labels)
    ensures FreeLabels(MakeSample(c, m, v, labels).labels)
  {
  }

  lemma FreeConcat(a: seq<Sample>, b: seq<Sample>)
    requires AllFree(a) && AllFree(b)
    ensures AllFree(a + b)
  {
  }

  lemma FreeFlex(before: seq<Sample>, c: string, m: Metric, f: FlexFloat, id: string)
    requires NulFree(c) && NulFree(id) && AllFree(before)
    ensures AllFree(before + Flex(c, m, f, id))
  {
  }

  predicate FreeStates(states: seq<string>) { forall i :: 0 <= i < |states| ==> NulFree(states[i]) }

  lemma StateListsFree()
    ensures FreeStates(HA_NODE_STATES) && FreeStates(HA_GUEST_STATES)
      && FreeStates(LOCK_STATES) && FreeStates(SUB_STATES)
  {
  }

  lemma FreeEnum(c: string, m: Metric, id: string, active: string, states: seq<string>)
    requires NulFree(c) && NulFree(id) && FreeStates(states)
    ensures AllFree(StateEnum(c, m, id, active, states))
  {
    EnumShape(c, m, id, active, states);
  }

  lemma {:induction false} FreeDigits(n: nat)
    ensures NulFree(Digits(n))
    decreases n
  {
    if n < 10 {
      assert NulFree("0123456789");
    } else {
      FreeDigits(n / 10);
      FreeDigits(n % 10);
    }
  }

  lemma FreeInt(v: real)
    ensures NulFree(FormatInt(v))
  {
    var n := Truncate(v);
    if n < 0 {
      FreeDigits(-n);
    } else {
      FreeDigits(n);
    }
  }

  lemma FreeIntLabel(name: string, f: FlexFloat)
    ensures NulFree(IntLabel(name, f).value)
  {
    if f.Some? {
      FreeInt(f.value);
    }
  }

  // ---- resources ----

  lemma FreeHost(c: string, up: bool, r: ClusterResource)
    requires NulFree(c) && FreeRow(r)
    ensures AllFree(HostGauges(c, up, r))
  {
    FreeMade(c, Up, BoolToReal(up), [IdLabel(r.id)]);
    FreeFlex([] + [MakeSample(c, Up, BoolToReal(up), [IdLabel(r.id)])], c, CpuRatio, r.cpu, r.id);
    FreeFlex(HostUp(c, up, r), c, CpuLimit, r.maxCpu, r.id);
    FreeFlex(HostCpu(c, up, r), c, MemSize, r.maxMem, r.id);
    FreeFlex(HostHead(c, up, r), c, MemUsage, r.mem, r.id);
    FreeFlex(HostHead(c, up, r) + Flex(c, MemUsage, r.mem, r.id), c, DiskSize, r.maxDisk, r.id);
    FreeFlex(HostMemory(c, up, r), c, DiskUsage, r.disk, r.id);
    FreeFlex(HostMemory(c, up, r) + Flex(c, DiskUsage, r.disk, r.id), c, Uptime, r.uptime, r.id);
  }

  lemma FreeCounters(c: string, r: ClusterResource)
    requires NulFree(c) && FreeRow(r)
    ensures AllFree(GuestCounters(c, r))
  {
    FreeFlex([], c, NetRxTotal, r.netIn, r.id);
    FreeFlex([] + Flex(c, NetRxTotal, r.netIn, r.id), c, NetTxTotal, r.netOut, r.id);
    FreeFlex(Traffic(c, r), c, DiskReadTotal, r.diskRead, r.id);
    FreeFlex(Traffic(c, r) + Flex(c, DiskReadTotal, r.diskRead, r.id), c, DiskWriteTotal, r.diskWrite, r.id);
  }

  lemma FreeGuestStates(c: string, r: ClusterResource)
    requires NulFree(c) && FreeRow(r)
    ensures AllFree(GuestStates(c, r))
  {
    StateListsFree();
    FreeEnum(c, HAState, r.id, r.haState, HA_GUEST_STATES);
    FreeEnum(c, LockState, r.id, r.lock, LOCK_STATES);
  }

  lemma FreeStorage(c: string, r: ClusterResource)
    requires NulFree(c) && FreeRow(r)
    ensures AllFree(StorageSamples(c, r))
  {
    var up := [MakeSample(c, Up, BoolToReal(r.status == "available"), [IdLabel(r.id)])];
    FreeMade(c, Up, BoolToReal(r.status == "available"), [IdLabel(r.id)]);
    FreeFlex([] + up, c, DiskSize, r.maxDisk, r.id);
    FreeFlex(StorageDisk(c, r), c, DiskUsage, r.disk, r.id);
    FreeFlex(StorageUsage(c, r), c, StorShare, r.shared, r.id);
    assert FreeLabels(StorageInfoSample(c, r).labels);
  }

  lemma FreeGuest(c: string, r: ClusterResource)
    requires NulFree(c) && FreeRow(r) && (r.kind == "qemu" || r.kind == "lxc")
    ensures AllFree(RowSamples(c, r))
  {
    var gauges, counters := HostGauges(c, r.status == "running", r), GuestCounters(c, r);
    FreeHost(c, r.status == "running", r);
    FreeCounters(c, r);
    FreeGuestStates(c, r);
    FreeConcat([] + gauges, counters);
    FreeConcat([] + gauges + counters, GuestStates(c, r));
    assert FreeLabels(GuestInfoSample(c, r).labels);
    FreeConcat([] + gauges + counters + GuestStates(c, r), [GuestInfoSample(c, r)]);
  }

  lemma {:induction false} FreeRows(c: string, rows: seq<ClusterResource>)
    requires NulFree(c) && forall i :: 0 <= i < |rows| ==> FreeRow(rows[i])
    ensures AllFree(ResourceSamples(c, rows))
  {
    if rows == [] {
    } else {
      var r := rows[|rows| - 1];
      FreeRows(c, rows[..|rows| - 1]);
      if r.kind == "node" {
        FreeHost(c, r.status == "online", r);
      } else if r.kind == "qemu" || r.kind == "lxc" {
        FreeGuest(c, r);
      } else if r.kind == "storage" {
        FreeStorage(c, r);
      }
      FreeConcat(ResourceSamples(c, rows[..|rows| - 1]), RowSamples(c, r));
    }
  }

  // ---- the other endpoints of a target ----

  lemma FreeStatusEntry(c: string, e: ClusterStatusEntry)
    requires NulFree(c) && FreeEntry(e)
    ensures AllFree(StatusEntrySamples(c, e))
  {
    FreeIntLabel("nodeid", e.nodeId);
    FreeIntLabel("nodes", e.nodes);
    FreeIntLabel("quorate", e.quorate);
    FreeIntLabel("version", e.version);
  }

  lemma {:induction false} FreeStatus(c: string, rows: seq<ClusterStatusEntry>)
    requires NulFree(c) && forall i :: 0 <= i < |rows| ==> FreeEntry(rows[i])
    ensures AllFree(StatusSamples(c, rows))
  {
    if rows == [] {
    } else {
      FreeStatus(c, rows[..|rows| - 1]);
      FreeStatusEntry(c, rows[|rows| - 1]);
      FreeConcat(StatusSamples(c, rows[..|rows| - 1]), StatusEntrySamples(c, rows[|rows| - 1]));
    }
  }

  lemma {:induction false} FreeClusterName(rows: seq<ClusterStatusEntry>)
    requires forall i :: 0 <= i < |rows| ==> FreeEntry(rows[i])
    ensures NulFree(ClusterNameFromStatus(rows))
  {
    if rows == [] {
    } else {
      FreeClusterName(rows[1..]);
    }
  }

  lemma FreeClusterId(c: string, pve: Pve)
    requires NulFree(c) && FreeServer(pve)
    ensures NulFree(ClusterId(c, pve))
  {
    assert FreeAnswer(pve(STATUS_PATH));
    if AsStatus(ReplyOf(pve(STATUS_PATH))).Some? {
      FreeClusterName(AsStatus(ReplyOf(pve(STATUS_PATH))).value);
    }
  }

  lemma {:induction false} FreeMissing(c: string, gs: seq<NotBackedUpGuest>)
    requires NulFree(c) && forall i :: 0 <= i < |gs| ==> NulFree(gs[i].kind)
    ensures AllFree(MissingSamples(c, gs))
  {
    if gs == [] {
    } else {
      var g := gs[|gs| - 1];
      FreeMissing(c, gs[..|gs| - 1]);
      if g.vmid.Some? {
        FreeInt(g.vmid.value);
      }
    }
  }

  lemma {:induction false} FreeHA(c: string, es: seq<HAStatusEntry>)
    requires NulFree(c) && forall i :: 0 <= i < |es| ==> NulFree(es[i].node)
    ensures AllFree(HASamples(c, es))
  {
    if es == [] {
    } else {
      var e := es[|es| - 1];
      FreeHA(c, es[..|es| - 1]);
      StateListsFree();
      FreeEnum(c, HAState, "node/" + e.node, CanonicalNodeHAState(e.status), HA_NODE_STATES);
      FreeConcat(HASamples(c, es[..|es| - 1]), HAEntrySamples(c, e));
    }
  }

  lemma FreeStatusPart(c: string, pve: Pve)
    requires NulFree(c) && FreeAnswer(pve(STATUS_PATH))
    ensures AllFree(StatusPart(c, pve))
  {
    if AsStatus(ReplyOf(pve(STATUS_PATH))).Some? {
      FreeStatus(c, AsStatus(ReplyOf(pve(STATUS_PATH))).value);
    }
  }

  lemma FreeVersionPart(c: string, pve: Pve)
    requires NulFree(c) && FreeAnswer(pve(VERSION_PATH))
    ensures AllFree(VersionPart(c, pve))
  {
  }

  lemma FreeHAPart(c: string, t: CollectorToggles, pve: Pve)
    requires NulFree(c) && FreeAnswer(pve(HA_PATH))
    ensures AllFree(HATogglePart(c, t, pve))
  {
    if AsHA(ReplyOf(pve(HA_PATH))).Some? {
      FreeHA(c, AsHA(ReplyOf(pve(HA_PATH))).value);
    }
  }

  lemma FreeQDevicePart(c: string, t: CollectorToggles, pve: Pve)
    requires NulFree(c) && NulFree(ClusterId(c, pve)) && FreeAnswer(pve(QDEVICE_PATH))
    ensures AllFree(QDevicePart(c, t, pve))
  {
  }

  lemma FreeBackupPart(c: string, t: CollectorToggles, pve: Pve)
    requires NulFree(c) && NulFree(ClusterId(c, pve)) && FreeAnswer(pve(BACKUP_PATH))
    ensures AllFree(BackupPart(c, t, pve))
  {
    if AsNotBackedUp(ReplyOf(pve(BACKUP_PATH))).Some? {
      FreeMissing(c, AsNotBackedUp(ReplyOf(pve(BACKUP_PATH))).value);
    }
  }

  lemma FreePrefix(c: string, t: CollectorToggles, pve: Pve, rows: seq<ClusterResource>)
    requires NulFree(c) && FreeServer(pve) && AsResources(ReplyOf(pve(RESOURCES_PATH))) == Some(rows)
    ensures AllFree(Prefix(c, t, pve, rows))
  {
    assert FreeAnswer(pve(RESOURCES_PATH));
    FreeRows(c, rows);
    FreeStatusPart(c, pve);
    FreeVersionPart(c, pve);
    FreeHAPart(c, t, pve);
    FreeClusterId(c, pve);
    FreeQDevicePart(c, t, pve);
    FreeBackupPart(c, t, pve);
    FreeSix(ResourceSamples(c, rows), StatusPart(c, pve), VersionPart(c, pve),
      QDevicePart(c, t, pve), BackupPart(c, t, pve),
      HATogglePart(c, t, pve));
  }

  lemma FreeSix(u: seq<Sample>, v: seq<Sample>, w: seq<Sample>, x: seq<Sample>, y: seq<Sample>, z: seq<Sample>)
    requires AllFree(u) && AllFree(v) && AllFree(w) && AllFree(x) && AllFree(y) && AllFree(z)
    ensures AllFree([] + u + v + w + x + y + z)
  {
    FreeConcat([] + u, v);
    FreeConcat([] + u + v, w);
    FreeConcat([] + u + v + w, x);
    FreeConcat([] + u + v + w + x, y);
    FreeConcat([] + u + v + w + x + y, z);
  }

  // ---- node workers ----

  lemma FreeJobStatus(c: string, id: string, st: ReplicationStatus)
    requires NulFree(c) && NulFree(id)
    ensures AllFree(JobStatusSamples(c, id, st))
  {
    FreeFlex([], c, ReplDuration, st.duration, id);
    FreeFlex([] + Flex(c, ReplDuration, st.duration, id), c, ReplLastSync, st.lastSync, id);
    FreeFlex(JobTimes(c, id, st), c, ReplLastTry, st.lastTry, id);
    FreeFlex(JobTimes(c, id, st) + Flex(c, ReplLastTry, st.lastTry, id), c, ReplNextSync, st.nextSync, id);
    FreeFlex(JobTries(c, id, st), c, ReplFailed, st.failCount, id);
  }

  lemma FreeJobInfo(c: string, j: ReplicationJob)
    requires NulFree(c) && FreeJob(j)
    ensures FreeLabels(JobInfoSample(c, j).labels)
  {
    if j.guest.Some? {
      FreeInt(j.guest.value);
    }
  }

  lemma {:induction false} FreeJobs(c: string, pve: Pve, node: string, jobs: seq<ReplicationJob>)
    requires NulFree(c) && forall i :: 0 <= i < |jobs| ==> FreeJob(jobs[i])
    ensures AllFree(JobsSamples(c, pve, node, jobs))
  {
    if jobs == [] {
    } else {
      var j := jobs[|jobs| - 1];
      FreeJobs(c, pve, node, jobs[..|jobs| - 1]);
      FreeJobInfo(c, j);
      var st := AsJobStatus(ReplyOf(pve(JobStatusPath(node, j.id))));
      if st.Some? {
        FreeJobStatus(c, j.id, st.value);
      }
      assert AllFree(JobSamples(c, pve, node, j));
    }
  }

  lemma FreeReplication(c: string, pve: Pve, node: string)
    requires NulFree(c) && FreeServer(pve)
    ensures AllFree(ReplicationSamples(c, pve, node))
  {
    assert FreeAnswer(pve(ReplicationPath(node)));
    if ListedJobs(pve, node).Some? {
      FreeJobs(c, pve, node, ListedJobs(pve, node).value);
    }
  }

  lemma FreeSubStatus(c: string, id: string, status: string)
    requires NulFree(c) && NulFree(id)
    ensures AllFree(SubStatusSamples(c, id, status))
  {
    StateListsFree();
    FreeEnum(c, SubStatus, id, status, SUB_STATES);
  }

  lemma FreeSubscribed(c: string, id: string, sub: SubscriptionInfo)
    requires NulFree(c) && NulFree(id) && NulFree(sub.level)
    ensures AllFree([] + SubLevelSamples(c, id, sub.level) + SubStatusSamples(c, id, sub.status)
      + Flex(c, SubNextDue, sub.nextDue, id))
  {
    var level, status := SubLevelSamples(c, id, sub.level), SubStatusSamples(c, id, sub.status);
    FreeSubStatus(c, id, sub.status);
    FreeConcat([] + level, status);
    FreeFlex([] + level + status, c, SubNextDue, sub.nextDue, id);
  }

  lemma FreeSubscription(c: string, pve: Pve, node: string)
    requires NulFree(c) && NulFree(node) && FreeServer(pve)
    ensures AllFree(SubscriptionSamples(c, pve, node))
  {
    assert FreeAnswer(pve(SubscriptionPath(node)));
    var sub := AsSubscription(ReplyOf(pve(SubscriptionPath(node))));
    if sub.Some? {
      FreeSubscribed(c, "node/" + node, sub.value);
    }
  }

  lemma {:induction false} FreeGuests(c: string, pve: Pve, node: string, kind: string, vmids: seq<FlexFloat>)
    requires NulFree(c) && NulFree(node) && NulFree(kind)
    ensures AllFree(GuestsSamples(c, pve, node, kind, vmids))
  {
    if vmids == [] {
    } else {
      FreeGuests(c, pve, node, kind, vmids[..|vmids| - 1]);
      if vmids[|vmids| - 1].Some? {
        FreeInt(vmids[|vmids| - 1].value);
      }
      assert AllFree(GuestSamples(c, pve, node, kind, vmids[|vmids| - 1]));
    }
  }

  lemma {:induction false} FreeOnboot(c: string, pve: Pve, node: string, kinds: seq<string>)
    requires NulFree(c) && NulFree(node) && FreeStates(kinds)
    ensures AllFree(OnbootSamples(c, pve, node, kinds))
  {
    if kinds == [] {
    } else {
      var vmids := ListedGuests(pve, node, kinds[0]);
      if vmids.Some? {
        FreeGuests(c, pve, node, kinds[0], vmids.value);
        FreeOnboot(c, pve, node, kinds[1..]);
        FreeConcat(GuestsSamples(c, pve, node, kinds[0], vmids.value), OnbootSamples(c, pve, node, kinds[1..]));
      }
    }
  }

  lemma FreeBlock(c: string, t: CollectorToggles, pve: Pve, node: string)
    requires NulFree(c) && NulFree(node) && FreeServer(pve)
    ensures AllFree(NodeBlock(c, t, pve, node))
  {
    FreeReplication(c, pve, node);
    FreeSubscription(c, pve, node);
    FreeOnboot(c, pve, node, GUEST_TYPES);
  }

  lemma {:induction false} FreeNodeNames(rows: seq<ClusterResource>)
    requires forall i :: 0 <= i < |rows| ==> FreeRow(rows[i])
    ensures FreeStates(NodeNames(rows))
  {
    if rows == [] {
    } else {
      FreeNodeNames(rows[..|rows| - 1]);
    }
  }

  // ---- a cycle ----

  ghost predicate FreePlan(p: Plan) {
    && NulFree(p.name) && NulFree(p.upId) && AllFree(p.prefix)
    && forall i :: 0 <= i < |p.nodes| ==> AllFree(p.nodes[i].block)
  }

  lemma FreeWorkers(c: string, t: CollectorToggles, pve: Pve, nodes: seq<string>)
    requires NulFree(c) && FreeServer(pve) && FreeStates(nodes)
    ensures forall i :: 0 <= i < |nodes| ==> AllFree(NodePlans(c, t, pve, nodes)[i].block)
  {
    forall i | 0 <= i < |nodes| ensures AllFree(NodePlans(c, t, pve, nodes)[i].block) {
      FreeBlock(c, t, pve, nodes[i]);
    }
  }

  lemma FreePlanOf(c: string, t: CollectorToggles, pve: Pve)
    requires NulFree(c) && FreeServer(pve)
    ensures FreePlan(PlanOf(c, t, pve))
  {
    var r := AsResources(ReplyOf(pve(RESOURCES_PATH)));
    if r.Some? {
      assert FreeAnswer(pve(RESOURCES_PATH));
      FreeNodeNames(r.value);
      FreePlanUp(c, t, pve, r.value);
    }
  }

  lemma FreePlanUp(c: string, t: CollectorToggles, pve: Pve, rows: seq<ClusterResource>)
    requires NulFree(c) && FreeServer(pve) && FreeStates(NodeNames(rows))
    requires AsResources(ReplyOf(pve(RESOURCES_PATH))) == Some(rows)
    ensures FreePlan(PlanOf(c, t, pve))
  {
    FreeClusterId(c, pve);
    FreePrefix(c, t, pve, rows);
    FreeWorkers(c, t, pve, NodeNames(rows));
  }

  lemma {:induction false} FreeFlatten(bs: seq<seq<Sample>>)
    requires forall i :: 0 <= i < |bs| ==> AllFree(bs[i])
    ensures AllFree(Flatten(bs))
  {
    if bs == [] {
    } else {
      FreeFlatten(bs[..|bs| - 1]);
      FreeConcat(Flatten(bs[..|bs| - 1]), bs[|bs| - 1]);
    }
  }

  lemma FreeResult(p: Plan, order: seq<nat>, elapsed: real, errors: nat)
    requires FreePlan(p) && IsOrder(order, |p.nodes|)
    ensures AllFree(Samples(p, order, elapsed, errors))
  {
    FreeFlatten(Pick(Blocks(p.nodes), order));
    FreeConcat(p.prefix, Flatten(Pick(Blocks(p.nodes), order)));
    assert AllFree(Tail(p, elapsed, errors));
    FreeConcat(p.prefix + Flatten(Pick(Blocks(p.nodes), order)), Tail(p, elapsed, errors));
  }

  lemma FreeIsClean(c: string, ss: seq<Sample>)
    requires AllFree(ss) && AllConform(c, ss)
    ensures Clean(ss)
  {
    forall i | 0 <= i < |ss| ensures CleanSample(ss[i]) {
      assert FreeLabels(ss[i].labels) && Conforms(c, ss[i]);
    }
  }

  lemma {:induction false} CleanResults(rs: seq<Option<TargetSnapshot>>)
    requires forall i :: 0 <= i < |rs| && rs[i].Some? ==> Clean(rs[i].value.samples)
    ensures Clean(AllSamples(rs))
  {
    if rs == [] {
    } else {
      var init := rs[..|rs| - 1];
      assert forall i :: 0 <= i < |init| ==> init[i] == rs[i];
      CleanResults(init);
    }
  }

  /** From names and answers to exact scrapes: when no configured name and no answer has
      a NUL, signatures tell label lists apart in every reachable state of every cycle,
      so every scrape of it is exact. */
  lemma FreeCycleTells(names: seq<string>, t: CollectorToggles, pves: seq<Pve>, ps: seq<Plan>, limit: int,
                       counters: seq<nat>, moves: seq<Move>)
    requires |names| == |pves| == |ps| == |counters|
    requires forall i :: 0 <= i < |names| ==> NulFree(names[i]) && FreeServer(pves[i])
    requires forall i :: 0 <= i < |names| ==> ps[i] == PlanOf(names[i], t, pves[i])
    requires Legal(ps, limit, Initial(counters), moves)
    ensures Telling(AllSamples(Results(After(ps, limit, Initial(counters), moves))))
  {
    var s := After(ps, limit, Initial(counters), moves);
    CycleOutcome(ps, limit, counters, moves);
    forall i | 0 <= i < |s| && Results(s)[i].Some? ensures Clean(Results(s)[i].value.samples) {
      FreePlanOf(names[i], t, pves[i]);
      PlanOfConforms(names[i], t, pves[i]);
      CleanTarget(ps[i], counters[i], s[i]);
    }
    CleanResults(Results(s));
    CleanTells(AllSamples(Results(s)));
  }

  lemma CleanTarget(p: Plan, e0: nat, s: Proc)
    requires FreePlan(p) && PlanConforms(p) && Settled(p, e0, s)
    ensures Clean(s.phase.ts.samples)
  {
    FreeResult(p, s.phase.merged, s.phase.elapsed, s.errors);
    Schema(p, s.phase.merged, s.phase.elapsed, s.errors);
    FreeIsClean(p.name, s.phase.ts.samples);
  }
}
