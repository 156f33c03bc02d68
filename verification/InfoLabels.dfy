/** What the info samples say, label by label, and that every listed row is emitted: the
    parts of the emitters that are no readings (for those see Readings). */
module InfoLabels {
  import opened Seqs
  import opened Metrics
  import opened Api
  import opened ClusterInfos
  import opened Resources
  import opened Nodes
  import opened Snapshots
  import opened Readings

  /** The sample is an info of that metric, with these labels and no others. */
  ghost predicate Carries(s: Sample, m: Metric, fields: map<string, string>) {
    && s.name == m && s.value == 1.0
    && (forall k :: (0 <= k < |s.labels| ==>
         s.labels[k].name in fields && fields[s.labels[k].name] == s.labels[k].value))
    && forall key :: key in fields ==> exists k :: 0 <= k < |s.labels| && s.labels[k].name == key
  }

  // ---- resource rows ----

  lemma AndLast(m: Metric, before: seq<Sample>, s: Sample)
    requires s.name == m && Named(m, before) == []
    ensures Named(m, before + [s]) == [s]
  {
    FilterSnoc(IsNamed(m), before, s);
    assert [] + [s] == [s];
  }

  lemma GuestInfoLabels(c: string, r: ClusterResource)
    ensures Carries(GuestInfoSample(c, r), GuestInfo, map[
      "cluster" := c, "id" := r.id, "node" := r.node, "name" := r.name, "type" := r.kind,
      "template" := if r.template == Some(1.0) then "1" else "0", "tags" := r.tags])
  {
    var ls := GuestInfoSample(c, r).labels;
    assert ls[0].name == "cluster" && ls[1].name == "id" && ls[2].name == "node" && ls[3].name == "name"
      && ls[4].name == "type" && ls[5].name == "template" && ls[6].name == "tags";
  }

  lemma NoInfoBefore(c: string, r: ClusterResource)
    ensures Named(GuestInfo,
      [] + HostGauges(c, r.status == "running", r) + GuestCounters(c, r) + GuestStates(c, r)) == []
  {
    HostMetric(c, r.status == "running", r, GuestInfo);
    CounterMetric(c, r, GuestInfo);
    StateMetric(c, r, GuestInfo);
    NamedOfThreeLists(GuestInfo, HostGauges(c, r.status == "running", r), GuestCounters(c, r), GuestStates(c, r));
  }

  /** A guest row has one info sample, of its own fields; template is 1 exactly for the
      value 1. */
  lemma GuestInfoExact(c: string, r: ClusterResource)
    requires IsGuest(r)
    ensures |Named(GuestInfo, RowSamples(c, r))| == 1
    ensures Carries(Named(GuestInfo, RowSamples(c, r))[0], GuestInfo, map[
      "cluster" := c, "id" := r.id, "node" := r.node, "name" := r.name, "type" := r.kind,
      "template" := if r.template == Some(1.0) then "1" else "0", "tags" := r.tags])
  {
    NoInfoBefore(c, r);
    GuestRowParts(c, r);
    AndLast(GuestInfo, [] + HostGauges(c, r.status == "running", r) + GuestCounters(c, r) + GuestStates(c, r),
            GuestInfoSample(c, r));
    GuestInfoLabels(c, r);
  }

  lemma StorageInfoLabels(c: string, r: ClusterResource)
    ensures Carries(StorageInfoSample(c, r), StorageInfo, map[
      "cluster" := c, "id" := r.id, "node" := r.node, "storage" := r.storage,
      "plugintype" := r.pluginType, "content" := r.content])
  {
    var ls := StorageInfoSample(c, r).labels;
    assert ls[0].name == "cluster" && ls[1].name == "id" && ls[2].name == "node" && ls[3].name == "storage"
      && ls[4].name == "plugintype" && ls[5].name == "content";
  }

  lemma StorageInfoExact(c: string, r: ClusterResource)
    requires IsStorage(r)
    ensures |Named(StorageInfo, RowSamples(c, r))| == 1
    ensures Carries(Named(StorageInfo, RowSamples(c, r))[0], StorageInfo, map[
      "cluster" := c, "id" := r.id, "node" := r.node, "storage" := r.storage,
      "plugintype" := r.pluginType, "content" := r.content])
  {
    StorageHeadMetric(c, r, StorageInfo);
    AndLast(StorageInfo, StorageHead(c, r), StorageInfoSample(c, r));
    StorageInfoLabels(c, r);
  }

  lemma NodeRowHasNone(c: string, r: ClusterResource, m: Metric)
    requires r.kind == "node" && (m.GuestInfo? || m.StorageInfo?)
    ensures Named(m, RowSamples(c, r)) == []
  {
    HostMetric(c, r.status == "online", r, m);
  }

  lemma NoneOfThese(c: string, r: ClusterResource)
    ensures Named(StorageInfo, HostGauges(c, r.status == "running", r)) == []
    ensures Named(StorageInfo, GuestCounters(c, r)) == [] && Named(StorageInfo, GuestStates(c, r)) == []
  {
    HostMetric(c, r.status == "running", r, StorageInfo);
    CounterMetric(c, r, StorageInfo);
    StateMetric(c, r, StorageInfo);
  }

  lemma GuestRowHasNone(c: string, r: ClusterResource)
    requires IsGuest(r)
    ensures Named(StorageInfo, RowSamples(c, r)) == []
  {
    GuestMetric(c, r, StorageInfo);
    NoneOfThese(c, r);
  }

  lemma StorageRowHasNone(c: string, r: ClusterResource)
    requires IsStorage(r)
    ensures Named(GuestInfo, RowSamples(c, r)) == []
  {
    StorageHeadMetric(c, r, GuestInfo);
    AndOther(GuestInfo, StorageHead(c, r), StorageInfoSample(c, r));
  }

  lemma NoSuchKind(c: string, r: ClusterResource)
    requires r.kind !in {"node", "qemu", "lxc", "storage"}
    ensures RowSamples(c, r) == []
  {
  }

  /** Rows of any other kind emit nothing, and the others no info but their own. */
  lemma OtherRows(c: string, r: ClusterResource)
    ensures r.kind !in {"node", "qemu", "lxc", "storage"} ==> RowSamples(c, r) == []
    ensures !IsGuest(r) ==> Named(GuestInfo, RowSamples(c, r)) == []
    ensures !IsStorage(r) ==> Named(StorageInfo, RowSamples(c, r)) == []
  {
    if r.kind == "node" {
      NodeRowHasNone(c, r, GuestInfo);
      NodeRowHasNone(c, r, StorageInfo);
    } else if IsGuest(r) {
      GuestRowHasNone(c, r);
    } else if IsStorage(r) {
      StorageRowHasNone(c, r);
    } else {
      NoSuchKind(c, r);
    }
  }

  // ---- the other endpoints ----

  function Number(f: FlexFloat): string { if f.None? then "" else FormatInt(f.value) }

  lemma NodeInfoLabels(c: string, e: ClusterStatusEntry)
    requires e.kind == "node"
    ensures |StatusEntrySamples(c, e)| == 1
    ensures Carries(StatusEntrySamples(c, e)[0], NodeInfo, map[
      "cluster" := c, "id" := e.id, "name" := e.name, "level" := e.level, "nodeid" := Number(e.nodeId)])
  {
    var ls := StatusEntrySamples(c, e)[0].labels;
    assert ls[0].name == "cluster" && ls[1].name == "id" && ls[2].name == "name" && ls[3].name == "level"
      && ls[4].name == "nodeid";
  }

  lemma ClusterInfoLabels(c: string, e: ClusterStatusEntry)
    requires e.kind == "cluster"
    ensures |StatusEntrySamples(c, e)| == 1
    ensures Carries(StatusEntrySamples(c, e)[0], Metric.ClusterInfo, map[
      "cluster" := c, "id" := e.id, "nodes" := Number(e.nodes), "quorate" := Number(e.quorate),
      "version" := Number(e.version)])
  {
    var ls := StatusEntrySamples(c, e)[0].labels;
    assert ls[0].name == "cluster" && ls[1].name == "id" && ls[2].name == "nodes" && ls[3].name == "quorate"
      && ls[4].name == "version";
  }

  lemma OtherStatusRows(c: string, e: ClusterStatusEntry)
    requires e.kind != "node" && e.kind != "cluster"
    ensures StatusEntrySamples(c, e) == []
  {
  }

  lemma VersionLabels(c: string, v: ReleaseInfo)
    ensures Carries(VersionSample(c, v), VersionInfo,
      map["cluster" := c, "release" := v.release, "repoid" := v.repoId, "version" := v.version])
  {
    var ls := VersionSample(c, v).labels;
    assert ls[0].name == "cluster" && ls[1].name == "release" && ls[2].name == "repoid" && ls[3].name == "version";
  }

  function NetworkValue(q: QDeviceConfig, key: string): string { if key !in q.network then "" else q.network[key] }

  lemma QDeviceLabels(c: string, id: string, q: QDeviceConfig)
    ensures var xs := QDeviceSamples(c, id, q);
      && |xs| == (if q.model == "" then 0 else 2)
      && (q.model != "" ==>
           && Carries(xs[0], QDeviceUp, map["cluster" := c, "id" := id])
           && Carries(xs[1], QDeviceInfo, map["cluster" := c, "id" := id, "model" := q.model,
                "host" := NetworkValue(q, "host"), "algorithm" := NetworkValue(q, "algorithm")]))
  {
    if q.model != "" {
      var up, ls := QDeviceSamples(c, id, q)[0].labels, QDeviceSamples(c, id, q)[1].labels;
      assert up[0].name == "cluster" && up[1].name == "id";
      assert ls[0].name == "cluster" && ls[1].name == "id" && ls[2].name == "model" && ls[3].name == "host"
        && ls[4].name == "algorithm";
    }
  }

  // ---- node collectors ----

  lemma JobInfoLabels(c: string, j: ReplicationJob)
    ensures Carries(JobInfoSample(c, j), ReplInfo, map[
      "cluster" := c, "id" := j.id, "guest" := if j.guest.None? then "" else "qemu/" + FormatInt(j.guest.value),
      "source" := "node/" + j.source, "target" := "node/" + j.target, "type" := j.kind])
  {
    var ls := JobInfoSample(c, j).labels;
    assert ls[0].name == "cluster" && ls[1].name == "id" && ls[2].name == "guest" && ls[3].name == "source"
      && ls[4].name == "target" && ls[5].name == "type";
  }

  lemma LevelLabels(c: string, id: string, level: string)
    ensures var xs := SubLevelSamples(c, id, level);
      && |xs| == (if level == "" then 0 else 1)
      && (level != "" ==> Carries(xs[0], SubInfo, map["cluster" := c, "id" := id, "level" := level]))
  {
    if level != "" {
      var ls := SubLevelSamples(c, id, level)[0].labels;
      assert ls[0].name == "cluster" && ls[1].name == "id" && ls[2].name == "level";
    }
  }

  /** A subscription that is answered yields its level, its status and its due date, all
      under the node's id. */
  lemma SubscriptionParts(c: string, pve: Pve, node: string, sub: SubscriptionInfo)
    requires AsSubscription(ReplyOf(pve("/nodes/" + node + "/" + "subscription"))) == Some(sub)
    ensures SubscriptionSamples(c, pve, node)
      == [] + SubLevelSamples(c, "node/" + node, sub.level) + SubStatusSamples(c, "node/" + node, sub.status)
       + (if sub.nextDue.None? then []
          else [Sample(SubNextDue, [Label("cluster", c), Label("id", "node/" + node)], sub.nextDue.value)])
  {
    assert [Label("cluster", c)] + [IdLabel("node/" + node)] == [Label("cluster", c), Label("id", "node/" + node)];
  }

  // ---- every row is emitted, in order ----

  /** What f says of each element, in order. */
  function Each<T>(f: T -> seq<Sample>, xs: seq<T>): seq<Sample> {
    Flatten(seq(|xs|, i requires 0 <= i < |xs| => f(xs[i])))
  }

  lemma OneMore<T>(f: T -> seq<Sample>, xs: seq<T>)
    requires xs != []
    ensures Each(f, xs) == Each(f, xs[..|xs| - 1]) + f(xs[|xs| - 1])
  {
    var all := seq(|xs|, i requires 0 <= i < |xs| => f(xs[i]));
    assert all[..|xs| - 1] == seq(|xs| - 1, i requires 0 <= i < |xs| - 1 => f(xs[..|xs| - 1][i]));
  }

  lemma {:induction false} EachResource(c: string, rows: seq<ClusterResource>)
    ensures ResourceSamples(c, rows) == Each((r: ClusterResource) => RowSamples(c, r), rows)
  {
    if rows == [] {
    } else {
      EachResource(c, rows[..|rows| - 1]);
      OneMore((r: ClusterResource) => RowSamples(c, r), rows);
    }
  }

  lemma {:induction false} EachStatusRow(c: string, rows: seq<ClusterStatusEntry>)
    ensures StatusSamples(c, rows) == Each((e: ClusterStatusEntry) => StatusEntrySamples(c, e), rows)
  {
    if rows == [] {
    } else {
      EachStatusRow(c, rows[..|rows| - 1]);
      OneMore((e: ClusterStatusEntry) => StatusEntrySamples(c, e), rows);
    }
  }

  lemma {:induction false} EachHAEntry(c: string, es: seq<HAStatusEntry>)
    ensures HASamples(c, es) == Each((e: HAStatusEntry) => HAEntrySamples(c, e), es)
  {
    if es == [] {
    } else {
      EachHAEntry(c, es[..|es| - 1]);
      OneMore((e: HAStatusEntry) => HAEntrySamples(c, e), es);
    }
  }

  /** A guest without a backup is named by type and number; one that lacks either is not. */
  function MissingGuest(c: string): NotBackedUpGuest -> seq<Sample> {
    (g: NotBackedUpGuest) =>
      if g.kind != "" && g.vmid.Some? then
        [Sample(NotBackedUpInfo, [Label("cluster", c), Label("id", g.kind + "/" + FormatInt(g.vmid.value))], 1.0)]
      else []
  }

  lemma LastMissingGuest(c: string, gs: seq<NotBackedUpGuest>)
    requires gs != []
    ensures MissingSamples(c, gs) == MissingSamples(c, gs[..|gs| - 1]) + MissingGuest(c)(gs[|gs| - 1])
  {
    var g := gs[|gs| - 1];
    if g.vmid.Some? {
      var id := g.kind + "/" + FormatInt(g.vmid.value);
      assert [Label("cluster", c)] + [IdLabel(id)] == [Label("cluster", c), Label("id", id)];
    }
  }

  lemma {:induction false} EachMissingGuest(c: string, gs: seq<NotBackedUpGuest>)
    ensures MissingSamples(c, gs) == Each(MissingGuest(c), gs)
  {
    if gs == [] {
    } else {
      EachMissingGuest(c, gs[..|gs| - 1]);
      OneMore(MissingGuest(c), gs);
      LastMissingGuest(c, gs);
    }
  }

  /** A job's info, and its status if the status call is answered. */
  function OneJob(c: string, pve: Pve, node: string): ReplicationJob -> seq<Sample> {
    (j: ReplicationJob) =>
      var st := AsJobStatus(ReplyOf(pve("/nodes/" + node + "/" + ("replication/" + j.id + "/status"))));
      [JobInfoSample(c, j)] + (if st.Some? then JobStatusSamples(c, j.id, st.value) else [])
  }

  lemma JobExact(c: string, pve: Pve, node: string, j: ReplicationJob)
    ensures JobSamples(c, pve, node, j) == OneJob(c, pve, node)(j)
  {
  }

  lemma {:induction false} EachJob(c: string, pve: Pve, node: string, jobs: seq<ReplicationJob>)
    ensures JobsSamples(c, pve, node, jobs) == Each(OneJob(c, pve, node), jobs)
  {
    if jobs == [] {
    } else {
      EachJob(c, pve, node, jobs[..|jobs| - 1]);
      OneMore(OneJob(c, pve, node), jobs);
      JobExact(c, pve, node, jobs[|jobs| - 1]);
    }
  }
}
