/** internal/pve/node.go: the per-node collectors. For one node they make a list
    of calls and gather a block of samples, both fixed by the server's answers. */
module Nodes {
  import opened Seqs
  import opened Metrics
  import opened Api
  import opened Clients
  import opened Models

  function Optional(pve: Pve, path: string): Exchange { Exchange(path, true, pve(path)) }

  // ---- replication ----

  function JobInfoSample(c: string, j: ReplicationJob): (s: Sample)
    ensures Conforms(c, s)
  {
    MakeSample(c, ReplInfo, 1.0,
      [IdLabel(j.id), Label("guest", if j.guest.Some? then "qemu/" + FormatInt(j.guest.value) else ""),
       Label("source", "node/" + j.source), Label("target", "node/" + j.target), Label("type", j.kind)])
  }

  function JobTimes(c: string, id: string, st: ReplicationStatus): (out: seq<Sample>)
    ensures AllCollected(c, out)
  {
    [] + Flex(c, ReplDuration, st.duration, id) + Flex(c, ReplLastSync, st.lastSync, id)
  }

  function JobTries(c: string, id: string, st: ReplicationStatus): (out: seq<Sample>)
    ensures AllCollected(c, out)
  {
    JobTimes(c, id, st) + Flex(c, ReplLastTry, st.lastTry, id) + Flex(c, ReplNextSync, st.nextSync, id)
  }

  function JobStatusSamples(c: string, id: string, st: ReplicationStatus): (out: seq<Sample>)
    ensures AllCollected(c, out)
  {
    JobTries(c, id, st) + Flex(c, ReplFailed, st.failCount, id)
  }

  /** The job's info sample, then its status samples if the status call worked. */
  function JobSamples(c: string, pve: Pve, node: string, j: ReplicationJob): (out: seq<Sample>)
    ensures AllCollected(c, out)
  {
    [JobInfoSample(c, j)]
    + match AsJobStatus(ReplyOf(pve(JobStatusPath(node, j.id))))
      case None => []
      case Some(st) => JobStatusSamples(c, j.id, st)
  }

  function JobsSamples(c: string, pve: Pve, node: string, jobs: seq<ReplicationJob>): (out: seq<Sample>)
    ensures AllCollected(c, out)
  {
    if jobs == [] then []
    else JobsSamples(c, pve, node, jobs[..|jobs| - 1]) + JobSamples(c, pve, node, jobs[|jobs| - 1])
  }

  function JobsCalls(pve: Pve, node: string, jobs: seq<ReplicationJob>): (calls: seq<Exchange>)
    ensures |calls| == |jobs|
  {
    if jobs == [] then []
    else JobsCalls(pve, node, jobs[..|jobs| - 1]) + [Optional(pve, JobStatusPath(node, jobs[|jobs| - 1].id))]
  }

  function ListedJobs(pve: Pve, node: string): Option<seq<ReplicationJob>> {
    AsJobs(ReplyOf(pve(ReplicationPath(node))))
  }

  function ReplicationSamples(c: string, pve: Pve, node: string): (out: seq<Sample>)
    ensures AllCollected(c, out)
  {
    match ListedJobs(pve, node) case None => [] case Some(jobs) => JobsSamples(c, pve, node, jobs)
  }

  function ReplicationCalls(pve: Pve, node: string): seq<Exchange> {
    [Optional(pve, ReplicationPath(node))]
    + match ListedJobs(pve, node) case None => [] case Some(jobs) => JobsCalls(pve, node, jobs)
  }

  method CollectReplication(client: Client, pve: Pve, node: string, s: SampleSet) returns (ok: bool)
    requires client.Valid()
    modifies client, s
    ensures client.Called(ReplicationCalls(pve, node))
    ensures s.Appended(ReplicationSamples(s.cluster, pve, node))
  {
    ghost var b, a := s.Mark();
    ghost var cb, ca := client.Mark();
    var r := client.GetOptional(pve, ReplicationPath(node));
    ghost var list := [Optional(pve, ReplicationPath(node))];
    Regroup(list, [], []);
    ok := AsJobs(r).Some?;
    if ok {
      CollectJobs(client, pve, node, AsJobs(r).value, s);
      Regroup(JobsSamples(s.cluster, pve, node, AsJobs(r).value), [], []);
    }
    s.Release(b, a);
    client.Release(cb, ca);
  }

  /** The loop over the listed jobs. */
  method CollectJobs(client: Client, pve: Pve, node: string, jobs: seq<ReplicationJob>, s: SampleSet)
    requires client.Valid()
    modifies client, s
    ensures client.Called(JobsCalls(pve, node, jobs))
    ensures s.Appended(JobsSamples(s.cluster, pve, node, jobs))
  {
    ghost var b, a := s.Mark();
    ghost var cb, ca := client.Mark();
    for i := 0 to |jobs|
      invariant s.Marked() && s.base == old(s.out) && s.added == JobsSamples(s.cluster, pve, node, jobs[..i])
      invariant client.Valid() && client.Marked() && client.base == old(client.log)
      invariant client.added == JobsCalls(pve, node, jobs[..i])
    {
      assert jobs[..i + 1][..i] == jobs[..i];
      CollectJob(client, pve, node, jobs[i], s);
    }
    assert jobs[..|jobs|] == jobs;
    s.Release(b, a);
    client.Release(cb, ca);
  }

  /** One iteration of the job loop. */
  method CollectJob(client: Client, pve: Pve, node: string, j: ReplicationJob, s: SampleSet)
    requires client.Valid()
    modifies client, s
    ensures client.Called([Optional(pve, JobStatusPath(node, j.id))])
    ensures s.Appended(JobSamples(s.cluster, pve, node, j))
  {
    ghost var b, a := s.Mark();
    var guest := "";
    if j.guest.Some? {
      guest := "qemu/" + FormatInt(j.guest.value);
    }
    s.Add(ReplInfo, 1.0,
      [IdLabel(j.id), Label("guest", guest),
       Label("source", "node/" + j.source), Label("target", "node/" + j.target), Label("type", j.kind)]);
    assert s.added == [JobInfoSample(s.cluster, j)];
    var r := client.GetOptional(pve, JobStatusPath(node, j.id));
    if AsJobStatus(r).Some? {
      CollectJobStatus(s, j.id, AsJobStatus(r).value);
    } else {
      assert s.added + [] == s.added;
    }
    s.Release(b, a);
  }

  method CollectJobStatus(s: SampleSet, id: string, st: ReplicationStatus)
    modifies s
    ensures s.Appended(JobStatusSamples(s.cluster, id, st))
  {
    ghost var b, a := s.Mark();
    s.AddFlex(ReplDuration, st.duration, id);
    s.AddFlex(ReplLastSync, st.lastSync, id);
    s.AddFlex(ReplLastTry, st.lastTry, id);
    s.AddFlex(ReplNextSync, st.nextSync, id);
    s.AddFlex(ReplFailed, st.failCount, id);
    s.Release(b, a);
  }

  // ---- subscription ----

  function SubLevelSamples(c: string, id: string, level: string): (out: seq<Sample>)
    ensures AllCollected(c, out)
  {
    if level != "" then [MakeSample(c, SubInfo, 1.0, [IdLabel(id), Label("level", level)])] else []
  }

  function SubStatusSamples(c: string, id: string, status: string): (out: seq<Sample>)
    ensures AllCollected(c, out)
  {
    if status != "" then StateEnum(c, SubStatus, id, status, SUB_STATES) else []
  }

  function SubscriptionSamples(c: string, pve: Pve, node: string): (out: seq<Sample>)
    ensures AllCollected(c, out)
  {
    match AsSubscription(ReplyOf(pve(SubscriptionPath(node))))
    case None => []
    case Some(sub) =>
      var id := "node/" + node;
      var states := [] + SubLevelSamples(c, id, sub.level) + SubStatusSamples(c, id, sub.status);
      assert AllCollected(c, states);
      states + Flex(c, SubNextDue, sub.nextDue, id)
  }

  function SubscriptionCalls(pve: Pve, node: string): seq<Exchange> { [Optional(pve, SubscriptionPath(node))] }

  method CollectSubscription(client: Client, pve: Pve, node: string, s: SampleSet) returns (ok: bool)
    requires client.Valid()
    modifies client, s
    ensures client.Called(SubscriptionCalls(pve, node))
    ensures s.Appended(SubscriptionSamples(s.cluster, pve, node))
  {
    ghost var b, a := s.Mark();
    var r := client.GetOptional(pve, SubscriptionPath(node));
    if AsSubscription(r).None? {
      s.Release(b, a);
      return false;
    }
    var sub := AsSubscription(r).value;
    var id := "node/" + node;
    if sub.level != "" {
      s.Add(SubInfo, 1.0, [IdLabel(id), Label("level", sub.level)]);
    } else {
      assert s.added + [] == s.added;
    }
    if sub.status != "" {
      s.AddStateEnum(SubStatus, id, sub.status, SUB_STATES);
    } else {
      assert s.added + [] == s.added;
    }
    if sub.nextDue.Some? {
      s.Add(SubNextDue, sub.nextDue.value, [IdLabel(id)]);
    } else {
      assert s.added + [] == s.added;
    }
    s.Release(b, a);
    return true;
  }

  // ---- onboot ----

  const GUEST_TYPES := ["qemu", "lxc"]

  /** A listed guest: no call without a valid vmid, no sample when the call fails;
      an absent onboot field is exported as 0. */
  function GuestSamples(c: string, pve: Pve, node: string, kind: string, vmid: FlexFloat): (out: seq<Sample>)
    ensures AllCollected(c, out)
  {
    if vmid.None? then []
    else
      var v := FormatInt(vmid.value);
      match AsGuestConfig(ReplyOf(pve(GuestConfigPath(node, kind, v))))
      case None => []
      case Some(onboot) =>
        [MakeSample(c, Onboot, if onboot.Some? then onboot.value else 0.0,
          [IdLabel(kind + "/" + v), Label("node", node), Label("type", kind)])]
  }

  function GuestCalls(pve: Pve, node: string, kind: string, vmid: FlexFloat): (calls: seq<Exchange>)
    ensures |calls| <= 1
  {
    if vmid.None? then [] else [Optional(pve, GuestConfigPath(node, kind, FormatInt(vmid.value)))]
  }

  function GuestsSamples(c: string, pve: Pve, node: string, kind: string, vmids: seq<FlexFloat>): (out: seq<Sample>)
    ensures AllCollected(c, out)
  {
    if vmids == [] then []
    else GuestsSamples(c, pve, node, kind, vmids[..|vmids| - 1]) + GuestSamples(c, pve, node, kind, vmids[|vmids| - 1])
  }

  function GuestsCalls(pve: Pve, node: string, kind: string, vmids: seq<FlexFloat>): (calls: seq<Exchange>)
    ensures |calls| <= |vmids|
  {
    if vmids == [] then []
    else GuestsCalls(pve, node, kind, vmids[..|vmids| - 1]) + GuestCalls(pve, node, kind, vmids[|vmids| - 1])
  }

  function ListedGuests(pve: Pve, node: string, kind: string): Option<seq<FlexFloat>> {
    AsGuestRefs(ReplyOf(pve(GuestListPath(node, kind))))
  }

  /** The guest types are taken in order; a listing that fails ends the collector. */
  function OnbootSamples(c: string, pve: Pve, node: string, kinds: seq<string>): (out: seq<Sample>)
    ensures AllCollected(c, out)
  {
    if kinds == [] then []
    else
      match ListedGuests(pve, node, kinds[0])
      case None => []
      case Some(vmids) => GuestsSamples(c, pve, node, kinds[0], vmids) + OnbootSamples(c, pve, node, kinds[1..])
  }

  function OnbootCalls(pve: Pve, node: string, kinds: seq<string>): seq<Exchange> {
    if kinds == [] then []
    else
      [Optional(pve, GuestListPath(node, kinds[0]))]
      + match ListedGuests(pve, node, kinds[0])
        case None => []
        case Some(vmids) => GuestsCalls(pve, node, kinds[0], vmids) + OnbootCalls(pve, node, kinds[1..])
  }

  method CollectOnboot(client: Client, pve: Pve, node: string, s: SampleSet) returns (ok: bool)
    requires client.Valid()
    modifies client, s
    ensures client.Called(OnbootCalls(pve, node, GUEST_TYPES))
    ensures s.Appended(OnbootSamples(s.cluster, pve, node, GUEST_TYPES))
  {
    ghost var b, a := s.Mark();
    ghost var cb, ca := client.Mark();
    assert s.added + OnbootSamples(s.cluster, pve, node, GUEST_TYPES)
      == OnbootSamples(s.cluster, pve, node, GUEST_TYPES);
    assert client.added + OnbootCalls(pve, node, GUEST_TYPES) == OnbootCalls(pve, node, GUEST_TYPES);
    assert GUEST_TYPES[0..] == GUEST_TYPES;
    for k := 0 to |GUEST_TYPES|
      invariant s.Marked() && s.base == old(s.out)
      invariant s.added + OnbootSamples(s.cluster, pve, node, GUEST_TYPES[k..])
        == OnbootSamples(s.cluster, pve, node, GUEST_TYPES)
      invariant client.Valid() && client.Marked() && client.base == old(client.log)
      invariant client.added + OnbootCalls(pve, node, GUEST_TYPES[k..]) == OnbootCalls(pve, node, GUEST_TYPES)
    {
      var kind := GUEST_TYPES[k];
      ghost var before, list := client.added, [Optional(pve, GuestListPath(node, kind))];
      ghost var samples, later := s.added, GUEST_TYPES[k + 1..];
      assert GUEST_TYPES[k..][0] == kind && GUEST_TYPES[k..][1..] == later;
      var r := client.GetOptional(pve, GuestListPath(node, kind));
      if AsGuestRefs(r).None? {
        Regroup(before, list, []);
        Regroup(list, [], []);
        Regroup(samples, [], []);
        s.Release(b, a);
        client.Release(cb, ca);
        return false;
      }
      var vmids := AsGuestRefs(r).value;
      CollectGuests(client, pve, node, kind, vmids, s);
      ghost var guests := GuestsCalls(pve, node, kind, vmids);
      Regroup(before + list, guests, OnbootCalls(pve, node, later));
      Regroup(before, list, guests + OnbootCalls(pve, node, later));
      Regroup(samples, GuestsSamples(s.cluster, pve, node, kind, vmids), OnbootSamples(s.cluster, pve, node, later));
    }
    Regroup(client.added, [], []);
    Regroup(s.added, [], []);
    s.Release(b, a);
    client.Release(cb, ca);
    return true;
  }

  /** The inner loop over the guests of one type. */
  method CollectGuests(client: Client, pve: Pve, node: string, kind: string, vmids: seq<FlexFloat>, s: SampleSet)
    requires client.Valid()
    modifies client, s
    ensures client.Called(GuestsCalls(pve, node, kind, vmids))
    ensures s.Appended(GuestsSamples(s.cluster, pve, node, kind, vmids))
  {
    ghost var b, a := s.Mark();
    ghost var cb, ca := client.Mark();
    for i := 0 to |vmids|
      invariant s.Marked() && s.base == old(s.out) && s.added == GuestsSamples(s.cluster, pve, node, kind, vmids[..i])
      invariant client.Valid() && client.Marked() && client.base == old(client.log)
      invariant client.added == GuestsCalls(pve, node, kind, vmids[..i])
    {
      assert vmids[..i + 1][..i] == vmids[..i];
      if vmids[i].None? {
        continue;
      }
      var vmid := FormatInt(vmids[i].value);
      var r := client.GetOptional(pve, GuestConfigPath(node, kind, vmid));
      if AsGuestConfig(r).None? {
        continue;
      }
      var onboot := 0.0;
      if AsGuestConfig(r).value.Some? {
        onboot := AsGuestConfig(r).value.value;
      }
      s.Add(Onboot, onboot, [IdLabel(kind + "/" + vmid), Label("node", node), Label("type", kind)]);
    }
    assert vmids[..|vmids|] == vmids;
    s.Release(b, a);
    client.Release(cb, ca);
  }

  // ---- one node worker ----

  /** The block of samples a node worker gathers before it takes the lock. */
  function NodeBlock(c: string, t: CollectorToggles, pve: Pve, node: string): (out: seq<Sample>)
    ensures AllCollected(c, out)
  {
    [] + (if t.ReplicationEnabled() then ReplicationSamples(c, pve, node) else [])
    + (if t.SubscriptionEnabled() then SubscriptionSamples(c, pve, node) else [])
    + (if t.OnbootEnabled() then OnbootSamples(c, pve, node, GUEST_TYPES) else [])
  }

  /** The calls a node worker makes, in order. */
  function NodeCalls(t: CollectorToggles, pve: Pve, node: string): seq<Exchange> {
    [] + (if t.ReplicationEnabled() then ReplicationCalls(pve, node) else [])
    + (if t.SubscriptionEnabled() then SubscriptionCalls(pve, node) else [])
    + (if t.OnbootEnabled() then OnbootCalls(pve, node, GUEST_TYPES) else [])
  }

  /** The body of a node worker, up to the lock: errors are logged, not returned. */
  method CollectNode(client: Client, cluster: string, t: CollectorToggles, pve: Pve, node: string)
    returns (local: SampleSet)
    requires client.Valid()
    modifies client
    ensures client.Called(NodeCalls(t, pve, node))
    ensures fresh(local) && local.out == NodeBlock(cluster, t, pve, node)
  {
    local := new SampleSet(cluster);
    ghost var b, a := local.Mark();
    ghost var cb, ca := client.Mark();
    if t.ReplicationEnabled() {
      var _ := CollectReplication(client, pve, node, local);
    } else {
      assert client.added + [] == client.added && local.added + [] == local.added;
    }
    if t.SubscriptionEnabled() {
      var _ := CollectSubscription(client, pve, node, local);
    } else {
      assert client.added + [] == client.added && local.added + [] == local.added;
    }
    if t.OnbootEnabled() {
      var _ := CollectOnboot(client, pve, node, local);
    } else {
      assert client.added + [] == client.added && local.added + [] == local.added;
    }
    client.Release(cb, ca);
  }
}
