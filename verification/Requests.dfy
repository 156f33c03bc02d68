/** How many calls a cycle makes, and what a target says about itself: the elapsed
    time and the error counter. */
module Requests {
  import opened Seqs
  import opened Metrics
  import opened Api
  import opened Clients
  import opened Models
  import opened Nodes
  import opened Plans
  import opened Schedules
  import opened Snapshots

  // ---- the calls of one node worker ----

  function Usable(vmids: seq<FlexFloat>): seq<FlexFloat> { Filter((f: FlexFloat) => f.Some?, vmids) }

  lemma {:induction false} GuestCallCount(pve: Pve, node: string, kind: string, vmids: seq<FlexFloat>)
    ensures |GuestsCalls(pve, node, kind, vmids)| == |Usable(vmids)| <= |vmids|
  {
    if vmids == [] {
    } else {
      GuestCallCount(pve, node, kind, vmids[..|vmids| - 1]);
    }
  }

  /** One listing per guest type up to the first that fails, and one config call per
      listed guest with a vmid. */
  function OnbootCount(pve: Pve, node: string): nat {
    match ListedGuests(pve, node, "qemu")
    case None => 1
    case Some(vms) =>
      match ListedGuests(pve, node, "lxc")
      case None => 2 + |Usable(vms)|
      case Some(cts) => 2 + |Usable(vms)| + |Usable(cts)|
  }

  function ReplicationCount(pve: Pve, node: string): nat {
    match ListedJobs(pve, node) case None => 1 case Some(jobs) => 1 + |jobs|
  }

  function NodeCount(t: CollectorToggles, pve: Pve, node: string): nat {
    (if t.ReplicationEnabled() then ReplicationCount(pve, node) else 0)
    + (if t.SubscriptionEnabled() then 1 else 0)
    + (if t.OnbootEnabled() then OnbootCount(pve, node) else 0)
  }

  lemma OnbootCallCount(pve: Pve, node: string)
    ensures |OnbootCalls(pve, node, GUEST_TYPES)| == OnbootCount(pve, node)
  {
    assert GUEST_TYPES == ["qemu", "lxc"] && GUEST_TYPES[1..] == ["lxc"] && ["lxc"][1..] == [];
    if ListedGuests(pve, node, "qemu").Some? {
      GuestCallCount(pve, node, "qemu", ListedGuests(pve, node, "qemu").value);
      LastListing(pve, node);
    }
  }

  lemma LastListing(pve: Pve, node: string)
    ensures |OnbootCalls(pve, node, ["lxc"])| ==
      match ListedGuests(pve, node, "lxc") case None => 1 case Some(cts) => 1 + |Usable(cts)|
  {
    assert ["lxc"][1..] == [];
    if ListedGuests(pve, node, "lxc").Some? {
      GuestCallCount(pve, node, "lxc", ListedGuests(pve, node, "lxc").value);
    }
  }

  lemma NodeCallCount(t: CollectorToggles, pve: Pve, node: string)
    ensures |NodeCalls(t, pve, node)| == NodeCount(t, pve, node)
  {
    OnbootCallCount(pve, node);
  }

  // ---- the calls of a cycle ----

  function NodeCounts(t: CollectorToggles, pve: Pve, nodes: seq<string>): (ns: seq<nat>)
    ensures |ns| == |nodes|
  {
    seq(|nodes|, i requires 0 <= i < |nodes| => NodeCount(t, pve, nodes[i]))
  }

  function One(b: bool): nat { if b then 1 else 0 }

  /** The number of calls of one cycle, in closed form. */
  function CallCount(t: CollectorToggles, pve: Pve): nat {
    match AsResources(ReplyOf(pve(RESOURCES_PATH)))
    case None => 1
    case Some(rows) =>
      3 + One(t.QDeviceEnabled()) + One(t.BackupInfoEnabled()) + One(t.HAStatusEnabled())
      + Sum(NodeCounts(t, pve, NodeNames(rows)))
  }

  lemma {:induction false} WorkerCallCount(c: string, t: CollectorToggles, pve: Pve, nodes: seq<string>)
    ensures |Flatten(WorkerCalls(NodePlans(c, t, pve, nodes)))| == Sum(NodeCounts(t, pve, nodes))
  {
    if nodes == [] {
    } else {
      var init := nodes[..|nodes| - 1];
      WorkerCallCount(c, t, pve, init);
      LastWorker(NodePlans(c, t, pve, nodes));
      NodeCallCount(t, pve, nodes[|nodes| - 1]);
      assert NodeCounts(t, pve, nodes)[..|init|] == NodeCounts(t, pve, init);
    }
  }

  lemma NoneWhenOff(t: CollectorToggles, pve: Pve, nodes: seq<string>)
    requires !AnyNodeCollector(t)
    ensures Sum(NodeCounts(t, pve, nodes)) == 0
  {
    SumZero(NodeCounts(t, pve, nodes));
  }

  lemma FanOutCount(c: string, t: CollectorToggles, pve: Pve, nodes: seq<string>)
    ensures |Flatten(WorkerCalls(FanOut(c, t, pve, nodes)))| == Sum(NodeCounts(t, pve, nodes))
  {
    if AnyNodeCollector(t) {
      WorkerCallCount(c, t, pve, nodes);
    } else {
      NoneWhenOff(t, pve, nodes);
    }
  }

  /** Exactly how many calls a cycle makes, under any schedule: it depends on the
      toggles and on what the server lists. */
  lemma CallsExact(c: string, t: CollectorToggles, pve: Pve)
    ensures |AllCalls(PlanOf(c, t, pve))| == CallCount(t, pve)
  {
    var r := AsResources(ReplyOf(pve(RESOURCES_PATH)));
    if r.Some? {
      FanOutCount(c, t, pve, NodeNames(r.value));
    } else {
      assert WorkerCalls([]) == [];
    }
  }

  function Listed<T>(o: Option<seq<T>>): nat { match o case None => 0 case Some(xs) => |xs| }

  /** Replication jobs and guests a node lists. */
  function NodeBound(pve: Pve, node: string): nat {
    4 + Listed(ListedJobs(pve, node)) + Listed(ListedGuests(pve, node, "qemu")) + Listed(ListedGuests(pve, node, "lxc"))
  }

  function NodeBounds(pve: Pve, nodes: seq<string>): (ns: seq<nat>)
    ensures |ns| == |nodes|
  {
    seq(|nodes|, i requires 0 <= i < |nodes| => NodeBound(pve, nodes[i]))
  }

  lemma UsableBound(pve: Pve, node: string, vmids: seq<FlexFloat>)
    ensures |Usable(vmids)| <= |vmids|
  {
    GuestCallCount(pve, node, "", vmids);
  }

  lemma NodeCountBound(t: CollectorToggles, pve: Pve, node: string)
    ensures NodeCount(t, pve, node) <= NodeBound(pve, node)
  {
    var vms, cts := ListedGuests(pve, node, "qemu"), ListedGuests(pve, node, "lxc");
    if vms.Some? {
      UsableBound(pve, node, vms.value);
    }
    if cts.Some? {
      UsableBound(pve, node, cts.value);
    }
  }

  lemma {:induction false} NodeCountsBound(t: CollectorToggles, pve: Pve, nodes: seq<string>)
    ensures Sum(NodeCounts(t, pve, nodes)) <= Sum(NodeBounds(pve, nodes))
  {
    if nodes == [] {
    } else {
      var init := nodes[..|nodes| - 1];
      NodeCountsBound(t, pve, init);
      NodeCountBound(t, pve, nodes[|nodes| - 1]);
      assert NodeCounts(t, pve, nodes)[..|init|] == NodeCounts(t, pve, init);
      assert NodeBounds(pve, nodes)[..|init|] == NodeBounds(pve, init);
    }
  }

  function Rows(pve: Pve): seq<ClusterResource> {
    match AsResources(ReplyOf(pve(RESOURCES_PATH))) case None => [] case Some(rows) => rows
  }

  /** Request bound: six calls for the target, four for each node, and one for each
      job and guest it lists. The error counter grows by no more than that. */
  lemma RequestBound(c: string, t: CollectorToggles, pve: Pve)
    ensures |AllCalls(PlanOf(c, t, pve))| <= 6 + Sum(NodeBounds(pve, NodeNames(Rows(pve))))
    ensures Errors(AllCalls(PlanOf(c, t, pve))) <= |AllCalls(PlanOf(c, t, pve))|
  {
    CallsExact(c, t, pve);
    NodeCountsBound(t, pve, NodeNames(Rows(pve)));
    ErrorsBound(AllCalls(PlanOf(c, t, pve)));
  }

  // ---- stable self-identity ----

  lemma NotSelf(c: string, ss: seq<Sample>, n: Metric)
    requires AllCollected(c, ss) && SelfMetric(n)
    ensures Named(n, ss) == []
  {
    FilterNone(IsNamed(n), ss);
  }

  lemma NamedOfThree(n: Metric, x: Sample, y: Sample, z: Sample)
    ensures Named(n, [x, y, z]) == (if x.name == n then [x] else []) + (if y.name == n then [y] else [])
                                 + (if z.name == n then [z] else [])
  {
    assert [x, y, z] == [] + [x] + [y] + [z];
    FilterSnoc(IsNamed(n), [] + [x] + [y], z);
    FilterSnoc(IsNamed(n), [] + [x], y);
    FilterSnoc(IsNamed(n), [], x);
  }

  lemma OneOfTail(p: Plan, elapsed: real, errors: nat)
    ensures Named(CollectionDuration, Tail(p, elapsed, errors)) == [Tail(p, elapsed, errors)[1]]
    ensures Named(RequestErrors, Tail(p, elapsed, errors)) == [Tail(p, elapsed, errors)[2]]
  {
    var t := Tail(p, elapsed, errors);
    NamedOfThree(CollectionDuration, t[0], t[1], t[2]);
    NamedOfThree(RequestErrors, t[0], t[1], t[2]);
  }

  lemma SelfSample(p: Plan, order: seq<nat>, elapsed: real, errors: nat, n: Metric)
    requires PlanConforms(p) && IsOrder(order, |p.nodes|) && SelfMetric(n)
    ensures Named(n, Samples(p, order, elapsed, errors)) == Named(n, Tail(p, elapsed, errors))
  {
    var merged := Flatten(Pick(Blocks(p.nodes), order));
    FlattenCollected(p.name, Pick(Blocks(p.nodes), order));
    NotSelf(p.name, p.prefix + merged, n);
    FilterConcat(IsNamed(n), p.prefix + merged, Tail(p, elapsed, errors));
  }

  /** Whatever the API answered, up or down, under every schedule: a target's result
      has exactly one elapsed-time sample and one error-count sample, the last two,
      keyed by the configured name; the error count includes the whole cycle. */
  lemma StableSelfIdentity(c: string, t: CollectorToggles, pve: Pve, e0: nat, s: Proc)
    requires Settled(PlanOf(c, t, pve), e0, s)
    ensures var ss, id := s.phase.ts.samples, [IdLabel("cluster/" + c)];
      && Named(CollectionDuration, ss) == [MakeSample(c, CollectionDuration, s.phase.elapsed, id)]
      && Named(RequestErrors, ss) == [MakeSample(c, RequestErrors, s.errors as real, id)]
      && |ss| >= 3 && ss[|ss| - 2] == Named(CollectionDuration, ss)[0] && ss[|ss| - 1] == Named(RequestErrors, ss)[0]
      && e0 <= s.errors <= e0 + CallCount(t, pve)
  {
    var p := PlanOf(c, t, pve);
    PlanOfConforms(c, t, pve);
    OneOfTail(p, s.phase.elapsed, s.errors);
    SelfSample(p, s.phase.merged, s.phase.elapsed, s.errors, CollectionDuration);
    SelfSample(p, s.phase.merged, s.phase.elapsed, s.errors, RequestErrors);
    CallsExact(c, t, pve);
    ErrorsBound(AllCalls(p));
  }

  /** Under every schedule too, a target's result ends in its pve_up, its elapsed time and
      its errors. */
  lemma TargetCloses(c: string, t: CollectorToggles, pve: Pve, e0: nat, s: Proc)
    requires Settled(PlanOf(c, t, pve), e0, s)
    ensures ClosesAs(s.phase.ts, c, pve, s.phase.elapsed, s.errors)
  {
    ResultCloses(c, t, pve, s.phase.merged, s.phase.elapsed, s.errors);
  }
}
