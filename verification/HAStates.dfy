/** pve_ha_state has two sources: the resource rows of guests, which no toggle controls,
    and the HA status endpoint for nodes, which one toggle does. */
module HAStates {
  import opened Seqs
  import opened Metrics
  import opened Api
  import opened Models
  import opened ClusterInfos
  import opened Resources
  import opened Nodes
  import opened Plans
  import opened Snapshots
  import opened Toggles

  predicate NoHAState(ss: seq<Sample>) {
    forall i :: 0 <= i < |ss| ==> ss[i].name != HAState
  }

  lemma NoneOf(ss: seq<Sample>, x: Sample)
    requires NoHAState(ss) && x.name == HAState
    ensures multiset(ss)[x] == 0
  {
  }

  // ---- the other collectors emit none ----

  lemma {:induction false} StatusHasNone(c: string, rows: seq<ClusterStatusEntry>)
    ensures NoHAState(StatusSamples(c, rows))
  {
    if rows == [] {
    } else {
      StatusHasNone(c, rows[..|rows| - 1]);
    }
  }

  lemma {:induction false} MissingHasNone(c: string, gs: seq<NotBackedUpGuest>)
    ensures NoHAState(MissingSamples(c, gs))
  {
    if gs == [] {
    } else {
      MissingHasNone(c, gs[..|gs| - 1]);
    }
  }

  lemma AndFlexHasNone(before: seq<Sample>, c: string, name: Metric, f: FlexFloat, id: string)
    requires NoHAState(before) && name != HAState
    ensures NoHAState(before + Flex(c, name, f, id))
  {
  }

  lemma JobStatusHasNone(c: string, id: string, st: ReplicationStatus)
    ensures NoHAState(JobStatusSamples(c, id, st))
  {
    AndFlexHasNone([], c, ReplDuration, st.duration, id);
    AndFlexHasNone([] + Flex(c, ReplDuration, st.duration, id), c, ReplLastSync, st.lastSync, id);
    AndFlexHasNone(JobTimes(c, id, st), c, ReplLastTry, st.lastTry, id);
    AndFlexHasNone(JobTimes(c, id, st) + Flex(c, ReplLastTry, st.lastTry, id), c, ReplNextSync, st.nextSync, id);
    AndFlexHasNone(JobTries(c, id, st), c, ReplFailed, st.failCount, id);
  }

  lemma {:induction false} JobsHaveNone(c: string, pve: Pve, node: string, jobs: seq<ReplicationJob>)
    ensures NoHAState(JobsSamples(c, pve, node, jobs))
  {
    if jobs == [] {
    } else {
      JobsHaveNone(c, pve, node, jobs[..|jobs| - 1]);
      JobHasNone(c, pve, node, jobs[|jobs| - 1]);
    }
  }

  lemma JobHasNone(c: string, pve: Pve, node: string, j: ReplicationJob)
    ensures NoHAState(JobSamples(c, pve, node, j))
  {
    var st := AsJobStatus(ReplyOf(pve(JobStatusPath(node, j.id))));
    if st.Some? {
      JobStatusHasNone(c, j.id, st.value);
    }
  }

  lemma ReplicationHasNone(c: string, pve: Pve, node: string)
    ensures NoHAState(ReplicationSamples(c, pve, node))
  {
    if ListedJobs(pve, node).Some? {
      JobsHaveNone(c, pve, node, ListedJobs(pve, node).value);
    }
  }

  lemma SubscriptionHasNone(c: string, pve: Pve, node: string)
    ensures NoHAState(SubscriptionSamples(c, pve, node))
  {
    var sub := AsSubscription(ReplyOf(pve(SubscriptionPath(node))));
    if sub.Some? {
      SubscribedHasNone(c, "node/" + node, sub.value);
    }
  }

  lemma SubscribedHasNone(c: string, id: string, sub: SubscriptionInfo)
    ensures NoHAState([] + SubLevelSamples(c, id, sub.level) + SubStatusSamples(c, id, sub.status)
      + Flex(c, SubNextDue, sub.nextDue, id))
  {
    var level, status := SubLevelSamples(c, id, sub.level), SubStatusSamples(c, id, sub.status);
    assert NoHAState(status) by {
      EnumShape(c, SubStatus, id, sub.status, SUB_STATES);
    }
    AndFlexHasNone([] + level + status, c, SubNextDue, sub.nextDue, id);
  }

  lemma {:induction false} GuestsHaveNone(c: string, pve: Pve, node: string, kind: string, vmids: seq<FlexFloat>)
    ensures NoHAState(GuestsSamples(c, pve, node, kind, vmids))
  {
    if vmids == [] {
    } else {
      GuestsHaveNone(c, pve, node, kind, vmids[..|vmids| - 1]);
    }
  }

  lemma {:induction false} OnbootHasNone(c: string, pve: Pve, node: string, kinds: seq<string>)
    ensures NoHAState(OnbootSamples(c, pve, node, kinds))
  {
    if kinds == [] {
    } else if ListedGuests(pve, node, kinds[0]).Some? {
      GuestsHaveNone(c, pve, node, kinds[0], ListedGuests(pve, node, kinds[0]).value);
      OnbootHasNone(c, pve, node, kinds[1..]);
    }
  }

  lemma {:induction false} PerNodeHasNone(emit: string -> seq<Sample>, nodes: seq<string>)
    requires forall n :: NoHAState(emit(n))
    ensures NoHAState(PerNode(emit, nodes))
  {
    if nodes == [] {
    } else {
      PerNodeHasNone(emit, nodes[..|nodes| - 1]);
    }
  }

  lemma NodeCollectorHasNone(c: string, pve: Pve, rows: seq<ClusterResource>, k: Collector)
    requires k.OnbootStates? || k.Replications? || k.Subscriptions?
    ensures NoHAState(Own(c, pve, rows, k))
  {
    match k
    case OnbootStates =>
      forall n ensures NoHAState(OnbootOn(c, pve)(n)) { OnbootHasNone(c, pve, n, GUEST_TYPES); }
      PerNodeHasNone(OnbootOn(c, pve), NodeNames(rows));
    case Replications =>
      forall n ensures NoHAState(ReplicationOn(c, pve)(n)) { ReplicationHasNone(c, pve, n); }
      PerNodeHasNone(ReplicationOn(c, pve), NodeNames(rows));
    case Subscriptions =>
      forall n ensures NoHAState(SubscriptionOn(c, pve)(n)) { SubscriptionHasNone(c, pve, n); }
      PerNodeHasNone(SubscriptionOn(c, pve), NodeNames(rows));
  }

  lemma OtherCollectorHasNone(c: string, pve: Pve, rows: seq<ClusterResource>, k: Collector)
    requires !k.HAStatus?
    ensures NoHAState(Own(c, pve, rows, k))
  {
    if k.BackupInfo? {
      var gs := AsNotBackedUp(ReplyOf(pve(BACKUP_PATH)));
      if gs.Some? {
        MissingHasNone(c, gs.value);
      }
    } else if !k.QDevices? {
      NodeCollectorHasNone(c, pve, rows, k);
    }
  }

  lemma BaseHasRowsOnly(c: string, pve: Pve, rows: seq<ClusterResource>, x: Sample)
    requires x.name == HAState
    ensures multiset(Base(c, pve, rows))[x] == multiset(ResourceSamples(c, rows))[x]
  {
    var status := AsStatus(ReplyOf(pve(STATUS_PATH)));
    if status.Some? {
      StatusHasNone(c, status.value);
    }
    NoneOf(StatusPart(c, pve), x);
    NoneOf(VersionPart(c, pve), x);
  }

  lemma PartHasNone(c: string, t: CollectorToggles, pve: Pve, rows: seq<ClusterResource>, k: Collector, x: Sample)
    requires !k.HAStatus? && x.name == HAState
    ensures multiset(PartsOf(c, t, pve, rows)(k))[x] == 0
  {
    OtherCollectorHasNone(c, pve, rows, k);
    NoneOf(Own(c, pve, rows, k), x);
  }

  /** How often an HA state is collected: as often as by the resource rows and, if the HA
      collector is on, by the HA status endpoint. */
  lemma CountOfHAState(c: string, t: CollectorToggles, pve: Pve, rows: seq<ClusterResource>, x: Sample)
    requires AsResources(ReplyOf(pve(RESOURCES_PATH))) == Some(rows) && x.name == HAState
    ensures multiset(Toggles.Body(PlanOf(c, t, pve)))[x]
      == multiset(ResourceSamples(c, rows))[x] + (if t.HAStatusEnabled() then multiset(HAPart(c, pve))[x] else 0)
  {
    ByCollector(c, t, pve, rows);
    BaseHasRowsOnly(c, pve, rows, x);
    PartHasNone(c, t, pve, rows, QDevices, x);
    PartHasNone(c, t, pve, rows, BackupInfo, x);
    PartHasNone(c, t, pve, rows, Replications, x);
    PartHasNone(c, t, pve, rows, Subscriptions, x);
    PartHasNone(c, t, pve, rows, OnbootStates, x);
  }

  lemma CountsOfHAStates(on: bool, ss: seq<Sample>, fromRows: seq<Sample>, fromNodes: seq<Sample>)
    requires forall x: Sample :: (x.name == HAState ==>
      multiset(ss)[x] == multiset(fromRows)[x] + (if on then multiset(fromNodes)[x] else 0))
    ensures multiset(Named(HAState, ss)) == multiset(Named(HAState, fromRows))
      + (if on then multiset(Named(HAState, fromNodes)) else multiset{})
  {
    var nodes := if on then multiset(Named(HAState, fromNodes)) else multiset{};
    forall x ensures multiset(Named(HAState, ss))[x] == multiset(Named(HAState, fromRows))[x] + nodes[x] {
      FilterMultiset(IsNamed(HAState), ss, x);
      FilterMultiset(IsNamed(HAState), fromRows, x);
      FilterMultiset(IsNamed(HAState), fromNodes, x);
    }
  }

  lemma TailHasNone(p: Plan, order: seq<nat>, elapsed: real, errors: nat, x: Sample)
    requires IsOrder(order, |p.nodes|) && x.name == HAState
    ensures multiset(Samples(p, order, elapsed, errors))[x] == multiset(Toggles.Body(p))[x]
  {
    SamplesOfBody(p, order, elapsed, errors);
    NoneOf(Tail(p, elapsed, errors), x);
  }

  /** From the body of any plan to its samples: the closing ones are no HA states. */
  lemma SamplesCount(p: Plan, on: bool, order: seq<nat>, elapsed: real, errors: nat,
                     fromRows: seq<Sample>, fromNodes: seq<Sample>)
    requires IsOrder(order, |p.nodes|)
    requires forall x: Sample :: (x.name == HAState ==>
      multiset(Toggles.Body(p))[x] == multiset(fromRows)[x] + (if on then multiset(fromNodes)[x] else 0))
    ensures multiset(Named(HAState, Samples(p, order, elapsed, errors))) == multiset(Named(HAState, fromRows))
      + (if on then multiset(Named(HAState, fromNodes)) else multiset{})
  {
    forall x: Sample | x.name == HAState
      ensures multiset(Samples(p, order, elapsed, errors))[x]
        == multiset(fromRows)[x] + (if on then multiset(fromNodes)[x] else 0)
    {
      TailHasNone(p, order, elapsed, errors, x);
    }
    CountsOfHAStates(on, Samples(p, order, elapsed, errors), fromRows, fromNodes);
  }

  /** Guest-level and node-level pve_ha_state stay independent: whatever the toggles and
      the schedule, a cycle's samples of it are those of the resource rows and, exactly
      when the HA collector is on, those of the HA status endpoint. */
  lemma HAStatesIndependent(c: string, t: CollectorToggles, pve: Pve, rows: seq<ClusterResource>,
                            order: seq<nat>, elapsed: real, errors: nat)
    requires AsResources(ReplyOf(pve(RESOURCES_PATH))) == Some(rows) && IsOrder(order, |PlanOf(c, t, pve).nodes|)
    ensures multiset(Named(HAState, Samples(PlanOf(c, t, pve), order, elapsed, errors)))
      == multiset(Named(HAState, ResourceSamples(c, rows)))
       + (if t.HAStatusEnabled() then multiset(Named(HAState, HAPart(c, pve))) else multiset{})
  {
    var fromRows, fromNodes := ResourceSamples(c, rows), HAPart(c, pve);
    forall x: Sample | x.name == HAState
      ensures multiset(Toggles.Body(PlanOf(c, t, pve)))[x]
        == multiset(fromRows)[x] + (if t.HAStatusEnabled() then multiset(fromNodes)[x] else 0)
    {
      CountOfHAState(c, t, pve, rows, x);
    }
    SamplesCount(PlanOf(c, t, pve), t.HAStatusEnabled(), order, elapsed, errors, fromRows, fromNodes);
  }
}
