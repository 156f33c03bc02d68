/** What each optional collector contributes to a cycle, and what turning it off
    changes. */
module Toggles {
  import opened Seqs
  import opened Metrics
  import opened Api
  import opened Models
  import opened ClusterInfos
  import opened Resources
  import opened Nodes
  import opened Plans

  datatype Collector = OnbootStates | Replications | Subscriptions | BackupInfo | QDevices | HAStatus

  function With(t: CollectorToggles, k: Collector, on: bool): CollectorToggles {
    match k
    case OnbootStates => t.(onboot := Some(on))
    case Replications => t.(replication := Some(on))
    case Subscriptions => t.(subscription := Some(on))
    case BackupInfo => t.(backupInfo := Some(on))
    case QDevices => t.(qdevice := Some(on))
    case HAStatus => t.(haStatus := Some(on))
  }

  predicate On(t: CollectorToggles, k: Collector) {
    match k
    case OnbootStates => t.OnbootEnabled()
    case Replications => t.ReplicationEnabled()
    case Subscriptions => t.SubscriptionEnabled()
    case BackupInfo => t.BackupInfoEnabled()
    case QDevices => t.QDeviceEnabled()
    case HAStatus => t.HAStatusEnabled()
  }

  /** Every toggle unset. */
  const UNSET := CollectorToggles(None, None, None, None, None, None)

  // ---- the emissions of one collector, whatever the other toggles say ----

  function PerNode(emit: string -> seq<Sample>, nodes: seq<string>): seq<Sample> {
    if nodes == [] then [] else PerNode(emit, nodes[..|nodes| - 1]) + emit(nodes[|nodes| - 1])
  }

  function ReplicationOn(c: string, pve: Pve): string -> seq<Sample>
  {
    (node: string) => ReplicationSamples(c, pve, node)
  }

  function SubscriptionOn(c: string, pve: Pve): string -> seq<Sample>
  {
    (node: string) => SubscriptionSamples(c, pve, node)
  }

  function OnbootOn(c: string, pve: Pve): string -> seq<Sample>
  {
    (node: string) => OnbootSamples(c, pve, node, GUEST_TYPES)
  }

  /** The emissions for a target that answered with these resource rows. */
  function Own(c: string, pve: Pve, rows: seq<ClusterResource>, k: Collector): seq<Sample> {
    match k
    case OnbootStates => PerNode(OnbootOn(c, pve), NodeNames(rows))
    case Replications => PerNode(ReplicationOn(c, pve), NodeNames(rows))
    case Subscriptions => PerNode(SubscriptionOn(c, pve), NodeNames(rows))
    case BackupInfo => BackupPart(c, UNSET, pve)
    case QDevices => QDevicePart(c, UNSET, pve)
    case HAStatus => HAPart(c, pve)
  }

  function OwnIf(c: string, t: CollectorToggles, pve: Pve, rows: seq<ClusterResource>, k: Collector): seq<Sample> {
    if On(t, k) then Own(c, pve, rows, k) else []
  }

  /** The emissions no toggle controls, guest-level pve_ha_state among them. */
  function Base(c: string, pve: Pve, rows: seq<ClusterResource>): seq<Sample> {
    ResourceSamples(c, rows) + StatusPart(c, pve) + VersionPart(c, pve)
  }

  // ---- the samples of a cycle are those, and nothing else ----

  lemma PrefixByCollector(c: string, t: CollectorToggles, pve: Pve, rows: seq<ClusterResource>)
    ensures multiset(Prefix(c, t, pve, rows))
      == multiset(Base(c, pve, rows)) + multiset(OwnIf(c, t, pve, rows, QDevices))
       + multiset(OwnIf(c, t, pve, rows, BackupInfo)) + multiset(OwnIf(c, t, pve, rows, HAStatus))
  {
    assert QDevicePart(c, t, pve) == OwnIf(c, t, pve, rows, QDevices);
    assert BackupPart(c, t, pve) == OwnIf(c, t, pve, rows, BackupInfo);
    assert HATogglePart(c, t, pve) == OwnIf(c, t, pve, rows, HAStatus);
    Regroup(ResourceSamples(c, rows), [], []);
  }

  function EmitIf(on: bool, emit: string -> seq<Sample>): string -> seq<Sample> {
    (node: string) => if on then emit(node) else []
  }

  lemma {:induction false} PerNodeIf(on: bool, emit: string -> seq<Sample>, nodes: seq<string>)
    ensures PerNode(EmitIf(on, emit), nodes) == if on then PerNode(emit, nodes) else []
  {
    if nodes == [] {
    } else {
      PerNodeIf(on, emit, nodes[..|nodes| - 1]);
    }
  }

  /** Blocks of three parts each, sorted by part. */
  lemma {:induction false} BlocksByPart(bs: seq<seq<Sample>>, f: string -> seq<Sample>, g: string -> seq<Sample>,
                                        h: string -> seq<Sample>, nodes: seq<string>)
    requires |bs| == |nodes| && forall i :: 0 <= i < |nodes| ==> bs[i] == [] + f(nodes[i]) + g(nodes[i]) + h(nodes[i])
    ensures multiset(Flatten(bs))
      == multiset(PerNode(f, nodes)) + multiset(PerNode(g, nodes)) + multiset(PerNode(h, nodes))
  {
    if nodes == [] {
    } else {
      var n := |nodes| - 1;
      BlocksByPart(bs[..n], f, g, h, nodes[..n]);
      ThreeParts(Flatten(bs[..n]), f(nodes[n]), g(nodes[n]), h(nodes[n]));
    }
  }

  lemma ThreeParts(before: seq<Sample>, x: seq<Sample>, y: seq<Sample>, z: seq<Sample>)
    ensures multiset(before + ([] + x + y + z)) == multiset(before) + multiset(x) + multiset(y) + multiset(z)
  {
  }

  lemma BlockByPart(c: string, t: CollectorToggles, pve: Pve, node: string)
    ensures NodeBlock(c, t, pve, node)
      == [] + EmitIf(t.ReplicationEnabled(), ReplicationOn(c, pve))(node)
       + EmitIf(t.SubscriptionEnabled(), SubscriptionOn(c, pve))(node)
       + EmitIf(t.OnbootEnabled(), OnbootOn(c, pve))(node)
  {
  }

  lemma NodesByPart(c: string, t: CollectorToggles, pve: Pve, nodes: seq<string>)
    ensures multiset(Flatten(Blocks(NodePlans(c, t, pve, nodes))))
      == multiset(PerNode(EmitIf(t.ReplicationEnabled(), ReplicationOn(c, pve)), nodes))
       + multiset(PerNode(EmitIf(t.SubscriptionEnabled(), SubscriptionOn(c, pve)), nodes))
       + multiset(PerNode(EmitIf(t.OnbootEnabled(), OnbootOn(c, pve)), nodes))
  {
    var bs := Blocks(NodePlans(c, t, pve, nodes));
    var r := EmitIf(t.ReplicationEnabled(), ReplicationOn(c, pve));
    var s := EmitIf(t.SubscriptionEnabled(), SubscriptionOn(c, pve));
    var o := EmitIf(t.OnbootEnabled(), OnbootOn(c, pve));
    forall i | 0 <= i < |nodes| ensures bs[i] == [] + r(nodes[i]) + s(nodes[i]) + o(nodes[i]) {
      BlockByPart(c, t, pve, nodes[i]);
    }
    BlocksByPart(bs, r, s, o, nodes);
  }

  lemma OwnOfNodes(c: string, t: CollectorToggles, pve: Pve, rows: seq<ClusterResource>)
    ensures OwnIf(c, t, pve, rows, Replications)
      == PerNode(EmitIf(t.ReplicationEnabled(), ReplicationOn(c, pve)), NodeNames(rows))
    ensures OwnIf(c, t, pve, rows, Subscriptions)
      == PerNode(EmitIf(t.SubscriptionEnabled(), SubscriptionOn(c, pve)), NodeNames(rows))
    ensures OwnIf(c, t, pve, rows, OnbootStates)
      == PerNode(EmitIf(t.OnbootEnabled(), OnbootOn(c, pve)), NodeNames(rows))
  {
    PerNodeIf(t.ReplicationEnabled(), ReplicationOn(c, pve), NodeNames(rows));
    PerNodeIf(t.SubscriptionEnabled(), SubscriptionOn(c, pve), NodeNames(rows));
    PerNodeIf(t.OnbootEnabled(), OnbootOn(c, pve), NodeNames(rows));
  }

  lemma NoFanOut(c: string, t: CollectorToggles, pve: Pve, nodes: seq<string>)
    requires !AnyNodeCollector(t)
    ensures Flatten(Blocks(FanOut(c, t, pve, nodes))) == []
  {
  }

  lemma FanOutByCollector(c: string, t: CollectorToggles, pve: Pve, rows: seq<ClusterResource>)
    ensures multiset(Flatten(Blocks(FanOut(c, t, pve, NodeNames(rows)))))
      == multiset(OwnIf(c, t, pve, rows, Replications)) + multiset(OwnIf(c, t, pve, rows, Subscriptions))
       + multiset(OwnIf(c, t, pve, rows, OnbootStates))
  {
    if AnyNodeCollector(t) {
      OwnOfNodes(c, t, pve, rows);
      NodesByPart(c, t, pve, NodeNames(rows));
    } else {
      NoFanOut(c, t, pve, NodeNames(rows));
    }
  }

  /** The samples of a cycle but for its closing ones. */
  function Body(p: Plan): seq<Sample> { p.prefix + Flatten(Blocks(p.nodes)) }

  type Parts = Collector -> seq<Sample>

  function PartsOf(c: string, t: CollectorToggles, pve: Pve, rows: seq<ClusterResource>): Parts {
    (k: Collector) => OwnIf(c, t, pve, rows, k)
  }

  function Total(base: seq<Sample>, part: Parts): multiset<Sample> {
    multiset(base) + multiset(part(QDevices)) + multiset(part(BackupInfo)) + multiset(part(HAStatus))
    + multiset(part(Replications)) + multiset(part(Subscriptions)) + multiset(part(OnbootStates))
  }

  /** Conservation: what a cycle collects is the uncontrolled emissions and, for
      every enabled collector, its own. */
  lemma ByCollector(c: string, t: CollectorToggles, pve: Pve, rows: seq<ClusterResource>)
    requires AsResources(ReplyOf(pve(RESOURCES_PATH))) == Some(rows)
    ensures multiset(Body(PlanOf(c, t, pve))) == Total(Base(c, pve, rows), PartsOf(c, t, pve, rows))
  {
    PrefixByCollector(c, t, pve, rows);
    FanOutByCollector(c, t, pve, rows);
  }

  /** Emptying one part takes away exactly that part. */
  lemma TotalFrame(base: seq<Sample>, f: Parts, g: Parts, k: Collector)
    requires g(k) == [] && forall l :: l != k ==> f(l) == g(l)
    ensures Total(base, f) == Total(base, g) + multiset(f(k))
  {
  }

  lemma PartsFrame(c: string, t: CollectorToggles, pve: Pve, rows: seq<ClusterResource>, k: Collector, l: Collector)
    ensures var f, g := PartsOf(c, With(t, k, true), pve, rows), PartsOf(c, With(t, k, false), pve, rows);
      if l == k then f(l) == Own(c, pve, rows, k) && g(l) == [] else f(l) == g(l)
  {
  }

  lemma BodyFrame(c: string, t: CollectorToggles, pve: Pve, rows: seq<ClusterResource>, k: Collector)
    requires AsResources(ReplyOf(pve(RESOURCES_PATH))) == Some(rows)
    ensures multiset(Body(PlanOf(c, With(t, k, true), pve)))
      == multiset(Body(PlanOf(c, With(t, k, false), pve))) + multiset(Own(c, pve, rows, k))
  {
    ByCollector(c, With(t, k, true), pve, rows);
    ByCollector(c, With(t, k, false), pve, rows);
    PartsDiffer(c, t, pve, rows, k);
  }

  lemma PartsDiffer(c: string, t: CollectorToggles, pve: Pve, rows: seq<ClusterResource>, k: Collector)
    ensures var f, g := PartsOf(c, With(t, k, true), pve, rows), PartsOf(c, With(t, k, false), pve, rows);
      Total(Base(c, pve, rows), f) == Total(Base(c, pve, rows), g) + multiset(Own(c, pve, rows, k))
  {
    var f, g := PartsOf(c, With(t, k, true), pve, rows), PartsOf(c, With(t, k, false), pve, rows);
    PartsFrame(c, t, pve, rows, k, k);
    forall l | l != k ensures f(l) == g(l) {
      PartsFrame(c, t, pve, rows, k, l);
    }
    TotalFrame(Base(c, pve, rows), f, g, k);
  }

  lemma SamplesOfBody(p: Plan, order: seq<nat>, elapsed: real, errors: nat)
    requires IsOrder(order, |p.nodes|)
    ensures multiset(Samples(p, order, elapsed, errors)) == multiset(Body(p)) + multiset(Tail(p, elapsed, errors))
  {
    PermutedFlatten(Blocks(p.nodes), order);
  }

  /** Toggle frame: with the same answers, and elapsed time and error count aside,
      turning one collector off removes exactly its own emissions from the samples
      of a cycle, under any two schedules. */
  lemma ToggleFrame(c: string, t: CollectorToggles, pve: Pve, rows: seq<ClusterResource>, k: Collector,
                    a: seq<nat>, b: seq<nat>, elapsed: real, errors: nat)
    requires AsResources(ReplyOf(pve(RESOURCES_PATH))) == Some(rows)
    requires IsOrder(a, |PlanOf(c, With(t, k, true), pve).nodes|)
      && IsOrder(b, |PlanOf(c, With(t, k, false), pve).nodes|)
    ensures multiset(Samples(PlanOf(c, With(t, k, true), pve), a, elapsed, errors))
      == multiset(Samples(PlanOf(c, With(t, k, false), pve), b, elapsed, errors)) + multiset(Own(c, pve, rows, k))
  {
    var on, off := PlanOf(c, With(t, k, true), pve), PlanOf(c, With(t, k, false), pve);
    SamplesOfBody(on, a, elapsed, errors);
    SamplesOfBody(off, b, elapsed, errors);
    BodyFrame(c, t, pve, rows, k);
    assert Tail(on, elapsed, errors) == Tail(off, elapsed, errors);
  }
}
