/** internal/pve/collector.go: the Collector object, one whole cycle at a time. The
    target workers run one after another here; module Schedules shows what any
    other interleaving comes to. */
module Cycles {
  import opened Seqs
  import opened Api
  import opened Clients
  import opened Models
  import opened Plans
  import opened Collectors
  import opened Snapshots

  ghost function ClientsOf(ts: seq<Target>): set<Client> {
    set i | 0 <= i < |ts| :: ts[i].client
  }

  /** Every target has a client of its own, whose counter is right. */
  ghost predicate GoodTargets(ts: seq<Target>)
    reads ClientsOf(ts)
  {
    && DistinctClients(ts)
    && forall i :: 0 <= i < |ts| ==> ts[i].client in ClientsOf(ts) && ts[i].client.Valid()
  }

  ghost predicate DistinctClients(ts: seq<Target>) {
    forall i, j :: 0 <= i < j < |ts| ==> ts[i].client != ts[j].client
  }

  /** ps are the plans of ts, said so that they unfold only on demand. */
  ghost predicate Agree(ps: seq<Plan>, ts: seq<Target>, toggles: CollectorToggles, pves: seq<Pve>) {
    && |ps| == |ts| == |pves|
    && forall i {:trigger PlanOf(ts[i].cfg.name, toggles, pves[i])} :: 0 <= i < |ts| ==>
      PlanOf(ts[i].cfg.name, toggles, pves[i]) == ps[i]
  }

  function ConfigsOf(ts: seq<Target>): (cs: seq<ClusterConfig>)
    ensures |cs| == |ts|
  {
    seq(|ts|, i requires 0 <= i < |ts| => ts[i].cfg)
  }

  lemma PlansAgree(ts: seq<Target>, toggles: CollectorToggles, pves: seq<Pve>)
    requires |pves| == |ts|
    ensures Agree(PlansFor(ConfigsOf(ts), toggles, pves), ts, toggles, pves)
  {
  }

  /** Target k is done: its calls are logged and its slot holds its result. */
  ghost predicate Done(t: Target, log: seq<Exchange>, p: Plan, elapsed: real, slot: Option<TargetSnapshot>)
    reads t.client
  {
    && t.client.log == log + AllCalls(p)
    && slot == Some(SequentialResult(p, elapsed, t.client.requestErrors))
  }

  /** The worker of target i, against its plan. */
  method CollectSlot(ts: seq<Target>, toggles: CollectorToggles, pves: seq<Pve>, i: nat,
    elapsed: real, ghost ps: seq<Plan>)
    returns (r: Option<TargetSnapshot>)
    requires Agree(ps, ts, toggles, pves) && i < |ts| && ts[i].client.Valid()
    modifies ts[i].client
    ensures ts[i].client.Valid() && Done(ts[i], old(ts[i].client.log), ps[i], elapsed, r)
  {
    var t := CollectTarget(ts[i], toggles, pves[i], elapsed);
    r := Some(t);
  }

  /** The loop of collectAll: one worker per target, each with its own slot. */
  method CollectEach(ts: seq<Target>, toggles: CollectorToggles, pves: seq<Pve>,
    elapsed: seq<real>, ghost ps: seq<Plan>)
    returns (results: array<Option<TargetSnapshot>>)
    requires GoodTargets(ts) && Agree(ps, ts, toggles, pves) && |elapsed| == |ts|
    modifies ClientsOf(ts)
    ensures GoodTargets(ts) && fresh(results) && results.Length == |ts|
    ensures forall k :: 0 <= k < |ts| ==> Done(ts[k], old(ts[k].client.log), ps[k], elapsed[k], results[k])
  {
    results := new Option<TargetSnapshot>[|ts|](_ => None);
    for i := 0 to |ts|
      invariant forall k :: 0 <= k < i ==>
        ts[k].client.Valid() && Done(ts[k], old(ts[k].client.log), ps[k], elapsed[k], results[k])
      invariant forall k :: i <= k < |ts| ==> unchanged(ts[k].client)
    {
      var r := CollectSlot(ts, toggles, pves, i, elapsed[i], ps);
      results[i] := r;
    }
  }

  class Collector {
    var targets: seq<Target>
    const store: SnapshotStore
    const toggles: CollectorToggles
    const maxConcurrent: int

    constructor (targets: seq<Target>, store: SnapshotStore, toggles: CollectorToggles, maxConcurrent: int)
      ensures this.targets == targets && this.store == store
      ensures this.toggles == toggles && this.maxConcurrent == maxConcurrent
    {
      this.targets, this.store, this.toggles, this.maxConcurrent := targets, store, toggles, maxConcurrent;
    }

    /** Swaps the target set; no client is touched. */
    method SetTargets(ts: seq<Target>)
      modifies this`targets
      ensures targets == ts
    {
      targets := ts;
    }

    method SnapshotTargets() returns (ts: seq<Target>)
      ensures ts == targets
    {
      ts := targets;
    }

    /** One result per target, in target order; every call of the cycle is in the
        client's log and counter before its result is made. */
    method CollectAll(pves: seq<Pve>, elapsed: seq<real>, ghost ps: seq<Plan>)
      returns (snap: Snapshot, ghost results: seq<Option<TargetSnapshot>>)
      requires GoodTargets(targets) && Agree(ps, targets, toggles, pves) && |elapsed| == |targets|
      modifies ClientsOf(targets)
      ensures GoodTargets(targets) && fresh(snap) && |results| == |targets|
      ensures forall k :: 0 <= k < |targets| ==>
        Done(targets[k], old(targets[k].client.log), ps[k], elapsed[k], results[k])
      ensures snap.View() == IndexOf(results)
    {
      var ts := SnapshotTargets();
      var slots := CollectEach(ts, toggles, pves, elapsed, ps);
      results := slots[..];
      snap := BuildSnapshot(slots[..]);
    }

    /** A cycle, published. The snapshot it replaces stays as it is for those who
        hold it. */
    method CollectOnce(pves: seq<Pve>, elapsed: seq<real>)
      returns (snap: Snapshot, ghost ps: seq<Plan>, ghost results: seq<Option<TargetSnapshot>>)
      requires GoodTargets(targets) && |pves| == |elapsed| == |targets|
      modifies ClientsOf(targets), store
      ensures ps == PlansFor(ConfigsOf(targets), toggles, pves)
      ensures GoodTargets(targets) && fresh(snap) && |results| == |targets|
      ensures forall k :: 0 <= k < |targets| ==>
        Done(targets[k], old(targets[k].client.log), ps[k], elapsed[k], results[k])
      ensures store.current == snap && snap.View() == IndexOf(results)
      ensures old(store.current).View() == old(store.current.View())
    {
      ps := PlansFor(ConfigsOf(targets), toggles, pves);
      PlansAgree(targets, toggles, pves);
      snap, results := CollectAndStore(pves, elapsed, ps);
    }

    method CollectAndStore(pves: seq<Pve>, elapsed: seq<real>, ghost ps: seq<Plan>)
      returns (snap: Snapshot, ghost results: seq<Option<TargetSnapshot>>)
      requires GoodTargets(targets) && Agree(ps, targets, toggles, pves) && |elapsed| == |targets|
      modifies ClientsOf(targets), store
      ensures GoodTargets(targets) && fresh(snap) && |results| == |targets|
      ensures forall k :: 0 <= k < |targets| ==>
        Done(targets[k], old(targets[k].client.log), ps[k], elapsed[k], results[k])
      ensures store.current == snap && snap.View() == IndexOf(results)
      ensures old(store.current).View() == old(store.current.View())
    {
      snap, results := CollectAll(pves, elapsed, ps);
      store.Store(snap);
    }
  }
}
