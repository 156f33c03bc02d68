/** internal/pve/metrics.go: metric names, labels, samples, and the sample set
    that every collector appends to. */
module Metrics {
  import opened Seqs

  /** The thirty-six metric name constants (MetricNames.Text gives the strings). */
  datatype Metric =
    | Up | DiskSize | DiskUsage | MemSize | MemUsage | CpuRatio | CpuLimit | Uptime
    | StorShare | HAState | LockState
    | NetRxTotal | NetTxTotal | DiskReadTotal | DiskWriteTotal
    | GuestInfo | StorageInfo | NodeInfo | ClusterInfo | VersionInfo
    | QDeviceUp | QDeviceInfo
    | SubInfo | SubStatus | SubNextDue | Onboot
    | NotBackedUpTotal | NotBackedUpInfo
    | ReplInfo | ReplDuration | ReplLastSync | ReplLastTry | ReplNextSync | ReplFailed
    | CollectionDuration | RequestErrors

  datatype Label = Label(name: string, value: string)

  datatype Sample = Sample(name: Metric, labels: seq<Label>, value: real)

  /** A FlexFloat: absent, or a number. */
  type FlexFloat = Option<real>

  const HA_NODE_STATES := ["online", "maintenance", "unknown", "fence", "gone"]
  const HA_GUEST_STATES := [
    "stopped", "request_stop", "request_start", "request_start_balance",
    "started", "fence", "recovery", "migrate", "relocate", "freeze", "error"]
  const LOCK_STATES := [
    "backup", "clone", "create", "migrate", "rollback",
    "snapshot", "snapshot-delete", "suspended", "suspending"]
  const SUB_STATES := ["new", "notfound", "active", "invalid", "expired", "suspended"]

  function IdLabel(value: string): Label { Label("id", value) }

  function BoolToReal(b: bool): real { if b then 1.0 else 0.0 }

  function Keys(labels: seq<Label>): seq<string> {
    seq(|labels|, i requires 0 <= i < |labels| => labels[i].name)
  }

  function Values(labels: seq<Label>): seq<string> {
    seq(|labels|, i requires 0 <= i < |labels| => labels[i].value)
  }

  /** The label keys of each metric, as docs/metrics.md lists them (the state
      enums use "state", also for pve_subscription_status). */
  function KeysOf(m: Metric): seq<string> {
    match m
    case GuestInfo => ["cluster", "id", "node", "name", "type", "template", "tags"]
    case StorageInfo => ["cluster", "id", "node", "storage", "plugintype", "content"]
    case NodeInfo => ["cluster", "id", "name", "level", "nodeid"]
    case ClusterInfo => ["cluster", "id", "nodes", "quorate", "version"]
    case VersionInfo => ["cluster", "release", "repoid", "version"]
    case QDeviceInfo => ["cluster", "id", "model", "host", "algorithm"]
    case SubInfo => ["cluster", "id", "level"]
    case Onboot => ["cluster", "id", "node", "type"]
    case ReplInfo => ["cluster", "id", "guest", "source", "target", "type"]
    case HAState => ["cluster", "id", "state"]
    case LockState => ["cluster", "id", "state"]
    case SubStatus => ["cluster", "id", "state"]
    case _ => ["cluster", "id"]
  }

  /** A sample of the given target: the keys are those of its metric, and the
      first label carries the target's name. */
  predicate Conforms(cluster: string, s: Sample) {
    && Keys(s.labels) == KeysOf(s.name)
    && |s.labels| > 0
    && s.labels[0] == Label("cluster", cluster)
  }

  predicate AllConform(cluster: string, ss: seq<Sample>) {
    forall i :: 0 <= i < |ss| ==> Conforms(cluster, ss[i])
  }

  /** The two metrics a target reports about itself. */
  predicate SelfMetric(m: Metric) { m.CollectionDuration? || m.RequestErrors? }

  /** A conforming sample of what the API answered, not about the cycle itself. */
  predicate Collected(cluster: string, s: Sample) {
    Conforms(cluster, s) && !SelfMetric(s.name)
  }

  predicate AllCollected(cluster: string, ss: seq<Sample>) {
    forall i :: 0 <= i < |ss| ==> Collected(cluster, ss[i])
  }

  /** What sampleSet.add appends: the cluster label goes first. */
  function MakeSample(cluster: string, name: Metric, value: real, labels: seq<Label>): Sample {
    Sample(name, [Label("cluster", cluster)] + labels, value)
  }

  function Flex(cluster: string, name: Metric, f: FlexFloat, id: string): (r: seq<Sample>)
    ensures KeysOf(name) == ["cluster", "id"] && !SelfMetric(name) ==> AllCollected(cluster, r)
  {
    if f.Some? then [MakeSample(cluster, name, f.value, [IdLabel(id)])] else []
  }

  /** One sample per listed state, 1.0 for the active one. */
  function StateEnum(cluster: string, name: Metric, id: string, active: string, states: seq<string>): (r: seq<Sample>)
    ensures KeysOf(name) == ["cluster", "id", "state"] ==> AllCollected(cluster, r)
  {
    if states == [] then []
    else
      var state := states[|states| - 1];
      StateEnum(cluster, name, id, active, states[..|states| - 1])
      + [MakeSample(cluster, name, BoolToReal(state == active), [IdLabel(id), Label("state", state)])]
  }

  /** The enum has one sample per listed state, in order, whatever the active one. */
  lemma {:induction false} EnumShape(cluster: string, name: Metric, id: string, active: string, states: seq<string>)
    ensures var e := StateEnum(cluster, name, id, active, states);
      |e| == |states| && forall i :: 0 <= i < |e| ==>
        e[i] == Sample(name, [Label("cluster", cluster), Label("id", id), Label("state", states[i])],
          if states[i] == active then 1.0 else 0.0)
  {
    if states == [] {
    } else {
      EnumShape(cluster, name, id, active, states[..|states| - 1]);
    }
  }

  function Ones(ss: seq<Sample>): seq<Sample> {
    Filter((s: Sample) => s.value == 1.0, ss)
  }

  /** Exactly one sample of an enum is 1 when the active state is listed, and
      none is when it is not. */
  lemma {:induction false} OneHot(cluster: string, name: Metric, id: string, active: string, states: seq<string>)
    requires NoDup(states)
    ensures |Ones(StateEnum(cluster, name, id, active, states))| == if active in states then 1 else 0
  {
    if states == [] {
    } else {
      var init, last := states[..|states| - 1], states[|states| - 1];
      OneHot(cluster, name, id, active, init);
      FilterSnoc((s: Sample) => s.value == 1.0, StateEnum(cluster, name, id, active, init),
        MakeSample(cluster, name, BoolToReal(last == active), [IdLabel(id), Label("state", last)]));
      assert states == init + [last];
      assert active in states <==> active in init || active == last;
      if active in init {
        var i :| 0 <= i < |init| && init[i] == active;
        assert states[i] != states[|init|];
      }
    }
  }

  class SampleSet {
    const cluster: string
    var out: seq<Sample>
    // Proof bookkeeping: out as it was at some point, and what was added since.
    ghost var base: seq<Sample>
    ghost var added: seq<Sample>

    constructor (cluster: string)
      ensures this.cluster == cluster && out == []
    {
      this.cluster := cluster;
      out := [];
    }

    /** Starts a new split of out; Release goes back to the split of the caller. */
    ghost method Mark() returns (b: seq<Sample>, a: seq<Sample>)
      modifies this`base, this`added
      ensures b == old(base) && a == old(added)
      ensures Marked() && base == out && added == []
    {
      b, a := base, added;
      base, added := out, [];
    }

    ghost method Release(b: seq<Sample>, a: seq<Sample>)
      requires Marked()
      modifies this`base, this`added
      ensures base == b && added == a + old(added)
      ensures old(base) == b + a ==> Marked()
    {
      assert (b + a) + added == b + (a + added);
      base, added := b, a + added;
    }

    ghost predicate Marked()
      reads this
    {
      out == base + added
    }

    /** xs was appended, and the split of out is kept. */
    twostate predicate Appended(xs: seq<Sample>)
      reads this
    {
      && out == old(out) + xs
      && base == old(base)
      && (old(Marked()) ==> Marked() && added == old(added) + xs)
    }

    twostate lemma NothingAppended()
      requires unchanged(this)
      ensures Appended([])
    {
      Regroup(out, [], []);
      Regroup(added, [], []);
    }

    method Add(name: Metric, value: real, labels: seq<Label>)
      modifies this
      ensures Appended([Sample(name, [Label("cluster", cluster)] + labels, value)])
    {
      var full := [Label("cluster", cluster)];
      full := full + labels;
      ghost var x := [MakeSample(cluster, name, value, labels)];
      assert (base + added) + x == base + (added + x);
      out := out + [Sample(name, full, value)];
      added := added + x;
    }

    /** Appends the samples of another set. */
    method AddAll(samples: seq<Sample>)
      modifies this
      ensures Appended(samples)
    {
      assert (base + added) + samples == base + (added + samples);
      out := out + samples;
      added := added + samples;
    }

    /** Adds a sample only when the value parsed. */
    method AddFlex(name: Metric, f: FlexFloat, id: string)
      modifies this
      ensures Appended(if f.Some? then [Sample(name, [Label("cluster", cluster), Label("id", id)], f.value)] else [])
      ensures Appended(Flex(cluster, name, f, id))
    {
      assert [Label("cluster", cluster)] + [IdLabel(id)] == [Label("cluster", cluster), Label("id", id)];
      if f.Some? {
        Add(name, f.value, [IdLabel(id)]);
      } else {
        assert out + [] == out && added + [] == added;
      }
    }

    method AddStateEnum(name: Metric, id: string, active: string, states: seq<string>)
      modifies this
      ensures Appended(StateEnum(cluster, name, id, active, states))
      ensures |out| == |old(out)| + |states| && forall i :: 0 <= i < |states| ==>
        out[|old(out)| + i] == Sample(name, [Label("cluster", cluster), Label("id", id), Label("state", states[i])],
          if states[i] == active then 1.0 else 0.0)
    {
      var i := 0;
      assert out + [] == out && added + [] == added;
      while i < |states|
        invariant 0 <= i <= |states|
        invariant Appended(StateEnum(cluster, name, id, active, states[..i]))
      {
        Add(name, BoolToReal(states[i] == active), [IdLabel(id), Label("state", states[i])]);
        assert states[..i + 1][..i] == states[..i];
        i := i + 1;
      }
      assert states[..i] == states;
      EnumShape(cluster, name, id, active, states);
    }
  }
}
