/** internal/pve/prometheus.go: the scrape, de-duplicated by signature. */
module Exports {
  import opened Seqs
  import opened Metrics
  import opened Snapshots
  import opened Signatures

  /** One emitted metric; its type and help text follow from the name. */
  datatype Series = Series(name: Metric, keys: seq<string>, values: seq<string>, value: real)

  /** Whether NewConstMetric accepts a name with these labels. */
  type Acceptor = (Metric, seq<string>, seq<string>) -> bool

  function SeriesOf(s: Sample): Series { Series(s.name, Keys(s.labels), Values(s.labels), s.value) }

  predicate Accepts(accept: Acceptor, s: Sample) { accept(s.name, Keys(s.labels), Values(s.labels)) }

  /** The accepted samples, as series, in order. */
  function Emit(accept: Acceptor, ss: seq<Sample>): seq<Series> {
    if ss == [] then []
    else
      Emit(accept, ss[..|ss| - 1])
      + (if Accepts(accept, ss[|ss| - 1]) then [SeriesOf(ss[|ss| - 1])] else [])
  }

  /** What a scrape emits for one metric: the first sample of each signature. */
  function ScrapeMetric(idx: Index, accept: Acceptor, n: Metric): seq<Series> {
    Emit(accept, KeepFirst(Signature, idx.SamplesFor(n)))
  }

  function ScrapeNames(idx: Index, accept: Acceptor, ns: seq<Metric>): seq<Series> {
    if ns == [] then []
    else ScrapeNames(idx, accept, ns[..|ns| - 1]) + ScrapeMetric(idx, accept, ns[|ns| - 1])
  }

  function Scrape(idx: Index, accept: Acceptor): seq<Series> { ScrapeNames(idx, accept, idx.names) }

  method SplitLabels(labels: seq<Label>) returns (keys: array<string>, values: array<string>)
    ensures fresh(keys) && fresh(values)
    ensures keys[..] == Keys(labels) && values[..] == Values(labels)
  {
    keys, values := new string[|labels|](i => ""), new string[|labels|](i => "");
    for i := 0 to |labels|
      invariant forall k :: 0 <= k < i ==> keys[k] == labels[k].name && values[k] == labels[k].value
    {
      keys[i] := labels[i].name;
      values[i] := labels[i].value;
    }
  }

  /** The inner loop: one metric's samples. */
  method CollectMetric(samples: seq<Sample>, accept: Acceptor) returns (sent: seq<Series>)
    ensures sent == Emit(accept, KeepFirst(Signature, samples))
  {
    sent := [];
    var seen: set<string> := {};
    for i := 0 to |samples|
      invariant seen == KeySet(Signature, samples[..i])
      invariant sent == Emit(accept, KeepFirst(Signature, samples[..i]))
    {
      var s := samples[i];
      ghost var kept := KeepFirst(Signature, samples[..i]);
      assert samples[..i + 1][..i] == samples[..i];
      Regroup(kept, [], []);
      var keys, values := SplitLabels(s.labels);
      var sig := Join(values[..]);
      if sig in seen {
        continue;
      }
      seen := seen + {sig};
      assert (kept + [s])[..|kept|] == kept;
      if accept(s.name, keys[..], values[..]) {
        sent := sent + [Series(s.name, keys[..], values[..], s.value)];
      } else {
        Regroup(sent, [], []);
      }
    }
    assert samples[..|samples|] == samples;
  }

  /** Collect, with the values sent to the channel as its result: it loads the
      store once and emits from that snapshot alone. */
  method Collect(store: SnapshotStore, accept: Acceptor) returns (sent: seq<Series>)
    ensures sent == Scrape(store.current.View(), accept)
  {
    var snap := store.Load();
    var names := snap.MetricNames();
    sent := [];
    for k := 0 to |names|
      invariant sent == ScrapeNames(snap.View(), accept, names[..k])
    {
      assert names[..k + 1][..k] == names[..k];
      var samples := snap.SamplesFor(names[k]);
      var more := CollectMetric(samples, accept);
      sent := sent + more;
    }
    assert names[..|names|] == names;
  }
}
