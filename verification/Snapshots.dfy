/** internal/pve/snapshot.go: the index over one cycle's results, and the store
    that publishes it. */
module Snapshots {
  import opened Seqs
  import opened Metrics
  import opened Plans

  /** The content of a snapshot. */
  datatype Index = Index(
    perTarget: map<string, TargetSnapshot>, byName: map<Metric, seq<Sample>>, names: seq<Metric>)
  {
    function SamplesFor(n: Metric): seq<Sample> { if n in byName then byName[n] else [] }
  }

  /** The samples of all targets, in target order; a nil result has none. */
  function AllSamples(results: seq<Option<TargetSnapshot>>): seq<Sample> {
    if results == [] then []
    else
      AllSamples(results[..|results| - 1])
      + match results[|results| - 1] case None => [] case Some(t) => t.samples
  }

  function NameOf(s: Sample): Metric { s.name }

  function IsNamed(n: Metric): Sample -> bool { (s: Sample) => s.name == n }

  /** The samples of one metric, in order. */
  function Named(n: Metric, ss: seq<Sample>): seq<Sample> { Filter(IsNamed(n), ss) }

  function NamesOf(ss: seq<Sample>): seq<Metric> {
    seq(|ss|, i requires 0 <= i < |ss| => ss[i].name)
  }

  /** The distinct metric names, in order of first occurrence. */
  function DistinctNames(ss: seq<Sample>): seq<Metric> { NamesOf(KeepFirst(NameOf, ss)) }

  function ByName(ss: seq<Sample>): map<Metric, seq<Sample>> {
    map n | n in KeySet(NameOf, ss) :: Named(n, ss)
  }

  function PerTarget(results: seq<Option<TargetSnapshot>>): map<string, TargetSnapshot> {
    if results == [] then map[]
    else
      match results[|results| - 1]
      case None => PerTarget(results[..|results| - 1])
      case Some(t) => PerTarget(results[..|results| - 1])[t.cluster := t]
  }

  function IndexOf(results: seq<Option<TargetSnapshot>>): Index {
    var all := AllSamples(results);
    Index(PerTarget(results), ByName(all), DistinctNames(all))
  }

  lemma NotNamed(n: Metric, ss: seq<Sample>)
    requires n !in KeySet(NameOf, ss)
    ensures Named(n, ss) == []
  {
  }

  lemma OneMoreName(ss: seq<Sample>, x: Sample)
    ensures DistinctNames(ss + [x]) == DistinctNames(ss) + (if x.name in KeySet(NameOf, ss) then [] else [x.name])
  {
  }

  lemma OneMoreSample(ss: seq<Sample>, x: Sample)
    ensures ByName(ss + [x]) == ByName(ss)[x.name := Named(x.name, ss) + [x]]
  {
    assert (ss + [x])[..|ss|] == ss;
    assert KeySet(NameOf, ss + [x]) == KeySet(NameOf, ss) + {x.name};
    forall n | n in KeySet(NameOf, ss + [x])
      ensures Named(n, ss + [x]) == if n == x.name then Named(n, ss) + [x] else Named(n, ss)
    {
      FilterSnoc(IsNamed(n), ss, x);
      Regroup(Named(n, ss), [], []);
    }
  }

  class Snapshot {
    var perTarget: map<string, TargetSnapshot>
    var byName: map<Metric, seq<Sample>>
    var names: seq<Metric>

    constructor ()
      ensures perTarget == map[] && byName == map[] && names == []
    {
      perTarget, byName, names := map[], map[], [];
    }

    function View(): Index
      reads this
    {
      Index(perTarget, byName, names)
    }

    method MetricNames() returns (r: seq<Metric>)
      ensures r == View().names
    {
      r := names;
    }

    method SamplesFor(name: Metric) returns (r: seq<Sample>)
      ensures r == View().SamplesFor(name)
    {
      r := if name in byName then byName[name] else [];
    }

    /** The inner loop of BuildSnapshot: index one target's samples. */
    method IndexSamples(samples: seq<Sample>, ghost before: seq<Sample>)
      requires byName == ByName(before) && names == DistinctNames(before)
      modifies this`byName, this`names
      ensures byName == ByName(before + samples) && names == DistinctNames(before + samples)
    {
      assert before + samples[..0] == before;
      for i := 0 to |samples|
        invariant byName == ByName(before + samples[..i]) && names == DistinctNames(before + samples[..i])
      {
        var sample := samples[i];
        ghost var done := before + samples[..i];
        OneMoreSample(done, sample);
        OneMoreName(done, sample);
        if sample.name !in byName {
          NotNamed(sample.name, done);
        }
        assert before + samples[..i + 1] == done + [sample];
        if sample.name !in byName {
          names := names + [sample.name];
        }
        byName := byName[sample.name := (if sample.name in byName then byName[sample.name] else []) + [sample]];
      }
      assert samples[..|samples|] == samples;
    }
  }

  method BuildSnapshot(targets: seq<Option<TargetSnapshot>>) returns (s: Snapshot)
    ensures fresh(s) && s.View() == IndexOf(targets)
  {
    s := new Snapshot();
    assert s.byName == ByName([]) && s.names == DistinctNames([]);
    for i := 0 to |targets|
      invariant fresh(s)
      invariant s.View() == IndexOf(targets[..i])
    {
      assert targets[..i + 1][..i] == targets[..i];
      if targets[i].None? {
        Regroup(AllSamples(targets[..i]), [], []);
        continue;
      }
      var t := targets[i].value;
      s.perTarget := s.perTarget[t.cluster := t];
      s.IndexSamples(t.samples, AllSamples(targets[..i]));
    }
    assert targets[..|targets|] == targets;
  }

  class SnapshotStore {
    var current: Snapshot

    /** A new store serves an empty snapshot. */
    constructor ()
      ensures fresh(current) && current.View() == IndexOf([])
    {
      var empty := BuildSnapshot([]);
      current := empty;
    }

    method Load() returns (s: Snapshot)
      ensures s == current
    {
      s := current;
    }

    /** The swap touches the pointer alone: no snapshot is modified. */
    method Store(snap: Snapshot)
      modifies this
      ensures current == snap
    {
      current := snap;
    }
  }

  // ---- what the index says about the samples ----

  function Groups(ns: seq<Metric>, ss: seq<Sample>): (gs: seq<seq<Sample>>)
    ensures |gs| == |ns|
  {
    seq(|ns|, i requires 0 <= i < |ns| => Named(ns[i], ss))
  }

  /** Grouping by a duplicate-free list of names collects each sample whose name
      is listed, as often as it occurs. */
  lemma {:induction false} GroupsCount(ns: seq<Metric>, ss: seq<Sample>, x: Sample)
    requires NoDup(ns)
    ensures multiset(Flatten(Groups(ns, ss)))[x] == if x.name in ns then multiset(ss)[x] else 0
  {
    if ns == [] {
    } else {
      var init, n := ns[..|ns| - 1], ns[|ns| - 1];
      GroupsCount(init, ss, x);
      assert Groups(ns, ss)[..|init|] == Groups(init, ss);
      assert Groups(ns, ss)[|init|] == Named(n, ss);
      FilterMultiset(IsNamed(n), ss, x);
      LastIsNew(ns, x.name);
    }
  }

  lemma DistinctNamesExact(ss: seq<Sample>)
    ensures NoDup(DistinctNames(ss))
    ensures forall n :: n in DistinctNames(ss) <==> n in KeySet(NameOf, ss)
  {
    var kept := KeepFirst(NameOf, ss);
    KeepFirstKeys(NameOf, ss);
    forall n ensures n in DistinctNames(ss) <==> n in KeySet(NameOf, ss) {
      KeySetMember(NameOf, kept, n);
      if n in KeySet(NameOf, kept) {
        var i :| 0 <= i < |kept| && NameOf(kept[i]) == n;
        assert DistinctNames(ss)[i] == n;
      }
    }
  }

  /** The name list has no duplicates and is in order of first occurrence. */
  lemma NamesExact(results: seq<Option<TargetSnapshot>>)
    ensures var names, all := IndexOf(results).names, AllSamples(results);
      && NoDup(names)
      && names == NamesOf(Pick(all, FirstIndices(NameOf, all)))
      && forall n :: n in names <==> exists i :: 0 <= i < |all| && all[i].name == n
  {
    var all := AllSamples(results);
    DistinctNamesExact(all);
    KeepFirstPicks(NameOf, all);
    forall n ensures n in DistinctNames(all) <==> exists i :: 0 <= i < |all| && all[i].name == n {
      KeySetMember(NameOf, all, n);
    }
  }

  /** Looking a name up is filtering the concatenated samples, in order. */
  lemma LookupIsFilter(results: seq<Option<TargetSnapshot>>, n: Metric)
    ensures IndexOf(results).SamplesFor(n) == Named(n, AllSamples(results))
  {
    if n !in KeySet(NameOf, AllSamples(results)) {
      NotNamed(n, AllSamples(results));
    }
  }

  /** All names together give every sample back, as often as it was collected. */
  lemma NothingLost(results: seq<Option<TargetSnapshot>>)
    ensures multiset(Flatten(Groups(IndexOf(results).names, AllSamples(results)))) == multiset(AllSamples(results))
  {
    var all := AllSamples(results);
    var groups := Flatten(Groups(DistinctNames(all), all));
    DistinctNamesExact(all);
    forall x ensures multiset(groups)[x] == multiset(all)[x] {
      GroupsCount(DistinctNames(all), all, x);
      if x in all {
        KeySetMember(NameOf, all, x.name);
      }
    }
  }

  /** With distinct target names no target is lost from the per-target map. */
  lemma {:induction false} PerTargetExact(results: seq<Option<TargetSnapshot>>)
    requires forall i, j :: (0 <= i < j < |results| && results[i].Some? && results[j].Some?
      ==> results[i].value.cluster != results[j].value.cluster)
    ensures forall i :: (0 <= i < |results| && results[i].Some?
      ==> (results[i].value.cluster in PerTarget(results)
           && PerTarget(results)[results[i].value.cluster] == results[i].value))
  {
    if results == [] {
    } else {
      PerTargetExact(results[..|results| - 1]);
    }
  }
}
