/** What a scrape contains, as a statement about the collected samples. */
module ScrapeProperties {
  import opened Seqs
  import opened Metrics
  import opened Plans
  import opened Snapshots
  import opened Signatures
  import opened Exports

  /** The identity of a series: metric name and label list. */
  function Identity(s: Sample): (Metric, seq<Label>) { (s.name, s.labels) }

  predicate CleanSample(s: Sample) {
    Schematic(s) && AllNulFree(Values(s.labels))
  }

  predicate Clean(ss: seq<Sample>) {
    forall i :: 0 <= i < |ss| ==> CleanSample(ss[i])
  }

  /** Samples of one metric that share a signature share their labels. */
  predicate Telling(ss: seq<Sample>) {
    forall i, j :: (0 <= i < |ss| && 0 <= j < |ss| && ss[i].name == ss[j].name && Signature(ss[i]) == Signature(ss[j])
      ==> ss[i].labels == ss[j].labels)
  }

  /** So it is when the samples have the keys of their metrics and no NUL in a value. */
  lemma CleanTells(ss: seq<Sample>)
    requires Clean(ss)
    ensures Telling(ss)
  {
    forall i, j | 0 <= i < |ss| && 0 <= j < |ss| && ss[i].name == ss[j].name && Signature(ss[i]) == Signature(ss[j])
      ensures ss[i].labels == ss[j].labels
    {
      assert CleanSample(ss[i]) && CleanSample(ss[j]);
      SignatureIsLabels(ss[i], ss[j]);
    }
  }

  lemma {:induction false} EmitConcat(accept: Acceptor, a: seq<Sample>, b: seq<Sample>)
    ensures Emit(accept, a + b) == Emit(accept, a) + Emit(accept, b)
    decreases |b|
  {
    if b == [] {
      Regroup(a, [], []);
      Regroup(Emit(accept, a), [], []);
    } else {
      var init := b[..|b| - 1];
      EmitConcat(accept, a, init);
      assert (a + b)[..|a + b| - 1] == a + init;
    }
  }

  lemma {:induction false} EmitMember(accept: Acceptor, ss: seq<Sample>, x: Series)
    ensures x in Emit(accept, ss) <==> exists i :: 0 <= i < |ss| && Accepts(accept, ss[i]) && SeriesOf(ss[i]) == x
  {
    if ss == [] {
    } else {
      var init := ss[..|ss| - 1];
      EmitMember(accept, init, x);
      assert forall i :: 0 <= i < |init| ==> init[i] == ss[i];
    }
  }

  /** One metric of a scrape: among the samples with a first-seen identity, those
      of the metric, in the order they were collected. */
  lemma MetricExact(results: seq<Option<TargetSnapshot>>, accept: Acceptor, n: Metric)
    requires Telling(AllSamples(results))
    ensures ScrapeMetric(IndexOf(results), accept, n)
         == Emit(accept, Named(n, KeepFirst(Identity, AllSamples(results))))
  {
    var all := AllSamples(results);
    var group := Named(n, all);
    LookupIsFilter(results, n);
    forall i, j | 0 <= i < j < |group|
      ensures Signature(group[i]) == Signature(group[j]) <==> Identity(group[i]) == Identity(group[j])
    {
      FilterMember(IsNamed(n), all, group[i]);
      FilterMember(IsNamed(n), all, group[j]);
    }
    KeepFirstSameKey(Signature, Identity, group);
    KeepFirstFilter(Identity, IsNamed(n), all);
  }

  /** The samples a scrape exports: one per identity, grouped by metric. */
  function Exported(results: seq<Option<TargetSnapshot>>): seq<Sample> {
    Flatten(Groups(IndexOf(results).names, KeepFirst(Identity, AllSamples(results))))
  }

  lemma {:induction false} NamesExported(results: seq<Option<TargetSnapshot>>, accept: Acceptor, ns: seq<Metric>)
    requires Telling(AllSamples(results))
    ensures ScrapeNames(IndexOf(results), accept, ns)
         == Emit(accept, Flatten(Groups(ns, KeepFirst(Identity, AllSamples(results)))))
  {
    var kept := KeepFirst(Identity, AllSamples(results));
    if ns == [] {
    } else {
      var init, n := ns[..|ns| - 1], ns[|ns| - 1];
      NamesExported(results, accept, init);
      MetricExact(results, accept, n);
      assert Groups(ns, kept)[..|init|] == Groups(init, kept);
      assert Groups(ns, kept)[|init|] == Named(n, kept);
      EmitConcat(accept, Flatten(Groups(init, kept)), Named(n, kept));
    }
  }

  lemma ExportedAsOften(results: seq<Option<TargetSnapshot>>, x: Sample)
    ensures multiset(Exported(results))[x] == multiset(KeepFirst(Identity, AllSamples(results)))[x]
  {
    var all := AllSamples(results);
    var kept, ns := KeepFirst(Identity, all), DistinctNames(all);
    DistinctNamesExact(all);
    GroupsCount(ns, kept, x);
    KeepFirstKeys(Identity, all);
    if x in kept {
      KeySetMember(NameOf, all, x.name);
    }
  }

  lemma ExportedCount(results: seq<Option<TargetSnapshot>>)
    ensures multiset(Exported(results)) == multiset(KeepFirst(Identity, AllSamples(results)))
  {
    forall x ensures multiset(Exported(results))[x] == multiset(KeepFirst(Identity, AllSamples(results)))[x] {
      ExportedAsOften(results, x);
    }
  }

  /** A series of a scrape is one of its own metric. */
  lemma {:induction false} FromItsMetric(rs: seq<Option<TargetSnapshot>>, accept: Acceptor, ns: seq<Metric>, x: Series)
    requires x in ScrapeNames(IndexOf(rs), accept, ns)
    ensures x in ScrapeMetric(IndexOf(rs), accept, x.name)
  {
    var init, n := ns[..|ns| - 1], ns[|ns| - 1];
    if x in ScrapeNames(IndexOf(rs), accept, init) {
      FromItsMetric(rs, accept, init, x);
    } else {
      var kept := KeepFirst(Signature, IndexOf(rs).SamplesFor(n));
      EmitMember(accept, kept, x);
      var k :| 0 <= k < |kept| && Accepts(accept, kept[k]) && SeriesOf(kept[k]) == x;
      KeepFirstKeys(Signature, IndexOf(rs).SamplesFor(n));
      LookupIsFilter(rs, n);
      FilterMember(IsNamed(n), AllSamples(rs), kept[k]);
    }
  }

  predicate DistinctIdentities(ss: seq<Sample>) {
    forall i, j :: 0 <= i < j < |ss| ==> Identity(ss[i]) != Identity(ss[j])
  }

  /** Rearranging samples with distinct identities keeps the identities distinct. */
  lemma RearrangedDistinct(a: seq<Sample>, b: seq<Sample>)
    requires DistinctIdentities(a) && multiset(a) == multiset(b)
    ensures DistinctIdentities(b)
  {
    forall i, j | 0 <= i < j < |b| ensures Identity(b[i]) != Identity(b[j]) {
      assert b[i] in multiset(a) && b[j] in multiset(a);
      assert NoDup(a) by {
        assert forall k, l :: 0 <= k < l < |a| && a[k] == a[l] ==> Identity(a[k]) == Identity(a[l]);
      }
      DistinctMeansOne(a, b[i]);
      if b[i] == b[j] {
        TwiceMeansTwo(b, i, j);
      }
    }
  }

  predicate DistinctSeries(out: seq<Series>) {
    forall i, j :: 0 <= i < j < |out| ==>
      out[i].name != out[j].name || out[i].keys != out[j].keys || out[i].values != out[j].values
  }

  /** A sample and the series emitted for it have the same identity. */
  lemma SeriesIdentity(a: Sample, b: Sample)
    ensures Identity(a) == Identity(b) <==>
      a.name == b.name && Keys(a.labels) == Keys(b.labels) && Values(a.labels) == Values(b.labels)
  {
    if Keys(a.labels) == Keys(b.labels) && Values(a.labels) == Values(b.labels) {
      SameKeysAndValues(a.labels, b.labels);
    }
  }

  lemma {:induction false} EmitDistinct(accept: Acceptor, ss: seq<Sample>)
    requires DistinctIdentities(ss)
    ensures DistinctSeries(Emit(accept, ss))
  {
    if ss == [] {
    } else {
      var init, s := ss[..|ss| - 1], ss[|ss| - 1];
      EmitDistinct(accept, init);
      var out := Emit(accept, init);
      forall i | 0 <= i < |out|
        ensures out[i].name != s.name || out[i].keys != Keys(s.labels) || out[i].values != Values(s.labels)
      {
        EmitMember(accept, init, out[i]);
        var k :| 0 <= k < |init| && Accepts(accept, init[k]) && SeriesOf(init[k]) == out[i];
        assert Identity(ss[k]) != Identity(s);
        SeriesIdentity(ss[k], s);
      }
    }
  }

  /** Scrape exactness, where signatures tell label lists apart: the scrape emits the exported
      samples NewConstMetric accepts, metric by metric; the exported samples are
      the first collected of each identity, each once; and no two series of a
      scrape have the same name and labels. */
  lemma ScrapeExact(results: seq<Option<TargetSnapshot>>, accept: Acceptor)
    requires Telling(AllSamples(results))
    ensures var all := AllSamples(results);
      && Scrape(IndexOf(results), accept) == Emit(accept, Exported(results))
      && multiset(Exported(results)) == multiset(Pick(all, FirstIndices(Identity, all)))
      && DistinctSeries(Scrape(IndexOf(results), accept))
  {
    var all := AllSamples(results);
    NamesExported(results, accept, IndexOf(results).names);
    ExportedCount(results);
    KeepFirstPicks(Identity, all);
    KeepFirstKeys(Identity, all);
    RearrangedDistinct(KeepFirst(Identity, all), Exported(results));
    EmitDistinct(accept, Exported(results));
  }

  ghost predicate Has(out: seq<Series>, name: Metric, labels: seq<Label>) {
    exists i :: 0 <= i < |out| && out[i].name == name && out[i].keys == Keys(labels) && out[i].values == Values(labels)
  }

  lemma EmittedHas(accept: Acceptor, ss: seq<Sample>, i: nat)
    requires i < |Emit(accept, ss)|
    ensures exists k :: 0 <= k < |ss| && Accepts(accept, ss[k]) && SeriesOf(ss[k]) == Emit(accept, ss)[i]
  {
  }

  lemma HasEmitted(accept: Acceptor, ss: seq<Sample>, name: Metric, labels: seq<Label>)
    ensures Has(Emit(accept, ss), name, labels)
      <==> accept(name, Keys(labels), Values(labels)) && (name, labels) in KeySet(Identity, ss)
  {
    var out := Emit(accept, ss);
    KeySetMember(Identity, ss, (name, labels));
    if Has(out, name, labels) {
      var i :| 0 <= i < |out| && out[i].name == name && out[i].keys == Keys(labels) && out[i].values == Values(labels);
      EmittedHas(accept, ss, i);
      var k :| 0 <= k < |ss| && Accepts(accept, ss[k]) && SeriesOf(ss[k]) == out[i];
      SameKeysAndValues(ss[k].labels, labels);
      assert Identity(ss[k]) == (name, labels);
    } else if accept(name, Keys(labels), Values(labels)) {
      forall k | 0 <= k < |ss| ensures Identity(ss[k]) != (name, labels) {
        EmitMember(accept, ss, SeriesOf(ss[k]));
      }
    }
  }

  lemma {:induction false} SameKeySet<T, K>(key: T -> K, a: seq<T>, b: seq<T>, k: K)
    requires multiset(a) == multiset(b)
    ensures k in KeySet(key, a) ==> k in KeySet(key, b)
  {
    KeySetMember(key, a, k);
    KeySetMember(key, b, k);
    if i :| 0 <= i < |a| && key(a[i]) == k {
      assert a[i] in multiset(b);
    }
  }

  /** No accepted identity is missing from the scrape, and none is made up. */
  lemma ScrapeComplete(results: seq<Option<TargetSnapshot>>, accept: Acceptor, name: Metric, labels: seq<Label>)
    requires Telling(AllSamples(results))
    ensures Has(Scrape(IndexOf(results), accept), name, labels)
      <==> accept(name, Keys(labels), Values(labels)) && (name, labels) in KeySet(Identity, AllSamples(results))
  {
    var kept := KeepFirst(Identity, AllSamples(results));
    NamesExported(results, accept, IndexOf(results).names);
    ExportedCount(results);
    HasEmitted(accept, Exported(results), name, labels);
    SameKeySet(Identity, kept, Exported(results), (name, labels));
    SameKeySet(Identity, Exported(results), kept, (name, labels));
    KeepFirstKeys(Identity, AllSamples(results));
  }

  // ---- exactly when a scrape is exact ----

  function Anything(): Acceptor { (n: Metric, keys: seq<string>, values: seq<string>) => true }

  lemma KeptIdentity(ss: seq<Sample>, n: Metric, labels: seq<Label>)
    requires (n, labels) in KeySet(Identity, ss)
    ensures (n, labels) in KeySet(Identity, Named(n, KeepFirst(Identity, ss)))
  {
    var kept := KeepFirst(Identity, ss);
    KeepFirstKeys(Identity, ss);
    KeySetMember(Identity, kept, (n, labels));
    var i :| 0 <= i < |kept| && Identity(kept[i]) == (n, labels);
    FilterMember(IsNamed(n), kept, kept[i]);
    var group := Named(n, kept);
    var k :| 0 <= k < |group| && group[k] == kept[i];
    KeySetMember(Identity, group, (n, labels));
  }

  /** Of two label lists with one signature a scrape shows at most one. */
  lemma OnePerSignature(ss: seq<Sample>, n: Metric, a: seq<Label>, b: seq<Label>)
    requires Has(Emit(Anything(), KeepFirst(Signature, ss)), n, a)
      && Has(Emit(Anything(), KeepFirst(Signature, ss)), n, b)
    requires Join(Values(a)) == Join(Values(b))
    ensures a == b
  {
    var kept := KeepFirst(Signature, ss);
    HasEmitted(Anything(), kept, n, a);
    HasEmitted(Anything(), kept, n, b);
    KeySetMember(Identity, kept, (n, a));
    KeySetMember(Identity, kept, (n, b));
    var i :| 0 <= i < |kept| && Identity(kept[i]) == (n, a);
    var j :| 0 <= j < |kept| && Identity(kept[j]) == (n, b);
    KeepFirstKeys(Signature, ss);
    assert Signature(kept[i]) == Signature(kept[j]);
    assert i == j;
  }

  ghost predicate ExactMetric(results: seq<Option<TargetSnapshot>>, accept: Acceptor, n: Metric) {
    ScrapeMetric(IndexOf(results), accept, n) == Emit(accept, Named(n, KeepFirst(Identity, AllSamples(results))))
  }

  lemma ExactTells(results: seq<Option<TargetSnapshot>>, i: nat, j: nat)
    requires forall n :: ExactMetric(results, Anything(), n)
    requires i < |AllSamples(results)| && j < |AllSamples(results)|
    requires AllSamples(results)[i].name == AllSamples(results)[j].name
    requires Signature(AllSamples(results)[i]) == Signature(AllSamples(results)[j])
    ensures AllSamples(results)[i].labels == AllSamples(results)[j].labels
  {
    var all := AllSamples(results);
    var n := all[i].name;
    var shown := Named(n, KeepFirst(Identity, all));
    KeySetMember(Identity, all, Identity(all[i]));
    KeySetMember(Identity, all, Identity(all[j]));
    KeptIdentity(all, n, all[i].labels);
    KeptIdentity(all, n, all[j].labels);
    HasEmitted(Anything(), shown, n, all[i].labels);
    HasEmitted(Anything(), shown, n, all[j].labels);
    assert ExactMetric(results, Anything(), n);
    OnePerSignature(IndexOf(results).SamplesFor(n), n, all[i].labels, all[j].labels);
  }

  /** Without that condition: every metric of every scrape shows the first sample of
      each label list exactly when no two different lists of one metric share a
      signature. */
  lemma ExactIff(results: seq<Option<TargetSnapshot>>)
    ensures (forall accept, n :: ExactMetric(results, accept, n)) <==> Telling(AllSamples(results))
  {
    var all := AllSamples(results);
    if Telling(all) {
      forall accept, n ensures ExactMetric(results, accept, n) {
        MetricExact(results, accept, n);
      }
    }
    if forall accept, n :: ExactMetric(results, accept, n) {
      forall i, j | 0 <= i < |all| && 0 <= j < |all|
        && all[i].name == all[j].name && Signature(all[i]) == Signature(all[j])
        ensures all[i].labels == all[j].labels
      {
        ExactTells(results, i, j);
      }
    }
  }
}
