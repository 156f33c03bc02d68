/** What both exports say of the collected samples, field by field: which samples a scrape
    shows and a gauge observes, and with which values and labels. A sample is told by its
    place, the target and the position among the target's samples. */
module SeriesValues {
  import opened Seqs
  import opened Metrics
  import opened Plans
  import opened Snapshots
  import opened Exports
  import opened ScrapeProperties
  import opened Otlp

  type Place = (nat, nat)

  predicate Exists(rs: seq<Option<TargetSnapshot>>, i: nat, j: nat) {
    i < |rs| && rs[i].Some? && j < |rs[i].value.samples|
  }

  function SampleAt(rs: seq<Option<TargetSnapshot>>, i: nat, j: nat): Sample
    requires Exists(rs, i, j)
  {
    rs[i].value.samples[j]
  }

  predicate Before(i: nat, j: nat, k: nat, l: nat) { i < k || (i == k && j < l) }

  /** No earlier sample has its name and labels. */
  ghost predicate FirstOfItsSeries(rs: seq<Option<TargetSnapshot>>, i: nat, j: nat) {
    && Exists(rs, i, j)
    && forall k, l :: Before(k, l, i, j) && Exists(rs, k, l) ==>
      SampleAt(rs, k, l).name != SampleAt(rs, i, j).name || SampleAt(rs, k, l).labels != SampleAt(rs, i, j).labels
  }

  /** The series has the name, the label names and values, and the value of the sample. */
  ghost predicate Shows(x: Series, y: Sample) {
    && x.name == y.name && x.value == y.value
    && |x.keys| == |x.values| == |y.labels|
    && forall k :: 0 <= k < |y.labels| ==> x.keys[k] == y.labels[k].name && x.values[k] == y.labels[k].value
  }

  // ---- places in the concatenated samples ----

  function Offset(rs: seq<Option<TargetSnapshot>>, i: nat): nat
    requires i <= |rs|
  {
    |AllSamples(rs[..i])|
  }

  lemma {:induction false} SamplePlaced(rs: seq<Option<TargetSnapshot>>, i: nat, j: nat)
    requires Exists(rs, i, j)
    ensures Offset(rs, i) + j < |AllSamples(rs)| && AllSamples(rs)[Offset(rs, i) + j] == SampleAt(rs, i, j)
  {
    if i < |rs| - 1 {
      SamplePlaced(rs[..|rs| - 1], i, j);
      assert rs[..|rs| - 1][..i] == rs[..i];
    }
  }

  lemma {:induction false} SampleLocated(rs: seq<Option<TargetSnapshot>>, p: nat) returns (i: nat, j: nat)
    requires p < |AllSamples(rs)|
    ensures Exists(rs, i, j) && p == Offset(rs, i) + j && AllSamples(rs)[p] == SampleAt(rs, i, j)
  {
    var n := |rs| - 1;
    if p < |AllSamples(rs[..n])| {
      i, j := SampleLocated(rs[..n], p);
      assert rs[..n][..i] == rs[..i];
    } else {
      i, j := n, p - |AllSamples(rs[..n])|;
    }
  }

  lemma {:induction false} OffsetsGrow(rs: seq<Option<TargetSnapshot>>, i: nat, k: nat)
    requires i < k <= |rs|
    ensures Offset(rs, i) + (if rs[i].Some? then |rs[i].value.samples| else 0) <= Offset(rs, k)
    decreases k
  {
    assert rs[..k][..k - 1] == rs[..k - 1];
    if i < k - 1 {
      OffsetsGrow(rs, i, k - 1);
    }
  }

  lemma PlacesInOrder(rs: seq<Option<TargetSnapshot>>, i: nat, j: nat, k: nat, l: nat)
    requires Exists(rs, i, j) && Exists(rs, k, l)
    ensures Before(i, j, k, l) <==> Offset(rs, i) + j < Offset(rs, k) + l
  {
    if i < k {
      OffsetsGrow(rs, i, k);
    } else if k < i {
      OffsetsGrow(rs, k, i);
    }
  }

  /** First of its series is first of its identity in the concatenation. */
  lemma FirstPlace(rs: seq<Option<TargetSnapshot>>, i: nat, j: nat)
    requires Exists(rs, i, j)
    ensures Offset(rs, i) + j < |AllSamples(rs)|
    ensures FirstOfItsSeries(rs, i, j) <==> FirstAt(Identity, AllSamples(rs), Offset(rs, i) + j)
  {
    var all, p := AllSamples(rs), Offset(rs, i) + j;
    SamplePlaced(rs, i, j);
    KeySetMember(Identity, all[..p], Identity(all[p]));
    if q :| 0 <= q < |all[..p]| && Identity(all[..p][q]) == Identity(all[p]) {
      var k, l := SampleLocated(rs, q);
      PlacesInOrder(rs, k, l, i, j);
      assert Before(k, l, i, j) && Exists(rs, k, l);
    }
    if k, l :| Before(k, l, i, j) && Exists(rs, k, l) && Identity(SampleAt(rs, k, l)) == Identity(SampleAt(rs, i, j)) {
      SamplePlaced(rs, k, l);
      PlacesInOrder(rs, k, l, i, j);
      assert all[..p][Offset(rs, k) + l] == SampleAt(rs, k, l);
    }
  }

  // ---- what a scrape shows ----

  lemma ShowsIsSeries(x: Series, y: Sample)
    ensures Shows(x, y) <==> x == SeriesOf(y)
  {
    if Shows(x, y) {
      assert x.keys == Keys(y.labels) && x.values == Values(y.labels);
    }
  }

  lemma PlaceOfFirst(rs: seq<Option<TargetSnapshot>>, m: nat) returns (i: nat, j: nat)
    requires m < |FirstIndices(Identity, AllSamples(rs))|
    ensures FirstOfItsSeries(rs, i, j)
    ensures SampleAt(rs, i, j) == AllSamples(rs)[FirstIndices(Identity, AllSamples(rs))[m]]
  {
    var ix := FirstIndices(Identity, AllSamples(rs));
    FirstIndicesExact(Identity, AllSamples(rs));
    assert ix[m] in ix;
    i, j := SampleLocated(rs, ix[m]);
    FirstPlace(rs, i, j);
  }

  lemma PickedAt(all: seq<Sample>, ix: seq<nat>, exported: seq<Sample>, k: nat) returns (m: nat)
    requires forall a :: 0 <= a < |ix| ==> ix[a] < |all|
    requires multiset(exported) == multiset(Pick(all, ix)) && k < |exported|
    ensures m < |ix| && all[ix[m]] == exported[k]
  {
    assert exported[k] in multiset(Pick(all, ix));
    m :| 0 <= m < |ix| && Pick(all, ix)[m] == exported[k];
  }

  lemma ScrapedIsFirst(rs: seq<Option<TargetSnapshot>>, accept: Acceptor, x: Series) returns (i: nat, j: nat)
    requires Telling(AllSamples(rs)) && x in Scrape(IndexOf(rs), accept)
    ensures FirstOfItsSeries(rs, i, j) && x == SeriesOf(SampleAt(rs, i, j)) && accept(x.name, x.keys, x.values)
  {
    var all := AllSamples(rs);
    var ix := FirstIndices(Identity, all);
    ScrapeExact(rs, accept);
    EmitMember(accept, Exported(rs), x);
    var k :| 0 <= k < |Exported(rs)| && Accepts(accept, Exported(rs)[k]) && SeriesOf(Exported(rs)[k]) == x;
    var m := PickedAt(all, ix, Exported(rs), k);
    i, j := PlaceOfFirst(rs, m);
  }

  lemma FirstIsScraped(rs: seq<Option<TargetSnapshot>>, accept: Acceptor, i: nat, j: nat)
    requires Telling(AllSamples(rs)) && FirstOfItsSeries(rs, i, j) && Accepts(accept, SampleAt(rs, i, j))
    ensures SeriesOf(SampleAt(rs, i, j)) in Scrape(IndexOf(rs), accept)
  {
    var all, p, y := AllSamples(rs), Offset(rs, i) + j, SampleAt(rs, i, j);
    var ix := FirstIndices(Identity, all);
    FirstPlace(rs, i, j);
    SamplePlaced(rs, i, j);
    FirstIndicesExact(Identity, all);
    assert p in ix;
    var m :| 0 <= m < |ix| && ix[m] == p;
    assert Pick(all, ix)[m] == y;
    ScrapeExact(rs, accept);
    assert y in multiset(Exported(rs));
    EmitMember(accept, Exported(rs), SeriesOf(y));
  }

  /** A scrape shows exactly the samples that no earlier one of the same name and labels
      precedes and that are accepted, each with its own name, labels and value. */
  lemma ScrapeIff(rs: seq<Option<TargetSnapshot>>, accept: Acceptor, x: Series)
    requires Telling(AllSamples(rs))
    ensures x in Scrape(IndexOf(rs), accept) <==>
      && accept(x.name, x.keys, x.values)
      && exists i, j :: FirstOfItsSeries(rs, i, j) && Shows(x, SampleAt(rs, i, j))
  {
    if x in Scrape(IndexOf(rs), accept) {
      var i, j := ScrapedIsFirst(rs, accept, x);
      ShowsIsSeries(x, SampleAt(rs, i, j));
    }
    if i, j :| accept(x.name, x.keys, x.values) && FirstOfItsSeries(rs, i, j) && Shows(x, SampleAt(rs, i, j)) {
      ShowsIsSeries(x, SampleAt(rs, i, j));
      FirstIsScraped(rs, accept, i, j);
    }
  }

  // ---- what a gauge observes ----

  predicate InOrder(at: seq<Place>) {
    forall a, b :: 0 <= a < b < |at| ==> Before(at[a].0, at[a].1, at[b].0, at[b].1)
  }

  /** The place of index p among places that go with indices. */
  lemma PlaceOfIndex(rs: seq<Option<TargetSnapshot>>, i: nat, j: nat, k: nat, l: nat)
    requires Exists(rs, i, j) && Exists(rs, k, l) && Offset(rs, i) + j == Offset(rs, k) + l
    ensures i == k && j == l
  {
    PlacesInOrder(rs, i, j, k, l);
    PlacesInOrder(rs, k, l, i, j);
  }

  ghost predicate Indexed(rs: seq<Option<TargetSnapshot>>, ix: seq<nat>, at: seq<Place>) {
    |at| == |ix| && forall k :: 0 <= k < |at| ==>
      Exists(rs, at[k].0, at[k].1) && ix[k] == Offset(rs, at[k].0) + at[k].1
  }

  lemma PlacesOf(rs: seq<Option<TargetSnapshot>>, ix: seq<nat>) returns (at: seq<Place>)
    requires Increasing(ix) && forall k :: 0 <= k < |ix| ==> ix[k] < |AllSamples(rs)|
    ensures |at| == |ix| && InOrder(at)
    ensures Indexed(rs, ix, at)
    ensures forall k :: 0 <= k < |at| ==> SampleAt(rs, at[k].0, at[k].1) == AllSamples(rs)[ix[k]]
  {
    at := [];
    while |at| < |ix|
      invariant |at| <= |ix|
      invariant forall k :: 0 <= k < |at| ==>
        Exists(rs, at[k].0, at[k].1) && ix[k] == Offset(rs, at[k].0) + at[k].1
        && SampleAt(rs, at[k].0, at[k].1) == AllSamples(rs)[ix[k]]
      decreases |ix| - |at|
    {
      var i, j := SampleLocated(rs, ix[|at|]);
      at := at + [(i, j)];
    }
    forall a, b | 0 <= a < b < |at| ensures Before(at[a].0, at[a].1, at[b].0, at[b].1) {
      PlacesInOrder(rs, at[a].0, at[a].1, at[b].0, at[b].1);
    }
  }

  lemma PlacedNamed(rs: seq<Option<TargetSnapshot>>, n: Metric, i: nat, j: nat)
    requires Exists(rs, i, j) && Offset(rs, i) + j < |AllSamples(rs)| && AllSamples(rs)[Offset(rs, i) + j].name == n
    ensures SampleAt(rs, i, j).name == n
  {
    SamplePlaced(rs, i, j);
  }

  lemma PlaceIsNamed(rs: seq<Option<TargetSnapshot>>, n: Metric, ix: seq<nat>, at: seq<Place>, k: nat)
    requires forall p: nat :: p in ix ==> p < |AllSamples(rs)| && AllSamples(rs)[p].name == n
    requires Indexed(rs, ix, at) && k < |at|
    ensures Exists(rs, at[k].0, at[k].1) && SampleAt(rs, at[k].0, at[k].1).name == n
  {
    var p, i, j := ix[k], at[k].0, at[k].1;
    assert p in ix;
    assert Exists(rs, i, j) && p == Offset(rs, i) + j;
    PlacedNamed(rs, n, i, j);
  }

  lemma NamedHasPlace(rs: seq<Option<TargetSnapshot>>, n: Metric, ix: seq<nat>, at: seq<Place>, i: nat, j: nat)
    returns (k: nat)
    requires forall p: nat :: p < |AllSamples(rs)| && AllSamples(rs)[p].name == n ==> p in ix
    requires Indexed(rs, ix, at) && Exists(rs, i, j) && SampleAt(rs, i, j).name == n
    ensures k < |at| && at[k] == (i, j)
  {
    SamplePlaced(rs, i, j);
    k :| 0 <= k < |ix| && ix[k] == Offset(rs, i) + j;
    PlaceOfIndex(rs, at[k].0, at[k].1, i, j);
  }

  lemma PlacesComplete(rs: seq<Option<TargetSnapshot>>, n: Metric, ix: seq<nat>, at: seq<Place>, i: nat, j: nat)
    requires forall p: nat :: p in ix <==> p < |AllSamples(rs)| && AllSamples(rs)[p].name == n
    requires Indexed(rs, ix, at)
    ensures (i, j) in at <==> Exists(rs, i, j) && SampleAt(rs, i, j).name == n
  {
    if (i, j) in at {
      var k :| 0 <= k < |at| && at[k] == (i, j);
      PlaceIsNamed(rs, n, ix, at, k);
    }
    if Exists(rs, i, j) && SampleAt(rs, i, j).name == n {
      var k := NamedHasPlace(rs, n, ix, at, i, j);
    }
  }

  /** The callback of a gauge observes every sample of its name, in the order of the
      targets and of their samples, each with its own value and labels. */
  lemma ObservesExactly(rs: seq<Option<TargetSnapshot>>, n: Metric) returns (at: seq<Place>)
    ensures InOrder(at) && forall i: nat, j: nat :: (i, j) in at <==> Exists(rs, i, j) && SampleAt(rs, i, j).name == n
    ensures var os := Observations(IndexOf(rs), n);
      |os| == |at| && forall k :: 0 <= k < |os| ==>
        && Exists(rs, at[k].0, at[k].1)
        && os[k].value == SampleAt(rs, at[k].0, at[k].1).value
        && os[k].attrs == SampleAt(rs, at[k].0, at[k].1).labels
  {
    var all := AllSamples(rs);
    LookupIsFilter(rs, n);
    var ix := FilterIndices(IsNamed(n), all);
    at := PlacesOf(rs, ix);
    forall i: nat, j: nat ensures (i, j) in at <==> Exists(rs, i, j) && SampleAt(rs, i, j).name == n {
      PlacesComplete(rs, n, ix, at, i, j);
    }
  }
}
