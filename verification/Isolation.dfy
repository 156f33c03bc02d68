/** Targets do not interfere in the export: what a scrape says about one target
    is what it would say if that target were alone. */
module Isolation {
  import opened Seqs
  import opened Metrics
  import opened Plans
  import opened Snapshots
  import opened Signatures
  import opened Exports

  function IsOf(c: string): Sample -> bool { (s: Sample) => |s.labels| > 0 && s.labels[0].value == c }

  function SeriesIsOf(c: string): Series -> bool { (x: Series) => |x.values| > 0 && x.values[0] == c }

  predicate ResultOk(r: Option<TargetSnapshot>) {
    r.Some? ==> AllConform(r.value.cluster, r.value.samples)
  }

  predicate ResultsOk(rs: seq<Option<TargetSnapshot>>) {
    forall i :: 0 <= i < |rs| ==> ResultOk(rs[i])
  }

  predicate Distinct(a: Option<TargetSnapshot>, b: Option<TargetSnapshot>) {
    a.Some? && b.Some? ==> a.value.cluster != b.value.cluster
  }

  /** Target names are unique. */
  predicate NamesDistinct(rs: seq<Option<TargetSnapshot>>) {
    forall i, j :: 0 <= i < j < |rs| ==> Distinct(rs[i], rs[j])
  }

  predicate Apart(a: Option<TargetSnapshot>, b: Option<TargetSnapshot>) {
    Distinct(a, b) && (a.Some? && b.Some? ==> Separated(a.value.cluster, b.value.cluster))
  }

  /** Target names are unique, and none extends another one by a NUL. */
  predicate NamesApart(rs: seq<Option<TargetSnapshot>>) {
    forall i, j :: 0 <= i < j < |rs| ==> Apart(rs[i], rs[j])
  }

  lemma {:induction false} NotOf(rs: seq<Option<TargetSnapshot>>, c: string)
    requires ResultsOk(rs) && forall i :: 0 <= i < |rs| && rs[i].Some? ==> rs[i].value.cluster != c
    ensures Filter(IsOf(c), AllSamples(rs)) == []
  {
    if rs == [] {
    } else {
      var init, r := rs[..|rs| - 1], rs[|rs| - 1];
      NotOf(init, c);
      if r.Some? {
        FilterConcat(IsOf(c), AllSamples(init), r.value.samples);
        FilterNone(IsOf(c), r.value.samples);
      } else {
        Regroup(AllSamples(init), [], []);
      }
    }
  }

  /** Under unique names a target's samples are the ones that carry its name. */
  lemma {:induction false} OwnSamples(rs: seq<Option<TargetSnapshot>>, i: nat)
    requires ResultsOk(rs) && NamesDistinct(rs) && i < |rs| && rs[i].Some?
    ensures Filter(IsOf(rs[i].value.cluster), AllSamples(rs)) == rs[i].value.samples
  {
    var c, init, r := rs[i].value.cluster, rs[..|rs| - 1], rs[|rs| - 1];
    var last := if r.Some? then r.value.samples else [];
    FilterConcat(IsOf(c), AllSamples(init), last);
    if i == |init| {
      forall k | 0 <= k < |init| && init[k].Some? ensures init[k].value.cluster != c {
        assert Distinct(rs[k], rs[i]);
      }
      NotOf(init, c);
      FilterAll(IsOf(c), last);
    } else {
      OwnSamples(init, i);
      assert Distinct(rs[i], r);
      FilterNone(IsOf(c), last);
    }
  }

  /** Every sample comes from some target, and conforms to it. */
  lemma {:induction false} FromTarget(rs: seq<Option<TargetSnapshot>>, k: nat) returns (i: nat)
    requires ResultsOk(rs) && k < |AllSamples(rs)|
    ensures i < |rs| && rs[i].Some? && Conforms(rs[i].value.cluster, AllSamples(rs)[k])
  {
    var init := rs[..|rs| - 1];
    if k < |AllSamples(init)| {
      i := FromTarget(init, k);
    } else {
      i := |init|;
    }
  }

  lemma ApartOrSame(rs: seq<Option<TargetSnapshot>>, i: nat, j: nat)
    requires NamesApart(rs) && i < |rs| && j < |rs| && rs[i].Some? && rs[j].Some?
    ensures var c, d := rs[i].value.cluster, rs[j].value.cluster;
      i == j || (c != d && Separated(c, d))
  {
  }

  /** A shared signature means a shared target. */
  lemma SharedTarget(rs: seq<Option<TargetSnapshot>>, c: string, x: Sample, y: Sample)
    requires ResultsOk(rs) && NamesApart(rs) && x in AllSamples(rs) && y in AllSamples(rs)
    requires Signature(x) == Signature(y)
    ensures IsOf(c)(x) == IsOf(c)(y)
  {
    var k :| 0 <= k < |AllSamples(rs)| && AllSamples(rs)[k] == x;
    var l :| 0 <= l < |AllSamples(rs)| && AllSamples(rs)[l] == y;
    var i := FromTarget(rs, k);
    var j := FromTarget(rs, l);
    ApartOrSame(rs, i, j);
    SignatureStart(rs[i].value.cluster, x);
    SignatureStart(rs[j].value.cluster, y);
    PrefixesCompare(rs[i].value.cluster, rs[j].value.cluster, Signature(x));
  }

  lemma {:induction false} EmitFilter(accept: Acceptor, c: string, ss: seq<Sample>)
    ensures Filter(SeriesIsOf(c), Emit(accept, ss)) == Emit(accept, Filter(IsOf(c), ss))
  {
    if ss == [] {
    } else {
      var init, s := ss[..|ss| - 1], ss[|ss| - 1];
      EmitFilter(accept, c, init);
      var e, f := Emit(accept, init), Filter(IsOf(c), init);
      Regroup(e, [], []);
      Regroup(f, [], []);
      FilterSnoc(SeriesIsOf(c), e, SeriesOf(s));
      assert (f + [s])[..|f|] == f;
      Regroup(Emit(accept, f), [], []);
    }
  }

  lemma OneTarget(t: TargetSnapshot)
    ensures AllSamples([Some(t)]) == t.samples
  {
    assert [Some(t)][..0] == [];
    Regroup(t.samples, [], []);
  }

  lemma FirstsOfTarget(rs: seq<Option<TargetSnapshot>>, n: Metric, i: nat)
    requires ResultsOk(rs) && NamesApart(rs) && i < |rs| && rs[i].Some?
    ensures var of := IsOf(rs[i].value.cluster);
      Filter(of, KeepFirst(Signature, Named(n, AllSamples(rs)))) == KeepFirst(Signature, Named(n, rs[i].value.samples))
  {
    var c, all := rs[i].value.cluster, AllSamples(rs);
    var group := Named(n, all);
    forall k, l | 0 <= k < |group| && 0 <= l < |group| && Signature(group[k]) == Signature(group[l])
      ensures IsOf(c)(group[k]) == IsOf(c)(group[l])
    {
      FilterMember(IsNamed(n), all, group[k]);
      FilterMember(IsNamed(n), all, group[l]);
      SharedTarget(rs, c, group[k], group[l]);
    }
    KeepFirstFilter(Signature, IsOf(c), group);
    FilterCommutes(IsOf(c), IsNamed(n), all);
    assert NamesDistinct(rs) by {
      assert forall k, l :: 0 <= k < l < |rs| ==> Apart(rs[k], rs[l]);
    }
    OwnSamples(rs, i);
  }

  /** Cross-target non-interference: for any answers of any target, the series of
      target i in a scrape are exactly those of a scrape of target i alone. */
  lemma NonInterference(rs: seq<Option<TargetSnapshot>>, accept: Acceptor, n: Metric, i: nat)
    requires ResultsOk(rs) && NamesApart(rs) && i < |rs| && rs[i].Some?
    ensures Filter(SeriesIsOf(rs[i].value.cluster), ScrapeMetric(IndexOf(rs), accept, n))
         == ScrapeMetric(IndexOf([rs[i]]), accept, n)
  {
    LookupIsFilter(rs, n);
    LookupIsFilter([rs[i]], n);
    OneTarget(rs[i].value);
    FirstsOfTarget(rs, n, i);
    EmitFilter(accept, rs[i].value.cluster, KeepFirst(Signature, Named(n, AllSamples(rs))));
  }
}
