/** A run of the exporter over many cycles: what concurrent scrapes say of the cycles
    that were published, and how the exported error counter moves. */
module Histories {
  import opened Seqs
  import opened Metrics
  import opened Models
  import opened Configs
  import opened Clients
  import opened Plans
  import opened Schedules
  import opened Snapshots
  import opened Signatures
  import opened Exports
  import opened ScrapeProperties
  import opened Requests
  import opened Pipelines
  import opened Interference
  import P = Publication

  /** One finished cycle: its targets, their plans, and how it was scheduled. */
  datatype CycleRun = CycleRun(cs: seq<ClusterConfig>, ps: seq<Plan>, limit: int, counters: seq<nat>, moves: seq<Move>)

  ghost predicate Whole(r: CycleRun) {
    && |r.cs| == |r.ps| == |r.counters| && UniqueNames(r.cs)
    && (forall i :: 0 <= i < |r.cs| ==> PlanFor(r.ps[i], r.cs[i].name))
    && Legal(r.ps, r.limit, Initial(r.counters), r.moves)
    && Finished(After(r.ps, r.limit, Initial(r.counters), r.moves))
  }

  ghost function Final(r: CycleRun): Cycle
    requires Whole(r)
  {
    After(r.ps, r.limit, Initial(r.counters), r.moves)
  }

  ghost function Outcome(r: CycleRun): seq<Option<TargetSnapshot>>
    requires Whole(r)
  {
    Results(Final(r))
  }

  lemma WholeSettled(r: CycleRun, i: nat)
    requires Whole(r) && i < |r.cs|
    ensures |Final(r)| == |r.cs| && Settled(r.ps[i], r.counters[i], Final(r)[i])
    ensures |Outcome(r)| == |r.cs| && Outcome(r)[i] == Some(Final(r)[i].phase.ts)
  {
    FinishedSettled(r.ps, r.limit, r.counters, r.moves, i);
  }

  lemma WholeLength(r: CycleRun)
    requires Whole(r)
    ensures |Final(r)| == |Outcome(r)| == |r.cs|
  {
    CycleOutcome(r.ps, r.limit, r.counters, r.moves);
  }

  // ---- the error counters in one scrape ----

  function CounterSample(name: string, errors: nat): Sample {
    MakeSample(name, RequestErrors, errors as real, [IdLabel(SelfId(name))])
  }

  lemma {:induction false} NamedOfAll(n: Metric, rs: seq<Option<TargetSnapshot>>, xs: seq<Sample>)
    requires |rs| == |xs| && forall i :: 0 <= i < |rs| ==> rs[i].Some? && Named(n, rs[i].value.samples) == [xs[i]]
    ensures Named(n, AllSamples(rs)) == xs
  {
    if rs == [] {
    } else {
      var k := |rs| - 1;
      NamedOfAll(n, rs[..k], xs[..k]);
      FilterConcat(IsNamed(n), AllSamples(rs[..k]), rs[k].value.samples);
      assert xs == xs[..k] + [xs[k]];
    }
  }

  lemma OwnCounter(r: CycleRun, i: nat)
    requires Whole(r) && i < |r.cs|
    ensures |Final(r)| == |Outcome(r)| == |r.cs| && Outcome(r)[i].Some?
    ensures Named(RequestErrors, Outcome(r)[i].value.samples) == [CounterSample(r.cs[i].name, Final(r)[i].errors)]
  {
    WholeSettled(r, i);
    var p, s := r.ps[i], Final(r)[i];
    assert PlanFor(p, r.cs[i].name);
    SelfSample(p, s.phase.merged, s.phase.elapsed, s.errors, RequestErrors);
    OneOfTail(p, s.phase.elapsed, s.errors);
  }

  lemma CounterSignature(name: string, errors: nat)
    ensures Signature(CounterSample(name, errors)) == name + [NUL] + ("cluster/" + name)
  {
    var vs := Values(CounterSample(name, errors).labels);
    assert vs == [name, SelfId(name)] && vs[1..] == [SelfId(name)];
    assert Join(vs) == vs[0] + [NUL] + Join(vs[1..]);
  }

  /** Whatever the names are: these signatures are as different as the names. */
  lemma CountersApart(c: string, d: string, m: nat, n: nat)
    requires c != d
    ensures Signature(CounterSample(c, m)) != Signature(CounterSample(d, n))
  {
    CounterSignature(c, m);
    CounterSignature(d, n);
    var x, y := c + [NUL] + ("cluster/" + c), d + [NUL] + ("cluster/" + d);
    assert |x| == 2 * |c| + 9 && |y| == 2 * |d| + 9;
    assert x[..|c|] == c && y[..|d|] == d;
  }

  /** Exactly one error counter per target, with its value at the end of the cycle. */
  lemma CountersExported(r: CycleRun, accept: Acceptor)
    requires Whole(r)
    ensures |Final(r)| == |r.cs|
    ensures ScrapeMetric(IndexOf(Outcome(r)), accept, RequestErrors)
      == Emit(accept, seq(|r.cs|, i requires 0 <= i < |r.cs| => CounterSample(r.cs[i].name, Final(r)[i].errors)))
  {
    WholeLength(r);
    var xs := seq(|r.cs|, i requires 0 <= i < |r.cs| => CounterSample(r.cs[i].name, Final(r)[i].errors));
    forall i | 0 <= i < |r.cs|
      ensures Outcome(r)[i].Some? && Named(RequestErrors, Outcome(r)[i].value.samples) == [xs[i]]
    {
      OwnCounter(r, i);
    }
    NamedOfAll(RequestErrors, Outcome(r), xs);
    LookupIsFilter(Outcome(r), RequestErrors);
    forall i, j | 0 <= i < j < |xs| ensures Signature(xs[i]) != Signature(xs[j]) {
      CountersApart(r.cs[i].name, r.cs[j].name, Final(r)[i].errors, Final(r)[j].errors);
    }
    KeepFirstDistinct(Signature, xs);
  }

  /** The series of target i's error counter, wherever a scrape has it, has that value. */
  lemma CounterValue(r: CycleRun, accept: Acceptor, i: nat, x: Series)
    requires Whole(r) && i < |r.cs| && x in Scrape(IndexOf(Outcome(r)), accept)
    requires x.name == RequestErrors && x.values == [r.cs[i].name, SelfId(r.cs[i].name)]
    ensures |Final(r)| == |r.cs| && x.value == Final(r)[i].errors as real
  {
    CountersExported(r, accept);
    FromItsMetric(Outcome(r), accept, IndexOf(Outcome(r)).names, x);
    var xs := seq(|r.cs|, k requires 0 <= k < |r.cs| => CounterSample(r.cs[k].name, Final(r)[k].errors));
    EmitMember(accept, xs, x);
    var k :| 0 <= k < |xs| && Accepts(accept, xs[k]) && SeriesOf(xs[k]) == x;
    assert Values(xs[k].labels)[0] == r.cs[k].name;
    assert k == i;
  }

  // ---- over cycles that keep the client ----

  /** b is the next cycle of the client that target i had in a. */
  ghost predicate KeepsClient(a: CycleRun, b: CycleRun, i: nat) {
    && Whole(a) && Whole(b) && i < |a.cs| && i < |b.cs| && i < |Final(a)|
    && b.cs[i].name == a.cs[i].name && b.counters[i] == Final(a)[i].errors
  }

  type History = nat -> CycleRun

  ghost predicate Kept(h: History, i: nat, v: nat, w: nat) {
    forall u :: v <= u < w ==> KeepsClient(h(u), h(u + 1), i)
  }

  /** From cycle to cycle the counter grows by the counted calls of the later one. */
  lemma CounterStep(a: CycleRun, b: CycleRun, i: nat)
    requires KeepsClient(a, b, i)
    ensures |Final(b)| == |b.cs| && Final(b)[i].errors == Final(a)[i].errors + Errors(AllCalls(b.ps[i]))
  {
    WholeSettled(b, i);
  }

  lemma {:induction false} CounterGrows(h: History, i: nat, v: nat, w: nat)
    requires v <= w && Whole(h(v)) && i < |h(v).cs| && Kept(h, i, v, w)
    ensures Whole(h(w)) && i < |h(w).cs| && h(w).cs[i].name == h(v).cs[i].name
    ensures |Final(h(v))| == |h(v).cs| && |Final(h(w))| == |h(w).cs| && Final(h(v))[i].errors <= Final(h(w))[i].errors
    decreases w
  {
    WholeLength(h(v));
    if v < w {
      assert KeepsClient(h(w - 1), h(w - 1 + 1), i);
      CounterGrows(h, i, v, w - 1);
      CounterStep(h(w - 1), h(w), i);
    }
  }

  // ---- over runs of publishers and readers ----

  /** What the publishers publish: cycle v of the history under version v. */
  ghost predicate Publishes(c: P.Content, h: History) {
    && P.StartsEmpty(c)
    && forall v :: v > 0 ==> Whole(h(v)) && c(v) == IndexOf(Outcome(h(v)))
  }

  ghost predicate FinishedScrape(c: P.Content, accept: Acceptor, s: P.State, run: seq<P.Step>, r: nat) {
    && P.Legal(c, accept, s, run)
    && r < |P.After(c, accept, s, run).readers|
    && P.After(c, accept, s, run).readers[r].Scraping?
    && P.Done(c, P.After(c, accept, s, run).readers[r])
  }

  /** A finished scrape, whatever runs beside it, shows nothing or is the scrape of one
      finished cycle, published in the run; so what holds of such a scrape holds of it:
      one series per label list, and every separated target as if it were alone. */
  lemma ScrapeOfCycle(c: P.Content, h: History, accept: Acceptor, s: P.State, run: seq<P.Step>, r: nat)
    requires Publishes(c, h) && P.Initial(s) && FinishedScrape(c, accept, s, run, r)
    ensures var v, sent := P.After(c, accept, s, run).readers[r].version, P.After(c, accept, s, run).readers[r].sent;
      && v in {0} + P.Published(c, accept, s, run)
      && (v == 0 ==> sent == [])
      && (v > 0 ==>
           && sent == Scrape(IndexOf(Outcome(h(v))), accept)
           && (Telling(AllSamples(Outcome(h(v)))) ==>
                sent == Emit(accept, Exported(Outcome(h(v)))) && DistinctSeries(sent))
           && (NamesSeparated(h(v).cs) ==> forall n, i :: LeftAlone(Outcome(h(v)), accept, n, i)))
  {
    P.EachReadIsOneSnapshot(c, accept, s, run, r);
    P.ColdStart(c, accept);
    var v := P.After(c, accept, s, run).readers[r].version;
    if v > 0 {
      ScrapeOfWhole(h(v), accept);
    }
  }

  lemma {:induction false} InAll(rs: seq<Option<TargetSnapshot>>, i: nat, x: Sample)
    requires i < |rs| && rs[i].Some? && x in rs[i].value.samples
    ensures x in AllSamples(rs)
  {
    if i == |rs| - 1 {
    } else {
      InAll(rs[..|rs| - 1], i, x);
    }
  }

  lemma TailShows(p: Plan, order: seq<nat>, elapsed: real, errors: nat, x: Sample)
    requires IsOrder(order, |p.nodes|) && x in Tail(p, elapsed, errors)
    ensures x in Samples(p, order, elapsed, errors)
  {
  }

  /** The name of a sample of a target is a name of the index. */
  lemma NameShows(rs: seq<Option<TargetSnapshot>>, i: nat, x: Sample)
    requires i < |rs| && rs[i].Some? && x in rs[i].value.samples
    ensures x.name in IndexOf(rs).names
  {
    InAll(rs, i, x);
    NamesExact(rs);
  }

  lemma TwoMembers<T>(s: seq<T>, x: T, y: T)
    requires x in s && y in s && x != y
    ensures |s| >= 2
  {
  }

  /** A cycle with a target has at least the names of its closing samples. */
  lemma TwoNamesAtLeast(r: CycleRun)
    requires Whole(r) && r.cs != []
    ensures NoDup(IndexOf(Outcome(r)).names) && |IndexOf(Outcome(r)).names| >= 2
  {
    WholeSettled(r, 0);
    var p, s, rs := r.ps[0], Final(r)[0], Outcome(r);
    var tail := Tail(p, s.phase.elapsed, s.errors);
    TailShows(p, s.phase.merged, s.phase.elapsed, s.errors, tail[0]);
    TailShows(p, s.phase.merged, s.phase.elapsed, s.errors, tail[2]);
    NameShows(rs, 0, tail[0]);
    NameShows(rs, 0, tail[2]);
    TwoMembers(IndexOf(rs).names, Up, RequestErrors);
    NamesExact(rs);
  }

  /** So for every history whose first cycle has a target, a push can observe two of its
      cycles: the gauges are those of the first, and the second is published in between. */
  lemma PushCanMix(c: P.Content, h: History, accept: Acceptor) returns (run: seq<P.Step>)
    requires Publishes(c, h) && h(1).cs != []
    ensures P.Initial(P.START) && P.Legal(c, accept, P.START, run)
    ensures var t := P.After(c, accept, P.START, run);
      && |t.readers| == 1 && t.readers[0].Pushing? && P.Done(c, t.readers[0])
      && !P.OneVersion(t.readers[0].versions)
  {
    TwoNamesAtLeast(h(1));
    run := P.MixedPush(c, accept);
    var vs := P.After(c, accept, P.START, run).readers[0].versions;
    assert vs[..2][0] == 1 && vs[..2][1] == 2;
  }

  lemma AloneInWhole(r: CycleRun, accept: Acceptor, n: Metric, i: nat)
    requires Whole(r) && NamesSeparated(r.cs)
    ensures LeftAlone(Outcome(r), accept, n, i)
  {
    WholeLength(r);
    if i < |r.cs| {
      RunDoesNotInterfere(r.cs, r.ps, r.limit, r.counters, r.moves, accept, n, i);
      ReachableResults(r.cs, r.ps, r.limit, r.counters, r.moves);
    }
  }

  lemma ScrapeOfWhole(r: CycleRun, accept: Acceptor)
    requires Whole(r)
    ensures Telling(AllSamples(Outcome(r))) ==>
      Scrape(IndexOf(Outcome(r)), accept) == Emit(accept, Exported(Outcome(r)))
      && DistinctSeries(Scrape(IndexOf(Outcome(r)), accept))
    ensures NamesSeparated(r.cs) ==> forall n, i :: LeftAlone(Outcome(r), accept, n, i)
  {
    if Telling(AllSamples(Outcome(r))) {
      ScrapeExact(Outcome(r), accept);
    }
    if NamesSeparated(r.cs) {
      forall n, i ensures LeftAlone(Outcome(r), accept, n, i) {
        AloneInWhole(r, accept, n, i);
      }
    }
  }

  /** The exported error counter never decreases while the client is kept: of two
      finished scrapes the one that loads later, however cycles and readers interleave,
      never shows a smaller value for the same target. */
  lemma CounterNeverDrops(c: P.Content, h: History, accept: Acceptor, s: P.State, run: seq<P.Step>,
                          a: nat, b: nat, r: nat, q: nat, i: nat, x: Series, y: Series)
    requires Publishes(c, h) && P.Initial(s) && |s.publishers| == 1
    requires FinishedScrape(c, accept, s, run, r) && FinishedScrape(c, accept, s, run, q)
    requires a < b < |run| && run[a] == P.Load(r) && run[b] == P.Load(q)
    requires var t := P.After(c, accept, s, run);
      && x in t.readers[r].sent && y in t.readers[q].sent && x.name == y.name == RequestErrors
      && t.readers[r].version > 0 && i < |h(t.readers[r].version).cs|
      && Kept(h, i, t.readers[r].version, t.readers[q].version)
      && var name := h(t.readers[r].version).cs[i].name;
         x.values == y.values == [name, SelfId(name)]
    ensures x.value <= y.value
  {
    var t := P.After(c, accept, s, run);
    var v, w := t.readers[r].version, t.readers[q].version;
    P.InitialForward(s);
    P.LoadOrder(c, accept, s, run, a, b, r, q);
    P.EachReadIsOneSnapshot(c, accept, s, run, r);
    P.EachReadIsOneSnapshot(c, accept, s, run, q);
    CounterGrows(h, i, v, w);
    CounterValue(h(v), accept, i, x);
    CounterValue(h(w), accept, i, y);
  }
}
