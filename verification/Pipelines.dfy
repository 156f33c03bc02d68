/** From the configuration file to the scrape: the results about configuration,
    collection, index and export, put together. */
module Pipelines {
  import opened Seqs
  import opened Metrics
  import opened Api
  import opened Models
  import opened Configs
  import opened SafeConfigs
  import opened Plans
  import opened Schedules
  import opened Snapshots
  import opened Signatures
  import opened Exports
  import opened ScrapeProperties
  import opened Isolation

  /** No target's name is another one's followed by a NUL and more. */
  predicate NamesSeparated(cs: seq<ClusterConfig>) {
    forall i, j :: 0 <= i < j < |cs| ==> Separated(cs[i].name, cs[j].name)
  }

  lemma ExtensionHasNul(c: string, d: string)
    requires c + [NUL] <= d
    ensures !NulFree(d)
  {
    assert d[|c|] == NUL;
  }

  lemma NulFreeSeparated(c: string, d: string)
    requires NulFree(c) && NulFree(d)
    ensures Separated(c, d)
  {
    if c + [NUL] <= d {
      ExtensionHasNul(c, d);
    }
    if d + [NUL] <= c {
      ExtensionHasNul(d, c);
    }
  }

  // ---- results in every reachable state of a cycle ----

  /** A plan of the named target, with nothing in it that does not conform. */
  ghost predicate PlanFor(p: Plan, name: string) {
    p.name == name && PlanConforms(p)
  }

  lemma PlansForConform(cs: seq<ClusterConfig>, t: CollectorToggles, pves: seq<Pve>)
    requires |pves| == |cs|
    ensures forall i :: 0 <= i < |cs| ==> PlanFor(PlansFor(cs, t, pves)[i], cs[i].name)
  {
    forall i | 0 <= i < |cs| ensures PlanFor(PlansFor(cs, t, pves)[i], cs[i].name) {
      PlanOfConforms(cs[i].name, t, pves[i]);
    }
  }

  lemma SettledResult(p: Plan, name: string, e0: nat, s: Proc)
    requires PlanFor(p, name) && Settled(p, e0, s)
    ensures ResultOk(Some(s.phase.ts)) && s.phase.ts.cluster == name
  {
    Schema(p, s.phase.merged, s.phase.elapsed, s.errors);
  }

  /** Whatever has been collected so far conforms to its own target. */
  lemma ReachableResults(cs: seq<ClusterConfig>, ps: seq<Plan>, limit: int, counters: seq<nat>, moves: seq<Move>)
    requires |ps| == |counters| == |cs| && Legal(ps, limit, Initial(counters), moves)
    requires forall i :: 0 <= i < |cs| ==> PlanFor(ps[i], cs[i].name)
    ensures var rs := Results(After(ps, limit, Initial(counters), moves));
      && |rs| == |cs|
      && forall i :: 0 <= i < |rs| ==> ResultOk(rs[i]) && (rs[i].Some? ==> rs[i].value.cluster == cs[i].name)
  {
    CycleOutcome(ps, limit, counters, moves);
    var t := After(ps, limit, Initial(counters), moves);
    forall i | 0 <= i < |t|
      ensures ResultOk(Results(t)[i]) && (Results(t)[i].Some? ==> Results(t)[i].value.cluster == cs[i].name)
    {
      if Results(t)[i].Some? {
        SettledResult(ps[i], cs[i].name, counters[i], t[i]);
      }
    }
  }

  lemma FinishedSettled(ps: seq<Plan>, limit: int, counters: seq<nat>, moves: seq<Move>, i: nat)
    requires |ps| == |counters| && i < |ps| && Legal(ps, limit, Initial(counters), moves)
    requires Finished(After(ps, limit, Initial(counters), moves))
    ensures var t := After(ps, limit, Initial(counters), moves);
      |t| == |ps| && Settled(ps[i], counters[i], t[i]) && Results(t)[i] == Some(t[i].phase.ts)
  {
    CycleOutcome(ps, limit, counters, moves);
    var t := After(ps, limit, Initial(counters), moves);
    assert t[i].phase.Returned?;
    assert Results(t)[i].Some?;
  }

  lemma ResultsDistinct(cs: seq<ClusterConfig>, rs: seq<Option<TargetSnapshot>>)
    requires UniqueNames(cs) && |rs| == |cs|
    requires forall i :: 0 <= i < |rs| && rs[i].Some? ==> rs[i].value.cluster == cs[i].name
    ensures NamesDistinct(rs)
  {
  }

  lemma ResultsApart(cs: seq<ClusterConfig>, rs: seq<Option<TargetSnapshot>>)
    requires UniqueNames(cs) && NamesSeparated(cs) && |rs| == |cs|
    requires forall i :: 0 <= i < |rs| && rs[i].Some? ==> rs[i].value.cluster == cs[i].name
    ensures NamesApart(rs)
  {
  }

  /** If the configuration loaded and no name extends another one by a NUL, no sample of
      one target is ever dropped for one of another: under every schedule, whatever any
      API answered, each finished target keeps its entry in the index, and its series in
      a scrape are those of a scrape of that target alone. */
  lemma LoadedTargetsDoNotInterfere(file: ConfigFile, w: World, t: CollectorToggles, pves: seq<Pve>,
                                    limit: int, counters: seq<nat>, moves: seq<Move>,
                                    accept: Acceptor, n: Metric, i: nat)
    requires Load(file, w).Loads? && NamesSeparated(Load(file, w).data.clusters)
    requires |pves| == |counters| == |Load(file, w).data.clusters|
    requires Legal(PlansFor(Load(file, w).data.clusters, t, pves), limit, Initial(counters), moves)
    requires i < |Load(file, w).data.clusters|
    ensures var cs := Load(file, w).data.clusters;
      var rs := Results(After(PlansFor(cs, t, pves), limit, Initial(counters), moves));
      && |rs| == |cs|
      && (rs[i].Some? ==>
           && cs[i].name in IndexOf(rs).perTarget && IndexOf(rs).perTarget[cs[i].name] == rs[i].value
           && Filter(SeriesIsOf(cs[i].name), ScrapeMetric(IndexOf(rs), accept, n))
              == ScrapeMetric(IndexOf([rs[i]]), accept, n))
  {
    var cs := Load(file, w).data.clusters;
    LoadedTargets(file, w, i);
    PlansForConform(cs, t, pves);
    RunDoesNotInterfere(cs, PlansFor(cs, t, pves), limit, counters, moves, accept, n, i);
  }

  lemma RunDoesNotInterfere(cs: seq<ClusterConfig>, ps: seq<Plan>, limit: int, counters: seq<nat>, moves: seq<Move>,
                            accept: Acceptor, n: Metric, i: nat)
    requires |ps| == |counters| == |cs| && Legal(ps, limit, Initial(counters), moves) && i < |cs|
    requires forall k :: 0 <= k < |cs| ==> PlanFor(ps[k], cs[k].name)
    requires UniqueNames(cs) && NamesSeparated(cs)
    ensures var rs := Results(After(ps, limit, Initial(counters), moves));
      && |rs| == |cs|
      && (rs[i].Some? ==>
           && cs[i].name in IndexOf(rs).perTarget && IndexOf(rs).perTarget[cs[i].name] == rs[i].value
           && Filter(SeriesIsOf(cs[i].name), ScrapeMetric(IndexOf(rs), accept, n))
              == ScrapeMetric(IndexOf([rs[i]]), accept, n))
  {
    var rs := Results(After(ps, limit, Initial(counters), moves));
    ReachableResults(cs, ps, limit, counters, moves);
    ResultsApart(cs, rs);
    PerTargetExact(rs);
    if rs[i].Some? {
      NonInterference(rs, accept, n, i);
    }
  }

  // ---- the schedule cannot be seen in the exported series ----

  lemma {:induction false} KeySetConcat(a: seq<Sample>, b: seq<Sample>)
    ensures KeySet(Identity, a + b) == KeySet(Identity, a) + KeySet(Identity, b)
    decreases |b|
  {
    if b == [] {
      Regroup(a, [], []);
    } else {
      KeySetConcat(a, b[..|b| - 1]);
      assert (a + b)[..|a + b| - 1] == a + b[..|b| - 1];
    }
  }

  lemma SameIdentities(a: seq<Sample>, b: seq<Sample>)
    requires multiset(a) == multiset(b)
    ensures KeySet(Identity, a) == KeySet(Identity, b)
  {
    forall k ensures k in KeySet(Identity, a) <==> k in KeySet(Identity, b) {
      SameKeySet(Identity, a, b, k);
      SameKeySet(Identity, b, a, k);
    }
  }

  lemma TailIdentities(p: Plan, e: real, f: real, m: nat, n: nat)
    ensures KeySet(Identity, Tail(p, e, m)) == KeySet(Identity, Tail(p, f, n))
  {
    var x, y := Tail(p, e, m), Tail(p, f, n);
    assert forall i :: 0 <= i < 3 ==> Identity(x[i]) == Identity(y[i]);
    forall k ensures k in KeySet(Identity, x) <==> k in KeySet(Identity, y) {
      KeySetMember(Identity, x, k);
      KeySetMember(Identity, y, k);
    }
  }

  /** Neither the merge order, nor the elapsed time, nor the counter shows in which
      series a target's result has. */
  lemma ResultIdentities(p: Plan, a: seq<nat>, b: seq<nat>, e: real, f: real, m: nat, n: nat)
    requires IsOrder(a, |p.nodes|) && IsOrder(b, |p.nodes|)
    ensures KeySet(Identity, Samples(p, a, e, m)) == KeySet(Identity, Samples(p, b, f, n))
  {
    var x, y := p.prefix + Flatten(Pick(Blocks(p.nodes), a)), p.prefix + Flatten(Pick(Blocks(p.nodes), b));
    PermutedFlatten(Blocks(p.nodes), a);
    PermutedFlatten(Blocks(p.nodes), b);
    SameIdentities(x, y);
    KeySetConcat(x, Tail(p, e, m));
    KeySetConcat(y, Tail(p, f, n));
    TailIdentities(p, e, f, m, n);
  }

  ghost predicate SameSeries(r: Option<TargetSnapshot>, s: Option<TargetSnapshot>) {
    && r.Some? && s.Some?
    && KeySet(Identity, r.value.samples) == KeySet(Identity, s.value.samples)
  }

  lemma {:induction false} AllSameSeries(rs: seq<Option<TargetSnapshot>>, ss: seq<Option<TargetSnapshot>>)
    requires |rs| == |ss| && forall i :: 0 <= i < |rs| ==> SameSeries(rs[i], ss[i])
    ensures KeySet(Identity, AllSamples(rs)) == KeySet(Identity, AllSamples(ss))
  {
    if rs == [] {
    } else {
      var n := |rs| - 1;
      AllSameSeries(rs[..n], ss[..n]);
      assert SameSeries(rs[n], ss[n]);
      KeySetConcat(AllSamples(rs[..n]), rs[n].value.samples);
      KeySetConcat(AllSamples(ss[..n]), ss[n].value.samples);
    }
  }

  lemma TellingByIdentity(a: seq<Sample>, b: seq<Sample>)
    requires Telling(a) && KeySet(Identity, a) == KeySet(Identity, b)
    ensures Telling(b)
  {
    forall i, j | 0 <= i < |b| && 0 <= j < |b| && b[i].name == b[j].name && Signature(b[i]) == Signature(b[j])
      ensures b[i].labels == b[j].labels
    {
      var k := SameIdentityIn(a, b, i);
      var l := SameIdentityIn(a, b, j);
      assert Signature(a[k]) == Signature(b[i]) && Signature(a[l]) == Signature(b[j]);
    }
  }

  lemma SameIdentityIn(a: seq<Sample>, b: seq<Sample>, i: nat) returns (k: nat)
    requires KeySet(Identity, a) == KeySet(Identity, b) && i < |b|
    ensures k < |a| && Identity(a[k]) == Identity(b[i])
  {
    KeySetMember(Identity, b, Identity(b[i]));
    KeySetMember(Identity, a, Identity(b[i]));
    k :| 0 <= k < |a| && Identity(a[k]) == Identity(b[i]);
  }

  lemma FinishedSameSeries(ps: seq<Plan>, limit: int, counters: seq<nat>, moves: seq<Move>,
                      limit': int, counters': seq<nat>, moves': seq<Move>, i: nat)
    requires |ps| == |counters| == |counters'| && i < |ps|
    requires Legal(ps, limit, Initial(counters), moves) && Legal(ps, limit', Initial(counters'), moves')
    requires Finished(After(ps, limit, Initial(counters), moves))
      && Finished(After(ps, limit', Initial(counters'), moves'))
    ensures var rs, ss := Results(After(ps, limit, Initial(counters), moves)),
      Results(After(ps, limit', Initial(counters'), moves'));
      |rs| == |ss| == |ps| && SameSeries(rs[i], ss[i])
  {
    CycleOutcome(ps, limit, counters, moves);
    CycleOutcome(ps, limit', counters', moves');
    var t, u := After(ps, limit, Initial(counters), moves), After(ps, limit', Initial(counters'), moves');
    assert t[i].phase.Returned? && u[i].phase.Returned?;
    assert Results(t)[i].Some? && Results(u)[i].Some?;
    ResultIdentities(ps[i], t[i].phase.merged, u[i].phase.merged, t[i].phase.elapsed, u[i].phase.elapsed,
                     t[i].errors, u[i].errors);
  }

  /** Two finished cycles with the same answers, under any two limits, schedules and
      earlier counters, export the same series, names and labels, each once, where
      signatures tell label lists apart. Only values can differ: elapsed times, counters,
      and series that two nodes of a target report with different values (MergeOrders
      says exactly when these do). */
  lemma ScheduleInvisible(ps: seq<Plan>, limit: int, counters: seq<nat>, moves: seq<Move>,
                          limit': int, counters': seq<nat>, moves': seq<Move>,
                          accept: Acceptor, name: Metric, labels: seq<Label>)
    requires |ps| == |counters| == |counters'|
    requires Legal(ps, limit, Initial(counters), moves) && Legal(ps, limit', Initial(counters'), moves')
    requires Finished(After(ps, limit, Initial(counters), moves))
      && Finished(After(ps, limit', Initial(counters'), moves'))
    requires Telling(AllSamples(Results(After(ps, limit, Initial(counters), moves))))
    ensures Has(Scrape(IndexOf(Results(After(ps, limit, Initial(counters), moves))), accept), name, labels)
      <==> Has(Scrape(IndexOf(Results(After(ps, limit', Initial(counters'), moves'))), accept), name, labels)
  {
    var rs := Results(After(ps, limit, Initial(counters), moves));
    var ss := Results(After(ps, limit', Initial(counters'), moves'));
    CycleOutcome(ps, limit, counters, moves);
    CycleOutcome(ps, limit', counters', moves');
    forall i | 0 <= i < |ps| ensures SameSeries(rs[i], ss[i]) {
      FinishedSameSeries(ps, limit, counters, moves, limit', counters', moves', i);
    }
    AllSameSeries(rs, ss);
    TellingByIdentity(AllSamples(rs), AllSamples(ss));
    ScrapeComplete(rs, accept, name, labels);
    ScrapeComplete(ss, accept, name, labels);
  }
}
