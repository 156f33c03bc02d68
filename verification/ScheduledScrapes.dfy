/** The results of MergeOrders, said of scrapes: exactly when the schedule of a cycle shows
    in the values a scrape of it exports. */
module ScheduledScrapes {
  import opened Seqs
  import opened Metrics
  import opened Api
  import opened Models
  import opened Configs
  import opened Plans
  import opened Schedules
  import opened Snapshots
  import opened Signatures
  import opened Exports
  import opened ScrapeProperties
  import opened Failures
  import opened Toggles
  import opened Pipelines
  import opened NulFreedom
  import opened MergeOrders

  function IsTimelessSeries(): Series -> bool { (x: Series) => x.name != CollectionDuration }

  /** A scrape, the elapsed times aside. */
  function TimelessScrape(rs: seq<Option<TargetSnapshot>>, accept: Acceptor): multiset<Series> {
    multiset(Filter(IsTimelessSeries(), Scrape(IndexOf(rs), accept)))
  }

  // ---- from exported samples to series and back ----

  lemma {:induction false} EmitTimeless(accept: Acceptor, ss: seq<Sample>)
    ensures Filter(IsTimelessSeries(), Emit(accept, ss)) == Emit(accept, Filter(IsTimeless(), ss))
  {
    if ss == [] {
    } else {
      var init, x := ss[..|ss| - 1], ss[|ss| - 1];
      var last := if Accepts(accept, x) then [SeriesOf(x)] else [];
      EmitTimeless(accept, init);
      FilterConcat(IsTimelessSeries(), Emit(accept, init), last);
      EmitConcat(accept, Filter(IsTimeless(), init), if IsTimeless()(x) then [x] else []);
      assert Emit(accept, [x]) == last by {
        assert [x][..0] == [];
      }
    }
  }

  lemma SeriesTells(x: Sample, y: Sample)
    requires SeriesOf(x) == SeriesOf(y)
    ensures x == y
  {
    SameKeysAndValues(x.labels, y.labels);
  }

  lemma {:induction false} EmitCount(accept: Acceptor, ss: seq<Sample>, x: Sample)
    ensures multiset(Emit(accept, ss))[SeriesOf(x)] == if Accepts(accept, x) then multiset(ss)[x] else 0
  {
    if ss == [] {
    } else {
      var init, last := ss[..|ss| - 1], ss[|ss| - 1];
      EmitCount(accept, init, x);
      assert ss == init + [last];
      if SeriesOf(x) == SeriesOf(last) {
        SeriesTells(x, last);
      }
    }
  }

  lemma EmitSame(accept: Acceptor, a: seq<Sample>, b: seq<Sample>)
    requires multiset(a) == multiset(b)
    ensures multiset(Emit(accept, a)) == multiset(Emit(accept, b))
  {
    forall y ensures multiset(Emit(accept, a))[y] == multiset(Emit(accept, b))[y] {
      EmitMember(accept, a, y);
      EmitMember(accept, b, y);
      if i :| 0 <= i < |a| && Accepts(accept, a[i]) && SeriesOf(a[i]) == y {
        EmitCount(accept, a, a[i]);
        EmitCount(accept, b, a[i]);
      } else if i :| 0 <= i < |b| && Accepts(accept, b[i]) && SeriesOf(b[i]) == y {
        EmitCount(accept, a, b[i]);
        EmitCount(accept, b, b[i]);
      }
    }
  }

  /** A scrape of which every series is accepted tells the samples. */
  lemma EmitTells(a: seq<Sample>, b: seq<Sample>)
    requires multiset(Emit(Anything(), a)) == multiset(Emit(Anything(), b))
    ensures multiset(a) == multiset(b)
  {
    forall x ensures multiset(a)[x] == multiset(b)[x] {
      EmitCount(Anything(), a, x);
      EmitCount(Anything(), b, x);
    }
  }

  lemma ScrapeOfExport(rs: seq<Option<TargetSnapshot>>, accept: Acceptor)
    requires Telling(AllSamples(rs))
    ensures TimelessScrape(rs, accept) == multiset(Emit(accept, Filter(IsTimeless(), Exported(rs))))
  {
    ScrapeExact(rs, accept);
    EmitTimeless(accept, Exported(rs));
  }

  ghost predicate ScrapedAlike(rs: seq<Option<TargetSnapshot>>, ss: seq<Option<TargetSnapshot>>) {
    forall accept :: TimelessScrape(rs, accept) == TimelessScrape(ss, accept)
  }

  lemma ScrapedAlikeIff(rs: seq<Option<TargetSnapshot>>, ss: seq<Option<TargetSnapshot>>)
    requires Telling(AllSamples(rs)) && Telling(AllSamples(ss))
    ensures ScrapedAlike(rs, ss) <==> TimelessExport(rs) == TimelessExport(ss)
  {
    var a, b := Filter(IsTimeless(), Exported(rs)), Filter(IsTimeless(), Exported(ss));
    if TimelessExport(rs) == TimelessExport(ss) {
      forall accept ensures TimelessScrape(rs, accept) == TimelessScrape(ss, accept) {
        ScrapeOfExport(rs, accept);
        ScrapeOfExport(ss, accept);
        EmitSame(accept, a, b);
      }
    }
    if ScrapedAlike(rs, ss) {
      ScrapeOfExport(rs, Anything());
      ScrapeOfExport(ss, Anything());
      assert TimelessScrape(rs, Anything()) == TimelessScrape(ss, Anything());
      EmitTells(a, b);
    }
  }

  // ---- whole cycles ----

  ghost predicate SameScrapes(ps: seq<Plan>, counters: seq<nat>, limit: int, moves: seq<Move>,
    limit': int, moves': seq<Move>) {
    Twice(ps, counters, limit, moves, limit', moves') ==>
      ScrapedAlike(Results(After(ps, limit, Initial(counters), moves)),
                   Results(After(ps, limit', Initial(counters), moves')))
  }

  /** Scrapes of all finished cycles are the same, under all limits and schedules, whatever
      the client library accepts, elapsed times aside. */
  ghost predicate ScrapesFree(ps: seq<Plan>, counters: seq<nat>) {
    forall limit, moves, limit', moves' :: SameScrapes(ps, counters, limit, moves, limit', moves')
  }

  ghost predicate TellingCycle(ps: seq<Plan>, counters: seq<nat>, limit: int, moves: seq<Move>) {
    |ps| == |counters| && Legal(ps, limit, Initial(counters), moves) ==>
      Telling(AllSamples(Results(After(ps, limit, Initial(counters), moves))))
  }

  /** Signatures tell label lists apart in every cycle. */
  ghost predicate AlwaysTelling(ps: seq<Plan>, counters: seq<nat>) {
    forall limit, moves :: TellingCycle(ps, counters, limit, moves)
  }

  lemma SameScrapesIff(ps: seq<Plan>, counters: seq<nat>, limit: int, moves: seq<Move>,
                       limit': int, moves': seq<Move>)
    requires AlwaysTelling(ps, counters)
    ensures SameScrapes(ps, counters, limit, moves, limit', moves')
      <==> SameExport(ps, counters, limit, moves, limit', moves')
  {
    if Twice(ps, counters, limit, moves, limit', moves') {
      assert TellingCycle(ps, counters, limit, moves) && TellingCycle(ps, counters, limit', moves');
      ScrapedAlikeIff(Results(After(ps, limit, Initial(counters), moves)),
                      Results(After(ps, limit', Initial(counters), moves')));
    }
  }

  /** When the schedule shows in a scrape, exactly, where signatures tell label lists
      apart: when some target's node workers disagree on the first sample of a series
      that its prefix does not have. */
  lemma ScrapesFreeIff(cs: seq<ClusterConfig>, ps: seq<Plan>, counters: seq<nat>)
    requires UniqueNames(cs) && |cs| == |ps| == |counters| && AlwaysTelling(ps, counters)
    requires forall i :: 0 <= i < |cs| ==> PlanFor(ps[i], cs[i].name)
    ensures ScrapesFree(ps, counters) <==> forall i :: 0 <= i < |ps| ==> Agreeing(ps[i])
  {
    ScheduleFreeIff(cs, ps, counters);
    if ScheduleFree(ps, counters) {
      forall limit, moves, limit', moves' ensures SameScrapes(ps, counters, limit, moves, limit', moves') {
        assert SameExport(ps, counters, limit, moves, limit', moves');
        SameScrapesIff(ps, counters, limit, moves, limit', moves');
      }
    }
    if ScrapesFree(ps, counters) {
      forall limit, moves, limit', moves' ensures SameExport(ps, counters, limit, moves, limit', moves') {
        assert SameScrapes(ps, counters, limit, moves, limit', moves');
        SameScrapesIff(ps, counters, limit, moves, limit', moves');
      }
    }
  }

  // ---- from names and answers ----

  ghost predicate AllNulFreeNames(cs: seq<ClusterConfig>) {
    forall i :: 0 <= i < |cs| ==> NulFree(cs[i].name)
  }

  lemma FreeAlwaysTells(cs: seq<ClusterConfig>, t: CollectorToggles, pves: seq<Pve>, counters: seq<nat>)
    requires |cs| == |pves| == |counters| && AllNulFreeNames(cs)
    requires forall i :: 0 <= i < |pves| ==> FreeServer(pves[i])
    ensures AlwaysTelling(PlansFor(cs, t, pves), counters)
  {
    var ps, names := PlansFor(cs, t, pves), seq(|cs|, i requires 0 <= i < |cs| => cs[i].name);
    forall limit, moves ensures TellingCycle(ps, counters, limit, moves) {
      if Legal(ps, limit, Initial(counters), moves) {
        FreeCycleTells(names, t, pves, ps, limit, counters, moves);
      }
    }
  }

  /** From the answers: with no NUL in a name or an answer, scrapes do not depend on the
      schedule exactly when the node workers of every target agree. */
  lemma FreeScrapesIff(cs: seq<ClusterConfig>, t: CollectorToggles, pves: seq<Pve>, counters: seq<nat>)
    requires UniqueNames(cs) && |cs| == |pves| == |counters| && AllNulFreeNames(cs)
    requires forall i :: 0 <= i < |pves| ==> FreeServer(pves[i])
    ensures ScrapesFree(PlansFor(cs, t, pves), counters)
      <==> forall i :: 0 <= i < |cs| ==> Agreeing(PlansFor(cs, t, pves)[i])
  {
    FreeAlwaysTells(cs, t, pves, counters);
    PlansForConform(cs, t, pves);
    ScrapesFreeIff(cs, PlansFor(cs, t, pves), counters);
  }

  lemma TwoReportsFree()
    ensures FreeServer(TwoReports())
  {
    forall path ensures FreeAnswer(TwoReports()(path)) {
      ReportIsFree(path);
    }
  }

  lemma RowsAreFree()
    ensures FreePayload(Payload.Resources(TWO_NODES)) && FreePayload(Jobs([JOB]))
  {
    assert forall i :: 0 <= i < |TWO_NODES| ==> FreeRow(TWO_NODES[i]);
    assert FreeJob(JOB);
  }

  lemma ReportIsFree(path: string)
    ensures FreeAnswer(TwoReports()(path))
  {
    var a, rows, jobs := TwoReports()(path), Payload.Resources(TWO_NODES), Jobs([JOB]);
    assert a == Response(STATUS_OK, Data(rows)) || a == Response(STATUS_OK, Data(jobs))
      || a == LastRun(1.0) || a == LastRun(2.0) || a == TransportError;
    RowsAreFree();
  }

  lemma OnePlan(cfg: ClusterConfig, t: CollectorToggles, pve: Pve)
    ensures PlansFor([cfg], t, [pve]) == [PlanOf(cfg.name, t, pve)]
  {
  }

  lemma OneDisagreeing(cfg: ClusterConfig, t: CollectorToggles, pve: Pve, p: Plan)
    requires NulFree(cfg.name) && FreeServer(pve) && PlansFor([cfg], t, [pve]) == [p] && !Agreeing(p)
    ensures !ScrapesFree([p], [0])
  {
    FreeScrapesIff([cfg], t, [pve], [0]);
    assert PlansFor([cfg], t, [pve])[0] == p;
  }

  /** It does show: for the two nodes that report one job differently, two finished cycles
      are scraped differently. */
  lemma ScrapesDiffer(cfg: ClusterConfig)
    requires NulFree(cfg.name)
    ensures !ScrapesFree(PlansFor([cfg], UNSET, [TwoReports()]), [0])
  {
    TwoReportsFree();
    TwoReportsDisagree(cfg.name);
    OnePlan(cfg, UNSET, TwoReports());
    OneDisagreeing(cfg, UNSET, TwoReports(), PlanOf(cfg.name, UNSET, TwoReports()));
  }
}
