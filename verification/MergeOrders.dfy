/** Exactly when the order in which node workers merge, and so the schedule, shows in
    the values a scrape exports. */
module MergeOrders {
  import opened Seqs
  import opened Metrics
  import opened Api
  import opened Models
  import opened Configs
  import opened Nodes
  import opened Resources
  import opened Readings
  import opened Plans
  import opened Schedules
  import opened Snapshots
  import opened ScrapeProperties
  import opened Isolation
  import opened Failures
  import opened Toggles
  import opened Pipelines

  type Id = (Metric, seq<Label>)

  function OrElse<T>(a: Option<T>, b: Option<T>): Option<T> { if a.Some? then a else b }

  /** The first sample of an identity. */
  function First(k: Id, ss: seq<Sample>): Option<Sample> {
    if ss == [] then None
    else
      var x := ss[|ss| - 1];
      OrElse(First(k, ss[..|ss| - 1]), if Identity(x) == k then Some(x) else None)
  }

  lemma {:induction false} FirstConcat(k: Id, a: seq<Sample>, b: seq<Sample>)
    ensures First(k, a + b) == OrElse(First(k, a), First(k, b))
    decreases |b|
  {
    if b == [] {
      Regroup(a, [], []);
    } else {
      FirstConcat(k, a, b[..|b| - 1]);
      assert (a + b)[..|a + b| - 1] == a + b[..|b| - 1];
    }
  }

  lemma {:induction false} FirstFound(k: Id, ss: seq<Sample>)
    ensures First(k, ss).Some? <==> k in KeySet(Identity, ss)
    ensures First(k, ss).Some? ==> First(k, ss).value in ss && Identity(First(k, ss).value) == k
  {
    if ss == [] {
    } else {
      FirstFound(k, ss[..|ss| - 1]);
    }
  }

  /** A scrape keeps exactly the samples that are the first of their identity. */
  lemma {:induction false} KeptIsFirst(ss: seq<Sample>, x: Sample)
    ensures x in KeepFirst(Identity, ss) <==> First(Identity(x), ss) == Some(x)
  {
    if ss == [] {
    } else {
      var init, last := ss[..|ss| - 1], ss[|ss| - 1];
      KeptIsFirst(init, x);
      FirstFound(Identity(x), init);
      if Identity(last) == Identity(x) {
        KeepFirstKeys(Identity, init);
        KeySetMember(Identity, KeepFirst(Identity, init), Identity(x));
      }
    }
  }

  lemma KeptOnce(ss: seq<Sample>, x: Sample)
    ensures multiset(KeepFirst(Identity, ss))[x] == if First(Identity(x), ss) == Some(x) then 1 else 0
  {
    var kept := KeepFirst(Identity, ss);
    KeepFirstKeys(Identity, ss);
    assert NoDup(kept) by {
      assert forall i, j :: 0 <= i < j < |kept| && kept[i] == kept[j] ==> Identity(kept[i]) == Identity(kept[j]);
    }
    DistinctMeansOne(kept, x);
    KeptIsFirst(ss, x);
  }

  // ---- one target ----

  /** Node blocks that contain a series the prefix does not have start it alike. */
  ghost predicate Agreeing(p: Plan) {
    forall k: Id, i, j :: (
      && 0 <= i < |p.nodes| && 0 <= j < |p.nodes| && First(k, p.prefix).None?
      && First(k, p.nodes[i].block).Some? && First(k, p.nodes[j].block).Some?
      ==> First(k, p.nodes[i].block) == First(k, p.nodes[j].block))
  }

  /** The first sample of an identity in a concatenation is the first one of a list,
      and no list is passed over. */
  lemma {:induction false} FirstOfFlatten(k: Id, bs: seq<seq<Sample>>)
    ensures First(k, Flatten(bs)).Some? ==> exists i :: 0 <= i < |bs| && First(k, bs[i]) == First(k, Flatten(bs))
    ensures First(k, Flatten(bs)).None? ==> forall i :: 0 <= i < |bs| ==> First(k, bs[i]).None?
    ensures bs != [] && First(k, bs[0]).Some? ==> First(k, Flatten(bs)) == First(k, bs[0])
  {
    if bs == [] {
    } else {
      var init := bs[..|bs| - 1];
      FirstOfFlatten(k, init);
      FirstConcat(k, Flatten(init), bs[|bs| - 1]);
      if First(k, Flatten(init)).Some? {
        var i :| 0 <= i < |init| && First(k, init[i]) == First(k, Flatten(init));
        assert bs[i] == init[i];
      }
    }
  }

  function Merged(p: Plan, order: seq<nat>): seq<Sample>
    requires IsOrder(order, |p.nodes|)
  {
    Flatten(Pick(Blocks(p.nodes), order))
  }

  lemma FirstOfSamples(k: Id, p: Plan, order: seq<nat>, e: real, m: nat)
    requires IsOrder(order, |p.nodes|)
    ensures First(k, Samples(p, order, e, m))
      == OrElse(First(k, p.prefix), OrElse(First(k, Merged(p, order)), First(k, Tail(p, e, m))))
  {
    FirstConcat(k, p.prefix + Merged(p, order), Tail(p, e, m));
    FirstConcat(k, p.prefix, Merged(p, order));
  }

  /** The blocks in which a merged list has its first sample of an identity. */
  lemma FirstMerged(k: Id, p: Plan, order: seq<nat>) returns (i: nat)
    requires IsOrder(order, |p.nodes|) && First(k, Merged(p, order)).Some?
    ensures i < |p.nodes| && First(k, p.nodes[i].block) == First(k, Merged(p, order))
  {
    var bs := Pick(Blocks(p.nodes), order);
    FirstOfFlatten(k, bs);
    var j :| 0 <= j < |bs| && First(k, bs[j]) == First(k, Flatten(bs));
    i := order[j];
  }

  lemma NoneMerged(k: Id, p: Plan, order: seq<nat>, i: nat)
    requires IsOrder(order, |p.nodes|) && First(k, Merged(p, order)).None? && i < |p.nodes|
    ensures First(k, p.nodes[i].block).None?
  {
    var bs := Pick(Blocks(p.nodes), order);
    FirstOfFlatten(k, bs);
    DistinctBounded(order, |p.nodes|);
    assert i in order;
    var j :| 0 <= j < |order| && order[j] == i;
    assert bs[j] == p.nodes[i].block;
  }

  lemma AgreeingMerges(k: Id, p: Plan, a: seq<nat>, b: seq<nat>)
    requires Agreeing(p) && IsOrder(a, |p.nodes|) && IsOrder(b, |p.nodes|) && First(k, p.prefix).None?
    ensures First(k, Merged(p, a)) == First(k, Merged(p, b))
  {
    if First(k, Merged(p, a)).Some? {
      var i := FirstMerged(k, p, a);
      if First(k, Merged(p, b)).None? {
        NoneMerged(k, p, b, i);
      } else {
        var j := FirstMerged(k, p, b);
      }
    } else if First(k, Merged(p, b)).Some? {
      var j := FirstMerged(k, p, b);
      NoneMerged(k, p, a, j);
    }
  }

  /** An order that takes block i first. */
  function StartWith(n: nat, i: nat): (order: seq<nat>)
    requires i < n
    ensures IsOrder(order, n) && order[0] == i
  {
    seq(n, k => if k == 0 then i else if k == i then 0 else k)
  }

  lemma StartsWithBlock(k: Id, p: Plan, i: nat)
    requires i < |p.nodes| && First(k, p.nodes[i].block).Some?
    ensures First(k, Merged(p, StartWith(|p.nodes|, i))) == First(k, p.nodes[i].block)
  {
    FirstOfFlatten(k, Pick(Blocks(p.nodes), StartWith(|p.nodes|, i)));
  }

  /** The samples a scrape of the target alone shows, for one merge order. */
  function Shown(p: Plan, order: seq<nat>, e: real, m: nat): multiset<Sample>
    requires IsOrder(order, |p.nodes|)
  {
    multiset(KeepFirst(Identity, Samples(p, order, e, m)))
  }

  ghost predicate OrderFree(p: Plan) {
    forall a, b, e, m :: IsOrder(a, |p.nodes|) && IsOrder(b, |p.nodes|) ==> Shown(p, a, e, m) == Shown(p, b, e, m)
  }

  lemma ShownByFirst(p: Plan, a: seq<nat>, b: seq<nat>, e: real, m: nat)
    requires IsOrder(a, |p.nodes|) && IsOrder(b, |p.nodes|)
    requires forall k :: First(k, Samples(p, a, e, m)) == First(k, Samples(p, b, e, m))
    ensures Shown(p, a, e, m) == Shown(p, b, e, m)
  {
    forall x ensures Shown(p, a, e, m)[x] == Shown(p, b, e, m)[x] {
      KeptOnce(Samples(p, a, e, m), x);
      KeptOnce(Samples(p, b, e, m), x);
    }
  }

  lemma FirstByShown(p: Plan, a: seq<nat>, b: seq<nat>, e: real, m: nat, k: Id)
    requires IsOrder(a, |p.nodes|) && IsOrder(b, |p.nodes|) && Shown(p, a, e, m) == Shown(p, b, e, m)
    requires First(k, Samples(p, a, e, m)).Some?
    ensures First(k, Samples(p, b, e, m)) == First(k, Samples(p, a, e, m))
  {
    var x := First(k, Samples(p, a, e, m)).value;
    FirstFound(k, Samples(p, a, e, m));
    KeptOnce(Samples(p, a, e, m), x);
    KeptOnce(Samples(p, b, e, m), x);
  }

  /** All merge orders show the same samples exactly when, for every series the prefix
      does not have, the node blocks that have it start it with the same sample. */
  lemma OrderFreeIff(p: Plan)
    ensures OrderFree(p) <==> Agreeing(p)
  {
    if Agreeing(p) {
      forall a, b, e, m | IsOrder(a, |p.nodes|) && IsOrder(b, |p.nodes|)
        ensures Shown(p, a, e, m) == Shown(p, b, e, m) {
        forall k ensures First(k, Samples(p, a, e, m)) == First(k, Samples(p, b, e, m)) {
          AgreeingSamples(k, p, a, b, e, e, m);
        }
        ShownByFirst(p, a, b, e, m);
      }
    }
    if OrderFree(p) {
      forall k: Id, i, j | 0 <= i < |p.nodes| && 0 <= j < |p.nodes| && First(k, p.prefix).None?
        && First(k, p.nodes[i].block).Some? && First(k, p.nodes[j].block).Some?
        ensures First(k, p.nodes[i].block) == First(k, p.nodes[j].block)
      {
        var a, b := StartWith(|p.nodes|, i), StartWith(|p.nodes|, j);
        BlockShown(k, p, i, 0.0, 0);
        BlockShown(k, p, j, 0.0, 0);
        FirstByShown(p, a, b, 0.0, 0, k);
      }
    }
  }

  lemma AgreeingSamples(k: Id, p: Plan, a: seq<nat>, b: seq<nat>, e: real, f: real, m: nat)
    requires Agreeing(p) && IsOrder(a, |p.nodes|) && IsOrder(b, |p.nodes|) && (e == f || k.0 != CollectionDuration)
    ensures First(k, Samples(p, a, e, m)) == First(k, Samples(p, b, f, m))
  {
    FirstOfSamples(k, p, a, e, m);
    FirstOfSamples(k, p, b, f, m);
    TailFirst(k, p, e, f, m);
    if First(k, p.prefix).None? {
      AgreeingMerges(k, p, a, b);
    }
  }

  lemma TailFirst(k: Id, p: Plan, e: real, f: real, m: nat)
    requires e == f || k.0 != CollectionDuration
    ensures First(k, Tail(p, e, m)) == First(k, Tail(p, f, m))
  {
    var x, y := Tail(p, e, m), Tail(p, f, m);
    assert x == [x[0], x[1]] + [x[2]] && y == [y[0], y[1]] + [y[2]];
    assert x[..2][..1] == [x[0]] && y[..2][..1] == [y[0]];
    FirstConcat(k, [x[0], x[1]], [x[2]]);
    FirstConcat(k, [y[0], y[1]], [y[2]]);
    FirstConcat(k, [x[0]], [x[1]]);
    FirstConcat(k, [y[0]], [y[1]]);
    assert [x[0]] + [x[1]] == [x[0], x[1]] && [y[0]] + [y[1]] == [y[0], y[1]];
  }

  lemma BlockShown(k: Id, p: Plan, i: nat, e: real, m: nat)
    requires i < |p.nodes| && First(k, p.prefix).None? && First(k, p.nodes[i].block).Some?
    ensures First(k, Samples(p, StartWith(|p.nodes|, i), e, m)) == First(k, p.nodes[i].block)
  {
    FirstOfSamples(k, p, StartWith(|p.nodes|, i), e, m);
    StartsWithBlock(k, p, i);
  }

  // ---- every merge order can happen ----

  /** Target i's steps so far can still lead to the given merge order. */
  ghost predicate OnTheWay(s: Proc, order: seq<nat>) {
    match s.phase
    case Fanned(_, done) => done <= order
    case Returned(_, merged, _) => merged == order
    case _ => true
  }

  /** The step that leads there: start all workers, then run them in that order. */
  lemma NextStep(p: Plan, limit: int, e0: nat, s: Proc, order: seq<nat>) returns (a: Step)
    requires limit <= 0 && Schedules.Ok(p, e0, s) && IsOrder(order, |p.nodes|) && OnTheWay(s, order)
    requires !s.phase.Waiting? && !s.phase.Returned?
    ensures Enabled(p, limit, s, a) && OnTheWay(Apply(p, limit, s, a), order)
  {
    if s.phase.Heading? {
      return if s.phase.made < |p.head| then Call else Fork;
    }
    var ws, done := s.phase.workers, s.phase.order;
    if n :| 0 <= n < |ws| && ws[n].Idle? {
      var j := FirstIdle(ws, n);
      return Spawn(j);
    }
    if |done| < |order| {
      var j := order[|done|];
      NotYetMerged(ws, done, order);
      return if ws[j].made < |p.nodes[j].calls| then NodeCall(j) else Merge(j);
    }
    assert done == order;
    DistinctBounded(order, |p.nodes|);
    return Return(0.0);
  }

  lemma NotYetMerged(ws: seq<Worker>, done: seq<nat>, order: seq<nat>)
    requires MergedSoFar(ws, done) && IsOrder(order, |ws|) && done <= order && |done| < |order|
    ensures !ws[order[|done|]].Merged?
  {
    assert order[|done|] !in done by {
      assert forall k :: 0 <= k < |done| ==> done[k] == order[k];
    }
  }

  lemma NextMove(ps: seq<Plan>, limit: int, counters: seq<nat>, s: Cycle, i: nat, order: seq<nat>) returns (m: Move)
    requires limit <= 0 && AllOk(ps, counters, s) && !Finished(s)
    requires i < |ps| && IsOrder(order, |ps[i].nodes|) && OnTheWay(s[i], order)
    ensures CanMove(ps, limit, s, m) && OnTheWay(Do(ps, limit, s, m)[i], order)
  {
    if s[i].phase.Waiting? {
      var k := FirstWaiting(s, i);
      return Start(k);
    }
    if !s[i].phase.Returned? {
      var a := NextStep(ps[i], limit, counters[i], s[i], order);
      return Work(i, a);
    }
    m := NoDeadlock(ps, limit, counters, s);
  }

  /** Without a limit, every merge order of every target happens in some cycle. */
  lemma {:induction false} OrderHappens(ps: seq<Plan>, limit: int, counters: seq<nat>, s: Cycle,
    i: nat, order: seq<nat>)
    returns (moves: seq<Move>)
    requires limit <= 0 && AllOk(ps, counters, s)
    requires i < |ps| && IsOrder(order, |ps[i].nodes|) && OnTheWay(s[i], order)
    ensures Legal(ps, limit, s, moves)
    ensures var t := After(ps, limit, s, moves);
      Finished(t) && |t| == |ps| && t[i].phase.Returned? && t[i].phase.merged == order
    decreases Sum(TotalLeft(ps, counters, s))
  {
    if Finished(s) {
      moves := [];
    } else {
      var m := NextMove(ps, limit, counters, s, i, order);
      MoveOk(ps, limit, counters, s, m);
      var rest := OrderHappens(ps, limit, counters, Do(ps, limit, s, m), i, order);
      moves := [m] + rest;
      assert moves[1..] == rest;
    }
  }

  // ---- whole cycles ----

  /** What a scrape exports, the elapsed times aside. */
  function TimelessExport(rs: seq<Option<TargetSnapshot>>): multiset<Sample> {
    multiset(Filter(IsTimeless(), Exported(rs)))
  }

  lemma ExportedOnce(rs: seq<Option<TargetSnapshot>>, x: Sample)
    ensures TimelessExport(rs)[x] ==
      if x.name != CollectionDuration && First(Identity(x), AllSamples(rs)) == Some(x) then 1 else 0
  {
    FilterMultiset(IsTimeless(), Exported(rs), x);
    ExportedCount(rs);
    KeptOnce(AllSamples(rs), x);
  }

  lemma {:induction false} FirstOfAll(k: Id, rs: seq<Option<TargetSnapshot>>, ss: seq<Option<TargetSnapshot>>)
    requires |rs| == |ss|
    requires forall i :: (0 <= i < |rs| ==>
      rs[i].Some? && ss[i].Some? && First(k, rs[i].value.samples) == First(k, ss[i].value.samples))
    ensures First(k, AllSamples(rs)) == First(k, AllSamples(ss))
  {
    if rs == [] {
    } else {
      var n := |rs| - 1;
      FirstOfAll(k, rs[..n], ss[..n]);
      FirstConcat(k, AllSamples(rs[..n]), rs[n].value.samples);
      FirstConcat(k, AllSamples(ss[..n]), ss[n].value.samples);
    }
  }

  /** Two runs of the same plans from the same counters, both finished. */
  ghost predicate Twice(ps: seq<Plan>, counters: seq<nat>, limit: int, moves: seq<Move>,
    limit': int, moves': seq<Move>) {
    && |ps| == |counters|
    && Legal(ps, limit, Initial(counters), moves) && Finished(After(ps, limit, Initial(counters), moves))
    && Legal(ps, limit', Initial(counters), moves') && Finished(After(ps, limit', Initial(counters), moves'))
  }

  ghost predicate SameExport(ps: seq<Plan>, counters: seq<nat>, limit: int, moves: seq<Move>,
    limit': int, moves': seq<Move>) {
    Twice(ps, counters, limit, moves, limit', moves') ==>
      TimelessExport(Results(After(ps, limit, Initial(counters), moves)))
      == TimelessExport(Results(After(ps, limit', Initial(counters), moves')))
  }

  /** No schedule, under any limit, shows in what is exported, elapsed times aside. */
  ghost predicate ScheduleFree(ps: seq<Plan>, counters: seq<nat>) {
    forall limit, moves, limit', moves' :: SameExport(ps, counters, limit, moves, limit', moves')
  }

  lemma AgreeingTarget(k: Id, p: Plan, e0: nat, s: Proc, u: Proc)
    requires Agreeing(p) && Settled(p, e0, s) && Settled(p, e0, u) && k.0 != CollectionDuration
    ensures First(k, s.phase.ts.samples) == First(k, u.phase.ts.samples)
  {
    AgreeingSamples(k, p, s.phase.merged, u.phase.merged, s.phase.elapsed, u.phase.elapsed, s.errors);
  }

  lemma AgreeingRuns(ps: seq<Plan>, counters: seq<nat>, limit: int, moves: seq<Move>, limit': int, moves': seq<Move>)
    requires Twice(ps, counters, limit, moves, limit', moves') && forall i :: 0 <= i < |ps| ==> Agreeing(ps[i])
    ensures SameExport(ps, counters, limit, moves, limit', moves')
  {
    var t, u := After(ps, limit, Initial(counters), moves), After(ps, limit', Initial(counters), moves');
    var rs, ss := Results(t), Results(u);
    CycleOutcome(ps, limit, counters, moves);
    CycleOutcome(ps, limit', counters, moves');
    forall x ensures TimelessExport(rs)[x] == TimelessExport(ss)[x] {
      ExportedOnce(rs, x);
      ExportedOnce(ss, x);
      if x.name != CollectionDuration {
        forall i | 0 <= i < |rs| ensures
          rs[i].Some? && ss[i].Some?
            && First(Identity(x), rs[i].value.samples) == First(Identity(x), ss[i].value.samples)
        {
          FinishedSettled(ps, limit, counters, moves, i);
          FinishedSettled(ps, limit', counters, moves', i);
          AgreeingTarget(Identity(x), ps[i], counters[i], t[i], u[i]);
        }
        FirstOfAll(Identity(x), rs, ss);
      }
    }
  }

  // A target's own series is found among its own samples only.

  lemma {:induction false} FirstIsOwn(k: Id, c: string, rs: seq<Option<TargetSnapshot>>, i: nat)
    requires ResultsOk(rs) && NamesDistinct(rs) && i < |rs| && rs[i].Some? && rs[i].value.cluster == c
    requires |k.1| > 0 && k.1[0].value == c
    ensures First(k, AllSamples(rs)) == First(k, rs[i].value.samples)
  {
    var init, r := rs[..|rs| - 1], rs[|rs| - 1];
    var last := if r.Some? then r.value.samples else [];
    assert AllSamples(rs) == AllSamples(init) + last;
    FirstConcat(k, AllSamples(init), last);
    if i == |init| {
      forall j | 0 <= j < |init| && init[j].Some? ensures init[j].value.cluster != c {
        assert Distinct(rs[j], rs[i]);
      }
      NotOf(init, c);
      NoneWithout(k, c, AllSamples(init));
    } else {
      FirstIsOwn(k, c, init, i);
      assert Distinct(rs[i], r);
      FilterNone(IsOf(c), last);
      NoneWithout(k, c, last);
    }
  }

  lemma NoneWithout(k: Id, c: string, ss: seq<Sample>)
    requires |k.1| > 0 && k.1[0].value == c && Filter(IsOf(c), ss) == []
    ensures First(k, ss).None?
  {
    FirstFound(k, ss);
    if First(k, ss).Some? {
      FilterMember(IsOf(c), ss, First(k, ss).value);
    }
  }

  lemma {:induction false} BlockIdentity(c: string, ss: seq<Sample>, k: Id)
    requires AllCollected(c, ss) && First(k, ss).Some?
    ensures |k.1| > 0 && k.1[0].value == c && k.0 != CollectionDuration
  {
    FirstFound(k, ss);
  }

  lemma OrderShows(cs: seq<ClusterConfig>, ps: seq<Plan>, counters: seq<nat>, i: nat, order: seq<nat>, b: nat, k: Id)
    returns (moves: seq<Move>)
    requires UniqueNames(cs) && |cs| == |ps| == |counters| && i < |ps| && b < |ps[i].nodes|
    requires forall j :: 0 <= j < |cs| ==> PlanFor(ps[j], cs[j].name)
    requires First(k, ps[i].prefix).None? && First(k, ps[i].nodes[b].block).Some?
    requires order == StartWith(|ps[i].nodes|, b)
    ensures Legal(ps, 0, Initial(counters), moves) && Finished(After(ps, 0, Initial(counters), moves))
    ensures First(k, AllSamples(Results(After(ps, 0, Initial(counters), moves)))) == First(k, ps[i].nodes[b].block)
  {
    InitialOk(ps, counters);
    moves := OrderHappens(ps, 0, counters, Initial(counters), i, order);
    var t := After(ps, 0, Initial(counters), moves);
    FinishedSettled(ps, 0, counters, moves, i);
    ReachableResults(cs, ps, 0, counters, moves);
    assert PlanFor(ps[i], cs[i].name);
    BlockIdentity(cs[i].name, ps[i].nodes[b].block, k);
    ResultsDistinct(cs, Results(t));
    FirstIsOwn(k, cs[i].name, Results(t), i);
    BlockShown(k, ps[i], b, t[i].phase.elapsed, t[i].errors);
  }

  lemma ExportTells(k: Id, rs: seq<Option<TargetSnapshot>>, ss: seq<Option<TargetSnapshot>>)
    requires TimelessExport(rs) == TimelessExport(ss) && k.0 != CollectionDuration && First(k, AllSamples(rs)).Some?
    ensures First(k, AllSamples(ss)) == First(k, AllSamples(rs))
  {
    var x := First(k, AllSamples(rs)).value;
    FirstFound(k, AllSamples(rs));
    ExportedOnce(rs, x);
    ExportedOnce(ss, x);
  }

  lemma FreeAgrees(cs: seq<ClusterConfig>, ps: seq<Plan>, counters: seq<nat>, i: nat)
    requires UniqueNames(cs) && |cs| == |ps| == |counters| && i < |ps| && ScheduleFree(ps, counters)
    requires forall j :: 0 <= j < |cs| ==> PlanFor(ps[j], cs[j].name)
    ensures Agreeing(ps[i])
  {
    var p := ps[i];
    assert PlanFor(p, cs[i].name);
    forall k: Id, a, b | 0 <= a < |p.nodes| && 0 <= b < |p.nodes| && First(k, p.prefix).None?
      && First(k, p.nodes[a].block).Some? && First(k, p.nodes[b].block).Some?
      ensures First(k, p.nodes[a].block) == First(k, p.nodes[b].block)
    {
      var moves := OrderShows(cs, ps, counters, i, StartWith(|p.nodes|, a), a, k);
      var moves' := OrderShows(cs, ps, counters, i, StartWith(|p.nodes|, b), b, k);
      assert SameExport(ps, counters, 0, moves, 0, moves');
      BlockIdentity(cs[i].name, p.nodes[a].block, k);
      ExportTells(k, Results(After(ps, 0, Initial(counters), moves)), Results(After(ps, 0, Initial(counters), moves')));
    }
  }

  /** When the schedule shows in exported values, exactly: for uniquely named targets
      and fixed answers, all finished cycles, under all limits and interleavings, export
      the same samples, elapsed times aside, if and only if the node workers of every
      target agree on the first sample of each series the target's prefix does not have. */
  lemma ScheduleFreeIff(cs: seq<ClusterConfig>, ps: seq<Plan>, counters: seq<nat>)
    requires UniqueNames(cs) && |cs| == |ps| == |counters|
    requires forall i :: 0 <= i < |cs| ==> PlanFor(ps[i], cs[i].name)
    ensures ScheduleFree(ps, counters) <==> forall i :: 0 <= i < |ps| ==> Agreeing(ps[i])
  {
    if forall i :: 0 <= i < |ps| ==> Agreeing(ps[i]) {
      forall limit, moves, limit', moves' ensures SameExport(ps, counters, limit, moves, limit', moves') {
        if Twice(ps, counters, limit, moves, limit', moves') {
          AgreeingRuns(ps, counters, limit, moves, limit', moves');
        }
      }
    }
    if ScheduleFree(ps, counters) {
      forall i | 0 <= i < |ps| ensures Agreeing(ps[i]) {
        FreeAgrees(cs, ps, counters, i);
      }
    }
  }

  // ---- answers for which it shows ----

  const JOB := ReplicationJob("j", "local", "a", "b", None)

  function LastRun(duration: real): Answer {
    Response(STATUS_OK, Data(JobStatus(ReplicationStatus(Some(duration), None, None, None, None))))
  }

  /** Two nodes list the same replication job, each with a duration of its own. */
  function TwoReports(): Pve {
    (path: string) =>
      if path == RESOURCES_PATH then Response(STATUS_OK, Data(Payload.Resources(TWO_NODES)))
      else if path == ReplicationPath("a") || path == ReplicationPath("b") then Response(STATUS_OK, Data(Jobs([JOB])))
      else if path == JobStatusPath("a", "j") then LastRun(1.0)
      else if path == JobStatusPath("b", "j") then LastRun(2.0)
      else TransportError
  }

  function Duration(c: string, v: real): Sample { MakeSample(c, ReplDuration, v, [IdLabel("j")]) }

  lemma TwoReportsAnswers()
    ensures TwoReports()(ReplicationPath("a")) == TwoReports()(ReplicationPath("b"))
      == Response(STATUS_OK, Data(Jobs([JOB])))
    ensures TwoReports()(JobStatusPath("a", "j")) == LastRun(1.0)
      && TwoReports()(JobStatusPath("b", "j")) == LastRun(2.0)
  {
    assert RESOURCES_PATH[1] == 'c' && ReplicationPath("a")[1] == ReplicationPath("b")[1] == 'n';
    assert JobStatusPath("a", "j")[1] == JobStatusPath("b", "j")[1] == 'n';
    assert |JobStatusPath("a", "j")| == |JobStatusPath("b", "j")| != |ReplicationPath("a")| == |ReplicationPath("b")|;
    assert JobStatusPath("a", "j")[7] == 'a' && JobStatusPath("b", "j")[7] == 'b';
  }

  lemma OneDuration(c: string, v: real)
    ensures JobStatusSamples(c, "j", ReplicationStatus(Some(v), None, None, None, None)) == [Duration(c, v)]
  {
  }

  lemma OneJob(c: string, pve: Pve, node: string, j: ReplicationJob)
    ensures JobsSamples(c, pve, node, [j]) == JobSamples(c, pve, node, j)
  {
    assert [j][..0] == [];
    Regroup(JobSamples(c, pve, node, j), [], []);
  }

  lemma ReportedSamples(c: string, pve: Pve, node: string, v: real)
    requires pve(ReplicationPath(node))
      == Response(STATUS_OK, Data(Jobs([JOB]))) && pve(JobStatusPath(node, "j")) == LastRun(v)
    ensures ReplicationSamples(c, pve, node) == [JobInfoSample(c, JOB)] + [Duration(c, v)]
  {
    OneDuration(c, v);
    OneJob(c, pve, node, JOB);
    assert ListedJobs(pve, node) == Some([JOB]);
  }

  lemma FirstOfThree(k: Id, x: seq<Sample>, y: seq<Sample>, z: seq<Sample>)
    requires First(k, x).Some?
    ensures First(k, [] + x + y + z) == First(k, x)
  {
    Regroup(x, [], []);
    FirstConcat(k, x, y);
    FirstConcat(k, x + y, z);
  }

  lemma ReportedFirst(c: string, v: real)
    ensures First(Identity(Duration(c, v)), [JobInfoSample(c, JOB)] + [Duration(c, v)]) == Some(Duration(c, v))
  {
    FirstConcat(Identity(Duration(c, v)), [JobInfoSample(c, JOB)], [Duration(c, v)]);
  }

  lemma ReportedBlock(c: string, pve: Pve, node: string, v: real)
    requires pve(ReplicationPath(node))
      == Response(STATUS_OK, Data(Jobs([JOB]))) && pve(JobStatusPath(node, "j")) == LastRun(v)
    ensures First(Identity(Duration(c, v)), NodeBlock(c, UNSET, pve, node)) == Some(Duration(c, v))
  {
    ReportedSamples(c, pve, node, v);
    ReportedFirst(c, v);
    FirstOfThree(Identity(Duration(c, v)), ReplicationSamples(c, pve, node), SubscriptionSamples(c, pve, node),
                 OnbootSamples(c, pve, node, GUEST_TYPES));
  }

  lemma UnnamedFirst(k: Id, ss: seq<Sample>)
    requires Named(k.0, ss) == []
    ensures First(k, ss).None?
  {
    FirstFound(k, ss);
    if First(k, ss).Some? {
      FilterMember(IsNamed(k.0), ss, First(k, ss).value);
    }
  }

  const TWO_NODES := [BareNode("node/a", "a"), BareNode("node/b", "b")]

  lemma TwoReportsRows()
    ensures AsResources(ReplyOf(TwoReports()(RESOURCES_PATH))) == Some(TWO_NODES)
  {
  }

  lemma NoDurations(c: string)
    ensures Named(ReplDuration, ResourceSamples(c, TWO_NODES)) == []
  {
    assert forall i :: 0 <= i < 2 ==> Reading(TWO_NODES[i], ReplDuration).None?;
    NoReading(c, TWO_NODES, ReplDuration);
  }

  lemma NotInPrefix(c: string, k: Id)
    requires k.0 == ReplDuration
    ensures First(k, PlanOf(c, UNSET, TwoReports()).prefix).None?
  {
    TwoReportsRows();
    PlanPrefix(c, UNSET, TwoReports(), TWO_NODES);
    QuietPrefix(c, TWO_NODES);
    NoDurations(c);
    UnnamedFirst(k, ResourceSamples(c, TWO_NODES));
  }

  lemma NotThere(path: string)
    requires |path| > 1 && path[1] != 'n' && path != RESOURCES_PATH
    ensures TwoReports()(path) == TransportError
  {
    assert ReplicationPath("a")[1] == ReplicationPath("b")[1] == 'n';
    assert JobStatusPath("a", "j")[1] == JobStatusPath("b", "j")[1] == 'n';
  }

  lemma QuietPrefix(c: string, rows: seq<ClusterResource>)
    ensures Prefix(c, UNSET, TwoReports(), rows) == ResourceSamples(c, rows)
  {
    assert |RESOURCES_PATH| == 18 && |STATUS_PATH| == 15 && |VERSION_PATH| == 8 && |QDEVICE_PATH| == 23;
    assert |BACKUP_PATH| == 34 && |HA_PATH| == 26;
    NotThere(STATUS_PATH);
    NotThere(VERSION_PATH);
    NotThere(QDEVICE_PATH);
    NotThere(BACKUP_PATH);
    NotThere(HA_PATH);
    Regroup(ResourceSamples(c, rows), [], []);
  }

  lemma Disagreeing(p: Plan, k: Id)
    requires |p.nodes| == 2 && First(k, p.prefix).None?
    requires First(k, p.nodes[0].block).Some? && First(k, p.nodes[1].block).Some?
    requires First(k, p.nodes[0].block) != First(k, p.nodes[1].block)
    ensures !Agreeing(p)
  {
  }

  /** A target whose exported values depend on the schedule: whichever node's worker
      merges first decides the duration exported for the job. */
  lemma TwoReportsDisagree(c: string)
    ensures !Agreeing(PlanOf(c, UNSET, TwoReports()))
  {
    TwoReportsAnswers();
    ReportedBlock(c, TwoReports(), "a", 1.0);
    ReportedBlock(c, TwoReports(), "b", 2.0);
    NotInPrefix(c, Identity(Duration(c, 1.0)));
    TwoWorkers(c);
    Disagreeing(PlanOf(c, UNSET, TwoReports()), Identity(Duration(c, 1.0)));
  }

  lemma TwoNames()
    ensures NodeNames(TWO_NODES) == ["a", "b"]
  {
    var rows := TWO_NODES;
    assert rows[..1] == [rows[0]] && [rows[0]][..0] == [];
    assert NodeNames([rows[0]]) == ["a"];
    assert ["a"] + ["b"] == ["a", "b"];
  }

  lemma PlanNodes(c: string, pve: Pve, rows: seq<ClusterResource>)
    requires AsResources(ReplyOf(pve(RESOURCES_PATH))) == Some(rows)
    ensures PlanOf(c, UNSET, pve).nodes == NodePlans(c, UNSET, pve, NodeNames(rows))
  {
  }

  lemma TwoWorkers(c: string)
    ensures var p := PlanOf(c, UNSET, TwoReports());
      && |p.nodes| == 2
      && p.nodes[0].block == NodeBlock(c, UNSET, TwoReports(), "a")
      && p.nodes[1].block == NodeBlock(c, UNSET, TwoReports(), "b")
  {
    TwoReportsRows();
    TwoNames();
    PlanNodes(c, TwoReports(), TWO_NODES);
  }

  /** So for that target some two finished cycles export different values. */
  lemma ScheduleShows(cfg: ClusterConfig)
    ensures !ScheduleFree([PlanOf(cfg.name, UNSET, TwoReports())], [0])
  {
    PlanOfConforms(cfg.name, UNSET, TwoReports());
    TwoReportsDisagree(cfg.name);
    OneDisagrees(cfg, PlanOf(cfg.name, UNSET, TwoReports()));
  }

  lemma OneDisagrees(cfg: ClusterConfig, p: Plan)
    requires PlanFor(p, cfg.name) && !Agreeing(p)
    ensures !ScheduleFree([p], [0])
  {
    ScheduleFreeIff([cfg], [p], [0]);
    assert [p][0] == p;
  }
}
