/** Exactly when targets leave each other's series alone: for which configured names,
    over all answers and schedules. */
module Interference {
  import opened Seqs
  import opened Metrics
  import opened Api
  import opened Models
  import opened Configs
  import opened EnvExpand
  import opened Secrets
  import opened SafeConfigs
  import opened Resources
  import opened Readings
  import opened Plans
  import opened Schedules
  import opened Snapshots
  import opened Signatures
  import opened Exports
  import opened ScrapeProperties
  import opened Isolation
  import opened Pipelines
  import opened Toggles

  /** The series of target i in a scrape are those of a scrape of it alone. */
  ghost predicate LeftAlone(rs: seq<Option<TargetSnapshot>>, accept: Acceptor, n: Metric, i: nat) {
    i < |rs| && rs[i].Some? ==>
      Filter(SeriesIsOf(rs[i].value.cluster), ScrapeMetric(IndexOf(rs), accept, n))
      == ScrapeMetric(IndexOf([rs[i]]), accept, n)
  }

  /** A scrape lacks a series of target i that a scrape of it alone has. */
  ghost predicate Loses(rs: seq<Option<TargetSnapshot>>, n: Metric, i: nat) {
    && i < |rs| && rs[i].Some?
    && exists x: Series :: (
       && x in ScrapeMetric(IndexOf([rs[i]]), Anything(), n)
       && x !in Filter(SeriesIsOf(rs[i].value.cluster), ScrapeMetric(IndexOf(rs), Anything(), n)))
  }

  ghost predicate AloneIn(cs: seq<ClusterConfig>, t: CollectorToggles, pves: seq<Pve>, limit: int, counters: seq<nat>,
                          moves: seq<Move>, accept: Acceptor, n: Metric, i: nat) {
    |pves| == |counters| == |cs| && Legal(PlansFor(cs, t, pves), limit, Initial(counters), moves) ==>
      LeftAlone(Results(After(PlansFor(cs, t, pves), limit, Initial(counters), moves)), accept, n, i)
  }

  /** In every reachable state of every cycle, whatever the APIs answer. */
  ghost predicate Undisturbed(cs: seq<ClusterConfig>) {
    forall t, pves, limit, counters, moves, accept, n, i :: AloneIn(cs, t, pves, limit, counters, moves, accept, n, i)
  }

  // ---- a shared signature shows in the scrape ----

  /** What is kept for a key that occurs in a comes from a. */
  lemma {:induction false} KeptFromFront<T, K>(key: T -> K, a: seq<T>, b: seq<T>, x: T)
    requires x in KeepFirst(key, a + b) && key(x) in KeySet(key, a)
    ensures x in a
    decreases |b|
  {
    if b == [] {
      Regroup(a, [], []);
      KeepFirstKeys(key, a);
    } else {
      var init, last := b[..|b| - 1], b[|b| - 1];
      assert (a + b)[..|a + b| - 1] == a + init;
      assert (a + b)[|a + b| - 1] == last;
      FrontKeys(key, a, init, key(x));
      if x in KeepFirst(key, a + init) {
        KeptFromFront(key, a, init, x);
      } else {
        KeepFirstKeys(key, a + init);
      }
    }
  }

  lemma {:induction false} FrontKeys<T, K>(key: T -> K, a: seq<T>, b: seq<T>, k: K)
    requires k in KeySet(key, a)
    ensures k in KeySet(key, a + b)
  {
    KeySetMember(key, a, k);
    KeySetMember(key, a + b, k);
    var i :| 0 <= i < |a| && key(a[i]) == k;
    assert (a + b)[i] == a[i];
  }

  function SamplesIn(r: Option<TargetSnapshot>): seq<Sample> {
    match r case None => [] case Some(t) => t.samples
  }

  lemma OneMoreResult(rs: seq<Option<TargetSnapshot>>, r: Option<TargetSnapshot>)
    ensures AllSamples(rs + [r]) == AllSamples(rs) + SamplesIn(r)
  {
    assert (rs + [r])[..|rs|] == rs;
  }

  lemma {:induction false} AllSamplesConcat(a: seq<Option<TargetSnapshot>>, b: seq<Option<TargetSnapshot>>)
    ensures AllSamples(a + b) == AllSamples(a) + AllSamples(b)
    decreases |b|
  {
    if b == [] {
      Regroup(a, [], []);
      Regroup(AllSamples(a), [], []);
    } else {
      AllSamplesConcat(a, b[..|b| - 1]);
      OneMoreResult(a + b[..|b| - 1], b[|b| - 1]);
      OneMoreResult(b[..|b| - 1], b[|b| - 1]);
      assert a + b == a + b[..|b| - 1] + [b[|b| - 1]] && b == b[..|b| - 1] + [b[|b| - 1]];
      Regroup(AllSamples(a), AllSamples(b[..|b| - 1]), SamplesIn(b[|b| - 1]));
    }
  }

  /** A key of a target's samples is one of all samples up to that target. */
  lemma UpToTarget(rs: seq<Option<TargetSnapshot>>, i: nat, sig: string)
    requires i < |rs| && rs[i].Some? && sig in KeySet(Signature, Named(Up, rs[i].value.samples))
    ensures sig in KeySet(Signature, Named(Up, AllSamples(rs[..i + 1])))
  {
    var own, upTo := rs[i].value.samples, AllSamples(rs[..i + 1]);
    assert rs[..i + 1][..i] == rs[..i];
    KeySetMember(Signature, Named(Up, own), sig);
    KeySetMember(Signature, Named(Up, upTo), sig);
    var k :| 0 <= k < |Named(Up, own)| && Signature(Named(Up, own)[k]) == sig;
    var x := Named(Up, own)[k];
    FilterMember(IsNamed(Up), own, x);
    FilterMember(IsNamed(Up), upTo, x);
  }

  /** A kept sample of target i's signature was collected no later than target i. */
  lemma KeptUpTo(rs: seq<Option<TargetSnapshot>>, i: nat, x: Sample)
    requires i < |rs| && rs[i].Some? && Signature(x) in KeySet(Signature, Named(Up, rs[i].value.samples))
    requires x in KeepFirst(Signature, Named(Up, AllSamples(rs)))
    ensures x in AllSamples(rs[..i + 1])
  {
    var front, back := AllSamples(rs[..i + 1]), AllSamples(rs[i + 1..]);
    SplitNamed(rs, i + 1);
    UpToTarget(rs, i, Signature(x));
    KeptFromFront(Signature, Named(Up, front), Named(Up, back), x);
    FilterMember(IsNamed(Up), front, x);
  }

  lemma SplitNamed(rs: seq<Option<TargetSnapshot>>, k: nat)
    requires k <= |rs|
    ensures Named(Up, AllSamples(rs)) == Named(Up, AllSamples(rs[..k])) + Named(Up, AllSamples(rs[k..]))
  {
    assert rs == rs[..k] + rs[k..];
    AllSamplesConcat(rs[..k], rs[k..]);
    FilterConcat(IsNamed(Up), AllSamples(rs[..k]), AllSamples(rs[k..]));
  }

  /** So it is none of a later target. */
  lemma NotOfLater(rs: seq<Option<TargetSnapshot>>, i: nat, j: nat, x: Sample)
    requires ResultsOk(rs) && NamesDistinct(rs) && i < j < |rs| && rs[i].Some? && rs[j].Some?
    requires x in AllSamples(rs[..i + 1])
    ensures !IsOf(rs[j].value.cluster)(x)
  {
    var front := AllSamples(rs[..i + 1]);
    var p :| 0 <= p < |front| && front[p] == x;
    var k := FromTarget(rs[..i + 1], p);
    assert Distinct(rs[k], rs[j]);
  }

  lemma AloneHas(t: TargetSnapshot, sig: string) returns (x: Sample)
    requires sig in KeySet(Signature, Named(Up, t.samples))
    ensures Signature(x) == sig && SeriesOf(x) in ScrapeMetric(IndexOf([Some(t)]), Anything(), Up)
  {
    var alone := KeepFirst(Signature, Named(Up, t.samples));
    LookupIsFilter([Some(t)], Up);
    OneTarget(t);
    KeepFirstKeys(Signature, Named(Up, t.samples));
    KeySetMember(Signature, alone, sig);
    var k :| 0 <= k < |alone| && Signature(alone[k]) == sig;
    x := alone[k];
    EmitMember(Anything(), alone, SeriesOf(x));
  }

  lemma TogetherLacks(rs: seq<Option<TargetSnapshot>>, i: nat, j: nat, x: Sample)
    requires ResultsOk(rs) && NamesDistinct(rs) && i < j < |rs| && rs[i].Some? && rs[j].Some?
    requires Signature(x) in KeySet(Signature, Named(Up, rs[i].value.samples))
    ensures SeriesOf(x) !in Filter(SeriesIsOf(rs[j].value.cluster), ScrapeMetric(IndexOf(rs), Anything(), Up))
  {
    var c, kept := rs[j].value.cluster, KeepFirst(Signature, Named(Up, AllSamples(rs)));
    var shown := Filter(IsOf(c), kept);
    LookupIsFilter(rs, Up);
    EmitFilter(Anything(), c, kept);
    EmitMember(Anything(), shown, SeriesOf(x));
    forall p | 0 <= p < |shown| ensures SeriesOf(shown[p]) != SeriesOf(x) {
      FilterMember(IsOf(c), kept, shown[p]);
      if Signature(shown[p]) == Signature(x) {
        KeptUpTo(rs, i, shown[p]);
        NotOfLater(rs, i, j, shown[p]);
      }
    }
  }

  /** When two targets share a signature, a scrape of both loses a series that a scrape
      of the later one has. */
  lemma LaterLoses(rs: seq<Option<TargetSnapshot>>, i: nat, j: nat, sig: string)
    requires ResultsOk(rs) && NamesDistinct(rs) && i < j < |rs| && rs[i].Some? && rs[j].Some?
    requires sig in KeySet(Signature, Named(Up, rs[i].value.samples))
    requires sig in KeySet(Signature, Named(Up, rs[j].value.samples))
    ensures Loses(rs, Up, j)
  {
    var x := AloneHas(rs[j].value, sig);
    TogetherLacks(rs, i, j, x);
  }

  // ---- answers that bring it about ----

  /** A server that lists one node and answers nothing else. */
  function OneNode(id: string): Pve {
    (path: string) => if path == RESOURCES_PATH then Response(STATUS_OK, Data(Payload.Resources([BareNode(id, "pve")])))
      else TransportError
  }

  function Silent(): Pve { (path: string) => TransportError }

  lemma InSamples(p: Plan, order: seq<nat>, elapsed: real, errors: nat, x: Sample)
    requires IsOrder(order, |p.nodes|) && (x in p.prefix || x in Tail(p, elapsed, errors)) && x.name == Up
    ensures Signature(x) in KeySet(Signature, Named(Up, Samples(p, order, elapsed, errors)))
  {
    var ss := Samples(p, order, elapsed, errors);
    FilterMember(IsNamed(Up), ss, x);
    KeySetMember(Signature, Named(Up, ss), Signature(x));
  }

  lemma RowIsUp(c: string, id: string)
    ensures UpSample(c, id, 1.0) in ResourceSamples(c, [BareNode(id, "pve")])
  {
    var rows := [BareNode(id, "pve")];
    OneUpPerRow(c, rows[0]);
    FilterMember(IsNamed(Up), RowSamples(c, rows[0]), UpSample(c, id, 1.0));
    assert ResourceSamples(c, rows[..0]) == [];
  }

  lemma PrefixHasRows(c: string, t: CollectorToggles, pve: Pve, rows: seq<ClusterResource>, x: Sample)
    requires x in ResourceSamples(c, rows)
    ensures x in Prefix(c, t, pve, rows)
  {
    assert x in [] + ResourceSamples(c, rows);
  }

  lemma OneNodeRows(id: string)
    ensures AsResources(ReplyOf(OneNode(id)(RESOURCES_PATH))) == Some([BareNode(id, "pve")])
  {
  }

  lemma RowInPrefix(c: string, t: CollectorToggles, id: string)
    ensures UpSample(c, id, 1.0) in PlanOf(c, t, OneNode(id)).prefix
  {
    RowIsUp(c, id);
    OneNodeRows(id);
    PlanPrefix(c, t, OneNode(id), [BareNode(id, "pve")]);
    PrefixHasRows(c, t, OneNode(id), [BareNode(id, "pve")], UpSample(c, id, 1.0));
  }

  lemma SilentTail(c: string, t: CollectorToggles, elapsed: real, errors: nat)
    ensures UpSample(c, "cluster/" + c, 0.0) in Tail(PlanOf(c, t, Silent()), elapsed, errors)
  {
    assert Tail(PlanOf(c, t, Silent()), elapsed, errors)[0] == UpSample(c, "cluster/" + c, 0.0);
  }

  function ServerFor(short: bool, id: string): Pve { if short then OneNode(id) else Silent() }

  /** Target short lists a node whose id is the given one; all the others are down. */
  function Servers(n: nat, short: nat, id: string): (pves: seq<Pve>)
    ensures |pves| == n && forall k :: 0 <= k < n ==> pves[k] == ServerFor(k == short, id)
  {
    if n == 0 then [] else Servers(n - 1, short, id) + [ServerFor(n - 1 == short, id)]
  }

  /** In a finished cycle with those answers both have a pve_up sample of one signature. */
  lemma BothUp(cs: seq<ClusterConfig>, t: CollectorToggles, short: nat, long: nat, rest: string,
    x: Proc, y: Proc, e0: nat, e1: nat)
    requires short < |cs| && long < |cs| && short != long && cs[long].name == cs[short].name + [NUL] + rest
    requires var id := rest + [NUL] + ("cluster/" + cs[long].name);
      && Settled(PlanOf(cs[short].name, t, OneNode(id)), e0, x)
      && Settled(PlanOf(cs[long].name, t, Silent()), e1, y)
    ensures var sig := cs[long].name + [NUL] + ("cluster/" + cs[long].name);
      && sig in KeySet(Signature, Named(Up, x.phase.ts.samples))
      && sig in KeySet(Signature, Named(Up, y.phase.ts.samples))
  {
    var c, d := cs[short].name, cs[long].name;
    var own := "cluster/" + d;
    var id := rest + [NUL] + own;
    RowInPrefix(c, t, id);
    InSamples(PlanOf(c, t, OneNode(id)), x.phase.merged, x.phase.elapsed, x.errors, UpSample(c, id, 1.0));
    SilentTail(d, t, y.phase.elapsed, y.errors);
    InSamples(PlanOf(d, t, Silent()), y.phase.merged, y.phase.elapsed, y.errors, UpSample(d, own, 0.0));
    Collision(c, rest, own, 1.0, 0.0);
    UpSignature(d, own, 0.0);
  }

  // ---- exactly when ----

  /** Of two names one of which extends the other by a NUL, either way around, the
      target configured later can lose a pve_up series: under every limit there is a
      finished cycle in which it does. The shorter named target lists a node whose id
      spells the rest of the longer name, and the others are down. */
  lemma NameCollides(cs: seq<ClusterConfig>, limit: int, first: nat, later: nat, short: nat, long: nat)
    returns (pves: seq<Pve>, counters: seq<nat>, moves: seq<Move>)
    requires UniqueNames(cs) && first < later < |cs|
    requires (short == first && long == later) || (short == later && long == first)
    requires cs[short].name + [NUL] <= cs[long].name
    ensures var rest := cs[long].name[|cs[short].name| + 1..];
      pves == Servers(|cs|, short, rest + [NUL] + ("cluster/" + cs[long].name))
    ensures |counters| == |pves| == |cs| && Legal(PlansFor(cs, UNSET, pves), limit, Initial(counters), moves)
    ensures var t := After(PlansFor(cs, UNSET, pves), limit, Initial(counters), moves);
      Finished(t) && Loses(Results(t), Up, later)
  {
    var rest := cs[long].name[|cs[short].name| + 1..];
    assert cs[long].name == cs[short].name + [NUL] + rest;
    pves := Servers(|cs|, short, rest + [NUL] + ("cluster/" + cs[long].name));
    counters := seq(|cs|, k => 0);
    var ps := PlansFor(cs, UNSET, pves);
    InitialOk(ps, counters);
    moves := Completes(ps, limit, counters, Initial(counters));
    PlansForConform(cs, UNSET, pves);
    Interferes(cs, ps, limit, counters, moves, first, later, short, long, rest);
  }

  lemma LosesIsDisturbed(cs: seq<ClusterConfig>, limit: int, pves: seq<Pve>, counters: seq<nat>,
                         moves: seq<Move>, i: nat)
    requires |pves| == |counters| == |cs| && Legal(PlansFor(cs, UNSET, pves), limit, Initial(counters), moves)
    requires Loses(Results(After(PlansFor(cs, UNSET, pves), limit, Initial(counters), moves)), Up, i)
    ensures !Undisturbed(cs)
  {
    assert !AloneIn(cs, UNSET, pves, limit, counters, moves, Anything(), Up, i);
  }

  lemma Interferes(cs: seq<ClusterConfig>, ps: seq<Plan>, limit: int, counters: seq<nat>, moves: seq<Move>,
                   first: nat, later: nat, short: nat, long: nat, rest: string)
    requires UniqueNames(cs) && first < later < |cs|
    requires (short == first && long == later) || (short == later && long == first)
    requires cs[long].name == cs[short].name + [NUL] + rest
    requires |ps| == |counters| == |cs| && forall k :: 0 <= k < |cs| ==> PlanFor(ps[k], cs[k].name)
    requires ps[short] == PlanOf(cs[short].name, UNSET, OneNode(rest + [NUL] + ("cluster/" + cs[long].name)))
    requires ps[long] == PlanOf(cs[long].name, UNSET, Silent())
    requires Legal(ps, limit, Initial(counters), moves) && Finished(After(ps, limit, Initial(counters), moves))
    ensures Loses(Results(After(ps, limit, Initial(counters), moves)), Up, later)
  {
    var t := After(ps, limit, Initial(counters), moves);
    var rs, sig := Results(t), cs[long].name + [NUL] + ("cluster/" + cs[long].name);
    ReachableResults(cs, ps, limit, counters, moves);
    FinishedSettled(ps, limit, counters, moves, short);
    FinishedSettled(ps, limit, counters, moves, long);
    BothUp(cs, UNSET, short, long, rest, t[short], t[long], counters[short], counters[long]);
    ResultsDistinct(cs, rs);
    LaterLoses(rs, first, later, sig);
  }

  /** Cross-target non-interference, exactly: among uniquely named targets no sample of
      one is ever dropped for one of another, whatever the APIs answer, the toggles,
      limits and schedules, if and only if no name is another one followed by a NUL and
      more. Validation asks for unique names alone. */
  lemma UndisturbedIff(cs: seq<ClusterConfig>)
    requires UniqueNames(cs)
    ensures Undisturbed(cs) <==> NamesSeparated(cs)
  {
    if NamesSeparated(cs) {
      forall t, pves, limit, counters, moves, accept, n, i
        ensures AloneIn(cs, t, pves, limit, counters, moves, accept, n, i) {
        SeparatedAlone(cs, t, pves, limit, counters, moves, accept, n, i);
      }
    } else {
      var i, j :| 0 <= i < j < |cs| && !Separated(cs[i].name, cs[j].name);
      var (short, long) := if cs[i].name + [NUL] <= cs[j].name then (i, j) else (j, i);
      var pves, counters, moves := NameCollides(cs, 0, i, j, short, long);
      LosesIsDisturbed(cs, 0, pves, counters, moves, j);
    }
  }

  lemma SeparatedAlone(cs: seq<ClusterConfig>, t: CollectorToggles, pves: seq<Pve>, limit: int, counters: seq<nat>,
                       moves: seq<Move>, accept: Acceptor, n: Metric, i: nat)
    requires UniqueNames(cs) && NamesSeparated(cs)
    ensures AloneIn(cs, t, pves, limit, counters, moves, accept, n, i)
  {
    if |pves| == |counters| == |cs| && Legal(PlansFor(cs, t, pves), limit, Initial(counters), moves) && i < |cs| {
      PlansForConform(cs, t, pves);
      RunDoesNotInterfere(cs, PlansFor(cs, t, pves), limit, counters, moves, accept, n, i);
      ReachableResults(cs, PlansFor(cs, t, pves), limit, counters, moves);
    }
    CycleLength(cs, t, pves, limit, counters, moves);
  }

  lemma CycleLength(cs: seq<ClusterConfig>, t: CollectorToggles, pves: seq<Pve>, limit: int,
    counters: seq<nat>, moves: seq<Move>)
    ensures |pves| == |counters| == |cs| && Legal(PlansFor(cs, t, pves), limit, Initial(counters), moves) ==>
      |Results(After(PlansFor(cs, t, pves), limit, Initial(counters), moves))| == |cs|
  {
    if |pves| == |counters| == |cs| && Legal(PlansFor(cs, t, pves), limit, Initial(counters), moves) {
      CycleOutcome(PlansFor(cs, t, pves), limit, counters, moves);
    }
  }

  // ---- files that load ----

  /** For every file that loads: its targets leave each other alone exactly when their
      names are separated. */
  lemma LoadedUndisturbedIff(file: ConfigFile, w: World)
    requires Load(file, w).Loads?
    ensures Undisturbed(Load(file, w).data.clusters) <==> NamesSeparated(Load(file, w).data.clusters)
  {
    LoadsIff(file, w);
    LoadedNames(file, w);
    UndisturbedIff(Load(file, w).data.clusters);
  }

  lemma LoadedNames(file: ConfigFile, w: World)
    requires Load(file, w).Loads?
    ensures UniqueNames(Load(file, w).data.clusters)
  {
    var d := Load(file, w).data;
    ValidIff(d, w.isDuration);
  }

  function Plain(name: string): ClusterConfig { ClusterConfig(name, "h", "t", "s", "", false) }

  /** A file of two targets of the given names, everything else left to the defaults. */
  function TwoTargets(c: string, d: string): ConfigData {
    ConfigData(Server("", "", "", ""), Collection("", "", 0), UNSET,
      OTelExport(false, "", false, "", 0.0), OTelExport(false, "", false, "", 0.0), [Plain(c), Plain(d)])
  }

  lemma TwoTargetsValid(c: string, d: string, isDuration: Durations)
    requires c != "" && d != "" && c != d && isDuration(DEFAULT_INTERVAL) && isDuration(DEFAULT_TIMEOUT)
    ensures ValidConfig(Defaulted(TwoTargets(c, d)), isDuration)
  {
    DefaultsSettle(TwoTargets(c, d));
  }

  lemma TwoTargetsLoad(c: string, d: string, w: World)
    requires c != "" && d != "" && c != d && w.isDuration(DEFAULT_INTERVAL) && w.isDuration(DEFAULT_TIMEOUT)
    ensures Load(Some(TwoTargets(c, d)), w) == Loads(Defaulted(TwoTargets(c, d)))
  {
    var data := TwoTargets(c, d);
    TwoTargetsLiteral(c, d);
    LiteralFile(data, w);
    TwoTargetsValid(c, d, w.isDuration);
    ValidIff(Defaulted(data), w.isDuration);
  }

  lemma TwoTargetsLiteral(c: string, d: string)
    ensures forall i :: 0 <= i < 2 ==> Literal(TwoTargets(c, d).clusters[i])
  {
    DollarFree("h");
    DollarFree("t");
    DollarFree("s");
  }

  /** And such names do load: two different names are all that validation asks for. */
  lemma UnseparatedLoads(c: string, rest: string, w: World)
    requires c != "" && w.isDuration(DEFAULT_INTERVAL) && w.isDuration(DEFAULT_TIMEOUT)
    ensures var d := TwoTargets(c, c + ['\0'] + rest);
      && Load(Some(d), w) == Loads(Defaulted(d))
      && !NamesSeparated(d.clusters) && !Undisturbed(d.clusters)
  {
    var d := c + [NUL] + rest;
    TwoTargetsLoad(c, d, w);
    var cs := TwoTargets(c, d).clusters;
    assert cs[0].name == c && cs[1].name == d && c + [NUL] <= d;
    assert !Separated(cs[0].name, cs[1].name);
    UndisturbedIff(cs);
  }
}
