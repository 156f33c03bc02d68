/** How long a client lives (main.go, internal/pve/collector.go): cycles and overlapping
    reloads together. A cycle uses the targets that are installed when it starts, so it is
    one event here; an Install during it takes effect after it. */
module Lifetimes {
  import opened Plans
  import opened Exports
  import opened Histories
  import opened Metrics
  import P = Publication
  import R = Reloads

  datatype Event = Reload(step: R.Step) | Collect(cycle: CycleRun)

  /** counters are those of the clients of the installed targets. */
  datatype Service = Service(reloads: R.State, counters: seq<nat>)

  function Zeros(n: nat): (ns: seq<nat>)
    ensures |ns| == n
  {
    seq(n, i => 0)
  }

  function NewCounters(s: R.State): seq<nat> {
    if s.installed < |s.views| then Zeros(|s.Targets()|) else []
  }

  ghost function CountersAfter(r: CycleRun): seq<nat>
    requires Whole(r)
  {
    seq(|Final(r)|, i requires 0 <= i < |Final(r)| => Final(r)[i].errors)
  }

  ghost predicate Able(s: Service, e: Event) {
    match e
    case Reload(a) => R.Enabled(s.reloads, a)
    case Collect(r) =>
      && s.reloads.installed < |s.reloads.views|
      && Whole(r) && r.cs == s.reloads.Targets() && r.counters == s.counters
  }

  /** Installed targets have new clients; a cycle leaves its counts in the clients. */
  ghost function Next(s: Service, e: Event): Service
    requires Able(s, e)
  {
    match e
    case Reload(a) =>
      var t := R.Apply(s.reloads, a);
      Service(t, if a.Install? then NewCounters(t) else s.counters)
    case Collect(r) => s.(counters := CountersAfter(r))
  }

  function NewService(cs: R.Clusters, files: seq<R.Clusters>): Service {
    Service(R.Initial(cs, files), Zeros(|cs|))
  }

  ghost predicate Runs(s: Service, run: seq<Event>)
    decreases |run|, 0
  {
    run != [] ==> Runs(s, run[..|run| - 1]) && Able(Reached(s, run[..|run| - 1]), run[|run| - 1])
  }

  ghost function Reached(s: Service, run: seq<Event>): Service
    requires Runs(s, run)
    decreases |run|, 1
  {
    if run == [] then s else Next(Reached(s, run[..|run| - 1]), run[|run| - 1])
  }

  function CyclesOf(run: seq<Event>): (cycles: seq<CycleRun>)
    ensures |cycles| <= |run|
  {
    if run == [] then []
    else CyclesOf(run[..|run| - 1]) + (if run[|run| - 1].Collect? then [run[|run| - 1].cycle] else [])
  }

  predicate Installs(e: Event) { e.Reload? && e.step.Install? }

  /** No targets are installed after cycle v and before cycle w. */
  ghost predicate NoInstallBetween(run: seq<Event>, v: nat, w: nat) {
    forall p :: 0 <= p < |run| && Installs(run[p]) ==> !(v <= |CyclesOf(run[..p])| < w)
  }

  /** History h has the cycles of the run, by their number. */
  ghost predicate Recorded(h: History, run: seq<Event>) {
    forall v :: 1 <= v <= |CyclesOf(run)| ==> h(v) == CyclesOf(run)[v - 1]
  }

  lemma {:induction false} FewerCycles(run: seq<Event>, p: nat)
    requires p <= |run|
    ensures |CyclesOf(run[..p])| <= |CyclesOf(run)|
    decreases |run|
  {
    if p == |run| {
      assert run[..p] == run;
    } else {
      assert run[..|run| - 1][..p] == run[..p];
      FewerCycles(run[..|run| - 1], p);
    }
  }

  /** Until targets are installed, they and their counters are as the last cycle left
      them. */
  lemma {:induction false} LastCycle(s: Service, run: seq<Event>)
    requires Runs(s, run) && CyclesOf(run) != []
    requires forall p :: 0 <= p < |run| && Installs(run[p]) ==> |CyclesOf(run[..p])| < |CyclesOf(run)|
    ensures var r, t := CyclesOf(run)[|CyclesOf(run)| - 1], Reached(s, run);
      && t.reloads.installed < |t.reloads.views| && t.reloads.Targets() == r.cs
      && Whole(r) && t.counters == CountersAfter(r)
    decreases |run|
  {
    var init, last := run[..|run| - 1], run[|run| - 1];
    if last.Reload? {
      assert !Installs(run[|run| - 1]);
      forall p | 0 <= p < |init| && Installs(init[p]) ensures |CyclesOf(init[..p])| < |CyclesOf(init)| {
        assert init[..p] == run[..p] && init[p] == run[p];
      }
      LastCycle(s, init);
    }
  }

  ghost predicate NextOfClient(a: CycleRun, b: CycleRun) {
    b.cs == a.cs && forall i :: 0 <= i < |a.cs| ==> KeepsClient(a, b, i)
  }

  lemma TakesOver(s: Service, run: seq<Event>, r: CycleRun)
    requires Runs(s, run) && CyclesOf(run) != [] && Able(Reached(s, run), Collect(r))
    requires forall p :: 0 <= p < |run| && Installs(run[p]) ==> |CyclesOf(run[..p])| < |CyclesOf(run)|
    ensures NextOfClient(CyclesOf(run)[|CyclesOf(run)| - 1], r)
  {
    LastCycle(s, run);
    WholeLength(CyclesOf(run)[|CyclesOf(run)| - 1]);
  }

  lemma {:induction false} AdjacentCycles(s: Service, run: seq<Event>, v: nat)
    requires Runs(s, run) && 1 <= v < |CyclesOf(run)| && NoInstallBetween(run, v, v + 1)
    ensures NextOfClient(CyclesOf(run)[v - 1], CyclesOf(run)[v])
    decreases |run|
  {
    var init, last := run[..|run| - 1], run[|run| - 1];
    forall p | 0 <= p < |init| && Installs(init[p])
      ensures !(v <= |CyclesOf(init[..p])| < v + 1) && |CyclesOf(init[..p])| <= |CyclesOf(init)|
    {
      assert init[..p] == run[..p] && init[p] == run[p];
      FewerCycles(init, p);
    }
    if v < |CyclesOf(init)| {
      AdjacentCycles(s, init, v);
    } else {
      TakesOver(s, init, last.cycle);
    }
  }

  /** A client is kept from cycle v to cycle w when no reload installs targets between
      them, however reloads and cycles overlap. */
  lemma {:induction false} KeptWithoutInstall(s: Service, run: seq<Event>, h: History, i: nat, v: nat, w: nat)
    requires Runs(s, run) && Recorded(h, run) && 1 <= v <= w <= |CyclesOf(run)| && NoInstallBetween(run, v, w)
    requires i < |h(v).cs|
    ensures Kept(h, i, v, w) && h(w).cs == h(v).cs
    decreases w
  {
    if v < w {
      KeptWithoutInstall(s, run, h, i, v, w - 1);
      AdjacentCycles(s, run, w - 1);
      assert h(w - 1) == CyclesOf(run)[w - 2] && h(w) == CyclesOf(run)[w - 1];
    }
  }

  /** Installed targets start to count from zero, and do so until they are polled. */
  lemma {:induction false} CountsAnew(s: Service, run: seq<Event>, p: nat)
    requires Runs(s, run) && p < |run| && Installs(run[p]) && CyclesOf(run) == CyclesOf(run[..p])
    ensures forall i :: 0 <= i < |Reached(s, run).counters| ==> Reached(s, run).counters[i] == 0
    decreases |run|
  {
    var init := run[..|run| - 1];
    if p < |init| {
      assert init[..p] == run[..p] && init[p] == run[p];
      FewerCycles(init, p);
      CountsAnew(s, init, p);
    }
  }

  // ---- reloads that change nothing ----

  ghost predicate Unchanged(s: R.State, cs: R.Clusters) {
    s.published == cs && forall i :: 0 <= i < |s.reloads| ==> s.reloads[i] == R.Loaded(cs) || s.reloads[i].Over?
  }

  /** Reloads of files with the cluster list that runs already never install anything. */
  lemma {:induction false} UnchangedNeverInstalls(cs: R.Clusters, files: seq<R.Clusters>, run: seq<Event>)
    requires Runs(NewService(cs, files), run) && forall i :: 0 <= i < |files| ==> files[i] == cs
    ensures Unchanged(Reached(NewService(cs, files), run).reloads, cs)
    ensures forall p :: 0 <= p < |run| ==> !Installs(run[p])
  {
    if run == [] {
    } else {
      UnchangedNeverInstalls(cs, files, run[..|run| - 1]);
    }
  }

  // ---- what that means for a scrape ----

  /** The counter of a target never drops from one scrape to a later one unless a reload
      installs targets between the cycles they show. */
  lemma CounterDropsOnlyByInstall(c: P.Content, h: History, accept: Acceptor, s: P.State, run: seq<P.Step>,
                                  a: nat, b: nat, r: nat, q: nat, i: nat, x: Series, y: Series,
                                  service: Service, events: seq<Event>)
    requires Publishes(c, h) && P.Initial(s) && |s.publishers| == 1
    requires FinishedScrape(c, accept, s, run, r) && FinishedScrape(c, accept, s, run, q)
    requires a < b < |run| && run[a] == P.Load(r) && run[b] == P.Load(q)
    requires Runs(service, events) && Recorded(h, events)
    requires var t := P.After(c, accept, s, run);
      && x in t.readers[r].sent && y in t.readers[q].sent && x.name == y.name == RequestErrors
      && 0 < t.readers[r].version && t.readers[q].version <= |CyclesOf(events)|
      && i < |h(t.readers[r].version).cs|
      && NoInstallBetween(events, t.readers[r].version, t.readers[q].version)
      && var name := h(t.readers[r].version).cs[i].name;
         x.values == y.values == [name, SelfId(name)]
    ensures x.value <= y.value
  {
    var t := P.After(c, accept, s, run);
    P.InitialForward(s);
    P.LoadOrder(c, accept, s, run, a, b, r, q);
    KeptWithoutInstall(service, events, h, i, t.readers[r].version, t.readers[q].version);
    CounterNeverDrops(c, h, accept, s, run, a, b, r, q, i, x, y);
  }
}
