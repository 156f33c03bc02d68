/** main.go and internal/models/safe_config.go: reloads that overlap. The signal
    handler and the file watcher each call ReloadConfig from a goroutine of its
    own, and no lock spans the three steps below. */
module Reloads {
  import opened Models
  import opened Configs

  type Clusters = seq<ClusterConfig>

  /** One reload: its file is loaded and valid; it has swapped the configuration and
      found the clusters changed; it has read the configuration back, as the reader
      number `ticket`, and built targets from it; or it is over. */
  datatype Reload = Loaded(next: Clusters) | Swapped | Holding(ticket: nat) | Over

  /** published is SafeConfig's cluster list. views are the lists read back so far,
      the initial one first; the collector's targets are views[installed]. */
  datatype State = State(published: Clusters, views: seq<Clusters>, installed: nat, reloads: seq<Reload>)
  {
    function Targets(): Clusters
      requires installed < |views|
    {
      views[installed]
    }
  }

  datatype Step = Swap(i: nat) | Read(i: nat) | Install(i: nat)

  predicate Enabled(s: State, a: Step) {
    a.i < |s.reloads|
    && match a
       case Swap(i) => s.reloads[i].Loaded?
       case Read(i) => s.reloads[i].Swapped?
       case Install(i) => s.reloads[i].Holding?
  }

  function Apply(s: State, a: Step): State
    requires Enabled(s, a)
  {
    match a
    case Swap(i) =>
      var next := s.reloads[i].next;
      s.(published := next, reloads := s.reloads[i := if next != s.published then Swapped else Over])
    case Read(i) => s.(views := s.views + [s.published], reloads := s.reloads[i := Holding(|s.views|)])
    case Install(i) => s.(installed := s.reloads[i].ticket, reloads := s.reloads[i := Over])
  }

  function Initial(cs: Clusters, files: seq<Clusters>): State {
    State(cs, [cs], 0, seq(|files|, i requires 0 <= i < |files| => Loaded(files[i])))
  }

  ghost predicate Legal(s: State, run: seq<Step>)
    decreases |run|
  {
    run != [] ==> Enabled(s, run[0]) && Legal(Apply(s, run[0]), run[1..])
  }

  ghost function After(s: State, run: seq<Step>): State
    requires Legal(s, run)
    decreases |run|
  {
    if run == [] then s else After(Apply(s, run[0]), run[1..])
  }

  predicate Quiet(s: State) {
    forall i :: 0 <= i < |s.reloads| ==> s.reloads[i].Over?
  }

  function Last(s: State): Clusters
    requires s.views != []
  {
    s.views[|s.views| - 1]
  }

  /** Every list about is a valid one; tickets number the reads; and unless some
      reload has yet to read it back, the last read saw what is published. */
  ghost predicate Inv(s: State) {
    && s.installed < |s.views|
    && ValidTargets(s.published)
    && (forall k :: 0 <= k < |s.views| ==> ValidTargets(s.views[k]))
    && (forall i :: 0 <= i < |s.reloads| && s.reloads[i].Loaded? ==> ValidTargets(s.reloads[i].next))
    && (forall i :: 0 <= i < |s.reloads| && s.reloads[i].Holding? ==> s.reloads[i].ticket < |s.views|)
    && (Last(s) == s.published || exists i :: 0 <= i < |s.reloads| && s.reloads[i].Swapped?)
  }

  lemma StepInv(s: State, a: Step)
    requires Inv(s) && Enabled(s, a)
    ensures Inv(Apply(s, a))
  {
    var t := Apply(s, a);
    match a
    case Swap(i) =>
      if t.reloads[i].Over? {
        if j :| 0 <= j < |s.reloads| && s.reloads[j].Swapped? {
          assert t.reloads[j].Swapped?;
        }
      } else {
        assert t.reloads[i].Swapped?;
      }
    case Read(i) =>
    case Install(i) =>
      if j :| 0 <= j < |s.reloads| && s.reloads[j].Swapped? {
        assert t.reloads[j].Swapped?;
      }
  }

  lemma InitialInv(cs: Clusters, files: seq<Clusters>)
    requires ValidTargets(cs) && forall i :: 0 <= i < |files| ==> ValidTargets(files[i])
    ensures Inv(Initial(cs, files))
  {
  }

  lemma {:induction false} RunInv(s: State, run: seq<Step>)
    requires Inv(s) && Legal(s, run)
    ensures Inv(After(s, run))
    decreases |run|
  {
    if run == [] {
    } else {
      StepInv(s, run[0]);
      RunInv(Apply(s, run[0]), run[1..]);
    }
  }

  /** In every reachable state, overlapping or not, the collector polls the targets
      of some configuration that was valid: complete ones, under different names. */
  lemma TargetsAlwaysValid(cs: Clusters, files: seq<Clusters>, run: seq<Step>)
    requires ValidTargets(cs) && forall i :: 0 <= i < |files| ==> ValidTargets(files[i])
    requires Legal(Initial(cs, files), run)
    ensures Inv(After(Initial(cs, files), run))
    ensures ValidTargets(After(Initial(cs, files), run).Targets())
  {
    InitialInv(cs, files);
    RunInv(Initial(cs, files), run);
  }

  // ---- what a run alone says about the final state ----

  /** The list of the last Swap of a run, the initial one if there is none. */
  function LastSwap(cs: Clusters, files: seq<Clusters>, run: seq<Step>): Clusters {
    if run == [] then cs
    else
      var a := run[|run| - 1];
      if a.Swap? && a.i < |files| then files[a.i] else LastSwap(cs, files, run[..|run| - 1])
  }

  /** Where reload i reads the configuration back, or -1. */
  function ReadAt(run: seq<Step>, i: nat): (k: int)
    ensures -1 <= k < |run| && (k >= 0 ==> run[k] == Read(i))
  {
    if run == [] then -1
    else if run[|run| - 1] == Read(i) then |run| - 1
    else ReadAt(run[..|run| - 1], i)
  }

  /** The reload that installs last, or -1. */
  function LastInstaller(run: seq<Step>): int {
    if run == [] then -1
    else if run[|run| - 1].Install? then run[|run| - 1].i
    else LastInstaller(run[..|run| - 1])
  }

  function Reads(run: seq<Step>): nat {
    if run == [] then 0 else Reads(run[..|run| - 1]) + (if run[|run| - 1].Read? then 1 else 0)
  }

  /** What reload i reads: the list of the last Swap before its Read. */
  function SeenBy(cs: Clusters, files: seq<Clusters>, run: seq<Step>, i: nat): Clusters {
    if ReadAt(run, i) < 0 then cs else LastSwap(cs, files, run[..ReadAt(run, i)])
  }

  /** What the last Install installs. */
  function LastInstalled(cs: Clusters, files: seq<Clusters>, run: seq<Step>): Clusters {
    if LastInstaller(run) < 0 then cs else SeenBy(cs, files, run, LastInstaller(run))
  }

  function TicketOf(run: seq<Step>, i: nat): nat {
    if ReadAt(run, i) < 0 then 0 else Reads(run[..ReadAt(run, i)]) + 1
  }

  /** Ticket t was drawn, and its view is what reload i read. */
  ghost predicate Drew(cs: Clusters, files: seq<Clusters>, run: seq<Step>, s: State, i: nat, t: nat) {
    ReadAt(run, i) >= 0 && t == TicketOf(run, i) < |s.views| && s.views[t] == SeenBy(cs, files, run, i)
  }

  ghost predicate ReloadAfter(cs: Clusters, files: seq<Clusters>, run: seq<Step>, s: State, i: nat)
    requires i < |s.reloads| && i < |files|
  {
    match s.reloads[i]
    case Loaded(next) => next == files[i] && ReadAt(run, i) < 0
    case Swapped => ReadAt(run, i) < 0
    case Holding(t) => Drew(cs, files, run, s, i, t)
    case Over => true
  }

  ghost predicate StateAfter(cs: Clusters, files: seq<Clusters>, run: seq<Step>, s: State) {
    && |s.reloads| == |files| && |s.views| == Reads(run) + 1 && s.views[0] == cs
    && s.published == LastSwap(cs, files, run)
    && (forall i :: 0 <= i < |files| ==> ReloadAfter(cs, files, run, s, i))
    && (if LastInstaller(run) < 0 then s.installed == 0
        else
          && LastInstaller(run) < |files| && s.reloads[LastInstaller(run)].Over?
          && Drew(cs, files, run, s, LastInstaller(run), s.installed))
  }

  lemma OneMoreStep(cs: Clusters, files: seq<Clusters>, run: seq<Step>, a: Step, i: nat)
    ensures ReadAt(run + [a], i) == if a == Read(i) then |run| else ReadAt(run, i)
    ensures SeenBy(cs, files, run + [a], i)
      == if a == Read(i) then LastSwap(cs, files, run) else SeenBy(cs, files, run, i)
    ensures TicketOf(run + [a], i) == if a == Read(i) then Reads(run) + 1 else TicketOf(run, i)
  {
    assert (run + [a])[..|run|] == run;
    if a != Read(i) && ReadAt(run, i) >= 0 {
      assert (run + [a])[..ReadAt(run, i)] == run[..ReadAt(run, i)];
    }
  }

  lemma ReloadAfterStep(cs: Clusters, files: seq<Clusters>, run: seq<Step>, s: State, a: Step, i: nat)
    requires StateAfter(cs, files, run, s) && Enabled(s, a) && i < |files|
    ensures ReloadAfter(cs, files, run + [a], Apply(s, a), i)
  {
    OneMoreStep(cs, files, run, a, i);
    assert ReloadAfter(cs, files, run, s, i);
  }

  lemma StateAfterStep(cs: Clusters, files: seq<Clusters>, run: seq<Step>, s: State, a: Step)
    requires StateAfter(cs, files, run, s) && Enabled(s, a)
    ensures StateAfter(cs, files, run + [a], Apply(s, a))
  {
    assert (run + [a])[..|run|] == run;
    forall i | 0 <= i < |files| ensures ReloadAfter(cs, files, run + [a], Apply(s, a), i) {
      ReloadAfterStep(cs, files, run, s, a, i);
    }
    assert ReloadAfter(cs, files, run, s, a.i);
    var last := LastInstaller(run + [a]);
    if last >= 0 {
      OneMoreStep(cs, files, run, a, last);
    }
  }

  lemma {:induction false} LastStep(s: State, run: seq<Step>)
    requires Legal(s, run) && run != []
    ensures Legal(s, run[..|run| - 1])
    ensures Enabled(After(s, run[..|run| - 1]), run[|run| - 1])
    ensures After(s, run) == Apply(After(s, run[..|run| - 1]), run[|run| - 1])
    decreases |run|
  {
    if |run| == 1 {
      assert run[1..] == [] && run[..0] == [];
    } else {
      LastStep(Apply(s, run[0]), run[1..]);
      assert run[1..][..|run| - 2] == run[..|run| - 1][1..];
    }
  }

  lemma {:induction false} RunStateAfter(cs: Clusters, files: seq<Clusters>, run: seq<Step>)
    requires Legal(Initial(cs, files), run)
    ensures StateAfter(cs, files, run, After(Initial(cs, files), run))
    decreases |run|
  {
    if run == [] {
    } else {
      var init, last := run[..|run| - 1], run[|run| - 1];
      LastStep(Initial(cs, files), run);
      RunStateAfter(cs, files, init);
      StateAfterStep(cs, files, init, After(Initial(cs, files), init), last);
      assert run == init + [last];
    }
  }

  /** At every moment, however reloads overlap, the targets mirror the published clusters
      exactly when the list of the last Swap is that of the last Swap before the Read of
      the reload that installs last. */
  lemma MirrorsIff(cs: Clusters, files: seq<Clusters>, run: seq<Step>)
    requires Legal(Initial(cs, files), run)
    ensures var t := After(Initial(cs, files), run);
      && t.installed < |t.views|
      && (t.Targets() == t.published <==> LastInstalled(cs, files, run) == LastSwap(cs, files, run))
  {
    RunStateAfter(cs, files, run);
  }

  lemma {:induction false} ReadsAfter(run: seq<Step>, k: nat)
    requires k < |run| && run[k].Read?
    ensures Reads(run[..k]) + 1 <= Reads(run)
    ensures Reads(run[..k]) + 1 == Reads(run) <==> forall j :: k < j < |run| ==> !run[j].Read?
    decreases |run|
  {
    var init := run[..|run| - 1];
    if k < |init| {
      ReadsAfter(init, k);
      assert init[..k] == run[..k];
      assert forall j :: 0 <= j < |init| ==> init[j] == run[j];
    } else {
      assert init == run[..k];
    }
  }

  /** The lists read back, which come after the initial one, are pairwise different. */
  ghost predicate ReadsDiffer(views: seq<Clusters>) {
    forall i, j :: 1 <= i < j < |views| ==> views[i] != views[j]
  }

  lemma LastOnlyOnce(views: seq<Clusters>, k: nat)
    requires 1 <= k < |views| && ReadsDiffer(views)
    ensures views[k] == views[|views| - 1] <==> k == |views| - 1
  {
  }

  /** Once all reloads are over, and when no two of them read the same list, that is when
      the reload that installs last is the one that reads last. */
  lemma QuietMirrorsIff(cs: Clusters, files: seq<Clusters>, run: seq<Step>)
    requires ValidTargets(cs) && forall i :: 0 <= i < |files| ==> ValidTargets(files[i])
    requires Legal(Initial(cs, files), run) && Quiet(After(Initial(cs, files), run)) && LastInstaller(run) >= 0
    requires ReadsDiffer(After(Initial(cs, files), run).views)
    ensures var t := After(Initial(cs, files), run);
      && t.installed < |t.views|
      && (t.Targets() == t.published <==> forall k :: ReadAt(run, LastInstaller(run)) < k < |run| ==> !run[k].Read?)
  {
    InitialInv(cs, files);
    RunInv(Initial(cs, files), run);
    RunStateAfter(cs, files, run);
    var t := After(Initial(cs, files), run);
    assert Last(t) == t.published;
    LastOnlyOnce(t.views, t.installed);
    ReadsAfter(run, ReadAt(run, LastInstaller(run)));
  }

  // ---- when that is the case ----

  /** Installations happen in the order of the reads. */
  ghost predicate InOrder(s: State, run: seq<Step>)
    requires Legal(s, run)
    decreases |run|
  {
    run != [] ==>
      && (run[0].Install? ==> s.reloads[run[0].i].ticket == s.installed + 1)
      && InOrder(Apply(s, run[0]), run[1..])
  }

  ghost predicate Held(s: State, k: nat) {
    exists i :: 0 <= i < |s.reloads| && s.reloads[i] == Holding(k)
  }

  /** Every read that has not been installed is still held, by one reload. */
  ghost predicate Ordered(s: State) {
    && (forall k: nat :: s.installed < k < |s.views| ==> Held(s, k))
    && (forall i, j :: (0 <= i < j < |s.reloads| && s.reloads[i].Holding? && s.reloads[j].Holding?
         ==> s.reloads[i].ticket != s.reloads[j].ticket))
  }

  lemma OrderedStep(s: State, a: Step)
    requires Inv(s) && Ordered(s) && Enabled(s, a)
    requires a.Install? ==> s.reloads[a.i].ticket == s.installed + 1
    ensures Ordered(Apply(s, a))
  {
    var t := Apply(s, a);
    forall k: nat | t.installed < k < |t.views| ensures Held(t, k) {
      if k < |s.views| {
        assert Held(s, k);
        var i :| 0 <= i < |s.reloads| && s.reloads[i] == Holding(k);
        assert t.reloads[i] == Holding(k);
      } else {
        assert t.reloads[a.i] == Holding(k);
      }
    }
    forall i, j | 0 <= i < j < |t.reloads| && t.reloads[i].Holding? && t.reloads[j].Holding?
      ensures t.reloads[i].ticket != t.reloads[j].ticket
    {
      assert i != a.i ==> t.reloads[i] == s.reloads[i];
      assert j != a.i ==> t.reloads[j] == s.reloads[j];
    }
  }

  lemma {:induction false} OrderedRun(s: State, run: seq<Step>)
    requires Inv(s) && Ordered(s) && Legal(s, run) && InOrder(s, run)
    ensures Inv(After(s, run)) && Ordered(After(s, run))
    decreases |run|
  {
    if run == [] {
    } else {
      StepInv(s, run[0]);
      OrderedStep(s, run[0]);
      OrderedRun(Apply(s, run[0]), run[1..]);
    }
  }

  /** Reloads may overlap as they like, as long as no installation overtakes an
      earlier reader's: once they are over the mirror holds. */
  lemma InOrderMirrors(cs: Clusters, files: seq<Clusters>, run: seq<Step>)
    requires ValidTargets(cs) && forall i :: 0 <= i < |files| ==> ValidTargets(files[i])
    requires Legal(Initial(cs, files), run) && InOrder(Initial(cs, files), run)
    requires Quiet(After(Initial(cs, files), run))
    ensures var t := After(Initial(cs, files), run);
      t.installed < |t.views| && t.Targets() == t.published
  {
    InitialInv(cs, files);
    OrderedRun(Initial(cs, files), run);
    var t := After(Initial(cs, files), run);
    var last := |t.views| - 1;
    assert !Held(t, last);
  }

  /** No two reloads overlap: between the first and the last step of one there is
      no step of another. */
  ghost predicate Serial(s: State, run: seq<Step>)
    requires Legal(s, run)
    decreases |run|
  {
    run != [] ==>
      && (forall j :: 0 <= j < |s.reloads| && j != run[0].i ==> !s.reloads[j].Swapped? && !s.reloads[j].Holding?)
      && Serial(Apply(s, run[0]), run[1..])
  }

  /** Between reloads all reads are installed; the one in progress holds the last. */
  ghost predicate SerialState(s: State) {
    && s.installed < |s.views|
    && (forall i :: 0 <= i < |s.reloads| && s.reloads[i].Holding? ==>
         s.reloads[i].ticket == |s.views| - 1 == s.installed + 1)
    && ((forall i :: 0 <= i < |s.reloads| ==> !s.reloads[i].Holding?) ==> s.installed == |s.views| - 1)
  }

  lemma {:induction false} SerialIsInOrder(s: State, run: seq<Step>)
    requires SerialState(s) && Legal(s, run) && Serial(s, run)
    ensures InOrder(s, run)
    decreases |run|
  {
    if run == [] {
    } else {
      var a := run[0];
      var t := Apply(s, a);
      assert SerialState(t) by {
        assert forall j :: 0 <= j < |s.reloads| && j != a.i ==> t.reloads[j] == s.reloads[j] && !t.reloads[j].Holding?;
        if !a.Install? {
          assert forall j :: 0 <= j < |s.reloads| ==> !s.reloads[j].Holding?;
        }
        assert a.Read? ==> t.reloads[a.i] == Holding(|s.views|);
      }
      SerialIsInOrder(t, run[1..]);
    }
  }

  /** Reload mirror invariant: after any sequence of reloads that do not overlap,
      the targets are those of the published configuration. */
  lemma SerialMirrors(cs: Clusters, files: seq<Clusters>, run: seq<Step>)
    requires ValidTargets(cs) && forall i :: 0 <= i < |files| ==> ValidTargets(files[i])
    requires Legal(Initial(cs, files), run) && Serial(Initial(cs, files), run)
    requires Quiet(After(Initial(cs, files), run))
    ensures var t := After(Initial(cs, files), run);
      t.installed < |t.views| && t.Targets() == t.published
  {
    SerialIsInOrder(Initial(cs, files), run);
    InOrderMirrors(cs, files, run);
  }

  /** Overlapping reloads can leave stale targets, for good: the reload of b reads
      first and installs last, after the reload of c is over. */
  lemma StaleTargets(cs: Clusters, b: Clusters, c: Clusters)
    requires cs != b && b != c
    ensures var run := [Swap(0), Read(0), Swap(1), Read(1), Install(1), Install(0)];
      && Legal(Initial(cs, [b, c]), run)
      && After(Initial(cs, [b, c]), run) == State(c, [cs, b, c], 1, [Over, Over])
      && State(c, [cs, b, c], 1, [Over, Over]).Targets() == b
  {
  }
}
