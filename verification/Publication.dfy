/** The store between its writers and readers (internal/pve/snapshot.go, prometheus.go,
    otlp.go, and the goroutines of main.go): every interleaving of cycles, scrapes,
    gauge registrations and OTLP pushes. */
module Publication {
  import opened Seqs
  import opened Metrics
  import opened Snapshots
  import opened Exports
  import opened Otlp

  /** What each cycle collects, by the number under which it was started; number 0
      stands for the empty snapshot of a new store. */
  type Content = nat -> Index

  ghost predicate StartsEmpty(c: Content) { c(0) == IndexOf([]) }

  /** A scrape loads once and then emits metric by metric. A push takes the gauges that
      are registered when it starts, runs one callback for each, and each callback loads
      for itself. */
  datatype Reader =
    | Arriving
    | Scraping(version: nat, k: nat, sent: seq<Series>)
    | Pushing(gauges: seq<Metric>, versions: seq<nat>, observed: seq<seq<Observation>>)

  /** EnsureInstruments in progress: it holds the exporter's mutex, has loaded that
      version, and is about to look at name k. */
  datatype Pass = Pass(version: nat, accepts: Meter, k: nat)

  /** The exporter: its gauges, the pass in progress, and the passes that are over. */
  datatype Exporter = Exporter(instruments: Instruments, pass: Option<Pass>, calls: seq<Registration>)

  const NEW_EXPORTER := Exporter(Instruments({}, []), None, [])

  /** A publisher is idle or running the cycle of some number. loads are the versions
      loaded so far, by readers and registrations, in time order. */
  datatype State = State(
    current: nat, started: nat, publishers: seq<Option<nat>>, readers: seq<Reader>, loads: seq<nat>,
    exporter: Exporter)

  datatype Step =
    | Begin(p: nat)
    | Publish(p: nat)
    | Load(r: nat)
    | Emit(r: nat)
    | Gather(r: nat)
    | Callback(r: nat)
    | Look(accepts: Meter)
    | Register

  predicate Enabled(c: Content, s: State, a: Step) {
    match a
    case Begin(p) => p < |s.publishers| && s.publishers[p].None?
    case Publish(p) => p < |s.publishers| && s.publishers[p].Some?
    case Load(r) => r < |s.readers| && s.readers[r].Arriving?
    case Emit(r) => r < |s.readers| && s.readers[r].Scraping? && s.readers[r].k < |c(s.readers[r].version).names|
    case Gather(r) => r < |s.readers| && s.readers[r].Arriving?
    case Callback(r) => r < |s.readers| && s.readers[r].Pushing? && |s.readers[r].versions| < |s.readers[r].gauges|
    case Look(_) => s.exporter.pass.None?
    case Register => s.exporter.pass.Some?
  }

  /** The pass is over, whether it got to the end or the meter refused a name. */
  function EndPass(c: Content, e: Exporter): Exporter
    requires e.pass.Some?
  {
    e.(pass := None, calls := e.calls + [Registration(c(e.pass.value.version).names, e.pass.value.accepts)])
  }

  /** One round of the loop over the names, or the return. */
  function RegisterOne(c: Content, e: Exporter): Exporter
    requires e.pass.Some?
  {
    var Pass(v, accepts, k) := e.pass.value;
    if k >= |c(v).names| then EndPass(c, e)
    else
      var n := c(v).names[k];
      var next := Some(Pass(v, accepts, k + 1));
      if n in e.instruments.registered then e.(pass := next)
      else if !accepts(n) then EndPass(c, e)
      else e.(instruments := Instruments(e.instruments.registered + {n}, e.instruments.gauges + [n]), pass := next)
  }

  function Apply(c: Content, accept: Acceptor, s: State, a: Step): State
    requires Enabled(c, s, a)
  {
    match a
    case Begin(p) => s.(started := s.started + 1, publishers := s.publishers[p := Some(s.started + 1)])
    case Publish(p) => s.(current := s.publishers[p].value, publishers := s.publishers[p := None])
    case Load(r) => s.(readers := s.readers[r := Scraping(s.current, 0, [])], loads := s.loads + [s.current])
    case Emit(r) =>
      var Scraping(v, k, sent) := s.readers[r];
      s.(readers := s.readers[r := Scraping(v, k + 1, sent + ScrapeMetric(c(v), accept, c(v).names[k]))])
    case Gather(r) => s.(readers := s.readers[r := Pushing(s.exporter.instruments.gauges, [], [])])
    case Callback(r) =>
      var Pushing(gauges, versions, observed) := s.readers[r];
      s.(readers := s.readers[r := Pushing(gauges, versions + [s.current],
           observed + [Observations(c(s.current), gauges[|versions|])])],
         loads := s.loads + [s.current])
    case Look(accepts) =>
      s.(exporter := s.exporter.(pass := Some(Pass(s.current, accepts, 0))), loads := s.loads + [s.current])
    case Register => s.(exporter := RegisterOne(c, s.exporter))
  }

  /** Nobody has read anything, and no gauge is registered. */
  ghost predicate Initial(s: State) {
    && s.current == 0 && s.started == 0 && s.loads == [] && s.exporter == NEW_EXPORTER
    && (forall p :: 0 <= p < |s.publishers| ==> s.publishers[p].None?)
    && (forall r :: 0 <= r < |s.readers| ==> s.readers[r].Arriving?)
  }

  ghost predicate Legal(c: Content, accept: Acceptor, s: State, run: seq<Step>)
    decreases |run|
  {
    run != [] ==> Enabled(c, s, run[0]) && Legal(c, accept, Apply(c, accept, s, run[0]), run[1..])
  }

  ghost function After(c: Content, accept: Acceptor, s: State, run: seq<Step>): State
    requires Legal(c, accept, s, run)
    decreases |run|
  {
    if run == [] then s else After(c, accept, Apply(c, accept, s, run[0]), run[1..])
  }

  lemma {:induction false} Splits(c: Content, accept: Acceptor, s: State, a: seq<Step>, b: seq<Step>)
    ensures Legal(c, accept, s, a + b) <==> Legal(c, accept, s, a) && Legal(c, accept, After(c, accept, s, a), b)
    ensures Legal(c, accept, s, a + b) ==>
      After(c, accept, s, a + b) == After(c, accept, After(c, accept, s, a), b)
    decreases |a|
  {
    if a == [] {
      assert a + b == b;
    } else {
      assert (a + b)[0] == a[0] && (a + b)[1..] == a[1..] + b;
      if Enabled(c, s, a[0]) {
        Splits(c, accept, Apply(c, accept, s, a[0]), a[1..], b);
      }
    }
  }

  // ---- each read renders exactly one published snapshot ----

  /** The versions a run publishes. */
  ghost function Published(c: Content, accept: Acceptor, s: State, run: seq<Step>): set<nat>
    requires Legal(c, accept, s, run)
    decreases |run|
  {
    if run == [] then {}
    else
      (if run[0].Publish? then {s.publishers[run[0].p].value} else {})
      + Published(c, accept, Apply(c, accept, s, run[0]), run[1..])
  }

  ghost predicate ReaderOk(c: Content, accept: Acceptor, versions: set<nat>, r: Reader) {
    match r
    case Arriving => true
    case Scraping(v, k, sent) =>
      v in versions && k <= |c(v).names| && sent == ScrapeNames(c(v), accept, c(v).names[..k])
    case Pushing(gauges, vs, observed) =>
      && |vs| == |observed| <= |gauges|
      && forall i :: 0 <= i < |vs| ==> vs[i] in versions && observed[i] == Observations(c(vs[i]), gauges[i])
  }

  /** Everything read so far is one of the given versions. */
  ghost predicate ReadersOk(c: Content, accept: Acceptor, versions: set<nat>, s: State) {
    && s.current in versions
    && (forall r :: 0 <= r < |s.readers| ==> ReaderOk(c, accept, versions, s.readers[r]))
    && forall i :: 0 <= i < |s.loads| ==> s.loads[i] in versions
  }

  lemma EmitOk(c: Content, accept: Acceptor, versions: set<nat>, v: nat, k: nat, sent: seq<Series>)
    requires ReaderOk(c, accept, versions, Scraping(v, k, sent)) && k < |c(v).names|
    ensures ReaderOk(c, accept, versions, Scraping(v, k + 1, sent + ScrapeMetric(c(v), accept, c(v).names[k])))
  {
    var ns := c(v).names;
    assert ns[..k + 1][..k] == ns[..k];
  }

  lemma ReadStepOk(c: Content, accept: Acceptor, versions: set<nat>, s: State, a: Step)
    requires ReadersOk(c, accept, versions, s) && Enabled(c, s, a)
    ensures ReadersOk(c, accept, versions + (if a.Publish? then {s.publishers[a.p].value} else {}),
      Apply(c, accept, s, a))
  {
    match a
    case Emit(r) =>
      var Scraping(v, k, sent) := s.readers[r];
      EmitOk(c, accept, versions, v, k, sent);
    case Load(r) =>
      assert c(s.current).names[..0] == [];
    case Publish(p) =>
      forall r | 0 <= r < |s.readers|
        ensures ReaderOk(c, accept, versions + {s.publishers[p].value}, s.readers[r])
      {
        assert ReaderOk(c, accept, versions, s.readers[r]);
      }
    case _ =>
  }

  lemma {:induction false} RunOk(c: Content, accept: Acceptor, versions: set<nat>, s: State, run: seq<Step>)
    requires ReadersOk(c, accept, versions, s) && Legal(c, accept, s, run)
    ensures ReadersOk(c, accept, versions + Published(c, accept, s, run), After(c, accept, s, run))
    decreases |run|
  {
    if run == [] {
      assert versions + {} == versions;
    } else {
      var now := if run[0].Publish? then {s.publishers[run[0].p].value} else {};
      ReadStepOk(c, accept, versions, s, run[0]);
      RunOk(c, accept, versions + now, Apply(c, accept, s, run[0]), run[1..]);
      assert versions + now + Published(c, accept, Apply(c, accept, s, run[0]), run[1..])
        == versions + Published(c, accept, s, run);
    }
  }

  predicate Done(c: Content, r: Reader) {
    match r
    case Arriving => false
    case Scraping(v, k, _) => k == |c(v).names|
    case Pushing(gauges, vs, _) => |vs| == |gauges|
  }

  /** Publication safety, over every interleaving and for however many publishers: a
      finished scrape is the scrape of one snapshot, and each callback of a push observes
      one; and each is a snapshot the run has published, or the initial empty one. */
  lemma EachReadIsOneSnapshot(c: Content, accept: Acceptor, s: State, run: seq<Step>, r: nat)
    requires Initial(s) && Legal(c, accept, s, run) && r < |After(c, accept, s, run).readers|
    requires Done(c, After(c, accept, s, run).readers[r])
    ensures var versions := {0} + Published(c, accept, s, run);
      match After(c, accept, s, run).readers[r]
      case Scraping(v, _, sent) => v in versions && sent == Scrape(c(v), accept)
      case Pushing(gauges, vs, observed) =>
        && |vs| == |observed| == |gauges|
        && forall i :: 0 <= i < |gauges| ==> vs[i] in versions && observed[i] == Observations(c(vs[i]), gauges[i])
      case Arriving => false
  {
    RunOk(c, accept, {0}, s, run);
    var t := After(c, accept, s, run);
    if t.readers[r].Scraping? {
      var ns := c(t.readers[r].version).names;
      assert ns[..|ns|] == ns;
    }
  }

  /** Nothing is read before it is published: at every moment of a run, every version
      loaded so far is one that the run so far has published, or the initial one. */
  lemma LoadsArePublished(c: Content, accept: Acceptor, s: State, run: seq<Step>, k: nat)
    requires Initial(s) && Legal(c, accept, s, run) && k <= |run|
    ensures Legal(c, accept, s, run[..k])
    ensures var t := After(c, accept, s, run[..k]);
      forall i :: 0 <= i < |t.loads| ==> t.loads[i] in {0} + Published(c, accept, s, run[..k])
  {
    assert run[..k] + run[k..] == run;
    Splits(c, accept, s, run[..k], run[k..]);
    RunOk(c, accept, {0}, s, run[..k]);
  }

  /** A scrape before the first publication renders the empty snapshot: nothing. */
  lemma ColdStart(c: Content, accept: Acceptor)
    requires StartsEmpty(c)
    ensures Scrape(c(0), accept) == [] && forall n :: Observations(c(0), n) == []
  {
  }

  // ---- with one publisher, versions never go backwards ----

  predicate Sorted(s: seq<nat>) {
    forall i, j :: 0 <= i < j < |s| ==> s[i] <= s[j]
  }

  predicate AtMost(s: seq<nat>, n: nat) {
    forall i :: 0 <= i < |s| ==> s[i] <= n
  }

  ghost predicate Forward(s: State) {
    && |s.publishers| == 1
    && (if s.publishers[0].Some? then s.current < s.publishers[0].value == s.started else s.current == s.started)
    && Sorted(s.loads) && AtMost(s.loads, s.current)
    && (forall r :: 0 <= r < |s.readers| && s.readers[r].Pushing? ==>
         Sorted(s.readers[r].versions) && AtMost(s.readers[r].versions, s.current))
  }

  lemma StepForward(c: Content, accept: Acceptor, s: State, a: Step)
    requires Forward(s) && Enabled(c, s, a)
    ensures Forward(Apply(c, accept, s, a)) && s.current <= Apply(c, accept, s, a).current
  {
    var t := Apply(c, accept, s, a);
    forall r | 0 <= r < |t.readers| && t.readers[r].Pushing?
      ensures Sorted(t.readers[r].versions) && AtMost(t.readers[r].versions, t.current)
    {
      assert a == Gather(r) || s.readers[r].Pushing?;
    }
  }

  lemma {:induction false} RunForward(c: Content, accept: Acceptor, s: State, run: seq<Step>)
    requires Forward(s) && Legal(c, accept, s, run)
    ensures Forward(After(c, accept, s, run)) && s.current <= After(c, accept, s, run).current
    decreases |run|
  {
    if run == [] {
    } else {
      StepForward(c, accept, s, run[0]);
      RunForward(c, accept, Apply(c, accept, s, run[0]), run[1..]);
    }
  }

  /** The first cycle and the loop share one goroutine. Then the versions that
      readers load, all readers together and in time order, never go backwards. */
  lemma NeverBackwards(c: Content, accept: Acceptor, s: State, run: seq<Step>)
    requires Initial(s) && |s.publishers| == 1 && Legal(c, accept, s, run)
    ensures Sorted(After(c, accept, s, run).loads)
    ensures Forward(After(c, accept, s, run))
  {
    RunForward(c, accept, s, run);
  }

  lemma {:induction false} KeepsVersion(c: Content, accept: Acceptor, s: State, run: seq<Step>, r: nat)
    requires Legal(c, accept, s, run) && r < |s.readers| && s.readers[r].Scraping?
    ensures var t := After(c, accept, s, run);
      |t.readers| == |s.readers| && t.readers[r].Scraping? && t.readers[r].version == s.readers[r].version
    ensures Load(r) !in run
    decreases |run|
  {
    if run == [] {
    } else {
      KeepsVersion(c, accept, Apply(c, accept, s, run[0]), run[1..], r);
      assert run == [run[0]] + run[1..];
    }
  }

  /** A scrape that loads in a run gets a version no older than what is current before. */
  lemma {:induction false} LoadsLater(c: Content, accept: Acceptor, s: State, run: seq<Step>, r: nat)
    requires Forward(s) && Legal(c, accept, s, run) && Load(r) in run
    ensures var t := After(c, accept, s, run);
      r < |s.readers| == |t.readers| && t.readers[r].Scraping? && t.readers[r].version >= s.current
    ensures s.readers[r].Arriving?
    decreases |run|
  {
    var t := Apply(c, accept, s, run[0]);
    StepForward(c, accept, s, run[0]);
    assert run == [run[0]] + run[1..];
    if run[0] == Load(r) {
      KeepsVersion(c, accept, t, run[1..], r);
    } else {
      LoadsLater(c, accept, t, run[1..], r);
    }
  }

  /** Of two scrapes the one that loads later has the same version or a newer one. */
  lemma {:induction false} LoadOrder(c: Content, accept: Acceptor, s: State, run: seq<Step>,
    a: nat, b: nat, r: nat, q: nat)
    requires Forward(s) && Legal(c, accept, s, run) && a < b < |run| && run[a] == Load(r) && run[b] == Load(q)
    ensures var t := After(c, accept, s, run);
      && r < |t.readers| && q < |t.readers| && t.readers[r].Scraping? && t.readers[q].Scraping?
      && t.readers[r].version <= t.readers[q].version
    decreases |run|
  {
    var t := Apply(c, accept, s, run[0]);
    StepForward(c, accept, s, run[0]);
    if a == 0 {
      assert run[1..][b - 1] == Load(q);
      KeepsVersion(c, accept, t, run[1..], r);
      LoadsLater(c, accept, t, run[1..], q);
    } else {
      LoadOrder(c, accept, t, run[1..], a - 1, b - 1, r, q);
    }
  }

  /** Two publishers would let a reader go back: of two cycles that overlap, the
      older one may publish last. */
  lemma TwoPublishersGoBack(c: Content, accept: Acceptor)
    ensures var s := State(0, 0, [None, None], [Arriving, Arriving], [], NEW_EXPORTER);
      var run := [Begin(0), Begin(1), Publish(1), Load(0), Publish(0), Load(1)];
      && Initial(s) && Legal(c, accept, s, run)
      && After(c, accept, s, run).loads == [2, 1]
  {
  }

  // ---- a push is not a scrape ----

  predicate OneVersion(versions: seq<nat>) {
    forall i :: 0 <= i < |versions| ==> versions[i] == versions[0]
  }

  /** No callback of reader r comes after a publication. */
  ghost predicate NoneAfterPublish(run: seq<Step>, r: nat) {
    forall j, k :: 0 <= j < k < |run| && run[j].Publish? ==> run[k] != Callback(r)
  }

  /** No publication lies between two callbacks of reader r. */
  ghost predicate NothingBetween(run: seq<Step>, r: nat) {
    forall i, j, k :: 0 <= i < j < k < |run| && run[i] == Callback(r) && run[j].Publish? ==> run[k] != Callback(r)
  }

  lemma NoneAfterFirst(run: seq<Step>, r: nat)
    requires run != []
    ensures NoneAfterPublish(run, r) <==>
      NoneAfterPublish(run[1..], r) && (run[0].Publish? ==> Callback(r) !in run[1..])
  {
    var rest := run[1..];
    if NoneAfterPublish(run, r) {
      assert forall j, k :: 0 <= j < k < |rest| ==> rest[j] == run[j + 1] && rest[k] == run[k + 1];
      forall k | 0 <= k < |rest| && run[0].Publish? ensures rest[k] != Callback(r) {
        assert run[k + 1] == rest[k];
      }
    }
    if NoneAfterPublish(rest, r) && (run[0].Publish? ==> Callback(r) !in rest) {
      forall j, k | 0 <= j < k < |run| && run[j].Publish? ensures run[k] != Callback(r) {
        assert run[k] == rest[k - 1];
        assert j > 0 ==> run[j] == rest[j - 1];
      }
    }
  }

  lemma NothingBetweenFirst(run: seq<Step>, r: nat)
    requires run != []
    ensures NothingBetween(run, r) <==>
      if run[0] == Callback(r) then NoneAfterPublish(run[1..], r) else NothingBetween(run[1..], r)
  {
    var rest := run[1..];
    assert forall k :: 0 <= k < |rest| ==> rest[k] == run[k + 1];
    if run[0] == Callback(r) && NoneAfterPublish(rest, r) {
      forall i, j, k | 0 <= i < j < k < |run| && run[i] == Callback(r) && run[j].Publish?
        ensures run[k] != Callback(r) {
        assert rest[j - 1].Publish? && rest[k - 1] == run[k];
      }
    }
    if run[0] != Callback(r) && NothingBetween(rest, r) {
      forall i, j, k | 0 <= i < j < k < |run| && run[i] == Callback(r) && run[j].Publish?
        ensures run[k] != Callback(r) {
        assert rest[i - 1] == Callback(r) && rest[j - 1].Publish? && rest[k - 1] == run[k];
      }
    }
    if NothingBetween(run, r) && run[0] == Callback(r) {
      forall j, k | 0 <= j < k < |rest| && rest[j].Publish? ensures rest[k] != Callback(r) {
        assert run[j + 1].Publish? && run[k + 1] == rest[k];
      }
    }
    if NothingBetween(run, r) && run[0] != Callback(r) {
      forall i, j, k | 0 <= i < j < k < |rest| && rest[i] == Callback(r) && rest[j].Publish?
        ensures rest[k] != Callback(r) {
        assert run[i + 1] == Callback(r) && run[j + 1].Publish? && run[k + 1] == rest[k];
      }
    }
  }

  predicate AtLeast(vs: seq<nat>, n: nat) { forall i :: 0 <= i < |vs| ==> vs[i] >= n }

  predicate AllAre(vs: seq<nat>, n: nat) { forall i :: 0 <= i < |vs| ==> vs[i] == n }

  /** What the callbacks of a run load, from a state on: nothing older than what is
      current there, and nothing newer exactly when none comes after a publication. */
  lemma {:induction false} LoadedFrom(c: Content, accept: Acceptor, s: State, run: seq<Step>, r: nat)
    returns (vs: seq<nat>)
    requires Forward(s) && Legal(c, accept, s, run) && r < |s.readers| && s.readers[r].Pushing?
    ensures var t := After(c, accept, s, run);
      |t.readers| == |s.readers| && t.readers[r].Pushing? && t.readers[r].versions == s.readers[r].versions + vs
    ensures AtLeast(vs, s.current) && (vs == [] <==> Callback(r) !in run)
    ensures AllAre(vs, s.current) <==> NoneAfterPublish(run, r)
    decreases |run|
  {
    if run == [] {
      vs := [];
      Regroup(s.readers[r].versions, [], []);
    } else {
      var t := Apply(c, accept, s, run[0]);
      StepForward(c, accept, s, run[0]);
      NoneAfterFirst(run, r);
      var later := LoadedFrom(c, accept, t, run[1..], r);
      assert run == [run[0]] + run[1..];
      if run[0] == Callback(r) {
        vs := [s.current] + later;
        Regroup(s.readers[r].versions, [s.current], later);
      } else {
        vs := later;
      }
      LaterVersions(s.current, t.current, vs, later, run[0] == Callback(r));
    }
  }

  lemma LaterVersions(now: nat, next: nat, vs: seq<nat>, later: seq<nat>, called: bool)
    requires now <= next && AtLeast(later, next) && vs == (if called then [now] + later else later)
    ensures AtLeast(vs, now)
    ensures next == now ==> (AllAre(vs, now) <==> AllAre(later, next))
    ensures next > now && !called ==> (AllAre(vs, now) <==> later == [])
  {
    if called {
      assert forall i :: 0 < i < |vs| ==> vs[i] == later[i - 1];
      assert forall i :: 0 <= i < |later| ==> later[i] == vs[i + 1];
    } else if later != [] {
      assert vs[0] >= next;
    }
  }

  lemma FirstVersions(now: nat, later: seq<nat>)
    ensures OneVersion([now] + later) <==> AllAre(later, now)
  {
    var all := [now] + later;
    assert forall i :: 0 < i < |all| ==> all[i] == later[i - 1];
    assert forall i :: 0 <= i < |later| ==> later[i] == all[i + 1];
  }

  /** A reader that has yet to arrive, or whose push has yet to call anything. */
  predicate NothingRead(r: Reader) { r.Arriving? || (r.Pushing? && r.versions == []) }

  lemma {:induction false} OneVersionFrom(c: Content, accept: Acceptor, s: State, run: seq<Step>, r: nat)
    requires Forward(s) && Legal(c, accept, s, run) && r < |s.readers| && NothingRead(s.readers[r])
    ensures var t := After(c, accept, s, run);
      |t.readers| == |s.readers|
      && (t.readers[r].Pushing? ==> (OneVersion(t.readers[r].versions) <==> NothingBetween(run, r)))
    decreases |run|
  {
    if run == [] {
    } else {
      var t := Apply(c, accept, s, run[0]);
      StepForward(c, accept, s, run[0]);
      NothingBetweenFirst(run, r);
      if run[0] == Callback(r) {
        var later := LoadedFrom(c, accept, t, run[1..], r);
        assert t.readers[r].versions == [s.current];
        FirstVersions(s.current, later);
      } else if run[0] == Load(r) {
        KeepsVersion(c, accept, t, run[1..], r);
      } else {
        OneVersionFrom(c, accept, t, run[1..], r);
      }
    }
  }

  lemma InitialForward(s: State)
    requires Initial(s) && |s.publishers| == 1
    ensures Forward(s)
  {
  }

  /** ADR 0002 has both exports always read the identical snapshot. With the one
      publisher the code has, a push does so exactly when nothing is published between
      its first and its last callback. */
  lemma PushConsistentIff(c: Content, accept: Acceptor, s: State, run: seq<Step>, r: nat)
    requires Initial(s) && |s.publishers| == 1 && Legal(c, accept, s, run)
    requires r < |After(c, accept, s, run).readers| && After(c, accept, s, run).readers[r].Pushing?
    ensures OneVersion(After(c, accept, s, run).readers[r].versions) <==> NothingBetween(run, r)
  {
    InitialForward(s);
    SameReaders(c, accept, s, run);
    OneVersionFrom(c, accept, s, run, r);
  }

  lemma {:induction false} SameReaders(c: Content, accept: Acceptor, s: State, run: seq<Step>)
    requires Legal(c, accept, s, run)
    ensures |After(c, accept, s, run).readers| == |s.readers|
    decreases |run|
  {
    if run == [] {
    } else {
      SameReaders(c, accept, Apply(c, accept, s, run[0]), run[1..]);
    }
  }

  // ---- gauges are registered one at a time, beside everything else ----

  /** What the passes that are over, run one by one as whole calls, and the begun part of
      the one in progress leave registered. */
  ghost predicate Faithful(c: Content, e: Exporter) {
    match e.pass
    case None => e.instruments == Run(e.calls)
    case Some(Pass(v, accepts, k)) =>
      && k <= |c(v).names| && Added(Run(e.calls).registered, c(v).names[..k], accepts).1
      && e.instruments == Ensure(Run(e.calls), c(v).names[..k], accepts)
  }

  lemma OneMoreCall(calls: seq<Registration>, call: Registration)
    ensures Run(calls + [call]) == Ensure(Run(calls), call.names, call.accepts)
  {
    assert (calls + [call])[..|calls|] == calls;
  }

  /** What one more name of a pass that has got so far adds. */
  lemma OneMoreName(before: Instruments, names: seq<Metric>, accepts: Meter, k: nat)
    requires k < |names| && Added(before.registered, names[..k], accepts).1
    ensures var now, n := Ensure(before, names[..k], accepts), names[k];
      if n in now.registered || accepts(n) then
        && Added(before.registered, names[..k + 1], accepts).1
        && Ensure(before, names[..k + 1], accepts)
           == if n in now.registered then now else Instruments(now.registered + {n}, now.gauges + [n])
      else Ensure(before, names, accepts) == now
  {
    assert names[..k + 1][..k] == names[..k] && names[..k + 1][k] == names[k];
    Regroup(before.gauges, Added(before.registered, names[..k], accepts).0, [names[k]]);
    if !Added(before.registered, names[..k + 1], accepts).1 {
      StoppedEarlier(before.registered, names, accepts, k + 1);
    }
  }

  lemma RegisterFaithful(c: Content, e: Exporter)
    requires e.pass.Some? && Faithful(c, e)
    ensures Faithful(c, RegisterOne(c, e))
  {
    var Pass(v, accepts, k) := e.pass.value;
    var names := c(v).names;
    OneMoreCall(e.calls, Registration(names, accepts));
    if k == |names| {
      assert names[..k] == names;
    } else {
      OneMoreName(Run(e.calls), names, accepts, k);
    }
  }

  lemma StepFaithful(c: Content, accept: Acceptor, s: State, a: Step)
    requires Faithful(c, s.exporter) && Enabled(c, s, a)
    ensures Faithful(c, Apply(c, accept, s, a).exporter)
  {
    match a
    case Look(_) =>
      Regroup(s.exporter.instruments.gauges, [], []);
    case Register =>
      RegisterFaithful(c, s.exporter);
    case _ =>
  }

  lemma {:induction false} RunFaithful(c: Content, accept: Acceptor, s: State, run: seq<Step>)
    requires Faithful(c, s.exporter) && Legal(c, accept, s, run)
    ensures Faithful(c, After(c, accept, s, run).exporter)
    decreases |run|
  {
    if run == [] {
    } else {
      StepFaithful(c, accept, s, run[0]);
      RunFaithful(c, accept, Apply(c, accept, s, run[0]), run[1..]);
    }
  }

  /** Registration in steps refines registration in whole calls: in every reachable state,
      whatever is published, scraped and pushed meanwhile, the gauges are those that the
      calls so far, one after another, register; and none is registered twice. So what
      module Otlp proves of runs of calls holds of the running exporter. */
  lemma RegistrationRefines(c: Content, accept: Acceptor, s: State, run: seq<Step>)
    requires Initial(s) && Legal(c, accept, s, run)
    ensures var e := After(c, accept, s, run).exporter;
      && Faithful(c, e) && Consistent(e.instruments)
      && (e.pass.None? ==> e.instruments == Run(e.calls))
  {
    RunFaithful(c, accept, s, run);
    FaithfulConsistent(c, After(c, accept, s, run).exporter);
  }

  lemma FaithfulConsistent(c: Content, e: Exporter)
    requires Faithful(c, e)
    ensures Consistent(e.instruments)
  {
    RegisteredOnce(e.calls);
    if e.pass.Some? {
      EnsureConsistent(Run(e.calls), c(e.pass.value.version).names[..e.pass.value.k], e.pass.value.accepts);
    }
  }

  // ---- a push never reads the empty store ----

  ghost predicate NamedIn(c: Content, versions: set<nat>, n: Metric) {
    exists v :: v in versions && n in c(v).names
  }

  /** Every gauge is a name of one of the versions. */
  ghost predicate NamesFrom(c: Content, versions: set<nat>, gauges: seq<Metric>) {
    forall i :: 0 <= i < |gauges| ==> NamedIn(c, versions, gauges[i])
  }

  ghost predicate PushFrom(c: Content, versions: set<nat>, r: Reader) {
    r.Pushing? ==>
      && NoDup(r.gauges) && NamesFrom(c, versions, r.gauges)
      && forall i :: 0 <= i < |r.versions| ==> r.versions[i] in versions
  }

  /** Everything the exporter has is from published versions; as long as there is none,
      it has no gauge. */
  ghost predicate Warm(c: Content, versions: set<nat>, s: State) {
    && Faithful(c, s.exporter)
    && (s.current in versions || (s.current == 0 && versions == {}))
    && (forall p :: 0 <= p < |s.publishers| && s.publishers[p].Some? ==> s.publishers[p].value > 0)
    && NamesFrom(c, versions, s.exporter.instruments.gauges)
    && (s.exporter.pass.Some? ==> s.exporter.pass.value.version in versions || s.exporter.pass.value.version == 0)
    && (forall r :: 0 <= r < |s.readers| ==> PushFrom(c, versions, s.readers[r]))
  }

  lemma MoreVersions(c: Content, versions: set<nat>, more: set<nat>, gauges: seq<Metric>)
    requires NamesFrom(c, versions, gauges) && versions <= more
    ensures NamesFrom(c, more, gauges)
  {
    forall i | 0 <= i < |gauges| ensures NamedIn(c, more, gauges[i]) {
      assert NamedIn(c, versions, gauges[i]);
    }
  }

  lemma MorePush(c: Content, versions: set<nat>, more: set<nat>, r: Reader)
    requires PushFrom(c, versions, r) && versions <= more
    ensures PushFrom(c, more, r)
  {
    if r.Pushing? {
      MoreVersions(c, versions, more, r.gauges);
    }
  }

  lemma PublishWarm(c: Content, accept: Acceptor, versions: set<nat>, s: State, p: nat)
    requires Warm(c, versions, s) && Enabled(c, s, Publish(p))
    ensures Warm(c, versions + {s.publishers[p].value}, Apply(c, accept, s, Publish(p)))
  {
    var more := versions + {s.publishers[p].value};
    MoreVersions(c, versions, more, s.exporter.instruments.gauges);
    forall r | 0 <= r < |s.readers| ensures PushFrom(c, more, s.readers[r]) {
      MorePush(c, versions, more, s.readers[r]);
    }
  }

  lemma RegisterWarm(c: Content, accept: Acceptor, versions: set<nat>, s: State)
    requires StartsEmpty(c) && Warm(c, versions, s) && Enabled(c, s, Register)
    ensures Warm(c, versions, Apply(c, accept, s, Register))
  {
    var e := s.exporter;
    var Pass(v, _, k) := e.pass.value;
    RegisterFaithful(c, e);
    if k < |c(v).names| {
      assert NamedIn(c, versions, c(v).names[k]);
    }
  }

  lemma CallbackWarm(c: Content, accept: Acceptor, versions: set<nat>, s: State, r: nat)
    requires Warm(c, versions, s) && Enabled(c, s, Callback(r))
    ensures Warm(c, versions, Apply(c, accept, s, Callback(r)))
  {
    assert PushFrom(c, versions, s.readers[r]);
    assert NamedIn(c, versions, s.readers[r].gauges[0]);
  }

  lemma StepWarm(c: Content, accept: Acceptor, versions: set<nat>, s: State, a: Step)
    requires StartsEmpty(c) && Warm(c, versions, s) && Enabled(c, s, a)
    ensures Warm(c, versions + (if a.Publish? then {s.publishers[a.p].value} else {}), Apply(c, accept, s, a))
  {
    assert versions + {} == versions;
    StepFaithful(c, accept, s, a);
    match a
    case Publish(p) => PublishWarm(c, accept, versions, s, p);
    case Register => RegisterWarm(c, accept, versions, s);
    case Callback(r) => CallbackWarm(c, accept, versions, s, r);
    case Gather(r) => FaithfulConsistent(c, s.exporter);
    case _ =>
  }

  lemma {:induction false} RunWarm(c: Content, accept: Acceptor, versions: set<nat>, s: State, run: seq<Step>)
    requires StartsEmpty(c) && Warm(c, versions, s) && Legal(c, accept, s, run)
    ensures Warm(c, versions + Published(c, accept, s, run), After(c, accept, s, run))
    decreases |run|
  {
    if run == [] {
      assert versions + {} == versions;
    } else {
      var now := if run[0].Publish? then {s.publishers[run[0].p].value} else {};
      StepWarm(c, accept, versions, s, run[0]);
      RunWarm(c, accept, versions + now, Apply(c, accept, s, run[0]), run[1..]);
      assert versions + now + Published(c, accept, Apply(c, accept, s, run[0]), run[1..])
        == versions + Published(c, accept, s, run);
    }
  }

  /** A push never reads the empty store of the start: at every moment each of its gauges
      is a name of a snapshot the run has published, no gauge occurs twice, and every
      version its callbacks have loaded is one the run has published. */
  lemma PushesArePublished(c: Content, accept: Acceptor, s: State, run: seq<Step>, r: nat)
    requires StartsEmpty(c) && Initial(s) && Legal(c, accept, s, run)
    requires r < |After(c, accept, s, run).readers| && After(c, accept, s, run).readers[r].Pushing?
    ensures PushFrom(c, Published(c, accept, s, run), After(c, accept, s, run).readers[r])
  {
    RunWarm(c, accept, {}, s, run);
    assert {} + Published(c, accept, s, run) == Published(c, accept, s, run);
  }

  // ---- a push can mix snapshots ----

  function AnyName(): Meter { (n: Metric) => true }

  lemma {:induction false} AddedAll(names: seq<Metric>)
    requires NoDup(names)
    ensures Added({}, names, AnyName()) == (names, true)
  {
    if names == [] {
    } else {
      AddedAll(names[..|names| - 1]);
      LastIsNew(names, names[|names| - 1]);
      assert names == names[..|names| - 1] + [names[|names| - 1]];
    }
  }

  /** The pass in progress, run to its end, and nothing else. */
  lemma {:induction false} FinishPass(c: Content, accept: Acceptor, s: State) returns (run: seq<Step>)
    requires s.exporter.pass.Some?
    ensures Legal(c, accept, s, run)
    ensures var t := After(c, accept, s, run);
      && t == s.(exporter := t.exporter) && t.exporter.pass.None?
      && t.exporter.calls == EndPass(c, s.exporter).calls
    decreases |c(s.exporter.pass.value.version).names| - s.exporter.pass.value.k
  {
    var t := Apply(c, accept, s, Register);
    run := [Register];
    assert run[1..] == [];
    if t.exporter.pass.Some? {
      var rest := FinishPass(c, accept, t);
      run := [Register] + rest;
      assert run[1..] == rest;
    }
  }

  /** The push in progress, run to its end, and nothing else. */
  lemma {:induction false} FinishPush(c: Content, accept: Acceptor, s: State, r: nat) returns (run: seq<Step>)
    requires r < |s.readers| && s.readers[r].Pushing? && |s.readers[r].versions| <= |s.readers[r].gauges|
    ensures Legal(c, accept, s, run)
    ensures var t := After(c, accept, s, run);
      && |t.readers| == |s.readers| && t.readers[r].Pushing? && Done(c, t.readers[r])
      && t.readers[r].gauges == s.readers[r].gauges && s.readers[r].versions <= t.readers[r].versions
    decreases |s.readers[r].gauges| - |s.readers[r].versions|
  {
    run := [];
    if |s.readers[r].versions| < |s.readers[r].gauges| {
      var rest := FinishPush(c, accept, Apply(c, accept, s, Callback(r)), r);
      run := [Callback(r)] + rest;
      assert run[1..] == rest;
    }
  }

  /** A new store with one publisher, one reader to come, and the exporter. */
  const START := State(0, 0, [None], [Arriving], [], NEW_EXPORTER)

  const LOOKED := State(1, 1, [None], [Arriving], [1], NEW_EXPORTER.(pass := Some(Pass(1, AnyName(), 0))))

  lemma FirstLook(c: Content, accept: Acceptor)
    ensures var run := [Begin(0), Publish(0), Look(AnyName())];
      Legal(c, accept, START, run) && After(c, accept, START, run) == LOOKED
  {
    assert [] + [1] == [1];
  }

  lemma OneCallRegistersAll(names: seq<Metric>)
    requires NoDup(names)
    ensures Run([Registration(names, AnyName())]).gauges == names
  {
    var call := Registration(names, AnyName());
    assert [] + [call] == [call];
    OneMoreCall([], call);
    AddedAll(names);
    assert [] + names == names;
  }

  lemma FirstPass(c: Content, accept: Acceptor) returns (run: seq<Step>)
    requires NoDup(c(1).names)
    ensures Legal(c, accept, LOOKED, run)
    ensures var t := After(c, accept, LOOKED, run);
      t == LOOKED.(exporter := t.exporter) && t.exporter.instruments.gauges == c(1).names
  {
    run := FinishPass(c, accept, LOOKED);
    assert c(1).names[..0] == [];
    RunFaithful(c, accept, LOOKED, run);
    var call := Registration(c(1).names, AnyName());
    assert [] + [call] == [call];
    OneCallRegistersAll(call.names);
  }

  /** The first cycle is published, its names are registered, and a push starts. */
  lemma FirstPush(c: Content, accept: Acceptor) returns (run: seq<Step>)
    requires NoDup(c(1).names)
    ensures Legal(c, accept, START, run)
    ensures var t := After(c, accept, START, run);
      t.current == 1 == t.started && t.publishers == [None] && t.readers == [Pushing(c(1).names, [], [])]
  {
    FirstLook(c, accept);
    var head := [Begin(0), Publish(0), Look(AnyName())];
    var pass := FirstPass(c, accept);
    Splits(c, accept, START, head, pass);
    OneGather(c, accept, After(c, accept, LOOKED, pass));
    Splits(c, accept, START, head + pass, [Gather(0)]);
    run := head + pass + [Gather(0)];
  }

  lemma OneGather(c: Content, accept: Acceptor, s: State)
    requires s.readers == [Arriving]
    ensures Legal(c, accept, s, [Gather(0)])
    ensures After(c, accept, s, [Gather(0)]) == s.(readers := [Pushing(s.exporter.instruments.gauges, [], [])])
  {
  }

  /** It does not always: whenever the first snapshot has two names, some push, of gauges
      registered from that snapshot, observes the first of them in it and the second in
      the snapshot published in between. */
  lemma MixedPush(c: Content, accept: Acceptor) returns (run: seq<Step>)
    requires NoDup(c(1).names) && |c(1).names| >= 2
    ensures Initial(START) && Legal(c, accept, START, run)
    ensures var t := After(c, accept, START, run);
      && |t.readers| == 1 && t.readers[0].Pushing? && Done(c, t.readers[0]) && t.readers[0].gauges == c(1).names
      && t.readers[0].versions[..2] == [1, 2] && |t.readers[0].observed| == |c(1).names|
      && t.readers[0].observed[0] == Observations(c(1), c(1).names[0])
      && t.readers[0].observed[1] == Observations(c(2), c(1).names[1])
  {
    var between := [Callback(0), Begin(0), Publish(0), Callback(0)];
    var first := FirstPush(c, accept);
    var t := After(c, accept, START, first);
    TwoCallbacks(c, accept, t);
    Splits(c, accept, START, first, between);
    var rest := FinishPush(c, accept, After(c, accept, t, between), 0);
    Splits(c, accept, START, first + between, rest);
    run := first + between + rest;
    EachReadIsOneSnapshot(c, accept, START, run, 0);
    var vs := After(c, accept, START, run).readers[0].versions;
    assert vs[..2] == [1, 2] ==> vs[0] == 1 && vs[1] == 2;
  }

  lemma TwoCallbacks(c: Content, accept: Acceptor, s: State)
    requires s.current == 1 == s.started && s.publishers == [None]
    requires |s.readers| == 1 && s.readers[0].Pushing? && |s.readers[0].gauges| >= 2
    requires s.readers[0].versions == [] && s.readers[0].observed == []
    ensures var run := [Callback(0), Begin(0), Publish(0), Callback(0)];
      && Legal(c, accept, s, run)
      && |After(c, accept, s, run).readers| == 1 && After(c, accept, s, run).readers[0].Pushing?
      && After(c, accept, s, run).readers[0].gauges == s.readers[0].gauges
      && After(c, accept, s, run).readers[0].versions == [1, 2]
  {
    assert [] + [1] == [1] && [1] + [2] == [1, 2];
  }
}
