/** internal/pve/otlp.go: one observable gauge per metric name, registered once,
    whose callback reads the latest snapshot. */
module Otlp {
  import opened Seqs
  import opened Metrics
  import opened Plans
  import opened Snapshots
  import opened Signatures
  import opened Exports
  import opened ScrapeProperties

  /** Whether the meter accepts a new gauge of that name, this time. */
  type Meter = Metric -> bool

  /** The names in the registered map, and the gauges the meter was given, in order. */
  datatype Instruments = Instruments(registered: set<Metric>, gauges: seq<Metric>)

  /** One pass over the names of a snapshot: the gauges it adds, and whether it got
      to the end. It stops at the first name the meter refuses. */
  function Added(registered: set<Metric>, names: seq<Metric>, accepts: Meter): (seq<Metric>, bool) {
    if names == [] then ([], true)
    else
      var n := names[|names| - 1];
      var (added, ok) := Added(registered, names[..|names| - 1], accepts);
      if !ok || n in registered || n in added then (added, ok)
      else if accepts(n) then (added + [n], true)
      else (added, false)
  }

  function Names(ns: seq<Metric>): set<Metric> { set n | n in ns }

  function Ensure(s: Instruments, names: seq<Metric>, accepts: Meter): Instruments {
    var (added, _) := Added(s.registered, names, accepts);
    Instruments(s.registered + Names(added), s.gauges + added)
  }

  lemma {:induction false} StoppedEarlier(registered: set<Metric>, names: seq<Metric>, accepts: Meter, k: nat)
    requires k <= |names| && !Added(registered, names[..k], accepts).1
    ensures Added(registered, names, accepts) == Added(registered, names[..k], accepts)
    decreases |names|
  {
    if k == |names| {
      assert names[..k] == names;
    } else {
      assert names[..|names| - 1][..k] == names[..k];
      StoppedEarlier(registered, names[..|names| - 1], accepts, k);
    }
  }

  datatype Observation = Observation(value: real, attrs: seq<Label>)

  function Observations(idx: Index, n: Metric): (os: seq<Observation>)
    ensures |os| == |idx.SamplesFor(n)|
  {
    var ss := idx.SamplesFor(n);
    seq(|ss|, i requires 0 <= i < |ss| => Observation(ss[i].value, ss[i].labels))
  }

  method AttrsFor(labels: seq<Label>) returns (attrs: array<Label>)
    ensures fresh(attrs) && attrs[..] == labels
  {
    attrs := new Label[|labels|](_ => Label("", ""));
    for i := 0 to |labels|
      invariant forall k :: 0 <= k < i ==> attrs[k] == labels[k]
    {
      attrs[i] := Label(labels[i].name, labels[i].value);
    }
  }

  class OTLPExporter {
    const store: SnapshotStore
    var registered: set<Metric>
    var gauges: seq<Metric>

    constructor (store: SnapshotStore)
      ensures this.store == store && View() == Instruments({}, [])
    {
      this.store := store;
      registered, gauges := {}, [];
    }

    function View(): Instruments
      reads this
    {
      Instruments(registered, gauges)
    }

    /** Returns early when the meter refuses a name; what was registered before
        that stays registered. */
    method EnsureInstruments(accepts: Meter) returns (ok: bool)
      modifies this
      ensures View() == Ensure(old(View()), store.current.View().names, accepts)
      ensures ok == Added(old(registered), store.current.View().names, accepts).1
    {
      var snap := store.Load();
      var names := snap.MetricNames();
      ghost var before := View();
      Regroup(gauges, [], []);
      for k := 0 to |names|
        invariant View() == Ensure(before, names[..k], accepts)
        invariant Added(before.registered, names[..k], accepts).1
      {
        var name := names[k];
        ghost var added := Added(before.registered, names[..k], accepts).0;
        assert names[..k + 1][..k] == names[..k];
        if name in registered {
          continue;
        }
        if !accepts(name) {
          StoppedEarlier(before.registered, names, accepts, k + 1);
          return false;
        }
        gauges := gauges + [name];
        registered := registered + {name};
        Regroup(before.gauges, added, [name]);
      }
      assert names[..|names|] == names;
      return true;
    }

    /** A gauge's callback: it loads the store anew. */
    method Callback(name: Metric) returns (observed: seq<Observation>)
      ensures observed == Observations(store.current.View(), name)
      ensures var samples := store.current.View().SamplesFor(name);
        |observed| == |samples| && forall k :: 0 <= k < |samples| ==>
          observed[k].value == samples[k].value && observed[k].attrs == samples[k].labels
    {
      var snap := store.Load();
      var samples := snap.SamplesFor(name);
      observed := [];
      for i := 0 to |samples|
        invariant |observed| == i
        invariant forall k :: 0 <= k < i ==> observed[k] == Observation(samples[k].value, samples[k].labels)
      {
        var attrs := AttrsFor(samples[i].labels);
        observed := observed + [Observation(samples[i].value, attrs[..])];
      }
    }
  }

  // ---- over any run of calls and snapshot swaps ----

  /** A call holds the mutex throughout, so a run is a list of calls: the names of
      the snapshot each one loaded, and what the meter made of them. */
  datatype Registration = Registration(names: seq<Metric>, accepts: Meter)

  function Run(calls: seq<Registration>): Instruments {
    if calls == [] then Instruments({}, [])
    else Ensure(Run(calls[..|calls| - 1]), calls[|calls| - 1].names, calls[|calls| - 1].accepts)
  }

  /** Whether call k of the run returned nil. */
  predicate Succeeded(calls: seq<Registration>, k: nat)
    requires k < |calls|
  {
    Added(Run(calls[..k]).registered, calls[k].names, calls[k].accepts).1
  }

  lemma {:induction false} AddedIsNew(registered: set<Metric>, names: seq<Metric>, accepts: Meter)
    ensures var (added, ok) := Added(registered, names, accepts);
      && NoDup(added)
      && (forall n :: n in added ==> n in names && n !in registered && accepts(n))
      && (ok ==> forall n :: n in names ==> n in registered || n in added)
  {
    if names == [] {
    } else {
      var init, n := names[..|names| - 1], names[|names| - 1];
      AddedIsNew(registered, init, accepts);
      assert names == init + [n];
    }
  }

  /** A pass gets to the end exactly when the meter accepts every name that is not
      registered yet. */
  lemma {:induction false} SucceedsIff(registered: set<Metric>, names: seq<Metric>, accepts: Meter)
    ensures Added(registered, names, accepts).1 <==> forall n :: n in names ==> n in registered || accepts(n)
  {
    if names == [] {
    } else {
      var init, n := names[..|names| - 1], names[|names| - 1];
      SucceedsIff(registered, init, accepts);
      AddedIsNew(registered, init, accepts);
      assert names == init + [n];
    }
  }

  /** The registered map and the meter agree, and no gauge was created twice. */
  ghost predicate Consistent(s: Instruments) {
    NoDup(s.gauges) && s.registered == Names(s.gauges)
  }

  lemma EnsureConsistent(s: Instruments, names: seq<Metric>, accepts: Meter)
    requires Consistent(s)
    ensures Consistent(Ensure(s, names, accepts))
  {
    var added := Added(s.registered, names, accepts).0;
    AddedIsNew(s.registered, names, accepts);
    var all := s.gauges + added;
    forall i, j | 0 <= i < j < |all| ensures all[i] != all[j] {
      if i < |s.gauges| <= j {
        assert all[i] in s.registered && all[j] in added;
      }
    }
  }

  /** Registered at most once, and only names seen in some loaded snapshot. */
  lemma {:induction false} RegisteredOnce(calls: seq<Registration>)
    ensures Consistent(Run(calls))
    ensures forall n :: n in Run(calls).registered ==> exists k :: 0 <= k < |calls| && n in calls[k].names
  {
    if calls == [] {
    } else {
      var init, c := calls[..|calls| - 1], calls[|calls| - 1];
      RegisteredOnce(init);
      EnsureConsistent(Run(init), c.names, c.accepts);
      AddedIsNew(Run(init).registered, c.names, c.accepts);
      forall n | n in Run(calls).registered ensures exists k :: 0 <= k < |calls| && n in calls[k].names {
        if n in Run(init).registered {
          var k :| 0 <= k < |init| && n in init[k].names;
          assert n in calls[k].names;
        } else {
          assert n in calls[|init|].names;
        }
      }
    }
  }

  /** The registered set never shrinks, and gauges keep their place. */
  lemma {:induction false} NeverShrinks(calls: seq<Registration>, k: nat)
    requires k <= |calls|
    ensures Run(calls[..k]).registered <= Run(calls).registered
    ensures Run(calls[..k]).gauges <= Run(calls).gauges
    decreases |calls|
  {
    if k == |calls| {
      assert calls[..k] == calls;
    } else {
      assert calls[..|calls| - 1][..k] == calls[..k];
      NeverShrinks(calls[..|calls| - 1], k);
    }
  }

  lemma CallCovers(calls: seq<Registration>, k: nat, n: Metric)
    requires k < |calls| && Succeeded(calls, k) && n in calls[k].names
    ensures n in Run(calls[..k + 1]).registered
  {
    AddedIsNew(Run(calls[..k]).registered, calls[k].names, calls[k].accepts);
    assert calls[..k + 1][..k] == calls[..k];
  }

  /** A call that succeeds covers every name of the snapshot it loaded, from then
      on, whatever earlier calls failed part-way. */
  lemma SuccessCovers(calls: seq<Registration>, k: nat, n: Metric)
    requires k < |calls| && Succeeded(calls, k) && n in calls[k].names
    ensures n in Run(calls).registered && multiset(Run(calls).gauges)[n] == 1
  {
    CallCovers(calls, k, n);
    NeverShrinks(calls, k + 1);
    RegisteredOnce(calls);
    DistinctMeansOne(Run(calls).gauges, n);
  }

  // ---- the two exports of one snapshot ----

  lemma ObservedIff(ss: seq<Sample>, n: Metric, labels: seq<Label>)
    ensures (n, labels) in KeySet(Identity, ss)
      <==> exists j :: 0 <= j < |Named(n, ss)| && Named(n, ss)[j].labels == labels
  {
    var group := Named(n, ss);
    KeySetMember(Identity, ss, (n, labels));
    if i :| 0 <= i < |ss| && Identity(ss[i]) == (n, labels) {
      FilterMember(IsNamed(n), ss, ss[i]);
    }
    if j :| 0 <= j < |group| && group[j].labels == labels {
      FilterMember(IsNamed(n), ss, group[j]);
      var i :| 0 <= i < |ss| && ss[i] == group[j];
      assert Identity(ss[i]) == (n, labels);
    }
  }

  predicate IsSeries(x: Series, n: Metric, labels: seq<Label>) {
    x.name == n && x.keys == Keys(labels) && x.values == Values(labels)
  }

  /** Observation i has that value, and is the first one with those attributes. */
  predicate FirstObserved(os: seq<Observation>, i: nat, attrs: seq<Label>, value: real) {
    i < |os| && os[i].attrs == attrs && os[i].value == value && forall k :: 0 <= k < i ==> os[k].attrs != attrs
  }

  lemma ObservedFirst(results: seq<Option<TargetSnapshot>>, accept: Acceptor, n: Metric, labels: seq<Label>, x: Series)
    returns (i: nat)
    requires Telling(AllSamples(results)) && x in Scrape(IndexOf(results), accept) && IsSeries(x, n, labels)
    ensures FirstObserved(Observations(IndexOf(results), n), i, labels, x.value)
  {
    var group := Named(n, AllSamples(results));
    LookupIsFilter(results, n);
    FromItsMetric(results, accept, IndexOf(results).names, x);
    MetricExact(results, accept, n);
    KeepFirstFilter(Identity, IsNamed(n), AllSamples(results));
    i := KeptFirst(accept, group, labels, x);
    FilterMember(IsNamed(n), AllSamples(results), group[i]);
    forall k | 0 <= k < i ensures group[k].labels != labels {
      FilterMember(IsNamed(n), AllSamples(results), group[k]);
    }
  }

  /** The sample an emitted series comes from is the first of its name and labels. */
  lemma KeptFirst(accept: Acceptor, group: seq<Sample>, labels: seq<Label>, x: Series) returns (i: nat)
    requires x in Emit(accept, KeepFirst(Identity, group)) && x.keys == Keys(labels) && x.values == Values(labels)
    ensures i < |group| && group[i].labels == labels && group[i].value == x.value && group[i].name == x.name
    ensures forall k :: 0 <= k < i ==> group[k].name != x.name || group[k].labels != labels
  {
    var kept, ix := KeepFirst(Identity, group), FirstIndices(Identity, group);
    EmitMember(accept, kept, x);
    KeepFirstPicks(Identity, group);
    FirstIndicesExact(Identity, group);
    var k :| 0 <= k < |kept| && Accepts(accept, kept[k]) && SeriesOf(kept[k]) == x;
    SameKeysAndValues(kept[k].labels, labels);
    i := ix[k];
    assert i in ix && FirstAt(Identity, group, i);
    forall j | 0 <= j < i ensures Identity(group[j]) != (x.name, labels) {
      KeySetMember(Identity, group[..i], Identity(group[i]));
      assert group[..i][j] == group[j];
    }
  }

  /** On one snapshot both readers tell of the same series: a scrape has exactly
      those the gauge observes, save for labels the client library refuses, and with the
      value the gauge observes first for its labels. */
  lemma ReadersAgree(results: seq<Option<TargetSnapshot>>, accept: Acceptor, n: Metric, labels: seq<Label>)
    requires Telling(AllSamples(results))
    ensures Has(Scrape(IndexOf(results), accept), n, labels) <==>
      && accept(n, Keys(labels), Values(labels))
      && exists i :: (0 <= i < |Observations(IndexOf(results), n)|
                      && Observations(IndexOf(results), n)[i].attrs == labels)
    ensures forall x :: x in Scrape(IndexOf(results), accept) && IsSeries(x, n, labels) ==>
      exists i :: FirstObserved(Observations(IndexOf(results), n), i, labels, x.value)
  {
    forall x | x in Scrape(IndexOf(results), accept) && IsSeries(x, n, labels)
      ensures exists i :: FirstObserved(Observations(IndexOf(results), n), i, labels, x.value)
    {
      var i := ObservedFirst(results, accept, n, labels, x);
    }
    var group, os := Named(n, AllSamples(results)), Observations(IndexOf(results), n);
    ScrapeComplete(results, accept, n, labels);
    ObservedIff(AllSamples(results), n, labels);
    LookupIsFilter(results, n);
    assert |os| == |group| && forall i :: 0 <= i < |os| ==> os[i].attrs == group[i].labels;
  }
}
