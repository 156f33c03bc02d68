/** Failure isolation: what a change of some answers can and cannot change. */
module Failures {
  import opened Seqs
  import opened Metrics
  import opened Api
  import opened Clients
  import opened Models
  import opened Nodes
  import opened Plans
  import opened Schedules

  // ---- one node of a target ----

  /** Two servers whose answers differ at most below the directory of one node. */
  ghost predicate SameElsewhere(pve: Pve, pve': Pve, node: string) {
    forall path :: !(NodeDir(node) <= path) ==> pve(path) == pve'(path)
  }

  /** Neither node's directory contains the other's. */
  predicate ApartInPaths(m: string, n: string) {
    !(NodeDir(m) <= NodeDir(n)) && !(NodeDir(n) <= NodeDir(m))
  }

  lemma DirPrefix(m: string, n: string)
    ensures NodeDir(m) <= NodeDir(n) <==> m == n || m + "/" <= n
  {
    var dir, s := NodeDir(n), n + "/";
    assert NodeDir(m) == "/nodes/" + (m + "/") && dir == "/nodes/" + s;
    assert NodeDir(m) <= dir <==> m + "/" <= s by {
      assert dir[7..] == s && NodeDir(m)[7..] == m + "/";
      assert m + "/" <= s ==> dir[..7 + |m| + 1] == "/nodes/" + s[..|m| + 1];
    }
    if |m| < |n| {
      assert s[..|m| + 1] == n[..|m| + 1];
    } else if |m| == |n| {
      assert s[..|m|] == n;
    }
  }

  /** It is so exactly for different names neither of which is the other one
      followed by a slash and more: for any two host names. */
  lemma ApartIff(m: string, n: string)
    ensures ApartInPaths(m, n) <==> m != n && !(m + "/" <= n) && !(n + "/" <= m)
    ensures m != n && '/' !in m && '/' !in n ==> ApartInPaths(m, n)
  {
    DirPrefix(m, n);
    DirPrefix(n, m);
    if m + "/" <= n {
      assert n[|m|] == '/';
    }
    if n + "/" <= m {
      assert m[|n|] == '/';
    }
  }

  /** A path below one directory is not below the other. */
  lemma NotBelow(m: string, n: string, rest: string)
    requires ApartInPaths(m, n)
    ensures !(NodeDir(n) <= NodeDir(m) + rest)
  {
  }

  // A worker's calls record what it was answered, and ask below its own directory.

  ghost predicate Recorded(pve: Pve, node: string, calls: seq<Exchange>) {
    forall i :: 0 <= i < |calls| ==> calls[i].answer == pve(calls[i].path) && NodeDir(node) <= calls[i].path
  }

  lemma AskedBelow(pve: Pve, node: string, rest: string)
    ensures Recorded(pve, node, [Optional(pve, NodeDir(node) + rest)])
  {
  }

  lemma {:induction false} JobsRecorded(pve: Pve, node: string, jobs: seq<ReplicationJob>)
    ensures Recorded(pve, node, JobsCalls(pve, node, jobs))
  {
    if jobs == [] {
    } else {
      JobsRecorded(pve, node, jobs[..|jobs| - 1]);
      AskedBelow(pve, node, "replication/" + jobs[|jobs| - 1].id + "/status");
    }
  }

  lemma {:induction false} GuestsRecorded(pve: Pve, node: string, kind: string, vmids: seq<FlexFloat>)
    ensures Recorded(pve, node, GuestsCalls(pve, node, kind, vmids))
  {
    if vmids == [] {
    } else {
      var last := vmids[|vmids| - 1];
      GuestsRecorded(pve, node, kind, vmids[..|vmids| - 1]);
      if last.Some? {
        AskedBelow(pve, node, kind + "/" + FormatInt(last.value) + "/config");
      }
    }
  }

  lemma {:induction false} OnbootRecorded(pve: Pve, node: string, kinds: seq<string>)
    ensures Recorded(pve, node, OnbootCalls(pve, node, kinds))
  {
    if kinds == [] {
    } else {
      AskedBelow(pve, node, kinds[0]);
      if ListedGuests(pve, node, kinds[0]).Some? {
        GuestsRecorded(pve, node, kinds[0], ListedGuests(pve, node, kinds[0]).value);
        OnbootRecorded(pve, node, kinds[1..]);
      }
    }
  }

  lemma WorkerRecorded(t: CollectorToggles, pve: Pve, node: string)
    ensures Recorded(pve, node, NodeCalls(t, pve, node))
  {
    AskedBelow(pve, node, "replication");
    if ListedJobs(pve, node).Some? {
      JobsRecorded(pve, node, ListedJobs(pve, node).value);
    }
    AskedBelow(pve, node, "subscription");
    OnbootRecorded(pve, node, GUEST_TYPES);
  }

  // A worker answered alike does alike.

  ghost predicate Alike(pve: Pve, pve': Pve, calls: seq<Exchange>) {
    forall i :: 0 <= i < |calls| ==> pve(calls[i].path) == pve'(calls[i].path)
  }

  lemma AlikeParts(pve: Pve, pve': Pve, a: seq<Exchange>, b: seq<Exchange>)
    requires Alike(pve, pve', a + b)
    ensures Alike(pve, pve', a) && Alike(pve, pve', b)
  {
    assert forall i :: 0 <= i < |a| ==> (a + b)[i] == a[i];
    assert forall i :: 0 <= i < |b| ==> (a + b)[|a| + i] == b[i];
  }

  lemma {:induction false} JobsAlike(c: string, pve: Pve, pve': Pve, m: string, jobs: seq<ReplicationJob>)
    requires Alike(pve, pve', JobsCalls(pve, m, jobs))
    ensures JobsSamples(c, pve, m, jobs) == JobsSamples(c, pve', m, jobs)
    ensures JobsCalls(pve, m, jobs) == JobsCalls(pve', m, jobs)
  {
    if jobs == [] {
    } else {
      var init, last := jobs[..|jobs| - 1], [Optional(pve, JobStatusPath(m, jobs[|jobs| - 1].id))];
      AlikeParts(pve, pve', JobsCalls(pve, m, init), last);
      JobsAlike(c, pve, pve', m, init);
      assert pve(last[0].path) == pve'(last[0].path);
    }
  }

  lemma ReplicationAlike(c: string, pve: Pve, pve': Pve, m: string)
    requires Alike(pve, pve', ReplicationCalls(pve, m))
    ensures ReplicationSamples(c, pve, m) == ReplicationSamples(c, pve', m)
    ensures ReplicationCalls(pve, m) == ReplicationCalls(pve', m)
  {
    var list := [Optional(pve, ReplicationPath(m))];
    if ListedJobs(pve, m).Some? {
      AlikeParts(pve, pve', list, JobsCalls(pve, m, ListedJobs(pve, m).value));
      JobsAlike(c, pve, pve', m, ListedJobs(pve, m).value);
    } else {
      AlikeParts(pve, pve', list, []);
    }
    assert pve(list[0].path) == pve'(list[0].path);
  }

  lemma {:induction false} GuestsAlike(c: string, pve: Pve, pve': Pve, m: string, kind: string, vmids: seq<FlexFloat>)
    requires Alike(pve, pve', GuestsCalls(pve, m, kind, vmids))
    ensures GuestsSamples(c, pve, m, kind, vmids) == GuestsSamples(c, pve', m, kind, vmids)
    ensures GuestsCalls(pve, m, kind, vmids) == GuestsCalls(pve', m, kind, vmids)
  {
    if vmids == [] {
    } else {
      var init, last := vmids[..|vmids| - 1], vmids[|vmids| - 1];
      AlikeParts(pve, pve', GuestsCalls(pve, m, kind, init), GuestCalls(pve, m, kind, last));
      GuestsAlike(c, pve, pve', m, kind, init);
      if last.Some? {
        assert GuestCalls(pve, m, kind, last)[0].path == GuestConfigPath(m, kind, FormatInt(last.value));
      }
    }
  }

  lemma {:induction false} OnbootAlike(c: string, pve: Pve, pve': Pve, m: string, kinds: seq<string>)
    requires Alike(pve, pve', OnbootCalls(pve, m, kinds))
    ensures OnbootSamples(c, pve, m, kinds) == OnbootSamples(c, pve', m, kinds)
    ensures OnbootCalls(pve, m, kinds) == OnbootCalls(pve', m, kinds)
  {
    if kinds == [] {
    } else {
      var list := [Optional(pve, GuestListPath(m, kinds[0]))];
      if ListedGuests(pve, m, kinds[0]).Some? {
        var vmids := ListedGuests(pve, m, kinds[0]).value;
        var guests, later := GuestsCalls(pve, m, kinds[0], vmids), OnbootCalls(pve, m, kinds[1..]);
        AlikeParts(pve, pve', list, guests + later);
        AlikeParts(pve, pve', guests, later);
        GuestsAlike(c, pve, pve', m, kinds[0], vmids);
        OnbootAlike(c, pve, pve', m, kinds[1..]);
      } else {
        AlikeParts(pve, pve', list, []);
      }
      assert pve(list[0].path) == pve'(list[0].path);
    }
  }

  lemma SubscriptionAlike(c: string, pve: Pve, pve': Pve, m: string)
    requires Alike(pve, pve', SubscriptionCalls(pve, m))
    ensures SubscriptionSamples(c, pve, m) == SubscriptionSamples(c, pve', m)
    ensures SubscriptionCalls(pve, m) == SubscriptionCalls(pve', m)
  {
    assert pve(SubscriptionCalls(pve, m)[0].path) == pve'(SubscriptionCalls(pve, m)[0].path);
  }

  lemma PartsAlike(pve: Pve, pve': Pve, x: seq<Exchange>, y: seq<Exchange>, z: seq<Exchange>)
    requires Alike(pve, pve', [] + x + y + z)
    ensures Alike(pve, pve', x) && Alike(pve, pve', y) && Alike(pve, pve', z)
  {
    Regroup(x, [], []);
    AlikeParts(pve, pve', [] + x + y, z);
    AlikeParts(pve, pve', [] + x, y);
  }

  /** Exactly what a node worker depends on: two servers give it the same block and
      calls if and only if they answer alike what it asks. */
  lemma WorkerAlikeIff(c: string, t: CollectorToggles, pve: Pve, pve': Pve, m: string)
    ensures NodePlanOf(c, t, pve, m) == NodePlanOf(c, t, pve', m) <==> Alike(pve, pve', NodeCalls(t, pve, m))
  {
    if NodePlanOf(c, t, pve, m) == NodePlanOf(c, t, pve', m) {
      WorkerRecorded(t, pve, m);
      WorkerRecorded(t, pve', m);
    }
    if Alike(pve, pve', NodeCalls(t, pve, m)) {
      WorkerAlike(c, t, pve, pve', m);
    }
  }

  lemma WorkerAlike(c: string, t: CollectorToggles, pve: Pve, pve': Pve, m: string)
    requires Alike(pve, pve', NodeCalls(t, pve, m))
    ensures NodePlanOf(c, t, pve, m) == NodePlanOf(c, t, pve', m)
  {
    PartsAlike(pve, pve', if t.ReplicationEnabled() then ReplicationCalls(pve, m) else [],
      if t.SubscriptionEnabled() then SubscriptionCalls(pve, m) else [],
      if t.OnbootEnabled() then OnbootCalls(pve, m, GUEST_TYPES) else []);
    if t.ReplicationEnabled() {
      ReplicationAlike(c, pve, pve', m);
    }
    if t.SubscriptionEnabled() {
      SubscriptionAlike(c, pve, pve', m);
    }
    if t.OnbootEnabled() {
      OnbootAlike(c, pve, pve', m, GUEST_TYPES);
    }
  }

  /** The worker of m asks nothing below the directory of n. */
  ghost predicate AsksElsewhere(t: CollectorToggles, pve: Pve, m: string, n: string) {
    forall i :: 0 <= i < |NodeCalls(t, pve, m)| ==> !(NodeDir(n) <= NodeCalls(t, pve, m)[i].path)
  }

  function Other(a: Answer): (b: Answer)
    ensures a != b
  {
    if a.TransportError? then Response(STATUS_OK, NoData) else TransportError
  }

  /** The server that answers everything below n's directory otherwise. */
  function Altered(pve: Pve, n: string): Pve {
    (path: string) => if NodeDir(n) <= path then Other(pve(path)) else pve(path)
  }

  lemma AlteredReaches(c: string, t: CollectorToggles, pve: Pve, m: string, n: string)
    requires !AsksElsewhere(t, pve, m, n)
    ensures NodePlanOf(c, t, pve, m) != NodePlanOf(c, t, Altered(pve, n), m)
  {
    var calls := NodeCalls(t, pve, m);
    var i :| 0 <= i < |calls| && NodeDir(n) <= calls[i].path;
    WorkerAlikeIff(c, t, pve, Altered(pve, n), m);
    assert pve(calls[i].path) != Altered(pve, n)(calls[i].path);
  }

  lemma ElsewhereAlike(t: CollectorToggles, pve: Pve, pve': Pve, m: string, n: string)
    requires AsksElsewhere(t, pve, m, n) && SameElsewhere(pve, pve', n)
    ensures Alike(pve, pve', NodeCalls(t, pve, m))
  {
  }

  /** No change of the answers for n reaches the worker of m exactly when that worker
      asks nothing below n's directory. */
  lemma UntouchedIff(c: string, t: CollectorToggles, pve: Pve, m: string, n: string)
    ensures (forall pve' :: SameElsewhere(pve, pve', n) ==> NodePlanOf(c, t, pve, m) == NodePlanOf(c, t, pve', m))
      <==> AsksElsewhere(t, pve, m, n)
  {
    if AsksElsewhere(t, pve, m, n) {
      forall pve' | SameElsewhere(pve, pve', n) ensures NodePlanOf(c, t, pve, m) == NodePlanOf(c, t, pve', m) {
        ElsewhereAlike(t, pve, pve', m, n);
        WorkerAlikeIff(c, t, pve, pve', m);
      }
    } else {
      AlteredReaches(c, t, pve, m, n);
      assert SameElsewhere(pve, Altered(pve, n), n);
    }
  }

  /** So it is for nodes whose directories are apart, whatever they are answered. */
  lemma ApartAsksElsewhere(t: CollectorToggles, pve: Pve, m: string, n: string)
    requires ApartInPaths(m, n)
    ensures AsksElsewhere(t, pve, m, n)
  {
    var calls := NodeCalls(t, pve, m);
    WorkerRecorded(t, pve, m);
    forall i | 0 <= i < |calls| ensures !(NodeDir(n) <= calls[i].path) {
      var p := calls[i].path;
      assert p == NodeDir(m) + p[|NodeDir(m)|..];
      NotBelow(m, n, p[|NodeDir(m)|..]);
    }
  }

  lemma TargetPaths(pve: Pve, pve': Pve, n: string)
    requires SameElsewhere(pve, pve', n)
    ensures pve(RESOURCES_PATH) == pve'(RESOURCES_PATH) && pve(STATUS_PATH) == pve'(STATUS_PATH)
    ensures pve(VERSION_PATH) == pve'(VERSION_PATH) && pve(QDEVICE_PATH) == pve'(QDEVICE_PATH)
    ensures pve(BACKUP_PATH) == pve'(BACKUP_PATH) && pve(HA_PATH) == pve'(HA_PATH)
  {
    assert NodeDir(n)[1] == 'n';
    assert RESOURCES_PATH[1] == 'c' && STATUS_PATH[1] == 'c' && VERSION_PATH[1] == 'v';
    assert QDEVICE_PATH[1] == 'c' && BACKUP_PATH[1] == 'c' && HA_PATH[1] == 'c';
  }

  lemma HeadAlike(c: string, t: CollectorToggles, pve: Pve, pve': Pve, n: string)
    requires SameElsewhere(pve, pve', n)
    ensures HeadCalls(t, pve) == HeadCalls(t, pve') && ClusterId(c, pve) == ClusterId(c, pve')
    ensures forall rows :: Prefix(c, t, pve, rows) == Prefix(c, t, pve', rows)
  {
    TargetPaths(pve, pve', n);
  }

  /** Changing the answers of one node changes nothing of the target's plan but the
      blocks and calls of the workers that ask below its directory. */
  lemma NodeIsolation(c: string, t: CollectorToggles, pve: Pve, pve': Pve, n: string)
    requires SameElsewhere(pve, pve', n)
    ensures var p, p' := PlanOf(c, t, pve), PlanOf(c, t, pve');
      && p.(nodes := p'.nodes) == p' && |p.nodes| == |p'.nodes|
    ensures AsResources(ReplyOf(pve(RESOURCES_PATH))) == AsResources(ReplyOf(pve'(RESOURCES_PATH)))
    ensures forall rows, i :: (
      && AsResources(ReplyOf(pve(RESOURCES_PATH))) == Some(rows)
      && 0 <= i < |PlanOf(c, t, pve).nodes| && i < |NodeNames(rows)| && AsksElsewhere(t, pve, NodeNames(rows)[i], n)
      ==> PlanOf(c, t, pve).nodes[i] == PlanOf(c, t, pve').nodes[i])
  {
    TargetPaths(pve, pve', n);
    HeadAlike(c, t, pve, pve', n);
    if AsResources(ReplyOf(pve(RESOURCES_PATH))).Some? {
      var nodes := NodeNames(AsResources(ReplyOf(pve(RESOURCES_PATH))).value);
      forall i | 0 <= i < |nodes| && AsksElsewhere(t, pve, nodes[i], n)
        ensures NodePlanOf(c, t, pve, nodes[i]) == NodePlanOf(c, t, pve', nodes[i])
      {
        UntouchedIff(c, t, pve, nodes[i], n);
      }
    }
  }

  /** The blocks of p whose worker does not do the same in p'. */
  function Changed(ps: seq<NodePlan>, ps': seq<NodePlan>): seq<Sample>
    requires |ps| == |ps'|
  {
    if ps == [] then []
    else
      var n := |ps| - 1;
      Changed(ps[..n], ps'[..n]) + (if ps[n] == ps'[n] then [] else ps[n].block)
  }

  lemma {:induction false} ChangedBlocks(ps: seq<NodePlan>, ps': seq<NodePlan>)
    requires |ps| == |ps'|
    ensures multiset(Flatten(Blocks(ps))) + multiset(Changed(ps', ps))
      == multiset(Flatten(Blocks(ps'))) + multiset(Changed(ps, ps'))
  {
    if ps == [] {
      assert Blocks(ps) == Blocks(ps');
    } else {
      var n := |ps| - 1;
      ChangedBlocks(ps[..n], ps'[..n]);
      LastWorker(ps);
      LastWorker(ps');
      OneMoreBlock(Flatten(Blocks(ps[..n])), Flatten(Blocks(ps'[..n])),
        Changed(ps[..n], ps'[..n]), Changed(ps'[..n], ps[..n]),
        ps[n].block, ps'[n].block, ps[n] == ps'[n]);
    }
  }

  lemma OneMoreBlock(f: seq<Sample>, g: seq<Sample>, cf: seq<Sample>, cg: seq<Sample>,
    x: seq<Sample>, y: seq<Sample>, same: bool)
    requires multiset(f) + multiset(cg) == multiset(g) + multiset(cf) && (same ==> x == y)
    ensures multiset(f + x) + multiset(cg + (if same then [] else y))
      == multiset(g + y) + multiset(cf + (if same then [] else x))
  {
    var dx, dy := if same then [] else x, if same then [] else y;
    var mf, mg, mcf, mcg := multiset(f), multiset(g), multiset(cf), multiset(cg);
    assert multiset(f + x) + multiset(cg + dy) == (mf + mcg) + (multiset(x) + multiset(dy));
    assert multiset(g + y) + multiset(cf + dx) == (mg + mcf) + (multiset(y) + multiset(dx));
    assert multiset(x) + multiset(dy) == multiset(y) + multiset(dx);
  }

  lemma Balance(p: multiset<Sample>, f: multiset<Sample>, g: multiset<Sample>, t: multiset<Sample>,
                cf: multiset<Sample>, cg: multiset<Sample>)
    requires f + cg == g + cf
    ensures p + f + t + cg == p + g + t + cf
  {
    assert p + f + t + cg == p + t + (f + cg);
    assert p + g + t + cf == p + t + (g + cf);
  }

  function IsCollected(): Sample -> bool { (s: Sample) => !SelfMetric(s.name) }

  /** What a finished target collected, its elapsed time and error count aside. */
  function CollectedBy(ts: TargetSnapshot): multiset<Sample> {
    multiset(Filter(IsCollected(), ts.samples))
  }

  lemma UpOfTail(p: Plan, elapsed: real, errors: nat)
    ensures Filter(IsCollected(), Tail(p, elapsed, errors)) == [Tail(p, elapsed, errors)[0]]
  {
    var t := Tail(p, elapsed, errors);
    assert t == [t[0]] + [t[1]] + [t[2]];
    FilterSnoc(IsCollected(), [t[0]] + [t[1]], t[2]);
    FilterSnoc(IsCollected(), [t[0]], t[1]);
    FilterAll(IsCollected(), [t[0]]);
    Regroup([t[0]], [], []);
  }

  lemma CollectedOf(p: Plan, order: seq<nat>, elapsed: real, errors: nat)
    requires PlanConforms(p) && IsOrder(order, |p.nodes|)
    ensures CollectedBy(Result(p, order, elapsed, errors))
      == multiset(p.prefix) + multiset(Flatten(Blocks(p.nodes))) + multiset([Tail(p, elapsed, errors)[0]])
  {
    var merged := Flatten(Pick(Blocks(p.nodes), order));
    FlattenCollected(p.name, Pick(Blocks(p.nodes), order));
    FilterAll(IsCollected(), p.prefix + merged);
    FilterConcat(IsCollected(), p.prefix + merged, Tail(p, elapsed, errors));
    UpOfTail(p, elapsed, errors);
    PermutedFlatten(Blocks(p.nodes), order);
  }

  /** Node isolation of finished results: when only the answers for one node differ, two
      cycles of the target, under any limits, schedules and counters, collect the same
      but for the blocks of the workers that did not do the same, which are none of those
      that ask elsewhere. */
  lemma NodeIsolated(c: string, t: CollectorToggles, pve: Pve, pve': Pve, n: string, e0: nat, s: Proc, e1: nat, u: Proc)
    requires SameElsewhere(pve, pve', n)
    requires Settled(PlanOf(c, t, pve), e0, s) && Settled(PlanOf(c, t, pve'), e1, u)
    ensures var p, p' := PlanOf(c, t, pve), PlanOf(c, t, pve');
      && |p.nodes| == |p'.nodes| && s.phase.ts.up == u.phase.ts.up
      && CollectedBy(s.phase.ts) + multiset(Changed(p'.nodes, p.nodes))
         == CollectedBy(u.phase.ts) + multiset(Changed(p.nodes, p'.nodes))
  {
    var p, p' := PlanOf(c, t, pve), PlanOf(c, t, pve');
    NodeIsolation(c, t, pve, pve', n);
    PlanOfConforms(c, t, pve);
    PlanOfConforms(c, t, pve');
    PlansIsolated(p, p', s, u, e0, e1);
  }

  lemma PlansIsolated(p: Plan, p': Plan, s: Proc, u: Proc, e0: nat, e1: nat)
    requires p.(nodes := p'.nodes) == p' && |p.nodes| == |p'.nodes| && PlanConforms(p) && PlanConforms(p')
    requires Settled(p, e0, s) && Settled(p', e1, u)
    ensures s.phase.ts.up == u.phase.ts.up
    ensures CollectedBy(s.phase.ts) + multiset(Changed(p'.nodes, p.nodes))
      == CollectedBy(u.phase.ts) + multiset(Changed(p.nodes, p'.nodes))
  {
    CollectedOf(p, s.phase.merged, s.phase.elapsed, s.errors);
    CollectedOf(p', u.phase.merged, u.phase.elapsed, u.errors);
    ChangedBlocks(p.nodes, p'.nodes);
    var up := [Tail(p, s.phase.elapsed, s.errors)[0]];
    assert up == [Tail(p', u.phase.elapsed, u.errors)[0]];
    Balance(multiset(p.prefix), multiset(Flatten(Blocks(p.nodes))), multiset(Flatten(Blocks(p'.nodes))), multiset(up),
      multiset(Changed(p.nodes, p'.nodes)), multiset(Changed(p'.nodes, p.nodes)));
  }

  // ---- one target of a cycle ----

  function IsTimeless(): Sample -> bool { (s: Sample) => s.name != CollectionDuration }

  /** A result's samples, elapsed time aside. */
  function Timeless(ts: TargetSnapshot): multiset<Sample> {
    multiset(Filter(IsTimeless(), ts.samples))
  }

  lemma TimelessTail(p: Plan, a: real, b: real, errors: nat)
    ensures Filter(IsTimeless(), Tail(p, a, errors)) == Filter(IsTimeless(), Tail(p, b, errors))
  {
    var x, y := Tail(p, a, errors), Tail(p, b, errors);
    assert x == [x[0]] + [x[1]] + [x[2]] && y == [y[0]] + [y[1]] + [y[2]];
    FilterConcat(IsTimeless(), [x[0]] + [x[1]], [x[2]]);
    FilterConcat(IsTimeless(), [x[0]], [x[1]]);
    FilterConcat(IsTimeless(), [y[0]] + [y[1]], [y[2]]);
    FilterConcat(IsTimeless(), [y[0]], [y[1]]);
    FilterNone(IsTimeless(), [x[1]]);
    FilterNone(IsTimeless(), [y[1]]);
  }

  lemma TimelessResult(p: Plan, a: seq<nat>, b: seq<nat>, e: real, f: real, errors: nat)
    requires IsOrder(a, |p.nodes|) && IsOrder(b, |p.nodes|)
    ensures Timeless(Result(p, a, e, errors)) == Timeless(Result(p, b, f, errors))
  {
    var x, y := p.prefix + Flatten(Pick(Blocks(p.nodes), a)), p.prefix + Flatten(Pick(Blocks(p.nodes), b));
    PermutedFlatten(Blocks(p.nodes), a);
    PermutedFlatten(Blocks(p.nodes), b);
    FilterRespectsMultiset(IsTimeless(), x, y);
    FilterConcat(IsTimeless(), x, Tail(p, e, errors));
    FilterConcat(IsTimeless(), y, Tail(p, f, errors));
    TimelessTail(p, e, f, errors);
  }

  /** Target isolation: two cycles, under any limits and schedules, in which target i
      is answered alike. Whatever the answers of the other targets, and however many
      targets there are, its results agree but for the elapsed time. */
  lemma TargetIsolation(ps: seq<Plan>, limit: int, counters: seq<nat>, moves: seq<Move>,
                        ps': seq<Plan>, limit': int, counters': seq<nat>, moves': seq<Move>, i: nat, j: nat)
    requires |ps| == |counters| && Legal(ps, limit, Initial(counters), moves)
    requires |ps'| == |counters'| && Legal(ps', limit', Initial(counters'), moves')
    requires i < |ps| && j < |ps'| && ps[i] == ps'[j] && counters[i] == counters'[j]
    ensures var t, t' := After(ps, limit, Initial(counters), moves), After(ps', limit', Initial(counters'), moves');
      && |t| == |ps| && |t'| == |ps'|
      && (t[i].phase.Returned? && t'[j].phase.Returned? ==>
           && t[i].errors == t'[j].errors
           && t[i].phase.ts.up == t'[j].phase.ts.up
           && Timeless(t[i].phase.ts) == Timeless(t'[j].phase.ts))
  {
    CycleOutcome(ps, limit, counters, moves);
    CycleOutcome(ps', limit', counters', moves');
    var t, t' := After(ps, limit, Initial(counters), moves), After(ps', limit', Initial(counters'), moves');
    if t[i].phase.Returned? && t'[j].phase.Returned? {
      assert Results(t)[i].Some? && Results(t')[j].Some?;
      var x, y := t[i].phase, t'[j].phase;
      TimelessResult(ps[i], x.merged, y.merged, x.elapsed, y.elapsed, t[i].errors);
    }
  }
}
