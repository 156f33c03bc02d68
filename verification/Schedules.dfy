/** internal/pve/collector.go, concurrently: collectAll starts one worker per
    target, each collectTarget one worker per node. A step is one API call, the
    start of a worker, or one merge under the lock; every interleaving of steps
    that the concurrency limit allows is a run. */
module Schedules {
  import opened Seqs
  import opened Metrics
  import opened Clients
  import opened Plans

  /** A node worker: not started, holding a slot with some calls made, or done. */
  datatype Worker = Idle | Busy(made: nat) | Merged

  /** A target worker. The merge order and the elapsed time are history only: no
      step looks at them. */
  datatype Phase =
    | Waiting
    | Heading(made: nat)
    | Fanned(workers: seq<Worker>, order: seq<nat>)
    | Returned(ts: TargetSnapshot, merged: seq<nat>, elapsed: real)

  /** out is set.out and errors the client's counter, both shared by the workers. */
  datatype Proc = Proc(phase: Phase, out: seq<Sample>, errors: nat)

  datatype Step = Call | Fork | Spawn(j: nat) | NodeCall(j: nat) | Merge(j: nat) | Return(elapsed: real)

  function Active(ws: seq<Worker>): nat {
    if ws == [] then 0 else Active(ws[..|ws| - 1]) + (if ws[|ws| - 1].Busy? then 1 else 0)
  }

  /** A limit of zero or less means no limit. */
  predicate SlotFree(limit: int, active: nat) {
    limit <= 0 || active < limit
  }

  predicate Enabled(p: Plan, limit: int, s: Proc, a: Step) {
    match a
    case Call => s.phase.Heading? && s.phase.made < |p.head|
    case Fork => s.phase.Heading? && s.phase.made == |p.head|
    case Spawn(j) =>
      && s.phase.Fanned? && |s.phase.workers| == |p.nodes| && j < |p.nodes|
      && s.phase.workers[j].Idle?
      && (forall k :: 0 <= k < j ==> !s.phase.workers[k].Idle?)
      && SlotFree(limit, Active(s.phase.workers))
    case NodeCall(j) =>
      && s.phase.Fanned? && |s.phase.workers| == |p.nodes| && j < |p.nodes|
      && s.phase.workers[j].Busy? && s.phase.workers[j].made < |p.nodes[j].calls|
    case Merge(j) =>
      && s.phase.Fanned? && |s.phase.workers| == |p.nodes| && j < |p.nodes|
      && s.phase.workers[j].Busy? && s.phase.workers[j].made == |p.nodes[j].calls|
    case Return(elapsed) =>
      && s.phase.Fanned? && |s.phase.workers| == |p.nodes| && elapsed >= 0.0
      && forall j :: 0 <= j < |p.nodes| ==> s.phase.workers[j].Merged?
  }

  function AllIdle(n: nat): (ws: seq<Worker>)
    ensures |ws| == n && forall j :: 0 <= j < n ==> ws[j] == Idle
  {
    seq(n, j => Idle)
  }

  function ErrorOf(e: Exchange): nat { if Counted(e) then 1 else 0 }

  function Apply(p: Plan, limit: int, s: Proc, a: Step): Proc
    requires Enabled(p, limit, s, a)
  {
    match a
    case Call => s.(phase := Heading(s.phase.made + 1), errors := s.errors + ErrorOf(p.head[s.phase.made]))
    case Fork => s.(phase := Fanned(AllIdle(|p.nodes|), []), out := p.prefix)
    case Spawn(j) => s.(phase := s.phase.(workers := s.phase.workers[j := Busy(0)]))
    case NodeCall(j) =>
      var k := s.phase.workers[j].made;
      s.(phase := s.phase.(workers := s.phase.workers[j := Busy(k + 1)]),
        errors := s.errors + ErrorOf(p.nodes[j].calls[k]))
    case Merge(j) =>
      Proc(Fanned(s.phase.workers[j := Merged], s.phase.order + [j]), s.out + p.nodes[j].block, s.errors)
    case Return(elapsed) =>
      s.(phase := Returned(TargetSnapshot(p.name, p.up, s.out + Tail(p, elapsed, s.errors)), s.phase.order, elapsed))
  }

  // ---- what holds of one target in every reachable state ----

  function Made(calls: seq<Exchange>, w: Worker): seq<Exchange>
    requires w.Busy? ==> w.made <= |calls|
  {
    match w case Idle => [] case Busy(k) => calls[..k] case Merged => calls
  }

  predicate WorkersOk(p: Plan, ws: seq<Worker>) {
    && |ws| == |p.nodes|
    && forall j :: 0 <= j < |ws| && ws[j].Busy? ==> ws[j].made <= |p.nodes[j].calls|
  }

  /** The counted errors of each worker's calls so far. */
  function WorkerErrors(p: Plan, ws: seq<Worker>): (ns: seq<nat>)
    requires WorkersOk(p, ws)
    ensures |ns| == |ws|
  {
    seq(|ws|, j requires 0 <= j < |ws| => Errors(Made(p.nodes[j].calls, ws[j])))
  }

  ghost predicate MergedSoFar(ws: seq<Worker>, order: seq<nat>) {
    && NoDup(order)
    && (forall k :: 0 <= k < |order| ==> order[k] < |ws|)
    && forall j :: 0 <= j < |ws| ==> (j in order <==> ws[j].Merged?)
  }

  /** e0 is the client's counter when the cycle began. */
  ghost predicate Ok(p: Plan, e0: nat, s: Proc) {
    match s.phase
    case Waiting => s.out == [] && s.errors == e0
    case Heading(k) => k <= |p.head| && s.out == [] && s.errors == e0 + Errors(p.head[..k])
    case Fanned(ws, order) =>
      && WorkersOk(p, ws)
      && MergedSoFar(ws, order)
      && s.out == p.prefix + Flatten(Pick(Blocks(p.nodes), order))
      && s.errors == e0 + Errors(p.head) + Sum(WorkerErrors(p, ws))
    case Returned(ts, order, elapsed) =>
      && IsOrder(order, |p.nodes|)
      && elapsed >= 0.0
      && s.errors == e0 + Errors(AllCalls(p))
      && ts == Result(p, order, elapsed, s.errors)
  }

  lemma OneMoreCall(calls: seq<Exchange>, k: nat)
    requires k < |calls|
    ensures Errors(calls[..k + 1]) == Errors(calls[..k]) + ErrorOf(calls[k])
  {
    assert calls[..k + 1] == calls[..k] + [calls[k]];
    ErrorsConcat(calls[..k], [calls[k]]);
    ErrorsOne(calls[k]);
  }

  lemma WorkerErrorsUpdate(p: Plan, ws: seq<Worker>, j: nat, w: Worker)
    requires WorkersOk(p, ws) && j < |ws| && (w.Busy? ==> w.made <= |p.nodes[j].calls|)
    ensures WorkersOk(p, ws[j := w])
    ensures Sum(WorkerErrors(p, ws[j := w])) + Errors(Made(p.nodes[j].calls, ws[j]))
         == Sum(WorkerErrors(p, ws)) + Errors(Made(p.nodes[j].calls, w))
  {
    var n := Errors(Made(p.nodes[j].calls, w));
    assert WorkerErrors(p, ws[j := w]) == WorkerErrors(p, ws)[j := n];
    SumUpdate(WorkerErrors(p, ws), j, n);
  }

  lemma {:induction false} ErrorsOfFlatten(cs: seq<seq<Exchange>>)
    ensures Errors(Flatten(cs)) == Sum(seq(|cs|, j requires 0 <= j < |cs| => Errors(cs[j])))
  {
    if cs == [] {
    } else {
      var init, ns := cs[..|cs| - 1], seq(|cs|, j requires 0 <= j < |cs| => Errors(cs[j]));
      ErrorsOfFlatten(init);
      ErrorsConcat(Flatten(init), cs[|cs| - 1]);
      assert ns[..|ns| - 1] == seq(|init|, j requires 0 <= j < |init| => Errors(init[j]));
    }
  }

  /** Once every worker merged, the counter includes every call of the cycle. */
  lemma AllErrors(p: Plan, ws: seq<Worker>)
    requires WorkersOk(p, ws) && forall j :: 0 <= j < |ws| ==> ws[j].Merged?
    ensures Errors(p.head) + Sum(WorkerErrors(p, ws)) == Errors(AllCalls(p))
  {
    var cs := WorkerCalls(p.nodes);
    ErrorsConcat(p.head, Flatten(cs));
    ErrorsOfFlatten(cs);
    assert WorkerErrors(p, ws) == seq(|cs|, j requires 0 <= j < |cs| => Errors(cs[j]));
  }

  lemma AllMergedIsOrder(ws: seq<Worker>, order: seq<nat>)
    requires MergedSoFar(ws, order) && forall j :: 0 <= j < |ws| ==> ws[j].Merged?
    ensures IsOrder(order, |ws|)
  {
    assert Members(order) == Below(|ws|);
  }

  lemma MergeStep(p: Plan, ws: seq<Worker>, order: seq<nat>, j: nat)
    requires WorkersOk(p, ws) && MergedSoFar(ws, order) && j < |ws| && !ws[j].Merged?
    ensures MergedSoFar(ws[j := Merged], order + [j])
    ensures Flatten(Pick(Blocks(p.nodes), order + [j])) == Flatten(Pick(Blocks(p.nodes), order)) + p.nodes[j].block
  {
    assert j !in order;
    forall i | 0 <= i < |ws| ensures i in order + [j] <==> ws[j := Merged][i].Merged? {
      assert i in order + [j] <==> i in order || i == j;
    }
    var bs := Blocks(p.nodes);
    assert Pick(bs, order + [j]) == Pick(bs, order) + [bs[j]];
    FlattenConcat(Pick(bs, order), [bs[j]]);
    FlattenOne(bs[j]);
  }

  lemma {:induction false} SumOfZeros(n: nat)
    ensures Sum(seq(n, i => 0)) == 0
  {
    SumZero(seq(n, i => 0));
  }

  lemma ForkOk(p: Plan, limit: int, e0: nat, s: Proc)
    requires Ok(p, e0, s) && Enabled(p, limit, s, Fork)
    ensures Ok(p, e0, Apply(p, limit, s, Fork))
  {
    var ws := AllIdle(|p.nodes|);
    assert WorkerErrors(p, ws) == seq(|ws|, i => 0);
    SumOfZeros(|ws|);
    assert p.head[..|p.head|] == p.head;
    assert Pick(Blocks(p.nodes), []) == [];
    Regroup(p.prefix, [], []);
  }

  lemma NodeCallOk(p: Plan, limit: int, e0: nat, s: Proc, j: nat)
    requires Ok(p, e0, s) && Enabled(p, limit, s, NodeCall(j))
    ensures Ok(p, e0, Apply(p, limit, s, NodeCall(j)))
  {
    var k := s.phase.workers[j].made;
    WorkerErrorsUpdate(p, s.phase.workers, j, Busy(k + 1));
    OneMoreCall(p.nodes[j].calls, k);
  }

  lemma MergeOk(p: Plan, limit: int, e0: nat, s: Proc, j: nat)
    requires Ok(p, e0, s) && Enabled(p, limit, s, Merge(j))
    ensures Ok(p, e0, Apply(p, limit, s, Merge(j)))
  {
    var calls := p.nodes[j].calls;
    WorkerErrorsUpdate(p, s.phase.workers, j, Merged);
    assert calls[..|calls|] == calls;
    MergeStep(p, s.phase.workers, s.phase.order, j);
    Regroup(p.prefix, Flatten(Pick(Blocks(p.nodes), s.phase.order)), p.nodes[j].block);
  }

  lemma SpawnOk(p: Plan, limit: int, e0: nat, s: Proc, j: nat)
    requires Ok(p, e0, s) && Enabled(p, limit, s, Spawn(j))
    ensures Ok(p, e0, Apply(p, limit, s, Spawn(j)))
  {
    WorkerErrorsUpdate(p, s.phase.workers, j, Busy(0));
  }

  lemma ReturnOk(p: Plan, limit: int, e0: nat, s: Proc, elapsed: real)
    requires Ok(p, e0, s) && Enabled(p, limit, s, Return(elapsed))
    ensures Ok(p, e0, Apply(p, limit, s, Return(elapsed)))
  {
    AllErrors(p, s.phase.workers);
    AllMergedIsOrder(s.phase.workers, s.phase.order);
  }

  /** Every step keeps Ok. */
  lemma StepOk(p: Plan, limit: int, e0: nat, s: Proc, a: Step)
    requires Ok(p, e0, s) && Enabled(p, limit, s, a)
    ensures Ok(p, e0, Apply(p, limit, s, a))
  {
    match a
    case Call => OneMoreCall(p.head, s.phase.made);
    case Fork => ForkOk(p, limit, e0, s);
    case Spawn(j) => SpawnOk(p, limit, e0, s, j);
    case NodeCall(j) => NodeCallOk(p, limit, e0, s, j);
    case Merge(j) => MergeOk(p, limit, e0, s, j);
    case Return(elapsed) => ReturnOk(p, limit, e0, s, elapsed);
  }

  // ---- how many steps are left, and that one can always be taken ----

  function WorkerStepsLeft(calls: seq<Exchange>, w: Worker): nat
    requires w.Busy? ==> w.made <= |calls|
  {
    match w case Idle => |calls| + 2 case Busy(k) => |calls| - k + 1 case Merged => 0
  }

  function WorkersLeft(p: Plan, ws: seq<Worker>): (ns: seq<nat>)
    requires WorkersOk(p, ws)
    ensures |ns| == |ws|
  {
    seq(|ws|, j requires 0 <= j < |ws| => WorkerStepsLeft(p.nodes[j].calls, ws[j]))
  }

  /** The fan-out as a whole: two steps and its calls for each worker, one to return. */
  function FanOutSteps(p: Plan): nat {
    Sum(WorkersLeft(p, AllIdle(|p.nodes|))) + 1
  }

  lemma {:induction false} IdleSteps(cs: seq<seq<Exchange>>)
    ensures Sum(seq(|cs|, j requires 0 <= j < |cs| => |cs[j]| + 2)) == |Flatten(cs)| + 2 * |cs|
  {
    if cs == [] {
    } else {
      var init, ns := cs[..|cs| - 1], seq(|cs|, j requires 0 <= j < |cs| => |cs[j]| + 2);
      IdleSteps(init);
      assert ns[..|ns| - 1] == seq(|init|, j requires 0 <= j < |init| => |init[j]| + 2);
    }
  }

  /** In closed form: a target takes as many steps as it makes calls, two more for
      each node worker and three of its own. */
  lemma TargetSteps(p: Plan, e0: nat)
    ensures StepsLeft(p, e0, Proc(Waiting, [], e0)) == |AllCalls(p)| + 2 * |p.nodes| + 3
  {
    var cs := WorkerCalls(p.nodes);
    IdleSteps(cs);
    assert WorkersLeft(p, AllIdle(|p.nodes|)) == seq(|cs|, j requires 0 <= j < |cs| => |cs[j]| + 2);
  }

  ghost function StepsLeft(p: Plan, e0: nat, s: Proc): nat
    requires Ok(p, e0, s)
  {
    match s.phase
    case Waiting => 1 + |p.head| + 1 + FanOutSteps(p)
    case Heading(k) => |p.head| - k + 1 + FanOutSteps(p)
    case Fanned(ws, _) => Sum(WorkersLeft(p, ws)) + 1
    case Returned(_, _, _) => 0
  }

  lemma WorkersLeftUpdate(p: Plan, ws: seq<Worker>, j: nat, w: Worker)
    requires WorkersOk(p, ws) && j < |ws| && (w.Busy? ==> w.made <= |p.nodes[j].calls|)
    ensures WorkersOk(p, ws[j := w])
    ensures Sum(WorkersLeft(p, ws[j := w])) + WorkerStepsLeft(p.nodes[j].calls, ws[j])
         == Sum(WorkersLeft(p, ws)) + WorkerStepsLeft(p.nodes[j].calls, w)
  {
    var n := WorkerStepsLeft(p.nodes[j].calls, w);
    assert WorkersLeft(p, ws[j := w]) == WorkersLeft(p, ws)[j := n];
    SumUpdate(WorkersLeft(p, ws), j, n);
  }

  lemma WorkerStepCosts(p: Plan, limit: int, e0: nat, s: Proc, a: Step)
    requires Ok(p, e0, s) && Enabled(p, limit, s, a) && s.phase.Fanned?
    requires Ok(p, e0, Apply(p, limit, s, a))
    ensures StepsLeft(p, e0, Apply(p, limit, s, a)) == StepsLeft(p, e0, s) - 1
  {
    var ws := s.phase.workers;
    match a
    case Spawn(j) => WorkersLeftUpdate(p, ws, j, Busy(0));
    case NodeCall(j) => WorkersLeftUpdate(p, ws, j, Busy(ws[j].made + 1));
    case Merge(j) => WorkersLeftUpdate(p, ws, j, Merged);
    case Return(elapsed) => NoneLeft(p, ws);
  }

  /** Each step uses up exactly one of the steps left. */
  lemma StepCostsOne(p: Plan, limit: int, e0: nat, s: Proc, a: Step)
    requires Ok(p, e0, s) && Enabled(p, limit, s, a)
    ensures Ok(p, e0, Apply(p, limit, s, a))
    ensures StepsLeft(p, e0, Apply(p, limit, s, a)) == StepsLeft(p, e0, s) - 1
  {
    StepOk(p, limit, e0, s, a);
    if s.phase.Fanned? {
      WorkerStepCosts(p, limit, e0, s, a);
    }
  }

  lemma NoneLeft(p: Plan, ws: seq<Worker>)
    requires WorkersOk(p, ws) && forall j :: 0 <= j < |ws| ==> ws[j].Merged?
    ensures Sum(WorkersLeft(p, ws)) == 0
  {
    SumZero(WorkersLeft(p, ws));
  }

  lemma {:induction false} ActiveIsZero(ws: seq<Worker>)
    ensures Active(ws) == 0 <==> forall j :: 0 <= j < |ws| ==> !ws[j].Busy?
  {
    if ws == [] {
    } else {
      var init := ws[..|ws| - 1];
      ActiveIsZero(init);
      assert forall j :: 0 <= j < |init| ==> init[j] == ws[j];
    }
  }

  /** The first Idle worker, if there is one. */
  lemma {:induction false} FirstIdle(ws: seq<Worker>, n: nat) returns (j: nat)
    requires n < |ws| && ws[n].Idle?
    ensures j < |ws| && ws[j].Idle? && forall k :: 0 <= k < j ==> !ws[k].Idle?
    decreases n
  {
    if k :| 0 <= k < n && ws[k].Idle? {
      j := FirstIdle(ws, k);
    } else {
      j := n;
    }
  }

  /** A target that was started and has not returned can always take a step: no
      limit can block it. */
  lemma CanStep(p: Plan, limit: int, e0: nat, s: Proc) returns (a: Step)
    requires Ok(p, e0, s) && !s.phase.Waiting? && !s.phase.Returned?
    ensures Enabled(p, limit, s, a)
  {
    if s.phase.Heading? {
      return if s.phase.made < |p.head| then Call else Fork;
    }
    var ws := s.phase.workers;
    if j :| 0 <= j < |ws| && ws[j].Busy? {
      return if ws[j].made < |p.nodes[j].calls| then NodeCall(j) else Merge(j);
    }
    ActiveIsZero(ws);
    if n :| 0 <= n < |ws| && ws[n].Idle? {
      var j := FirstIdle(ws, n);
      return Spawn(j);
    }
    return Return(0.0);
  }

  // ---- the whole cycle ----

  type Cycle = seq<Proc>

  datatype Move = Start(i: nat) | Work(i: nat, a: Step)

  function Running(s: Cycle): nat {
    if s == [] then 0
    else Running(s[..|s| - 1]) + (if s[|s| - 1].phase.Waiting? || s[|s| - 1].phase.Returned? then 0 else 1)
  }

  predicate CanMove(ps: seq<Plan>, limit: int, s: Cycle, m: Move) {
    && |s| == |ps| && m.i < |s|
    && match m
       case Start(i) =>
         && s[i].phase.Waiting?
         && (forall k :: 0 <= k < i ==> !s[k].phase.Waiting?)
         && SlotFree(limit, Running(s))
       case Work(i, a) => Enabled(ps[i], limit, s[i], a)
  }

  function Do(ps: seq<Plan>, limit: int, s: Cycle, m: Move): Cycle
    requires CanMove(ps, limit, s, m)
  {
    match m
    case Start(i) => s[i := s[i].(phase := Heading(0))]
    case Work(i, a) => s[i := Apply(ps[i], limit, s[i], a)]
  }

  /** The moves can be made one after another from s. */
  predicate Legal(ps: seq<Plan>, limit: int, s: Cycle, moves: seq<Move>)
    decreases |moves|
  {
    moves == [] || (CanMove(ps, limit, s, moves[0]) && Legal(ps, limit, Do(ps, limit, s, moves[0]), moves[1..]))
  }

  function After(ps: seq<Plan>, limit: int, s: Cycle, moves: seq<Move>): Cycle
    requires Legal(ps, limit, s, moves)
    decreases |moves|
  {
    if moves == [] then s else After(ps, limit, Do(ps, limit, s, moves[0]), moves[1..])
  }

  /** No worker started yet; counters as the clients have them. */
  function Initial(counters: seq<nat>): Cycle {
    seq(|counters|, i requires 0 <= i < |counters| => Proc(Waiting, [], counters[i]))
  }

  ghost predicate AllOk(ps: seq<Plan>, counters: seq<nat>, s: Cycle) {
    && |ps| == |counters| == |s|
    && forall i :: 0 <= i < |s| ==> Ok(ps[i], counters[i], s[i])
  }

  predicate Finished(s: Cycle) {
    forall i :: 0 <= i < |s| ==> s[i].phase.Returned?
  }

  /** results[i] of collectAll: nil until worker i returns. */
  function Results(s: Cycle): (rs: seq<Option<TargetSnapshot>>)
    ensures |rs| == |s|
  {
    seq(|s|, i requires 0 <= i < |s| => if s[i].phase.Returned? then Some(s[i].phase.ts) else None)
  }

  ghost function TotalLeft(ps: seq<Plan>, counters: seq<nat>, s: Cycle): seq<nat>
    requires AllOk(ps, counters, s)
  {
    seq(|s|, i requires 0 <= i < |s| => StepsLeft(ps[i], counters[i], s[i]))
  }

  lemma MoveOk(ps: seq<Plan>, limit: int, counters: seq<nat>, s: Cycle, m: Move)
    requires AllOk(ps, counters, s) && CanMove(ps, limit, s, m)
    ensures AllOk(ps, counters, Do(ps, limit, s, m))
    ensures Sum(TotalLeft(ps, counters, Do(ps, limit, s, m))) == Sum(TotalLeft(ps, counters, s)) - 1
  {
    var i := m.i;
    var t := Do(ps, limit, s, m);
    if m.Work? {
      StepCostsOne(ps[i], limit, counters[i], s[i], m.a);
    } else {
      assert ps[i].head[..0] == [];
    }
    assert TotalLeft(ps, counters, t) == TotalLeft(ps, counters, s)[i := StepsLeft(ps[i], counters[i], t[i])];
    SumUpdate(TotalLeft(ps, counters, s), i, StepsLeft(ps[i], counters[i], t[i]));
  }

  /** Over any run: the invariant holds, and moves made plus steps left is constant. */
  lemma {:induction false} RunOk(ps: seq<Plan>, limit: int, counters: seq<nat>, s: Cycle, moves: seq<Move>)
    requires AllOk(ps, counters, s) && Legal(ps, limit, s, moves)
    ensures AllOk(ps, counters, After(ps, limit, s, moves))
    ensures |moves| + Sum(TotalLeft(ps, counters, After(ps, limit, s, moves))) == Sum(TotalLeft(ps, counters, s))
    decreases |moves|
  {
    if moves == [] {
    } else {
      MoveOk(ps, limit, counters, s, moves[0]);
      RunOk(ps, limit, counters, Do(ps, limit, s, moves[0]), moves[1..]);
    }
  }

  lemma {:induction false} RunningIsZero(s: Cycle)
    ensures Running(s) == 0 <==> forall i :: 0 <= i < |s| ==> s[i].phase.Waiting? || s[i].phase.Returned?
  {
    if s == [] {
    } else {
      var init := s[..|s| - 1];
      RunningIsZero(init);
      assert forall i :: 0 <= i < |init| ==> init[i] == s[i];
    }
  }

  lemma {:induction false} FirstWaiting(s: Cycle, n: nat) returns (i: nat)
    requires n < |s| && s[n].phase.Waiting?
    ensures i < |s| && s[i].phase.Waiting? && forall k :: 0 <= k < i ==> !s[k].phase.Waiting?
    decreases n
  {
    if k :| 0 <= k < n && s[k].phase.Waiting? {
      i := FirstWaiting(s, k);
    } else {
      i := n;
    }
  }

  /** No deadlock: an unfinished cycle can move, under every limit. */
  lemma NoDeadlock(ps: seq<Plan>, limit: int, counters: seq<nat>, s: Cycle) returns (m: Move)
    requires AllOk(ps, counters, s) && !Finished(s)
    ensures CanMove(ps, limit, s, m)
  {
    if i :| 0 <= i < |s| && !s[i].phase.Waiting? && !s[i].phase.Returned? {
      var a := CanStep(ps[i], limit, counters[i], s[i]);
      return Work(i, a);
    }
    RunningIsZero(s);
    var n :| 0 <= n < |s| && !s[n].phase.Returned?;
    var i := FirstWaiting(s, n);
    return Start(i);
  }

  lemma InitialOk(ps: seq<Plan>, counters: seq<nat>)
    requires |ps| == |counters|
    ensures AllOk(ps, counters, Initial(counters))
  {
  }

  /** The steps of a whole cycle: three and the head calls for each target, two
      and its calls for each node worker. */
  ghost function CycleSteps(ps: seq<Plan>, counters: seq<nat>): nat
    requires |ps| == |counters|
  {
    InitialOk(ps, counters);
    Sum(TotalLeft(ps, counters, Initial(counters)))
  }

  lemma FinishedIffNothingLeft(ps: seq<Plan>, counters: seq<nat>, s: Cycle)
    requires AllOk(ps, counters, s)
    ensures Finished(s) <==> Sum(TotalLeft(ps, counters, s)) == 0
  {
    var ns := TotalLeft(ps, counters, s);
    SumZero(ns);
    assert forall i :: 0 <= i < |s| ==> (ns[i] == 0 <==> s[i].phase.Returned?);
  }

  lemma StuckIffFinished(ps: seq<Plan>, limit: int, counters: seq<nat>, s: Cycle)
    requires AllOk(ps, counters, s)
    ensures (forall m :: !CanMove(ps, limit, s, m)) <==> Finished(s)
  {
    if !Finished(s) {
      var m := NoDeadlock(ps, limit, counters, s);
    }
  }

  /** What a finished target of a cycle came to. */
  ghost predicate Settled(p: Plan, e0: nat, s: Proc) {
    && s.phase.Returned?
    && IsOrder(s.phase.merged, |p.nodes|)
    && s.phase.elapsed >= 0.0
    && s.errors == e0 + Errors(AllCalls(p))
    && s.phase.ts == Result(p, s.phase.merged, s.phase.elapsed, s.errors)
  }

  /** Schedule independence. For fixed answers, under any limit and along any
      interleaving: a run that cannot go on is finished, and has taken a number of
      steps that depends on the plans alone. There is then one result per target,
      in target order: the fixed prefix, the node blocks whole and each once, in
      some order, and the fixed tail, with a counter that includes every call. */
  lemma CycleOutcome(ps: seq<Plan>, limit: int, counters: seq<nat>, moves: seq<Move>)
    requires |ps| == |counters| && Legal(ps, limit, Initial(counters), moves)
    ensures var t := After(ps, limit, Initial(counters), moves);
      && |moves| <= CycleSteps(ps, counters)
      && ((forall m :: !CanMove(ps, limit, t, m)) <==> |moves| == CycleSteps(ps, counters))
      && (Finished(t) <==> |moves| == CycleSteps(ps, counters))
      && |t| == |ps|
      && (forall i :: 0 <= i < |t| ==> (Results(t)[i].Some? <==> Settled(ps[i], counters[i], t[i])))
      && (forall i :: 0 <= i < |t| && Results(t)[i].Some? ==> Results(t)[i].value == t[i].phase.ts)
  {
    var t := After(ps, limit, Initial(counters), moves);
    InitialOk(ps, counters);
    RunOk(ps, limit, counters, Initial(counters), moves);
    FinishedIffNothingLeft(ps, counters, t);
    StuckIffFinished(ps, limit, counters, t);
  }

  /** From every reachable state the cycle can be finished. */
  lemma {:induction false} Completes(ps: seq<Plan>, limit: int, counters: seq<nat>, s: Cycle) returns (moves: seq<Move>)
    requires AllOk(ps, counters, s)
    ensures Legal(ps, limit, s, moves) && Finished(After(ps, limit, s, moves))
    decreases Sum(TotalLeft(ps, counters, s))
  {
    if Finished(s) {
      moves := [];
    } else {
      var m := NoDeadlock(ps, limit, counters, s);
      MoveOk(ps, limit, counters, s, m);
      var rest := Completes(ps, limit, counters, Do(ps, limit, s, m));
      moves := [m] + rest;
      assert moves[1..] == rest;
    }
  }

  /** Any two merge orders give the same samples, as a multiset. */
  lemma OrderIrrelevant(p: Plan, a: seq<nat>, b: seq<nat>, elapsed: real, errors: nat)
    requires IsOrder(a, |p.nodes|) && IsOrder(b, |p.nodes|)
    ensures multiset(Samples(p, a, elapsed, errors)) == multiset(Samples(p, b, elapsed, errors))
  {
    PermutedFlatten(Blocks(p.nodes), a);
    PermutedFlatten(Blocks(p.nodes), b);
  }
}
