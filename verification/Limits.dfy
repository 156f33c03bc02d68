/** The concurrency limit: it is never exceeded, and a limit of one makes the
    concurrent cycle the sequential one. */
module Limits {
  import opened Seqs
  import opened Clients
  import opened Plans
  import opened Collectors
  import opened Schedules

  lemma {:induction false} ActiveUpdate(ws: seq<Worker>, j: nat, w: Worker)
    requires j < |ws|
    ensures Active(ws[j := w]) + (if ws[j].Busy? then 1 else 0) == Active(ws) + (if w.Busy? then 1 else 0)
  {
    var init := ws[..|ws| - 1];
    if j == |init| {
      assert ws[j := w][..|init|] == init;
    } else {
      ActiveUpdate(init, j, w);
      assert ws[j := w][..|init|] == init[j := w];
    }
  }

  lemma {:induction false} RunningUpdate(s: Cycle, i: nat, p: Proc)
    requires i < |s|
    ensures Running(s[i := p]) + Running([s[i]]) == Running(s) + Running([p])
  {
    var init := s[..|s| - 1];
    assert [s[i]][..0] == [] && [p][..0] == [];
    if i == |init| {
      assert s[i := p][..|init|] == init;
    } else {
      RunningUpdate(init, i, p);
      assert s[i := p][..|init|] == init[i := p];
    }
  }

  /** No more workers run than the limit allows, at either level. */
  ghost predicate Within(limit: int, s: Cycle) {
    limit > 0 ==>
      && Running(s) <= limit
      && forall i :: 0 <= i < |s| && s[i].phase.Fanned? ==> Active(s[i].phase.workers) <= limit
  }

  lemma {:induction false} IdleIsInactive(n: nat)
    ensures Active(AllIdle(n)) == 0
  {
    ActiveIsZero(AllIdle(n));
  }

  lemma StepWithin(p: Plan, limit: int, s: Proc, a: Step)
    requires limit > 0 && Enabled(p, limit, s, a)
    requires s.phase.Fanned? ==> Active(s.phase.workers) <= limit
    ensures var t := Apply(p, limit, s, a);
      && (t.phase.Fanned? ==> Active(t.phase.workers) <= limit)
      && !s.phase.Waiting? && !s.phase.Returned? && !t.phase.Waiting?
  {
    match a
    case Call =>
    case Fork => IdleIsInactive(|p.nodes|);
    case Spawn(j) => ActiveUpdate(s.phase.workers, j, Busy(0));
    case NodeCall(j) => ActiveUpdate(s.phase.workers, j, Busy(s.phase.workers[j].made + 1));
    case Merge(j) => ActiveUpdate(s.phase.workers, j, Merged);
    case Return(elapsed) =>
  }

  lemma MoveWithin(ps: seq<Plan>, limit: int, s: Cycle, m: Move)
    requires Within(limit, s) && CanMove(ps, limit, s, m)
    ensures Within(limit, Do(ps, limit, s, m))
  {
    if limit > 0 {
      var i, t := m.i, Do(ps, limit, s, m);
      if m.Work? {
        StepWithin(ps[i], limit, s[i], m.a);
      }
      RunningUpdate(s, i, t[i]);
      assert [s[i]][..0] == [] && [t[i]][..0] == [];
      assert t == s[i := t[i]];
    }
  }

  lemma {:induction false} RunWithin(ps: seq<Plan>, limit: int, s: Cycle, moves: seq<Move>)
    requires Within(limit, s) && Legal(ps, limit, s, moves)
    ensures Within(limit, After(ps, limit, s, moves))
    decreases |moves|
  {
    if moves == [] {
    } else {
      MoveWithin(ps, limit, s, moves[0]);
      RunWithin(ps, limit, Do(ps, limit, s, moves[0]), moves[1..]);
    }
  }

  /** In every reachable state of a cycle at most limit targets are being collected,
      and at most limit node workers of each of them are running. */
  lemma BoundedConcurrency(ps: seq<Plan>, limit: int, counters: seq<nat>, moves: seq<Move>)
    requires |ps| == |counters| && Legal(ps, limit, Initial(counters), moves)
    ensures Within(limit, After(ps, limit, Initial(counters), moves))
  {
    RunningIsZero(Initial(counters));
    RunWithin(ps, limit, Initial(counters), moves);
  }

  // ---- a limit of one ----

  /** The first workers merged, in order, at most the next one is busy, and the rest
      have not started. */
  ghost predicate Lined(ws: seq<Worker>, order: seq<nat>) {
    var k := |order|;
    && k <= |ws| && order == IdentityOrder(k)
    && (forall j :: 0 <= j < k ==> ws[j].Merged?)
    && (k < |ws| ==> !ws[k].Merged?)
    && (forall j :: k < j < |ws| ==> ws[j].Idle?)
  }

  ghost predicate OneByOne(s: Proc) {
    match s.phase
    case Fanned(ws, order) => Lined(ws, order)
    case Returned(_, order, _) => order == IdentityOrder(|order|)
    case _ => true
  }

  lemma SpawnNext(ws: seq<Worker>, order: seq<nat>, j: nat)
    requires Lined(ws, order) && j < |ws| && ws[j].Idle? && SlotFree(1, Active(ws))
    requires forall k :: 0 <= k < j ==> !ws[k].Idle?
    ensures j == |order|
  {
    ActiveIsZero(ws);
  }

  lemma StepOneByOne(p: Plan, s: Proc, a: Step)
    requires OneByOne(s) && Enabled(p, 1, s, a)
    ensures OneByOne(Apply(p, 1, s, a))
  {
    match a
    case Spawn(j) => SpawnNext(s.phase.workers, s.phase.order, j);
    case Merge(j) => assert IdentityOrder(j) + [j] == IdentityOrder(j + 1);
    case _ =>
  }

  ghost predicate AllOneByOne(s: Cycle) {
    forall i :: 0 <= i < |s| ==> OneByOne(s[i])
  }

  lemma {:induction false} RunOneByOne(ps: seq<Plan>, s: Cycle, moves: seq<Move>)
    requires Legal(ps, 1, s, moves) && AllOneByOne(s)
    ensures AllOneByOne(After(ps, 1, s, moves))
    decreases |moves|
  {
    if moves == [] {
    } else {
      var i, next := moves[0].i, Do(ps, 1, s, moves[0]);
      if moves[0].Work? {
        StepOneByOne(ps[i], s[i], moves[0].a);
      }
      assert forall k :: 0 <= k < |next| && k != i ==> next[k] == s[k];
      RunOneByOne(ps, next, moves[1..]);
    }
  }

  /** With a limit of one every schedule gives each target the result of the
      sequential run, elapsed time aside. */
  lemma LimitOneIsSequential(ps: seq<Plan>, counters: seq<nat>, moves: seq<Move>, i: nat)
    requires |ps| == |counters| && Legal(ps, 1, Initial(counters), moves) && i < |ps|
    ensures var t := After(ps, 1, Initial(counters), moves);
      && |t| == |ps|
      && (t[i].phase.Returned? ==>
           && t[i].phase.ts == SequentialResult(ps[i], t[i].phase.elapsed, t[i].errors)
           && t[i].errors == counters[i] + Errors(AllCalls(ps[i])))
  {
    CycleOutcome(ps, 1, counters, moves);
    RunOneByOne(ps, Initial(counters), moves);
    var t := After(ps, 1, Initial(counters), moves);
    if t[i].phase.Returned? {
      assert Results(t)[i].Some?;
      SequentialIsAResult(ps[i], t[i].phase.elapsed, t[i].errors);
    }
  }
}
