/** internal/pve/collector.go, the merge of a node worker in its own steps: take the
    lock, read the shared list, write it back longer, and let go. Module Schedules
    makes one step of it; here is why it may. */
module Locks {
  import opened Seqs
  import opened Metrics

  datatype Stage = Ready | Locked | Holding(seen: seq<Sample>) | Written | Released

  /** merged is history only: the workers that have written, in order. */
  datatype State = State(out: seq<Sample>, holder: Option<nat>, stages: seq<Stage>, merged: seq<nat>)

  datatype Step = Acquire(j: nat) | Load(j: nat) | Store(j: nat) | Release(j: nat)

  /** With mutex false the lock is there and nobody waits for it. */
  predicate Enabled(mutex: bool, s: State, a: Step) {
    a.j < |s.stages|
    && match a
       case Acquire(j) => s.stages[j].Ready? && (mutex ==> s.holder.None?)
       case Load(j) => s.stages[j].Locked?
       case Store(j) => s.stages[j].Holding?
       case Release(j) => s.stages[j].Written?
  }

  function Apply(mutex: bool, blocks: seq<seq<Sample>>, s: State, a: Step): State
    requires Enabled(mutex, s, a) && |s.stages| == |blocks|
  {
    match a
    case Acquire(j) => s.(holder := Some(j), stages := s.stages[j := Locked])
    case Load(j) => s.(stages := s.stages[j := Holding(s.out)])
    case Store(j) =>
      s.(out := s.stages[j].seen + blocks[j], stages := s.stages[j := Written], merged := s.merged + [j])
    case Release(j) => s.(holder := None, stages := s.stages[j := Released])
  }

  predicate Inside(st: Stage) { st.Locked? || st.Holding? || st.Written? }

  predicate Past(st: Stage) { st.Written? || st.Released? }

  /** The holder alone is inside, and what it has read is what is there. */
  ghost predicate Ok(base: seq<Sample>, blocks: seq<seq<Sample>>, s: State) {
    && |s.stages| == |blocks|
    && (forall j :: 0 <= j < |blocks| ==> (Inside(s.stages[j]) <==> s.holder == Some(j)))
    && (forall j :: 0 <= j < |blocks| && s.stages[j].Holding? ==> s.stages[j].seen == s.out)
    && NoDup(s.merged) && (forall k :: 0 <= k < |s.merged| ==> s.merged[k] < |blocks|)
    && (forall j :: 0 <= j < |blocks| ==> (j in s.merged <==> Past(s.stages[j])))
    && s.out == base + Flatten(Pick(blocks, s.merged))
  }

  lemma StoreOk(base: seq<Sample>, blocks: seq<seq<Sample>>, s: State, j: nat)
    requires Ok(base, blocks, s) && Enabled(true, s, Store(j))
    ensures Ok(base, blocks, Apply(true, blocks, s, Store(j)))
  {
    assert j !in s.merged;
    assert forall i :: i in s.merged + [j] <==> i in s.merged || i == j;
    assert Pick(blocks, s.merged + [j]) == Pick(blocks, s.merged) + [blocks[j]];
    FlattenConcat(Pick(blocks, s.merged), [blocks[j]]);
    FlattenOne(blocks[j]);
    Regroup(base, Flatten(Pick(blocks, s.merged)), blocks[j]);
  }

  /** The lock makes the merge one step: each step of a worker appends one whole block
      that was not there before, or leaves the list alone. */
  lemma StepIsMerge(base: seq<Sample>, blocks: seq<seq<Sample>>, s: State, a: Step)
    requires Ok(base, blocks, s) && Enabled(true, s, a)
    ensures var t := Apply(true, blocks, s, a);
      && Ok(base, blocks, t)
      && (if a.Store? then a.j !in s.merged && t.merged == s.merged + [a.j] && t.out == s.out + blocks[a.j]
          else t.merged == s.merged && t.out == s.out)
  {
    match a
    case Store(j) => StoreOk(base, blocks, s, j);
    case _ =>
  }

  ghost predicate Legal(mutex: bool, blocks: seq<seq<Sample>>, s: State, run: seq<Step>)
    requires |s.stages| == |blocks|
    decreases |run|
  {
    run != [] ==> Enabled(mutex, s, run[0]) && Legal(mutex, blocks, Apply(mutex, blocks, s, run[0]), run[1..])
  }

  ghost function After(mutex: bool, blocks: seq<seq<Sample>>, s: State, run: seq<Step>): State
    requires |s.stages| == |blocks| && Legal(mutex, blocks, s, run)
    decreases |run|
  {
    if run == [] then s else After(mutex, blocks, Apply(mutex, blocks, s, run[0]), run[1..])
  }

  function Initial(base: seq<Sample>, n: nat): (s: State)
    ensures |s.stages| == n
  {
    State(base, None, seq(n, j => Ready), [])
  }

  lemma {:induction false} RunOk(base: seq<Sample>, blocks: seq<seq<Sample>>, s: State, run: seq<Step>)
    requires Ok(base, blocks, s) && Legal(true, blocks, s, run)
    ensures Ok(base, blocks, After(true, blocks, s, run))
    decreases |run|
  {
    if run == [] {
    } else {
      StepIsMerge(base, blocks, s, run[0]);
      RunOk(base, blocks, Apply(true, blocks, s, run[0]), run[1..]);
    }
  }

  lemma InitialOk(base: seq<Sample>, blocks: seq<seq<Sample>>)
    ensures Ok(base, blocks, Initial(base, |blocks|))
  {
    assert Pick(blocks, []) == [];
    Regroup(base, [], []);
  }

  ghost predicate AllReleased(s: State) {
    forall j :: 0 <= j < |s.stages| ==> s.stages[j].Released?
  }

  lemma ReleasedIsOrder(base: seq<Sample>, blocks: seq<seq<Sample>>, s: State)
    requires Ok(base, blocks, s) && AllReleased(s)
    ensures IsOrder(s.merged, |blocks|)
  {
    assert Members(s.merged) == Below(|blocks|);
  }

  /** Mutual exclusion, and nothing lost or doubled: once every worker has let go, the
      list has each block whole and once, behind what was there, in some order. */
  lemma NothingLostUnderLock(base: seq<Sample>, blocks: seq<seq<Sample>>, run: seq<Step>)
    requires Legal(true, blocks, Initial(base, |blocks|), run)
    ensures var t := After(true, blocks, Initial(base, |blocks|), run);
      && |t.stages| == |blocks|
      && (forall i, j :: 0 <= i < j < |t.stages| ==> !(Inside(t.stages[i]) && Inside(t.stages[j])))
      && (AllReleased(t) ==> IsOrder(t.merged, |blocks|) && t.out == base + Flatten(Pick(blocks, t.merged)))
  {
    InitialOk(base, blocks);
    RunOk(base, blocks, Initial(base, |blocks|), run);
    var t := After(true, blocks, Initial(base, |blocks|), run);
    if AllReleased(t) {
      ReleasedIsOrder(base, blocks, t);
    }
  }

  /** Without the lock a block can be lost: two workers read the same list, and the
      second one to write overwrites the first. */
  lemma LostWithoutLock(base: seq<Sample>, x: seq<Sample>, y: seq<Sample>)
    ensures var run := [Acquire(0), Acquire(1), Load(0), Load(1), Store(0), Store(1), Release(0), Release(1)];
      && Legal(false, [x, y], Initial(base, 2), run)
      && After(false, [x, y], Initial(base, 2), run) == State(base + y, None, [Released, Released], [0, 1])
  {
  }
}
