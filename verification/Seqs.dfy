/** Sequence vocabulary shared by the other modules: options, concatenation of
    lists of lists, filters, sums, permutations of an index range, and "keep the
    first element of each key". */
module Seqs {

  datatype Option<+T> = None | Some(value: T)

  ghost predicate NoDup<T>(s: seq<T>) {
    forall i, j :: 0 <= i < j < |s| ==> s[i] != s[j]
  }

  lemma Regroup<T>(a: seq<T>, b: seq<T>, c: seq<T>)
    ensures (a + b) + c == a + (b + c)
    ensures a + [] == a && [] + a == a
  {
  }

  /** The last element of a duplicate-free list does not occur before. */
  lemma LastIsNew<T>(s: seq<T>, x: T)
    requires NoDup(s) && s != []
    ensures x in s <==> x in s[..|s| - 1] || x == s[|s| - 1]
    ensures !(x in s[..|s| - 1] && x == s[|s| - 1])
  {
  }

  lemma {:induction false} DistinctMeansOne<T>(s: seq<T>, x: T)
    requires NoDup(s)
    ensures multiset(s)[x] == if x in s then 1 else 0
  {
    if s == [] {
    } else {
      DistinctMeansOne(s[..|s| - 1], x);
      LastIsNew(s, x);
      assert s == s[..|s| - 1] + [s[|s| - 1]];
    }
  }

  lemma TwiceMeansTwo<T>(s: seq<T>, i: nat, j: nat)
    requires i < j < |s| && s[i] == s[j]
    ensures multiset(s)[s[i]] >= 2
  {
    assert s == s[..i] + [s[i]] + s[i + 1..j] + [s[j]] + s[j + 1..];
  }

  /** Concatenation of a list of lists. */
  function Flatten<T>(ss: seq<seq<T>>): seq<T> {
    if ss == [] then [] else Flatten(ss[..|ss| - 1]) + ss[|ss| - 1]
  }

  lemma {:induction false} FlattenConcat<T>(a: seq<seq<T>>, b: seq<seq<T>>)
    ensures Flatten(a + b) == Flatten(a) + Flatten(b)
    decreases |b|
  {
    if b == [] {
      assert a + b == a;
    } else {
      FlattenConcat(a, b[..|b| - 1]);
      assert (a + b)[..|a + b| - 1] == a + b[..|b| - 1];
    }
  }

  lemma FlattenOne<T>(s: seq<T>)
    ensures Flatten([s]) == s
  {
  }

  /** The elements of s that satisfy p, in order. */
  function Filter<T>(p: T -> bool, s: seq<T>): seq<T> {
    if s == [] then []
    else Filter(p, s[..|s| - 1]) + (if p(s[|s| - 1]) then [s[|s| - 1]] else [])
  }

  lemma {:induction false} FilterConcat<T>(p: T -> bool, a: seq<T>, b: seq<T>)
    ensures Filter(p, a + b) == Filter(p, a) + Filter(p, b)
    decreases |b|
  {
    if b == [] {
      assert a + b == a;
    } else {
      FilterConcat(p, a, b[..|b| - 1]);
      assert (a + b)[..|a + b| - 1] == a + b[..|b| - 1];
    }
  }

  lemma {:induction false} FilterMultiset<T>(p: T -> bool, s: seq<T>, x: T)
    ensures multiset(Filter(p, s))[x] == if p(x) then multiset(s)[x] else 0
  {
    if s == [] {
    } else {
      FilterMultiset(p, s[..|s| - 1], x);
      assert s == s[..|s| - 1] + [s[|s| - 1]];
    }
  }

  lemma FilterMember<T>(p: T -> bool, s: seq<T>, x: T)
    ensures x in Filter(p, s) <==> x in s && p(x)
  {
  }

  ghost predicate Increasing(ix: seq<nat>) {
    forall a, b :: 0 <= a < b < |ix| ==> ix[a] < ix[b]
  }

  /** A filter takes the elements at exactly the indices where p holds, in order. */
  lemma {:induction false} FilterIndices<T>(p: T -> bool, s: seq<T>) returns (ix: seq<nat>)
    ensures Increasing(ix) && forall i: nat :: i in ix <==> i < |s| && p(s[i])
    ensures |ix| == |Filter(p, s)| && forall k :: 0 <= k < |ix| ==> ix[k] < |s| && Filter(p, s)[k] == s[ix[k]]
  {
    if s == [] {
      ix := [];
    } else {
      var n := |s| - 1;
      var init := FilterIndices(p, s[..n]);
      if p(s[n]) {
        ix := init + [n];
        OneMoreIndex(init, n);
        assert forall i: nat :: i in ix <==> i in init || i == n;
      } else {
        ix := init;
        Regroup(Filter(p, s[..n]), [], []);
      }
    }
  }

  lemma OneMoreIndex(ix: seq<nat>, n: nat)
    requires Increasing(ix) && forall k :: 0 <= k < |ix| ==> ix[k] < n
    ensures Increasing(ix + [n])
  {
  }

  /** Equal multisets stay equal under a filter. */
  lemma FilterRespectsMultiset<T(!new)>(p: T -> bool, s: seq<T>, t: seq<T>)
    requires multiset(s) == multiset(t)
    ensures multiset(Filter(p, s)) == multiset(Filter(p, t))
  {
    var a, b := multiset(Filter(p, s)), multiset(Filter(p, t));
    forall x ensures a[x] == b[x] {
      FilterMultiset(p, s, x);
      FilterMultiset(p, t, x);
    }
  }

  lemma {:induction false} FilterAll<T>(p: T -> bool, s: seq<T>)
    requires forall i :: 0 <= i < |s| ==> p(s[i])
    ensures Filter(p, s) == s
  {
    if s == [] {
    } else {
      FilterAll(p, s[..|s| - 1]);
      assert s == s[..|s| - 1] + [s[|s| - 1]];
    }
  }

  lemma {:induction false} FilterNone<T>(p: T -> bool, s: seq<T>)
    requires forall i :: 0 <= i < |s| ==> !p(s[i])
    ensures Filter(p, s) == []
  {
    if s == [] {
    } else {
      FilterNone(p, s[..|s| - 1]);
    }
  }

  lemma {:induction false} FilterCommutes<T>(p: T -> bool, q: T -> bool, s: seq<T>)
    ensures Filter(p, Filter(q, s)) == Filter(q, Filter(p, s))
  {
    if s == [] {
    } else {
      var init, x := s[..|s| - 1], s[|s| - 1];
      FilterCommutes(p, q, init);
      FilterConcat(p, Filter(q, init), if q(x) then [x] else []);
      FilterConcat(q, Filter(p, init), if p(x) then [x] else []);
      assert [x][..0] == [];
    }
  }

  function Sum(ns: seq<nat>): nat {
    if ns == [] then 0 else Sum(ns[..|ns| - 1]) + ns[|ns| - 1]
  }

  lemma {:induction false} SumUpdate(ns: seq<nat>, i: nat, n: nat)
    requires i < |ns|
    ensures Sum(ns[i := n]) + ns[i] == Sum(ns) + n
  {
    var init := ns[..|ns| - 1];
    if i == |init| {
      assert ns[i := n][..|ns| - 1] == init;
    } else {
      SumUpdate(init, i, n);
      assert ns[i := n][..|ns| - 1] == init[i := n];
    }
  }

  lemma {:induction false} SumZero(ns: seq<nat>)
    ensures Sum(ns) == 0 <==> forall i :: 0 <= i < |ns| ==> ns[i] == 0
  {
    if ns == [] {
    } else {
      SumZero(ns[..|ns| - 1]);
      assert forall i :: 0 <= i < |ns| - 1 ==> ns[..|ns| - 1][i] == ns[i];
    }
  }

  /** order lists every index below n exactly once. */
  ghost predicate IsOrder(order: seq<nat>, n: nat) {
    |order| == n && NoDup(order) && forall k :: 0 <= k < |order| ==> order[k] < n
  }

  /** The lists of ss, taken in the given order. */
  function Pick<T>(ss: seq<T>, order: seq<nat>): (r: seq<T>)
    requires forall k :: 0 <= k < |order| ==> order[k] < |ss|
    ensures |r| == |order|
  {
    seq(|order|, k requires 0 <= k < |order| => ss[order[k]])
  }

  function IdentityOrder(n: nat): (r: seq<nat>)
    ensures IsOrder(r, n)
  {
    seq(n, k => k)
  }

  lemma PickIdentity<T>(ss: seq<T>)
    ensures Pick(ss, IdentityOrder(|ss|)) == ss
  {
  }

  ghost function Below(n: nat): (r: set<nat>)
    ensures |r| == n && forall k: nat :: k in r <==> k < n
  {
    if n == 0 then {} else Below(n - 1) + {n - 1}
  }

  ghost function Members<T(!new)>(s: seq<T>): (r: set<T>)
    ensures forall x :: x in r <==> x in s
    ensures NoDup(s) ==> |r| == |s|
  {
    if s == [] then {}
    else
      assert s == s[..|s| - 1] + [s[|s| - 1]];
      Members(s[..|s| - 1]) + {s[|s| - 1]}
  }

  /** A duplicate-free list of indices below n has at most n entries, and names
      every index when it has n. */
  lemma DistinctBounded(order: seq<nat>, n: nat)
    requires NoDup(order) && forall k :: 0 <= k < |order| ==> order[k] < n
    ensures |order| <= n
    ensures |order| == n ==> forall i :: 0 <= i < n ==> i in order
  {
    assert Members(order) <= Below(n);
    CardSubset(Members(order), Below(n));
  }

  lemma CardSubset<T>(a: set<T>, b: set<T>)
    requires a <= b
    ensures |a| <= |b|
    ensures |a| == |b| ==> a == b
  {
    assert b == a + (b - a);
    assert |b| == |a| + |b - a|;
  }

  /** An order of n indices splits around its entry n - 1, and what is left is
      an order of n - 1 indices. */
  lemma SplitAtLast(order: seq<nat>, n: nat) returns (a: seq<nat>, b: seq<nat>)
    requires n > 0 && IsOrder(order, n)
    ensures order == a + [n - 1] + b && IsOrder(a + b, n - 1)
    ensures forall k :: 0 <= k < |a| ==> a[k] < n - 1
    ensures forall k :: 0 <= k < |b| ==> b[k] < n - 1
  {
    DistinctBounded(order, n);
    assert n - 1 in order;
    var p :| 0 <= p < |order| && order[p] == n - 1;
    a, b := order[..p], order[p + 1..];
    forall k | 0 <= k < n && k != p ensures order[k] < n - 1 {
      assert order[k] != order[p];
    }
    forall i, j | 0 <= i < j < |a + b| ensures (a + b)[i] != (a + b)[j] {
      assert (a + b)[i] == order[if i < p then i else i + 1];
      assert (a + b)[j] == order[if j < p then j else j + 1];
    }
  }

  /** Taking whole lists in another order only permutes the concatenation. */
  lemma {:induction false} PermutedFlatten<T>(ss: seq<seq<T>>, order: seq<nat>)
    requires IsOrder(order, |ss|)
    ensures multiset(Flatten(Pick(ss, order))) == multiset(Flatten(ss))
    decreases |ss|
  {
    if ss == [] {
      assert Pick(ss, order) == ss;
    } else {
      var n := |ss| - 1;
      var a, b := SplitAtLast(order, |ss|);
      PermutedFlatten(ss[..n], a + b);
      PickAround(ss, a, n, b);
    }
  }

  lemma PickAround<T>(ss: seq<seq<T>>, a: seq<nat>, n: nat, b: seq<nat>)
    requires |ss| == n + 1
    requires forall k :: 0 <= k < |a| ==> a[k] < n
    requires forall k :: 0 <= k < |b| ==> b[k] < n
    ensures forall k :: 0 <= k < |a + [n] + b| ==> (a + [n] + b)[k] < |ss|
    ensures forall k :: 0 <= k < |a + b| ==> (a + b)[k] < n
    ensures multiset(Flatten(Pick(ss, a + [n] + b))) == multiset(Flatten(Pick(ss[..n], a + b))) + multiset(ss[n])
  {
    var pa, pb := Pick(ss, a), Pick(ss, b);
    assert Pick(ss, a + [n] + b) == pa + [ss[n]] + pb;
    assert Pick(ss[..n], a + b) == pa + pb;
    FlattenConcat(pa + [ss[n]], pb);
    FlattenConcat(pa, [ss[n]]);
    FlattenConcat(pa, pb);
    FlattenOne(ss[n]);
  }

  /** KeepFirst keeps the first element of each key, in order. */
  function KeepFirst<T, K(==)>(key: T -> K, s: seq<T>): seq<T> {
    if s == [] then []
    else
      var init, x := s[..|s| - 1], s[|s| - 1];
      KeepFirst(key, init) + (if key(x) in KeySet(key, init) then [] else [x])
  }

  function KeySet<T, K(==)>(key: T -> K, s: seq<T>): set<K> {
    if s == [] then {} else KeySet(key, s[..|s| - 1]) + {key(s[|s| - 1])}
  }

  lemma {:induction false} KeySetMember<T, K>(key: T -> K, s: seq<T>, k: K)
    ensures k in KeySet(key, s) <==> exists i :: 0 <= i < |s| && key(s[i]) == k
  {
    if s == [] {
    } else {
      var init := s[..|s| - 1];
      KeySetMember(key, init, k);
      assert forall i :: 0 <= i < |init| ==> init[i] == s[i];
    }
  }

  /** Element i is the first of its key. */
  predicate FirstAt<T, K(==)>(key: T -> K, s: seq<T>, i: nat)
    requires i < |s|
  {
    key(s[i]) !in KeySet(key, s[..i])
  }

  /** The indices, increasing, of the elements that are first of their key. */
  function FirstIndices<T, K(==)>(key: T -> K, s: seq<T>): (ix: seq<nat>)
    ensures forall k :: 0 <= k < |ix| ==> ix[k] < |s|
  {
    if s == [] then []
    else
      var init := s[..|s| - 1];
      FirstIndices(key, init) + (if key(s[|s| - 1]) in KeySet(key, init) then [] else [|s| - 1])
  }

  /** The taken indices increase, and an index is taken exactly when no earlier
      element has the same key. */
  lemma {:induction false} FirstIndicesExact<T, K>(key: T -> K, s: seq<T>)
    ensures forall a, b :: 0 <= a < b < |FirstIndices(key, s)| ==> FirstIndices(key, s)[a] < FirstIndices(key, s)[b]
    ensures forall i: nat :: i in FirstIndices(key, s) <==> i < |s| && FirstAt(key, s, i)
  {
    if s == [] {
    } else {
      var init, n := s[..|s| - 1], |s| - 1;
      FirstIndicesExact(key, init);
      assert FirstAt(key, s, n) <==> key(s[n]) !in KeySet(key, init);
      forall i: nat ensures i in FirstIndices(key, s) <==> i < |s| && FirstAt(key, s, i) {
        if i < n {
          assert init[..i] == s[..i];
        }
      }
    }
  }

  /** KeepFirst takes the elements at those indices. */
  lemma {:induction false} KeepFirstPicks<T, K>(key: T -> K, s: seq<T>)
    ensures KeepFirst(key, s) == Pick(s, FirstIndices(key, s))
  {
    if s == [] {
    } else {
      var init := s[..|s| - 1];
      KeepFirstPicks(key, init);
      assert Pick(s, FirstIndices(key, init)) == Pick(init, FirstIndices(key, init));
    }
  }

  /** Kept elements have pairwise different keys; no key is lost. */
  lemma {:induction false} KeepFirstKeys<T, K>(key: T -> K, s: seq<T>)
    ensures forall i, j :: 0 <= i < j < |KeepFirst(key, s)| ==> key(KeepFirst(key, s)[i]) != key(KeepFirst(key, s)[j])
    ensures KeySet(key, KeepFirst(key, s)) == KeySet(key, s)
    ensures forall i :: 0 <= i < |KeepFirst(key, s)| ==> KeepFirst(key, s)[i] in s
  {
    if s == [] {
    } else {
      var init, x := s[..|s| - 1], s[|s| - 1];
      var kept := KeepFirst(key, init);
      KeepFirstKeys(key, init);
      forall i | 0 <= i < |kept| ensures key(kept[i]) in KeySet(key, init) {
        KeySetMember(key, kept, key(kept[i]));
      }
      assert (kept + [x])[..|kept|] == kept && kept + [] == kept;
    }
  }

  /** Nothing is dropped when the keys are pairwise different. */
  lemma {:induction false} KeepFirstDistinct<T, K>(key: T -> K, s: seq<T>)
    requires forall i, j :: 0 <= i < j < |s| ==> key(s[i]) != key(s[j])
    ensures KeepFirst(key, s) == s
  {
    if s == [] {
    } else {
      var init, x := s[..|s| - 1], s[|s| - 1];
      KeepFirstDistinct(key, init);
      KeySetMember(key, init, key(x));
      assert s == init + [x];
    }
  }

  /** Two keys that agree on which elements are equal keep the same elements. */
  lemma {:induction false} KeepFirstSameKey<T, K, L>(key: T -> K, key': T -> L, s: seq<T>)
    requires forall i, j :: 0 <= i < j < |s| ==> (key(s[i]) == key(s[j]) <==> key'(s[i]) == key'(s[j]))
    ensures KeepFirst(key, s) == KeepFirst(key', s)
  {
    if s == [] {
    } else {
      var init, x := s[..|s| - 1], s[|s| - 1];
      KeepFirstSameKey(key, key', init);
      KeySetMember(key, init, key(x));
      KeySetMember(key', init, key'(x));
      assert forall i :: 0 <= i < |init| ==> (key(init[i]) == key(x) <==> key'(init[i]) == key'(x));
    }
  }

  /** Filtering by p before or after keeping firsts is the same when no key is
      shared by an element that satisfies p and one that does not. */
  lemma {:induction false} KeepFirstFilter<T, K>(key: T -> K, p: T -> bool, s: seq<T>)
    requires forall i, j :: 0 <= i < |s| && 0 <= j < |s| && key(s[i]) == key(s[j]) ==> p(s[i]) == p(s[j])
    ensures Filter(p, KeepFirst(key, s)) == KeepFirst(key, Filter(p, s))
  {
    if s == [] {
    } else {
      var init, x := s[..|s| - 1], s[|s| - 1];
      var f := Filter(p, init);
      KeepFirstFilter(key, p, init);
      FilterSnoc(p, KeepFirst(key, init), x);
      assert KeepFirst(key, init) + [] == KeepFirst(key, init) && f + [] == f;
      if p(x) {
        assert (f + [x])[..|f|] == f;
        KeySetFilter(key, p, s);
      }
    }
  }

  lemma FilterSnoc<T>(p: T -> bool, s: seq<T>, x: T)
    ensures Filter(p, s + [x]) == Filter(p, s) + (if p(x) then [x] else [])
  {
  }

  /** Under the same separation, an inside key is seen before iff it is seen inside. */
  lemma KeySetFilter<T, K>(key: T -> K, p: T -> bool, s: seq<T>)
    requires s != [] && p(s[|s| - 1])
    requires forall i, j :: 0 <= i < |s| && 0 <= j < |s| && key(s[i]) == key(s[j]) ==> p(s[i]) == p(s[j])
    ensures key(s[|s| - 1]) in KeySet(key, s[..|s| - 1]) <==> key(s[|s| - 1]) in KeySet(key, Filter(p, s[..|s| - 1]))
  {
    var init, k := s[..|s| - 1], key(s[|s| - 1]);
    var f := Filter(p, init);
    KeySetMember(key, init, k);
    KeySetMember(key, f, k);
    if i :| 0 <= i < |init| && key(init[i]) == k {
      assert init[i] == s[i];
      FilterMember(p, init, init[i]);
    }
    if i :| 0 <= i < |f| && key(f[i]) == k {
      FilterMember(p, init, f[i]);
    }
  }
}
