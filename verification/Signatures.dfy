/** The series signature of internal/pve/prometheus.go: the label values joined
    by NUL, and when it identifies the label list. */
module Signatures {
  import opened Metrics

  const NUL: char := '\0'

  /** strings.Join(vs, "\x00"). */
  function Join(vs: seq<string>): string {
    if |vs| == 0 then ""
    else if |vs| == 1 then vs[0]
    else vs[0] + [NUL] + Join(vs[1..])
  }

  predicate NulFree(v: string) { NUL !in v }

  predicate AllNulFree(vs: seq<string>) { forall i :: 0 <= i < |vs| ==> NulFree(vs[i]) }

  /** A string splits at its first NUL in one way only. */
  lemma FirstNul(a: string, b: string, x: string, y: string)
    requires NulFree(a) && NulFree(b) && a + [NUL] + x == b + [NUL] + y
    ensures a == b && x == y
  {
    var s := a + [NUL] + x;
    assert s[|a|] == NUL && s[|b|] == NUL;
    assert forall k :: 0 <= k < |a| ==> s[k] == a[k] && a[k] != NUL;
    assert forall k :: 0 <= k < |b| ==> s[k] == b[k] && b[k] != NUL;
    assert |a| == |b|;
    assert a == s[..|a|] == b;
    assert x == s[|a| + 1..] == y;
  }

  lemma JoinHasNul(vs: seq<string>)
    requires |vs| > 1
    ensures NUL in Join(vs)
  {
  }

  /** On non-empty lists of NUL-free strings, of whatever lengths, joining loses
      nothing. */
  lemma {:induction false} JoinInjective(a: seq<string>, b: seq<string>)
    requires a != [] && b != [] && AllNulFree(a) && AllNulFree(b)
    requires Join(a) == Join(b)
    ensures a == b
    decreases |a|
  {
    if |a| == 1 || |b| == 1 {
      if |a| > 1 { JoinHasNul(a); }
      if |b| > 1 { JoinHasNul(b); }
      assert a == [a[0]] && b == [b[0]];
    } else {
      FirstNul(a[0], b[0], Join(a[1..]), Join(b[1..]));
      JoinInjective(a[1..], b[1..]);
      assert a == [a[0]] + a[1..] && b == [b[0]] + b[1..];
    }
  }

  predicate Over(alphabet: set<char>, vs: seq<string>) {
    forall i, k :: 0 <= i < |vs| && 0 <= k < |vs[i]| ==> vs[i][k] in alphabet
  }

  /** Exactly when the signature is safe: over a given alphabet, joining is
      injective on the lists of any one length above one iff the alphabet has no
      NUL. With NUL, moving it from one value to the next goes unnoticed. */
  lemma JoinInjectiveIff(alphabet: set<char>)
    ensures (forall a, b :: |a| == |b| > 1 && Over(alphabet, a) && Over(alphabet, b) && Join(a) == Join(b) ==> a == b)
      <==> '\0' !in alphabet
  {
    if NUL in alphabet {
      var a, b := [[NUL], ""], ["", [NUL]];
      assert a[1..] == [""] && b[1..] == [[NUL]];
      assert Join([""]) == "" && Join([[NUL]]) == [NUL];
      assert Join(a) == [NUL] + [NUL] + Join([""]) && Join(b) == "" + [NUL] + Join([[NUL]]);
      assert Over(alphabet, a) && Over(alphabet, b);
      assert a[0] != b[0];
    } else {
      forall a, b | |a| == |b| > 1 && Over(alphabet, a) && Over(alphabet, b) && Join(a) == Join(b) ensures a == b {
        JoinInjective(a, b);
      }
    }
  }

  // ---- samples ----

  function Signature(s: Sample): string { Join(Values(s.labels)) }

  /** The keys are those of the metric. */
  predicate Schematic(s: Sample) { Keys(s.labels) == KeysOf(s.name) }

  lemma SameKeysAndValues(a: seq<Label>, b: seq<Label>)
    requires Keys(a) == Keys(b) && Values(a) == Values(b)
    ensures a == b
  {
    assert |a| == |Keys(a)| == |Keys(b)| == |b|;
    forall i | 0 <= i < |a| ensures a[i] == b[i] {
      assert Keys(a)[i] == Keys(b)[i] && Values(a)[i] == Values(b)[i];
    }
  }

  /** For samples of one metric the value-only signature identifies the labels. */
  lemma SignatureIsLabels(s: Sample, t: Sample)
    requires s.name == t.name && Schematic(s) && Schematic(t)
    requires AllNulFree(Values(s.labels)) && AllNulFree(Values(t.labels))
    ensures Signature(s) == Signature(t) <==> s.labels == t.labels
  {
    if Signature(s) == Signature(t) {
      assert |KeysOf(s.name)| > 0;
      assert |s.labels| == |Keys(s.labels)| && |t.labels| == |Keys(t.labels)|;
      JoinInjective(Values(s.labels), Values(t.labels));
      SameKeysAndValues(s.labels, t.labels);
    }
  }

  // ---- samples of different targets ----

  /** Neither name is the other one followed by a NUL and more. */
  predicate Separated(c: string, d: string) {
    !(c + [NUL] <= d) && !(d + [NUL] <= c)
  }

  lemma SignatureStart(c: string, s: Sample)
    requires Conforms(c, s)
    ensures c + [NUL] <= Signature(s)
  {
  }

  lemma PrefixesCompare(c: string, d: string, g: string)
    requires c + [NUL] <= g && d + [NUL] <= g
    ensures c == d || !Separated(c, d)
  {
    assert g[..|c| + 1] == c + [NUL] && g[..|d| + 1] == d + [NUL];
    assert c == g[..|c|] && d == g[..|d|];
    if |c| < |d| {
      assert d[..|c| + 1] == c + [NUL];
    } else if |d| < |c| {
      assert c[..|d| + 1] == d + [NUL];
    }
  }

  /** Two samples of differently named targets never share a signature, whatever
      the API answered, if the names are separated. */
  lemma TargetsApart(c: string, d: string, s: Sample, t: Sample)
    requires c != d && Separated(c, d) && Conforms(c, s) && Conforms(d, t)
    ensures Signature(s) != Signature(t)
  {
    SignatureStart(c, s);
    SignatureStart(d, t);
    if Signature(s) == Signature(t) {
      PrefixesCompare(c, d, Signature(s));
    }
  }

  /** A conforming pve_up sample with any id at all. */
  function UpSample(c: string, id: string, value: real): (s: Sample)
    ensures Conforms(c, s)
  {
    MakeSample(c, Up, value, [IdLabel(id)])
  }

  lemma UpSignature(c: string, id: string, value: real)
    ensures Signature(UpSample(c, id, value)) == c + [NUL] + id
  {
    var vs := Values(UpSample(c, id, value).labels);
    assert vs == [c, id] && vs[1..] == [id];
    assert Join(vs) == vs[0] + [NUL] + Join(vs[1..]) && Join([id]) == id;
  }

  /** Names that are not separated do collide: one target's id takes the place of
      the rest of the other one's name. */
  lemma Collision(c: string, rest: string, id: string, v: real, w: real)
    ensures Signature(UpSample(c, rest + [NUL] + id, v)) == Signature(UpSample(c + [NUL] + rest, id, w))
  {
    UpSignature(c, rest + [NUL] + id, v);
    UpSignature(c + [NUL] + rest, id, w);
    assert c + [NUL] + (rest + [NUL] + id) == c + [NUL] + rest + [NUL] + id;
  }

  /** Exactly when no two conforming samples of two targets can collide. */
  lemma TargetsApartIff(c: string, d: string)
    requires c != d
    ensures (forall s, t :: Conforms(c, s) && Conforms(d, t) && s.name == t.name ==> Signature(s) != Signature(t))
      <==> Separated(c, d)
  {
    if Separated(c, d) {
      forall s, t | Conforms(c, s) && Conforms(d, t) && s.name == t.name ensures Signature(s) != Signature(t) {
        TargetsApart(c, d, s, t);
      }
    } else if c + [NUL] <= d {
      var rest := d[|c| + 1..];
      assert d == c + [NUL] + rest;
      Collision(c, rest, "", 1.0, 1.0);
      assert UpSample(c, rest + [NUL] + "", 1.0).name == UpSample(d, "", 1.0).name;
    } else {
      var rest := c[|d| + 1..];
      assert c == d + [NUL] + rest;
      Collision(d, rest, "", 1.0, 1.0);
      assert UpSample(d, rest + [NUL] + "", 1.0).name == UpSample(c, "", 1.0).name;
    }
  }
}
