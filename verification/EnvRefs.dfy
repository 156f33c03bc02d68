/** internal/utils/env.go, the reference pattern of line 14: ${NAME} or
    ${NAME:-fallback}, as section 2.6.2 of POSIX.1-2017 XCU writes them, except
    that the fallback ends at the first closing brace. */
module EnvRefs {
  import opened Seqs

  // ---- the language, declaratively ----

  predicate NameStart(c: char) { 'A' <= c <= 'Z' || 'a' <= c <= 'z' || c == '_' }

  predicate NameChar(c: char) { NameStart(c) || '0' <= c <= '9' }

  predicate FallbackChar(c: char) { c != '}' }

  predicate All(p: char -> bool, s: string) { forall i :: 0 <= i < |s| ==> p(s[i]) }

  /** A reference: a name and, if there is one, the text after ":-". */
  datatype Ref = Ref(name: string, fallback: Option<string>)
  {
    predicate WellFormed() {
      && |name| > 0 && NameStart(name[0]) && All(NameChar, name)
      && (fallback.Some? ==> All(FallbackChar, fallback.value))
    }
  }

  function RefText(r: Ref): string {
    "${" + r.name + (if r.fallback.Some? then ":-" + r.fallback.value else "") + "}"
  }

  // ---- the scanner ----

  /** The length of the longest prefix whose characters satisfy p. */
  function Span(p: char -> bool, s: string): (n: nat)
    ensures n <= |s| && All(p, s[..n]) && (n < |s| ==> !p(s[n]))
  {
    if s == "" || !p(s[0]) then 0
    else
      var n := Span(p, s[1..]);
      assert s[..n + 1] == [s[0]] + s[1..][..n];
      n + 1
  }

  /** The text of a reference after "${", at the start of b, and its length. */
  function BodyAt(b: string): (m: Option<(Ref, nat)>)
    ensures m.Some? ==> 1 < m.value.1 <= |b|
  {
    if b == "" || !NameStart(b[0]) then None
    else
      var n := Span(NameChar, b);
      var name, rest := b[..n], b[n..];
      if rest != "" && rest[0] == '}' then Some((Ref(name, None), n + 1))
      else if |rest| < 2 || rest[0] != ':' || rest[1] != '-' then None
      else
        var k := Span(FallbackChar, rest[2..]);
        if k == |rest[2..]| then None else Some((Ref(name, Some(rest[2..][..k])), n + k + 3))
  }

  /** The reference at the start of s, with the length of its text. */
  function RefAt(s: string): (m: Option<(Ref, nat)>)
    ensures m.Some? ==> 3 < m.value.1 <= |s|
  {
    if |s| < 2 || s[0] != '$' || s[1] != '{' then None
    else match BodyAt(s[2..])
      case None => None
      case Some(m) => Some((m.0, m.1 + 2))
  }

  // ---- the scanner recognises exactly the language, in one way ----

  lemma {:induction false} SpanOf(p: char -> bool, x: string, c: char, y: string)
    requires All(p, x) && !p(c)
    ensures Span(p, x + [c] + y) == |x|
  {
    if x == "" {
      assert x + [c] + y == [c] + y;
    } else {
      SpanOf(p, x[1..], c, y);
      assert (x + [c] + y)[1..] == x[1..] + [c] + y;
    }
  }

  lemma Take(x: string, y: string)
    ensures (x + y)[..|x|] == x && (x + y)[|x|..] == y
  {
  }

  function BodyText(r: Ref): string {
    if r.fallback.None? then r.name + "}" else r.name + (":-" + (r.fallback.value + "}"))
  }

  lemma RefTextIsBody(r: Ref)
    ensures RefText(r) == "${" + BodyText(r)
  {
  }

  lemma BodySound(b: string)
    requires BodyAt(b).Some?
    ensures BodyAt(b).value.0.WellFormed()
    ensures b[..BodyAt(b).value.1] == BodyText(BodyAt(b).value.0)
  {
    var r, n := BodyAt(b).value.0, Span(NameChar, b);
    if r.fallback.None? {
      assert b[..n + 1] == b[..n] + "}";
    } else {
      var k := Span(FallbackChar, b[n..][2..]);
      assert b[..n + k + 3] == b[..n] + (":-" + (b[n..][2..][..k] + "}"));
    }
  }

  /** What the scanner returns is a well-formed reference whose text is there. */
  lemma ScanSound(s: string)
    requires RefAt(s).Some?
    ensures RefAt(s).value.0.WellFormed()
    ensures s[..RefAt(s).value.1] == RefText(RefAt(s).value.0)
  {
    var b := s[2..];
    BodySound(b);
    RefTextIsBody(RefAt(s).value.0);
    assert s == "${" + b;
  }

  lemma BodyComplete(r: Ref, tail: string)
    requires r.WellFormed()
    ensures BodyAt(BodyText(r) + tail) == Some((r, |BodyText(r)|))
  {
    if r.fallback.None? {
      SpanOf(NameChar, r.name, '}', tail);
      Take(r.name, ['}'] + tail);
      assert BodyText(r) + tail == r.name + ['}'] + tail == r.name + (['}'] + tail);
    } else {
      var f := r.fallback.value;
      FallbackComplete(r, f, tail);
    }
  }

  lemma FallbackComplete(r: Ref, f: string, tail: string)
    requires r.WellFormed() && r.fallback == Some(f)
    ensures BodyAt(BodyText(r) + tail) == Some((r, |BodyText(r)|))
  {
    var after := f + ['}'] + tail;
    var rest := ":-" + after;
    assert rest[2..] == after && rest == [':'] + ("-" + after);
    assert BodyText(r) + tail == r.name + rest by {
      Regroup(f, ['}'], tail);
      Regroup(":-", f + "}", tail);
      Regroup(r.name, ":-" + (f + "}"), tail);
    }
    Regroup(r.name, [':'], "-" + after);
    SpanOf(NameChar, r.name, ':', "-" + after);
    Take(r.name, rest);
    SpanOf(FallbackChar, f, '}', tail);
    Regroup(f, ['}'], tail);
    Take(f, ['}'] + tail);
  }

  /** A well-formed reference at the start of s is what the scanner returns. */
  lemma ScanComplete(r: Ref, tail: string)
    requires r.WellFormed()
    ensures RefAt(RefText(r) + tail) == Some((r, |RefText(r)|))
  {
    BodyComplete(r, tail);
    RefTextIsBody(r);
    Regroup("${", BodyText(r), tail);
    Take("${", BodyText(r) + tail);
  }

  /** The pattern is unambiguous: a string starts with at most one reference, of
      one length, and the scanner finds it exactly when it is there. */
  lemma RefAtExact(s: string, r: Ref, n: nat)
    ensures RefAt(s) == Some((r, n)) <==> r.WellFormed() && n == |RefText(r)| && RefText(r) <= s
  {
    if RefAt(s).Some? {
      ScanSound(s);
    }
    if r.WellFormed() && RefText(r) <= s {
      ScanComplete(r, s[|RefText(r)|..]);
      assert s == RefText(r) + s[|RefText(r)|..];
    }
  }

  // ---- tokens ----

  datatype Token = Lit(ch: char) | Reference(ref: Ref)

  function TokenText(t: Token): string { match t case Lit(c) => [c] case Reference(r) => RefText(r) }

  function Unparse(ts: seq<Token>): string {
    if ts == [] then "" else TokenText(ts[0]) + Unparse(ts[1..])
  }

  ghost predicate StartsWithRef(s: string) {
    exists r: Ref :: r.WellFormed() && RefText(r) <= s
  }

  /** A leftmost decomposition: references are well formed, and no reference
      begins at a literal character. */
  ghost predicate Leftmost(ts: seq<Token>) {
    ts != [] ==>
      && (match ts[0] case Lit(_) => !StartsWithRef(Unparse(ts)) case Reference(r) => r.WellFormed())
      && Leftmost(ts[1..])
  }

  /** The token at the start of s, with the length of its text. */
  function First(s: string): (t: (Token, nat))
    requires s != ""
    ensures 0 < t.1 <= |s|
  {
    match RefAt(s) case Some(m) => (Reference(m.0), m.1) case None => (Lit(s[0]), 1)
  }

  /** The matches ReplaceAll visits, and the characters between them. */
  function Tokens(s: string): seq<Token>
    decreases |s|
  {
    if s == "" then [] else [First(s).0] + Tokens(s[First(s).1..])
  }

  lemma UnparseCons(t: Token, ts: seq<Token>)
    ensures Unparse([t] + ts) == TokenText(t) + Unparse(ts)
  {
  }

  lemma NoRefHere(s: string)
    ensures RefAt(s) == None <==> !StartsWithRef(s)
  {
    if RefAt(s).Some? {
      RefAtExact(s, RefAt(s).value.0, RefAt(s).value.1);
    }
    if r: Ref :| r.WellFormed() && RefText(r) <= s {
      RefAtExact(s, r, |RefText(r)|);
    }
  }

  lemma FirstText(s: string)
    requires s != ""
    ensures s == TokenText(First(s).0) + s[First(s).1..]
    ensures match First(s).0 case Lit(_) => !StartsWithRef(s) case Reference(r) => r.WellFormed()
  {
    NoRefHere(s);
    if RefAt(s).Some? {
      ScanSound(s);
    }
  }

  /** Every string decomposes, and concatenating the pieces gives it back. */
  lemma {:induction false} Decomposes(s: string)
    ensures Unparse(Tokens(s)) == s && Leftmost(Tokens(s))
    decreases |s|
  {
    if s == "" {
    } else {
      var rest := Tokens(s[First(s).1..]);
      FirstText(s);
      Decomposes(s[First(s).1..]);
      UnparseCons(First(s).0, rest);
      assert Tokens(s)[1..] == rest;
    }
  }

  /** In one way only: any leftmost decomposition is the one the scanner makes. */
  lemma {:induction false} DecomposesUniquely(ts: seq<Token>)
    requires Leftmost(ts)
    ensures Tokens(Unparse(ts)) == ts
  {
    if ts == [] {
    } else {
      var s := Unparse(ts);
      DecomposesUniquely(ts[1..]);
      NoRefHere(s);
      assert ts == [ts[0]] + ts[1..];
      match ts[0]
      case Lit(c) =>
        assert s[1..] == Unparse(ts[1..]);
      case Reference(r) =>
        RefAtExact(s, r, |RefText(r)|);
        assert s[|RefText(r)|..] == Unparse(ts[1..]);
    }
  }

  lemma OneMoreFront(t: Token, rest: seq<Token>, b: seq<Token>)
    requires Unparse(rest + b) == Unparse(rest) + Unparse(b)
    ensures Unparse([t] + rest + b) == Unparse([t] + rest) + Unparse(b)
  {
    Regroup([t], rest, b);
    UnparseCons(t, rest + b);
    UnparseCons(t, rest);
    Regroup(TokenText(t), Unparse(rest), Unparse(b));
  }

  lemma {:induction false} UnparseConcat(a: seq<Token>, b: seq<Token>)
    ensures Unparse(a + b) == Unparse(a) + Unparse(b)
  {
    if a == [] {
      Regroup(b, [], []);
      Regroup(Unparse(b), [], []);
    } else {
      UnparseConcat(a[1..], b);
      OneMoreFront(a[0], a[1..], b);
      assert a == [a[0]] + a[1..];
    }
  }

  /** Both sides of a cut between tokens are leftmost decompositions. */
  lemma {:induction false} LeftmostSplit(a: seq<Token>, b: seq<Token>)
    requires Leftmost(a + b)
    ensures Leftmost(a) && Leftmost(b)
  {
    if a == [] {
      assert a + b == b;
    } else {
      assert (a + b)[1..] == a[1..] + b;
      LeftmostSplit(a[1..], b);
      UnparseConcat(a, b);
      if r: Ref :| r.WellFormed() && RefText(r) <= Unparse(a) {
        assert RefText(r) <= Unparse(a + b);
      }
    }
  }

  /** A cut between two tokens leaves the decomposition alone. */
  lemma CutBetween(ts: seq<Token>, k: nat)
    requires Leftmost(ts) && k <= |ts|
    ensures Tokens(Unparse(ts)) == Tokens(Unparse(ts[..k])) + Tokens(Unparse(ts[k..]))
    ensures Unparse(ts) == Unparse(ts[..k]) + Unparse(ts[k..])
  {
    assert ts == ts[..k] + ts[k..];
    LeftmostSplit(ts[..k], ts[k..]);
    UnparseConcat(ts[..k], ts[k..]);
    DecomposesUniquely(ts);
    DecomposesUniquely(ts[..k]);
    DecomposesUniquely(ts[k..]);
  }

  /** No reference straddles the cut: a is what the first k tokens say. */
  ghost predicate CutsCleanly(a: string, b: string) {
    exists k :: 0 <= k <= |Tokens(a + b)| && Unparse(Tokens(a + b)[..k]) == a
  }

  /** Cutting a string in two leaves its decomposition alone exactly when no
      reference straddles the cut. */
  lemma CutIff(a: string, b: string)
    ensures Tokens(a + b) == Tokens(a) + Tokens(b) <==> CutsCleanly(a, b)
  {
    var ts := Tokens(a + b);
    Decomposes(a + b);
    if ts == Tokens(a) + Tokens(b) {
      Decomposes(a);
      assert ts[..|Tokens(a)|] == Tokens(a);
    }
    if k :| 0 <= k <= |ts| && Unparse(ts[..k]) == a {
      CutBetween(ts, k);
      Take(a, b);
      Take(a, Unparse(ts[k..]));
    }
  }

  /** The closing brace of a reference is its only one. */
  lemma OneBrace(r: Ref, i: nat)
    requires r.WellFormed() && i < |RefText(r)| && RefText(r)[i] == '}'
    ensures i == |RefText(r)| - 1
  {
  }

  /** What follows a closing brace has no say in the match before it. */
  lemma RefBeforeBrace(x: string, b: string)
    requires x != "" && x[|x| - 1] == '}'
    ensures RefAt(x + b) == RefAt(x)
  {
    if RefAt(x).Some? {
      RefAtExact(x, RefAt(x).value.0, RefAt(x).value.1);
      RefAtExact(x + b, RefAt(x).value.0, RefAt(x).value.1);
    }
    if RefAt(x + b).Some? {
      var r, n := RefAt(x + b).value.0, RefAt(x + b).value.1;
      RefAtExact(x + b, r, n);
      if n > |x| {
        OneBrace(r, |x| - 1);
      }
      RefAtExact(x, r, n);
    }
  }

  lemma FirstBeforeBrace(x: string, b: string)
    requires x != "" && x[|x| - 1] == '}'
    ensures First(x + b) == First(x) && (x + b)[First(x).1..] == x[First(x).1..] + b
  {
    RefBeforeBrace(x, b);
  }

  /** Right after any closing brace, so after any reference, a string can be cut:
      no text that follows changes how what came before is read. */
  lemma {:induction false} CutAfterBrace(x: string, b: string)
    requires x == "" || x[|x| - 1] == '}'
    ensures Tokens(x + b) == Tokens(x) + Tokens(b)
    decreases |x|
  {
    if x == "" {
      assert x + b == b;
    } else {
      var t, n := First(x).0, First(x).1;
      FirstBeforeBrace(x, b);
      CutAfterBrace(x[n..], b);
      Regroup([t], Tokens(x[n..]), Tokens(b));
    }
  }
}
