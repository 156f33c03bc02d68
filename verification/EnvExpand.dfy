/** internal/utils/env.go: ExpandEnv and ExpandEnvSecret, against the leftmost
    decomposition of EnvRefs. */
module EnvExpand {
  import opened Seqs
  import opened EnvRefs

  /** The process environment: a variable is unset, or has a value. */
  type Env = map<string, string>

  /** An expanded string, or the bare names found unset, in order of occurrence. */
  datatype Expansion = Expanded(text: string) | Unset(names: seq<string>)

  // ---- what a decomposition expands to ----

  /** Section 2.6.2 of POSIX.1-2017 XCU, "use default values": unset or null falls
      back. A bare reference to a null variable is empty. */
  function Value(env: Env, r: Ref): string {
    if r.name in env && env[r.name] != "" then env[r.name]
    else if r.fallback.Some? then r.fallback.value
    else ""
  }

  predicate Missing(env: Env, t: Token) {
    t.Reference? && t.ref.fallback.None? && t.ref.name !in env
  }

  function TokenValue(env: Env, t: Token): string {
    match t case Lit(c) => [c] case Reference(r) => Value(env, r)
  }

  function Text(env: Env, ts: seq<Token>): string {
    if ts == [] then "" else Text(env, ts[..|ts| - 1]) + TokenValue(env, ts[|ts| - 1])
  }

  function MissingNames(env: Env, ts: seq<Token>): seq<string> {
    if ts == [] then []
    else
      var t := ts[|ts| - 1];
      MissingNames(env, ts[..|ts| - 1]) + (if Missing(env, t) then [t.ref.name] else [])
  }

  function Expand(env: Env, s: string): Expansion {
    var missing := MissingNames(env, Tokens(s));
    if missing != [] then Unset(missing) else Expanded(Text(env, Tokens(s)))
  }

  // ---- the replacement loop ----

  /** The callback: it matches the matched text again to get at its groups. */
  method Replace(env: Env, text: string, missing: seq<string>) returns (v: string, missing': seq<string>)
    requires RefAt(text).Some? && RefAt(text).value.1 == |text|
    ensures var t := Reference(RefAt(text).value.0);
      && v == TokenValue(env, t)
      && missing' == missing + (if Missing(env, t) then [t.ref.name] else [])
  {
    var sub := RefAt(text).value.0;
    missing' := missing;
    Regroup(missing, [], []);
    if sub.name in env && env[sub.name] != "" {
      return env[sub.name], missing;
    }
    if sub.fallback.Some? {
      return sub.fallback.value, missing;
    }
    if sub.name !in env {
      missing' := missing + [sub.name];
    }
    v := "";
  }

  lemma MatchAgain(s: string)
    requires RefAt(s).Some?
    ensures RefAt(s[..RefAt(s).value.1]) == RefAt(s)
  {
    var r, n := RefAt(s).value.0, RefAt(s).value.1;
    RefAtExact(s, r, n);
    RefAtExact(s[..n], r, n);
  }

  lemma OneMoreToken(env: Env, ts: seq<Token>, t: Token)
    ensures Text(env, ts + [t]) == Text(env, ts) + TokenValue(env, t)
    ensures MissingNames(env, ts + [t]) == MissingNames(env, ts) + (if Missing(env, t) then [t.ref.name] else [])
  {
  }

  /** ReplaceAll: rest is what is still to be scanned. */
  method ExpandEnv(env: Env, s: string) returns (r: Expansion)
    ensures r == Expand(env, s)
  {
    var missing, out, rest := [], "", s;
    ghost var done: seq<Token> := [];
    while rest != ""
      invariant done + Tokens(rest) == Tokens(s)
      invariant out == Text(env, done) && missing == MissingNames(env, done)
      decreases |rest|
    {
      var m := RefAt(rest);
      ghost var t := First(rest);
      OneMoreToken(env, done, t.0);
      Regroup(done, [t.0], Tokens(rest[t.1..]));
      done := done + [t.0];
      if m.None? {
        Regroup(missing, [], []);
        out, rest := out + [rest[0]], rest[1..];
      } else {
        MatchAgain(rest);
        var v, missing' := Replace(env, rest[..m.value.1], missing);
        out, missing, rest := out + v, missing', rest[m.value.1..];
      }
    }
    Regroup(done, [], []);
    r := if |missing| > 0 then Unset(missing) else Expanded(out);
  }

  // ---- single-pass expansion ----

  function Append(a: Expansion, b: Expansion): Expansion {
    match (a, b)
    case (Expanded(x), Expanded(y)) => Expanded(x + y)
    case (Unset(m), Unset(n)) => Unset(m + n)
    case (Unset(m), _) => Unset(m)
    case (_, Unset(n)) => Unset(n)
  }

  lemma {:induction false} ConcatTokens(env: Env, a: seq<Token>, b: seq<Token>)
    ensures Text(env, a + b) == Text(env, a) + Text(env, b)
    ensures MissingNames(env, a + b) == MissingNames(env, a) + MissingNames(env, b)
    decreases |b|
  {
    if b == [] {
      Regroup(a, [], []);
      Regroup(Text(env, a), [], []);
      Regroup(MissingNames(env, a), [], []);
    } else {
      var init, t := b[..|b| - 1], b[|b| - 1];
      ConcatTokens(env, a, init);
      assert a + b == (a + init) + [t];
      OneMoreToken(env, a + init, t);
      Regroup(Text(env, a), Text(env, init), TokenValue(env, t));
      Regroup(MissingNames(env, a), MissingNames(env, init), if Missing(env, t) then [t.ref.name] else []);
    }
  }

  /** Cut where no reference straddles, the whole expands to the two expansions
      concatenated, and its unset names are theirs, in order. */
  lemma ExpandCut(env: Env, a: string, b: string)
    requires CutsCleanly(a, b)
    ensures Expand(env, a + b) == Append(Expand(env, a), Expand(env, b))
  {
    CutIff(a, b);
    ConcatTokens(env, Tokens(a), Tokens(b));
    Regroup(MissingNames(env, Tokens(a)), [], []);
    Regroup(MissingNames(env, Tokens(b)), [], []);
  }

  /** Such a place is right after any closing brace, so after every reference:
      what was substituted there and what follows never combine into a reference. */
  lemma ExpandAfterBrace(env: Env, x: string, b: string)
    requires x != "" && x[|x| - 1] == '}'
    ensures Expand(env, x + b) == Append(Expand(env, x), Expand(env, b))
  {
    CutAfterBrace(x, b);
    CutIff(x, b);
    ExpandCut(env, x, b);
  }

  lemma OneToken(env: Env, t: Token)
    ensures Text(env, [t]) == TokenValue(env, t)
    ensures MissingNames(env, [t]) == if Missing(env, t) then [t.ref.name] else []
  {
  }

  /** One reference: the rules for set, null and unset variables. */
  lemma ExpandReference(env: Env, r: Ref)
    requires r.WellFormed()
    ensures Expand(env, RefText(r)) ==
      if r.name in env && env[r.name] != "" then Expanded(env[r.name])
      else if r.fallback.Some? then Expanded(r.fallback.value)
      else if r.name in env then Expanded("")
      else Unset([r.name])
  {
    var ts := [Reference(r)];
    assert Unparse(ts) == RefText(r) by {
      UnparseCons(ts[0], []);
      assert ts + [] == ts;
    }
    assert ts[1..] == [] && Leftmost([]);
    DecomposesUniquely(ts);
    OneToken(env, ts[0]);
  }

  /** What one reference comes to in its place: the value of a set variable or the
      fallback as it is, whatever it says and whatever stands around it. Not even a
      dollar sign before the reference, or a brace after it, makes it be read again. */
  lemma ValuesAreNotRescanned(env: Env, x: string, r: Ref, b: string)
    requires r.WellFormed() && CutsCleanly(x, RefText(r) + b)
    ensures Expand(env, x + (RefText(r) + b)) == Append(Expand(env, x), Append(
      (if r.name in env && env[r.name] != "" then Expanded(env[r.name])
       else if r.fallback.Some? then Expanded(r.fallback.value)
       else if r.name in env then Expanded("")
       else Unset([r.name])),
      Expand(env, b)))
  {
    ExpandCut(env, x, RefText(r) + b);
    ExpandReference(env, r);
    assert RefText(r)[|RefText(r)| - 1] == '}';
    ExpandAfterBrace(env, RefText(r), b);
  }

  /** A reference is read in its place after any text without a dollar sign, and also
      right after a dollar sign. */
  lemma CleanAfterLiterals(x: string, r: Ref, b: string)
    requires r.WellFormed() && (x == "$" || '$' !in x)
    ensures CutsCleanly(x, RefText(r) + b)
    decreases |x|
  {
    var rest := RefText(r) + b;
    RefAtExact(rest, r, |RefText(r)|);
    LiteralsFirst(x, rest);
    CutIff(x, rest);
  }

  lemma {:induction false} LiteralsFirst(x: string, rest: string)
    requires rest != "" && rest[0] == '$' && (x == "$" || '$' !in x)
    ensures Tokens(x + rest) == Tokens(x) + Tokens(rest)
    decreases |x|
  {
    if x == "" {
      assert x + rest == rest;
    } else {
      assert (x + rest)[1..] == x[1..] + rest;
      assert RefAt(x + rest) == None && RefAt(x) == None;
      LiteralsFirst(x[1..], rest);
      Regroup([Lit(x[0])], Tokens(x[1..]), Tokens(rest));
    }
  }

  // ---- what is left alone ----

  predicate HasReference(ts: seq<Token>) {
    exists i :: 0 <= i < |ts| && ts[i].Reference?
  }

  lemma {:induction false} LiteralsExpandToThemselves(env: Env, ts: seq<Token>)
    requires !HasReference(ts)
    ensures Text(env, ts) == Unparse(ts) && MissingNames(env, ts) == []
  {
    if ts == [] {
    } else {
      var init, t := ts[..|ts| - 1], ts[|ts| - 1];
      forall i | 0 <= i < |init| ensures !init[i].Reference? {
        assert init[i] == ts[i];
      }
      LiteralsExpandToThemselves(env, init);
      assert ts == init + [t] && !t.Reference?;
      UnparseConcat(init, [t]);
      UnparseCons(t, []);
      Regroup([t], [], []);
      Regroup(TokenText(t), [], []);
    }
  }

  /** In an empty environment every reference gets shorter. */
  lemma {:induction false} ReferencesShrink(ts: seq<Token>)
    ensures |Text(map[], ts)| <= |Unparse(ts)|
    ensures HasReference(ts) ==> |Text(map[], ts)| < |Unparse(ts)|
  {
    if ts == [] {
    } else {
      var init, t := ts[..|ts| - 1], ts[|ts| - 1];
      ReferencesShrink(init);
      assert ts == init + [t];
      UnparseConcat(init, [t]);
      UnparseCons(t, []);
      Regroup([t], [], []);
      Regroup(TokenText(t), [], []);
      if i :| 0 <= i < |ts| && ts[i].Reference? && i < |init| {
        assert init[i].Reference?;
      }
    }
  }

  /** A string is left unchanged in every environment exactly when it contains no
      reference; so a result without one is a fixed point. */
  lemma UnchangedIff(s: string)
    ensures (forall env :: Expand(env, s) == Expanded(s)) <==> !HasReference(Tokens(s))
  {
    Decomposes(s);
    if HasReference(Tokens(s)) {
      ReferencesShrink(Tokens(s));
      assert Expand(map[], s) != Expanded(s);
    } else {
      forall env ensures Expand(env, s) == Expanded(s) {
        LiteralsExpandToThemselves(env, Tokens(s));
      }
    }
  }

  lemma {:induction false} MissingMember(env: Env, ts: seq<Token>, x: string)
    ensures x in MissingNames(env, ts) <==> Reference(Ref(x, None)) in ts && x !in env
  {
    if ts == [] {
    } else {
      var init, t := ts[..|ts| - 1], ts[|ts| - 1];
      MissingMember(env, init, x);
      assert ts == init + [t];
      assert Reference(Ref(x, None)) in ts <==> Reference(Ref(x, None)) in init || t == Reference(Ref(x, None));
    }
  }

  /** Expansion fails exactly when a bare variable is unset, and names it. */
  lemma FailsIff(env: Env, s: string)
    ensures Expand(env, s).Unset? <==> exists x :: Reference(Ref(x, None)) in Tokens(s) && x !in env
    ensures Expand(env, s).Unset? ==>
      forall x :: x in Expand(env, s).names <==> Reference(Ref(x, None)) in Tokens(s) && x !in env
  {
    var names := MissingNames(env, Tokens(s));
    forall x ensures x in names <==> Reference(Ref(x, None)) in Tokens(s) && x !in env {
      MissingMember(env, Tokens(s), x);
    }
    if names != [] {
      assert names[0] in names;
    }
  }

  // ---- credentials ----

  /** regexp.MatchString: whether a reference starts anywhere. */
  predicate HasMatch(s: string) {
    s != "" && (RefAt(s).Some? || HasMatch(s[1..]))
  }

  lemma {:induction false} MatchIff(s: string)
    ensures HasMatch(s) <==> HasReference(Tokens(s))
  {
    if s == "" {
    } else {
      if RefAt(s).Some? {
        assert Tokens(s)[0].Reference?;
      } else {
        MatchIff(s[1..]);
        var rest := Tokens(s[1..]);
        assert Tokens(s) == [Lit(s[0])] + rest;
        if i :| 0 <= i < |rest| && rest[i].Reference? {
          assert Tokens(s)[i + 1].Reference?;
        }
        if i :| 0 <= i < |Tokens(s)| && Tokens(s)[i].Reference? {
          assert rest[i - 1].Reference?;
        }
      }
    }
  }

  datatype Credential = Credential(text: string) | UnsetVariables(names: seq<string>) | EmptyReference

  method ExpandEnvSecret(env: Env, s: string) returns (r: Credential)
    ensures r == SecretOf(env, s)
  {
    var e := ExpandEnv(env, s);
    if e.Unset? {
      return UnsetVariables(e.names);
    }
    MatchIff(s);
    if e.text == "" && HasMatch(s) {
      return EmptyReference;
    }
    return Credential(e.text);
  }

  function SecretOf(env: Env, s: string): Credential {
    match Expand(env, s)
    case Unset(names) => UnsetVariables(names)
    case Expanded(t) => if t == "" && HasReference(Tokens(s)) then EmptyReference else Credential(t)
  }

  /** A run of references, none of which comes to anything. */
  ghost predicate AllEmpty(env: Env, ts: seq<Token>) {
    forall i :: 0 <= i < |ts| ==> ts[i].Reference? && Value(env, ts[i].ref) == ""
  }

  lemma AllEmptyLast(env: Env, ts: seq<Token>)
    requires ts != []
    ensures var t := ts[|ts| - 1];
      AllEmpty(env, ts) <==> AllEmpty(env, ts[..|ts| - 1]) && t.Reference? && Value(env, t.ref) == ""
  {
  }

  lemma {:induction false} EmptyText(env: Env, ts: seq<Token>)
    ensures Text(env, ts) == "" <==> AllEmpty(env, ts)
  {
    if ts == [] {
    } else {
      EmptyText(env, ts[..|ts| - 1]);
      AllEmptyLast(env, ts);
    }
  }

  /** Secret strictness: a credential is rejected exactly when some bare variable
      is unset, or when it is a non-empty run of references that all come to
      nothing; otherwise it is what plain expansion gives. */
  lemma SecretStrictness(env: Env, s: string)
    ensures SecretOf(env, s).Credential? <==>
      !(exists x :: Reference(Ref(x, None)) in Tokens(s) && x !in env)
      && !(Tokens(s) != [] && AllEmpty(env, Tokens(s)))
    ensures SecretOf(env, s).Credential? ==> Expand(env, s) == Expanded(SecretOf(env, s).text)
  {
    FailsIff(env, s);
    EmptyText(env, Tokens(s));
    if Tokens(s) != [] && AllEmpty(env, Tokens(s)) {
      assert Tokens(s)[0].Reference?;
    }
  }

  /** So an accepted credential is what its text expands to, and is empty exactly when
      it was written empty. */
  lemma AcceptedIsEmptyIff(env: Env, s: string)
    requires SecretOf(env, s).Credential?
    ensures Expand(env, s) == Expanded(SecretOf(env, s).text) && (SecretOf(env, s).text == "" <==> s == "")
  {
    SecretStrictness(env, s);
    EmptyText(env, Tokens(s));
    Decomposes(s);
  }

  /** A credential without a reference is accepted as it is, in every environment. */
  lemma LiteralCredential(env: Env, s: string)
    requires !HasReference(Tokens(s))
    ensures SecretOf(env, s) == Credential(s)
  {
    UnchangedIff(s);
  }

  lemma {:induction false} DollarFree(s: string)
    requires '$' !in s
    ensures !HasReference(Tokens(s))
    decreases |s|
  {
    if s == "" {
    } else {
      DollarFree(s[1..]);
      assert RefAt(s) == None;
      assert Tokens(s) == [Lit(s[0])] + Tokens(s[1..]);
    }
  }
}
