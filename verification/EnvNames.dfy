/** The reference language of internal/utils/env.go, said of plain strings: which texts
    between "${" and "}" are read as the name of a variable, with every admitted character
    written out, and what they come to. */
module EnvNames {
  import opened Seqs
  import opened EnvRefs
  import opened EnvExpand

  const LETTERS := "ABCDEFGHIJKLMNOPQRSTUVWXYZabcdefghijklmnopqrstuvwxyz"
  const DIGITS := "0123456789"

  /** A letter or underscore, then letters, digits and underscores. */
  predicate IsName(name: string) {
    && name != "" && name[0] !in DIGITS
    && forall i :: 0 <= i < |name| ==> name[i] in LETTERS + DIGITS + "_"
  }

  function Bare(name: string): string { "${" + name + "}" }

  function WithFallback(name: string, f: string): string { "${" + name + ":-" + f + "}" }

  // ---- the characters ----

  lemma {:induction false} RangeHas(s: string, first: char, ch: char)
    requires forall i :: 0 <= i < |s| ==> s[i] as int == first as int + i
    ensures ch in s <==> first as int <= ch as int < first as int + |s|
  {
    if first as int <= ch as int < first as int + |s| {
      assert s[ch as int - first as int] == ch;
    }
  }

  const UPPER := "ABCDEFGHIJKLMNOPQRSTUVWXYZ"
  const LOWER := "abcdefghijklmnopqrstuvwxyz"

  lemma LettersSplit()
    ensures LETTERS == UPPER + LOWER
  {
  }

  lemma LettersExact(ch: char)
    ensures ch in LETTERS <==> 'A' <= ch <= 'Z' || 'a' <= ch <= 'z'
  {
    LettersSplit();
    RangeHas(UPPER, 'A', ch);
    RangeHas(LOWER, 'a', ch);
  }

  lemma DigitsExact(ch: char)
    ensures ch in DIGITS <==> '0' <= ch <= '9'
  {
    RangeHas(DIGITS, '0', ch);
  }

  lemma NameCharExact(ch: char)
    ensures NameChar(ch) <==> ch in LETTERS + DIGITS + "_"
  {
    LettersExact(ch);
    DigitsExact(ch);
  }

  lemma NameStartExact(ch: char)
    ensures NameStart(ch) <==> ch in LETTERS + DIGITS + "_" && ch !in DIGITS
  {
    LettersExact(ch);
    DigitsExact(ch);
  }

  lemma NamesExact(name: string)
    ensures IsName(name) <==> |name| > 0 && NameStart(name[0]) && All(NameChar, name)
  {
    forall i | 0 <= i < |name|
      ensures (name[i] in LETTERS + DIGITS + "_" <==> NameChar(name[i]))
        && (NameStart(name[i]) <==> NameChar(name[i]) && name[i] !in DIGITS)
    {
      NameCharExact(name[i]);
      NameStartExact(name[i]);
    }
  }

  // ---- what a name comes to ----

  lemma BareExpands(env: Env, name: string)
    requires IsName(name)
    ensures Expand(env, Bare(name)) == if name in env then Expanded(env[name]) else Unset([name])
  {
    NamesExact(name);
    ExpandReference(env, Ref(name, None));
    assert RefText(Ref(name, None)) == Bare(name);
  }

  lemma FallbackExpands(env: Env, name: string, f: string)
    requires IsName(name) && '}' !in f
    ensures Expand(env, WithFallback(name, f))
      == Expanded(if name in env && env[name] != "" then env[name] else f)
  {
    NamesExact(name);
    ExpandReference(env, Ref(name, Some(f)));
    FallbackText(name, f);
  }

  lemma FallbackText(name: string, f: string)
    ensures RefText(Ref(name, Some(f))) == WithFallback(name, f)
  {
    Regroup("${" + name, ":-", f);
  }

  /** A reference with nothing else around it: the value, or the fallback when the variable
      is unset or empty; without a fallback an empty variable is empty and an unset one an
      error. */
  lemma NameExpands(env: Env, name: string, f: string)
    requires IsName(name) && '}' !in f
    ensures Expand(env, Bare(name)) == if name in env then Expanded(env[name]) else Unset([name])
    ensures Expand(env, WithFallback(name, f))
      == Expanded(if name in env && env[name] != "" then env[name] else f)
  {
    BareExpands(env, name);
    FallbackExpands(env, name, f);
  }

  lemma BareHasReference(name: string)
    requires IsName(name)
    ensures HasReference(Tokens(Bare(name)))
  {
    var r := Ref(name, None);
    NamesExact(name);
    assert RefText(r) == Bare(name);
    RefAtExact(Bare(name), r, |RefText(r)|);
    MatchIff(Bare(name));
  }

  /** As a credential: it must be set, and come to something. */
  lemma NameAsCredential(env: Env, name: string)
    requires IsName(name)
    ensures SecretOf(env, Bare(name)) ==
      if name !in env then UnsetVariables([name])
      else if env[name] == "" then EmptyReference
      else Credential(env[name])
  {
    NameExpands(env, name, "");
    BareHasReference(name);
  }

  // ---- and nothing else is a name ----

  predicate SameFor(env: Env, env': Env, x: string) {
    (x in env <==> x in env') && (x in env ==> env[x] == env'[x])
  }

  lemma {:induction false} OnlyNamesMatter(env: Env, env': Env, ts: seq<Token>)
    requires forall i :: 0 <= i < |ts| && ts[i].Reference? ==> SameFor(env, env', ts[i].ref.name)
    ensures Text(env, ts) == Text(env', ts) && MissingNames(env, ts) == MissingNames(env', ts)
  {
    if ts == [] {
    } else {
      var init := ts[..|ts| - 1];
      assert forall i :: 0 <= i < |init| ==> init[i] == ts[i];
      OnlyNamesMatter(env, env', init);
      assert ts[|ts| - 1].Reference? ==> SameFor(env, env', ts[|ts| - 1].ref.name);
    }
  }

  lemma {:induction false} ReferencesHaveNames(ts: seq<Token>, i: nat)
    requires Leftmost(ts) && i < |ts| && ts[i].Reference?
    ensures IsName(ts[i].ref.name)
  {
    if i > 0 {
      ReferencesHaveNames(ts[1..], i - 1);
    } else {
      NamesExact(ts[0].ref.name);
    }
  }

  /** The value of anything but a name is never looked at. */
  lemma OtherKeysAreIgnored(key: string, v: string, w: string, s: string)
    requires !IsName(key)
    ensures Expand(map[key := v], s) == Expand(map[key := w], s)
  {
    var ts := Tokens(s);
    Decomposes(s);
    forall i | 0 <= i < |ts| && ts[i].Reference? ensures SameFor(map[key := v], map[key := w], ts[i].ref.name) {
      ReferencesHaveNames(ts, i);
    }
    OnlyNamesMatter(map[key := v], map[key := w], ts);
  }

  /** "${name}" is the value of that variable, for all values, if and only if name is a
      letter or underscore followed by letters, digits and underscores. */
  lemma BareIff(name: string)
    ensures (forall v: string :: v != "" ==> Expand(map[name := v], Bare(name)) == Expanded(v)) <==> IsName(name)
  {
    if IsName(name) {
      forall v: string | v != "" ensures Expand(map[name := v], Bare(name)) == Expanded(v) {
        NameExpands(map[name := v], name, "");
      }
    } else {
      OtherKeysAreIgnored(name, "a", "b", Bare(name));
      assert Expanded("a") != Expanded("b");
      assert Expand(map[name := "a"], Bare(name)) != Expanded("a")
        || Expand(map[name := "b"], Bare(name)) != Expanded("b");
    }
  }

  /** "${name:-f}" is the value of that variable, and f when it is unset or empty, under
      the same condition on the name, for every f without a closing brace. */
  ghost predicate FallsBack(name: string, f: string) {
    && (forall v: string :: v != "" ==> Expand(map[name := v], WithFallback(name, f)) == Expanded(v))
    && Expand(map[], WithFallback(name, f)) == Expanded(f)
    && Expand(map[name := ""], WithFallback(name, f)) == Expanded(f)
  }

  lemma FallbackIff(name: string, f: string)
    requires '}' !in f
    ensures FallsBack(name, f) <==> IsName(name)
  {
    var s := WithFallback(name, f);
    if IsName(name) {
      forall v: string | v != "" ensures Expand(map[name := v], s) == Expanded(v) {
        NameExpands(map[name := v], name, f);
      }
      NameExpands(map[], name, f);
      NameExpands(map[name := ""], name, f);
    } else {
      OtherKeysAreIgnored(name, "a", "b", s);
      assert Expanded("a") != Expanded("b");
      assert Expand(map[name := "a"], s) != Expanded("a") || Expand(map[name := "b"], s) != Expanded("b");
    }
  }

  lemma SmallNames()
    ensures IsName("A") && IsName("B")
  {
    LettersExact('A');
    LettersExact('B');
    DigitsExact('A');
    DigitsExact('B');
  }

  lemma NotAName()
    ensures !IsName("B:-}${A")
  {
    LettersExact(':');
    DigitsExact(':');
    assert "B:-}${A"[1] == ':';
  }

  lemma TwoFallbacks(env: Env, f: string)
    requires "A" !in env && "B" !in env && '}' !in f
    ensures Expand(env, WithFallback("B", "") + WithFallback("A", f)) == Expanded(f)
  {
    SmallNames();
    NameExpands(env, "B", "");
    NameExpands(env, "A", f);
    ExpandAfterBrace(env, WithFallback("B", ""), WithFallback("A", f));
    Regroup(f, [], []);
  }

  /** The two fallback cases alone do not tell a name: here the text is two references, of
      which the second falls back to f. */
  lemma FallbackAloneDoesNotTell(f: string)
    requires '}' !in f
    ensures var name := "B:-}${A";
      && !IsName(name)
      && Expand(map[], WithFallback(name, f)) == Expanded(f)
      && Expand(map[name := ""], WithFallback(name, f)) == Expanded(f)
  {
    var name := "B:-}${A";
    NotAName();
    assert WithFallback(name, f) == WithFallback("B", "") + WithFallback("A", f) by {
      assert WithFallback("B", "") == "${B:-}";
      assert WithFallback("A", f) == "${A" + (":-" + f + "}");
      assert WithFallback(name, f) == "${B:-}${A" + (":-" + f + "}");
      assert "${B:-}" + "${A" == "${B:-}${A";
      Regroup("${B:-}", "${A", ":-" + f + "}");
    }
    TwoFallbacks(map[], f);
    TwoFallbacks(map[name := ""], f);
  }
}
