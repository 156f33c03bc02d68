/** internal/utils/env.go, ResolveSecrets: credentials are expanded in place, and
    token secrets read from files. */
module Secrets {
  import opened Seqs
  import opened Strings
  import opened Models
  import opened Configs
  import opened EnvRefs
  import opened EnvExpand

  /** The readable files and what they hold. */
  type Files = map<string, string>

  /** The step that failed, with the index of its cluster. */
  datatype Failure = BadHost(i: nat) | BadTokenId(i: nat) | BadSecretFile(i: nat) | BadSecret(i: nat)

  /** A cluster after its steps: all of them, or those before the one that failed. */
  datatype Resolution = Resolution(cluster: ClusterConfig, failure: Option<Failure>)

  function ResolveSecret(env: Env, files: Files, c: ClusterConfig, i: nat): Resolution {
    if c.tokenSecretFile != "" && c.tokenSecret == "" then
      if c.tokenSecretFile in files then Resolution(c.(tokenSecret := TrimSpace(files[c.tokenSecretFile])), None)
      else Resolution(c, Some(BadSecretFile(i)))
    else match SecretOf(env, c.tokenSecret)
      case Credential(t) => Resolution(c.(tokenSecret := t), None)
      case _ => Resolution(c, Some(BadSecret(i)))
  }

  function ResolveTokenId(env: Env, files: Files, c: ClusterConfig, i: nat): Resolution {
    match SecretOf(env, c.tokenId)
    case Credential(t) => ResolveSecret(env, files, c.(tokenId := t), i)
    case _ => Resolution(c, Some(BadTokenId(i)))
  }

  function ResolveCluster(env: Env, files: Files, c: ClusterConfig, i: nat): Resolution {
    match SecretOf(env, c.host)
    case Credential(t) => ResolveTokenId(env, files, c.(host := t), i)
    case _ => Resolution(c, Some(BadHost(i)))
  }

  type Resolver = (ClusterConfig, nat) -> Resolution

  function ResolverOf(env: Env, files: Files): Resolver {
    (c: ClusterConfig, i: nat) => ResolveCluster(env, files, c, i)
  }

  /** The clusters as they are left, and the first failure: clusters after it are
      not touched. */
  function ResolveAll(resolve: Resolver, cs: seq<ClusterConfig>): (r: (seq<ClusterConfig>, Option<Failure>))
    ensures |r.0| == |cs|
  {
    if cs == [] then ([], None)
    else
      var n, c := |cs| - 1, cs[|cs| - 1];
      var earlier := ResolveAll(resolve, cs[..n]);
      if earlier.1.Some? then (earlier.0 + [c], earlier.1)
      else (earlier.0 + [resolve(c, n).cluster], resolve(c, n).failure)
  }

  /** After a failure the rest of the list stays as it was. */
  lemma {:induction false} StopsAtFailure(resolve: Resolver, cs: seq<ClusterConfig>, n: nat)
    requires n <= |cs| && ResolveAll(resolve, cs[..n]).1.Some?
    ensures ResolveAll(resolve, cs) == (ResolveAll(resolve, cs[..n]).0 + cs[n..], ResolveAll(resolve, cs[..n]).1)
    decreases |cs|
  {
    var r := ResolveAll(resolve, cs[..n]);
    if n == |cs| {
      assert cs[..n] == cs && cs[n..] == [];
      Regroup(r.0, [], []);
    } else {
      var init, c := cs[..|cs| - 1], cs[|cs| - 1];
      assert init[..n] == cs[..n];
      StopsAtFailure(resolve, init, n);
      assert init[n..] + [c] == cs[n..];
      Regroup(r.0, init[n..], [c]);
    }
  }

  /** Without a failure every cluster took its own step. */
  lemma {:induction false} EveryStep(resolve: Resolver, cs: seq<ClusterConfig>, i: nat)
    requires i < |cs| && ResolveAll(resolve, cs).1 == None
    ensures resolve(cs[i], i).failure == None && ResolveAll(resolve, cs).0[i] == resolve(cs[i], i).cluster
  {
    if i < |cs| - 1 {
      EveryStep(resolve, cs[..|cs| - 1], i);
    }
  }

  lemma NextCluster(resolve: Resolver, cs: seq<ClusterConfig>, i: nat)
    requires i < |cs| && ResolveAll(resolve, cs[..i]).1 == None
    ensures var done, step := ResolveAll(resolve, cs[..i]).0, resolve(cs[i], i);
      && ResolveAll(resolve, cs[..i + 1]) == (done + [step.cluster], step.failure)
      && (done + cs[i..])[i] == cs[i]
      && (done + cs[i..])[i := step.cluster] == done + [step.cluster] + cs[i + 1..]
  {
    assert cs[..i + 1][..i] == cs[..i];
    assert cs[i..] == [cs[i]] + cs[i + 1..];
  }

  /** resolve is ResolveCluster, said so that it unfolds only on demand. */
  ghost predicate Agrees(resolve: Resolver, env: Env, files: Files) {
    forall c, i {:trigger ResolveCluster(env, files, c, i)} :: ResolveCluster(env, files, c, i) == resolve(c, i)
  }

  method ResolveSecrets(cfg: Config, env: Env, files: Files) returns (failure: Option<Failure>)
    modifies cfg`clusters
    ensures (cfg.clusters, failure) == ResolveAll(ResolverOf(env, files), old(cfg.clusters))
  {
    failure := ResolveEach(cfg, env, files, ResolverOf(env, files));
  }

  method ResolveEach(cfg: Config, env: Env, files: Files, ghost resolve: Resolver) returns (failure: Option<Failure>)
    requires Agrees(resolve, env, files)
    modifies cfg`clusters
    ensures (cfg.clusters, failure) == ResolveAll(resolve, old(cfg.clusters))
  {
    ghost var cs := cfg.clusters;
    for i := 0 to |cfg.clusters|
      invariant |cfg.clusters| == |cs|
      invariant ResolveAll(resolve, cs[..i]).1 == None
      invariant cfg.clusters == ResolveAll(resolve, cs[..i]).0 + cs[i..]
    {
      NextCluster(resolve, cs, i);
      failure := ResolveAt(cfg, i, env, files, resolve);
      if failure.Some? {
        StopsAtFailure(resolve, cs, i + 1);
        return;
      }
    }
    assert cs[..|cs|] == cs && cs[|cs|..] == [];
    Regroup(ResolveAll(resolve, cs).0, [], []);
    failure := None;
  }

  method ResolveAt(cfg: Config, i: nat, env: Env, files: Files, ghost resolve: Resolver)
    returns (failure: Option<Failure>)
    requires Agrees(resolve, env, files) && i < |cfg.clusters|
    modifies cfg`clusters
    ensures var r := resolve(old(cfg.clusters[i]), i);
      cfg.clusters == old(cfg.clusters)[i := r.cluster] && failure == r.failure
  {
    failure := ResolveOne(cfg, i, env, files);
  }

  /** One iteration, field by field: what was assigned before a failure stays. */
  method ResolveOne(cfg: Config, i: nat, env: Env, files: Files) returns (failure: Option<Failure>)
    requires i < |cfg.clusters|
    modifies cfg`clusters
    ensures var r := ResolveCluster(env, files, old(cfg.clusters[i]), i);
      cfg.clusters == old(cfg.clusters)[i := r.cluster] && failure == r.failure
  {
    var host := ExpandEnvSecret(env, cfg.clusters[i].host);
    if !host.Credential? {
      return Some(BadHost(i));
    }
    cfg.clusters := cfg.clusters[i := cfg.clusters[i].(host := host.text)];
    var tokenId := ExpandEnvSecret(env, cfg.clusters[i].tokenId);
    if !tokenId.Credential? {
      return Some(BadTokenId(i));
    }
    cfg.clusters := cfg.clusters[i := cfg.clusters[i].(tokenId := tokenId.text)];
    failure := ResolveOneSecret(cfg, i, env, files);
  }

  /** The secret comes from its file when there is one and no inline secret. */
  method ResolveOneSecret(cfg: Config, i: nat, env: Env, files: Files) returns (failure: Option<Failure>)
    requires i < |cfg.clusters|
    modifies cfg`clusters
    ensures var r := ResolveSecret(env, files, old(cfg.clusters[i]), i);
      cfg.clusters == old(cfg.clusters)[i := r.cluster] && failure == r.failure
  {
    var cl := cfg.clusters[i];
    if cl.tokenSecretFile != "" && cl.tokenSecret == "" {
      if cl.tokenSecretFile !in files {
        return Some(BadSecretFile(i));
      }
      cfg.clusters := cfg.clusters[i := cl.(tokenSecret := TrimSpace(files[cl.tokenSecretFile]))];
      return None;
    }
    var secret := ExpandEnvSecret(env, cl.tokenSecret);
    if !secret.Credential? {
      return Some(BadSecret(i));
    }
    cfg.clusters := cfg.clusters[i := cl.(tokenSecret := secret.text)];
    return None;
  }

  // ---- what a successful resolution guarantees ----

  predicate FromFile(c: ClusterConfig) { c.tokenSecretFile != "" && c.tokenSecret == "" }

  /** before and after one successful resolution: only the three credential fields
      change, each to what its text expands to; one that was written is not empty,
      unless the secret came from a file whose content is blank. */
  ghost predicate Resolved(env: Env, files: Files, c: ClusterConfig, d: ClusterConfig) {
    && d.(host := c.host, tokenId := c.tokenId, tokenSecret := c.tokenSecret) == c
    && Expand(env, c.host) == Expanded(d.host) && (d.host == "" <==> c.host == "")
    && Expand(env, c.tokenId) == Expanded(d.tokenId) && (d.tokenId == "" <==> c.tokenId == "")
    && (if c.tokenSecret == "" && c.tokenSecretFile != ""
        then c.tokenSecretFile in files && d.tokenSecret == TrimSpace(files[c.tokenSecretFile])
        else Expand(env, c.tokenSecret) == Expanded(d.tokenSecret) && (d.tokenSecret == "" <==> c.tokenSecret == ""))
  }

  lemma ClusterResolved(env: Env, files: Files, c: ClusterConfig, i: nat)
    requires ResolveCluster(env, files, c, i).failure == None
    ensures Resolved(env, files, c, ResolveCluster(env, files, c, i).cluster)
  {
    AcceptedIsEmptyIff(env, c.host);
    AcceptedIsEmptyIff(env, c.tokenId);
    if !FromFile(c) {
      AcceptedIsEmptyIff(env, c.tokenSecret);
    }
  }

  /** What a cluster needs to resolve: accepted credentials and, if its secret is
      in a file, a readable one. */
  ghost predicate Resolvable(env: Env, files: Files, c: ClusterConfig) {
    && SecretOf(env, c.host).Credential? && SecretOf(env, c.tokenId).Credential?
    && (if FromFile(c) then c.tokenSecretFile in files else SecretOf(env, c.tokenSecret).Credential?)
  }

  lemma ResolvesIff(env: Env, files: Files, c: ClusterConfig, i: nat)
    ensures ResolveCluster(env, files, c, i).failure == None <==> Resolvable(env, files, c)
  {
  }

  lemma {:induction false} NoFailureIff(resolve: Resolver, cs: seq<ClusterConfig>)
    ensures ResolveAll(resolve, cs).1 == None <==> forall i :: 0 <= i < |cs| ==> resolve(cs[i], i).failure == None
  {
    if cs == [] {
    } else {
      var init := cs[..|cs| - 1];
      NoFailureIff(resolve, init);
      assert forall i :: 0 <= i < |init| ==> init[i] == cs[i];
    }
  }

  lemma AllResolveIff(env: Env, files: Files, cs: seq<ClusterConfig>)
    ensures ResolveAll(ResolverOf(env, files), cs).1 == None
      <==> forall i :: 0 <= i < |cs| ==> Resolvable(env, files, cs[i])
  {
    var resolve := ResolverOf(env, files);
    NoFailureIff(resolve, cs);
    forall i | 0 <= i < |cs| ensures resolve(cs[i], i).failure == None <==> Resolvable(env, files, cs[i]) {
      ResolvesIff(env, files, cs[i], i);
    }
  }

  /** The whole list: success means every cluster was resolved. */
  lemma AllResolved(env: Env, files: Files, cs: seq<ClusterConfig>, i: nat)
    requires i < |cs| && ResolveAll(ResolverOf(env, files), cs).1 == None
    ensures Resolved(env, files, cs[i], ResolveAll(ResolverOf(env, files), cs).0[i])
  {
    EveryStep(ResolverOf(env, files), cs, i);
    ClusterResolved(env, files, cs[i], i);
  }

  /** A cluster that does not resolve: why, and which of its fields were replaced before. */
  ghost predicate FailsAs(env: Env, files: Files, c: ClusterConfig, d: ClusterConfig, i: nat, f: Failure) {
    var host, tokenId := SecretOf(env, c.host), SecretOf(env, c.tokenId);
    && f == (if !host.Credential? then BadHost(i)
             else if !tokenId.Credential? then BadTokenId(i)
             else if c.tokenSecret == "" && c.tokenSecretFile != "" then BadSecretFile(i)
             else BadSecret(i))
    && d == c.(host := if host.Credential? then host.text else c.host,
               tokenId := if host.Credential? && tokenId.Credential? then tokenId.text else c.tokenId)
  }

  lemma ClusterFails(env: Env, files: Files, c: ClusterConfig, i: nat)
    requires ResolveCluster(env, files, c, i).failure.Some?
    ensures var r := ResolveCluster(env, files, c, i);
      !Resolvable(env, files, c) && FailsAs(env, files, c, r.cluster, i, r.failure.value)
  {
  }

  lemma {:induction false} FirstFailing(resolve: Resolver, cs: seq<ClusterConfig>) returns (i: nat)
    requires ResolveAll(resolve, cs).1.Some?
    ensures i < |cs| && ResolveAll(resolve, cs[..i]).1 == None && resolve(cs[i], i).failure.Some?
  {
    var init := cs[..|cs| - 1];
    if ResolveAll(resolve, init).1.Some? {
      i := FirstFailing(resolve, init);
      assert init[..i] == cs[..i];
    } else {
      i := |init|;
    }
  }

  /** A list that does not resolve stops at the first cluster that cannot: those before are
      resolved, it keeps what was replaced before the failing step, and those after are as
      they were. */
  lemma FailsAtFirst(env: Env, files: Files, cs: seq<ClusterConfig>) returns (i: nat)
    requires ResolveAll(ResolverOf(env, files), cs).1.Some?
    ensures var (ds, f) := ResolveAll(ResolverOf(env, files), cs);
      && i < |cs| && |ds| == |cs|
      && (forall k :: 0 <= k < i ==> Resolvable(env, files, cs[k]) && Resolved(env, files, cs[k], ds[k]))
      && !Resolvable(env, files, cs[i]) && FailsAs(env, files, cs[i], ds[i], i, f.value)
      && forall k :: i < k < |cs| ==> ds[k] == cs[k]
  {
    var resolve := ResolverOf(env, files);
    i := FirstFailing(resolve, cs);
    NextCluster(resolve, cs, i);
    StopsAtFailure(resolve, cs, i + 1);
    ClusterFails(env, files, cs[i], i);
    forall k | 0 <= k < i
      ensures Resolvable(env, files, cs[k]) && Resolved(env, files, cs[k], ResolveAll(resolve, cs).0[k])
    {
      AllResolved(env, files, cs[..i], k);
      ResolvesIff(env, files, cs[k], k);
      EveryStep(resolve, cs[..i], k);
    }
  }

  /** A cluster that refers to nothing: no reference, and no secret left to a file. */
  predicate Literal(c: ClusterConfig) {
    && !HasReference(Tokens(c.host)) && !HasReference(Tokens(c.tokenId)) && !HasReference(Tokens(c.tokenSecret))
    && !FromFile(c)
  }

  lemma LiteralCluster(env: Env, files: Files, c: ClusterConfig, i: nat)
    requires Literal(c)
    ensures ResolveCluster(env, files, c, i) == Resolution(c, None)
  {
    LiteralCredential(env, c.host);
    LiteralCredential(env, c.tokenId);
    LiteralCredential(env, c.tokenSecret);
  }

  lemma {:induction false} NothingToResolve(resolve: Resolver, cs: seq<ClusterConfig>)
    requires forall i :: 0 <= i < |cs| ==> resolve(cs[i], i) == Resolution(cs[i], None)
    ensures ResolveAll(resolve, cs) == (cs, None)
  {
    if cs == [] {
    } else {
      var init := cs[..|cs| - 1];
      assert forall i :: 0 <= i < |init| ==> init[i] == cs[i];
      NothingToResolve(resolve, init);
      assert cs == init + [cs[|cs| - 1]];
    }
  }

  /** A configuration that never refers to the environment cannot be broken by it. */
  lemma LiteralsResolve(env: Env, files: Files, cs: seq<ClusterConfig>)
    requires forall i :: 0 <= i < |cs| ==> Literal(cs[i])
    ensures ResolveAll(ResolverOf(env, files), cs) == (cs, None)
  {
    var resolve := ResolverOf(env, files);
    forall i | 0 <= i < |cs| ensures resolve(cs[i], i) == Resolution(cs[i], None) {
      LiteralCluster(env, files, cs[i], i);
    }
    NothingToResolve(resolve, cs);
  }
}
