/** internal/models/safe_config.go: loading a file, and the shared configuration. */
module SafeConfigs {
  import opened Seqs
  import opened Strings
  import opened Models
  import opened Configs
  import opened EnvExpand
  import opened Secrets

  /** What surrounds a load: the process environment, the files, and the duration
      syntax. */
  datatype World = World(env: Env, files: Files, isDuration: Durations)

  /** The config file: unreadable or not YAML, or what it decodes to. */
  type ConfigFile = Option<ConfigData>

  datatype LoadError = Unreadable | Unresolved(failure: Failure) | Invalid(violation: Violation)

  datatype Outcome = Loads(data: ConfigData) | Refuses(error: LoadError)

  function Load(file: ConfigFile, w: World): Outcome {
    if file.None? then Refuses(Unreadable)
    else
      var (clusters, failure) := ResolveAll(ResolverOf(w.env, w.files), file.value.clusters);
      if failure.Some? then Refuses(Unresolved(failure.value))
      else
        var d := Defaulted(file.value.(clusters := clusters));
        match FirstViolation(d, w.isDuration)
        case Some(v) => Refuses(Invalid(v))
        case None => Loads(d)
  }

  method LoadConfig(file: ConfigFile, w: World) returns (cfg: Config?, error: Option<LoadError>)
    ensures match Load(file, w)
      case Loads(d) => cfg != null && fresh(cfg) && cfg.Data() == d && error == None
      case Refuses(e) => cfg == null && error == Some(e)
  {
    if file.None? {
      return null, Some(Unreadable);
    }
    var c := new Config(file.value);
    var failure := ResolveSecrets(c, w.env, w.files);
    if failure.Some? {
      return null, Some(Unresolved(failure.value));
    }
    assert c.Data() == file.value.(clusters := c.clusters);
    var violation := c.Validate(w.isDuration);
    if violation.Some? {
      return null, Some(Invalid(violation.value));
    }
    return c, None;
  }

  lemma CompleteStays(env: Env, files: Files, c: ClusterConfig, d: ClusterConfig)
    requires Resolved(env, files, c, d)
    ensures Complete(d) <==> Complete(c)
    ensures d.name == c.name
  {
  }

  lemma TargetsStayValid(env: Env, files: Files, cs: seq<ClusterConfig>, ds: seq<ClusterConfig>)
    requires |cs| == |ds| && forall i :: 0 <= i < |cs| ==> Resolved(env, files, cs[i], ds[i])
    ensures ValidTargets(ds) <==> ValidTargets(cs)
  {
    forall i | 0 <= i < |cs| ensures (Complete(ds[i]) <==> Complete(cs[i])) && ds[i].name == cs[i].name {
      CompleteStays(env, files, cs[i], ds[i]);
    }
  }

  /** Exactly which files load: those whose clusters all resolve and which are
      valid as they are written, before anything is expanded. */
  lemma LoadsIff(file: ConfigFile, w: World)
    ensures Load(file, w).Loads? <==>
      && file.Some?
      && (forall i :: 0 <= i < |file.value.clusters| ==> Resolvable(w.env, w.files, file.value.clusters[i]))
      && ValidConfig(Defaulted(file.value), w.isDuration)
  {
    if file.Some? {
      var cs, resolve := file.value.clusters, ResolverOf(w.env, w.files);
      AllResolveIff(w.env, w.files, cs);
      if ResolveAll(resolve, cs).1 == None {
        var ds := ResolveAll(resolve, cs).0;
        ValidIff(Defaulted(file.value.(clusters := ds)), w.isDuration);
        forall i | 0 <= i < |cs| ensures Resolved(w.env, w.files, cs[i], ds[i]) {
          AllResolved(w.env, w.files, cs, i);
        }
        TargetsStayValid(w.env, w.files, cs, ds);
      }
    }
  }

  /** What every loaded configuration guarantees, target by target. Its secret can
      still be empty, in one case only: it was left to a file, and that file is
      blank. */
  lemma LoadedTargets(file: ConfigFile, w: World, i: nat)
    requires Load(file, w).Loads? && i < |Load(file, w).data.clusters|
    ensures file.Some? && ValidConfig(Load(file, w).data, w.isDuration)
    ensures |file.value.clusters| == |Load(file, w).data.clusters|
    ensures var c, d := file.value.clusters[i], Load(file, w).data.clusters[i];
      && Resolved(w.env, w.files, c, d)
      && d.name != "" && d.host != "" && d.tokenId != ""
      && (d.tokenSecret == "" <==>
           FromFile(c) && c.tokenSecretFile in w.files && TrimSpace(w.files[c.tokenSecretFile]) == "")
  {
    var cs := file.value.clusters;
    var ds := ResolveAll(ResolverOf(w.env, w.files), cs).0;
    AllResolved(w.env, w.files, cs, i);
    ValidIff(Defaulted(file.value.(clusters := ds)), w.isDuration);
    assert Complete(ds[i]);
  }

  /** A file that refers to nothing loads unchanged but for its defaults, in every
      environment, if it is valid, and is refused for its first violation if not. */
  lemma LiteralFile(d: ConfigData, w: World)
    requires forall i :: 0 <= i < |d.clusters| ==> Literal(d.clusters[i])
    ensures Load(Some(d), w) ==
      match FirstViolation(Defaulted(d), w.isDuration)
      case Some(v) => Refuses(Invalid(v))
      case None => Loads(Defaulted(d))
  {
    LiteralsResolve(w.env, w.files, d.clusters);
    assert d.(clusters := d.clusters) == d;
  }

  class SafeConfig {
    var c: Config

    constructor (cfg: Config)
      ensures c == cfg
    {
      c := cfg;
    }

    method Get() returns (cfg: Config)
      ensures cfg == c
    {
      cfg := c;
    }

    /** A refused file changes nothing; an accepted one replaces the configuration
        by a new one, and the old one stays as it is for those who hold it. */
    method ReloadConfig(file: ConfigFile, w: World) returns (clustersChanged: bool, error: Option<LoadError>)
      modifies this
      ensures match Load(file, w)
        case Loads(d) =>
          && error == None && fresh(c) && c.Data() == d
          && (clustersChanged <==> old(c.clusters) != d.clusters)
        case Refuses(e) => error == Some(e) && !clustersChanged && c == old(c)
    {
      var cfg, err := LoadConfig(file, w);
      if cfg == null {
        return false, err;
      }
      clustersChanged := c.clusters != cfg.clusters;
      c := cfg;
      error := None;
    }
  }
}
