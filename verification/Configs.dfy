/** internal/models/config.go: the configuration, its defaults and its validation. */
module Configs {
  import opened Seqs
  import opened Models

  datatype Server = Server(host: string, port: string, uri: string, logName: string)

  datatype Collection = Collection(interval: string, timeout: string, maxConcurrentTargets: int)

  datatype OTelExport = OTelExport(
    enabled: bool, endpoint: string, insecure: bool, interval: string, samplingRate: real)

  /** What a Config holds, as a value. */
  datatype ConfigData = ConfigData(
    server: Server, collection: Collection, collectors: CollectorToggles,
    metrics: OTelExport, tracing: OTelExport, clusters: seq<ClusterConfig>)

  /** Whether time.ParseDuration accepts a string. */
  type Durations = string -> bool

  const DEFAULT_HOST := "0.0.0.0"
  const DEFAULT_PORT := "9221"
  const DEFAULT_URI := "/metrics"
  const DEFAULT_INTERVAL := "30s"
  const DEFAULT_TIMEOUT := "25s"
  const DEFAULT_METRICS_PUSH := "10s"
  const DEFAULT_SAMPLING_RATE := 0.1
  const DEFAULT_OTLP_ENDPOINT := "localhost:4317"

  const RESERVED_PATHS: set<string> := {"/", "/health", "/livez", "/readyz"}

  datatype Violation =
    | UriWithoutSlash | UriReserved | BadInterval | BadTimeout | NoClusters
    | NameRequired(i: nat) | DuplicateName(i: nat) | HostRequired(i: nat)
      | TokenIdRequired(i: nat) | SecretRequired(i: nat)
    | BadPushInterval

  // ---- what a valid configuration is ----

  predicate Complete(c: ClusterConfig) {
    c.name != "" && c.host != "" && c.tokenId != "" && (c.tokenSecret != "" || c.tokenSecretFile != "")
  }

  predicate UniqueNames(cs: seq<ClusterConfig>) {
    forall i, j :: 0 <= i < j < |cs| ==> cs[i].name != cs[j].name
  }

  /** The target list of a valid configuration. */
  predicate ValidTargets(cs: seq<ClusterConfig>) {
    cs != [] && (forall i :: 0 <= i < |cs| ==> Complete(cs[i])) && UniqueNames(cs)
  }

  predicate ValidConfig(d: ConfigData, isDuration: Durations) {
    && "/" <= d.server.uri
    && d.server.uri !in RESERVED_PATHS
    && isDuration(d.collection.interval) && isDuration(d.collection.timeout)
    && ValidTargets(d.clusters)
    && (d.metrics.enabled ==> isDuration(d.metrics.interval))
  }

  function Or(s: string, default: string): string { if s == "" then default else s }

  function Defaulted(d: ConfigData): ConfigData {
    d.(server := d.server.(host := Or(d.server.host, DEFAULT_HOST), port := Or(d.server.port, DEFAULT_PORT),
                           uri := Or(d.server.uri, DEFAULT_URI)),
       collection := d.collection.(interval := Or(d.collection.interval, DEFAULT_INTERVAL),
                                   timeout := Or(d.collection.timeout, DEFAULT_TIMEOUT)),
       metrics := d.metrics.(endpoint := Or(d.metrics.endpoint, DEFAULT_OTLP_ENDPOINT),
                             interval := Or(d.metrics.interval, DEFAULT_METRICS_PUSH)),
       tracing := d.tracing.(endpoint := Or(d.tracing.endpoint, DEFAULT_OTLP_ENDPOINT),
                             samplingRate :=
                               if d.tracing.samplingRate == 0.0 then DEFAULT_SAMPLING_RATE else d.tracing.samplingRate))
  }

  function NameSet(cs: seq<ClusterConfig>): set<string> {
    if cs == [] then {} else NameSet(cs[..|cs| - 1]) + {cs[|cs| - 1].name}
  }

  /** What is wrong with the last cluster of the list, given the ones before it. */
  function LastViolation(cs: seq<ClusterConfig>): Option<Violation>
    requires cs != []
  {
    var i, c := |cs| - 1, cs[|cs| - 1];
    if c.name == "" then Some(NameRequired(i))
    else if c.name in NameSet(cs[..i]) then Some(DuplicateName(i))
    else if c.host == "" then Some(HostRequired(i))
    else if c.tokenId == "" then Some(TokenIdRequired(i))
    else if c.tokenSecret == "" && c.tokenSecretFile == "" then Some(SecretRequired(i))
    else None
  }

  function ClusterViolation(cs: seq<ClusterConfig>): Option<Violation> {
    if cs == [] then None
    else
      var earlier := ClusterViolation(cs[..|cs| - 1]);
      if earlier.Some? then earlier else LastViolation(cs)
  }

  function FirstViolation(d: ConfigData, isDuration: Durations): Option<Violation> {
    if !("/" <= d.server.uri) then Some(UriWithoutSlash)
    else if d.server.uri in RESERVED_PATHS then Some(UriReserved)
    else if !isDuration(d.collection.interval) then Some(BadInterval)
    else if !isDuration(d.collection.timeout) then Some(BadTimeout)
    else if |d.clusters| == 0 then Some(NoClusters)
    else if ClusterViolation(d.clusters).Some? then ClusterViolation(d.clusters)
    else if d.metrics.enabled && !isDuration(d.metrics.interval) then Some(BadPushInterval)
    else None
  }

  lemma {:induction false} NameSetMember(cs: seq<ClusterConfig>, x: string)
    ensures x in NameSet(cs) <==> exists i :: 0 <= i < |cs| && cs[i].name == x
  {
    if cs == [] {
    } else {
      var init := cs[..|cs| - 1];
      NameSetMember(init, x);
      assert forall i :: 0 <= i < |init| ==> init[i] == cs[i];
    }
  }

  /** The cluster checks pass exactly when every cluster is complete and the names
      are pairwise different. */
  lemma {:induction false} ClustersValidIff(cs: seq<ClusterConfig>)
    ensures ClusterViolation(cs) == None <==> (forall i :: 0 <= i < |cs| ==> Complete(cs[i])) && UniqueNames(cs)
  {
    if cs == [] {
    } else {
      var init, c := cs[..|cs| - 1], cs[|cs| - 1];
      ClustersValidIff(init);
      NameSetMember(init, c.name);
      assert cs == init + [c];
    }
  }

  /** A reported cluster is the first bad one. */
  lemma {:induction false} ReportsFirst(cs: seq<ClusterConfig>) returns (i: nat)
    requires ClusterViolation(cs).Some?
    ensures i < |cs| && ClusterViolation(cs) == LastViolation(cs[..i + 1])
    ensures LastViolation(cs[..i + 1]).Some? && ClusterViolation(cs[..i]) == None
  {
    var init := cs[..|cs| - 1];
    if ClusterViolation(init).Some? {
      i := ReportsFirst(init);
      assert init[..i + 1] == cs[..i + 1] && init[..i] == cs[..i];
    } else {
      i := |init|;
      assert cs[..i + 1] == cs;
    }
  }

  /** Validation accepts exactly the valid configurations. */
  lemma ValidIff(d: ConfigData, isDuration: Durations)
    ensures FirstViolation(d, isDuration) == None <==> ValidConfig(d, isDuration)
  {
    ClustersValidIff(d.clusters);
  }

  /** Which those are, check by check. */
  lemma AcceptedIff(d: ConfigData, isDuration: Durations)
    ensures FirstViolation(d, isDuration) == None <==>
      && d.server.uri != "" && d.server.uri[0] == '/'
      && d.server.uri != "/" && d.server.uri != "/health" && d.server.uri != "/livez" && d.server.uri != "/readyz"
      && isDuration(d.collection.interval) && isDuration(d.collection.timeout)
      && (d.metrics.enabled ==> isDuration(d.metrics.interval))
      && d.clusters != []
      && (forall i :: (0 <= i < |d.clusters| ==>
           && d.clusters[i].name != "" && d.clusters[i].host != "" && d.clusters[i].tokenId != ""
           && (d.clusters[i].tokenSecret != "" || d.clusters[i].tokenSecretFile != "")))
      && (forall i, j :: 0 <= i < j < |d.clusters| ==> d.clusters[i].name != d.clusters[j].name)
  {
    ValidIff(d, isDuration);
  }

  /** What is reported of the first bad cluster, after a list of good ones. */
  lemma ClusterReport(cs: seq<ClusterConfig>, i: nat)
    requires i < |cs| && ClusterViolation(cs[..i]) == None
    ensures var c, v := cs[i], ClusterViolation(cs[..i + 1]);
      && (c.name == "" ==> v == Some(NameRequired(i)))
      && (c.name != "" && (exists j :: 0 <= j < i && cs[j].name == c.name) ==> v == Some(DuplicateName(i)))
      && (c.name != "" && (forall j :: 0 <= j < i ==> cs[j].name != c.name) ==>
           v == (if c.host == "" then Some(HostRequired(i))
                 else if c.tokenId == "" then Some(TokenIdRequired(i))
                 else if c.tokenSecret == "" && c.tokenSecretFile == "" then Some(SecretRequired(i))
                 else None))
  {
    assert cs[..i + 1][..i] == cs[..i] && cs[..i + 1][i] == cs[i];
    NameSetMember(cs[..i], cs[i].name);
    assert forall j :: 0 <= j < i ==> cs[..i][j] == cs[j];
  }

  /** What is reported before the clusters are looked at, and after. */
  lemma FirstReport(d: ConfigData, isDuration: Durations)
    ensures var v, uri := FirstViolation(d, isDuration), d.server.uri;
      && (v == Some(UriWithoutSlash) <==> uri == "" || uri[0] != '/')
      && (v == Some(UriReserved) <==> uri in {"/", "/health", "/livez", "/readyz"})
      && (v == Some(NoClusters) ==> d.clusters == [])
      && (v == Some(BadPushInterval) ==> d.metrics.enabled && !isDuration(d.metrics.interval))
      && (v == Some(BadInterval) ==> !isDuration(d.collection.interval))
      && (v == Some(BadTimeout) ==> isDuration(d.collection.interval) && !isDuration(d.collection.timeout))
  {
    if ClusterViolation(d.clusters).Some? {
      var i := ReportsFirst(d.clusters);
    }
  }

  function Kept(s: string, default: string): string { if s != "" then s else default }

  /** What the defaults are: a field that is set keeps its value, and only these have one. */
  lemma DefaultsExact(d: ConfigData)
    ensures Defaulted(d) == ConfigData(
      Server(Kept(d.server.host, "0.0.0.0"), Kept(d.server.port, "9221"), Kept(d.server.uri, "/metrics"),
             d.server.logName),
      Collection(Kept(d.collection.interval, "30s"), Kept(d.collection.timeout, "25s"),
                 d.collection.maxConcurrentTargets),
      d.collectors,
      OTelExport(d.metrics.enabled, Kept(d.metrics.endpoint, "localhost:4317"), d.metrics.insecure,
                 Kept(d.metrics.interval, "10s"), d.metrics.samplingRate),
      OTelExport(d.tracing.enabled, Kept(d.tracing.endpoint, "localhost:4317"), d.tracing.insecure,
                 d.tracing.interval, if d.tracing.samplingRate == 0.0 then 0.1 else d.tracing.samplingRate),
      d.clusters)
  {
  }

  /** Defaults fill in once; a default URI is never the reason to refuse a file. */
  lemma DefaultsSettle(d: ConfigData)
    ensures Defaulted(Defaulted(d)) == Defaulted(d)
    ensures d.server.uri == "" ==> "/" <= Defaulted(d).server.uri && Defaulted(d).server.uri !in RESERVED_PATHS
    ensures Defaulted(d).clusters == d.clusters
  {
  }

  class Config {
    var server: Server
    var collection: Collection
    var collectors: CollectorToggles
    var metrics: OTelExport
    var tracing: OTelExport
    var clusters: seq<ClusterConfig>

    constructor (d: ConfigData)
      ensures Data() == d
    {
      server, collection, collectors := d.server, d.collection, d.collectors;
      metrics, tracing, clusters := d.metrics, d.tracing, d.clusters;
    }

    function Data(): ConfigData
      reads this
    {
      ConfigData(server, collection, collectors, metrics, tracing, clusters)
    }

    method SetDefaults()
      modifies this
      ensures Data() == Defaulted(old(Data()))
    {
      SetServerDefaults();
      SetCollectionDefaults();
      SetMetricsDefaults();
      SetTracingDefaults();
    }

    method SetServerDefaults()
      modifies this`server
      ensures server == Defaulted(old(Data())).server
    {
      if server.host == "" {
        server := server.(host := DEFAULT_HOST);
      }
      if server.port == "" {
        server := server.(port := DEFAULT_PORT);
      }
      if server.uri == "" {
        server := server.(uri := DEFAULT_URI);
      }
    }

    method SetCollectionDefaults()
      modifies this`collection
      ensures collection == Defaulted(old(Data())).collection
    {
      if collection.interval == "" {
        collection := collection.(interval := DEFAULT_INTERVAL);
      }
      if collection.timeout == "" {
        collection := collection.(timeout := DEFAULT_TIMEOUT);
      }
    }

    method SetMetricsDefaults()
      modifies this`metrics
      ensures metrics == Defaulted(old(Data())).metrics
    {
      if metrics.endpoint == "" {
        metrics := metrics.(endpoint := DEFAULT_OTLP_ENDPOINT);
      }
      if metrics.interval == "" {
        metrics := metrics.(interval := DEFAULT_METRICS_PUSH);
      }
    }

    method SetTracingDefaults()
      modifies this`tracing
      ensures tracing == Defaulted(old(Data())).tracing
    {
      if tracing.endpoint == "" {
        tracing := tracing.(endpoint := DEFAULT_OTLP_ENDPOINT);
      }
      if tracing.samplingRate == 0.0 {
        tracing := tracing.(samplingRate := DEFAULT_SAMPLING_RATE);
      }
    }

    /** Applies the defaults and reports the first violation, if there is one. */
    method Validate(isDuration: Durations) returns (r: Option<Violation>)
      modifies this
      ensures Data() == Defaulted(old(Data()))
      ensures r == FirstViolation(Data(), isDuration)
      ensures r == None <==> ValidConfig(Data(), isDuration)
    {
      SetDefaults();
      ValidIff(Data(), isDuration);
      if !("/" <= server.uri) {
        return Some(UriWithoutSlash);
      }
      if server.uri in RESERVED_PATHS {
        return Some(UriReserved);
      }
      if !isDuration(collection.interval) {
        return Some(BadInterval);
      }
      if !isDuration(collection.timeout) {
        return Some(BadTimeout);
      }
      if |clusters| == 0 {
        return Some(NoClusters);
      }
      var v := CheckClusters();
      if v.Some? {
        return v;
      }
      if metrics.enabled && !isDuration(metrics.interval) {
        return Some(BadPushInterval);
      }
      return None;
    }

    /** The loop over the clusters, with the names seen so far. */
    method CheckClusters() returns (r: Option<Violation>)
      ensures r == ClusterViolation(clusters)
    {
      var seen: set<string> := {};
      for i := 0 to |clusters|
        invariant seen == NameSet(clusters[..i])
        invariant ClusterViolation(clusters[..i]) == None
      {
        var cl := clusters[i];
        assert clusters[..i + 1][..i] == clusters[..i];
        LaterViolation(clusters, i + 1);
        if cl.name == "" {
          return Some(NameRequired(i));
        }
        if cl.name in seen {
          return Some(DuplicateName(i));
        }
        seen := seen + {cl.name};
        if cl.host == "" {
          return Some(HostRequired(i));
        }
        if cl.tokenId == "" {
          return Some(TokenIdRequired(i));
        }
        if cl.tokenSecret == "" && cl.tokenSecretFile == "" {
          return Some(SecretRequired(i));
        }
      }
      assert clusters[..|clusters|] == clusters;
      return None;
    }
  }

  /** A violation found in a prefix is the one of the whole list. */
  lemma {:induction false} LaterViolation(cs: seq<ClusterConfig>, n: nat)
    requires n <= |cs|
    ensures ClusterViolation(cs[..n]).Some? ==> ClusterViolation(cs) == ClusterViolation(cs[..n])
    decreases |cs|
  {
    if n == |cs| {
      assert cs[..n] == cs;
    } else {
      var init := cs[..|cs| - 1];
      LaterViolation(init, n);
      assert init[..n] == cs[..n];
    }
  }
}
