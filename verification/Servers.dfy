/** main.go: the server object, and how a reload reaches the collector. */
module Servers {
  import opened Seqs
  import opened Models
  import opened Clients
  import opened Collectors
  import opened Cycles
  import opened Configs
  import opened SafeConfigs

  /** Position by position, a target is the client of a configured cluster. */
  ghost predicate Mirrors(ts: seq<Target>, cs: seq<ClusterConfig>) {
    |ts| == |cs| && forall i :: 0 <= i < |ts| ==> ts[i].cfg == cs[i] && ts[i].client.name == cs[i].name
  }

  /** One new client, with a counter of its own, per cluster. */
  method BuildTargets(cfg: Config) returns (ts: seq<Target>)
    ensures Mirrors(ts, cfg.clusters) && GoodTargets(ts)
    ensures forall i :: 0 <= i < |ts| ==> fresh(ts[i].client) && ts[i].client.log == []
  {
    ts := [];
    for k := 0 to |cfg.clusters|
      invariant Mirrors(ts, cfg.clusters[..k]) && DistinctClients(ts)
      invariant forall i :: 0 <= i < |ts| ==> fresh(ts[i].client) && ts[i].client.log == [] && ts[i].client.Valid()
    {
      var client := new Client(cfg.clusters[k].name);
      ts := ts + [Target(cfg.clusters[k], client)];
    }
  }

  class Server {
    const safeCfg: SafeConfig
    const collector: Collector

    constructor (safeCfg: SafeConfig, collector: Collector)
      ensures this.safeCfg == safeCfg && this.collector == collector
    {
      this.safeCfg, this.collector := safeCfg, collector;
    }

    /** The collector's targets mirror the published cluster list. */
    ghost predicate Mirrored()
      reads safeCfg, safeCfg.c, collector
    {
      Mirrors(collector.targets, safeCfg.c.clusters)
    }

    /** A reload that nothing overlaps keeps the mirror. A refused file changes
        nothing; an unchanged cluster list keeps every client, and so every counter;
        a changed one gives every target a new client. */
    method ReloadConfig(file: ConfigFile, w: World) returns (error: Option<LoadError>)
      requires Mirrored()
      modifies safeCfg, collector`targets
      ensures Mirrored()
      ensures match Load(file, w)
        case Refuses(e) => error == Some(e) && safeCfg.c == old(safeCfg.c)
          && collector.targets == old(collector.targets)
        case Loads(d) =>
          && error == None && safeCfg.c.Data() == d
          && (d.clusters == old(safeCfg.c.clusters) ==> collector.targets == old(collector.targets))
          && (d.clusters != old(safeCfg.c.clusters) ==>
               GoodTargets(collector.targets)
               && forall i :: 0 <= i < |collector.targets| ==>
                 fresh(collector.targets[i].client) && collector.targets[i].client.log == [])
    {
      var changed, err := safeCfg.ReloadConfig(file, w);
      if err.Some? {
        return err;
      }
      if changed {
        var cfg := safeCfg.Get();
        var ts := BuildTargets(cfg);
        collector.SetTargets(ts);
      }
      return None;
    }
  }
}
