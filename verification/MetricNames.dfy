/** internal/pve/metrics.go: the metric name strings. The other modules use the
    enumeration; no two of its members share a string, so nothing is lost. */
module MetricNames {
  import opened Metrics

  function Text(m: Metric): string {
    match m
    case Up => "pve_up"
    case DiskSize => "pve_disk_size_bytes"
    case DiskUsage => "pve_disk_usage_bytes"
    case MemSize => "pve_memory_size_bytes"
    case MemUsage => "pve_memory_usage_bytes"
    case CpuRatio => "pve_cpu_usage_ratio"
    case CpuLimit => "pve_cpu_usage_limit"
    case Uptime => "pve_uptime_seconds"
    case StorShare => "pve_storage_shared"
    case HAState => "pve_ha_state"
    case LockState => "pve_lock_state"
    case NetRxTotal => "pve_network_receive_bytes_total"
    case NetTxTotal => "pve_network_transmit_bytes_total"
    case DiskReadTotal => "pve_disk_read_bytes_total"
    case DiskWriteTotal => "pve_disk_written_bytes_total"
    case GuestInfo => "pve_guest_info"
    case StorageInfo => "pve_storage_info"
    case NodeInfo => "pve_node_info"
    case ClusterInfo => "pve_cluster_info"
    case VersionInfo => "pve_version_info"
    case QDeviceUp => "pve_qdevice_up"
    case QDeviceInfo => "pve_qdevice_info"
    case SubInfo => "pve_subscription_info"
    case SubStatus => "pve_subscription_status"
    case SubNextDue => "pve_subscription_next_due_timestamp_seconds"
    case Onboot => "pve_onboot_status"
    case NotBackedUpTotal => "pve_not_backed_up_total"
    case NotBackedUpInfo => "pve_not_backed_up_info"
    case ReplInfo => "pve_replication_info"
    case ReplDuration => "pve_replication_duration_seconds"
    case ReplLastSync => "pve_replication_last_sync_timestamp_seconds"
    case ReplLastTry => "pve_replication_last_try_timestamp_seconds"
    case ReplNextSync => "pve_replication_next_sync_timestamp_seconds"
    case ReplFailed => "pve_replication_failed_syncs"
    case CollectionDuration => "pve_collection_duration_seconds"
    case RequestErrors => "pve_request_errors_total"
  }

  function At(t: string, k: nat): int { if k < |t| then t[k] as int else 0 }

  /** The length and two characters tell the names apart. */
  function Fingerprint(t: string): int { 1000 * |t| + At(t, 4) + At(t, 16) }

  /** The metric whose name has a given fingerprint. */
  function OfCode(k: int): Metric {
    if k == 6117 then Up
    else if k == 19216 then DiskSize
    else if k == 20221 then DiskUsage
    else if k == 21207 then MemSize
    else if k == 22204 then MemUsage
    else if k == 19215 then CpuRatio
    else if k == 19208 then CpuLimit
    else if k == 18217 then Uptime
    else if k == 18216 then StorShare
    else if k == 12104 then HAState
    else if k == 14108 then LockState
    else if k == 31215 then NetRxTotal
    else if k == 32225 then NetTxTotal
    else if k == 25216 then DiskReadTotal
    else if k == 28195 then DiskWriteTotal
    else if k == 14103 then GuestInfo
    else if k == 16115 then StorageInfo
    else if k == 13110 then NodeInfo
    else if k == 16099 then ClusterInfo
    else if k == 16118 then VersionInfo
    else if k == 14113 then QDeviceUp
    else if k == 16113 then QDeviceInfo
    else if k == 21210 then SubInfo
    else if k == 23210 then SubStatus
    else if k == 43210 then SubNextDue
    else if k == 17226 then Onboot
    else if k == 23222 then NotBackedUpTotal
    else if k == 22222 then NotBackedUpInfo
    else if k == 20219 then ReplInfo
    else if k == 32214 then ReplDuration
    else if k == 43222 then ReplLastSync
    else if k == 42222 then ReplLastTry
    else if k == 43224 then ReplNextSync
    else if k == 28216 then ReplFailed
    else if k == 31216 then CollectionDuration
    else RequestErrors
  }

  lemma DecodesHosts(m: Metric)
    requires m.Up? || m.DiskSize? || m.DiskUsage? || m.MemSize? || m.MemUsage? || m.CpuRatio?
    ensures OfCode(Fingerprint(Text(m))) == m
  {
  }

  lemma DecodesStates(m: Metric)
    requires m.CpuLimit? || m.Uptime? || m.StorShare? || m.HAState? || m.LockState? || m.NetRxTotal?
    ensures OfCode(Fingerprint(Text(m))) == m
  {
  }

  lemma DecodesInfos(m: Metric)
    requires m.NetTxTotal? || m.DiskReadTotal? || m.DiskWriteTotal? || m.GuestInfo? || m.StorageInfo? || m.NodeInfo?
    ensures OfCode(Fingerprint(Text(m))) == m
  {
  }

  lemma DecodesFeatures(m: Metric)
    requires m.ClusterInfo? || m.VersionInfo? || m.QDeviceUp? || m.QDeviceInfo? || m.SubInfo? || m.SubStatus?
    ensures OfCode(Fingerprint(Text(m))) == m
  {
  }

  lemma DecodesBackups(m: Metric)
    requires m.SubNextDue? || m.Onboot? || m.NotBackedUpTotal? || m.NotBackedUpInfo? || m.ReplInfo? || m.ReplDuration?
    ensures OfCode(Fingerprint(Text(m))) == m
  {
  }

  lemma DecodesReplications(m: Metric)
    requires m.ReplLastSync? || m.ReplLastTry? || m.ReplNextSync? || m.ReplFailed?
    ensures OfCode(Fingerprint(Text(m))) == m
  {
  }

  lemma DecodesSelf(m: Metric)
    requires m.CollectionDuration? || m.RequestErrors?
    ensures OfCode(Fingerprint(Text(m))) == m
  {
  }

  lemma Decodes(m: Metric)
    ensures OfCode(Fingerprint(Text(m))) == m
  {
    if m.Up? || m.DiskSize? || m.DiskUsage? || m.MemSize? || m.MemUsage? || m.CpuRatio? {
      DecodesHosts(m);
    } else if m.CpuLimit? || m.Uptime? || m.StorShare? || m.HAState? || m.LockState? || m.NetRxTotal? {
      DecodesStates(m);
    } else if m.NetTxTotal? || m.DiskReadTotal? || m.DiskWriteTotal? || m.GuestInfo? || m.StorageInfo? || m.NodeInfo? {
      DecodesInfos(m);
    } else if m.ClusterInfo? || m.VersionInfo? || m.QDeviceUp? || m.QDeviceInfo? || m.SubInfo? || m.SubStatus? {
      DecodesFeatures(m);
    } else if m.SubNextDue? || m.Onboot? || m.NotBackedUpTotal? || m.NotBackedUpInfo?
      || m.ReplInfo? || m.ReplDuration? {
      DecodesBackups(m);
    } else if m.CollectionDuration? || m.RequestErrors? {
      DecodesSelf(m);
    } else {
      DecodesReplications(m);
    }
  }

  /** No two metrics have the same name. */
  lemma TextInjective(m: Metric, n: Metric)
    ensures Text(m) == Text(n) <==> m == n
  {
    Decodes(m);
    Decodes(n);
  }
}
