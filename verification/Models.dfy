/** internal/models/config.go: the value types of the configuration. */
module Models {
  import opened Seqs

  /** One Proxmox VE target. */
  datatype ClusterConfig = ClusterConfig(
    name: string, host: string, tokenId: string, tokenSecret: string, tokenSecretFile: string,
    insecureSkipVerify: bool)

  predicate BoolOrTrue(p: Option<bool>) { p == None || p.value }

  /** The optional collectors; an unset toggle means enabled. */
  datatype CollectorToggles = CollectorToggles(
    onboot: Option<bool>, replication: Option<bool>, subscription: Option<bool>,
    backupInfo: Option<bool>, qdevice: Option<bool>, haStatus: Option<bool>)
  {
    predicate OnbootEnabled() { BoolOrTrue(onboot) }
    predicate ReplicationEnabled() { BoolOrTrue(replication) }
    predicate SubscriptionEnabled() { BoolOrTrue(subscription) }
    predicate BackupInfoEnabled() { BoolOrTrue(backupInfo) }
    predicate QDeviceEnabled() { BoolOrTrue(qdevice) }
    predicate HAStatusEnabled() { BoolOrTrue(haStatus) }
  }
}
