/** internal/pve/api.go and parse.go: the rows the PVE API answers with, the
    answer of one logical request, and the request paths. */
module Api {
  import opened Seqs
  import opened Metrics

  datatype ClusterResource = ClusterResource(
    id: string, kind: string, node: string, name: string, status: string,
    cpu: FlexFloat, maxCpu: FlexFloat, mem: FlexFloat, maxMem: FlexFloat,
    disk: FlexFloat, maxDisk: FlexFloat, uptime: FlexFloat,
    diskRead: FlexFloat, diskWrite: FlexFloat, netIn: FlexFloat, netOut: FlexFloat,
    template: FlexFloat, shared: FlexFloat,
    tags: string, storage: string, pluginType: string, content: string,
    haState: string, lock: string)

  datatype ClusterStatusEntry = ClusterStatusEntry(
    id: string, kind: string, name: string,
    nodes: FlexFloat, quorate: FlexFloat, version: FlexFloat, nodeId: FlexFloat, level: string)

  datatype ReleaseInfo = ReleaseInfo(release: string, repoId: string, version: string)

  datatype QDeviceConfig = QDeviceConfig(model: string, network: map<string, string>)

  datatype NotBackedUpGuest = NotBackedUpGuest(vmid: FlexFloat, kind: string)

  /** nextDue is the parsed due date, absent when empty or not a date. */
  datatype SubscriptionInfo = SubscriptionInfo(status: string, level: string, nextDue: FlexFloat)

  datatype ReplicationJob = ReplicationJob(id: string, kind: string, source: string, target: string, guest: FlexFloat)

  datatype ReplicationStatus = ReplicationStatus(
    duration: FlexFloat, lastSync: FlexFloat, lastTry: FlexFloat, nextSync: FlexFloat, failCount: FlexFloat)

  datatype HAStatusEntry = HAStatusEntry(kind: string, node: string, status: string)

  /** The decoded "data" field; a payload of another shape than the caller asked
      for is a decode failure. */
  datatype Payload =
    | Resources(rows: seq<ClusterResource>)
    | StatusRows(entries: seq<ClusterStatusEntry>)
    | Version(info: ReleaseInfo)
    | QDevice(config: QDeviceConfig)
    | NotBackedUp(missing: seq<NotBackedUpGuest>)
    | HAEntries(haEntries: seq<HAStatusEntry>)
    | Jobs(jobs: seq<ReplicationJob>)
    | JobStatus(job: ReplicationStatus)
    | Subscription(sub: SubscriptionInfo)
    | GuestRefs(vmids: seq<FlexFloat>)
    | GuestConfig(onboot: FlexFloat)

  /** An envelope that does not decode, one without data, or its data. */
  datatype Body = Undecodable | NoData | Data(payload: Payload)

  /** The final outcome of one logical call, after the client's own retries. */
  datatype Answer = TransportError | Response(code: int, body: Body)

  /** The PVE server of one target during one cycle: path to answer. */
  type Pve = string -> Answer

  /** What get returns to its caller: an error, or nil with the data, if any. */
  datatype Reply = Failed | Ok(data: Option<Payload>)

  const STATUS_OK := 200
  const STATUS_FORBIDDEN := 403
  const STATUS_NOT_FOUND := 404

  function ReplyOf(a: Answer): Reply {
    match a
    case TransportError => Failed
    case Response(code, body) =>
      if code != STATUS_OK then Failed
      else match body
        case Undecodable => Failed
        case NoData => Ok(None)
        case Data(p) => Ok(Some(p))
  }

  // Decoding into the caller's type: no data leaves the zero value in place.

  function AsResources(r: Reply): Option<seq<ClusterResource>> {
    match r case Ok(None) => Some([]) case Ok(Some(Resources(rows))) => Some(rows) case _ => None
  }

  function AsStatus(r: Reply): Option<seq<ClusterStatusEntry>> {
    match r case Ok(None) => Some([]) case Ok(Some(StatusRows(rows))) => Some(rows) case _ => None
  }

  function AsVersion(r: Reply): Option<ReleaseInfo> {
    match r case Ok(None) => Some(ReleaseInfo("", "", "")) case Ok(Some(Version(v))) => Some(v) case _ => None
  }

  function AsQDevice(r: Reply): Option<QDeviceConfig> {
    match r case Ok(None) => Some(QDeviceConfig("", map[])) case Ok(Some(QDevice(q))) => Some(q) case _ => None
  }

  function AsNotBackedUp(r: Reply): Option<seq<NotBackedUpGuest>> {
    match r case Ok(None) => Some([]) case Ok(Some(NotBackedUp(gs))) => Some(gs) case _ => None
  }

  function AsHA(r: Reply): Option<seq<HAStatusEntry>> {
    match r case Ok(None) => Some([]) case Ok(Some(HAEntries(es))) => Some(es) case _ => None
  }

  function AsJobs(r: Reply): Option<seq<ReplicationJob>> {
    match r case Ok(None) => Some([]) case Ok(Some(Jobs(js))) => Some(js) case _ => None
  }

  function AsJobStatus(r: Reply): Option<ReplicationStatus> {
    match r
    case Ok(None) => Some(ReplicationStatus(None, None, None, None, None))
    case Ok(Some(JobStatus(st))) => Some(st)
    case _ => None
  }

  function AsSubscription(r: Reply): Option<SubscriptionInfo> {
    match r case Ok(None) => Some(SubscriptionInfo("", "", None))
      case Ok(Some(Subscription(s))) => Some(s) case _ => None
  }

  function AsGuestRefs(r: Reply): Option<seq<FlexFloat>> {
    match r case Ok(None) => Some([]) case Ok(Some(GuestRefs(gs))) => Some(gs) case _ => None
  }

  function AsGuestConfig(r: Reply): Option<FlexFloat> {
    match r case Ok(None) => Some(None) case Ok(Some(GuestConfig(o))) => Some(o) case _ => None
  }

  /** What a reply without data means to a caller: empty lists and zero fields. */
  lemma NoDataIsEmpty()
    ensures AsResources(Ok(None)) == Some([]) && AsStatus(Ok(None)) == Some([])
      && AsVersion(Ok(None)) == Some(ReleaseInfo("", "", "")) && AsQDevice(Ok(None)) == Some(QDeviceConfig("", map[]))
      && AsNotBackedUp(Ok(None)) == Some([]) && AsHA(Ok(None)) == Some([]) && AsJobs(Ok(None)) == Some([])
      && AsJobStatus(Ok(None)) == Some(ReplicationStatus(None, None, None, None, None))
      && AsSubscription(Ok(None)) == Some(SubscriptionInfo("", "", None))
      && AsGuestRefs(Ok(None)) == Some([]) && AsGuestConfig(Ok(None)) == Some(None)
  {
  }

  /** A caller gets the data it asked for, and an error for data of any other shape and for
      a failed call. */
  lemma DataIsDecoded(p: Payload)
    ensures var r := Ok(Some(p));
      && AsResources(r) == (if p.Resources? then Some(p.rows) else None)
      && AsStatus(r) == (if p.StatusRows? then Some(p.entries) else None)
      && AsVersion(r) == (if p.Version? then Some(p.info) else None)
      && AsQDevice(r) == (if p.QDevice? then Some(p.config) else None)
      && AsNotBackedUp(r) == (if p.NotBackedUp? then Some(p.missing) else None)
      && AsHA(r) == (if p.HAEntries? then Some(p.haEntries) else None)
      && AsJobs(r) == (if p.Jobs? then Some(p.jobs) else None)
      && AsJobStatus(r) == (if p.JobStatus? then Some(p.job) else None)
      && AsSubscription(r) == (if p.Subscription? then Some(p.sub) else None)
      && AsGuestRefs(r) == (if p.GuestRefs? then Some(p.vmids) else None)
      && AsGuestConfig(r) == (if p.GuestConfig? then Some(p.onboot) else None)
    ensures AsResources(Failed) == None && AsStatus(Failed) == None && AsVersion(Failed) == None
      && AsQDevice(Failed) == None && AsNotBackedUp(Failed) == None && AsHA(Failed) == None && AsJobs(Failed) == None
      && AsJobStatus(Failed) == None && AsSubscription(Failed) == None
      && AsGuestRefs(Failed) == None && AsGuestConfig(Failed) == None
  {
  }

  const RESOURCES_PATH := "/cluster/resources"
  const STATUS_PATH := "/cluster/status"
  const VERSION_PATH := "/version"
  const QDEVICE_PATH := "/cluster/config/qdevice"
  const BACKUP_PATH := "/cluster/backup-info/not-backed-up"
  const HA_PATH := "/cluster/ha/status/current"

  /** Every per-node path starts with the node's own directory. */
  function NodeDir(node: string): string { "/nodes/" + node + "/" }

  function ReplicationPath(node: string): string { NodeDir(node) + "replication" }
  function JobStatusPath(node: string, job: string): string { NodeDir(node) + ("replication/" + job + "/status") }
  function SubscriptionPath(node: string): string { NodeDir(node) + "subscription" }
  function GuestListPath(node: string, kind: string): string { NodeDir(node) + kind }
  function GuestConfigPath(node: string, kind: string, vmid: string): string
  {
    NodeDir(node) + (kind + "/" + vmid + "/config")
  }

  /** The conversion of a float to int64 drops the fraction. */
  function Truncate(v: real): int {
    if v >= 0.0 then v.Floor else -((-v).Floor)
  }

  function Digits(n: nat): string {
    if n < 10 then ["0123456789"[n]] else Digits(n / 10) + Digits(n % 10)
  }

  function FormatInt(v: real): string {
    var n := Truncate(v);
    if n < 0 then "-" + Digits(-n) else Digits(n)
  }
}
