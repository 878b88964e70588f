// The mock monitoring tools: Prometheus CPU/memory metrics, disk usage and
// network connectivity.  Each returns fixed readings per host; a dict
// comprehension over the host list keeps each host once, in first-seen order.
module Monitoring {
  import opened Wrappers
  import opened Dicts
  import opened Values
  import opened Text

  datatype CpuMetrics = CpuMetrics(currentUtilization: real, avgUtilization1h: real, peakUtilization24h: real)
  datatype MemoryMetrics = MemoryMetrics(currentUtilization: real, availableMemoryGb: real, memoryPressure: string)
  datatype PrometheusReport = PrometheusReport(cpuMetrics: Dict<CpuMetrics>, memoryMetrics: Dict<MemoryMetrics>, queryTimestamp: string)

  /** A host whose name contains "high" reads as loaded. */
  function CpuReading(host: string): CpuMetrics {
    CpuMetrics(if Contains(host, "high") then 85.5 else 45.2, 78.3, 92.1)
  }

  function MemoryReading(host: string): MemoryMetrics {
    if Contains(host, "high") then MemoryMetrics(89.1, 2.1, "high") else MemoryMetrics(52.3, 15.7, "normal")
  }

  /** `prometheus_metrics_collector`; the queries and time range are ignored. */
  function PrometheusMetricsCollector(targetHosts: seq<string>, now: string): (r: PrometheusReport)
    ensures Keys(r.cpuMetrics) == Distinct(targetHosts) && Keys(r.memoryMetrics) == Distinct(targetHosts)
    ensures forall h :: h in targetHosts ==> Get(r.cpuMetrics, h) == Some(CpuReading(h))
    ensures forall h :: h in targetHosts ==> Get(r.memoryMetrics, h) == Some(MemoryReading(h))
  {
    PrometheusReport(FromKeys(targetHosts, CpuReading), FromKeys(targetHosts, MemoryReading), now)
  }

  function CpuValue(m: CpuMetrics): Value {
    VDict([("current_utilization", VFloat(m.currentUtilization)),
           ("avg_utilization_1h", VFloat(m.avgUtilization1h)),
           ("peak_utilization_24h", VFloat(m.peakUtilization24h))])
  }

  function MemoryValue(m: MemoryMetrics): Value {
    VDict([("current_utilization", VFloat(m.currentUtilization)),
           ("available_memory_gb", VFloat(m.availableMemoryGb)),
           ("memory_pressure", VStr(m.memoryPressure))])
  }

  function PrometheusValue(r: PrometheusReport): Value {
    VDict([("cpu_metrics", VDict(seq(|r.cpuMetrics|, i requires 0 <= i < |r.cpuMetrics| =>
                                      (r.cpuMetrics[i].0, CpuValue(r.cpuMetrics[i].1))))),
           ("memory_metrics", VDict(seq(|r.memoryMetrics|, i requires 0 <= i < |r.memoryMetrics| =>
                                         (r.memoryMetrics[i].0, MemoryValue(r.memoryMetrics[i].1))))),
           ("query_timestamp", VStr(r.queryTimestamp))])
  }

  datatype FilesystemUsage = FilesystemUsage(usedPercent: int, availableGb: real, totalGb: int)
  datatype DiskReport = DiskReport(diskUsageMetrics: Dict<Dict<FilesystemUsage>>)

  const HostFilesystems: Dict<FilesystemUsage> := [
    ("/", FilesystemUsage(87, 2.1, 20)),
    ("/var/log", FilesystemUsage(92, 0.8, 10)),
    ("/tmp", FilesystemUsage(45, 5.5, 10))]

  /** `disk_usage_analyzer`; every host reports the same three filesystems. */
  function DiskUsageAnalyzer(serverHostnames: seq<string>): (r: DiskReport)
    ensures Keys(r.diskUsageMetrics) == Distinct(serverHostnames)
    ensures forall h :: h in serverHostnames ==> Get(r.diskUsageMetrics, h) == Some(HostFilesystems)
  {
    DiskReport(FromKeys(serverHostnames, _ => HostFilesystems))
  }

  function FilesystemValue(u: FilesystemUsage): Value {
    VDict([("used_percent", VInt(u.usedPercent)), ("available_gb", VFloat(u.availableGb)), ("total_gb", VInt(u.totalGb))])
  }

  function DiskValue(r: DiskReport): Value {
    var m := r.diskUsageMetrics;
    VDict([("disk_usage_metrics", VDict(seq(|m|, i requires 0 <= i < |m| =>
             (m[i].0, VDict(seq(|m[i].1|, j requires 0 <= j < |m[i].1| => (m[i].1[j].0, FilesystemValue(m[i].1[j].1)))))))),
           ("filesystem_health", VStr("degraded")),
           ("capacity_trends", VDict([("growth_rate_gb_per_day", VFloat(0.3))]))])
  }

  datatype Connectivity = Connectivity(pingSuccess: bool, avgLatencyMs: real, packetLossPercent: real, tcpConnectTimeMs: real)
  datatype NetworkReport = NetworkReport(connectivityStatus: Dict<Connectivity>)

  const HealthyLink := Connectivity(true, 12.3, 0.1, 45.2)

  /** `network_connectivity_tester`; every host answers with the same healthy link. */
  function NetworkConnectivityTester(targetHosts: seq<string>): (r: NetworkReport)
    ensures Keys(r.connectivityStatus) == Distinct(targetHosts)
    ensures forall h :: h in targetHosts ==> Get(r.connectivityStatus, h) == Some(HealthyLink)
  {
    NetworkReport(FromKeys(targetHosts, _ => HealthyLink))
  }

  function ConnectivityValue(c: Connectivity): Value {
    VDict([("ping_success", VBool(c.pingSuccess)), ("avg_latency_ms", VFloat(c.avgLatencyMs)),
           ("packet_loss_percent", VFloat(c.packetLossPercent)), ("tcp_connect_time_ms", VFloat(c.tcpConnectTimeMs))])
  }

  function NetworkValue(r: NetworkReport): Value {
    var m := r.connectivityStatus;
    VDict([("connectivity_status", VDict(seq(|m|, i requires 0 <= i < |m| => (m[i].0, ConnectivityValue(m[i].1))))),
           ("latency_measurements", VDict([("p50", VFloat(10.2)), ("p95", VFloat(25.1)), ("p99", VFloat(67.3))])),
           ("packet_loss_data", VDict([("total_packets", VInt(1000)), ("lost_packets", VInt(1))]))])
  }
}
