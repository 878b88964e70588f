// The mock infrastructure tools: SSH system analysis, storage cleanup and
// CMDB enrichment.
module Infrastructure {
  import opened Values
  import opened Text

  /** `ssh_system_analyzer`: the same command outputs for any hosts. */
  const SshReading: Value := VDict([
    ("command_outputs", VDict([
      ("top", VStr("Tasks: 245 total, 2 running, 243 sleeping")),
      ("df -h", VStr("/dev/sda1 85% /var/log")),
      ("netstat -tuln", VStr("Active connections: 1247"))])),
    ("process_information", VDict([
      ("high_cpu_processes", VList([VDict([("pid", VInt(1234)), ("command", VStr("java -Xmx4g")), ("cpu_percent", VFloat(45.2))])])),
      ("high_memory_processes", VList([VDict([("pid", VInt(5678)), ("command", VStr("elasticsearch")), ("memory_percent", VFloat(35.1))])]))])),
    ("system_status", VDict([
      ("load_average", VList([VFloat(2.1), VFloat(1.8), VFloat(1.5)])),
      ("uptime", VStr("15 days, 4:32")),
      ("disk_io_wait", VFloat(12.3))]))])

  /** `storage_cleanup_engine`: a fixed cleanup report (it has no "status" key). */
  const CleanupReading: Value := VDict([
    ("cleanup_results", VDict([
      ("log_rotation", VDict([("space_freed_gb", VFloat(2.3)), ("files_rotated", VInt(145))])),
      ("temp_file_removal", VDict([("space_freed_gb", VFloat(0.8)), ("files_removed", VInt(892))])),
      ("cache_cleanup", VDict([("space_freed_gb", VFloat(1.2)), ("cache_cleared", StrList(["browser", "app"]))]))])),
    ("space_recovered", VFloat(4.3)),
    ("safety_confirmations", VDict([
      ("backup_verified", VBool(true)), ("critical_files_preserved", VBool(true)), ("rollback_available", VBool(true))]))])

  datatype CmdbRecord = CmdbRecord(applicationName: string, businessCriticality: string, affectedUsers: int)

  /** `cmdb_enrichment_tool`: a host whose lower-cased name contains "prod" is business-critical. */
  function CmdbEnrichment(serverHostname: string): (r: CmdbRecord)
    ensures r.applicationName == "App-" + serverHostname
    ensures Contains(Lower(serverHostname), "prod") ==> r.businessCriticality == "high" && r.affectedUsers == 1500
    ensures !Contains(Lower(serverHostname), "prod") ==> r.businessCriticality == "medium" && r.affectedUsers == 50
  {
    var prod := Contains(Lower(serverHostname), "prod");
    CmdbRecord("App-" + serverHostname, if prod then "high" else "medium", if prod then 1500 else 50)
  }

  function CmdbValue(r: CmdbRecord): Value {
    VDict([
      ("application_context", VDict([
        ("application_name", VStr(r.applicationName)),
        ("business_service", VStr("Customer Portal")),
        ("environment", VStr("production"))])),
      ("business_criticality", VStr(r.businessCriticality)),
      ("service_dependencies", VList([
        VDict([("service", VStr("database-cluster")), ("criticality", VStr("high"))]),
        VDict([("service", VStr("auth-service")), ("criticality", VStr("medium"))])])),
      ("user_impact_data", VDict([("affected_users", VInt(r.affectedUsers)), ("revenue_impact", VStr("high"))]))])
  }
}
