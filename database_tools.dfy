// The mock database tools: pool/query/lock metrics and a slow-query report,
// both fixed readings.
module DatabaseTools {
  import opened Values

  datatype DatabaseMetrics = DatabaseMetrics(
    poolActive: int, poolIdle: int, poolMax: int,
    avgExecTimeMs: int, slowQueries: int,
    deadlocks: int, blockingSessions: int)

  /** `database_metrics_collector`. */
  const MetricsReading := DatabaseMetrics(45, 15, 100, 125, 3, 0, 2)

  function MetricsValue(m: DatabaseMetrics): Value {
    VDict([
      ("database_metrics", VDict([
        ("connection_pool", VDict([("active", VInt(m.poolActive)), ("idle", VInt(m.poolIdle)), ("max", VInt(m.poolMax))])),
        ("query_performance", VDict([("avg_exec_time_ms", VInt(m.avgExecTimeMs)), ("slow_queries", VInt(m.slowQueries))])),
        ("lock_stats", VDict([("deadlocks", VInt(m.deadlocks)), ("blocking_sessions", VInt(m.blockingSessions))]))])),
      ("performance_statistics", VDict([("throughput_qps", VInt(1250)), ("cache_hit_ratio", VFloat(0.95)),
                                        ("buffer_pool_usage", VFloat(0.87))])),
      ("health_indicators", VDict([("replication_lag_ms", VInt(45)), ("disk_space_used_percent", VInt(78)),
                                   ("memory_usage_percent", VInt(82))]))])
  }

  datatype SlowQuery = SlowQuery(queryId: string, avgTimeMs: int, executions: int)
  datatype QueryReport = QueryReport(slowQueries: seq<SlowQuery>)

  /** `query_performance_analyzer`. */
  const QueryReading := QueryReport([SlowQuery("q1", 2500, 150), SlowQuery("q2", 1800, 89)])

  function QueryValue(q: QueryReport): Value {
    var qs := q.slowQueries;
    VDict([
      ("query_analysis", VDict([
        ("slow_queries", VList(seq(|qs|, i requires 0 <= i < |qs| =>
           VDict([("query_id", VStr(qs[i].queryId)), ("avg_time_ms", VInt(qs[i].avgTimeMs)),
                  ("executions", VInt(qs[i].executions))])))),
        ("index_recommendations", StrList(["idx_users_email", "idx_orders_date"]))])),
      ("optimization_recommendations", StrList(["add_composite_index", "update_statistics", "rewrite_subquery"])),
      ("bottleneck_identification", VDict([("type", VStr("index_scan")), ("table", VStr("large_table")),
                                           ("impact", VStr("high"))]))])
  }
}
