// The database performance monitor (src/agents/specialists/database.py):
// four threshold checks over the database fixtures; any exception ends the
// analysis instead of propagating.
module DatabaseMonitor {
  import opened Wrappers
  import opened Dicts
  import opened Values
  import opened RunState
  import opened Config
  import opened DatabaseTools

  const AgentId := "database-performance-monitor"

  /** The four checks of `_analyze_database_performance`. */
  datatype Verdict = Verdict(poolHigh: bool, slowQueries: bool, blocking: bool, excessiveSlowQueries: bool) {
    function Issues(): seq<string> {
      (if poolHigh then ["high_connection_pool_utilization"] else [])
      + (if slowQueries then ["slow_query_performance"] else [])
      + (if blocking then ["database_blocking"] else [])
      + (if excessiveSlowQueries then ["excessive_slow_queries"] else [])
    }

    predicate RequiresResponse() {
      |Issues()| > 0
    }

    function Actions(): (r: seq<string>)
      ensures |r| == 3
      ensures r[0] == (if slowQueries then "optimize_queries" else "monitor")
      ensures r[1] == (if poolHigh then "scale_connections" else "monitor")
      ensures r[2] == (if blocking then "resolve_locks" else "monitor")
    {
      IssuesIff();
      [if "slow_query_performance" in Issues() then "optimize_queries" else "monitor",
       if "high_connection_pool_utilization" in Issues() then "scale_connections" else "monitor",
       if "database_blocking" in Issues() then "resolve_locks" else "monitor"]
    }

    function Record(): Dict<Value> {
      AnalysisRecord(Issues(), RequiresResponse(), Actions())
    }

    /** Each issue is reported exactly when its check fires. */
    lemma IssuesIff()
      ensures "high_connection_pool_utilization" in Issues() <==> poolHigh
      ensures "slow_query_performance" in Issues() <==> slowQueries
      ensures "database_blocking" in Issues() <==> blocking
      ensures "excessive_slow_queries" in Issues() <==> excessiveSlowQueries
    {
    }
  }

  /** A response is needed exactly when one of the four checks fires. */
  lemma RequiresResponseIff(v: Verdict)
    ensures v.RequiresResponse() <==> v.poolHigh || v.slowQueries || v.blocking || v.excessiveSlowQueries
  {
    v.IssuesIff();
    if v.poolHigh { assert "high_connection_pool_utilization" in v.Issues(); }
    if v.slowQueries { assert "slow_query_performance" in v.Issues(); }
    if v.blocking { assert "database_blocking" in v.Issues(); }
    if v.excessiveSlowQueries { assert "excessive_slow_queries" in v.Issues(); }
  }

  function AnalysisRecord(issues: seq<string>, requiresResponse: bool, actions: seq<string>): Dict<Value> {
    [("performance_issues", StrList(issues)),
     ("requires_response", VBool(requiresResponse)),
     ("confidence_score", VFloat(0.92)),
     ("recommended_actions", StrList(actions))]
  }

  lemma AnalysisRecordActions(issues: seq<string>, requiresResponse: bool, actions: seq<string>)
    ensures Get(AnalysisRecord(issues, requiresResponse, actions), "recommended_actions") == Some(StrList(actions))
  {
    GetFirst(AnalysisRecord(issues, requiresResponse, actions), 3);
  }

  /**
   * `_analyze_database_performance`: the pool ratio uses true division,
   * so an empty pool (`max` 0) raises.
   */
  function Analyze(m: DatabaseMetrics, q: QueryReport): (r: Result<Verdict, string>)
    ensures r.Success? <==> m.poolMax != 0
    ensures r.Success? ==>
      && (r.value.poolHigh <==> (m.poolActive as real) / (m.poolMax as real) > 0.8)
      && (r.value.slowQueries <==> m.avgExecTimeMs > 1000)
      && (r.value.blocking <==> m.blockingSessions > 0)
      && (r.value.excessiveSlowQueries <==> |q.slowQueries| > 5)
  {
    if m.poolMax == 0 then Failure("division by zero")
    else Success(Verdict((m.poolActive as real) / (m.poolMax as real) > 0.8, m.avgExecTimeMs > 1000,
                         m.blockingSessions > 0, |q.slowQueries| > 5))
  }

  /**
   * With the shipped fixtures only the blocking check fires (45/100 is not
   * above 0.8, 125 ms is not above 1000, 2 slow queries are not more than 5),
   * so a response is required and the actions are monitor, monitor,
   * resolve_locks.
   */
  lemma FixtureAnalysis()
    ensures Analyze(MetricsReading, QueryReading).Success?
    ensures var v := Analyze(MetricsReading, QueryReading).value;
      && v.Issues() == ["database_blocking"]
      && v.RequiresResponse()
      && v.Actions() == ["monitor", "monitor", "resolve_locks"]
  {
    var v := Analyze(MetricsReading, QueryReading).value;
    assert !v.poolHigh && !v.slowQueries && v.blocking && !v.excessiveSlowQueries;
  }

  function Findings(m: DatabaseMetrics, q: QueryReport, v: Verdict, now: string): Value {
    VDict([("raw_data", VDict([("metrics", MetricsValue(m)), ("query_analysis", QueryValue(q))])),
           ("analysis_result", VDict(v.Record())),
           ("timestamp", VStr(now)),
           ("specialist_id", VStr(AgentId))])
  }

  /** The state after a successful analysis. */
  function Analysed(s: Snapshot, now: string, findings: Value, v: Verdict): Snapshot {
    var s1 := s.(specialistFindings := Put(s.specialistFindings, "database_analysis", findings));
    var s2 := Logged(s1, now, AgentId, "Database analysis complete. Performance issues: " + Str(StrList(v.Issues())), None);
    if v.RequiresResponse() then s2.(currentAgent := Some("response-squad"), workflowStatus := Some("analysis_requires_response"))
    else s2.(workflowStatus := Some("database_analysis_complete"), currentAgent := Some(End))
  }

  /** The state after the guarded block raised. */
  function Aborted(s: Snapshot, now: string, error: string): Snapshot {
    Logged(s, now, AgentId, "Error in database analysis: " + error, None)
      .(workflowStatus := Some("database_analysis_complete"), currentAgent := Some(End))
  }

  /** The guarded block of `execute`. */
  function Analysis(env: Env, s: Snapshot): Result<Snapshot, string> {
    var m :- Call(env, DatabaseMetricsTool, MetricsReading);
    var q :- Call(env, QueryAnalyzerTool, QueryReading);
    var v :- Analyze(m, q);
    Success(Analysed(s, env.now, Findings(m, q, v, env.now), v))
  }

  /** `DatabasePerformanceSpecialist.execute`; it never raises. */
  function AfterDatabase(env: Env, s: Snapshot): Snapshot {
    var s1 := Logged(s, env.now, AgentId, "Starting database performance analysis", None);
    match Analysis(env, s1)
    case Success(r) => r
    case Failure(e) => Aborted(s1, env.now, e)
  }

  /** A successful analysis hands a required response to the response squad, and otherwise ends the run. */
  lemma AnalysedRoutes(s: Snapshot, now: string, findings: Value, v: Verdict)
    ensures var r := Analysed(s, now, findings, v);
      && Get(r.specialistFindings, "database_analysis") == Some(findings)
      && Logs(r) == Logs(s) + [LogEntry(now, AgentId, "system",
                                        "Database analysis complete. Performance issues: " + Str(StrList(v.Issues())),
                                        s.incident.incidentId)]
      && (v.RequiresResponse() ==> r.currentAgent == Some("response-squad") && r.workflowStatus == Some("analysis_requires_response"))
      && (!v.RequiresResponse() ==> r.currentAgent == Some(End) && r.workflowStatus == Some("database_analysis_complete"))
  {
  }

  /**
   * The monitor logs its start and one more entry, then hands a required
   * response to the response squad; in every other case (no response
   * required, a tool raising, or an empty pool) it declares the database
   * analysis complete and ends the run.
   */
  lemma AfterDatabaseSpec(env: Env, s: Snapshot)
    ensures var r := AfterDatabase(env, s);
      var responds := DatabaseMetricsTool !in env.toolErrors && QueryAnalyzerTool !in env.toolErrors
        && Analyze(MetricsReading, QueryReading).Success? && Analyze(MetricsReading, QueryReading).value.RequiresResponse();
      && |Logs(r)| == |Logs(s)| + 2
      && Logs(r)[|Logs(s)|] == LogEntry(env.now, AgentId, "system", "Starting database performance analysis", s.incident.incidentId)
      && (responds ==> r.currentAgent == Some("response-squad") && r.workflowStatus == Some("analysis_requires_response"))
      && (!responds ==> r.currentAgent == Some(End) && r.workflowStatus == Some("database_analysis_complete"))
  {
    var s1 := Logged(s, env.now, AgentId, "Starting database performance analysis", None);
    var m := Call(env, DatabaseMetricsTool, MetricsReading);
    var q := Call(env, QueryAnalyzerTool, QueryReading);
    if m.Success? && q.Success? && Analyze(m.value, q.value).Success? {
      var v := Analyze(m.value, q.value).value;
      AnalysedRoutes(s1, env.now, Findings(m.value, q.value, v, env.now), v);
    }
  }

  /**
   * Any exception in the guarded block (the first tool that raises, or the
   * division by an empty pool) is logged as an error, after which the
   * database analysis is complete and the run ends.
   */
  lemma AfterDatabaseRaises(env: Env, s: Snapshot)
    ensures var s1 := Logged(s, env.now, AgentId, "Starting database performance analysis", None);
      var error := if DatabaseMetricsTool in env.toolErrors then env.toolErrors[DatabaseMetricsTool]
                   else if QueryAnalyzerTool in env.toolErrors then env.toolErrors[QueryAnalyzerTool]
                   else "division by zero";
      var raises := DatabaseMetricsTool in env.toolErrors || QueryAnalyzerTool in env.toolErrors
                    || Analyze(MetricsReading, QueryReading).Failure?;
      raises ==>
        && AfterDatabase(env, s) == Aborted(s1, env.now, error)
        && Logs(AfterDatabase(env, s)) == Logs(s1) + [LogEntry(env.now, AgentId, "system", "Error in database analysis: " + error, s.incident.incidentId)]
        && AfterDatabase(env, s).currentAgent == Some(End)
        && AfterDatabase(env, s).workflowStatus == Some("database_analysis_complete")
  {
  }

  /** With working tools the shipped fixtures send every database incident on to the response squad. */
  lemma FixtureRequiresResponse(env: Env, s: Snapshot)
    requires DatabaseMetricsTool !in env.toolErrors && QueryAnalyzerTool !in env.toolErrors
    ensures AfterDatabase(env, s).currentAgent == Some("response-squad")
    ensures AfterDatabase(env, s).workflowStatus == Some("analysis_requires_response")
  {
    FixtureAnalysis();
  }

  // ---- in place ----

  method ApplyAnalysis(st: State, now: string, analysis: Value, v: Verdict)
    modifies st
    ensures st.Snap() == Analysed(old(st.Snap()), now, analysis, v)
  {
    var findings := Put(st.specialistFindings, "database_analysis", analysis);
    var message := "Database analysis complete. Performance issues: " + Str(StrList(v.Issues()));
    st.specialistFindings := findings;
    st.LogCommunication(now, AgentId, message, None);
    if v.RequiresResponse() {
      st.currentAgent := Some("response-squad");
      st.workflowStatus := Some("analysis_requires_response");
    } else {
      st.workflowStatus := Some("database_analysis_complete");
      st.currentAgent := Some(End);
    }
  }

  method Abort(st: State, now: string, error: string)
    modifies st
    ensures st.Snap() == Aborted(old(st.Snap()), now, error)
  {
    st.LogCommunication(now, AgentId, "Error in database analysis: " + error, None);
    st.workflowStatus := Some("database_analysis_complete");
    st.currentAgent := Some(End);
  }

  /** The rest of the guarded block once both readings are in hand. */
  method Conclude(st: State, now: string, m: DatabaseMetrics, q: QueryReport)
    modifies st
    ensures Analyze(m, q).Success? ==>
      st.Snap() == Analysed(old(st.Snap()), now, Findings(m, q, Analyze(m, q).value, now), Analyze(m, q).value)
    ensures Analyze(m, q).Failure? ==> st.Snap() == Aborted(old(st.Snap()), now, Analyze(m, q).error)
  {
    var v := Analyze(m, q);
    if v.Failure? {
      Abort(st, now, v.error);
      return;
    }
    ApplyAnalysis(st, now, Findings(m, q, v.value, now), v.value);
  }

  /** `DatabasePerformanceSpecialist.execute`, in place. */
  method Execute(st: State, env: Env)
    modifies st
    ensures st.Snap() == AfterDatabase(env, old(st.Snap()))
  {
    st.LogCommunication(env.now, AgentId, "Starting database performance analysis", None);
    var m := Call(env, DatabaseMetricsTool, MetricsReading);
    if m.Failure? {
      Abort(st, env.now, m.error);
      return;
    }
    var q := Call(env, QueryAnalyzerTool, QueryReading);
    if q.Failure? {
      Abort(st, env.now, q.error);
      return;
    }
    Conclude(st, env.now, m.value, q.value);
  }
}
