// The compute monitor (src/agents/specialists/compute.py): threshold rules
// over the Prometheus CPU and memory readings, or the compute analysis
// model with those rules as its fallback.
module ComputeMonitor {
  import opened Wrappers
  import opened Dicts
  import opened Values
  import opened Text
  import opened RunState
  import opened Config
  import opened Monitoring
  import opened Infrastructure

  const AgentId := "compute-monitor"
  const StartMessage := "🤖 Starting autonomous compute analysis with GPT-4"

  /** Some host's current CPU utilisation is above 85 percent. */
  predicate CpuCritical(m: PrometheusReport) {
    exists i :: 0 <= i < |m.cpuMetrics| && m.cpuMetrics[i].1.currentUtilization > 85.0
  }

  /** Some host's current memory utilisation is above 90 percent. */
  predicate MemoryCritical(m: PrometheusReport) {
    exists i :: 0 <= i < |m.memoryMetrics| && m.memoryMetrics[i].1.currentUtilization > 90.0
  }

  function Issues(cpu: bool, memory: bool): (r: seq<string>)
    ensures "high_cpu_utilization" in r <==> cpu
    ensures "high_memory_utilization" in r <==> memory
    ensures |r| == (if cpu then 1 else 0) + (if memory then 1 else 0)
    ensures cpu && memory ==> r == ["high_cpu_utilization", "high_memory_utilization"]
  {
    (if cpu then ["high_cpu_utilization"] else []) + (if memory then ["high_memory_utilization"] else [])
  }

  function Actions(cpu: bool, memory: bool): (r: seq<string>)
    ensures |r| == 2
    ensures r[0] == (if cpu then "scale_resources" else "monitor")
    ensures r[1] == (if memory then "memory_cleanup" else "monitor")
  {
    [if cpu then "scale_resources" else "monitor", if memory then "memory_cleanup" else "monitor"]
  }

  /** The shape of the record `_fallback_analysis` returns. */
  function AnalysisRecord(issues: seq<string>, cpu: bool, memory: bool, actions: seq<string>): Dict<Value> {
    [("issues", StrList(issues)),
     ("cpu_status", VStr(if cpu then "critical" else "normal")),
     ("memory_status", VStr(if memory then "critical" else "normal")),
     ("requires_response", VBool(cpu || memory)),
     ("confidence_score", VFloat(0.8)),
     ("recommended_actions", StrList(actions)),
     ("reasoning", VStr("Fallback deterministic analysis based on threshold rules")),
     ("severity", VStr(if cpu || memory then "high" else "low"))]
  }

  lemma AnalysisRecordIssues(issues: seq<string>, cpu: bool, memory: bool, actions: seq<string>)
    ensures Get(AnalysisRecord(issues, cpu, memory, actions), "issues") == Some(StrList(issues))
  {
  }

  lemma AnalysisRecordResponse(issues: seq<string>, cpu: bool, memory: bool, actions: seq<string>)
    ensures Get(AnalysisRecord(issues, cpu, memory, actions), "requires_response") == Some(VBool(cpu || memory))
  {
    GetFirst(AnalysisRecord(issues, cpu, memory, actions), 3);
  }

  lemma AnalysisRecordActions(issues: seq<string>, cpu: bool, memory: bool, actions: seq<string>)
    ensures Get(AnalysisRecord(issues, cpu, memory, actions), "recommended_actions") == Some(StrList(actions))
  {
    GetFirst(AnalysisRecord(issues, cpu, memory, actions), 5);
  }

  /** `_fallback_analysis` as a record: the verdict of the two threshold checks. */
  datatype Verdict = Verdict(cpu: bool, memory: bool) {
    predicate RequiresResponse() { cpu || memory }

    function Record(): Dict<Value> {
      AnalysisRecord(Issues(cpu, memory), cpu, memory, Actions(cpu, memory))
    }
  }

  function FallbackAnalysis(m: PrometheusReport): Verdict {
    Verdict(CpuCritical(m), MemoryCritical(m))
  }

  /**
   * What the response squad and the router read from the fallback record:
   * the issues, whether a response is needed (either check critical) and
   * the two recommended actions.
   */
  lemma VerdictRecordFields(v: Verdict)
    ensures Get(v.Record(), "issues") == Some(StrList(Issues(v.cpu, v.memory)))
    ensures Get(v.Record(), "requires_response") == Some(VBool(v.cpu || v.memory))
    ensures Get(v.Record(), "recommended_actions") == Some(StrList(Actions(v.cpu, v.memory)))
  {
    AnalysisRecordIssues(Issues(v.cpu, v.memory), v.cpu, v.memory, Actions(v.cpu, v.memory));
    AnalysisRecordResponse(Issues(v.cpu, v.memory), v.cpu, v.memory, Actions(v.cpu, v.memory));
    AnalysisRecordActions(Issues(v.cpu, v.memory), v.cpu, v.memory, Actions(v.cpu, v.memory));
  }

  /**
   * Under the shipped Prometheus fixture a host is CPU-critical exactly when
   * its name contains "high" (85.5 is above 85).
   */
  lemma FixtureCpuCritical(hosts: seq<string>, now: string)
    ensures CpuCritical(PrometheusMetricsCollector(hosts, now)) <==> exists h :: h in hosts && Contains(h, "high")
  {
    var cpu := PrometheusMetricsCollector(hosts, now).cpuMetrics;
    if i :| 0 <= i < |cpu| && cpu[i].1.currentUtilization > 85.0 {
      FromKeysAt(hosts, CpuReading, i);
      assert Contains(cpu[i].0, "high");
    }
    if h :| h in hosts && Contains(h, "high") {
      assert h in Keys(cpu);
      var i :| 0 <= i < |cpu| && Keys(cpu)[i] == h;
      FromKeysAt(hosts, CpuReading, i);
      assert cpu[i].1.currentUtilization == 85.5;
    }
  }

  /** Under the shipped fixture memory is never critical (89.1 is not above 90). */
  lemma FixtureMemoryNeverCritical(hosts: seq<string>, now: string)
    ensures !MemoryCritical(PrometheusMetricsCollector(hosts, now))
  {
    var memory := PrometheusMetricsCollector(hosts, now).memoryMetrics;
    forall i | 0 <= i < |memory| ensures memory[i].1.currentUtilization <= 90.0 {
      FromKeysAt(hosts, MemoryReading, i);
    }
  }

  /** The findings entry of the deterministic path. */
  function DeterministicFindings(metrics: PrometheusReport, ssh: Value, now: string): Value {
    VDict([("metrics", PrometheusValue(metrics)),
           ("ssh_analysis", ssh),
           ("analysis_result", VDict(FallbackAnalysis(metrics).Record())),
           ("analysis_method", VStr("deterministic")),
           ("timestamp", VStr(now))])
  }

  /** Recording a compute analysis and logging it. */
  function Recorded(s: Snapshot, now: string, findings: Value, message: string): (r: Snapshot)
    ensures Get(r.specialistFindings, "compute_analysis") == Some(findings)
    ensures Logs(r) == Logs(s) + [LogEntry(now, AgentId, "system", message, s.incident.incidentId)]
    ensures r.(specialistFindings := s.specialistFindings, communicationLogs := s.communicationLogs) == s
  {
    Logged(s.(specialistFindings := Put(s.specialistFindings, "compute_analysis", findings)), now, AgentId, message, None)
  }

  function DeterministicMessage(v: Verdict): string {
    "Compute analysis complete. Issues found: " + Str(StrList(Issues(v.cpu, v.memory)))
  }

  /**
   * `_deterministic_analysis`: nothing happens without affected systems; a
   * tool that raises is not caught.
   */
  function AfterDeterministicAnalysis(env: Env, s: Snapshot): Result<Snapshot, string> {
    var systems := s.incident.affectedSystems;
    if systems == [] then Success(s)
    else
      var metrics :- Call(env, PrometheusTool, PrometheusMetricsCollector(systems, env.now));
      var ssh :- Call(env, SshTool, SshReading);
      Success(DeterministicOutcome(s, env.now, metrics, ssh))
  }

  /** The state after a deterministic analysis of the readings. */
  function DeterministicOutcome(s: Snapshot, now: string, metrics: PrometheusReport, ssh: Value): Snapshot {
    var v := FallbackAnalysis(metrics);
    var s1 := Recorded(s, now, DeterministicFindings(metrics, ssh, now), DeterministicMessage(v));
    if v.RequiresResponse() then s1.(currentAgent := Some("response-squad"))
    else s1.(workflowStatus := Some("analysis_complete"))
  }

  /**
   * Without affected systems the deterministic analysis changes nothing;
   * otherwise it raises exactly when one of its two tools raises.
   */
  lemma DeterministicAnalysisRaises(env: Env, s: Snapshot)
    ensures s.incident.affectedSystems == [] ==> AfterDeterministicAnalysis(env, s) == Success(s)
    ensures s.incident.affectedSystems != [] ==>
      (AfterDeterministicAnalysis(env, s).Success? <==> PrometheusTool !in env.toolErrors && SshTool !in env.toolErrors)
  {
  }

  /**
   * A deterministic analysis records the findings, logs once, and either
   * hands over to the response squad (leaving the status alone) or
   * declares the analysis complete (leaving the preference alone).
   */
  lemma DeterministicOutcomeSpec(s: Snapshot, now: string, metrics: PrometheusReport, ssh: Value)
    ensures var r := DeterministicOutcome(s, now, metrics, ssh);
      && Get(r.specialistFindings, "compute_analysis") == Some(DeterministicFindings(metrics, ssh, now))
      && |Logs(r)| == |Logs(s)| + 1
      && (FallbackAnalysis(metrics).RequiresResponse() ==>
            r.currentAgent == Some("response-squad") && r.workflowStatus == s.workflowStatus)
      && (!FallbackAnalysis(metrics).RequiresResponse() ==>
            r.workflowStatus == Some("analysis_complete") && r.currentAgent == s.currentAgent)
  {
  }

  function GptValue(a: GptComputeAnalysis): Value {
    VDict([("issues", StrList(a.issues)),
           ("cpu_status", VStr(a.cpuStatus)),
           ("memory_status", VStr(a.memoryStatus)),
           ("requires_response", VBool(a.requiresResponse)),
           ("confidence_score", VFloat(a.confidenceScore)),
           ("recommended_actions", StrList(a.recommendedActions)),
           ("reasoning", VStr(a.reasoning)),
           ("severity", VStr(a.severity))])
  }

  function GptFindings(metrics: PrometheusReport, ssh: Value, a: GptComputeAnalysis, now: string): Value {
    VDict([("raw_metrics", PrometheusValue(metrics)),
           ("raw_ssh_analysis", ssh),
           ("gpt_analysis", GptValue(a)),
           ("analysis_result", GptValue(a)),
           ("analysis_method", VStr("autonomous_gpt4")),
           ("timestamp", VStr(now)),
           ("specialist_id", VStr(AgentId))])
  }

  function GptMessage(a: GptComputeAnalysis): string {
    "🧠 GPT Analysis Complete - Issues: " + StrListRepr(a.issues)
      + ", Confidence: " + Fixed2(a.confidenceScore)
      + ", Reasoning: " + Take(a.reasoning, 100) + "..."
  }

  function FallbackMessage(error: string): string {
    "⚠️ GPT analysis failed: " + error + ", falling back to deterministic analysis"
  }

  /** The guarded part of `_autonomous_analysis`: tools, then the model. */
  function ModelAnalysis(env: Env, ask: ComputePrompt -> Result<GptComputeAnalysis, string>, s: Snapshot): Result<Snapshot, string>
    requires s.incident.affectedSystems != []
  {
    var systems := s.incident.affectedSystems;
    var metrics :- Call(env, PrometheusTool, PrometheusMetricsCollector(systems, env.now));
    var ssh :- Call(env, SshTool, SshReading);
    var a :- ask(ComputePrompt(s.incident, metrics, ssh));
    Success(ModelOutcome(s, env.now, metrics, ssh, a))
  }

  /** The state after the model's analysis of the readings. */
  function ModelOutcome(s: Snapshot, now: string, metrics: PrometheusReport, ssh: Value, a: GptComputeAnalysis): Snapshot {
    var s1 := Recorded(s, now, GptFindings(metrics, ssh, a, now), GptMessage(a));
    if a.requiresResponse
    then s1.(currentAgent := Some("response-squad"), workflowStatus := Some("analysis_requires_response"))
    else s1.(workflowStatus := Some("analysis_complete"))
  }

  /**
   * A successful model analysis records the full findings and logs its
   * summary; a model that asks for a response hands over to the response
   * squad, otherwise the analysis is declared complete and the preference
   * is left alone. Nothing else changes.
   */
  lemma ModelOutcomeSpec(s: Snapshot, now: string, metrics: PrometheusReport, ssh: Value, a: GptComputeAnalysis)
    ensures var r := ModelOutcome(s, now, metrics, ssh, a);
      && Get(r.specialistFindings, "compute_analysis") == Some(GptFindings(metrics, ssh, a, now))
      && Logs(r) == Logs(s) + [LogEntry(now, AgentId, "system", GptMessage(a), s.incident.incidentId)]
      && (a.requiresResponse ==>
            r.currentAgent == Some("response-squad") && r.workflowStatus == Some("analysis_requires_response"))
      && (!a.requiresResponse ==>
            r.workflowStatus == Some("analysis_complete") && r.currentAgent == s.currentAgent)
      && r.(specialistFindings := s.specialistFindings, communicationLogs := s.communicationLogs,
            currentAgent := s.currentAgent, workflowStatus := s.workflowStatus) == s
  {
  }

  /**
   * When both tools answer and the model replies, the autonomous analysis is
   * the start entry followed by the model's outcome; no fallback runs.
   */
  lemma AutonomousSucceeds(env: Env, ask: ComputePrompt -> Result<GptComputeAnalysis, string>, s: Snapshot)
    requires s.incident.affectedSystems != []
    requires PrometheusTool !in env.toolErrors && SshTool !in env.toolErrors
    requires ask(ComputePrompt(s.incident, PrometheusMetricsCollector(s.incident.affectedSystems, env.now), SshReading)).Success?
    ensures var s1 := Logged(s, env.now, AgentId, StartMessage, None);
      var metrics := PrometheusMetricsCollector(s.incident.affectedSystems, env.now);
      var a := ask(ComputePrompt(s.incident, metrics, SshReading)).value;
      AfterAutonomousAnalysis(env, ask, s) == Success(ModelOutcome(s1, env.now, metrics, SshReading, a))
  {
    var s1 := Logged(s, env.now, AgentId, StartMessage, None);
    assert s1.incident == s.incident;
  }

  /** `_autonomous_analysis`: any failure is logged and the deterministic analysis runs instead. */
  function AfterAutonomousAnalysis(env: Env, ask: ComputePrompt -> Result<GptComputeAnalysis, string>, s: Snapshot): Result<Snapshot, string> {
    var s1 := Logged(s, env.now, AgentId, StartMessage, None);
    if s1.incident.affectedSystems == [] then Success(s1)
    else match ModelAnalysis(env, ask, s1)
      case Success(r) => Success(r)
      case Failure(e) => AfterDeterministicAnalysis(env, Logged(s1, env.now, AgentId, FallbackMessage(e), None))
  }

  /** `ComputeMonitorSpecialist.execute`. */
  function AfterCompute(env: Env, s: Snapshot): Result<Snapshot, string> {
    match env.computeAnalysis
    case Deterministic => AfterDeterministicAnalysis(env, s)
    case Autonomous(ask) => AfterAutonomousAnalysis(env, ask, s)
  }

  /**
   * A model that never answers leaves the deterministic result, after the
   * start entry and one failure entry.
   */
  lemma AutonomousFallsBack(env: Env, ask: ComputePrompt -> Result<GptComputeAnalysis, string>, s: Snapshot)
    requires forall p :: ask(p).Failure?
    requires s.incident.affectedSystems != []
    ensures var s1 := Logged(s, env.now, AgentId, StartMessage, None);
      exists e :: AfterAutonomousAnalysis(env, ask, s) == AfterDeterministicAnalysis(env, Logged(s1, env.now, AgentId, FallbackMessage(e), None))
  {
    var s1 := Logged(s, env.now, AgentId, StartMessage, None);
    var m := ModelAnalysis(env, ask, s1);
    if PrometheusTool !in env.toolErrors && SshTool !in env.toolErrors {
      var metrics := PrometheusMetricsCollector(s1.incident.affectedSystems, env.now);
      assert ask(ComputePrompt(s1.incident, metrics, SshReading)).Failure?;
    }
    assert m.Failure?;
    var e := m.error;
    assert AfterAutonomousAnalysis(env, ask, s) == AfterDeterministicAnalysis(env, Logged(s1, env.now, AgentId, FallbackMessage(e), None));
  }

  // ---- in place ----

  method Record(st: State, now: string, findings: Value, message: string)
    modifies st
    ensures st.Snap() == Recorded(old(st.Snap()), now, findings, message)
  {
    var updated := Put(st.specialistFindings, "compute_analysis", findings);
    st.specialistFindings := updated;
    st.LogCommunication(now, AgentId, message, None);
  }

  method DeterministicAnalysis(st: State, env: Env) returns (raised: Option<string>)
    modifies st
    ensures raised.None? <==> AfterDeterministicAnalysis(env, old(st.Snap())).Success?
    ensures raised.Some? ==> raised.value == AfterDeterministicAnalysis(env, old(st.Snap())).error
    ensures raised.None? ==> st.Snap() == AfterDeterministicAnalysis(env, old(st.Snap())).value
  {
    var systems := st.incident.affectedSystems;
    if systems == [] {
      return None;
    }
    var metrics := Call(env, PrometheusTool, PrometheusMetricsCollector(systems, env.now));
    if metrics.Failure? {
      return Some(metrics.error);
    }
    var ssh := Call(env, SshTool, SshReading);
    if ssh.Failure? {
      return Some(ssh.error);
    }
    ApplyDeterministic(st, env.now, metrics.value, ssh.value);
    raised := None;
  }

  method ApplyDeterministic(st: State, now: string, metrics: PrometheusReport, ssh: Value)
    modifies st
    ensures st.Snap() == DeterministicOutcome(old(st.Snap()), now, metrics, ssh)
  {
    var v := FallbackAnalysis(metrics);
    Record(st, now, DeterministicFindings(metrics, ssh, now), DeterministicMessage(v));
    if v.RequiresResponse() {
      st.currentAgent := Some("response-squad");
    } else {
      st.workflowStatus := Some("analysis_complete");
    }
  }

  method ModelAnalysisInPlace(st: State, env: Env, ask: ComputePrompt -> Result<GptComputeAnalysis, string>) returns (failed: Option<string>)
    requires st.incident.affectedSystems != []
    modifies st
    ensures failed.None? <==> ModelAnalysis(env, ask, old(st.Snap())).Success?
    ensures failed.Some? ==> failed.value == ModelAnalysis(env, ask, old(st.Snap())).error && st.Snap() == old(st.Snap())
    ensures failed.None? ==> st.Snap() == ModelAnalysis(env, ask, old(st.Snap())).value
  {
    var systems := st.incident.affectedSystems;
    var metrics := Call(env, PrometheusTool, PrometheusMetricsCollector(systems, env.now));
    if metrics.Failure? {
      return Some(metrics.error);
    }
    var ssh := Call(env, SshTool, SshReading);
    if ssh.Failure? {
      return Some(ssh.error);
    }
    var a := ask(ComputePrompt(st.incident, metrics.value, ssh.value));
    if a.Failure? {
      return Some(a.error);
    }
    ApplyModel(st, env.now, metrics.value, ssh.value, a.value);
    failed := None;
  }

  method ApplyModel(st: State, now: string, metrics: PrometheusReport, ssh: Value, a: GptComputeAnalysis)
    modifies st
    ensures st.Snap() == ModelOutcome(old(st.Snap()), now, metrics, ssh, a)
  {
    Record(st, now, GptFindings(metrics, ssh, a, now), GptMessage(a));
    if a.requiresResponse {
      st.currentAgent := Some("response-squad");
      st.workflowStatus := Some("analysis_requires_response");
    } else {
      st.workflowStatus := Some("analysis_complete");
    }
  }

  /** `ComputeMonitorSpecialist.execute`, in place. */
  method Execute(st: State, env: Env) returns (raised: Option<string>)
    modifies st
    ensures raised.None? <==> AfterCompute(env, old(st.Snap())).Success?
    ensures raised.Some? ==> raised.value == AfterCompute(env, old(st.Snap())).error
    ensures raised.None? ==> st.Snap() == AfterCompute(env, old(st.Snap())).value
  {
    match env.computeAnalysis
    case Deterministic =>
      raised := DeterministicAnalysis(st, env);
    case Autonomous(ask) =>
      st.LogCommunication(env.now, AgentId, StartMessage, None);
      if st.incident.affectedSystems == [] {
        return None;
      }
      var failed := ModelAnalysisInPlace(st, env, ask);
      if failed.Some? {
        st.LogCommunication(env.now, AgentId, FallbackMessage(failed.value), None);
        raised := DeterministicAnalysis(st, env);
      } else {
        raised := None;
      }
  }
}
