// What a run depends on besides the state: the clock reading, which mock
// tools raise instead of answering, and, for the three agents that consult
// GPT-4, whether they run their deterministic path or ask an oracle that
// stands for the model (a reply, or the exception the chain raised).
module Config {
  import opened Wrappers
  import opened Values
  import opened Incidents
  import Monitoring
  import DatabaseTools
  import Infrastructure

  datatype Tool =
    | CmdbTool | PrometheusTool | SshTool | DiskTool | NetworkTool
    | DatabaseMetricsTool | QueryAnalyzerTool | StorageCleanupTool

  /** A reply of the incident classification chain (`IncidentClassification`). */
  datatype GptClassification = GptClassification(
    incidentCategory: string, secondaryCategories: seq<string>, confidenceScore: real,
    recommendedSquad: string, businessImpactAssessment: string, urgencyLevel: string,
    estimatedResolutionTime: string, nextActions: seq<string>, reasoning: string,
    similarIncidents: seq<string>)

  /** A reply of the remediation planning chain (`RemediationPlan`). */
  datatype GptPlan = GptPlan(
    primaryActions: seq<string>, secondaryActions: seq<string>, requiresApproval: bool,
    estimatedImpact: string, estimatedDuration: string, rollbackPlan: string,
    riskAssessment: string, successCriteria: seq<string>, reasoning: string)

  /** A reply of the compute analysis chain (`ComputeAnalysisResult`). */
  datatype GptComputeAnalysis = GptComputeAnalysis(
    issues: seq<string>, cpuStatus: string, memoryStatus: string, requiresResponse: bool,
    confidenceScore: real, recommendedActions: seq<string>, reasoning: string, severity: string)

  /** The business context `_assess_business_context` derives for the planning prompt. */
  datatype BusinessContext = BusinessContext(criticality: string, userImpact: string, sla: string)

  datatype ClassificationPrompt = ClassificationPrompt(incident: IncidentData, cmdbData: string)
  datatype PlanningPrompt = PlanningPrompt(
    incident: IncidentData, specialistFindings: string, context: BusinessContext, approvalRequired: bool)
  datatype ComputePrompt = ComputePrompt(
    incident: IncidentData, metrics: Monitoring.PrometheusReport, sshAnalysis: Value)

  /** `autonomous_mode`: False runs the deterministic path; True asks the model. */
  datatype Strategy<-P, R> = Deterministic | Autonomous(ask: P -> Result<R, string>)

  datatype Env = Env(
    now: string,
    toolErrors: map<Tool, string>,
    classification: Strategy<ClassificationPrompt, GptClassification>,
    planning: Strategy<PlanningPrompt, GptPlan>,
    computeAnalysis: Strategy<ComputePrompt, GptComputeAnalysis>)

  /** A strategy that never takes the model's answer: deterministic, or a model that always fails. */
  ghost predicate FallsBack<P(!new), R>(s: Strategy<P, R>) {
    s.Autonomous? ==> forall p :: s.ask(p).Failure?
  }

  /** Calling a tool: its fixed reading, or the exception configured for it. */
  function Call<T>(env: Env, tool: Tool, reading: T): (r: Result<T, string>)
    ensures r.Success? <==> tool !in env.toolErrors
    ensures r.Success? ==> r.value == reading
  {
    if tool in env.toolErrors then Failure(env.toolErrors[tool]) else Success(reading)
  }
}
