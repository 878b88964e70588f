// The response squad (src/agents/squads/response.py): it turns the
// specialists' findings into a remediation plan, either by asking the
// planning model or by the fixed fallback, and hands the plan to the
// response specialist for the incident's category.
module ResponseSquad {
  import opened Wrappers
  import opened Dicts
  import opened Values
  import opened Text
  import opened Enums
  import opened Incidents
  import opened RunState
  import opened Config

  const AgentId := "response-squad"
  const StartMessage := "🤖 Starting autonomous remediation planning with GPT-4"
  const NoFindings := "No specialist findings available"
  const I16 := "                "

  /** `_requires_approval`. */
  function RequiresApproval(severity: Severity): (r: bool)
    ensures r <==> severity.Value() in {"high", "critical"}
  {
    severity == High || severity == Critical
  }

  /**
   * The category-to-specialist table of `_deterministic_planning` and
   * `_determine_specialist` (the two are the same table, and the risk test
   * in the latter returns the same entry on both branches).
   */
  function SpecialistFor(category: Option<Category>): (r: string)
    ensures category.None? ==> r == "compute-resource-specialist"
    ensures r in {"compute-resource-specialist", "storage-response-specialist", "network-response-specialist",
                  "database-response-specialist"}
            <==> !(category == Some(ApplicationPerformance) || category == Some(SecurityIncident))
  {
    match category
    case None => "compute-resource-specialist"
    case Some(c) =>
      match c
      case CpuUtilization => "compute-resource-specialist"
      case MemoryUtilization => "compute-resource-specialist"
      case DiskUtilization => "storage-response-specialist"
      case NetworkConnectivity => "network-response-specialist"
      case DatabasePerformance => "database-response-specialist"
      case ApplicationPerformance => "application-response-specialist"
      case SecurityIncident => "security-response-specialist"
      case BackupFailure => "storage-response-specialist"
  }

  predicate MentionsProd(systems: seq<string>) {
    exists i :: 0 <= i < |systems| && Contains(Lower(systems[i]), "prod")
  }

  /** `_assess_business_context`. */
  function BusinessContextFor(incident: IncidentData): (r: BusinessContext)
    ensures r.criticality == "critical" <==> RequiresApproval(incident.severity)
    ensures r.criticality == "high" <==> !RequiresApproval(incident.severity) && MentionsProd(incident.affectedSystems)
    ensures r.userImpact == (if RequiresApproval(incident.severity) then "high" else "medium")
    ensures r.sla == "99.9% uptime required" <==> r.criticality == "critical"
  {
    var criticality :=
      if RequiresApproval(incident.severity) then "critical"
      else if MentionsProd(incident.affectedSystems) then "high" else "medium";
    BusinessContext(criticality,
                    if RequiresApproval(incident.severity) then "high" else "medium",
                    if criticality == "critical" then "99.9% uptime required" else "99% uptime required")
  }

  /** `analysis.get(...)` on a finding's analysis, which is assumed to be a dict. */
  function NotADict(v: Value): string {
    "'" + TypeName(v) + "' object has no attribute 'get'"
  }

  function GptSection(kind: string, analysis: Value): Result<string, string> {
    if !analysis.VDict? then Failure(NotADict(analysis))
    else
      var a := analysis.entries;
      var confidence :- FormatFixed2(Get(a, "confidence_score").GetOr(VInt(0)));
      Success("\n" + I16 + Upper(kind) + " ANALYSIS:\n"
              + I16 + "- Issues Found: " + Str(Get(a, "issues").GetOr(VList([]))) + "\n"
              + I16 + "- Confidence: " + confidence + "\n"
              + I16 + "- Severity: " + Str(Get(a, "severity").GetOr(VStr("unknown"))) + "\n"
              + I16 + "- Recommended Actions: " + Str(Get(a, "recommended_actions").GetOr(VList([]))) + "\n"
              + I16 + "- Reasoning: " + Str(Get(a, "reasoning").GetOr(VStr("No reasoning provided"))) + "\n"
              + I16)
  }

  function ResultSection(kind: string, analysis: Value): Result<string, string> {
    if !analysis.VDict? then Failure(NotADict(analysis))
    else
      var a := analysis.entries;
      Success("\n" + I16 + Upper(kind) + " ANALYSIS:\n"
              + I16 + "- Issues Found: " + Str(Get(a, "issues").GetOr(VList([]))) + "\n"
              + I16 + "- Requires Response: " + Str(Get(a, "requires_response").GetOr(VBool(false))) + "\n"
              + I16 + "- Recommended Actions: " + Str(Get(a, "recommended_actions").GetOr(VList([]))) + "\n"
              + I16)
  }

  /**
   * The section one specialist's findings contribute: the model's analysis
   * when there is one, else the standard analysis, else nothing.
   */
  function FindingSection(entry: (string, Value)): (r: Result<Option<string>, string>)
    ensures entry.1.VDict? && "gpt_analysis" !in Keys(entry.1.entries) && "analysis_result" !in Keys(entry.1.entries)
            ==> r == Success(None)
  {
    var (kind, data) := entry;
    var hasGpt :- HasMember(data, "gpt_analysis");
    if hasGpt then
      var analysis :- Subscript(data, "gpt_analysis");
      var section :- GptSection(kind, analysis);
      Success(Some(section))
    else
      var hasResult :- HasMember(data, "analysis_result");
      if !hasResult then Success(None)
      else
        var analysis :- Subscript(data, "analysis_result");
        var section :- ResultSection(kind, analysis);
        Success(Some(section))
  }

  /** The present values, in order. */
  function Somes(xs: seq<Option<string>>): (r: seq<string>)
    ensures |r| <= |xs|
    ensures (forall i :: 0 <= i < |xs| ==> xs[i].None?) ==> r == []
  {
    if xs == [] then []
    else Somes(xs[..|xs| - 1]) + (if xs[|xs| - 1].Some? then [xs[|xs| - 1].value] else [])
  }

  /** What `_compile_specialist_findings` returns (or raises). */
  function FindingsText(findings: Dict<Value>): Result<string, string> {
    var sections :- MapAll(findings, FindingSection);
    var parts := Somes(sections);
    Success(if parts == [] then NoFindings else Join(parts, "\n"))
  }

  /**
   * Findings that carry neither an analysis from the model nor a standard
   * analysis compile to the placeholder text.
   */
  lemma QuietFindingsText(findings: Dict<Value>)
    requires forall i :: 0 <= i < |findings| ==>
      findings[i].1.VDict? && "gpt_analysis" !in Keys(findings[i].1.entries)
      && "analysis_result" !in Keys(findings[i].1.entries)
    ensures FindingsText(findings) == Success(NoFindings)
  {
    assert forall i :: 0 <= i < |findings| ==> FindingSection(findings[i]) == Success(None);
    var sections := MapAll(findings, FindingSection).value;
    assert forall i :: 0 <= i < |sections| ==> sections[i].None?;
  }

  /** Every present value is kept. */
  lemma {:induction false} SomesHas(xs: seq<Option<string>>, i: nat)
    requires i < |xs| && xs[i].Some?
    ensures xs[i].value in Somes(xs)
    decreases |xs|
  {
    if i < |xs| - 1 {
      assert xs[..|xs| - 1][i] == xs[i];
      SomesHas(xs[..|xs| - 1], i);
    }
  }

  /**
   * Compiling raises exactly when some finding's section does, and the
   * compiled text shows the section of every finding that has one.
   */
  lemma FindingsTextShows(findings: Dict<Value>, i: nat)
    requires i < |findings|
    ensures FindingsText(findings).Success? <==> forall j :: 0 <= j < |findings| ==> FindingSection(findings[j]).Success?
    ensures FindingsText(findings).Success? && FindingSection(findings[i]).value.Some? ==>
      Contains(FindingsText(findings).value, FindingSection(findings[i]).value.value)
  {
    if FindingsText(findings).Success? && FindingSection(findings[i]).value.Some? {
      var sections := MapAll(findings, FindingSection).value;
      assert sections[i] == FindingSection(findings[i]).value;
      SomesHas(sections, i);
      var parts := Somes(sections);
      var k :| 0 <= k < |parts| && parts[k] == sections[i].value;
      JoinContains(parts, "\n", k);
    }
  }

  /** `_compile_specialist_findings`. */
  method CompileFindings(findings: Dict<Value>) returns (r: Result<string, string>)
    ensures r == FindingsText(findings)
  {
    var parts: seq<string> := [];
    ghost var sections: seq<Option<string>> := [];
    var i := 0;
    while i < |findings|
      invariant 0 <= i <= |findings|
      invariant MapAll(findings[..i], FindingSection) == Success(sections)
      invariant parts == Somes(sections)
    {
      var section := FindingSection(findings[i]);
      if section.Failure? {
        MapAllFirstFailure(findings, FindingSection, i);
        return Failure(section.error);
      }
      MapAllExtend(findings, FindingSection, i);
      assert Somes(sections + [section.value]) == Somes(sections) + (if section.value.Some? then [section.value.value] else []) by {
        assert (sections + [section.value])[..|sections|] == sections;
      }
      if section.value.Some? {
        parts := parts + [section.value.value];
      }
      sections := sections + [section.value];
      i := i + 1;
    }
    assert findings[..i] == findings;
    r := Success(if parts == [] then NoFindings else Join(parts, "\n"));
  }

  // ---- deterministic planning ----

  /** The findings `_deterministic_planning` reads: compute, then disk, database, network. */
  function PriorityFindings(findings: Dict<Value>): (r: Option<Value>)
    ensures r.None? <==> "compute_analysis" !in Keys(findings) && "disk_analysis" !in Keys(findings)
                         && "database_analysis" !in Keys(findings) && "network_analysis" !in Keys(findings)
    ensures "compute_analysis" in Keys(findings) ==> r == Get(findings, "compute_analysis")
    ensures "compute_analysis" !in Keys(findings) && "disk_analysis" in Keys(findings) ==> r == Get(findings, "disk_analysis")
    ensures "compute_analysis" !in Keys(findings) && "disk_analysis" !in Keys(findings) && "database_analysis" in Keys(findings)
            ==> r == Get(findings, "database_analysis")
    ensures "compute_analysis" !in Keys(findings) && "disk_analysis" !in Keys(findings) && "database_analysis" !in Keys(findings)
            ==> r == Get(findings, "network_analysis")
  {
    if "compute_analysis" in Keys(findings) then Get(findings, "compute_analysis")
    else if "disk_analysis" in Keys(findings) then Get(findings, "disk_analysis")
    else if "database_analysis" in Keys(findings) then Get(findings, "database_analysis")
    else Get(findings, "network_analysis")
  }

  /**
   * The recommended actions of the chosen findings' analysis, or
   * `["monitor"]` when there is no such finding, analysis or list; raises
   * exactly when the chosen finding, or the analysis it holds, is not a dict.
   */
  function PlannedActions(findings: Dict<Value>): (r: Result<Value, string>)
    ensures PriorityFindings(findings).None? ==> r == Success(StrList(["monitor"]))
    ensures PriorityFindings(findings).Some? ==>
      var f := PriorityFindings(findings).value;
      && (r.Failure? <==> !f.VDict? || !Get(f.entries, "analysis_result").GetOr(VDict([])).VDict?)
      && (r.Success? ==>
            var analysis := Get(f.entries, "analysis_result").GetOr(VDict([]));
            r.value == Get(analysis.entries, "recommended_actions").GetOr(StrList(["monitor"])))
  {
    var analysis :- match PriorityFindings(findings)
      case None => Success(VDict([]))
      case Some(f) => GetOr(f, "analysis_result", VDict([]));
    GetOr(analysis, "recommended_actions", StrList(["monitor"]))
  }

  function DeterministicPlan(actions: Value, severity: Severity): Dict<Value> {
    [("actions", actions),
     ("requires_approval", VBool(RequiresApproval(severity))),
     ("estimated_impact", VStr("medium")),
     ("rollback_plan", VStr("automated_rollback_available")),
     ("plan_method", VStr("deterministic"))]
  }

  /** Recording a plan, logging it and routing to the response specialist. */
  function Planned(s: Snapshot, now: string, plan: Dict<Value>, message: string): (r: Snapshot)
    ensures r.remediationPlan == plan && r.currentAgent == Some(SpecialistFor(s.incident.category))
    ensures Logs(r) == Logs(s) + [LogEntry(now, AgentId, "system", message, s.incident.incidentId)]
    ensures r.(remediationPlan := s.remediationPlan, currentAgent := s.currentAgent, communicationLogs := s.communicationLogs) == s
  {
    var s1 := Logged(s.(remediationPlan := plan), now, AgentId, message, None);
    s1.(currentAgent := Some(SpecialistFor(s.incident.category)))
  }

  /** `_deterministic_planning`: raises only when a finding or its analysis is not a dict. */
  function AfterDeterministicPlanning(now: string, s: Snapshot): Result<Snapshot, string> {
    var actions :- PlannedActions(s.specialistFindings);
    Success(Planned(s, now, DeterministicPlan(actions, s.incident.severity), "Remediation plan created: " + Str(actions)))
  }

  // ---- autonomous planning ----

  function GptPlanRecord(p: GptPlan, now: string): Dict<Value> {
    [("actions", StrList(p.primaryActions)),
     ("secondary_actions", StrList(p.secondaryActions)),
     ("requires_approval", VBool(p.requiresApproval)),
     ("estimated_impact", VStr(p.estimatedImpact)),
     ("estimated_duration", VStr(p.estimatedDuration)),
     ("rollback_plan", VStr(p.rollbackPlan)),
     ("risk_assessment", VStr(p.riskAssessment)),
     ("success_criteria", StrList(p.successCriteria)),
     ("reasoning", VStr(p.reasoning)),
     ("plan_method", VStr("autonomous_gpt4")),
     ("created_at", VStr(now))]
  }

  function GptPlanMessage(p: GptPlan): string {
    "🧠 GPT Remediation Plan Created - Actions: " + StrListRepr(p.primaryActions)
      + ", Risk: " + p.riskAssessment + ", Duration: " + p.estimatedDuration
  }

  function FallbackMessage(error: string): string {
    "⚠️ GPT planning failed: " + error + ", using fallback planning"
  }

  function PlanningPromptFor(incident: IncidentData, findingsText: string): PlanningPrompt {
    PlanningPrompt(incident, findingsText, BusinessContextFor(incident), RequiresApproval(incident.severity))
  }

  /** `_autonomous_planning` after its first log entry, which `s` already holds. */
  function AutonomousPlan(now: string, ask: PlanningPrompt -> Result<GptPlan, string>, s: Snapshot): Result<Snapshot, string> {
    var text :- FindingsText(s.specialistFindings);
    var plan :- ask(PlanningPromptFor(s.incident, text));
    Success(Planned(s, now, GptPlanRecord(plan, now), GptPlanMessage(plan)))
  }

  /** `ResponseSquad.execute`: any failure of the model's path falls back to the fixed plan. */
  function AfterResponse(env: Env, s: Snapshot): Result<Snapshot, string> {
    match env.planning
    case Deterministic => AfterDeterministicPlanning(env.now, s)
    case Autonomous(ask) =>
      var s1 := Logged(s, env.now, AgentId, StartMessage, None);
      match AutonomousPlan(env.now, ask, s1)
      case Success(r) => Success(r)
      case Failure(e) => AfterDeterministicPlanning(env.now, Logged(s1, env.now, AgentId, FallbackMessage(e), None))
  }

  /** The fixed plan carries the given actions, the approval the severity calls for, and says it is deterministic. */
  lemma DeterministicPlanFields(actions: Value, severity: Severity)
    ensures var plan := DeterministicPlan(actions, severity);
      && Get(plan, "actions") == Some(actions)
      && Get(plan, "requires_approval") == Some(VBool(RequiresApproval(severity)))
      && Get(plan, "plan_method") == Some(VStr("deterministic"))
  {
    var plan := DeterministicPlan(actions, severity);
    GetFirst(plan, 4);
  }

  /**
   * The fixed plan raises exactly when the findings cannot be read; it
   * records the planned actions, routes to the category's response
   * specialist and touches nothing else but the log.
   */
  lemma DeterministicPlanningSpec(now: string, s: Snapshot)
    ensures var r := AfterDeterministicPlanning(now, s);
      && (r.Success? <==> PlannedActions(s.specialistFindings).Success?)
      && (r.Success? ==>
            && r.value.remediationPlan == DeterministicPlan(PlannedActions(s.specialistFindings).value, s.incident.severity)
            && r.value.currentAgent == Some(SpecialistFor(s.incident.category))
            && |Logs(r.value)| == |Logs(s)| + 1
            && r.value.(remediationPlan := s.remediationPlan, currentAgent := s.currentAgent,
                        communicationLogs := s.communicationLogs) == s)
  {
  }

  /** The squad raises only when the fallback plan cannot read the findings. */
  lemma AfterResponseRaises(env: Env, s: Snapshot)
    ensures AfterResponse(env, s).Failure? ==> PlannedActions(s.specialistFindings).Failure?
  {
    match env.planning
    case Deterministic => DeterministicPlanningSpec(env.now, s);
    case Autonomous(ask) =>
      var s1 := Logged(s, env.now, AgentId, StartMessage, None);
      if AutonomousPlan(env.now, ask, s1).Failure? {
        DeterministicPlanningSpec(env.now, Logged(s1, env.now, AgentId, FallbackMessage(AutonomousPlan(env.now, ask, s1).error), None));
      }
  }

  /**
   * Whatever the path, the squad routes to the category's response
   * specialist and leaves the workflow status, the findings and the
   * incident alone.
   */
  lemma AfterResponseRoutes(env: Env, s: Snapshot)
    requires AfterResponse(env, s).Success?
    ensures var r := AfterResponse(env, s).value;
      && r.currentAgent == Some(SpecialistFor(s.incident.category))
      && r.workflowStatus == s.workflowStatus
      && r.specialistFindings == s.specialistFindings
      && r.incident == s.incident
  {
    match env.planning
    case Deterministic => DeterministicPlanningSpec(env.now, s);
    case Autonomous(ask) =>
      var s1 := Logged(s, env.now, AgentId, StartMessage, None);
      if AutonomousPlan(env.now, ask, s1).Failure? {
        DeterministicPlanningSpec(env.now, Logged(s1, env.now, AgentId, FallbackMessage(AutonomousPlan(env.now, ask, s1).error), None));
      }
  }

  /** A planner that never answers leaves the fixed plan, with approval required exactly for severe incidents. */
  lemma FallbackPlan(env: Env, s: Snapshot)
    requires FallsBack(env.planning)
    requires AfterResponse(env, s).Success?
    ensures AfterResponse(env, s).value.remediationPlan
            == DeterministicPlan(PlannedActions(s.specialistFindings).value, s.incident.severity)
  {
    match env.planning
    case Deterministic => DeterministicPlanningSpec(env.now, s);
    case Autonomous(ask) =>
      var s1 := Logged(s, env.now, AgentId, StartMessage, None);
      var text := FindingsText(s1.specialistFindings);
      if text.Success? {
        assert ask(PlanningPromptFor(s1.incident, text.value)).Failure?;
      }
      assert AutonomousPlan(env.now, ask, s1).Failure?;
      DeterministicPlanningSpec(env.now, Logged(s1, env.now, AgentId, FallbackMessage(AutonomousPlan(env.now, ask, s1).error), None));
  }

  // ---- in place ----

  method ApplyPlan(st: State, now: string, plan: Dict<Value>, message: string)
    modifies st
    ensures st.Snap() == Planned(old(st.Snap()), now, plan, message)
  {
    var agent := SpecialistFor(st.incident.category);
    st.remediationPlan := plan;
    st.LogCommunication(now, AgentId, message, None);
    st.currentAgent := Some(agent);
  }

  method DeterministicPlanning(st: State, now: string) returns (raised: Option<string>)
    modifies st
    ensures raised.None? <==> AfterDeterministicPlanning(now, old(st.Snap())).Success?
    ensures raised.Some? ==> raised.value == AfterDeterministicPlanning(now, old(st.Snap())).error
    ensures raised.None? ==> st.Snap() == AfterDeterministicPlanning(now, old(st.Snap())).value
  {
    var actions := PlannedActions(st.specialistFindings);
    if actions.Failure? {
      return Some(actions.error);
    }
    ApplyPlan(st, now, DeterministicPlan(actions.value, st.incident.severity), "Remediation plan created: " + Str(actions.value));
    raised := None;
  }

  method AutonomousPlanning(st: State, now: string, ask: PlanningPrompt -> Result<GptPlan, string>) returns (failed: Option<string>)
    modifies st
    ensures failed.None? <==> AutonomousPlan(now, ask, old(st.Snap())).Success?
    ensures failed.Some? ==> failed.value == AutonomousPlan(now, ask, old(st.Snap())).error && st.Snap() == old(st.Snap())
    ensures failed.None? ==> st.Snap() == AutonomousPlan(now, ask, old(st.Snap())).value
  {
    var text := CompileFindings(st.specialistFindings);
    if text.Failure? {
      return Some(text.error);
    }
    var plan := ask(PlanningPromptFor(st.incident, text.value));
    if plan.Failure? {
      return Some(plan.error);
    }
    ApplyPlan(st, now, GptPlanRecord(plan.value, now), GptPlanMessage(plan.value));
    failed := None;
  }

  /** `ResponseSquad.execute`, in place. */
  method Execute(st: State, env: Env) returns (raised: Option<string>)
    modifies st
    ensures raised.None? <==> AfterResponse(env, old(st.Snap())).Success?
    ensures raised.Some? ==> raised.value == AfterResponse(env, old(st.Snap())).error
    ensures raised.None? ==> st.Snap() == AfterResponse(env, old(st.Snap())).value
  {
    match env.planning
    case Deterministic =>
      raised := DeterministicPlanning(st, env.now);
    case Autonomous(ask) =>
      st.LogCommunication(env.now, AgentId, StartMessage, None);
      var failed := AutonomousPlanning(st, env.now, ask);
      if failed.Some? {
        st.LogCommunication(env.now, AgentId, FallbackMessage(failed.value), None);
        raised := DeterministicPlanning(st, env.now);
      } else {
        raised := None;
      }
  }
}
