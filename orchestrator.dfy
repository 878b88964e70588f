// The tribe orchestrator (agent "support-ops-tribe"): it enriches the
// incident with CMDB data and classifies it, routing every incident to the
// diagnostics squad on its deterministic path or wherever the model's
// classification recommends on its autonomous path.
module Orchestrator {
  import opened Wrappers
  import opened Dicts
  import opened Values
  import opened Text
  import opened Enums
  import opened Incidents
  import opened RunState
  import opened Config
  import opened Infrastructure

  const AgentId := "support-ops-tribe"
  const StartMessage := "🤖 Starting autonomous incident classification with GPT-4"
  const NoCmdbData := "No CMDB data available"
  const EnrichmentFailed: Value := VDict([("status", VStr("enrichment_failed"))])

  /** The category the deterministic path classifies by: the incident's, else CPU utilisation. */
  function CategoryOrDefault(c: Option<Category>): (r: string)
    ensures CategoryFromValue(r) == Some(c.GetOr(CpuUtilization))
  {
    if c.Some? then c.value.Value() else "cpu_utilization"
  }

  /** `category_to_squad.get(category, "diagnostics-squad")`: every category goes to diagnostics. */
  function SquadFor(category: string): (r: string)
    ensures r == "diagnostics-squad"
  {
    match category
    case "cpu_utilization" => "diagnostics-squad"
    case "memory_utilization" => "diagnostics-squad"
    case "disk_utilization" => "diagnostics-squad"
    case "network_connectivity" => "diagnostics-squad"
    case "database_performance" => "diagnostics-squad"
    case "application_performance" => "diagnostics-squad"
    case "security_incident" => "diagnostics-squad"
    case "backup_failure" => "diagnostics-squad"
    case _ => "diagnostics-squad"
  }

  /** The impact the deterministic path assesses: high for high or critical incidents, else medium. */
  function BusinessImpact(severity: Severity): (r: string)
    ensures r == (if severity in {High, Critical} then "high" else "medium")
  {
    if severity.Value() in ["high", "critical"] then "high" else "medium"
  }

  /** The classification the deterministic path records. */
  function DeterministicRecord(category: string, severity: Severity): Dict<Value> {
    [("incident_category", VStr(category)),
              ("confidence_score", VFloat(0.95)),
              ("recommended_squad", VStr(SquadFor(category))),
              ("business_impact_assessment", VStr(BusinessImpact(severity))),
              ("next_actions", StrList(["gather_metrics", "analyze_performance"])),
              ("classification_method", VStr("deterministic"))]
  }

  /**
   * The deterministic classification names the category, a confidence of
   * 0.95, the diagnostics squad and the impact the severity implies.
   */
  lemma DeterministicRecordFields(category: string, severity: Severity)
    ensures var d := DeterministicRecord(category, severity);
      Get(d, "incident_category") == Some(VStr(category))
      && Get(d, "confidence_score") == Some(VFloat(0.95))
      && Get(d, "recommended_squad") == Some(VStr("diagnostics-squad"))
      && Get(d, "business_impact_assessment") == Some(VStr(if severity in {High, Critical} then "high" else "medium"))
  {
    var d := DeterministicRecord(category, severity);
    GetFirst(d, 1);
    GetFirst(d, 2);
    GetFirst(d, 3);
  }

  /** The deterministic classification says it is one. */
  lemma DeterministicRecordMethod(category: string, severity: Severity)
    ensures Get(DeterministicRecord(category, severity), "classification_method") == Some(VStr("deterministic"))
  {
    GetFirst(DeterministicRecord(category, severity), 5);
  }

  function DeterministicMessage(category: string): string {
    "Incident classified as " + category + " with " + Fixed2(0.95) + " confidence, routing to " + SquadFor(category)
  }

  /** The CMDB step of the deterministic path: a failure is only printed. */
  function DeterministicEnrichment(env: Env, s: Snapshot): (r: Snapshot)
    ensures s.incident.affectedSystems == [] ==> r == s
    ensures s.incident.affectedSystems != [] ==> Get(r.tribeObservations, "cmdb_data") == Some(if CmdbTool in env.toolErrors then EnrichmentFailed else CmdbValue(CmdbEnrichment(s.incident.affectedSystems[0])))
    ensures forall k :: k != "cmdb_data" ==> Get(r.tribeObservations, k) == Get(s.tribeObservations, k)
    ensures r.(tribeObservations := s.tribeObservations) == s
  {
    var systems := s.incident.affectedSystems;
    if systems == [] then s
    else match Call(env, CmdbTool, CmdbEnrichment(systems[0]))
      case Success(rec) => s.(tribeObservations := Put(s.tribeObservations, "cmdb_data", CmdbValue(rec)))
      case Failure(_) => s.(tribeObservations := Put(s.tribeObservations, "cmdb_data", EnrichmentFailed))
  }

  /**
   * The common end of both classification paths: record the
   * classification, hand over to the chosen squad and log why.
   */
  function Classified(s: Snapshot, now: string, record: Dict<Value>, squad: string, message: string): (r: Snapshot)
    ensures r.incidentClassification == record && r.currentAgent == Some(squad) && r.workflowStatus == Some("classified")
    ensures Logs(r) == Logs(s) + [LogEntry(now, AgentId, "system", message, s.incident.incidentId)]
    ensures r.(incidentClassification := s.incidentClassification, currentAgent := s.currentAgent,
               workflowStatus := s.workflowStatus, communicationLogs := s.communicationLogs) == s
  {
    Logged(s.(incidentClassification := record, currentAgent := Some(squad), workflowStatus := Some("classified")),
           now, AgentId, message, None)
  }

  /** `_deterministic_classification`. */
  function AfterDeterministic(env: Env, s: Snapshot): Snapshot {
    var category := CategoryOrDefault(s.incident.category);
    Classified(DeterministicEnrichment(env, s), env.now, DeterministicRecord(category, s.incident.severity),
               SquadFor(category), DeterministicMessage(category))
  }

  /**
   * The deterministic path always routes to the diagnostics squad with the
   * fixed record, appends exactly one log entry and touches nothing but
   * the CMDB observation, the classification, the routing and the log.
   */
  lemma AfterDeterministicSpec(env: Env, s: Snapshot)
    ensures var r := AfterDeterministic(env, s);
      && r.currentAgent == Some("diagnostics-squad") && r.workflowStatus == Some("classified")
      && r.incidentClassification == DeterministicRecord(CategoryOrDefault(s.incident.category), s.incident.severity)
      && Logs(r) == Logs(s) + [LogEntry(env.now, AgentId, "system", DeterministicMessage(CategoryOrDefault(s.incident.category)), s.incident.incidentId)]
      && r.tribeObservations == DeterministicEnrichment(env, s).tribeObservations
      && r.(tribeObservations := s.tribeObservations, incidentClassification := s.incidentClassification,
            currentAgent := s.currentAgent, workflowStatus := s.workflowStatus, communicationLogs := s.communicationLogs) == s
  {
    var s1 := DeterministicEnrichment(env, s);
    assert Logs(s1) == Logs(s) && s1.incident == s.incident;
  }

  /** The text `_format_dependencies` renders for one dependency. */
  function DependencyLine(dep: Value): (r: Result<string, string>)
    ensures r.Success? <==> dep.VDict?
  {
    if !dep.VDict? then Failure("'" + TypeName(dep) + "' object has no attribute 'get'")
    else
      var service := Get(dep.entries, "service").GetOr(VStr("Unknown"));
      var criticality := Get(dep.entries, "criticality").GetOr(VStr("Unknown"));
      Success("- " + Str(service) + ": " + Str(criticality) + " criticality")
  }

  /** What `_format_dependencies` returns (or raises). */
  function DependencyText(deps: Value): Result<string, string> {
    if !Truthy(deps) then Success("- No dependencies identified")
    else
      var items :- Iterate(deps);
      var lines :- MapAll(items, DependencyLine);
      Success(Join(lines, "\n"))
  }

  /** `_format_dependencies`. */
  method FormatDependencies(deps: Value) returns (r: Result<string, string>)
    ensures r == DependencyText(deps)
  {
    if !Truthy(deps) {
      return Success("- No dependencies identified");
    }
    var items := Iterate(deps);
    if items.Failure? {
      return Failure(items.error);
    }
    var formatted: seq<string> := [];
    var i := 0;
    while i < |items.value|
      invariant 0 <= i <= |items.value|
      invariant MapAll(items.value[..i], DependencyLine) == Success(formatted)
    {
      var line := DependencyLine(items.value[i]);
      if line.Failure? {
        MapAllFirstFailure(items.value, DependencyLine, i);
        return Failure(line.error);
      }
      MapAllExtend(items.value, DependencyLine, i);
      formatted := formatted + [line.value];
      i := i + 1;
    }
    assert items.value[..i] == items.value;
    return Success(Join(formatted, "\n"));
  }

  const I8 := "        "
  const NotAvailable := "CMDB enrichment not available"

  /** `cmdb.get(key, default)` on a CMDB record. */
  function Field(cmdb: Value, key: string, default: Value): (r: Value)
    requires cmdb.VDict?
    ensures key !in Keys(cmdb.entries) ==> r == default
    ensures key in Keys(cmdb.entries) ==> Some(r) == Get(cmdb.entries, key)
  {
    Get(cmdb.entries, key).GetOr(default)
  }

  /** The lines of the text `_format_cmdb_data` renders, indented as its template is. */
  function CmdbLines(application: string, service: string, environment: string, criticality: string,
                     dependencies: string, users: string, revenue: string): seq<string> {
    ["",
     I8 + "APPLICATION CONTEXT:",
     I8 + "- Application: " + application,
     I8 + "- Business Service: " + service,
     I8 + "- Environment: " + environment,
     I8 + "- Business Criticality: " + criticality,
     I8,
     I8 + "SERVICE DEPENDENCIES:",
     I8 + dependencies,
     I8,
     I8 + "USER IMPACT:",
     I8 + "- Affected Users: " + users,
     I8 + "- Revenue Impact: " + revenue,
     I8]
  }

  function CmdbReport(application: string, service: string, environment: string, criticality: string,
                      dependencies: string, users: string, revenue: string): string {
    Join(CmdbLines(application, service, environment, criticality, dependencies, users, revenue), "\n")
  }

  /** What `_format_cmdb_data` returns (or raises). */
  function CmdbText(cmdb: Value): Result<string, string> {
    if !Truthy(cmdb) then Success(NotAvailable)
    else if !cmdb.VDict? then Failure("'" + TypeName(cmdb) + "' object has no attribute 'get'")
    else if Get(cmdb.entries, "status") == Some(VStr("enrichment_failed")) then Success(NotAvailable)
    else
      var context := Field(cmdb, "application_context", VDict([]));
      var application :- GetOr(context, "application_name", VStr("Unknown"));
      var service :- GetOr(context, "business_service", VStr("Unknown"));
      var environment :- GetOr(context, "environment", VStr("Unknown"));
      var criticality := Field(cmdb, "business_criticality", VStr("Unknown"));
      var dependencies :- DependencyText(Field(cmdb, "service_dependencies", VList([])));
      var impact := Field(cmdb, "user_impact_data", VDict([]));
      var users :- GetOr(impact, "affected_users", VStr("Unknown"));
      var revenue :- GetOr(impact, "revenue_impact", VStr("Unknown"));
      Success(CmdbReport(Str(application), Str(service), Str(environment), Str(criticality),
                         dependencies, Str(users), Str(revenue)))
  }

  /** The CMDB record `_format_cmdb_data` renders rather than declining. */
  predicate Reportable(cmdb: Value) {
    Truthy(cmdb) && cmdb.VDict? && Get(cmdb.entries, "status") != Some(VStr("enrichment_failed"))
  }

  /** A rendered report starts on a new line, so it never reads as the refusal. */
  lemma ReportIsNotRefusal(application: string, service: string, environment: string, criticality: string,
                           dependencies: string, users: string, revenue: string)
    ensures CmdbReport(application, service, environment, criticality, dependencies, users, revenue) != NotAvailable
  {
    var lines := CmdbLines(application, service, environment, criticality, dependencies, users, revenue);
    assert Join(lines, "\n") == lines[0] + "\n" + Join(lines[1..], "\n");
    assert Join(lines, "\n")[0] == '\n' != NotAvailable[0];
  }

  /** The text is the refusal exactly when the record is empty or marks a failed enrichment. */
  lemma CmdbTextNotAvailable(cmdb: Value)
    ensures CmdbText(cmdb) == Success(NotAvailable) <==> !Truthy(cmdb) || (cmdb.VDict? && !Reportable(cmdb))
  {
    if Reportable(cmdb) && CmdbText(cmdb).Success? {
      var context := Field(cmdb, "application_context", VDict([]));
      var impact := Field(cmdb, "user_impact_data", VDict([]));
      ReportIsNotRefusal(Str(GetOr(context, "application_name", VStr("Unknown")).value),
                         Str(GetOr(context, "business_service", VStr("Unknown")).value),
                         Str(GetOr(context, "environment", VStr("Unknown")).value),
                         Str(Field(cmdb, "business_criticality", VStr("Unknown"))),
                         DependencyText(Field(cmdb, "service_dependencies", VList([]))).value,
                         Str(GetOr(impact, "affected_users", VStr("Unknown")).value),
                         Str(GetOr(impact, "revenue_impact", VStr("Unknown")).value));
    }
  }

  /**
   * `_format_cmdb_data` raises exactly when a non-empty record is not a
   * dict, or a record it renders holds an application context or user
   * impact that is not a dict, or dependencies it cannot list.
   */
  lemma CmdbTextFails(cmdb: Value)
    ensures CmdbText(cmdb).Failure? <==>
      (Truthy(cmdb) && !cmdb.VDict?)
      || (Reportable(cmdb)
          && (!Field(cmdb, "application_context", VDict([])).VDict?
              || DependencyText(Field(cmdb, "service_dependencies", VList([]))).Failure?
              || !Field(cmdb, "user_impact_data", VDict([])).VDict?))
  {
  }

  /** A report shows every value it is built from, each on a line of its own. */
  lemma CmdbReportShows(application: string, service: string, environment: string, criticality: string,
                        dependencies: string, users: string, revenue: string)
    ensures var text := CmdbReport(application, service, environment, criticality, dependencies, users, revenue);
      && Contains(text, I8 + "- Application: " + application)
      && Contains(text, I8 + "- Business Service: " + service)
      && Contains(text, I8 + "- Environment: " + environment)
      && Contains(text, I8 + "- Business Criticality: " + criticality)
      && Contains(text, I8 + dependencies)
      && Contains(text, I8 + "- Affected Users: " + users)
      && Contains(text, I8 + "- Revenue Impact: " + revenue)
  {
    var lines := CmdbLines(application, service, environment, criticality, dependencies, users, revenue);
    JoinContains(lines, "\n", 2);
    JoinContains(lines, "\n", 3);
    JoinContains(lines, "\n", 4);
    JoinContains(lines, "\n", 5);
    JoinContains(lines, "\n", 8);
    JoinContains(lines, "\n", 11);
    JoinContains(lines, "\n", 12);
  }

  /**
   * A rendered report shows each application and impact field, "Unknown"
   * where the record lacks it, the business criticality and the dependency
   * listing.
   */
  lemma CmdbTextReport(cmdb: Value)
    requires Reportable(cmdb) && CmdbText(cmdb).Success?
    ensures var context := Field(cmdb, "application_context", VDict([]));
      var impact := Field(cmdb, "user_impact_data", VDict([]));
      var text := CmdbText(cmdb).value;
      && context.VDict? && impact.VDict?
      && Contains(text, I8 + "- Application: " + Str(Field(context, "application_name", VStr("Unknown"))))
      && Contains(text, I8 + "- Business Service: " + Str(Field(context, "business_service", VStr("Unknown"))))
      && Contains(text, I8 + "- Environment: " + Str(Field(context, "environment", VStr("Unknown"))))
      && Contains(text, I8 + "- Business Criticality: " + Str(Field(cmdb, "business_criticality", VStr("Unknown"))))
      && Contains(text, I8 + DependencyText(Field(cmdb, "service_dependencies", VList([]))).value)
      && Contains(text, I8 + "- Affected Users: " + Str(Field(impact, "affected_users", VStr("Unknown"))))
      && Contains(text, I8 + "- Revenue Impact: " + Str(Field(impact, "revenue_impact", VStr("Unknown"))))
  {
    var context := Field(cmdb, "application_context", VDict([]));
    var impact := Field(cmdb, "user_impact_data", VDict([]));
    CmdbReportShows(Str(Field(context, "application_name", VStr("Unknown"))),
                    Str(Field(context, "business_service", VStr("Unknown"))),
                    Str(Field(context, "environment", VStr("Unknown"))),
                    Str(Field(cmdb, "business_criticality", VStr("Unknown"))),
                    DependencyText(Field(cmdb, "service_dependencies", VList([]))).value,
                    Str(Field(impact, "affected_users", VStr("Unknown"))),
                    Str(Field(impact, "revenue_impact", VStr("Unknown"))));
  }

  /** `_format_cmdb_data`, listing the dependencies with `_format_dependencies`'s loop. */
  method FormatCmdbData(cmdb: Value) returns (r: Result<string, string>)
    ensures r == CmdbText(cmdb)
  {
    if !Truthy(cmdb) {
      return Success(NotAvailable);
    }
    if !cmdb.VDict? {
      return Failure("'" + TypeName(cmdb) + "' object has no attribute 'get'");
    }
    if Get(cmdb.entries, "status") == Some(VStr("enrichment_failed")) {
      return Success(NotAvailable);
    }
    var context := Field(cmdb, "application_context", VDict([]));
    if !context.VDict? {
      return Failure("'" + TypeName(context) + "' object has no attribute 'get'");
    }
    var application := Field(context, "application_name", VStr("Unknown"));
    var service := Field(context, "business_service", VStr("Unknown"));
    var environment := Field(context, "environment", VStr("Unknown"));
    var criticality := Field(cmdb, "business_criticality", VStr("Unknown"));
    var dependencies := FormatDependencies(Field(cmdb, "service_dependencies", VList([])));
    if dependencies.Failure? {
      return Failure(dependencies.error);
    }
    var impact := Field(cmdb, "user_impact_data", VDict([]));
    if !impact.VDict? {
      return Failure("'" + TypeName(impact) + "' object has no attribute 'get'");
    }
    var users := Field(impact, "affected_users", VStr("Unknown"));
    var revenue := Field(impact, "revenue_impact", VStr("Unknown"));
    r := Success(CmdbReport(Str(application), Str(service), Str(environment), Str(criticality),
                            dependencies.value, Str(users), Str(revenue)));
  }

  /** The classification the autonomous path records from the model's reply. */
  function GptRecord(c: GptClassification, now: string): Dict<Value> {
    [("incident_category", VStr(c.incidentCategory)),
     ("secondary_categories", StrList(c.secondaryCategories)),
     ("confidence_score", VFloat(c.confidenceScore)),
     ("recommended_squad", VStr(c.recommendedSquad)),
     ("business_impact_assessment", VStr(c.businessImpactAssessment)),
     ("urgency_level", VStr(c.urgencyLevel)),
     ("estimated_resolution_time", VStr(c.estimatedResolutionTime)),
     ("next_actions", StrList(c.nextActions)),
     ("reasoning", VStr(c.reasoning)),
     ("similar_incidents", StrList(c.similarIncidents)),
     ("classification_method", VStr("autonomous_gpt4")),
     ("classified_at", VStr(now))]
  }

  function GptMessage(c: GptClassification): string {
    "🧠 GPT Classification Complete - Category: " + c.incidentCategory
      + ", Confidence: " + Fixed2(c.confidenceScore)
      + ", Squad: " + c.recommendedSquad
      + ", Reasoning: " + Take(c.reasoning, 100) + "..."
  }

  function FallbackMessage(error: string): string {
    "⚠️ GPT classification failed: " + error + ", using fallback classification"
  }

  /** The entry the autonomous path logs when the CMDB step fails. */
  function EnrichmentFailureEntry(s: Snapshot, now: string, error: string): LogEntry {
    LogEntry(now, AgentId, "system", "⚠️ CMDB enrichment failed: " + error, s.incident.incidentId)
  }

  function EnrichmentFailure(s: Snapshot, now: string, error: string): (r: Snapshot)
    ensures Get(r.tribeObservations, "cmdb_data") == Some(EnrichmentFailed)
    ensures forall k :: k != "cmdb_data" ==> Get(r.tribeObservations, k) == Get(s.tribeObservations, k)
    ensures Logs(r) == Logs(s) + [EnrichmentFailureEntry(s, now, error)]
    ensures r.(tribeObservations := s.tribeObservations, communicationLogs := s.communicationLogs) == s
  {
    var s1 := Logged(s, now, AgentId, "⚠️ CMDB enrichment failed: " + error, None);
    s1.(tribeObservations := Put(s1.tribeObservations, "cmdb_data", EnrichmentFailed))
  }

  /**
   * The CMDB step of the autonomous path, with the text handed to the
   * model. With no affected system nothing happens. Otherwise the tool's
   * record is stored and rendered; a failure of the tool or of rendering
   * is logged once, recorded as `enrichment_failed` and leaves the model
   * the "no data" text. Only the CMDB observation and the log change.
   */
  function AutonomousEnrichment(env: Env, s: Snapshot): (r: (Snapshot, string))
    ensures s.incident.affectedSystems == [] ==> r == (s, NoCmdbData)
    ensures s.incident.affectedSystems != [] && CmdbTool in env.toolErrors ==>
      && r.1 == NoCmdbData
      && Get(r.0.tribeObservations, "cmdb_data") == Some(EnrichmentFailed)
      && Logs(r.0) == Logs(s) + [EnrichmentFailureEntry(s, env.now, env.toolErrors[CmdbTool])]
    ensures s.incident.affectedSystems != [] && CmdbTool !in env.toolErrors ==>
      var rec := CmdbValue(CmdbEnrichment(s.incident.affectedSystems[0]));
      if CmdbText(rec).Success? then
        && r.1 == CmdbText(rec).value
        && Get(r.0.tribeObservations, "cmdb_data") == Some(rec)
        && Logs(r.0) == Logs(s)
      else
        && r.1 == NoCmdbData
        && Get(r.0.tribeObservations, "cmdb_data") == Some(EnrichmentFailed)
        && Logs(r.0) == Logs(s) + [EnrichmentFailureEntry(s, env.now, CmdbText(rec).error)]
    ensures forall k :: k != "cmdb_data" ==> Get(r.0.tribeObservations, k) == Get(s.tribeObservations, k)
    ensures r.0.(tribeObservations := s.tribeObservations, communicationLogs := s.communicationLogs) == s
  {
    var systems := s.incident.affectedSystems;
    if systems == [] then (s, NoCmdbData)
    else match Call(env, CmdbTool, CmdbEnrichment(systems[0]))
      case Failure(e) => (EnrichmentFailure(s, env.now, e), NoCmdbData)
      case Success(rec) =>
        var s1 := s.(tribeObservations := Put(s.tribeObservations, "cmdb_data", CmdbValue(rec)));
        match CmdbText(CmdbValue(rec))
        case Success(text) => (s1, text)
        case Failure(e) => (EnrichmentFailure(s1, env.now, e), NoCmdbData)
  }

  /** `_autonomous_classification`: the model's routing, or on any failure the deterministic one. */
  function AfterAutonomous(env: Env, ask: ClassificationPrompt -> Result<GptClassification, string>, s: Snapshot): Snapshot {
    var s1 := Logged(s, env.now, AgentId, StartMessage, None);
    var (s2, cmdbText) := AutonomousEnrichment(env, s1);
    match ask(ClassificationPrompt(s2.incident, cmdbText))
    case Failure(e) => AfterDeterministic(env, Logged(s2, env.now, AgentId, FallbackMessage(e), None))
    case Success(c) => Classified(s2, env.now, GptRecord(c, env.now), c.recommendedSquad, GptMessage(c))
  }

  /** `TribeOrchestrator.execute`. */
  function AfterExecute(env: Env, s: Snapshot): Snapshot {
    match env.classification
    case Deterministic => AfterDeterministic(env, s)
    case Autonomous(ask) => AfterAutonomous(env, ask, s)
  }

  /** The autonomous path also ends classified, whatever the model answers. */
  lemma AfterAutonomousClassified(env: Env, ask: ClassificationPrompt -> Result<GptClassification, string>, s: Snapshot)
    ensures AfterAutonomous(env, ask, s).workflowStatus == Some("classified")
  {
    var s1 := Logged(s, env.now, AgentId, StartMessage, None);
    var (s2, cmdbText) := AutonomousEnrichment(env, s1);
    var reply := ask(ClassificationPrompt(s2.incident, cmdbText));
    if reply.Failure? {
      AfterDeterministicSpec(env, Logged(s2, env.now, AgentId, FallbackMessage(reply.error), None));
    }
  }

  /**
   * A model that never answers makes the autonomous path log its failure
   * after the CMDB step and then do exactly what the deterministic path
   * does, which routes to the diagnostics squad.
   */
  lemma AfterAutonomousFallsBack(env: Env, ask: ClassificationPrompt -> Result<GptClassification, string>, s: Snapshot)
    requires forall p :: ask(p).Failure?
    ensures var s2 := AutonomousEnrichment(env, Logged(s, env.now, AgentId, StartMessage, None)).0;
      exists e :: AfterAutonomous(env, ask, s) == AfterDeterministic(env, Logged(s2, env.now, AgentId, FallbackMessage(e), None))
    ensures AfterAutonomous(env, ask, s).currentAgent == Some("diagnostics-squad")
  {
    var s1 := Logged(s, env.now, AgentId, StartMessage, None);
    var (s2, cmdbText) := AutonomousEnrichment(env, s1);
    var reply := ask(ClassificationPrompt(s2.incident, cmdbText));
    assert reply.Failure?;
    var s3 := Logged(s2, env.now, AgentId, FallbackMessage(reply.error), None);
    assert AfterAutonomous(env, ask, s) == AfterDeterministic(env, s3);
    AfterDeterministicSpec(env, s3);
  }

  /** Whichever mode, the workflow leaves the orchestrator classified. */
  lemma AfterExecuteClassified(env: Env, s: Snapshot)
    ensures AfterExecute(env, s).workflowStatus == Some("classified")
  {
    match env.classification
    case Deterministic => AfterDeterministicSpec(env, s);
    case Autonomous(ask) => AfterAutonomousClassified(env, ask, s);
  }

  /**
   * When the model is unavailable or always fails, `execute` ends with the
   * deterministic classification: after the logged failure in autonomous
   * mode, directly otherwise. Either way the record says it is
   * deterministic and the incident goes to the diagnostics squad.
   */
  lemma AfterExecuteFallsBack(env: Env, s: Snapshot)
    requires FallsBack(env.classification)
    ensures env.classification.Deterministic? ==> AfterExecute(env, s) == AfterDeterministic(env, s)
    ensures env.classification.Autonomous? ==>
      var s2 := AutonomousEnrichment(env, Logged(s, env.now, AgentId, StartMessage, None)).0;
      exists e :: AfterExecute(env, s) == AfterDeterministic(env, Logged(s2, env.now, AgentId, FallbackMessage(e), None))
    ensures var r := AfterExecute(env, s);
      && r.currentAgent == Some("diagnostics-squad")
      && r.incidentClassification == DeterministicRecord(CategoryOrDefault(s.incident.category), s.incident.severity)
      && Get(r.incidentClassification, "classification_method") == Some(VStr("deterministic"))
  {
    DeterministicRecordMethod(CategoryOrDefault(s.incident.category), s.incident.severity);
    match env.classification
    case Deterministic => AfterDeterministicSpec(env, s);
    case Autonomous(ask) =>
      AfterAutonomousFallsBack(env, ask, s);
      var s2 := AutonomousEnrichment(env, Logged(s, env.now, AgentId, StartMessage, None)).0;
      var e :| AfterAutonomous(env, ask, s) == AfterDeterministic(env, Logged(s2, env.now, AgentId, FallbackMessage(e), None));
      AfterDeterministicSpec(env, Logged(s2, env.now, AgentId, FallbackMessage(e), None));
  }

  method EnrichDeterministic(st: State, env: Env)
    modifies st
    ensures st.Snap() == DeterministicEnrichment(env, old(st.Snap()))
  {
    var systems := st.incident.affectedSystems;
    if systems != [] {
      var cmdb := Call(env, CmdbTool, CmdbEnrichment(systems[0]));
      if cmdb.Success? {
        st.tribeObservations := Put(st.tribeObservations, "cmdb_data", CmdbValue(cmdb.value));
      } else {
        st.tribeObservations := Put(st.tribeObservations, "cmdb_data", EnrichmentFailed);
      }
    }
  }

  method Classify(st: State, now: string, record: Dict<Value>, squad: string, message: string)
    modifies st
    ensures st.Snap() == Classified(old(st.Snap()), now, record, squad, message)
  {
    st.incidentClassification := record;
    st.currentAgent := Some(squad);
    st.workflowStatus := Some("classified");
    ghost var s1 := st.Snap();
    assert s1 == old(st.Snap()).(incidentClassification := record, currentAgent := Some(squad), workflowStatus := Some("classified"));
    st.LogCommunication(now, AgentId, message, None);
  }

  method DeterministicClassification(st: State, env: Env)
    modifies st
    ensures st.Snap() == AfterDeterministic(env, old(st.Snap()))
  {
    EnrichDeterministic(st, env);
    var category := CategoryOrDefault(st.incident.category);
    Classify(st, env.now, DeterministicRecord(category, st.incident.severity), SquadFor(category), DeterministicMessage(category));
  }

  method FailEnrichment(st: State, now: string, error: string)
    modifies st
    ensures st.Snap() == EnrichmentFailure(old(st.Snap()), now, error)
  {
    st.LogCommunication(now, AgentId, "⚠️ CMDB enrichment failed: " + error, None);
    st.tribeObservations := Put(st.tribeObservations, "cmdb_data", EnrichmentFailed);
  }

  method EnrichAutonomous(st: State, env: Env) returns (cmdbText: string)
    modifies st
    ensures (st.Snap(), cmdbText) == AutonomousEnrichment(env, old(st.Snap()))
  {
    cmdbText := NoCmdbData;
    var systems := st.incident.affectedSystems;
    if systems == [] {
      return;
    }
    var cmdb := Call(env, CmdbTool, CmdbEnrichment(systems[0]));
    if cmdb.Failure? {
      FailEnrichment(st, env.now, cmdb.error);
      return;
    }
    st.tribeObservations := Put(st.tribeObservations, "cmdb_data", CmdbValue(cmdb.value));
    var text := FormatCmdbData(CmdbValue(cmdb.value));
    if text.Success? {
      cmdbText := text.value;
    } else {
      FailEnrichment(st, env.now, text.error);
    }
  }

  method AutonomousClassification(st: State, env: Env, ask: ClassificationPrompt -> Result<GptClassification, string>)
    modifies st
    ensures st.Snap() == AfterAutonomous(env, ask, old(st.Snap()))
  {
    st.LogCommunication(env.now, AgentId, StartMessage, None);
    var cmdbText := EnrichAutonomous(st, env);
    var reply := ask(ClassificationPrompt(st.incident, cmdbText));
    if reply.Failure? {
      st.LogCommunication(env.now, AgentId, FallbackMessage(reply.error), None);
      DeterministicClassification(st, env);
    } else {
      var c := reply.value;
      Classify(st, env.now, GptRecord(c, env.now), c.recommendedSquad, GptMessage(c));
    }
  }

  /** `TribeOrchestrator.execute`, in place. */
  method Execute(st: State, env: Env)
    modifies st
    ensures st.Snap() == AfterExecute(env, old(st.Snap()))
  {
    match env.classification
    case Deterministic => DeterministicClassification(st, env);
    case Autonomous(ask) => AutonomousClassification(st, env, ask);
  }
}
