# DevOps-Healer incident routing, modelled in Dafny

DevOps-Healer triages an infrastructure incident with a chain of agents.
They share one mutable run-state record (`SupportOpsState`):

- The tribe orchestrator classifies the incident.
- The diagnostics squad picks a monitor for its category.
- The monitor for compute, disk, network or database analyses the (fixed, mock) tool readings.
- The response squad turns the findings into a remediation plan.
- A response specialist executes the plan's actions.

Every stage writes a preference for the next stage (`current_agent`) and a status (`workflow_status`) into the record. A per-stage router picks the successor from them. The chat driver streams the steps and breaks once more than ten have been emitted.

This project models that core:

- **Run state.** `RunState.State` is a class with one field per record key. `Snap()` is its value as a `Snapshot`. Python dicts are insertion-ordered association lists (`Dicts`). Open-ended values are a JSON-like `Value`.
- **Stages.** Each stage is a pure function on snapshots (`AfterDeterministic`, `AfterDiagnostics`, `AfterDisk`, …). Its in-place method (`Execute`) is proved to leave exactly that snapshot, or to raise the same error. Lemmas state what the source promises about each function: routing, fields written, fields untouched, log entries appended, error cases.
- **Model-backed paths.** The model-backed (GPT) primary paths are oracles in `Config.Env` that answer or fail. Their proved contract is the fallback: log the failure, then take the deterministic path.
- **Mock tools.** The tool fixtures are constant functions. A tool's exception is configured in `Env.toolErrors`.
- **Graph.** `Graph` builds the workflow imperatively (`WorkflowBuilder`). The five routers are functions.
- **Engine.** LangGraph itself is not part of this model, so `Engine` writes out the step loop:
  - run a stage;
  - route;
  - checkpoint under the incident id;
  - emit the step;
  - stop at END, at a raising stage, after the driver's bound, or when the router names a stage that was never registered (the step is still checkpointed and emitted; nothing runs after it).

  The loop is generic over the stage runner `run`. `Implements(env, run)` is one contract per registered node, and the engine methods are proved under it.
- **Scenarios.** `Scenarios` derives whole runs from only the node contracts they use:
  - a database incident resolves in exactly five steps;
  - a CPU incident with no affected systems loops on `compute-monitor` until the bound, with either compute analysis (the autonomous one only logs its start on each pass);
  - the application, security and backup categories route to monitors that were never registered, so the run ends after the diagnostics squad's step.
- **Intake.** `Intake` and `IntakeV01` are the two chat front-ends' incident parsers. `Classifiers` is the (unwired) intent classifier.

Where the source and its design description differ, this model follows the source:

- Nothing marks a run `failed`.
- `compute-monitor` re-enters itself when it records nothing.
- `current_agent` starts as `""`, not as the entry stage.

## Model

| member | source | states |
|---|---|---|
| Enums.SeverityFromValue | src/models/enums.py:4-8 | lookup by value finds the one severity whose `.value` is the string, and nothing else |
| Enums.CategoryFromValue | src/models/enums.py:15-23 | lookup by value inverts `.value` over the eight categories |
| Enums.WorkflowStatus.Value | src/models/enums.py:25-30 | only `analysis_complete` ends in `_complete`; `completed` does not |
| Enums.SpecialistTypeFromValue | src/models/enums.py:39-64 | a string is found exactly when some specialist type has it as value |
| Enums.FindSpecialist | src/models/enums.py:39-64 | searching a list holding every member finds the member with the value, or proves there is none |
| Incidents.NewIncident | src/models/incident.py:8-16 | the dataclass defaults: no category, empty description, no systems, symptoms or metadata |
| Incidents.ToDict | src/models/incident.py:18-28 | exactly the eight keys in order; id, timestamp, description, systems, symptoms and metadata copied unchanged; severity by value; a missing category as None |
| Incidents.ToDictInjective | src/models/incident.py:18-28 | two incidents with the same dict are equal, so `to_dict` loses nothing |
| RunState.Recipient | src/agents/base.py:30 | the target when one is given, otherwise `system`, never empty |
| RunState.Logged | src/agents/base.py:23-39 | one entry appended (sender, recipient, verbatim message, the incident's id), the log created if absent, nothing else touched |
| RunState.State.LogCommunication | src/agents/base.py:23-39 | the in-place append leaves exactly the `Logged` snapshot |
| RunState.State.constructor | src/models/state.py:4-33 | the record's fields hold the given snapshot |
| RunState.Initial | chainlit.py:425-441 | the driver's initial state: empty maps and logs, `current_agent` empty, `initialized`, `in_progress` |
| Config.Call | src/agents/specialists/disk.py:26-58 | a tool call returns its fixed reading exactly when that tool is not configured to raise |
| Monitoring.PrometheusMetricsCollector | src/tools/monitoring.py:7-27 | CPU and memory maps keyed by the distinct target hosts, each the host-name-dependent reading |
| Monitoring.DiskUsageAnalyzer | src/tools/monitoring.py:30-43 | every host reports the same three filesystems, whatever the paths asked for |
| Monitoring.NetworkConnectivityTester | src/tools/monitoring.py:46-60 | every host is reported reachable with the healthy link reading |
| Infrastructure.CmdbEnrichment | src/tools/infrastructure.py:47-64 | application `App-<host>`; criticality high and 1500 users iff the lower-cased host contains `prod`, else medium and 50 |
| Remediation.CleanupHasNoStatus | src/tools/infrastructure.py:30-44 | the storage-cleanup record carries no `status` key |
| Graph.RouteFromTribe | src/workflows/graph.py:76-79 | returns `current_agent` verbatim; the default applies only when the key is absent |
| Graph.RouteFromDiagnostics | src/workflows/graph.py:81-84 | returns `current_agent` verbatim; `compute-monitor` only when absent |
| Graph.RouteFromSpecialist | src/workflows/graph.py:86-97 | a `_complete` status ends the run whatever the preference; else response-squad iff preferred, absent or findings exist; else the preference |
| Graph.SpecialistReentersItself | src/workflows/graph.py:94-97 | a stage that prefers itself and recorded nothing is routed back to itself |
| Graph.RouteFromResponse | src/workflows/graph.py:99-102 | returns `current_agent` verbatim; `compute-resource-specialist` only when absent |
| Graph.RouteFromRemediation | src/workflows/graph.py:104-111 | END for every state, resolved or not |
| Graph.WorkflowBuilder.constructor | src/workflows/graph.py:53 | a builder starts with no nodes, edges or entry |
| Graph.WorkflowBuilder.AddNode | src/workflows/graph.py:56-73 | registering a stage appends it and changes nothing else |
| Graph.WorkflowBuilder.AddEntryEdge | src/workflows/graph.py:114 | sets the entry and changes nothing else |
| Graph.WorkflowBuilder.AddConditionalEdges | src/workflows/graph.py:115-133 | appends one router edge and changes nothing else |
| Graph.RegisterStages | src/workflows/graph.py:34-73 | the builder's nodes become the registry, with the three extra specialists when their imports succeed |
| Graph.AddRouters | src/workflows/graph.py:115-133 | the builder's edges become the router table, in the source's order |
| Graph.CreateSupportOpsWorkflow | src/workflows/graph.py:16-138 | the built workflow is the `Wiring` value for the import outcome |
| Graph.RemediationEdges | src/workflows/graph.py:131-133 | one remediation-router edge per extra specialist, in order |
| Graph.RegistryDistinct | src/workflows/graph.py:56-73 | no stage id is registered twice |
| Graph.EdgeKeys | src/workflows/graph.py:115-133 | the stages with an outgoing edge, in the order they are added |
| Graph.EdgesUnique | src/workflows/graph.py:115-133 | every stage has one edge, and the router looked up for it is that edge's |
| Graph.EdgeOrderDistinct | src/workflows/graph.py:115-133 | no stage gets two conditional edges |
| Graph.WiringWellFormed | src/workflows/graph.py:43-114 | entry `tribe_orchestrator`; 8 or 11 stages, exactly the core ones plus, when imported, the extra ones |
| Graph.UnregisteredTargetsMissing | src/workflows/graph.py:56-73 | the application, security and backup monitors and the application and security response specialists are never registered |
| Graph.RouterAssignments | src/workflows/graph.py:115-133 | each registered stage's router is as assigned, and every response specialist's is the remediation router |
| Graph.RegisteredSpecialistsAreTyped | src/models/enums.py:39-64 | every registered monitor and response specialist is a `SpecialistType` value |
| Classifiers.KeywordClassify | src/agents/utils/classifiers.py:67-91 | valid iff the lower-cased description contains one of the 21 keywords |
| Classifiers.ModelClassify | src/agents/utils/classifiers.py:49-65 | valid iff the model answers and its trimmed, lower-cased reply is `yes` or `true`; a failure is an invalid verdict carrying the error |
| Classifiers.DescriptionOf | src/agents/utils/classifiers.py:105-106 | the incident's description, and `""` without an incident |
| Classifiers.KeywordCaseInsensitive | src/agents/utils/classifiers.py:67-91 | keyword mode gives the same verdict for the upper- and lower-cased description |
| Classifiers.KeywordValidExtends | src/agents/utils/classifiers.py:67-91 | a valid description stays valid with text added before or after it |
| Classifiers.MissingIncidentInvalid | src/agents/utils/classifiers.py:101-106 | a missing incident, like an empty description, is invalid in keyword mode |
| Classifiers.ClassifyInputRoutes | src/agents/utils/classifiers.py:101-120 | orchestrator iff valid, fallback handler iff not, status `initialized`, no other field touched |
| Classifiers.KeywordRoutes | src/agents/utils/classifiers.py:101-120 | in keyword mode the orchestrator gets exactly the descriptions naming a keyword |
| Classifiers.FallbackHandlerSpec | src/agents/utils/classifiers.py:122-131 | `non_actionable` and next stage `none`, nothing else touched, idempotent |
| Classifiers.Record | src/agents/utils/classifiers.py:109-115 | the in-place writes leave exactly the recorded verdict |
| Classifiers.ClassifyInput | src/agents/utils/classifiers.py:101-120 | the node leaves the state `AfterClassifyInput` describes |
| Classifiers.FallbackHandler | src/agents/utils/classifiers.py:122-131 | the node leaves the state `AfterFallback` describes |
| Orchestrator.CategoryOrDefault | src/agents/tribe/orchestrator.py:248-252 | the category's value, and `cpu_utilization` when the incident has none |
| Orchestrator.SquadFor | src/agents/tribe/orchestrator.py:255-271 | every category maps to `diagnostics-squad` |
| Orchestrator.BusinessImpact | src/agents/tribe/orchestrator.py:272-276 | `high` for a high or critical severity, `medium` for any other |
| Orchestrator.DeterministicRecordFields | src/agents/tribe/orchestrator.py:266-277 | the record names the category, confidence 0.95, the diagnostics squad, and impact `high` for high or critical severity else `medium` |
| Orchestrator.DeterministicRecordMethod | src/agents/tribe/orchestrator.py:278 | the record's method is `deterministic` |
| Orchestrator.DeterministicEnrichment | src/agents/tribe/orchestrator.py:230-245 | `cmdb_data` written iff there are affected systems: the first host's CMDB record, or `enrichment_failed`; no other observation key and no other field touched |
| Orchestrator.Classified | src/agents/tribe/orchestrator.py:281-288 | record, routing and `classified` written, one entry logged, nothing else touched |
| Orchestrator.AfterDeterministicSpec | src/agents/tribe/orchestrator.py:225-290 | always routes to the diagnostics squad, status `classified`, one log entry, only CMDB, classification, routing and log change |
| Orchestrator.DependencyLine | src/agents/tribe/orchestrator.py:312-322 | a dependency renders iff it is a dict (anything else raises) |
| Orchestrator.FormatDependencies | src/agents/tribe/orchestrator.py:312-322 | the loop yields the placeholder for no dependencies, else one line per dependency or the error |
| Orchestrator.Field | src/agents/tribe/orchestrator.py:299-309 | `.get(key, default)`: the stored value, or the default for a missing key |
| Orchestrator.ReportIsNotRefusal | src/agents/tribe/orchestrator.py:297-310 | a rendered report never equals the "not available" text |
| Orchestrator.CmdbTextNotAvailable | src/agents/tribe/orchestrator.py:292-295 | "CMDB enrichment not available" exactly when the record is falsy or a dict whose status is `enrichment_failed` |
| Orchestrator.CmdbTextFails | src/agents/tribe/orchestrator.py:292-310 | raises exactly when a truthy record is not a dict, or a rendered one has a non-dict application context or user impact, or dependencies that cannot be listed |
| Orchestrator.CmdbReportShows | src/agents/tribe/orchestrator.py:297-310 | the report holds a line for each field and the dependency listing |
| Orchestrator.CmdbTextReport | src/agents/tribe/orchestrator.py:297-310 | a rendered record shows application, service, environment, criticality, users and revenue, each `Unknown` when missing, and the `_format_dependencies` text |
| Orchestrator.FormatCmdbData | src/agents/tribe/orchestrator.py:292-310 | the method, listing dependencies with the `FormatDependencies` loop, returns `CmdbText` |
| Orchestrator.EnrichmentFailure | src/agents/tribe/orchestrator.py:151-155 | a failed lookup records `enrichment_failed`, logs the error once, and touches no other observation key or field |
| Orchestrator.AutonomousEnrichment | src/agents/tribe/orchestrator.py:138-155 | no systems: no text, no change; tool error: `enrichment_failed`, one log entry, no text; else the first host's record stored and its rendered text, or on a rendering error `enrichment_failed`, one entry and no text; only `cmdb_data` and the log change |
| Orchestrator.AfterAutonomousClassified | src/agents/tribe/orchestrator.py:128-223 | the model path, answered or fallen back, ends `classified` |
| Orchestrator.AfterAutonomousFallsBack | src/agents/tribe/orchestrator.py:128-223 | a model that always fails: after the CMDB step one failure entry is logged and the result is exactly the deterministic path's, routed to the diagnostics squad |
| Orchestrator.AfterExecuteClassified | src/agents/tribe/orchestrator.py:120-126 | `execute` never raises and always ends `classified` |
| Orchestrator.AfterExecuteFallsBack | src/agents/tribe/orchestrator.py:120-126 | with no model or a failing one, `execute` gives the deterministic result (after the logged failure in autonomous mode): the fixed record, method `deterministic`, routed to the diagnostics squad |
| Orchestrator.EnrichDeterministic | src/agents/tribe/orchestrator.py:230-245 | the in-place CMDB step leaves the `DeterministicEnrichment` snapshot |
| Orchestrator.Classify | src/agents/tribe/orchestrator.py:281-288 | the in-place writes leave the `Classified` snapshot |
| Orchestrator.DeterministicClassification | src/agents/tribe/orchestrator.py:225-290 | the method leaves the `AfterDeterministic` snapshot |
| Orchestrator.FailEnrichment | src/agents/tribe/orchestrator.py:151-155 | the in-place failure step leaves the `EnrichmentFailure` snapshot |
| Orchestrator.EnrichAutonomous | src/agents/tribe/orchestrator.py:138-155 | state and CMDB text as `AutonomousEnrichment` gives them |
| Orchestrator.AutonomousClassification | src/agents/tribe/orchestrator.py:128-223 | the method leaves the `AfterAutonomous` snapshot |
| Orchestrator.Execute | src/agents/tribe/orchestrator.py:120-126 | the node leaves the `AfterExecute` snapshot |
| Diagnostics.MonitorFor | src/agents/squads/diagnostics.py:46-58 | `compute-monitor` exactly for the categories without an entry of their own |
| Diagnostics.SpecialistsFor | src/agents/squads/diagnostics.py:46-58 | a one-element list for every hashable category; an unhashable one raises |
| Diagnostics.AfterDiagnosticsSpec | src/agents/squads/diagnostics.py:18-44 | raises iff the category is unhashable; else routes to its monitor, records the assignment and time, `diagnostics_coordinating`, appends exactly the coordination entry naming the monitor, nothing else |
| Diagnostics.Execute | src/agents/squads/diagnostics.py:18-44 | raises exactly as `AfterDiagnostics` does, unchanged then, otherwise leaves its snapshot |
| Diagnostics.Coordinate | src/agents/squads/diagnostics.py:27-42 | the in-place writes leave the `Coordinating` snapshot |
| ResponseSquad.RequiresApproval | src/agents/squads/response.py:344-346 | true iff severity is high or critical |
| ResponseSquad.SpecialistFor | src/agents/squads/response.py:228-248 | a missing category gives the compute resource specialist; a registered executor exactly unless the category is application or security |
| ResponseSquad.BusinessContextFor | src/agents/squads/response.py:284-309 | critical iff approval is required; else high iff some system names `prod`; SLA 99.9% iff critical |
| ResponseSquad.FindingSection | src/agents/squads/response.py:252-282 | a finding with neither a model analysis nor a standard analysis contributes nothing |
| ResponseSquad.Somes | src/agents/squads/response.py:252-282 | keeps at most the present sections, none when all are absent |
| ResponseSquad.QuietFindingsText | src/agents/squads/response.py:252-282 | findings carrying no analysis compile to the placeholder text |
| ResponseSquad.CompileFindings | src/agents/squads/response.py:252-282 | the loop yields the `FindingsText` result or its error |
| ResponseSquad.PriorityFindings | src/agents/squads/response.py:199-210 | none iff no compute, disk, database or network finding; otherwise the first present of compute, disk, database, network |
| ResponseSquad.PlannedActions | src/agents/squads/response.py:199-214 | with no finding `["monitor"]`; otherwise the chosen finding's `analysis_result` (default `{}`) `recommended_actions` (default `["monitor"]`), failing exactly when the finding or its `analysis_result` is not a dict |
| ResponseSquad.FindingsTextShows | src/agents/squads/response.py:252-282 | the compiled text fails iff some finding's section fails; otherwise it contains the section of every finding that has one |
| ResponseSquad.DeterministicPlanFields | src/agents/squads/response.py:213-219 | the plan carries the actions, approval per severity and method `deterministic` |
| ResponseSquad.Planned | src/agents/squads/response.py:213-225 | plan replaced, routed to the category's specialist, one entry, nothing else touched |
| ResponseSquad.DeterministicPlanningSpec | src/agents/squads/response.py:191-250 | raises iff the actions cannot be read; else only plan, routing and one log entry change; status untouched |
| ResponseSquad.AfterResponseRaises | src/agents/squads/response.py:101-113 | the squad raises only when the deterministic actions cannot be read |
| ResponseSquad.AfterResponseRoutes | src/agents/squads/response.py:101-113 | on either path it routes to the category's specialist and keeps status, findings and incident |
| ResponseSquad.FallbackPlan | src/agents/squads/response.py:104-111 | with a failing model the plan is the deterministic one |
| ResponseSquad.ApplyPlan | src/agents/squads/response.py:213-225 | the in-place writes leave the `Planned` snapshot |
| ResponseSquad.DeterministicPlanning | src/agents/squads/response.py:191-250 | raises exactly as `AfterDeterministicPlanning` does, otherwise leaves its snapshot |
| ResponseSquad.AutonomousPlanning | src/agents/squads/response.py:115-189 | the model path's result or failure, the state unchanged on failure |
| ResponseSquad.Execute | src/agents/squads/response.py:101-113 | the node raises or leaves the state exactly as `AfterResponse` says |
| ComputeMonitor.Issues | src/agents/specialists/compute.py:311-315 | each issue listed iff its check is critical, CPU before memory |
| ComputeMonitor.Actions | src/agents/specialists/compute.py:323-326 | two actions: scale or monitor, then memory cleanup or monitor |
| ComputeMonitor.AnalysisRecordIssues | src/agents/specialists/compute.py:317-318 | the record's `issues` are the issues given |
| ComputeMonitor.AnalysisRecordResponse | src/agents/specialists/compute.py:321 | a response is required iff either check is critical |
| ComputeMonitor.AnalysisRecordActions | src/agents/specialists/compute.py:323-326 | the record's actions are the actions given |
| ComputeMonitor.VerdictRecordFields | src/agents/specialists/compute.py:297-329 | the fallback record's issues, response flag and actions follow the two checks |
| ComputeMonitor.FixtureCpuCritical | src/tools/monitoring.py:12-20 | under the metrics fixture CPU is critical iff some host name contains `high` |
| ComputeMonitor.FixtureMemoryNeverCritical | src/tools/monitoring.py:12-20 | under the metrics fixture memory is never critical |
| ComputeMonitor.Recorded | src/agents/specialists/compute.py:220-231 | findings stored under `compute_analysis`, one entry logged, nothing else touched |
| ComputeMonitor.DeterministicAnalysisRaises | src/agents/specialists/compute.py:196-239 | no systems leaves the state unchanged; otherwise raises iff one of its two tools raises |
| ComputeMonitor.DeterministicOutcomeSpec | src/agents/specialists/compute.py:234-237 | a required response changes only the preference, to response-squad; otherwise only the status, to `analysis_complete` |
| ComputeMonitor.AutonomousFallsBack | src/agents/specialists/compute.py:186-192 | a failing model gives the deterministic result after start and failure entries |
| ComputeMonitor.Record | src/agents/specialists/compute.py:220-231 | the in-place writes leave the `Recorded` snapshot |
| ComputeMonitor.DeterministicAnalysis | src/agents/specialists/compute.py:196-239 | raises exactly as `AfterDeterministicAnalysis` does, otherwise leaves its snapshot |
| ComputeMonitor.ApplyDeterministic | src/agents/specialists/compute.py:220-237 | the in-place writes leave the `DeterministicOutcome` snapshot |
| ComputeMonitor.ModelAnalysisInPlace | src/agents/specialists/compute.py:113-184 | the model path's result or failure, the state unchanged on failure; on success the `ModelOutcome` snapshot, whose routing `ModelOutcomeSpec` states |
| ComputeMonitor.ApplyModel | src/agents/specialists/compute.py:161-184 | the in-place writes leave the `ModelOutcome` snapshot, whose routing `ModelOutcomeSpec` states |
| ComputeMonitor.ModelOutcomeSpec | src/agents/specialists/compute.py:161-184 | the model's findings are stored and its summary logged; a required response goes to response-squad with `analysis_requires_response`, otherwise `analysis_complete` with the preference kept; nothing else changes |
| ComputeMonitor.AutonomousSucceeds | src/agents/specialists/compute.py:113-184 | with both tools answering and the model replying, the result is the start entry followed by the model's outcome, with no fallback |
| ComputeMonitor.Execute | src/agents/specialists/compute.py:98-104 | the node raises or leaves the state exactly as `AfterCompute` says |
| DiskMonitor.CriticalOnIff | src/agents/specialists/disk.py:70-73 | `host:path` is listed for exactly the filesystems above 90% |
| DiskMonitor.CriticalIff | src/agents/specialists/disk.py:66-84 | over all hosts, exactly the filesystems above 90% are listed |
| DiskMonitor.Verdict.Actions | src/agents/specialists/disk.py:79-82 | cleanup iff something is critical; expand iff more than two are |
| DiskMonitor.Verdict.Severity | src/agents/specialists/disk.py:83 | `high` iff a response is required |
| DiskMonitor.AnalyzeDiskUsage | src/agents/specialists/disk.py:66-84 | the nested loops compute the `Usage` verdict |
| DiskMonitor.ShippedFilesystems | src/tools/monitoring.py:33-40 | under the fixture only `/var/log` is critical on each host |
| DiskMonitor.FixtureCritical | src/tools/monitoring.py:33-40 | one critical filesystem per host, in host order |
| DiskMonitor.FixtureVerdict | src/tools/monitoring.py:30-43 | under the fixture a response is required iff there are hosts; expand iff more than two distinct hosts |
| DiskMonitor.Ended | src/agents/specialists/disk.py:55-62 | one entry logged, `disk_analysis_complete` and END, nothing else touched |
| DiskMonitor.AnalysedRoutes | src/agents/specialists/disk.py:36-53 | findings stored; exactly the summary entry naming the critical filesystems appended; response-squad iff a response is required, else END |
| DiskMonitor.AfterDiskSpec | src/agents/specialists/disk.py:20-64 | start entry first, two entries in all; response-squad iff systems, no tool error and a critical filesystem, else END |
| DiskMonitor.FixtureResponds | src/agents/specialists/disk.py:20-64 | with systems and a working analyzer the fixture always needs a response |
| DiskMonitor.ApplyAnalysis | src/agents/specialists/disk.py:36-53 | the in-place writes leave the `Analysed` snapshot |
| DiskMonitor.Finish | src/agents/specialists/disk.py:55-62 | the in-place writes leave the `Ended` snapshot |
| DiskMonitor.Execute | src/agents/specialists/disk.py:20-64 | the node leaves the `AfterDisk` snapshot and never raises |
| NetworkMonitor.StatusOf | src/agents/specialists/network.py:71-79 | unreachable iff ping failed; else high latency above 100 ms; else packet loss above 5% |
| NetworkMonitor.Verdict.Actions | src/agents/specialists/network.py:87-90 | investigate iff connectivity issues; optimise iff high-latency hosts |
| NetworkMonitor.OneEntryPerHost | src/agents/specialists/network.py:71-79 | each host contributes at most one entry to the two lists |
| NetworkMonitor.FlaggedIff | src/agents/specialists/network.py:71-79 | some entry exists iff some host is not healthy |
| NetworkMonitor.RequiresResponseIff | src/agents/specialists/network.py:84-85 | a response is required iff some host is not healthy |
| NetworkMonitor.UnreachableReported | src/agents/specialists/network.py:72-73 | a failed ping is reported unreachable, whatever latency or loss |
| NetworkMonitor.AnalyzeNetworkHealth | src/agents/specialists/network.py:66-91 | the loop computes the `Health` verdict |
| NetworkMonitor.FixtureHealthy | src/tools/monitoring.py:49-57 | under the fixture no network issue is ever found |
| NetworkMonitor.Ended | src/agents/specialists/network.py:55-62 | one entry logged, `network_analysis_complete` and END, nothing else touched |
| NetworkMonitor.AnalysedRoutes | src/agents/specialists/network.py:34-53 | findings stored; exactly the summary entry naming the connectivity issues appended; response-squad iff a response is required, else END |
| NetworkMonitor.AfterNetworkSpec | src/agents/specialists/network.py:20-64 | response-squad iff systems, no tool error and an issue, else END |
| NetworkMonitor.FixtureEndsRun | src/agents/specialists/network.py:20-64 | with the shipped fixture this stage always ends the run |
| NetworkMonitor.ApplyAnalysis | src/agents/specialists/network.py:34-53 | the in-place writes leave the `Analysed` snapshot |
| NetworkMonitor.Finish | src/agents/specialists/network.py:55-62 | the in-place writes leave the `Ended` snapshot |
| NetworkMonitor.Execute | src/agents/specialists/network.py:20-64 | the node leaves the `AfterNetwork` snapshot and never raises |
| DatabaseMonitor.Verdict.Actions | src/agents/specialists/database.py:109-125 | three actions: optimise queries, scale connections, resolve locks, each or monitor |
| DatabaseMonitor.Verdict.IssuesIff | src/agents/specialists/database.py:86-103 | each issue is reported iff its check fires |
| DatabaseMonitor.RequiresResponseIff | src/agents/specialists/database.py:105-108 | a response is required iff some check fires |
| DatabaseMonitor.AnalysisRecordActions | src/agents/specialists/database.py:105-126 | the record's actions are the actions given |
| DatabaseMonitor.Analyze | src/agents/specialists/database.py:79-126 | fails iff the pool maximum is zero; else pool > 80%, average > 1000 ms, blocking > 0, more than 5 slow queries |
| DatabaseMonitor.FixtureAnalysis | src/tools/database.py:6-40 | the fixtures show only blocking, need a response, and plan monitor, monitor, resolve locks |
| DatabaseMonitor.AnalysedRoutes | src/agents/specialists/database.py:55-70 | findings stored; exactly the summary entry naming the issues appended; response-squad iff a response is required, else `database_analysis_complete` and END |
| DatabaseMonitor.AfterDatabaseSpec | src/agents/specialists/database.py:20-77 | the start entry and one more; response-squad with `analysis_requires_response` iff both tools answer and the verdict requires a response, otherwise `database_analysis_complete` and END |
| DatabaseMonitor.AfterDatabaseRaises | src/agents/specialists/database.py:72-75 | a raising tool or an empty pool logs "Error in database analysis: " with the first error, then `database_analysis_complete` and END |
| DatabaseMonitor.FixtureRequiresResponse | src/agents/specialists/database.py:20-77 | with working tools the fixtures always route to the response squad |
| DatabaseMonitor.ApplyAnalysis | src/agents/specialists/database.py:50-70 | the in-place writes leave the `Analysed` snapshot |
| DatabaseMonitor.Abort | src/agents/specialists/database.py:72-75 | the in-place writes leave the `Aborted` snapshot |
| DatabaseMonitor.Conclude | src/agents/specialists/database.py:46-75 | analysed when the analysis succeeds, aborted with its error otherwise |
| DatabaseMonitor.Execute | src/agents/specialists/database.py:20-77 | the node leaves the `AfterDatabase` snapshot and never raises |
| Remediation.Done | src/agents/specialists/response.py:34-40 | status `completed` with the given verification |
| Remediation.Watching | src/agents/specialists/response.py:41-47 | status `monitoring_active` with the given verification |
| Remediation.Generic | src/agents/specialists/response.py:48-53 | status `completed`, verification `<action>_executed_successfully` |
| Remediation.ComputeOutcome | src/agents/specialists/response.py:25-53 | memory cleanup stores the cleanup record; scale and monitor their fixed results; anything else the generic one |
| Remediation.DatabaseOutcome | src/agents/specialists/database_response.py:21-50 | the three fixes complete with their verifications; monitor watches; anything else generic |
| Remediation.StorageOutcome | src/agents/specialists/storage_response.py:24-49 | log cleanup stores the cleanup record; expand completes; monitor watches; anything else generic |
| Remediation.NetworkOutcome | src/agents/specialists/network_response.py:21-44 | routing and optimisation complete; monitor watches; anything else generic |
| Remediation.Executor.Outcome | src/agents/specialists/response.py:25-53 | an action raises only when the cleanup tool fails for the cleanup action; else its outcome |
| Remediation.ActionKey | src/agents/specialists/response.py:25-53 | an action can key the results iff it is hashable; a string keys as itself, any other action by its text (see Left out) |
| Remediation.CollectKeys | src/agents/specialists/response.py:22-53 | the results' keys are the distinct action keys, first occurrence order |
| Remediation.CollectGet | src/agents/specialists/response.py:22-53 | each key holds the outcome of its action |
| Remediation.StepRaises | src/agents/specialists/response.py:22-53 | one loop step raises iff its action is unhashable or its cleanup fails |
| Remediation.ExecutedRaises | src/agents/specialists/response.py:18-63 | the loop raises iff the actions are not iterable or some step raises |
| Remediation.ExecutedResults | src/agents/specialists/response.py:22-53 | the results hold exactly the distinct planned actions, each with its outcome |
| Remediation.Resolved | src/agents/specialists/response.py:55-61 | results replaced, `resolved` and `completed`, one entry, nothing else touched |
| Remediation.EmptyPlanResolves | src/agents/specialists/response.py:55-57 | a plan without actions still resolves, with no results |
| Remediation.RunActions | src/agents/specialists/response.py:22-53 | the loop computes the `Executed` results or the error |
| Remediation.Resolve | src/agents/specialists/response.py:55-61 | the in-place writes leave the `Resolved` snapshot |
| Remediation.Execute | src/agents/specialists/response.py:18-63 | the node raises or leaves the state exactly as `AfterRemediation` says |
| Intake.SeverityRule | chainlit.py:240-270 | critical beats high beats low; medium when no keyword matches |
| Intake.FirstMatch | chainlit.py:273-329 | the first group with a matching word, or none iff no group matches |
| Intake.FirstMatchAt | chainlit.py:273-329 | a group that matches with no earlier match decides the category |
| Intake.WordsIn | chainlit.py:341-352 | the listed words occurring in the text, in list order |
| Intake.ContainsAnyCovered | chainlit.py:240-270 | a text matching a word list matches every list that covers it |
| Intake.SeverityRuleExtends | chainlit.py:240-270 | appending text never lowers the severity |
| Intake.SeverityRuleCovered | chainlit_v0.1.py:166-184 | larger keyword lists never give a lower severity |
| Intake.FirstMatchCovered | chainlit_v0.1.py:186-217 | larger category groups find a category whenever smaller ones do |
| Intake.NaturalIncidentSpec | chainlit.py:235-363 | description kept; severity, category and symptoms as the keyword rules say |
| Intake.ConnectionIsDatabase | chainlit.py:280 | any text naming `connection` is a database incident |
| Intake.NaturalSeverityExtends | chainlit.py:240-270 | a longer description is never less severe |
| Intake.SeverityOf | chainlit.py:217 | a severity field parses iff it is a known value |
| Intake.CategoryOf | chainlit.py:218-222 | a missing or falsy category is none; a parsed one is the field's value |
| Intake.StructuredIncident | chainlit.py:211-227 | structured parsing succeeds iff severity and category parse |
| Intake.StructuredRoundTrip | chainlit.py:211-227 | an incident's own JSON reads back as itself, stamped with the current time |
| Intake.StructuredDefaults | chainlit.py:211-227 | an empty object gives the generated id, medium severity and empty fields |
| Intake.ParseDispatch | chainlit.py:204-232 | structured iff the trimmed input starts with `{` and decodes and parses; else natural language |
| Intake.PlainTextIsNatural | chainlit.py:204-232 | text not starting with `{` or a space always goes to the natural-language parser |
| IntakeV01.NonEmptyStripped | chainlit_v0.1.py:230 | no longer than the pieces; holds every non-empty trimmed piece and nothing else |
| IntakeV01.Trimmed | chainlit_v0.1.py:230 | each piece trimmed, position by position |
| IntakeV01.NonEmptyStrippedInOrder | chainlit_v0.1.py:230 | the result is the non-empty trimmed pieces at increasing positions covering all of them: order and multiplicity kept |
| IntakeV01.MarkedSymptoms | chainlit_v0.1.py:227-230 | none without the marker; else trimmed, non-empty, delimiter-free, and every non-empty trimmed piece after it |
| IntakeV01.MarkedSymptomsInOrder | chainlit_v0.1.py:227-230 | with the marker, the symptoms are the non-empty trimmed pieces after it in their order, each as often as it occurs |
| IntakeV01.SingleMarkedSymptom | chainlit_v0.1.py:227-230 | text after the marker without delimiters is a single symptom |
| IntakeV01.ParseDispatch | chainlit_v0.1.py:129-157 | structured iff the trimmed input starts with `{` and parses; else the older natural parser |
| IntakeV01.NaturalIncidentSymptoms | chainlit_v0.1.py:160-241 | no marker, no symptoms; every symptom is trimmed, non-empty, delimiter-free |
| IntakeV01.ConnectionIsDatabase | chainlit_v0.1.py:186-217 | any text naming `connection` is a database incident |
| IntakeV01.LaterParserFindsMore | chainlit_v0.1.py:166-217 | the newer rules never give a lower severity, and find a category whenever the older ones do |
| IntakeV01.ShownSymptoms | chainlit_v0.1.py:271-272 | at most three, a prefix, all of them iff there are at most three |
| IntakeV01.SymptomsLineShowsAll | chainlit_v0.1.py:271-272 | no line without symptoms; up to three all listed, no ellipsis |
| IntakeV01.SymptomsLineTruncates | chainlit_v0.1.py:271-272 | more than three: the first three and `...` |
| Engine.MoveFrom | chainlit.py:445-471 | a step continues only to a registered stage below the bound; it is emitted iff its stage did not raise; a raising stage keeps the old state; at the eleventh step only END, the bound or a raise can stop it |
| Engine.RunLength | chainlit.py:445-471 | from step `count` at most `11 - count` more steps; it stops at the bound iff it emits all of them without ending at END; the first is the stage about to run |
| Engine.RunStepsRegistered | chainlit.py:445-471 | every step after the first is a registered stage |
| Engine.RunBounded | chainlit.py:470 | at most 11 steps, exactly that many at the bound; every later step is registered |
| Engine.AllStepsMeansBound | chainlit.py:470 | a run that emits every step and does not end stopped at the bound |
| Engine.ExecutionBounded | chainlit.py:445-471 | a run from the entry has at most 11 registered steps and starts at `tribe_orchestrator` |
| Engine.RemediationEndsRun | src/workflows/graph.py:104-111 | a completed remediation step is the last step |
| Engine.CompletedAnalysisEndsRun | src/workflows/graph.py:92-93 | a specialist leaving a `_complete` status is the last step |
| Engine.FixedPointHitsBound | src/workflows/graph.py:94-97 | a specialist that changes nothing re-enters itself until the bound |
| Engine.IdleStageHitsBound | src/workflows/graph.py:86-97 | a specialist that keeps preferring itself, records nothing and never completes (it may log) re-enters itself until the bound, with that progress kept |
| Engine.CheckpointStore.constructor | chainlit.py:443 | the store starts empty |
| Engine.CheckpointStore.Save | chainlit.py:443 | a save replaces the incident's checkpoint and keeps the others |
| Engine.SaveTwice | chainlit.py:443 | a second save under one id supersedes the first |
| Engine.RunTribe | src/workflows/graph.py:56 | running the orchestrator node follows its contract |
| Engine.RunDiagnostics | src/workflows/graph.py:57 | running the diagnostics node follows its contract |
| Engine.RunResponse | src/workflows/graph.py:58 | running the response squad node follows its contract |
| Engine.RunCompute | src/workflows/graph.py:61 | running the compute monitor node follows its contract |
| Engine.RunDisk | src/workflows/graph.py:62 | running the disk monitor node follows its contract |
| Engine.RunNetwork | src/workflows/graph.py:63 | running the network monitor node follows its contract |
| Engine.RunDatabase | src/workflows/graph.py:64 | running the database monitor node follows its contract |
| Engine.RunExecutor | src/workflows/graph.py:67-73 | running a response specialist node follows its contract |
| Engine.RunSquad | src/workflows/graph.py:56-58 | the three squad ids run as their nodes |
| Engine.RunMonitor | src/workflows/graph.py:61-64 | the four monitor ids run as their nodes |
| Engine.RunOther | src/workflows/graph.py:67-73 | the executor ids run as their nodes; any other id raises |
| Engine.RunStage | src/workflows/graph.py:56-73 | every id runs as the node registered under it |
| Engine.Advance | chainlit.py:445-471 | one step in place gives `MoveFrom`'s move and the state it reports |
| Engine.RunFromContinue | chainlit.py:445-471 | a continuing step adds its stage to the emitted steps |
| Engine.RunFromStep | chainlit.py:445-471 | a stage routed to a registered successor is emitted, then the run goes on there |
| Engine.RunFromStop | chainlit.py:445-471 | a stopping step ends the trace, emitted or not |
| Engine.DriveStep | chainlit.py:445-471 | one loop iteration keeps the rest of the run, and the checkpoint holds the committed state |
| Engine.Drive | chainlit.py:445-471 | the step loop yields the `RunFrom` trace and checkpoints its final state |
| Engine.Stream | chainlit.py:445-471 | streaming from the workflow's entry yields the trace of the run |
| Engine.ExecuteWorkflow | chainlit.py:418-471 | the driver's run of an incident is `Execution`, its final state checkpointed under the incident id |
| Engine.TwoIncidents | chainlit.py:443 | incidents with different ids run independently and keep separate checkpoints |
| Engine.Repeat | chainlit.py:553 | `n` copies of the character, none for `n <= 0` |
| Engine.ProgressBar | chainlit.py:553 | ten characters for a count of zero or more, the first min(count, 10) filled |
| Scenarios.ClassifyStep | src/agents/tribe/orchestrator.py:225-290 | a fresh incident is classified and sent to the diagnostics squad with its category |
| Scenarios.CoordinateStep | src/agents/squads/diagnostics.py:18-44 | the squad sends a string category to its monitor |
| Scenarios.DatabaseFindingsPlan | src/agents/squads/response.py:199-214 | database findings plan the database verdict's actions |
| Scenarios.DatabaseStep | src/agents/specialists/database.py:20-77 | the database monitor hands the fixture's actions to the response squad |
| Scenarios.PlanStep | src/agents/squads/response.py:191-250 | the squad plans the findings' actions and routes to the category's specialist |
| Scenarios.ExecuteStep | src/agents/specialists/database_response.py:15-61 | an executor resolves with one result per distinct action |
| Scenarios.ComputeStep | src/agents/specialists/compute.py:98-239 | with no systems the compute monitor, in either mode, succeeds and keeps preference, status, findings and incident; the deterministic one changes nothing |
| Scenarios.TwoSteps | chainlit.py:445-471 | two routed steps are emitted in order |
| Scenarios.Handover | src/workflows/graph.py:76-84 | orchestrator then diagnostics, then the chosen monitor |
| Scenarios.MonitorToResponse | src/workflows/graph.py:86-97 | a monitor handing over is followed by the response squad |
| Scenarios.ResponseToExecutor | src/workflows/graph.py:99-111 | the squad then the executor, and the run ends |
| Scenarios.ComposeResponse | chainlit.py:445-471 | the five steps joined into one trace |
| Scenarios.DatabaseChain | src/workflows/graph.py:76-111 | those five stage results give exactly the five-step trace ending at END |
| Scenarios.ComputeChain | src/workflows/graph.py:86-97 | a compute monitor that keeps its progress fills the remaining nine steps and stops at the bound; one that changes nothing leaves the squad's state |
| Scenarios.UnregisteredChain | src/workflows/graph.py:56-73 | routing to an unregistered monitor ends the run after the diagnostics squad's step, with that step's state checkpointed |
| Scenarios.FullWiringRouters | src/workflows/graph.py:115-133 | with all imports the database path's routers are as assigned |
| Scenarios.FullWiringNodes | src/workflows/graph.py:56-73 | with all imports the database path's stages are registered |
| Scenarios.DatabaseFront | src/agents/specialists/database.py:20-77 | a database incident reaches the response squad with the fixture's actions |
| Scenarios.DatabaseBack | src/agents/specialists/database_response.py:15-61 | the squad and the database executor then resolve it |
| Scenarios.DatabaseIncidentRun | src/workflows/graph.py:76-111 | a database incident resolves in exactly five steps, ending at END with one result per distinct action |
| Scenarios.CommonWiring | src/workflows/graph.py:56-133 | the compute path is wired the same with or without the extra imports |
| Scenarios.CpuIncidentRun | src/agents/specialists/compute.py:98-239 | a CPU, memory or uncategorised incident without systems loops on compute-monitor until the bound, with nothing recorded, in either compute mode; deterministically the final state is the squad's |
| Scenarios.UnregisteredMonitorRun | src/agents/squads/diagnostics.py:46-58 | application, security and backup incidents route to unregistered monitors; the run ends after two steps with the squad's state, naming that monitor, checkpointed |

## Left out

- The model-backed (GPT) primary paths of the orchestrator, response squad, compute monitor and classifier are oracles in `Env`. Prompt text, the model chain and JSON output parsing are not modelled. Only their recorded fields, routing and fallback are.
- Chainlit messaging, Markdown and emoji step displays, `asyncio.sleep`, and the summary text are not modelled. The symptom line and the progress bar are. These parts are presentation.
- `main.py` and `src/api/main.py` are not part of this model. They are other drivers, not the chat engine.
- Clocks are not modelled: `datetime.now()` and ISO timestamps are the parameter `now`, and an incident id's date is the parameter `date`.
- The system-name regex of the chat parser is the parameter `systems`.
- `json.loads` is the parameter `decoded`: a decoded object with optional fields, or a decode error. A field of the wrong JSON type is not modelled.
- LangGraph (`StateGraph`, `MemorySaver`, `astream`) is replaced by the explicit step loop in `Engine`. The node table is the hypothesis `Implements`, one contract per registered node, not a concrete map of node objects.
- LangGraph's own recursion limit of 25 is not modelled. The driver's bound of 11 steps always comes first.
- Engine.MoveFrom: a router naming an unregistered stage is modelled as LangGraph most likely behaves: it ignores the write to that unknown node, so the step is checkpointed and emitted and the run then finishes with nothing scheduled. LangGraph is not part of this model, so this is an assumption. The model reports such an end as `RoutedToUnknown`; the driver sees an ordinary end of the stream.
- Graph.WorkflowBuilder.AddNode: requires a fresh name; LangGraph's duplicate-node error is left out, since the source never registers a name twice.
- The `chainlit_v0.1.py` driver loop is the same bounded loop as `chainlit.py`'s. `Engine` models it once.
- async/await: each `execute` is a synchronous method, as no run is concurrent.
- Floating-point values are Dafny `real`. Their printed form is an approximation, used only inside log and prompt text.
- Python's `repr` quoting is approximated; it appears in log text and `str()` action keys. So are its exception messages: raised errors are strings.
- Case mapping covers ASCII letters only.
- Text.IsSpace: `str.strip()` whitespace is modelled for Latin-1 only. U+1680, U+2000–U+200A, U+2028, U+2029, U+202F, U+205F and U+3000, which Python also strips, are kept.
- ActionKey: a non-string action keys the results by its text (`str()`), not by the Python object. The model therefore merges `1` and `"1"`, which Python keeps apart, and keeps `1` and `True` apart, which Python merges. Only an unvalidated model reply can produce non-string actions.
- Debug `print` calls in routers and stages are not modelled.
- The storage executor's summary message reads "Network remediation…", as in the source. This is modelled verbatim and not corrected.
- The intent classifier, `fallback_handler` included, is registered in no graph. It is modelled as stand-alone stages, and its missing-incident case is reachable only through `DescriptionOf`.
- Nothing in the code marks a run `failed`, so no member does either.
- Tool fixtures no stage calls (security, backup, Kubernetes, AWS) are not part of this model.
- NonEmptyStripped: its own contract states membership in both directions only. Order and multiplicity are proved by `IntakeV01.NonEmptyStrippedInOrder`, because carrying the position witness in the recursive function's own contract is too costly to verify.
- MarkedSymptoms: its own contract states membership only. Order and multiplicity are proved by `IntakeV01.MarkedSymptomsInOrder`, for the same reason.
