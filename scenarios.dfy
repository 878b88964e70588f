// Whole runs of the graph with the deterministic stage paths and the
// shipped tool fixtures: a database incident goes through five stages and is
// resolved; a CPU incident without affected systems keeps re-entering the
// compute monitor until the driver's bound; the categories whose monitors
// were never registered fail to route after the diagnostics squad.
//
// Each step lemma looks at one node only; the chain lemmas are about any
// `run` that behaves as the steps say, and the run lemmas put the two together.
module Scenarios {
  import opened Wrappers
  import opened Text
  import opened Dicts
  import opened Values
  import opened Enums
  import opened Incidents
  import opened RunState
  import opened Config
  import opened Graph
  import opened Engine
  import Orchestrator
  import Diagnostics
  import DatabaseMonitor
  import DatabaseTools
  import ResponseSquad
  import ComputeMonitor
  import opened Remediation

  // ---- one stage at a time ----

  /** The deterministic orchestrator hands a fresh incident to the diagnostics squad with its category. */
  lemma ClassifyStep(env: Env, run: StageFn, inc: IncidentData)
    requires TribeNode(env, run) && env.classification.Deterministic?
    ensures var r := run("tribe_orchestrator", Initial(inc));
      && r.Success?
      && r.value.currentAgent == Some("diagnostics-squad")
      && Diagnostics.CategoryIn(r.value) == VStr(Orchestrator.CategoryOrDefault(inc.category))
      && r.value.specialistFindings == [] && r.value.incident == inc
  {
    var s := Initial(inc);
    assert RunAt(run, "tribe_orchestrator", s) == run("tribe_orchestrator", s);
    Orchestrator.AfterDeterministicSpec(env, s);
    Orchestrator.DeterministicRecordFields(Orchestrator.CategoryOrDefault(inc.category), inc.severity);
  }

  /** The diagnostics squad routes a named category to its monitor and leaves the findings alone. */
  lemma CoordinateStep(env: Env, run: StageFn, s: Snapshot)
    requires DiagnosticsNode(env, run) && Diagnostics.CategoryIn(s).VStr?
    ensures var r := run("diagnostics-squad", s);
      && r.Success?
      && r.value.currentAgent == Some(Diagnostics.MonitorFor(Diagnostics.CategoryIn(s).s))
      && r.value.workflowStatus == Some("diagnostics_coordinating")
      && r.value.specialistFindings == s.specialistFindings && r.value.incident == s.incident
  {
    assert RunAt(run, "diagnostics-squad", s) == run("diagnostics-squad", s);
    Diagnostics.AfterDiagnosticsSpec(env.now, s);
  }

  /** The actions the response squad reads from the database findings the fixtures produce. */
  const DatabaseActions: seq<string> := ["monitor", "monitor", "resolve_locks"]

  /** With no earlier findings, the fixed plan takes the database monitor's recommended actions. */
  lemma DatabaseFindingsPlan(v: DatabaseMonitor.Verdict, now: string)
    ensures var f := Put([], "database_analysis", DatabaseMonitor.Findings(DatabaseTools.MetricsReading, DatabaseTools.QueryReading, v, now));
      ResponseSquad.PlannedActions(f) == Success(StrList(v.Actions()))
  {
    var findings := DatabaseMonitor.Findings(DatabaseTools.MetricsReading, DatabaseTools.QueryReading, v, now);
    var f := Put([], "database_analysis", findings);
    assert f == [("database_analysis", findings)];
    assert Keys(f) == ["database_analysis"];
    assert ResponseSquad.PriorityFindings(f) == Some(findings);
    GetFirst(findings.entries, 1);
    DatabaseMonitor.AnalysisRecordActions(v.Issues(), v.RequiresResponse(), v.Actions());
  }

  /** With working tools the database monitor asks for a response with monitor, monitor, resolve_locks. */
  lemma DatabaseStep(env: Env, run: StageFn, s: Snapshot)
    requires DatabaseNode(env, run) && s.specialistFindings == []
    requires DatabaseMetricsTool !in env.toolErrors && QueryAnalyzerTool !in env.toolErrors
    ensures var r := run("database-performance-monitor", s);
      && r.Success?
      && r.value.currentAgent == Some("response-squad")
      && r.value.workflowStatus == Some("analysis_requires_response")
      && ResponseSquad.PlannedActions(r.value.specialistFindings) == Success(StrList(DatabaseActions))
      && r.value.incident == s.incident
  {
    assert RunAt(run, "database-performance-monitor", s) == run("database-performance-monitor", s);
    DatabaseMonitor.FixtureAnalysis();
    var v := DatabaseMonitor.Analyze(DatabaseTools.MetricsReading, DatabaseTools.QueryReading).value;
    DatabaseFindingsPlan(v, env.now);
  }

  /** The fixed plan carries the findings' actions to the category's response specialist. */
  lemma PlanStep(env: Env, run: StageFn, s: Snapshot, actions: seq<string>)
    requires ResponseNode(env, run) && env.planning.Deterministic?
    requires ResponseSquad.PlannedActions(s.specialistFindings) == Success(StrList(actions))
    ensures var r := run("response-squad", s);
      && r.Success?
      && r.value.currentAgent == Some(ResponseSquad.SpecialistFor(s.incident.category))
      && Remediation.PlannedActions(r.value.remediationPlan) == StrList(actions)
  {
    assert RunAt(run, "response-squad", s) == run("response-squad", s);
    ResponseSquad.DeterministicPlanningSpec(env.now, s);
    ResponseSquad.DeterministicPlanFields(StrList(actions), s.incident.severity);
  }

  /** An executor without a cleanup action runs a plan of plain action names to the end and resolves the incident. */
  lemma ExecuteStep(env: Env, run: StageFn, e: Executor, s: Snapshot, actions: seq<string>)
    requires ExecutorNode(env, run, e) && e.CleanupAction().None?
    requires Remediation.PlannedActions(s.remediationPlan) == StrList(actions)
    ensures var r := run(e.AgentId(), s);
      && r.Success?
      && r.value.completionStatus == Some("resolved")
      && Keys(r.value.executionResults) == Distinct(actions)
  {
    assert RunAt(run, e.AgentId(), s) == run(e.AgentId(), s);
    var items := StrList(actions).items;
    assert Iterate(StrList(actions)) == Success(items);
    ExecutedRaises(e, env, s.remediationPlan);
    ExecutedResults(e, env, s.remediationPlan);
    assert ActionKeys(items) == actions;
  }

  /**
   * When the incident names no affected systems the compute monitor succeeds
   * and changes neither preference, status, findings nor incident: the
   * deterministic analysis changes nothing, the autonomous one only logs
   * its start.
   */
  lemma ComputeStep(env: Env, run: StageFn, s: Snapshot)
    requires ComputeNode(env, run) && s.incident.affectedSystems == []
    ensures KeepsProgress(run, "compute-monitor", s)
    ensures env.computeAnalysis.Deterministic? ==> run("compute-monitor", s) == Success(s)
  {
    forall x | SameProgress(s, x)
      ensures run("compute-monitor", x).Success? && SameProgress(s, run("compute-monitor", x).value)
    {
      assert RunAt(run, "compute-monitor", x) == run("compute-monitor", x);
    }
    assert RunAt(run, "compute-monitor", s) == run("compute-monitor", s);
  }

  // ---- whole runs, for any `run` that takes the steps ----

  /** Two routed steps in a row, from any stage and step count. */
  lemma TwoSteps(run: StageFn, w: Workflow, a: string, b: string, next: string, ra: Router, rb: Router,
                 s0: Snapshot, s1: Snapshot, s2: Snapshot, count: nat)
    requires count + 1 < StepBound && w.RouterOf(a) == Some(ra) && w.RouterOf(b) == Some(rb)
    requires b in w.nodes && b != End && next in w.nodes && next != End
    requires run(a, s0) == Success(s1) && Route(ra, s1) == b
    requires run(b, s1) == Success(s2) && Route(rb, s2) == next
    ensures RunFrom(run, w, a, s0, count) == Prepend([a], Prepend([b], RunFrom(run, w, next, s2, count + 2)))
  {
    RunFromStep(run, w, a, s0, count, ra, s1, b);
    RunFromStep(run, w, b, s1, count + 1, rb, s2, next);
  }

  /** The orchestrator hands over to the diagnostics squad, which hands over to `next`: two steps, then `next` at step two. */
  lemma Handover(run: StageFn, w: Workflow, s0: Snapshot, s1: Snapshot, s2: Snapshot, next: string)
    requires w.RouterOf("tribe_orchestrator") == Some(FromTribe) && w.RouterOf("diagnostics-squad") == Some(FromDiagnostics)
    requires "diagnostics-squad" in w.nodes && next in w.nodes && next != End
    requires run("tribe_orchestrator", s0) == Success(s1) && s1.currentAgent == Some("diagnostics-squad")
    requires run("diagnostics-squad", s1) == Success(s2) && s2.currentAgent == Some(next)
    ensures RunFrom(run, w, "tribe_orchestrator", s0, 0) ==
      Prepend(["tribe_orchestrator"], Prepend(["diagnostics-squad"], RunFrom(run, w, next, s2, 2)))
  {
    TwoSteps(run, w, "tribe_orchestrator", "diagnostics-squad", next, FromTribe, FromDiagnostics, s0, s1, s2, 0);
  }

  /** A monitor that asks for a response hands over to the response squad. */
  lemma MonitorToResponse(run: StageFn, w: Workflow, monitor: string, s2: Snapshot, s3: Snapshot)
    requires w.RouterOf(monitor) == Some(FromSpecialist) && "response-squad" in w.nodes
    requires run(monitor, s2) == Success(s3)
    requires s3.currentAgent == Some("response-squad") && s3.workflowStatus == Some("analysis_requires_response")
    ensures RunFrom(run, w, monitor, s2, 2) == Prepend([monitor], RunFrom(run, w, "response-squad", s3, 3))
  {
    assert !EndsWith("analysis_requires_response", "_complete");
    RunFromStep(run, w, monitor, s2, 2, FromSpecialist, s3, "response-squad");
  }

  /** The response squad hands over to an executor, whose step ends the run. */
  lemma ResponseToExecutor(run: StageFn, w: Workflow, executor: string, s3: Snapshot, s4: Snapshot, s5: Snapshot)
    requires w.RouterOf("response-squad") == Some(FromResponse) && w.RouterOf(executor) == Some(FromRemediation)
    requires executor in w.nodes && executor != End
    requires run("response-squad", s3) == Success(s4) && s4.currentAgent == Some(executor)
    requires run(executor, s4) == Success(s5)
    ensures RunFrom(run, w, "response-squad", s3, 3) == Trace(["response-squad", executor], s5, Ended)
  {
    RemediationEndsRun(run, w, executor, s4, 4);
    RunFromStep(run, w, "response-squad", s3, 3, FromResponse, s4, executor);
  }

  /** The two handovers, the monitor's step and the response squad's run to an executor, as one trace. */
  lemma ComposeResponse(monitor: string, executor: string, t0: Trace, t2: Trace, t3: Trace, s5: Snapshot)
    requires t0 == Prepend(["tribe_orchestrator"], Prepend(["diagnostics-squad"], t2))
    requires t2 == Prepend([monitor], t3)
    requires t3 == Trace(["response-squad", executor], s5, Ended)
    ensures t0 == Trace(["tribe_orchestrator", "diagnostics-squad", monitor, "response-squad", executor], s5, Ended)
  {
  }

  /** The five stages of a database incident, each handing over to the next, end the run at the executor. */
  lemma DatabaseChain(run: StageFn, w: Workflow, s0: Snapshot, s1: Snapshot, s2: Snapshot, s3: Snapshot, s4: Snapshot, s5: Snapshot)
    requires w.RouterOf("tribe_orchestrator") == Some(FromTribe) && w.RouterOf("diagnostics-squad") == Some(FromDiagnostics)
    requires w.RouterOf("database-performance-monitor") == Some(FromSpecialist) && w.RouterOf("response-squad") == Some(FromResponse)
    requires w.RouterOf("database-response-specialist") == Some(FromRemediation)
    requires "diagnostics-squad" in w.nodes && "database-performance-monitor" in w.nodes
    requires "response-squad" in w.nodes && "database-response-specialist" in w.nodes
    requires run("tribe_orchestrator", s0) == Success(s1) && s1.currentAgent == Some("diagnostics-squad")
    requires run("diagnostics-squad", s1) == Success(s2) && s2.currentAgent == Some("database-performance-monitor")
    requires run("database-performance-monitor", s2) == Success(s3)
    requires s3.currentAgent == Some("response-squad") && s3.workflowStatus == Some("analysis_requires_response")
    requires run("response-squad", s3) == Success(s4) && s4.currentAgent == Some("database-response-specialist")
    requires run("database-response-specialist", s4) == Success(s5)
    ensures RunFrom(run, w, "tribe_orchestrator", s0, 0) ==
      Trace(["tribe_orchestrator", "diagnostics-squad", "database-performance-monitor", "response-squad",
             "database-response-specialist"], s5, Ended)
  {
    ResponseToExecutor(run, w, "database-response-specialist", s3, s4, s5);
    MonitorToResponse(run, w, "database-performance-monitor", s2, s3);
    Handover(run, w, s0, s1, s2, "database-performance-monitor");
    ComposeResponse("database-performance-monitor", "database-response-specialist",
      RunFrom(run, w, "tribe_orchestrator", s0, 0), RunFrom(run, w, "database-performance-monitor", s2, 2),
      RunFrom(run, w, "response-squad", s3, 3), s5);
  }

  /** Two steps put in front of a run, one at a time or together. */
  lemma TwoAhead(a: string, b: string, steps: seq<string>)
    ensures [a] + ([b] + steps) == [a, b] + steps
  {
  }

  /**
   * A compute monitor that, after the diagnostics squad handed over to it,
   * keeps the preference, status and findings as it found them is re-entered
   * until the bound: nine steps of it.  When it leaves the state exactly as
   * it found it, that state is the last checkpoint.
   */
  lemma ComputeChain(run: StageFn, w: Workflow, s0: Snapshot, s1: Snapshot, s2: Snapshot)
    requires w.RouterOf("tribe_orchestrator") == Some(FromTribe) && w.RouterOf("diagnostics-squad") == Some(FromDiagnostics)
    requires w.RouterOf("compute-monitor") == Some(FromSpecialist)
    requires "diagnostics-squad" in w.nodes && "compute-monitor" in w.nodes
    requires run("tribe_orchestrator", s0) == Success(s1) && s1.currentAgent == Some("diagnostics-squad")
    requires run("diagnostics-squad", s1) == Success(s2) && s2.currentAgent == Some("compute-monitor")
    requires s2.workflowStatus == Some("diagnostics_coordinating") && s2.specialistFindings == []
    requires KeepsProgress(run, "compute-monitor", s2)
    ensures var t := RunFrom(run, w, "tribe_orchestrator", s0, 0);
      && t.steps == ["tribe_orchestrator", "diagnostics-squad"] + RunsOf("compute-monitor", 9)
      && t.halt == BoundReached && SameProgress(s2, t.final)
      && (run("compute-monitor", s2) == Success(s2) ==> t.final == s2)
  {
    assert !EndsWith("diagnostics_coordinating", "_complete");
    Handover(run, w, s0, s1, s2, "compute-monitor");
    var t := RunFrom(run, w, "tribe_orchestrator", s0, 0);
    var rest := RunFrom(run, w, "compute-monitor", s2, 2);
    assert t == Prepend(["tribe_orchestrator"], Prepend(["diagnostics-squad"], rest));
    IdleStageHitsBound(run, w, "compute-monitor", s2, 2);
    assert rest.steps == RunsOf("compute-monitor", 9);
    assert t.steps == ["tribe_orchestrator"] + (["diagnostics-squad"] + rest.steps);
    TwoAhead("tribe_orchestrator", "diagnostics-squad", rest.steps);
    if run("compute-monitor", s2) == Success(s2) {
      FixedPointHitsBound(run, w, "compute-monitor", s2, 2);
    }
  }

  /** A diagnostics squad that names an unregistered monitor ends the run after its own step, which is checkpointed. */
  lemma UnregisteredChain(run: StageFn, w: Workflow, s0: Snapshot, s1: Snapshot, s2: Snapshot, monitor: string)
    requires w.RouterOf("tribe_orchestrator") == Some(FromTribe) && w.RouterOf("diagnostics-squad") == Some(FromDiagnostics)
    requires "diagnostics-squad" in w.nodes && monitor !in w.nodes && monitor != End
    requires run("tribe_orchestrator", s0) == Success(s1) && s1.currentAgent == Some("diagnostics-squad")
    requires run("diagnostics-squad", s1) == Success(s2) && s2.currentAgent == Some(monitor)
    ensures RunFrom(run, w, "tribe_orchestrator", s0, 0) ==
      Trace(["tribe_orchestrator", "diagnostics-squad"], s2, RoutedToUnknown("diagnostics-squad", monitor))
  {
    RunFromStep(run, w, "tribe_orchestrator", s0, 0, FromTribe, s1, "diagnostics-squad");
    assert NextStage(w, "diagnostics-squad", s2) == monitor;
    assert MoveFrom(run, w, "diagnostics-squad", s1, 1) == Stop(true, s2, RoutedToUnknown("diagnostics-squad", monitor));
  }

  // ---- the runs themselves ----

  /** The routers the database chain meets, in the graph with the additional specialists. */
  lemma FullWiringRouters()
    ensures var w := Wiring(true);
      && w.RouterOf("tribe_orchestrator") == Some(FromTribe) && w.RouterOf("diagnostics-squad") == Some(FromDiagnostics)
      && w.RouterOf("database-performance-monitor") == Some(FromSpecialist) && w.RouterOf("response-squad") == Some(FromResponse)
      && w.RouterOf("database-response-specialist") == Some(FromRemediation)
  {
    RouterAssignments(true);
    FullWiringNodes();
  }

  /** The stages the database chain visits are registered in the graph with the additional specialists. */
  lemma FullWiringNodes()
    ensures var w := Wiring(true);
      && "diagnostics-squad" in w.nodes && "database-performance-monitor" in w.nodes
      && "response-squad" in w.nodes && "database-response-specialist" in w.nodes
  {
    WiringWellFormed(true);
    assert "database-response-specialist" == AdditionalStages[1];
  }

  /** The first three stages of a database incident hand it to the response squad with the monitor's actions. */
  lemma DatabaseFront(env: Env, run: StageFn, inc: IncidentData)
    requires TribeNode(env, run) && DiagnosticsNode(env, run) && DatabaseNode(env, run)
    requires env.classification.Deterministic?
    requires DatabaseMetricsTool !in env.toolErrors && QueryAnalyzerTool !in env.toolErrors
    requires inc.category == Some(DatabasePerformance)
    ensures var r1 := run("tribe_orchestrator", Initial(inc));
      && r1.Success? && r1.value.currentAgent == Some("diagnostics-squad")
      && var r2 := run("diagnostics-squad", r1.value);
      && r2.Success? && r2.value.currentAgent == Some("database-performance-monitor")
      && var r3 := run("database-performance-monitor", r2.value);
      && r3.Success? && r3.value.currentAgent == Some("response-squad")
      && r3.value.workflowStatus == Some("analysis_requires_response")
      && ResponseSquad.PlannedActions(r3.value.specialistFindings) == Success(StrList(DatabaseActions))
      && r3.value.incident == inc
  {
    ClassifyStep(env, run, inc);
    var s1 := run("tribe_orchestrator", Initial(inc)).value;
    CoordinateStep(env, run, s1);
    DatabaseStep(env, run, run("diagnostics-squad", s1).value);
  }

  /** The response squad plans the database actions and the database executor runs them and resolves the incident. */
  lemma DatabaseBack(env: Env, run: StageFn, s3: Snapshot)
    requires ResponseNode(env, run) && ExecutorNode(env, run, DatabaseResponse) && env.planning.Deterministic?
    requires ResponseSquad.PlannedActions(s3.specialistFindings) == Success(StrList(DatabaseActions))
    requires s3.incident.category == Some(DatabasePerformance)
    ensures var r4 := run("response-squad", s3);
      && r4.Success? && r4.value.currentAgent == Some("database-response-specialist")
      && var r5 := run("database-response-specialist", r4.value);
      && r5.Success? && r5.value.completionStatus == Some("resolved")
      && Keys(r5.value.executionResults) == Distinct(DatabaseActions)
  {
    assert ResponseSquad.SpecialistFor(s3.incident.category) == "database-response-specialist";
    PlanStep(env, run, s3, DatabaseActions);
    var s4 := run("response-squad", s3).value;
    assert DatabaseResponse.AgentId() == "database-response-specialist";
    ExecuteStep(env, run, DatabaseResponse, s4, DatabaseActions);
  }

  /**
   * A database incident, with the deterministic paths, working database
   * tools and all specialists registered, goes through five stages and ends
   * resolved with the three recommended actions executed.
   */
  lemma DatabaseIncidentRun(env: Env, run: StageFn, inc: IncidentData)
    requires TribeNode(env, run) && DiagnosticsNode(env, run) && DatabaseNode(env, run) && ResponseNode(env, run)
    requires ExecutorNode(env, run, DatabaseResponse)
    requires env.classification.Deterministic? && env.planning.Deterministic?
    requires DatabaseMetricsTool !in env.toolErrors && QueryAnalyzerTool !in env.toolErrors
    requires inc.category == Some(DatabasePerformance)
    ensures var t := Execution(run, true, inc);
      && t.steps == ["tribe_orchestrator", "diagnostics-squad", "database-performance-monitor", "response-squad",
                     "database-response-specialist"]
      && t.halt == Ended
      && t.final.completionStatus == Some("resolved")
      && Keys(t.final.executionResults) == Distinct(DatabaseActions)
  {
    var s0 := Initial(inc);
    DatabaseFront(env, run, inc);
    var s1 := run("tribe_orchestrator", s0).value;
    var s2 := run("diagnostics-squad", s1).value;
    var s3 := run("database-performance-monitor", s2).value;
    DatabaseBack(env, run, s3);
    var s4 := run("response-squad", s3).value;
    var s5 := run("database-response-specialist", s4).value;
    FullWiringRouters();
    FullWiringNodes();
    DatabaseChain(run, Wiring(true), s0, s1, s2, s3, s4, s5);
  }

  /** The wiring facts the compute and unregistered runs use, for either graph. */
  lemma CommonWiring(additional: bool)
    ensures var w := Wiring(additional);
      && w.RouterOf("tribe_orchestrator") == Some(FromTribe) && w.RouterOf("diagnostics-squad") == Some(FromDiagnostics)
      && w.RouterOf("compute-monitor") == Some(FromSpecialist)
      && "diagnostics-squad" in w.nodes && "compute-monitor" in w.nodes
      && forall n :: n in UnregisteredTargets ==> n !in w.nodes
  {
    RouterAssignments(additional);
    WiringWellFormed(additional);
    UnregisteredTargetsMissing(additional);
  }

  /**
   * A CPU or memory incident (or one without a category) that names no
   * affected systems, on the deterministic classification and either
   * compute analysis, keeps re-entering the compute monitor: the run stops
   * at the driver's bound with nothing recorded.  With the deterministic
   * analysis the last checkpoint is the state the diagnostics squad left.
   */
  lemma CpuIncidentRun(env: Env, run: StageFn, additional: bool, inc: IncidentData)
    requires TribeNode(env, run) && DiagnosticsNode(env, run) && ComputeNode(env, run)
    requires env.classification.Deterministic?
    requires inc.category in {None, Some(CpuUtilization), Some(MemoryUtilization)} && inc.affectedSystems == []
    ensures var t := Execution(run, additional, inc);
      && t.steps == ["tribe_orchestrator", "diagnostics-squad"] + RunsOf("compute-monitor", StepBound - 1)
      && t.halt == BoundReached
      && t.final.workflowStatus == Some("diagnostics_coordinating") && t.final.specialistFindings == []
      && t.final.currentAgent == Some("compute-monitor") && t.final.incident == inc
      && run("tribe_orchestrator", Initial(inc)).Success?
      && run("diagnostics-squad", run("tribe_orchestrator", Initial(inc)).value).Success?
      && (env.computeAnalysis.Deterministic? ==>
            t.final == run("diagnostics-squad", run("tribe_orchestrator", Initial(inc)).value).value)
  {
    var s0 := Initial(inc);
    ClassifyStep(env, run, inc);
    var s1 := run("tribe_orchestrator", s0).value;
    assert Diagnostics.MonitorFor(Orchestrator.CategoryOrDefault(inc.category)) == "compute-monitor";
    CoordinateStep(env, run, s1);
    var s2 := run("diagnostics-squad", s1).value;
    ComputeStep(env, run, s2);
    CommonWiring(additional);
    ComputeChain(run, Wiring(additional), s0, s1, s2);
  }

  /**
   * An application, security or backup incident, on the deterministic
   * classification, is routed by the diagnostics squad to a monitor that
   * was never registered: the run ends after the squad's step, whose state
   * (naming that monitor as the current agent) is the last checkpoint.
   */
  lemma UnregisteredMonitorRun(env: Env, run: StageFn, additional: bool, inc: IncidentData)
    requires TribeNode(env, run) && DiagnosticsNode(env, run) && env.classification.Deterministic?
    requires inc.category in {Some(ApplicationPerformance), Some(SecurityIncident), Some(BackupFailure)}
    ensures var t := Execution(run, additional, inc);
      var monitor := Diagnostics.MonitorFor(inc.category.value.Value());
      && monitor in UnregisteredTargets
      && t.steps == ["tribe_orchestrator", "diagnostics-squad"]
      && t.halt == RoutedToUnknown("diagnostics-squad", monitor)
      && run("tribe_orchestrator", Initial(inc)).Success?
      && run("diagnostics-squad", run("tribe_orchestrator", Initial(inc)).value).Success?
      && t.final == run("diagnostics-squad", run("tribe_orchestrator", Initial(inc)).value).value
      && t.final.currentAgent == Some(monitor) && t.final.specialistFindings == []
  {
    var s0 := Initial(inc);
    ClassifyStep(env, run, inc);
    var s1 := run("tribe_orchestrator", s0).value;
    var monitor := Diagnostics.MonitorFor(inc.category.value.Value());
    assert monitor in UnregisteredTargets;
    CoordinateStep(env, run, s1);
    var s2 := run("diagnostics-squad", s1).value;
    CommonWiring(additional);
    UnregisteredChain(run, Wiring(additional), s0, s1, s2, monitor);
  }
}
