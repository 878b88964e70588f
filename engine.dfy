// The run engine behind `execute_workflow_with_enhanced_updates` in
// chainlit.py: starting at the entry stage, run a stage, ask its router for
// the successor, checkpoint the state under the incident id and emit the
// step, until a router answers END or names a stage that was never
// registered, a stage raises, or the driver's bound of ten steps is passed.
module Engine {
  import opened Wrappers
  import opened Text
  import opened RunState
  import opened Config
  import opened Incidents
  import opened Graph
  import Orchestrator
  import Diagnostics
  import ResponseSquad
  import ComputeMonitor
  import DiskMonitor
  import NetworkMonitor
  import DatabaseMonitor
  import opened Remediation

  /** The driver breaks out of the stream once more than this many steps were emitted. */
  const StepBound := 10

  /** How a run stops. */
  datatype Halt =
    | Ended                                       // a router answered END
    | BoundReached                                // the driver's safety break
    | RoutedToUnknown(stage: string, target: string) // `stage`'s router named an unregistered id: nothing runs next
    | StageRaised(stage: string, error: string)    // `stage` let an exception escape

  /** The emitted steps (stage ids, in order), the last checkpointed state, and why the run stopped. */
  datatype Trace = Trace(steps: seq<string>, final: Snapshot, halt: Halt)

  /** Running a stage by id on a state: the state it returns, or the exception it raises. */
  type StageFn = (string, Snapshot) -> Result<Snapshot, string>

  /**
   * `run` applied to one stage, as a term of its own: the node contracts
   * below are stated on it, so that a proof meets a node's contract only
   * where it asks for that node.
   */
  ghost function RunAt(run: StageFn, stage: string, s: Snapshot): Result<Snapshot, string> {
    run(stage, s)
  }

  // What each node registered by `create_supportops_workflow` does, one
  // predicate per node, so that a proof about one node sees only that node.

  ghost predicate TribeNode(env: Env, run: StageFn) {
    forall s :: RunAt(run, "tribe_orchestrator", s) == Success(Orchestrator.AfterExecute(env, s))
  }

  ghost predicate DiagnosticsNode(env: Env, run: StageFn) {
    forall s :: RunAt(run, "diagnostics-squad", s) == Diagnostics.AfterDiagnostics(env.now, s)
  }

  ghost predicate ResponseNode(env: Env, run: StageFn) {
    forall s :: RunAt(run, "response-squad", s) == ResponseSquad.AfterResponse(env, s)
  }

  ghost predicate ComputeNode(env: Env, run: StageFn) {
    forall s :: RunAt(run, "compute-monitor", s) == ComputeMonitor.AfterCompute(env, s)
  }

  ghost predicate DiskNode(env: Env, run: StageFn) {
    forall s :: RunAt(run, "disk-monitor", s) == Success(DiskMonitor.AfterDisk(env, s))
  }

  ghost predicate NetworkNode(env: Env, run: StageFn) {
    forall s :: RunAt(run, "network-monitor", s) == Success(NetworkMonitor.AfterNetwork(env, s))
  }

  ghost predicate DatabaseNode(env: Env, run: StageFn) {
    forall s :: RunAt(run, "database-performance-monitor", s) == Success(DatabaseMonitor.AfterDatabase(env, s))
  }

  ghost predicate ExecutorNode(env: Env, run: StageFn, e: Executor) {
    forall s :: RunAt(run, e.AgentId(), s) == AfterRemediation(e, env, s)
  }

  /** An id that names no node cannot be run. */
  ghost predicate NoOtherNode(run: StageFn) {
    forall stage, s :: stage !in Registry(true) ==> RunAt(run, stage, s) == Failure("no node named " + stage)
  }

  /** `run` runs every stage id as the node registered under it does, with `env` as the outside world. */
  ghost predicate Implements(env: Env, run: StageFn) {
    && TribeNode(env, run) && DiagnosticsNode(env, run) && ResponseNode(env, run)
    && ComputeNode(env, run) && DiskNode(env, run) && NetworkNode(env, run) && DatabaseNode(env, run)
    && ExecutorNode(env, run, ComputeResource) && ExecutorNode(env, run, StorageResponse)
    && ExecutorNode(env, run, DatabaseResponse) && ExecutorNode(env, run, NetworkResponse)
    && NoOtherNode(run)
  }

  /** Where the graph goes after `stage`: its router's answer, or END for a stage without outgoing edges. */
  function NextStage(w: Workflow, stage: string, s: Snapshot): string {
    match w.RouterOf(stage)
    case None => End
    case Some(router) => Route(router, s)
  }

  /** The outcome of one stage execution: the run stops here, or goes on at `next`. */
  datatype Move =
    | Stop(emitted: bool, final: Snapshot, halt: Halt)
    | Continue(next: string, after: Snapshot)

  /**
   * One step of graph `w` run on `s` after `count` emitted steps.  A raising
   * stage aborts the run with the previous checkpoint and the step is not
   * emitted; otherwise the step is checkpointed and emitted, and the run ends
   * at END, once the count passes the bound, or at a router naming an
   * unregistered id (no stage is scheduled next).
   */
  function MoveFrom(run: StageFn, w: Workflow, stage: string, s: Snapshot, count: nat): (m: Move)
    requires count <= StepBound
    ensures m.Continue? ==> count < StepBound && m.next in w.nodes && m.next != End
    ensures m.Stop? ==> (m.emitted <==> !m.halt.StageRaised?)
    ensures m.Stop? && !m.emitted ==> m.final == s
    ensures m.Stop? && m.halt.BoundReached? ==> count == StepBound
    ensures m.Stop? && count == StepBound ==> m.halt.Ended? || m.halt.BoundReached? || m.halt.StageRaised?
  {
    match run(stage, s)
    case Failure(e) => Stop(false, s, StageRaised(stage, e))
    case Success(t) =>
      var next := NextStage(w, stage, t);
      if next == End then Stop(true, t, Ended)
      else if count + 1 > StepBound then Stop(true, t, BoundReached)
      else if next !in w.nodes then Stop(true, t, RoutedToUnknown(stage, next))
      else Continue(next, t)
  }

  /** The rest of a run of graph `w` that is about to execute `stage` on `s` after `count` emitted steps. */
  function RunFrom(run: StageFn, w: Workflow, stage: string, s: Snapshot, count: nat): Trace
    requires count <= StepBound
    decreases StepBound - count
  {
    match MoveFrom(run, w, stage, s, count)
    case Stop(emitted, final, halt) => Trace(if emitted then [stage] else [], final, halt)
    case Continue(next, t) =>
      var rest := RunFrom(run, w, next, t, count + 1);
      Trace([stage] + rest.steps, rest.final, rest.halt)
  }

  /** The whole run the chat driver performs for a freshly parsed incident, with `run` running the nodes. */
  function Execution(run: StageFn, additional: bool, incident: IncidentData): Trace {
    RunFrom(run, Wiring(additional), EntryStage, Initial(incident), 0)
  }

  /** From any point, the run emits at most `StepBound + 1 - count` further steps, exactly that many at the bound. */
  lemma {:induction false} RunLength(run: StageFn, w: Workflow, stage: string, s: Snapshot, count: nat)
    requires count <= StepBound
    ensures var t := RunFrom(run, w, stage, s, count);
      && |t.steps| <= StepBound + 1 - count
      && (t.halt == BoundReached ==> |t.steps| == StepBound + 1 - count)
      && (|t.steps| == StepBound + 1 - count && t.halt != Ended ==> t.halt == BoundReached)
      && (t.steps != [] ==> t.steps[0] == stage)
    decreases StepBound - count
  {
    var m := MoveFrom(run, w, stage, s, count);
    if m.Continue? {
      RunLength(run, w, m.next, m.after, count + 1);
      var rest := RunFrom(run, w, m.next, m.after, count + 1);
      assert RunFrom(run, w, stage, s, count) == Trace([stage] + rest.steps, rest.final, rest.halt);
    } else {
      assert RunFrom(run, w, stage, s, count) == Trace(if m.emitted then [stage] else [], m.final, m.halt);
    }
  }

  /** Every step after the first of `steps` is one of `nodes`. */
  predicate LaterIn(steps: seq<string>, nodes: seq<string>) {
    forall i :: 0 < i < |steps| ==> steps[i] in nodes
  }

  /** Every step after the first is a registered stage. */
  lemma {:induction false} RunStepsRegistered(run: StageFn, w: Workflow, stage: string, s: Snapshot, count: nat)
    requires count <= StepBound
    ensures LaterIn(RunFrom(run, w, stage, s, count).steps, w.nodes)
    decreases StepBound - count
  {
    var m := MoveFrom(run, w, stage, s, count);
    if m.Continue? {
      RunStepsRegistered(run, w, m.next, m.after, count + 1);
      RunLength(run, w, m.next, m.after, count + 1);
      var rest := RunFrom(run, w, m.next, m.after, count + 1);
      assert RunFrom(run, w, stage, s, count) == Trace([stage] + rest.steps, rest.final, rest.halt);
      AfterFirstIn(stage, m.next, rest.steps, w.nodes);
    } else {
      assert RunFrom(run, w, stage, s, count) == Trace(if m.emitted then [stage] else [], m.final, m.halt);
    }
  }

  /** Putting a step in front of registered steps that start at a registered stage keeps the later steps registered. */
  lemma AfterFirstIn(stage: string, next: string, rest: seq<string>, nodes: seq<string>)
    requires next in nodes && (rest != [] ==> rest[0] == next)
    requires LaterIn(rest, nodes)
    ensures LaterIn([stage] + rest, nodes)
  {
    forall i | 0 < i < |[stage] + rest|
      ensures ([stage] + rest)[i] in nodes
    {
      assert ([stage] + rest)[i] == rest[i - 1];
    }
  }

  /**
   * From any point, the run emits at most `StepBound + 1 - count` further
   * steps, exactly that many when it stops at the bound; every step after
   * the first is a registered stage, and the first is the one about to run.
   */
  lemma RunBounded(run: StageFn, w: Workflow, stage: string, s: Snapshot, count: nat)
    requires count <= StepBound
    ensures var t := RunFrom(run, w, stage, s, count);
      && |t.steps| <= StepBound + 1 - count
      && (t.halt == BoundReached ==> |t.steps| == StepBound + 1 - count)
      && (forall i :: 0 < i < |t.steps| ==> t.steps[i] in w.nodes)
      && (t.steps != [] ==> t.steps[0] == stage)
  {
    RunLength(run, w, stage, s, count);
    RunStepsRegistered(run, w, stage, s, count);
    assert LaterIn(RunFrom(run, w, stage, s, count).steps, w.nodes);
  }

  /** A run that emits every step still available to it and does not end at END stopped at the bound. */
  lemma AllStepsMeansBound(run: StageFn, w: Workflow, stage: string, s: Snapshot, count: nat)
    requires count <= StepBound
    requires |RunFrom(run, w, stage, s, count).steps| == StepBound + 1 - count
    requires RunFrom(run, w, stage, s, count).halt != Ended
    ensures RunFrom(run, w, stage, s, count).halt == BoundReached
  {
    RunLength(run, w, stage, s, count);
  }

  /**
   * A whole run emits at most eleven steps, all registered, starting at the
   * orchestrator, and it stopped at the driver's bound exactly when it used
   * all eleven without ending at END.
   */
  lemma ExecutionBounded(run: StageFn, additional: bool, incident: IncidentData)
    ensures var t := Execution(run, additional, incident);
      && |t.steps| <= StepBound + 1
      && (t.halt == BoundReached <==> |t.steps| == StepBound + 1 && t.halt != Ended)
      && (forall i :: 0 <= i < |t.steps| ==> t.steps[i] in Registry(additional))
      && (t.steps != [] ==> t.steps[0] == "tribe_orchestrator")
  {
    WiringWellFormed(additional);
    var w := Wiring(additional);
    RunBounded(run, w, EntryStage, Initial(incident), 0);
    var t := Execution(run, additional, incident);
    if |t.steps| == StepBound + 1 && t.halt != Ended {
      AllStepsMeansBound(run, w, EntryStage, Initial(incident), 0);
    }
  }

  /** After a stage whose router is the remediation router succeeds, the run is over, whatever the state. */
  lemma RemediationEndsRun(run: StageFn, w: Workflow, stage: string, s: Snapshot, count: nat)
    requires count <= StepBound && w.RouterOf(stage) == Some(FromRemediation) && run(stage, s).Success?
    ensures RunFrom(run, w, stage, s, count) == Trace([stage], run(stage, s).value, Ended)
  {
  }

  /** A specialist-routed stage that declares its analysis complete ends the run, whatever stage it prefers next. */
  lemma CompletedAnalysisEndsRun(run: StageFn, w: Workflow, stage: string, s: Snapshot, count: nat)
    requires count <= StepBound && w.RouterOf(stage) == Some(FromSpecialist) && run(stage, s).Success?
    requires EndsWith(run(stage, s).value.workflowStatus.GetOr(""), "_complete")
    ensures RunFrom(run, w, stage, s, count) == Trace([stage], run(stage, s).value, Ended)
  {
  }

  /**
   * A specialist-routed stage that leaves the state as it found it, with
   * itself as the preference, nothing recorded and no completed status, is
   * run again and again until the driver's bound stops the run.
   */
  lemma {:induction false} FixedPointHitsBound(run: StageFn, w: Workflow, stage: string, s: Snapshot, count: nat)
    requires count <= StepBound && stage in w.nodes && w.RouterOf(stage) == Some(FromSpecialist)
    requires run(stage, s) == Success(s) && stage != End
    requires s.currentAgent == Some(stage) && s.specialistFindings == []
    requires !EndsWith(s.workflowStatus.GetOr(""), "_complete")
    ensures RunFrom(run, w, stage, s, count) == Trace(RunsOf(stage, StepBound + 1 - count), s, BoundReached)
    decreases StepBound - count
  {
    if stage == "response-squad" {
      assert RouteFromSpecialist(s) == "response-squad";
    } else {
      SpecialistReentersItself(s, stage);
    }
    assert NextStage(w, stage, s) == stage;
    if count < StepBound {
      FixedPointHitsBound(run, w, stage, s, count + 1);
      RunsOfOneMore(stage, StepBound - count);
    }
  }

  /** `t` agrees with `s` on the preference, the status, the findings and the incident. */
  predicate SameProgress(s: Snapshot, t: Snapshot) {
    t.currentAgent == s.currentAgent && t.workflowStatus == s.workflowStatus
    && t.specialistFindings == s.specialistFindings && t.incident == s.incident
  }

  /** On every state agreeing with `s` in progress, `stage` succeeds and keeps that progress. */
  ghost predicate KeepsProgress(run: StageFn, stage: string, s: Snapshot) {
    forall x {:trigger run(stage, x)} :: SameProgress(s, x) ==> run(stage, x).Success? && SameProgress(s, run(stage, x).value)
  }

  /** What keeping the progress of `s0` says about one state agreeing with it. */
  lemma KeptAt(run: StageFn, stage: string, s0: Snapshot, x: Snapshot)
    requires KeepsProgress(run, stage, s0) && SameProgress(s0, x)
    ensures run(stage, x).Success? && SameProgress(s0, run(stage, x).value)
  {
  }

  /** A specialist-routed stage that prefers itself, has nothing recorded and no completed status is routed back to itself. */
  lemma RoutedBack(w: Workflow, stage: string, t: Snapshot)
    requires w.RouterOf(stage) == Some(FromSpecialist)
    requires t.currentAgent == Some(stage) && t.specialistFindings == []
    requires !EndsWith(t.workflowStatus.GetOr(""), "_complete")
    ensures NextStage(w, stage, t) == stage
  {
    if stage == "response-squad" {
      assert RouteFromSpecialist(t) == "response-squad";
    } else {
      SpecialistReentersItself(t, stage);
    }
  }

  /** `stage`, `n` times over. */
  function RunsOf(stage: string, n: nat): seq<string> {
    seq(n, _ => stage)
  }

  /** One more run of the same stage in front. */
  lemma RunsOfOneMore(stage: string, n: nat)
    ensures [stage] + RunsOf(stage, n) == RunsOf(stage, n + 1)
  {
  }

  /** A pass of a specialist-routed stage that leaves it preferred, with nothing recorded and no completed status, goes on at itself until the bound. */
  lemma IdleMove(run: StageFn, w: Workflow, stage: string, s: Snapshot, t: Snapshot, count: nat)
    requires count <= StepBound && stage in w.nodes && w.RouterOf(stage) == Some(FromSpecialist) && stage != End
    requires run(stage, s) == Success(t) && t.currentAgent == Some(stage) && t.specialistFindings == []
    requires !EndsWith(t.workflowStatus.GetOr(""), "_complete")
    ensures MoveFrom(run, w, stage, s, count) == if count < StepBound then Continue(stage, t) else Stop(true, t, BoundReached)
  {
    RoutedBack(w, stage, t);
  }

  /**
   * A specialist-routed stage that prefers itself, has nothing recorded and
   * no completed status, and that on every such state succeeds without
   * changing the preference, status, findings or incident (it may log), is
   * run again and again until the driver's bound stops the run.
   */
  lemma IdleStageHitsBound(run: StageFn, w: Workflow, stage: string, s: Snapshot, count: nat)
    requires count <= StepBound && stage in w.nodes && w.RouterOf(stage) == Some(FromSpecialist) && stage != End
    requires s.currentAgent == Some(stage) && s.specialistFindings == []
    requires !EndsWith(s.workflowStatus.GetOr(""), "_complete")
    requires KeepsProgress(run, stage, s)
    ensures var t := RunFrom(run, w, stage, s, count);
      t.steps == RunsOf(stage, StepBound + 1 - count) && t.halt == BoundReached && SameProgress(s, t.final)
  {
    assert SameProgress(s, s);
    IdleFrom(run, w, stage, s, s, count);
  }

  /** The same, from any state `s` that agrees in progress with the state `s0` the stage keeps. */
  lemma {:induction false} IdleFrom(run: StageFn, w: Workflow, stage: string, s0: Snapshot, s: Snapshot, count: nat)
    requires count <= StepBound && stage in w.nodes && w.RouterOf(stage) == Some(FromSpecialist) && stage != End
    requires s0.currentAgent == Some(stage) && s0.specialistFindings == []
    requires !EndsWith(s0.workflowStatus.GetOr(""), "_complete")
    requires KeepsProgress(run, stage, s0) && SameProgress(s0, s)
    ensures var t := RunFrom(run, w, stage, s, count);
      t.steps == RunsOf(stage, StepBound + 1 - count) && t.halt == BoundReached && SameProgress(s0, t.final)
    decreases StepBound - count
  {
    KeptAt(run, stage, s0, s);
    var t := run(stage, s).value;
    IdleMove(run, w, stage, s, t, count);
    if count < StepBound {
      IdleFrom(run, w, stage, s0, t, count + 1);
      AgainRuns(run, w, stage, s, t, count);
    } else {
      LastRun(run, w, stage, s, t, count);
    }
  }

  /** A stage routed back to itself adds one more run of it in front of the rest. */
  lemma AgainRuns(run: StageFn, w: Workflow, stage: string, s: Snapshot, t: Snapshot, count: nat)
    requires count < StepBound && MoveFrom(run, w, stage, s, count) == Continue(stage, t)
    requires RunFrom(run, w, stage, t, count + 1).steps == RunsOf(stage, StepBound - count)
    ensures RunFrom(run, w, stage, s, count) == Prepend([stage], RunFrom(run, w, stage, t, count + 1))
    ensures RunFrom(run, w, stage, s, count).steps == RunsOf(stage, StepBound + 1 - count)
  {
    RunsOfOneMore(stage, StepBound - count);
  }

  /** The pass that reaches the bound is the last run of the stage. */
  lemma LastRun(run: StageFn, w: Workflow, stage: string, s: Snapshot, t: Snapshot, count: nat)
    requires count <= StepBound && MoveFrom(run, w, stage, s, count) == Stop(true, t, BoundReached)
    ensures RunFrom(run, w, stage, s, count) == Trace(RunsOf(stage, 1), t, BoundReached)
  {
    assert RunsOf(stage, 1) == [stage];
  }

  /** The incident-keyed checkpoint store (the thread id of each run is its incident id). */
  class CheckpointStore {
    var saved: map<string, Snapshot>

    constructor ()
      ensures saved == map[]
    {
      saved := map[];
    }

    /** Persist the state of the run for `incidentId`, replacing its previous checkpoint only. */
    method Save(incidentId: string, s: Snapshot)
      modifies this
      ensures saved == old(saved)[incidentId := s]
    {
      saved := saved[incidentId := s];
    }
  }

  /** The shared state after running a stage is the state its node returns, or it raised the node's exception. */
  ghost predicate Ran(r: Result<Snapshot, string>, raised: Option<string>, after: Snapshot) {
    match r
    case Success(t) => raised.None? && after == t
    case Failure(e) => raised == Some(e)
  }

  method RunTribe(st: State, env: Env, ghost run: StageFn) returns (raised: Option<string>)
    requires TribeNode(env, run)
    modifies st
    ensures Ran(run("tribe_orchestrator", old(st.Snap())), raised, st.Snap())
  {
    ghost var before := st.Snap();
    Orchestrator.Execute(st, env);
    raised := None;
    assert RunAt(run, "tribe_orchestrator", before) == run("tribe_orchestrator", before);
  }

  method RunDiagnostics(st: State, env: Env, ghost run: StageFn) returns (raised: Option<string>)
    requires DiagnosticsNode(env, run)
    modifies st
    ensures Ran(run("diagnostics-squad", old(st.Snap())), raised, st.Snap())
  {
    ghost var before := st.Snap();
    raised := Diagnostics.Execute(st, env.now);
    assert RunAt(run, "diagnostics-squad", before) == run("diagnostics-squad", before);
  }

  method RunResponse(st: State, env: Env, ghost run: StageFn) returns (raised: Option<string>)
    requires ResponseNode(env, run)
    modifies st
    ensures Ran(run("response-squad", old(st.Snap())), raised, st.Snap())
  {
    ghost var before := st.Snap();
    raised := ResponseSquad.Execute(st, env);
    assert RunAt(run, "response-squad", before) == run("response-squad", before);
  }

  method RunCompute(st: State, env: Env, ghost run: StageFn) returns (raised: Option<string>)
    requires ComputeNode(env, run)
    modifies st
    ensures Ran(run("compute-monitor", old(st.Snap())), raised, st.Snap())
  {
    ghost var before := st.Snap();
    raised := ComputeMonitor.Execute(st, env);
    assert RunAt(run, "compute-monitor", before) == run("compute-monitor", before);
  }

  method RunDisk(st: State, env: Env, ghost run: StageFn) returns (raised: Option<string>)
    requires DiskNode(env, run)
    modifies st
    ensures Ran(run("disk-monitor", old(st.Snap())), raised, st.Snap())
  {
    ghost var before := st.Snap();
    DiskMonitor.Execute(st, env);
    raised := None;
    assert RunAt(run, "disk-monitor", before) == run("disk-monitor", before);
  }

  method RunNetwork(st: State, env: Env, ghost run: StageFn) returns (raised: Option<string>)
    requires NetworkNode(env, run)
    modifies st
    ensures Ran(run("network-monitor", old(st.Snap())), raised, st.Snap())
  {
    ghost var before := st.Snap();
    NetworkMonitor.Execute(st, env);
    raised := None;
    assert RunAt(run, "network-monitor", before) == run("network-monitor", before);
  }

  method RunDatabase(st: State, env: Env, ghost run: StageFn) returns (raised: Option<string>)
    requires DatabaseNode(env, run)
    modifies st
    ensures Ran(run("database-performance-monitor", old(st.Snap())), raised, st.Snap())
  {
    ghost var before := st.Snap();
    DatabaseMonitor.Execute(st, env);
    raised := None;
    assert RunAt(run, "database-performance-monitor", before) == run("database-performance-monitor", before);
  }

  method RunExecutor(st: State, env: Env, e: Executor, ghost run: StageFn) returns (raised: Option<string>)
    requires ExecutorNode(env, run, e)
    modifies st
    ensures Ran(run(e.AgentId(), old(st.Snap())), raised, st.Snap())
  {
    ghost var before := st.Snap();
    raised := Remediation.Execute(st, env, e);
    assert RunAt(run, e.AgentId(), before) == run(e.AgentId(), before);
  }

  /** The coordinating squads: the orchestrator, the diagnostics squad and the response squad. */
  method RunSquad(st: State, env: Env, stage: string, ghost run: StageFn) returns (raised: Option<string>)
    requires stage in ["tribe_orchestrator", "diagnostics-squad", "response-squad"]
    requires TribeNode(env, run) && DiagnosticsNode(env, run) && ResponseNode(env, run)
    modifies st
    ensures Ran(run(stage, old(st.Snap())), raised, st.Snap())
  {
    if stage == "tribe_orchestrator" {
      raised := RunTribe(st, env, run);
    } else if stage == "diagnostics-squad" {
      raised := RunDiagnostics(st, env, run);
    } else {
      raised := RunResponse(st, env, run);
    }
  }

  /** The four monitoring specialists. */
  method RunMonitor(st: State, env: Env, stage: string, ghost run: StageFn) returns (raised: Option<string>)
    requires stage in ["compute-monitor", "disk-monitor", "network-monitor", "database-performance-monitor"]
    requires ComputeNode(env, run) && DiskNode(env, run) && NetworkNode(env, run) && DatabaseNode(env, run)
    modifies st
    ensures Ran(run(stage, old(st.Snap())), raised, st.Snap())
  {
    if stage == "compute-monitor" {
      raised := RunCompute(st, env, run);
    } else if stage == "disk-monitor" {
      raised := RunDisk(st, env, run);
    } else if stage == "network-monitor" {
      raised := RunNetwork(st, env, run);
    } else {
      raised := RunDatabase(st, env, run);
    }
  }

  /** The four remediation executors, and any id that names no node. */
  method RunOther(st: State, env: Env, stage: string, ghost run: StageFn) returns (raised: Option<string>)
    requires stage !in ["tribe_orchestrator", "diagnostics-squad", "response-squad"]
    requires stage !in ["compute-monitor", "disk-monitor", "network-monitor", "database-performance-monitor"]
    requires ExecutorNode(env, run, ComputeResource) && ExecutorNode(env, run, StorageResponse)
    requires ExecutorNode(env, run, DatabaseResponse) && ExecutorNode(env, run, NetworkResponse)
    requires NoOtherNode(run)
    modifies st
    ensures Ran(run(stage, old(st.Snap())), raised, st.Snap())
  {
    if stage == "compute-resource-specialist" {
      raised := RunExecutor(st, env, ComputeResource, run);
    } else if stage == "storage-response-specialist" {
      raised := RunExecutor(st, env, StorageResponse, run);
    } else if stage == "database-response-specialist" {
      raised := RunExecutor(st, env, DatabaseResponse, run);
    } else if stage == "network-response-specialist" {
      raised := RunExecutor(st, env, NetworkResponse, run);
    } else {
      assert stage !in Registry(true);
      assert RunAt(run, stage, old(st.Snap())) == run(stage, old(st.Snap()));
      raised := Some("no node named " + stage);
    }
  }

  /** Run the node registered under `stage` on the shared state; an id without a node raises. */
  method RunStage(st: State, env: Env, stage: string, ghost run: StageFn) returns (raised: Option<string>)
    requires Implements(env, run)
    modifies st
    ensures Ran(run(stage, old(st.Snap())), raised, st.Snap())
  {
    if stage in ["tribe_orchestrator", "diagnostics-squad", "response-squad"] {
      raised := RunSquad(st, env, stage, run);
    } else if stage in ["compute-monitor", "disk-monitor", "network-monitor", "database-performance-monitor"] {
      raised := RunMonitor(st, env, stage, run);
    } else {
      raised := RunOther(st, env, stage, run);
    }
  }

  /** A second checkpoint under the same id replaces the first. */
  lemma SaveTwice(base: map<string, Snapshot>, id: string, a: Snapshot, b: Snapshot)
    ensures base[id := a][id := b] == base[id := b]
  {
  }

  /** Run one stage on the shared state and consult its router. */
  method Advance(st: State, env: Env, w: Workflow, stage: string, count: nat, ghost run: StageFn) returns (m: Move)
    requires count <= StepBound && Implements(env, run)
    modifies st
    ensures m == MoveFrom(run, w, stage, old(st.Snap()), count)
    ensures m.Continue? ==> st.Snap() == m.after
    ensures m.Stop? && m.emitted ==> st.Snap() == m.final
  {
    var before := st.Snap();
    var raised := RunStage(st, env, stage, run);
    if raised.Some? {
      m := Stop(false, before, StageRaised(stage, raised.value));
    } else {
      var t := st.Snap();
      var next := NextStage(w, stage, t);
      if next == End {
        m := Stop(true, t, Ended);
      } else if count + 1 > StepBound {
        m := Stop(true, t, BoundReached);
      } else if next !in w.nodes {
        m := Stop(true, t, RoutedToUnknown(stage, next));
      } else {
        m := Continue(next, t);
      }
    }
  }

  /** The steps already emitted followed by the rest of the run. */
  function Prepend(steps: seq<string>, t: Trace): Trace {
    Trace(steps + t.steps, t.final, t.halt)
  }

  lemma RunFromContinue(run: StageFn, w: Workflow, stage: string, s: Snapshot, count: nat, steps: seq<string>)
    requires count <= StepBound && MoveFrom(run, w, stage, s, count).Continue?
    ensures var m := MoveFrom(run, w, stage, s, count);
      Prepend(steps, RunFrom(run, w, stage, s, count)) == Prepend(steps + [stage], RunFrom(run, w, m.next, m.after, count + 1))
  {
  }

  /** A stage that succeeds and is routed to a registered stage contributes one step and hands its state on. */
  lemma RunFromStep(run: StageFn, w: Workflow, stage: string, s: Snapshot, count: nat, router: Router, t: Snapshot, next: string)
    requires count < StepBound && w.RouterOf(stage) == Some(router) && run(stage, s) == Success(t)
    requires Route(router, t) == next && next != End && next in w.nodes
    ensures RunFrom(run, w, stage, s, count) == Prepend([stage], RunFrom(run, w, next, t, count + 1))
  {
  }

  lemma RunFromStop(run: StageFn, w: Workflow, stage: string, s: Snapshot, count: nat, steps: seq<string>)
    requires count <= StepBound && MoveFrom(run, w, stage, s, count).Stop?
    ensures var m := MoveFrom(run, w, stage, s, count);
      Prepend(steps, RunFrom(run, w, stage, s, count)) == Trace(if m.emitted then steps + [stage] else steps, m.final, m.halt)
  {
  }

  /**
   * One pass of the driver's loop: run the stage, checkpoint and emit the
   * step unless it raised, and say whether to stop.
   */
  method DriveStep(st: State, store: CheckpointStore, env: Env, w: Workflow, incidentId: string,
                   stage: string, committed: Snapshot, count: nat, steps: seq<string>,
                   ghost run: StageFn, ghost base: map<string, Snapshot>)
    returns (done: bool, halt: Halt, committed': Snapshot, steps': seq<string>, stage': string, count': nat)
    requires count <= StepBound && st.Snap() == committed && Implements(env, run)
    requires store.saved == base[incidentId := committed]
    modifies st, store
    ensures !done ==> count' == count + 1 && count' <= StepBound && st.Snap() == committed'
    ensures done ==> count' == count
    ensures !done ==>
      Prepend(steps', RunFrom(run, w, stage', committed', count')) == Prepend(steps, RunFrom(run, w, stage, committed, count))
    ensures done ==> Trace(steps', committed', halt) == Prepend(steps, RunFrom(run, w, stage, committed, count))
    ensures store.saved == base[incidentId := committed']
  {
    var m := Advance(st, env, w, stage, count, run);
    if m.Continue? {
      RunFromContinue(run, w, stage, committed, count, steps);
      SaveTwice(base, incidentId, committed, m.after);
      store.Save(incidentId, m.after);
      done, halt, committed', steps', stage', count' := false, Ended, m.after, steps + [stage], m.next, count + 1;
    } else {
      RunFromStop(run, w, stage, committed, count, steps);
      if m.emitted {
        SaveTwice(base, incidentId, committed, m.final);
        store.Save(incidentId, m.final);
        steps' := steps + [stage];
      } else {
        steps' := steps;
      }
      done, halt, committed', stage', count' := true, m.halt, m.final, stage, count;
    }
  }

  /**
   * `execute_workflow_with_enhanced_updates`: stream the run for a new
   * incident, checkpointing under its id, counting steps and breaking once
   * the count passes ten.  The emitted steps and final state are those of
   * `Execution`, and only this incident's checkpoint changes.
   */
  method ExecuteWorkflow(store: CheckpointStore, env: Env, additional: bool, incident: IncidentData, ghost run: StageFn)
    returns (t: Trace)
    requires Implements(env, run)
    modifies store
    ensures t == Execution(run, additional, incident)
    ensures store.saved == old(store.saved)[incident.incidentId := t.final]
  {
    var w := CreateSupportOpsWorkflow(additional);
    t := Stream(store, env, w, incident, run);
  }

  /** The driver's set-up for graph `w`: the initial state, checkpointed before the first stage runs. */
  method Stream(store: CheckpointStore, env: Env, w: Workflow, incident: IncidentData, ghost run: StageFn) returns (t: Trace)
    requires Implements(env, run)
    modifies store
    ensures t == RunFrom(run, w, w.entry, Initial(incident), 0)
    ensures store.saved == old(store.saved)[incident.incidentId := t.final]
  {
    var st := new State(Initial(incident));
    store.Save(incident.incidentId, st.Snap());
    t := Drive(st, store, env, w, incident.incidentId, w.entry, run, old(store.saved));
  }

  /** The loop of the driver: one `DriveStep` per pass until it says to stop. */
  method Drive(st: State, store: CheckpointStore, env: Env, w: Workflow, incidentId: string, entry: string,
               ghost run: StageFn, ghost base: map<string, Snapshot>) returns (t: Trace)
    requires Implements(env, run) && store.saved == base[incidentId := st.Snap()]
    modifies st, store
    ensures t == RunFrom(run, w, entry, old(st.Snap()), 0)
    ensures store.saved == base[incidentId := t.final]
  {
    var committed := st.Snap();
    var stage := entry;
    var count := 0;
    var steps: seq<string> := [];
    var done := false;
    var halt := Ended;
    ghost var total := RunFrom(run, w, entry, committed, 0);
    assert Prepend([], total) == total;
    while !done
      invariant !done ==> count <= StepBound && st.Snap() == committed
      invariant !done ==> Prepend(steps, RunFrom(run, w, stage, committed, count)) == total
      invariant done ==> Trace(steps, committed, halt) == total
      invariant store.saved == base[incidentId := committed]
      decreases StepBound + 1 - count, if done then 0 else 1
    {
      done, halt, committed, steps, stage, count := DriveStep(st, store, env, w, incidentId, stage, committed, count, steps, run, base);
    }
    t := Trace(steps, committed, halt);
  }

  /** Runs for different incidents keep separate checkpoints: the second leaves the first one's intact. */
  method TwoIncidents(env: Env, additional: bool, a: IncidentData, b: IncidentData, ghost run: StageFn)
    returns (ra: Trace, rb: Trace, store: CheckpointStore)
    requires a.incidentId != b.incidentId && Implements(env, run)
    ensures ra == Execution(run, additional, a) && rb == Execution(run, additional, b)
    ensures store.saved == map[a.incidentId := ra.final, b.incidentId := rb.final]
  {
    store := new CheckpointStore();
    ra := ExecuteWorkflow(store, env, additional, a, run);
    rb := ExecuteWorkflow(store, env, additional, b, run);
  }

  /** `"█" * n` for Python's int repetition: empty for n <= 0. */
  function Repeat(c: char, n: int): (r: string)
    ensures |r| == if n <= 0 then 0 else n
    ensures forall i :: 0 <= i < |r| ==> r[i] == c
    decreases n
  {
    if n <= 0 then [] else [c] + Repeat(c, n - 1)
  }

  /**
   * The progress bar of `create_comprehensive_workflow_display`: for a
   * non-negative count, ten cells of which the first min(count, 10) are filled.
   */
  function ProgressBar(stepCount: int): (r: string)
    ensures stepCount >= 0 ==> |r| == 10
    ensures stepCount >= 0 ==> forall i :: 0 <= i < |r| ==> (r[i] == '█' <==> i < Min(stepCount, 10))
    ensures stepCount < 0 ==> |r| == 10 - stepCount
  {
    Repeat('█', Min(stepCount, 10)) + Repeat('░', Max(0, 10 - stepCount))
  }

  function Min(a: int, b: int): int { if a <= b then a else b }
  function Max(a: int, b: int): int { if a >= b then a else b }
}
