// The workflow wiring of src/workflows/graph.py: which stages are
// registered, which router follows each, and where a run enters.  The
// builder is the mutable graph object `create_supportops_workflow` fills by
// successive `add_node` / `add_conditional_edges` calls; the routers are
// pure reads of the run state.
module Graph {
  import opened Wrappers
  import opened Dicts
  import opened Text
  import opened RunState
  import opened Enums

  const EntryStage := "tribe_orchestrator"

  /** The stages registered unconditionally, in registration order. */
  const CoreStages: seq<string> := [
    "tribe_orchestrator", "diagnostics-squad", "response-squad",
    "compute-monitor", "disk-monitor", "network-monitor", "database-performance-monitor",
    "compute-resource-specialist"]

  /** The response specialists registered only when their imports succeed. */
  const AdditionalStages: seq<string> := [
    "storage-response-specialist", "database-response-specialist", "network-response-specialist"]

  /** Stage ids the squads can choose that no `add_node` call registers. */
  const UnregisteredTargets: seq<string> := [
    "application-performance-monitor", "security-monitor", "backup-monitor",
    "application-response-specialist", "security-response-specialist"]

  datatype Router = FromTribe | FromDiagnostics | FromSpecialist | FromResponse | FromRemediation

  /** `route_from_tribe`: the preference verbatim, "diagnostics-squad" only when the key is absent. */
  function RouteFromTribe(s: Snapshot): (r: string)
    ensures s.currentAgent.Some? ==> r == s.currentAgent.value
    ensures s.currentAgent.None? ==> r == "diagnostics-squad"
  {
    s.currentAgent.GetOr("diagnostics-squad")
  }

  /** `route_from_diagnostics`: the preference verbatim, "compute-monitor" only when the key is absent. */
  function RouteFromDiagnostics(s: Snapshot): (r: string)
    ensures s.currentAgent.Some? ==> r == s.currentAgent.value
    ensures s.currentAgent.None? ==> r == "compute-monitor"
  {
    s.currentAgent.GetOr("compute-monitor")
  }

  /**
   * `route_from_specialist`: a status ending in "_complete" ends the run
   * whatever the preference; otherwise a "response-squad" preference (also
   * the default) or any recorded finding goes to the response squad, and
   * any other preference is followed.
   */
  function RouteFromSpecialist(s: Snapshot): (r: string)
    ensures EndsWith(s.workflowStatus.GetOr(""), "_complete") ==> r == End
    ensures !EndsWith(s.workflowStatus.GetOr(""), "_complete") ==>
      (r == "response-squad" <==> s.currentAgent.GetOr("response-squad") == "response-squad" || s.specialistFindings != [])
    ensures !EndsWith(s.workflowStatus.GetOr(""), "_complete") && r != "response-squad" ==>
      s.currentAgent.Some? && r == s.currentAgent.value
  {
    var status := s.workflowStatus.GetOr("");
    var next := s.currentAgent.GetOr("response-squad");
    if EndsWith(status, "_complete") then End
    else if next == "response-squad" || s.specialistFindings != [] then "response-squad"
    else next
  }

  /** `route_from_response`: the preference verbatim, "compute-resource-specialist" only when the key is absent. */
  function RouteFromResponse(s: Snapshot): (r: string)
    ensures s.currentAgent.Some? ==> r == s.currentAgent.value
    ensures s.currentAgent.None? ==> r == "compute-resource-specialist"
  {
    s.currentAgent.GetOr("compute-resource-specialist")
  }

  /** `route_from_remediation`: both branches of its test end the run. */
  function RouteFromRemediation(s: Snapshot): (r: string)
    ensures r == End
  {
    if s.completionStatus.GetOr("") == "resolved" then End else End
  }

  function Route(router: Router, s: Snapshot): string {
    match router
    case FromTribe => RouteFromTribe(s)
    case FromDiagnostics => RouteFromDiagnostics(s)
    case FromSpecialist => RouteFromSpecialist(s)
    case FromResponse => RouteFromResponse(s)
    case FromRemediation => RouteFromRemediation(s)
  }

  /** A stage with nothing recorded and a preference for itself is routed back to itself. */
  lemma SpecialistReentersItself(s: Snapshot, stage: string)
    requires stage != "response-squad" && s.currentAgent == Some(stage) && s.specialistFindings == []
    requires !EndsWith(s.workflowStatus.GetOr(""), "_complete")
    ensures RouteFromSpecialist(s) == stage
  {
  }

  /**
   * A compiled graph: the registered stages in registration order, the
   * conditional edges in the order they were added, and the entry stage.
   */
  datatype Workflow = Workflow(nodes: seq<string>, edges: Dict<Router>, entry: string) {
    /** The router that follows stage `n`. */
    function RouterOf(n: string): Option<Router> {
      Get(edges, n)
    }
  }

  predicate AllDifferent(xs: seq<string>) {
    forall i, j :: 0 <= i < j < |xs| ==> xs[i] != xs[j]
  }

  ghost predicate WellFormed(w: Workflow) {
    && w.entry in w.nodes
    && (forall n :: n in w.nodes <==> w.RouterOf(n).Some?)
    && AllDifferent(w.nodes)
  }

  /** The graph object `create_supportops_workflow` fills in. */
  class WorkflowBuilder {
    var nodes: seq<string>
    var edges: Dict<Router>
    var entry: Option<string>

    constructor ()
      ensures nodes == [] && edges == [] && entry == None
    {
      nodes := [];
      edges := [];
      entry := None;
    }

    /** `add_node`; the library refuses a name that is already registered. */
    method AddNode(name: string)
      requires name !in nodes
      modifies this
      ensures nodes == old(nodes) + [name] && edges == old(edges) && entry == old(entry)
    {
      nodes := nodes + [name];
    }

    /** `add_edge(START, name)`. */
    method AddEntryEdge(name: string)
      modifies this
      ensures entry == Some(name) && nodes == old(nodes) && edges == old(edges)
    {
      entry := Some(name);
    }

    /** `add_conditional_edges(name, router)`. */
    method AddConditionalEdges(name: string, router: Router)
      modifies this
      ensures edges == old(edges) + [(name, router)] && nodes == old(nodes) && entry == old(entry)
    {
      edges := edges + [(name, router)];
    }
  }

  function Registry(additional: bool): seq<string> {
    CoreStages + (if additional then AdditionalStages else [])
  }

  const CoreEdges: Dict<Router> := [
    ("tribe_orchestrator", FromTribe),
    ("diagnostics-squad", FromDiagnostics),
    ("compute-monitor", FromSpecialist),
    ("disk-monitor", FromSpecialist),
    ("network-monitor", FromSpecialist),
    ("database-performance-monitor", FromSpecialist),
    ("response-squad", FromResponse),
    ("compute-resource-specialist", FromRemediation)]

  /** One remediation edge per stage in `extra`. */
  function RemediationEdges(extra: seq<string>): (r: Dict<Router>)
    ensures |r| == |extra| && forall i :: 0 <= i < |extra| ==> r[i] == (extra[i], FromRemediation)
  {
    seq(|extra|, i requires 0 <= i < |extra| => (extra[i], FromRemediation))
  }

  function Edges(additional: bool): Dict<Router> {
    CoreEdges + RemediationEdges(if additional then AdditionalStages else [])
  }

  /** The graph a successful `create_supportops_workflow` yields. */
  function Wiring(additional: bool): Workflow {
    Workflow(Registry(additional), Edges(additional), EntryStage)
  }

  /** `create_supportops_workflow`; `additional` says whether the three extra imports succeeded. */
  method CreateSupportOpsWorkflow(additional: bool) returns (w: Workflow)
    ensures w == Wiring(additional)
  {
    var b := new WorkflowBuilder();
    RegisterStages(b, additional);
    b.AddEntryEdge("tribe_orchestrator");
    AddRouters(b, additional);
    w := Workflow(b.nodes, b.edges, b.entry.value);
  }

  /** The `add_node` calls: the core stages, then the extra specialists. */
  method RegisterStages(b: WorkflowBuilder, additional: bool)
    requires b.nodes == [] && b.edges == [] && b.entry == None
    modifies b
    ensures b.nodes == Registry(additional) && b.edges == [] && b.entry == None
  {
    RegistryDistinct(true);
    var i := 0;
    while i < |CoreStages|
      invariant 0 <= i <= |CoreStages|
      invariant b.nodes == CoreStages[..i] && b.edges == [] && b.entry == None
    {
      assert CoreStages[i] !in CoreStages[..i] by {
        assert forall k :: 0 <= k < i ==> Registry(true)[k] == CoreStages[k];
      }
      b.AddNode(CoreStages[i]);
      assert CoreStages[..i + 1] == CoreStages[..i] + [CoreStages[i]];
      i := i + 1;
    }
    var extra := if additional then AdditionalStages else [];
    var j := 0;
    while j < |extra|
      invariant 0 <= j <= |extra|
      invariant b.nodes == CoreStages + extra[..j] && b.edges == [] && b.entry == None
    {
      assert extra[j] !in CoreStages + extra[..j] by {
        assert forall k :: 0 <= k < |CoreStages| + j ==> (CoreStages + extra[..j])[k] == Registry(true)[k];
        assert extra[j] == Registry(true)[|CoreStages| + j];
      }
      b.AddNode(extra[j]);
      assert extra[..j + 1] == extra[..j] + [extra[j]];
      j := j + 1;
    }
    assert extra[..|extra|] == extra;
  }

  /** The `add_conditional_edges` calls, in the source's order. */
  method AddRouters(b: WorkflowBuilder, additional: bool)
    requires b.edges == []
    modifies b
    ensures b.edges == Edges(additional) && b.nodes == old(b.nodes) && b.entry == old(b.entry)
  {
    b.AddConditionalEdges("tribe_orchestrator", FromTribe);
    b.AddConditionalEdges("diagnostics-squad", FromDiagnostics);
    b.AddConditionalEdges("compute-monitor", FromSpecialist);
    b.AddConditionalEdges("disk-monitor", FromSpecialist);
    b.AddConditionalEdges("network-monitor", FromSpecialist);
    b.AddConditionalEdges("database-performance-monitor", FromSpecialist);
    b.AddConditionalEdges("response-squad", FromResponse);
    b.AddConditionalEdges("compute-resource-specialist", FromRemediation);
    assert b.edges == CoreEdges;
    var extra := if additional then AdditionalStages else [];
    var j := 0;
    while j < |extra|
      invariant 0 <= j <= |extra|
      invariant b.nodes == old(b.nodes) && b.entry == old(b.entry)
      invariant b.edges == CoreEdges + RemediationEdges(extra[..j])
    {
      b.AddConditionalEdges(extra[j], FromRemediation);
      assert RemediationEdges(extra[..j + 1]) == RemediationEdges(extra[..j]) + [(extra[j], FromRemediation)];
      j := j + 1;
    }
    assert extra[..|extra|] == extra;
  }

  /** The eleven stage ids are pairwise different. */
  lemma RegistryDistinct(additional: bool)
    ensures AllDifferent(Registry(additional))
  {
  }

  /** The stages that get a conditional edge, in the order the edges are added. */
  function EdgeOrder(additional: bool): seq<string> {
    ["tribe_orchestrator", "diagnostics-squad", "compute-monitor", "disk-monitor", "network-monitor",
     "database-performance-monitor", "response-squad", "compute-resource-specialist"]
    + (if additional then AdditionalStages else [])
  }

  /** Each stage gets exactly one conditional edge, and the router found for its id is that edge's. */
  lemma EdgesUnique(additional: bool)
    ensures forall i :: 0 <= i < |Edges(additional)| ==> Get(Edges(additional), Edges(additional)[i].0) == Some(Edges(additional)[i].1)
  {
    var e := Edges(additional);
    EdgeKeys(additional);
    EdgeOrderDistinct(additional);
    forall i | 0 <= i < |e| ensures Get(e, e[i].0) == Some(e[i].1) {
      assert forall j :: 0 <= j < i ==> Keys(e)[j] != Keys(e)[i];
      GetFirst(e, i);
    }
  }

  lemma EdgeKeys(additional: bool)
    ensures Keys(Edges(additional)) == EdgeOrder(additional)
  {
    var extra := if additional then AdditionalStages else [];
    var core := Keys(CoreEdges);
    assert core == EdgeOrder(false) by {
      assert forall i :: 0 <= i < 8 ==> core[i] == EdgeOrder(false)[i];
    }
    var rest := Keys(RemediationEdges(extra));
    assert rest == extra;
    KeysConcat(CoreEdges, RemediationEdges(extra));
  }

  lemma KeysConcat<V>(a: Dict<V>, b: Dict<V>)
    ensures Keys(a + b) == Keys(a) + Keys(b)
  {
  }

  lemma EdgeOrderDistinct(additional: bool)
    ensures AllDifferent(EdgeOrder(additional))
  {
  }

  /**
   * Every run enters at the orchestrator, and the registry is exactly the
   * eight core stages plus, when the imports succeed, the three extra
   * response specialists, each registered once and each with a router.
   */
  lemma WiringWellFormed(additional: bool)
    ensures WellFormed(Wiring(additional)) && Wiring(additional).entry == "tribe_orchestrator"
    ensures |Registry(additional)| == if additional then 11 else 8
    ensures forall n :: n in Registry(additional) <==> n in CoreStages || (additional && n in AdditionalStages)
  {
    RegistryDistinct(additional);
    EdgeKeys(additional);
    var w := Wiring(additional);
    forall n ensures n in w.nodes <==> w.RouterOf(n).Some? {
      assert n in w.nodes <==> n in EdgeOrder(additional);
    }
  }

  /** The squads' ids for the application, security and backup categories are never registered. */
  lemma UnregisteredTargetsMissing(additional: bool)
    ensures forall n :: n in UnregisteredTargets ==> n !in Registry(additional)
  {
  }

  /** Each router is the one the source assigns: the monitors share the specialist router, all executors the remediation router. */
  lemma RouterAssignments(additional: bool)
    ensures var w := Wiring(additional);
      && w.RouterOf("tribe_orchestrator") == Some(FromTribe) && w.RouterOf("diagnostics-squad") == Some(FromDiagnostics)
      && w.RouterOf("compute-monitor") == Some(FromSpecialist) && w.RouterOf("disk-monitor") == Some(FromSpecialist)
      && w.RouterOf("network-monitor") == Some(FromSpecialist) && w.RouterOf("database-performance-monitor") == Some(FromSpecialist)
      && w.RouterOf("response-squad") == Some(FromResponse)
      && (forall n :: n in w.nodes && (n in AdditionalStages || n == "compute-resource-specialist") ==> w.RouterOf(n) == Some(FromRemediation))
  {
    EdgesUnique(additional);
    var e := Edges(additional);
    assert e[..8] == CoreEdges;
    forall n | n in Registry(additional) && (n in AdditionalStages || n == "compute-resource-specialist")
      ensures Get(e, n) == Some(FromRemediation)
    {
      if n != "compute-resource-specialist" {
        var k :| 0 <= k < |AdditionalStages| && AdditionalStages[k] == n;
        assert additional;
        assert e[8 + k] == (n, FromRemediation);
      } else {
        assert e[7] == (n, FromRemediation);
      }
    }
    assert Get(e, e[0].0) == Some(e[0].1);
    assert Get(e, e[1].0) == Some(e[1].1);
    assert Get(e, e[2].0) == Some(e[2].1);
    assert Get(e, e[3].0) == Some(e[3].1);
    assert Get(e, e[4].0) == Some(e[4].1);
    assert Get(e, e[5].0) == Some(e[5].1);
    assert Get(e, e[6].0) == Some(e[6].1);
  }

  /** Every registered monitor and response specialist id is a `SpecialistType` value. */
  lemma RegisteredSpecialistsAreTyped(additional: bool)
    ensures forall n :: n in Registry(additional) && n !in ["tribe_orchestrator", "diagnostics-squad", "response-squad"] ==>
      exists t: SpecialistType :: t.Value() == n
  {
    assert ComputeMonitor.Value() == "compute-monitor";
    assert DiskMonitor.Value() == "disk-monitor";
    assert NetworkMonitor.Value() == "network-monitor";
    assert DatabasePerformanceMonitor.Value() == "database-performance-monitor";
    assert ComputeResourceSpecialist.Value() == "compute-resource-specialist";
    assert StorageResponseSpecialist.Value() == "storage-response-specialist";
    assert DatabaseResponseSpecialist.Value() == "database-response-specialist";
    assert NetworkResponseSpecialist.Value() == "network-response-specialist";
  }
}
