// The four remediation executors (src/agents/specialists/response.py,
// database_response.py, storage_response.py and network_response.py).  Each
// runs one loop over `remediation_plan["actions"]`, fills a fresh
// `execution_results` dict keyed by the actions, declares the incident
// resolved and logs once; they differ only in what an action yields.
module Remediation {
  import opened Wrappers
  import opened Dicts
  import opened Values
  import opened Text
  import opened RunState
  import opened Config
  import opened Infrastructure

  /** `{"status": "completed", detail: value, "verification": verification}`. */
  function Done(detail: string, value: Value, verification: string): (r: Value)
    requires detail != "status" && detail != "verification"
    ensures r.VDict? && |r.entries| == 3
    ensures Get(r.entries, "status") == Some(VStr("completed"))
    ensures Get(r.entries, "verification") == Some(VStr(verification))
  {
    var d := [("status", VStr("completed")), (detail, value), ("verification", VStr(verification))];
    GetFirst(d, 2);
    VDict(d)
  }

  /** The record of a `monitor` action. */
  function Watching(verification: string): (r: Value)
    ensures r.VDict? && |r.entries| == 3
    ensures Get(r.entries, "status") == Some(VStr("monitoring_active"))
    ensures Get(r.entries, "verification") == Some(VStr(verification))
  {
    var d := [("status", VStr("monitoring_active")), ("monitoring_duration", VStr("continuous")),
              ("verification", VStr(verification))];
    GetFirst(d, 2);
    VDict(d)
  }

  /** The record of an action no branch names. */
  function Generic(action: string): (r: Value)
    ensures r.VDict? && Keys(r.entries) == ["status", "verification"]
    ensures Get(r.entries, "status") == Some(VStr("completed"))
    ensures Get(r.entries, "verification") == Some(VStr(action + "_executed_successfully"))
  {
    VDict([("status", VStr("completed")), ("verification", VStr(action + "_executed_successfully"))])
  }

  /** The storage cleanup report carries no "status" key. */
  lemma CleanupHasNoStatus()
    ensures CleanupReading.VDict? && Get(CleanupReading.entries, "status") == None
  {
    assert Keys(CleanupReading.entries) == ["cleanup_results", "space_recovered", "safety_confirmations"];
  }

  /**
   * `ComputeResourceSpecialist`: the record one action stores ("memory_cleanup"
   * stores the cleanup engine's report, when the engine answers).
   */
  function ComputeOutcome(action: string): (r: Value)
    ensures r.VDict?
    ensures action == "memory_cleanup" ==> r == CleanupReading
    ensures action == "scale_resources" ==>
      Get(r.entries, "status") == Some(VStr("completed"))
      && Get(r.entries, "verification") == Some(VStr("resources_scaled_successfully"))
    ensures action == "monitor" ==>
      Get(r.entries, "status") == Some(VStr("monitoring_active"))
      && Get(r.entries, "verification") == Some(VStr("monitoring_configured"))
    ensures action !in {"memory_cleanup", "scale_resources", "monitor"} ==> r == Generic(action)
  {
    if action == "memory_cleanup" then CleanupReading
    else if action == "scale_resources" then Done("new_capacity", VStr("increased_by_25_percent"), "resources_scaled_successfully")
    else if action == "monitor" then Watching("monitoring_configured")
    else Generic(action)
  }

  /** `DatabaseResponseSpecialist`: what one action yields; no action raises. */
  function DatabaseOutcome(action: string): (r: Value)
    ensures r.VDict?
    ensures action in {"resolve_locks", "optimize_queries", "scale_connections"} ==>
      Get(r.entries, "status") == Some(VStr("completed"))
    ensures action == "resolve_locks" ==> Get(r.entries, "verification") == Some(VStr("blocking_sessions_cleared"))
    ensures action == "optimize_queries" ==> Get(r.entries, "verification") == Some(VStr("query_performance_improved"))
    ensures action == "scale_connections" ==> Get(r.entries, "verification") == Some(VStr("connection_pool_expanded"))
    ensures action == "monitor" ==>
      Get(r.entries, "status") == Some(VStr("monitoring_active"))
      && Get(r.entries, "verification") == Some(VStr("database_monitoring_configured"))
    ensures action !in {"resolve_locks", "optimize_queries", "scale_connections", "monitor"} ==> r == Generic(action)
  {
    if action == "resolve_locks" then Done("locks_resolved", VInt(2), "blocking_sessions_cleared")
    else if action == "optimize_queries" then Done("queries_optimized", VInt(5), "query_performance_improved")
    else if action == "scale_connections" then Done("new_pool_size", VInt(150), "connection_pool_expanded")
    else if action == "monitor" then Watching("database_monitoring_configured")
    else Generic(action)
  }

  /** `StorageResponseSpecialist`: the record one action stores ("cleanup_logs" stores the cleanup report). */
  function StorageOutcome(action: string): (r: Value)
    ensures r.VDict?
    ensures action == "cleanup_logs" ==> r == CleanupReading
    ensures action == "expand_storage" ==>
      Get(r.entries, "status") == Some(VStr("completed"))
      && Get(r.entries, "verification") == Some(VStr("storage_expanded_successfully"))
    ensures action == "monitor" ==>
      Get(r.entries, "status") == Some(VStr("monitoring_active"))
      && Get(r.entries, "verification") == Some(VStr("disk_monitoring_configured"))
    ensures action !in {"cleanup_logs", "expand_storage", "monitor"} ==> r == Generic(action)
  {
    if action == "cleanup_logs" then CleanupReading
    else if action == "expand_storage" then Done("new_capacity", VStr("expanded_by_50_percent"), "storage_expanded_successfully")
    else if action == "monitor" then Watching("disk_monitoring_configured")
    else Generic(action)
  }

  /** `NetworkResponseSpecialist`: what one action yields; no action raises. */
  function NetworkOutcome(action: string): (r: Value)
    ensures r.VDict?
    ensures action == "investigate_routing" ==>
      Get(r.entries, "status") == Some(VStr("completed"))
      && Get(r.entries, "verification") == Some(VStr("routing_table_updated"))
    ensures action == "optimize_network" ==>
      Get(r.entries, "status") == Some(VStr("completed"))
      && Get(r.entries, "verification") == Some(VStr("network_performance_optimized"))
    ensures action == "monitor" ==>
      Get(r.entries, "status") == Some(VStr("monitoring_active"))
      && Get(r.entries, "verification") == Some(VStr("network_monitoring_configured"))
    ensures action !in {"investigate_routing", "optimize_network", "monitor"} ==> r == Generic(action)
  {
    if action == "investigate_routing" then Done("routing_issues_found", VInt(1), "routing_table_updated")
    else if action == "optimize_network" then Done("latency_improvement", VStr("25%"), "network_performance_optimized")
    else if action == "monitor" then Watching("network_monitoring_configured")
    else Generic(action)
  }

  datatype Executor = ComputeResource | DatabaseResponse | StorageResponse | NetworkResponse {
    function AgentId(): string {
      match this
      case ComputeResource => "compute-resource-specialist"
      case DatabaseResponse => "database-response-specialist"
      case StorageResponse => "storage-response-specialist"
      case NetworkResponse => "network-response-specialist"
    }

    /** The text before the key list in the closing log entry; the storage executor reuses the network wording. */
    function Summary(): string {
      match this
      case ComputeResource => "Remediation actions completed: "
      case DatabaseResponse => "Database remediation actions completed: "
      case StorageResponse => "Network remediation actions completed: "
      case NetworkResponse => "Network remediation actions completed: "
    }

    /** The action that calls the storage cleanup engine, if this executor has one. */
    function CleanupAction(): Option<string> {
      match this
      case ComputeResource => Some("memory_cleanup")
      case StorageResponse => Some("cleanup_logs")
      case _ => None
    }

    /** The record an action stores once it has run. */
    function Record(action: string): Value {
      match this
      case ComputeResource => ComputeOutcome(action)
      case DatabaseResponse => DatabaseOutcome(action)
      case StorageResponse => StorageOutcome(action)
      case NetworkResponse => NetworkOutcome(action)
    }

    /** Running one action: only the cleanup engine can raise. */
    function Outcome(env: Env, action: string): (r: Result<Value, string>)
      ensures r.Failure? <==> Some(action) == CleanupAction() && StorageCleanupTool in env.toolErrors
      ensures r.Success? ==> r.value == Record(action)
    {
      if Some(action) == CleanupAction() then Call(env, StorageCleanupTool, Record(action)) else Success(Record(action))
    }
  }

  /** `execution_results[action]`: a list or dict action is unhashable; any other is keyed by its text. */
  function ActionKey(a: Value): (r: Result<string, string>)
    ensures r.Success? <==> !a.VList? && !a.VDict?
    ensures r.Success? ==> r.value == Str(a)
  {
    match a
    case VList(_) => Failure("unhashable type: 'list'")
    case VDict(_) => Failure("unhashable type: 'dict'")
    case _ => Success(Str(a))
  }

  /** One pass of the loop body: the key and the record stored under it. */
  function Step(e: Executor, env: Env, a: Value): Result<(string, Value), string> {
    var key :- ActionKey(a);
    var outcome :- e.Outcome(env, key);
    Success((key, outcome))
  }

  function StepFn(e: Executor, env: Env): Value -> Result<(string, Value), string> {
    a => Step(e, env, a)
  }

  /** The dict the assignments `execution_results[k] = v` build, in order. */
  function Collect(pairs: seq<(string, Value)>): Dict<Value> {
    if pairs == [] then [] else Put(Collect(pairs[..|pairs| - 1]), pairs[|pairs| - 1].0, pairs[|pairs| - 1].1)
  }

  function Firsts(pairs: seq<(string, Value)>): (ks: seq<string>)
    ensures |ks| == |pairs| && forall i :: 0 <= i < |pairs| ==> ks[i] == pairs[i].0
  {
    seq(|pairs|, i requires 0 <= i < |pairs| => pairs[i].0)
  }

  /** The keys of the built dict are the distinct assigned keys, in first-assignment order. */
  lemma {:induction false} CollectKeys(pairs: seq<(string, Value)>)
    ensures Keys(Collect(pairs)) == Distinct(Firsts(pairs))
  {
    if pairs != [] {
      var init := pairs[..|pairs| - 1];
      CollectKeys(init);
      assert Firsts(pairs)[..|pairs| - 1] == Firsts(init);
    }
  }

  /** When every assignment to a key stores the same record, that record is what the key holds. */
  lemma {:induction false} CollectGet(pairs: seq<(string, Value)>, f: string -> Value)
    requires forall i :: 0 <= i < |pairs| ==> pairs[i].1 == f(pairs[i].0)
    ensures forall k :: k in Firsts(pairs) ==> Get(Collect(pairs), k) == Some(f(k))
  {
    if pairs != [] {
      var init := pairs[..|pairs| - 1];
      assert forall i :: 0 <= i < |init| ==> init[i] == pairs[i];
      CollectGet(init, f);
      forall k | k in Firsts(pairs) ensures Get(Collect(pairs), k) == Some(f(k)) {
        if k != pairs[|pairs| - 1].0 {
          var i :| 0 <= i < |pairs| && Firsts(pairs)[i] == k;
          assert Firsts(init)[i] == k;
        }
      }
    }
  }

  /** `remediation_plan.get("actions", [])`. */
  function PlannedActions(plan: Dict<Value>): Value {
    Get(plan, "actions").GetOr(VList([]))
  }

  /** The loop of `execute`: the results dict, or the exception that stopped it. */
  function Executed(e: Executor, env: Env, plan: Dict<Value>): Result<Dict<Value>, string> {
    var actions :- Iterate(PlannedActions(plan));
    var pairs :- MapAll(actions, StepFn(e, env));
    Success(Collect(pairs))
  }

  /** The texts under which the actions are stored. */
  function ActionKeys(actions: seq<Value>): (ks: seq<string>)
    ensures |ks| == |actions| && forall i :: 0 <= i < |actions| ==> ks[i] == Str(actions[i])
  {
    seq(|actions|, i requires 0 <= i < |actions| => Str(actions[i]))
  }

  /** No action can be stored while the planned actions are not iterable. */
  lemma {:induction false} StepRaises(e: Executor, env: Env, x: Value)
    ensures StepFn(e, env)(x).Success? <==>
      !x.VList? && !x.VDict? && !(Some(Str(x)) == e.CleanupAction() && StorageCleanupTool in env.toolErrors)
    ensures StepFn(e, env)(x).Success? ==> StepFn(e, env)(x).value == (Str(x), e.Record(Str(x)))
  {
  }

  /**
   * The loop raises exactly when the planned actions are not iterable, one
   * is a list or a dict, or the cleanup action is planned and the cleanup
   * engine raises.
   */
  lemma ExecutedRaises(e: Executor, env: Env, plan: Dict<Value>)
    ensures var a := PlannedActions(plan);
      Executed(e, env, plan).Success? <==>
        && (a.VList? || a.VStr? || a.VDict?)
        && forall x :: x in Iterate(a).value ==>
             !x.VList? && !x.VDict? && !(Some(Str(x)) == e.CleanupAction() && StorageCleanupTool in env.toolErrors)
  {
    var a := PlannedActions(plan);
    if a.VList? || a.VStr? || a.VDict? {
      var actions := Iterate(a).value;
      forall x | x in actions {
        StepRaises(e, env, x);
      }
    }
  }

  /**
   * A completed loop keys the results by exactly the distinct actions, in
   * first-occurrence order, and each key holds its action's record.
   */
  lemma ExecutedResults(e: Executor, env: Env, plan: Dict<Value>)
    requires Executed(e, env, plan).Success?
    ensures var actions := Iterate(PlannedActions(plan)).value;
      var results := Executed(e, env, plan).value;
      && Keys(results) == Distinct(ActionKeys(actions))
      && forall k :: k in ActionKeys(actions) ==> Get(results, k) == Some(e.Record(k))
  {
    var actions := Iterate(PlannedActions(plan)).value;
    var pairs := MapAll(actions, StepFn(e, env)).value;
    forall i | 0 <= i < |actions| ensures pairs[i] == (Str(actions[i]), e.Record(Str(actions[i]))) {
      StepRaises(e, env, actions[i]);
    }
    CollectKeys(pairs);
    assert Firsts(pairs) == ActionKeys(actions);
    CollectGet(pairs, e.Record);
  }

  /** The state after the loop completed: results replaced, incident resolved, one entry logged. */
  function Resolved(s: Snapshot, now: string, e: Executor, results: Dict<Value>): (r: Snapshot)
    ensures r.executionResults == results
    ensures r.completionStatus == Some("resolved") && r.workflowStatus == Some("completed")
    ensures Logs(r) == Logs(s) + [LogEntry(now, e.AgentId(), "system", e.Summary() + StrListRepr(Keys(results)), s.incident.incidentId)]
    ensures r.(executionResults := s.executionResults, completionStatus := s.completionStatus,
               workflowStatus := s.workflowStatus, communicationLogs := s.communicationLogs) == s
  {
    var s1 := s.(executionResults := results, completionStatus := Some("resolved"), workflowStatus := Some("completed"));
    Logged(s1, now, e.AgentId(), e.Summary() + StrListRepr(Keys(results)), None)
  }

  /** An executor's `execute`. */
  function AfterRemediation(e: Executor, env: Env, s: Snapshot): Result<Snapshot, string> {
    var results :- Executed(e, env, s.remediationPlan);
    Success(Resolved(s, env.now, e, results))
  }

  /** A plan without actions still resolves the incident, with no results. */
  lemma EmptyPlanResolves(e: Executor, env: Env, s: Snapshot)
    requires "actions" !in Keys(s.remediationPlan)
    ensures AfterRemediation(e, env, s).Success?
    ensures AfterRemediation(e, env, s).value.executionResults == []
    ensures AfterRemediation(e, env, s).value.completionStatus == Some("resolved")
  {
  }

  /** The loop of `execute`, which fills a fresh results dict. */
  method RunActions(e: Executor, env: Env, plan: Dict<Value>) returns (r: Result<Dict<Value>, string>)
    ensures r == Executed(e, env, plan)
  {
    var planned := Iterate(PlannedActions(plan));
    if planned.Failure? {
      return Failure(planned.error);
    }
    var actions := planned.value;
    var pairs: seq<(string, Value)> := [];
    var results: Dict<Value> := [];
    var i := 0;
    while i < |actions|
      invariant 0 <= i <= |actions|
      invariant MapAll(actions[..i], StepFn(e, env)) == Success(pairs)
      invariant results == Collect(pairs)
    {
      var step := Step(e, env, actions[i]);
      if step.Failure? {
        MapAllFirstFailure(actions, StepFn(e, env), i);
        return Failure(step.error);
      }
      MapAllExtend(actions, StepFn(e, env), i);
      assert (pairs + [step.value])[..|pairs|] == pairs;
      pairs := pairs + [step.value];
      results := Put(results, step.value.0, step.value.1);
      i := i + 1;
    }
    assert actions[..|actions|] == actions;
    r := Success(results);
  }

  method Resolve(st: State, now: string, e: Executor, results: Dict<Value>)
    modifies st
    ensures st.Snap() == Resolved(old(st.Snap()), now, e, results)
  {
    var message := e.Summary() + StrListRepr(Keys(results));
    st.executionResults := results;
    st.completionStatus := Some("resolved");
    st.workflowStatus := Some("completed");
    st.LogCommunication(now, e.AgentId(), message, None);
  }

  /** An executor's `execute`, in place; an exception leaves the state as it was. */
  method Execute(st: State, env: Env, e: Executor) returns (raised: Option<string>)
    modifies st
    ensures raised.None? <==> AfterRemediation(e, env, old(st.Snap())).Success?
    ensures raised.Some? ==> raised.value == AfterRemediation(e, env, old(st.Snap())).error && st.Snap() == old(st.Snap())
    ensures raised.None? ==> st.Snap() == AfterRemediation(e, env, old(st.Snap())).value
  {
    var results := RunActions(e, env, st.remediationPlan);
    if results.Failure? {
      return Some(results.error);
    }
    Resolve(st, env.now, e, results.value);
    raised := None;
  }
}
