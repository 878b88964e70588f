// The diagnostics squad (src/agents/squads/diagnostics.py): it picks the
// monitor for the incident's category and hands the workflow to it.
module Diagnostics {
  import opened Wrappers
  import opened Dicts
  import opened Values
  import opened Text
  import opened Enums
  import opened RunState

  const AgentId := "diagnostics-squad"
  const DefaultMonitor := "compute-monitor"

  /** The category table, with its fallback for any other category. */
  function MonitorFor(category: string): (r: string)
    ensures r == DefaultMonitor <==>
      category !in {"disk_utilization", "network_connectivity", "database_performance",
                    "application_performance", "security_incident", "backup_failure"}
  {
    match category
    case "cpu_utilization" => "compute-monitor"
    case "memory_utilization" => "compute-monitor"
    case "disk_utilization" => "disk-monitor"
    case "network_connectivity" => "network-monitor"
    case "database_performance" => "database-performance-monitor"
    case "application_performance" => "application-performance-monitor"
    case "security_incident" => "security-monitor"
    case "backup_failure" => "backup-monitor"
    case _ => DefaultMonitor
  }

  /**
   * `_get_specialists_for_category`: a dictionary lookup, so a category
   * that is a list or a dict cannot be hashed and raises; any other value
   * that is not one of the table's strings gets the fallback.
   */
  function SpecialistsFor(category: Value): (r: Result<seq<string>, string>)
    ensures r.Success? <==> !(category.VList? || category.VDict?)
    ensures r.Success? ==> |r.value| == 1
    ensures r.Success? ==> r.value[0] == (if category.VStr? then MonitorFor(category.s) else DefaultMonitor)
  {
    match category
    case VList(_) => Failure("unhashable type: 'list'")
    case VDict(_) => Failure("unhashable type: 'dict'")
    case VStr(c) => Success([MonitorFor(c)])
    case _ => Success([DefaultMonitor])
  }

  /** The category the squad reads from the classification record. */
  function CategoryIn(s: Snapshot): Value {
    Get(s.incidentClassification, "incident_category").GetOr(VStr("cpu_utilization"))
  }

  function Coordinating(s: Snapshot, now: string, specialists: seq<string>): Snapshot
    requires specialists != []
  {
    Logged(Assigned(s, now, specialists), now, AgentId, CoordinationMessage(specialists), None)
  }

  /** The squad's writes before it logs: the two diagnostics keys, the status and the first specialist. */
  function Assigned(s: Snapshot, now: string, specialists: seq<string>): Snapshot
    requires specialists != []
  {
    s.(squadDiagnostics := CoordinationRecord(s.squadDiagnostics, now, specialists),
       workflowStatus := Some("diagnostics_coordinating"),
       currentAgent := Some(specialists[0]))
  }

  /** The diagnostics record with the assigned specialists and the coordination time written in. */
  function CoordinationRecord(d: Dict<Value>, now: string, specialists: seq<string>): Dict<Value> {
    Put(Put(d, "assigned_specialists", StrList(specialists)), "coordination_timestamp", VStr(now))
  }

  /** The line the squad logs when it hands the incident to its first specialist. */
  function CoordinationMessage(specialists: seq<string>): string
    requires specialists != []
  {
    "Diagnostics squad coordinating. Assigned specialists: " + StrListRepr(specialists)
    + ". Routing to: " + specialists[0]
  }

  /** `DiagnosticsSquad.execute`. */
  function AfterDiagnostics(now: string, s: Snapshot): Result<Snapshot, string> {
    var specialists :- SpecialistsFor(CategoryIn(s));
    Success(Coordinating(s, now, specialists))
  }

  /**
   * The squad raises exactly when the category is unhashable; otherwise it
   * routes to the category's monitor, records the assignment and its time,
   * appends one log entry and changes nothing else.
   */
  lemma AfterDiagnosticsSpec(now: string, s: Snapshot)
    ensures var r := AfterDiagnostics(now, s);
      && (r.Success? <==> !(CategoryIn(s).VList? || CategoryIn(s).VDict?))
      && (r.Success? ==>
            var monitor := if CategoryIn(s).VStr? then MonitorFor(CategoryIn(s).s) else DefaultMonitor;
            && r.value.currentAgent == Some(monitor)
            && r.value.workflowStatus == Some("diagnostics_coordinating")
            && Get(r.value.squadDiagnostics, "assigned_specialists") == Some(StrList([monitor]))
            && Get(r.value.squadDiagnostics, "coordination_timestamp") == Some(VStr(now))
            && |Logs(r.value)| == |Logs(s)| + 1
            && Logs(r.value) == Logs(s) + [LogEntry(now, AgentId, "system", CoordinationMessage([monitor]), s.incident.incidentId)]
            && r.value.(squadDiagnostics := s.squadDiagnostics, workflowStatus := s.workflowStatus,
                        currentAgent := s.currentAgent, communicationLogs := s.communicationLogs) == s)
  {
  }

  /** `DiagnosticsSquad.execute`, in place; the lookup happens before any write. */
  method Execute(st: State, now: string) returns (raised: Option<string>)
    modifies st
    ensures raised.None? <==> AfterDiagnostics(now, old(st.Snap())).Success?
    ensures raised.Some? ==> raised.value == AfterDiagnostics(now, old(st.Snap())).error && st.Snap() == old(st.Snap())
    ensures raised.None? ==> st.Snap() == AfterDiagnostics(now, old(st.Snap())).value
  {
    var category := Get(st.incidentClassification, "incident_category").GetOr(VStr("cpu_utilization"));
    var specialists := SpecialistsFor(category);
    if specialists.Failure? {
      return Some(specialists.error);
    }
    Coordinate(st, now, specialists.value);
    raised := None;
  }

  method Coordinate(st: State, now: string, specialists: seq<string>)
    requires specialists != []
    modifies st
    ensures st.Snap() == Coordinating(old(st.Snap()), now, specialists)
  {
    st.squadDiagnostics := CoordinationRecord(st.squadDiagnostics, now, specialists);
    HandTo(st, specialists[0]);
    st.LogCommunication(now, AgentId, CoordinationMessage(specialists), None);
  }

  /** Marks the workflow as coordinating and makes `specialist` the current agent. */
  method HandTo(st: State, specialist: string)
    modifies st
    ensures st.Snap() == old(st.Snap()).(workflowStatus := Some("diagnostics_coordinating"),
                                         currentAgent := Some(specialist))
  {
    st.workflowStatus := Some("diagnostics_coordinating");
    st.currentAgent := Some(specialist);
  }
}
