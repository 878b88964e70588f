// The shared run state (`SupportOpsState`) that every stage reads and
// updates in place.  `Snapshot` is its value; the class `State` holds the
// same fields as mutable variables.  A control field the source reads with
// `state.get(key, default)` is an Option: None means the key is absent.
module RunState {
  import opened Wrappers
  import opened Dicts
  import opened Values
  import opened Incidents

  /** One entry of `communication_logs`, written by `log_communication`. */
  datatype LogEntry = LogEntry(timestamp: string, fromAgent: string, toAgent: string, message: string, incidentId: string)

  datatype Snapshot = Snapshot(
    incident: IncidentData,
    tribeObservations: Dict<Value>,
    squadDiagnostics: Dict<Value>,
    specialistFindings: Dict<Value>,
    incidentClassification: Dict<Value>,
    delegationDecision: Dict<Value>,
    remediationPlan: Dict<Value>,
    executionResults: Dict<Value>,
    approvalRequests: seq<Value>,
    escalationHistory: seq<Value>,
    communicationLogs: Option<seq<LogEntry>>,
    knowledgeUpdates: seq<Value>,
    currentAgent: Option<string>,
    workflowStatus: Option<string>,
    completionStatus: Option<string>,
    isIntentValid: Option<bool>,
    intentClassificationReason: Option<string>)

  /** LangGraph's `END` marker, which a stage may also store as its preference. */
  const End := "__end__"

  function Logs(s: Snapshot): seq<LogEntry> {
    s.communicationLogs.GetOr([])
  }

  /** `target_agent or "system"`: an absent or empty target means the system. */
  function Recipient(target: Option<string>): (r: string)
    ensures r != ""
    ensures target.Some? && target.value != "" ==> r == target.value
  {
    if target.Some? && target.value != "" then target.value else "system"
  }

  /** The state after `log_communication`: one entry appended, nothing else touched. */
  function Logged(s: Snapshot, now: string, agentId: string, message: string, target: Option<string>): (r: Snapshot)
    ensures Logs(r) == Logs(s) + [LogEntry(now, agentId, Recipient(target), message, s.incident.incidentId)]
    ensures r.communicationLogs.Some?
    ensures r.(communicationLogs := s.communicationLogs) == s
  {
    s.(communicationLogs := Some(Logs(s) + [LogEntry(now, agentId, Recipient(target), message, s.incident.incidentId)]))
  }

  /** The state the chat drivers hand to the graph for a new incident. */
  function Initial(inc: IncidentData): (s: Snapshot)
    ensures s.incident == inc && Logs(s) == []
    ensures s.currentAgent == Some("") && s.workflowStatus == Some("initialized")
    ensures s.completionStatus == Some("in_progress")
  {
    Snapshot(inc, [], [], [], [], [], [], [], [], [], Some([]), [], Some(""),
             Some("initialized"), Some("in_progress"), None, None)
  }

  class State {
    var incident: IncidentData
    var tribeObservations: Dict<Value>
    var squadDiagnostics: Dict<Value>
    var specialistFindings: Dict<Value>
    var incidentClassification: Dict<Value>
    var delegationDecision: Dict<Value>
    var remediationPlan: Dict<Value>
    var executionResults: Dict<Value>
    var approvalRequests: seq<Value>
    var escalationHistory: seq<Value>
    var communicationLogs: Option<seq<LogEntry>>
    var knowledgeUpdates: seq<Value>
    var currentAgent: Option<string>
    var workflowStatus: Option<string>
    var completionStatus: Option<string>
    var isIntentValid: Option<bool>
    var intentClassificationReason: Option<string>

    function Snap(): Snapshot
      reads this
    {
      Snapshot(incident, tribeObservations, squadDiagnostics, specialistFindings, incidentClassification,
               delegationDecision, remediationPlan, executionResults, approvalRequests, escalationHistory,
               communicationLogs, knowledgeUpdates, currentAgent, workflowStatus, completionStatus,
               isIntentValid, intentClassificationReason)
    }

    constructor (s: Snapshot)
      ensures Snap() == s
    {
      incident := s.incident;
      tribeObservations := s.tribeObservations;
      squadDiagnostics := s.squadDiagnostics;
      specialistFindings := s.specialistFindings;
      incidentClassification := s.incidentClassification;
      delegationDecision := s.delegationDecision;
      remediationPlan := s.remediationPlan;
      executionResults := s.executionResults;
      approvalRequests := s.approvalRequests;
      escalationHistory := s.escalationHistory;
      communicationLogs := s.communicationLogs;
      knowledgeUpdates := s.knowledgeUpdates;
      currentAgent := s.currentAgent;
      workflowStatus := s.workflowStatus;
      completionStatus := s.completionStatus;
      isIntentValid := s.isIntentValid;
      intentClassificationReason := s.intentClassificationReason;
    }

    /**
     * `BaseAgent.log_communication`: create `communication_logs` when it is
     * absent, then append one entry addressed to the target or the system.
     */
    method LogCommunication(now: string, agentId: string, message: string, target: Option<string>)
      modifies this
      ensures Snap() == Logged(old(Snap()), now, agentId, message, target)
    {
      var entry := LogEntry(now, agentId, Recipient(target), message, incident.incidentId);
      if communicationLogs.None? {
        communicationLogs := Some([]);
      }
      communicationLogs := Some(communicationLogs.value + [entry]);
    }
  }
}
