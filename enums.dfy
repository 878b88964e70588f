// The enumerations of the framework with their string values.  `FromValue`
// is the `Enum(value)` lookup, which raises ValueError for an unknown value.
module Enums {
  import opened Wrappers
  import opened Text

  datatype Severity = Low | Medium | High | Critical {
    function Value(): string {
      match this
      case Low => "low"
      case Medium => "medium"
      case High => "high"
      case Critical => "critical"
    }
  }

  function SeverityFromValue(s: string): (r: Option<Severity>)
    ensures r.Some? ==> r.value.Value() == s
    ensures forall x: Severity :: x.Value() == s ==> r == Some(x)
  {
    if s == "low" then Some(Low)
    else if s == "medium" then Some(Medium)
    else if s == "high" then Some(High)
    else if s == "critical" then Some(Critical)
    else None
  }

  datatype AgentType = Tribe | Squad | Specialist {
    function Value(): string {
      match this
      case Tribe => "tribe"
      case Squad => "squad"
      case Specialist => "specialist"
    }
  }

  datatype Category =
    | CpuUtilization | MemoryUtilization | DiskUtilization | NetworkConnectivity
    | DatabasePerformance | ApplicationPerformance | SecurityIncident | BackupFailure
  {
    function Value(): string {
      match this
      case CpuUtilization => "cpu_utilization"
      case MemoryUtilization => "memory_utilization"
      case DiskUtilization => "disk_utilization"
      case NetworkConnectivity => "network_connectivity"
      case DatabasePerformance => "database_performance"
      case ApplicationPerformance => "application_performance"
      case SecurityIncident => "security_incident"
      case BackupFailure => "backup_failure"
    }
  }

  function CategoryFromValue(s: string): (r: Option<Category>)
    ensures r.Some? ==> r.value.Value() == s
    ensures forall x: Category :: x.Value() == s ==> r == Some(x)
  {
    if s == "cpu_utilization" then Some(CpuUtilization)
    else if s == "memory_utilization" then Some(MemoryUtilization)
    else if s == "disk_utilization" then Some(DiskUtilization)
    else if s == "network_connectivity" then Some(NetworkConnectivity)
    else if s == "database_performance" then Some(DatabasePerformance)
    else if s == "application_performance" then Some(ApplicationPerformance)
    else if s == "security_incident" then Some(SecurityIncident)
    else if s == "backup_failure" then Some(BackupFailure)
    else None
  }

  datatype WorkflowStatus = Initialized | InProgress | AnalysisComplete | Completed | Failed {
    /** Of these values only `analysis_complete` carries the `_complete` suffix that ends a run at a specialist. */
    function Value(): (r: string)
      ensures EndsWith(r, "_complete") <==> this == AnalysisComplete
    {
      match this
      case Initialized => "initialized"
      case InProgress => "in_progress"
      case AnalysisComplete => "analysis_complete"
      case Completed => "completed"
      case Failed => "failed"
    }
  }

  datatype CompletionStatus = CompletionInProgress | Resolved | Escalated | CompletionFailed {
    function Value(): string {
      match this
      case CompletionInProgress => "in_progress"
      case Resolved => "resolved"
      case Escalated => "escalated"
      case CompletionFailed => "failed"
    }
  }

  datatype SpecialistType =
    | ComputeMonitor | DiskMonitor | NetworkMonitor | BackupMonitor | VmwareMonitor | AwsMonitor
    | KubernetesMonitor | DatabasePerformanceMonitor | ApplicationPerformanceMonitor | SecurityMonitor
    | LogCollector | HistoricalMetricSpecialist
    | ComputeResourceSpecialist | StorageResponseSpecialist | NetworkResponseSpecialist
    | ApplicationResponseSpecialist | DatabaseResponseSpecialist | SecurityResponseSpecialist
    | DocumentationSpecialist | TrainingSpecialist | ProcessImprovementSpecialist
  {
    function Value(): string {
      match this
      case ComputeMonitor => "compute-monitor"
      case DiskMonitor => "disk-monitor"
      case NetworkMonitor => "network-monitor"
      case BackupMonitor => "backup-monitor"
      case VmwareMonitor => "vmware-monitor"
      case AwsMonitor => "aws-monitor"
      case KubernetesMonitor => "kubernetes-monitor"
      case DatabasePerformanceMonitor => "database-performance-monitor"
      case ApplicationPerformanceMonitor => "application-performance-monitor"
      case SecurityMonitor => "security-monitor"
      case LogCollector => "log-collector"
      case HistoricalMetricSpecialist => "historical-metric-specialist"
      case ComputeResourceSpecialist => "compute-resource-specialist"
      case StorageResponseSpecialist => "storage-response-specialist"
      case NetworkResponseSpecialist => "network-response-specialist"
      case ApplicationResponseSpecialist => "application-response-specialist"
      case DatabaseResponseSpecialist => "database-response-specialist"
      case SecurityResponseSpecialist => "security-response-specialist"
      case DocumentationSpecialist => "documentation-specialist"
      case TrainingSpecialist => "training-specialist"
      case ProcessImprovementSpecialist => "process-improvement-specialist"
    }
  }

  const AllSpecialistTypes: seq<SpecialistType> := [
    ComputeMonitor, DiskMonitor, NetworkMonitor, BackupMonitor, VmwareMonitor, AwsMonitor,
    KubernetesMonitor, DatabasePerformanceMonitor, ApplicationPerformanceMonitor, SecurityMonitor,
    LogCollector, HistoricalMetricSpecialist,
    ComputeResourceSpecialist, StorageResponseSpecialist, NetworkResponseSpecialist,
    ApplicationResponseSpecialist, DatabaseResponseSpecialist, SecurityResponseSpecialist,
    DocumentationSpecialist, TrainingSpecialist, ProcessImprovementSpecialist]

  /** `SpecialistType(s)`: found exactly when some member has value `s`. */
  function SpecialistTypeFromValue(s: string): (r: Option<SpecialistType>)
    ensures r.Some? ==> r.value.Value() == s
    ensures r.None? ==> forall x: SpecialistType :: x.Value() != s
  {
    FindSpecialist(AllSpecialistTypes, s)
  }

  function FindSpecialist(candidates: seq<SpecialistType>, s: string): (r: Option<SpecialistType>)
    requires forall x: SpecialistType :: x in candidates || x.Value() != s
    ensures r.Some? ==> r.value.Value() == s
    ensures r.None? ==> forall x: SpecialistType :: x.Value() != s
  {
    if candidates == [] then None
    else if candidates[0].Value() == s then Some(candidates[0])
    else FindSpecialist(candidates[1..], s)
  }
}
