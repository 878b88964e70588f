// The network monitor (src/agents/specialists/network.py): one pass over
// the tester's per-host connectivity readings, each host filed under at
// most one finding; an empty host list or a failing tester ends the run.
module NetworkMonitor {
  import opened Wrappers
  import opened Dicts
  import opened Values
  import opened Text
  import opened RunState
  import opened Config
  import opened Monitoring

  const AgentId := "network-monitor"
  const Complete := "network_analysis_complete"

  /** The branch of the loop body a host's reading takes, first match wins. */
  datatype HostStatus = Unreachable | HighLatency | PacketLoss | Healthy

  function StatusOf(c: Connectivity): (r: HostStatus)
    ensures r == Unreachable <==> !c.pingSuccess
    ensures r == HighLatency <==> c.pingSuccess && c.avgLatencyMs > 100.0
    ensures r == PacketLoss <==> c.pingSuccess && c.avgLatencyMs <= 100.0 && c.packetLossPercent > 5.0
  {
    if !c.pingSuccess then Unreachable
    else if c.avgLatencyMs > 100.0 then HighLatency
    else if c.packetLossPercent > 5.0 then PacketLoss
    else Healthy
  }

  /** What one host adds to `connectivity_issues`. */
  function IssueEntry(host: string, c: Connectivity): seq<string> {
    match StatusOf(c)
    case Unreachable => [host + ":unreachable"]
    case PacketLoss => [host + ":packet_loss_" + FloatRepr(c.packetLossPercent) + "%"]
    case _ => []
  }

  /** What one host adds to `high_latency_hosts`. */
  function LatencyEntry(host: string, c: Connectivity): seq<string> {
    if StatusOf(c) == HighLatency then [host + ":" + FloatRepr(c.avgLatencyMs) + "ms"] else []
  }

  function ConnectivityIssues(m: Dict<Connectivity>): seq<string> {
    if m == [] then [] else ConnectivityIssues(m[..|m| - 1]) + IssueEntry(m[|m| - 1].0, m[|m| - 1].1)
  }

  function HighLatencyHosts(m: Dict<Connectivity>): seq<string> {
    if m == [] then [] else HighLatencyHosts(m[..|m| - 1]) + LatencyEntry(m[|m| - 1].0, m[|m| - 1].1)
  }

  /** The number of hosts whose reading is not healthy. */
  function Flagged(m: Dict<Connectivity>): nat {
    if m == [] then 0 else Flagged(m[..|m| - 1]) + (if StatusOf(m[|m| - 1].1) == Healthy then 0 else 1)
  }

  /** The record `_analyze_network_health` returns. */
  datatype Verdict = Verdict(connectivityIssues: seq<string>, highLatencyHosts: seq<string>) {
    predicate RequiresResponse() {
      |connectivityIssues| > 0 || |highLatencyHosts| > 0
    }

    function Actions(): (r: seq<string>)
      ensures |r| == 2
      ensures r[0] == "investigate_routing" <==> connectivityIssues != []
      ensures r[1] == "optimize_network" <==> highLatencyHosts != []
      ensures r[0] in {"investigate_routing", "monitor"} && r[1] in {"optimize_network", "monitor"}
    {
      [if connectivityIssues != [] then "investigate_routing" else "monitor",
       if highLatencyHosts != [] then "optimize_network" else "monitor"]
    }

    function Record(): Dict<Value> {
      [("connectivity_issues", StrList(connectivityIssues)),
       ("high_latency_hosts", StrList(highLatencyHosts)),
       ("requires_response", VBool(RequiresResponse())),
       ("confidence_score", VFloat(0.88)),
       ("recommended_actions", StrList(Actions()))]
    }
  }

  function Health(m: Dict<Connectivity>): Verdict {
    Verdict(ConnectivityIssues(m), HighLatencyHosts(m))
  }

  /** Every host adds at most one entry, and only an unhealthy host adds one. */
  lemma {:induction false} OneEntryPerHost(m: Dict<Connectivity>)
    ensures |ConnectivityIssues(m)| + |HighLatencyHosts(m)| == Flagged(m)
    ensures Flagged(m) <= |m|
  {
    if m != [] {
      OneEntryPerHost(m[..|m| - 1]);
    }
  }

  lemma {:induction false} FlaggedIff(m: Dict<Connectivity>)
    ensures Flagged(m) > 0 <==> exists i :: 0 <= i < |m| && StatusOf(m[i].1) != Healthy
  {
    if m != [] {
      var init := m[..|m| - 1];
      FlaggedIff(init);
      if Flagged(init) > 0 {
        var i :| 0 <= i < |init| && StatusOf(init[i].1) != Healthy;
        assert m[i] == init[i];
      }
      if exists i :: 0 <= i < |m| && StatusOf(m[i].1) != Healthy {
        var i :| 0 <= i < |m| && StatusOf(m[i].1) != Healthy;
        if i < |init| {
          assert init[i] == m[i];
        }
      }
    }
  }

  /** A response is needed exactly when some host is unreachable, slow or lossy. */
  lemma RequiresResponseIff(m: Dict<Connectivity>)
    ensures Health(m).RequiresResponse() <==> exists i :: 0 <= i < |m| && StatusOf(m[i].1) != Healthy
  {
    OneEntryPerHost(m);
    FlaggedIff(m);
  }

  /** A host whose ping failed is reported unreachable, whatever its latency and loss. */
  lemma {:induction false} UnreachableReported(m: Dict<Connectivity>, i: nat)
    requires i < |m| && !m[i].1.pingSuccess
    ensures m[i].0 + ":unreachable" in ConnectivityIssues(m)
  {
    var init := m[..|m| - 1];
    if i < |init| {
      assert init[i] == m[i];
      UnreachableReported(init, i);
    }
  }

  /** `_analyze_network_health`: the loop over `connectivity_status`. */
  method AnalyzeNetworkHealth(report: NetworkReport) returns (v: Verdict)
    ensures v == Health(report.connectivityStatus)
  {
    var m := report.connectivityStatus;
    var issues: seq<string> := [];
    var slow: seq<string> := [];
    var i := 0;
    while i < |m|
      invariant 0 <= i <= |m|
      invariant issues == ConnectivityIssues(m[..i])
      invariant slow == HighLatencyHosts(m[..i])
    {
      var host := m[i].0;
      var c := m[i].1;
      if !c.pingSuccess {
        issues := issues + [host + ":unreachable"];
      } else if c.avgLatencyMs > 100.0 {
        slow := slow + [host + ":" + FloatRepr(c.avgLatencyMs) + "ms"];
      } else if c.packetLossPercent > 5.0 {
        issues := issues + [host + ":packet_loss_" + FloatRepr(c.packetLossPercent) + "%"];
      }
      assert m[..i + 1][..i] == m[..i];
      i := i + 1;
    }
    assert m[..|m|] == m;
    v := Verdict(issues, slow);
  }

  /** The shipped tester reports every host healthy, so nothing is ever flagged. */
  lemma FixtureHealthy(hosts: seq<string>)
    ensures !Health(NetworkConnectivityTester(hosts).connectivityStatus).RequiresResponse()
  {
    var m := NetworkConnectivityTester(hosts).connectivityStatus;
    assert m == FromKeys(hosts, _ => HealthyLink);
    forall i | 0 <= i < |m| ensures StatusOf(m[i].1) == Healthy {
      FromKeysAt(hosts, _ => HealthyLink, i);
    }
    RequiresResponseIff(m);
  }

  function Findings(r: NetworkReport, v: Verdict, now: string): Value {
    VDict([("raw_data", NetworkValue(r)),
           ("analysis_result", VDict(v.Record())),
           ("timestamp", VStr(now)),
           ("specialist_id", VStr(AgentId))])
  }

  /** The state after a completed analysis. */
  function Analysed(s: Snapshot, now: string, findings: Value, v: Verdict): Snapshot {
    var s1 := s.(specialistFindings := Put(s.specialistFindings, "network_analysis", findings));
    var s2 := Logged(s1, now, AgentId, "Network analysis complete. Connectivity issues: " + Str(StrList(v.connectivityIssues)), None);
    if v.RequiresResponse() then s2.(currentAgent := Some("response-squad"), workflowStatus := Some("analysis_requires_response"))
    else s2.(workflowStatus := Some(Complete), currentAgent := Some(End))
  }

  /** Log `message`, declare the network analysis complete and end the run. */
  function Ended(s: Snapshot, now: string, message: string): (r: Snapshot)
    ensures Logs(r) == Logs(s) + [LogEntry(now, AgentId, "system", message, s.incident.incidentId)]
    ensures r.workflowStatus == Some(Complete) && r.currentAgent == Some(End)
    ensures r.(communicationLogs := s.communicationLogs, workflowStatus := s.workflowStatus, currentAgent := s.currentAgent) == s
  {
    Logged(s, now, AgentId, message, None).(workflowStatus := Some(Complete), currentAgent := Some(End))
  }

  /** `NetworkMonitorSpecialist.execute`; it never raises. */
  function AfterNetwork(env: Env, s: Snapshot): Snapshot {
    var s1 := Logged(s, env.now, AgentId, "Starting network analysis", None);
    var systems := s.incident.affectedSystems;
    if systems == [] then Ended(s1, env.now, "No affected systems to analyze")
    else
      match Call(env, NetworkTool, NetworkConnectivityTester(systems))
      case Failure(e) => Ended(s1, env.now, "Error in network analysis: " + e)
      case Success(r) =>
        var v := Health(r.connectivityStatus);
        Analysed(s1, env.now, Findings(r, v, env.now), v)
  }

  lemma AnalysedRoutes(s: Snapshot, now: string, findings: Value, v: Verdict)
    ensures var r := Analysed(s, now, findings, v);
      && Get(r.specialistFindings, "network_analysis") == Some(findings)
      && |Logs(r)| == |Logs(s)| + 1
      && Logs(r) == Logs(s) + [LogEntry(now, AgentId, "system", "Network analysis complete. Connectivity issues: " + Str(StrList(v.connectivityIssues)),
                                        s.incident.incidentId)]
      && (v.RequiresResponse() ==> r.currentAgent == Some("response-squad") && r.workflowStatus == Some("analysis_requires_response"))
      && (!v.RequiresResponse() ==> r.currentAgent == Some(End) && r.workflowStatus == Some(Complete))
  {
  }

  /**
   * The monitor hands over to the response squad exactly when it had hosts
   * to test, the tester answered and some host was flagged; every other
   * run ends here with the network analysis complete.
   */
  lemma AfterNetworkSpec(env: Env, s: Snapshot)
    ensures var r := AfterNetwork(env, s);
      var systems := s.incident.affectedSystems;
      var responds := systems != [] && NetworkTool !in env.toolErrors
        && Health(NetworkConnectivityTester(systems).connectivityStatus).RequiresResponse();
      && (responds ==> r.currentAgent == Some("response-squad") && r.workflowStatus == Some("analysis_requires_response"))
      && (!responds ==> r.currentAgent == Some(End) && r.workflowStatus == Some(Complete))
  {
    var s1 := Logged(s, env.now, AgentId, "Starting network analysis", None);
    var systems := s.incident.affectedSystems;
    if systems != [] && NetworkTool !in env.toolErrors {
      var r := NetworkConnectivityTester(systems);
      var v := Health(r.connectivityStatus);
      AnalysedRoutes(s1, env.now, Findings(r, v, env.now), v);
    }
  }

  /** With the shipped tester every network incident ends at the monitor. */
  lemma FixtureEndsRun(env: Env, s: Snapshot)
    ensures AfterNetwork(env, s).currentAgent == Some(End)
    ensures AfterNetwork(env, s).workflowStatus == Some(Complete)
  {
    FixtureHealthy(s.incident.affectedSystems);
    AfterNetworkSpec(env, s);
  }

  // ---- in place ----

  method ApplyAnalysis(st: State, now: string, analysis: Value, v: Verdict)
    modifies st
    ensures st.Snap() == Analysed(old(st.Snap()), now, analysis, v)
  {
    var findings := Put(st.specialistFindings, "network_analysis", analysis);
    var message := "Network analysis complete. Connectivity issues: " + Str(StrList(v.connectivityIssues));
    st.specialistFindings := findings;
    st.LogCommunication(now, AgentId, message, None);
    if v.RequiresResponse() {
      st.currentAgent := Some("response-squad");
      st.workflowStatus := Some("analysis_requires_response");
    } else {
      st.workflowStatus := Some(Complete);
      st.currentAgent := Some(End);
    }
  }

  method Finish(st: State, now: string, message: string)
    modifies st
    ensures st.Snap() == Ended(old(st.Snap()), now, message)
  {
    st.LogCommunication(now, AgentId, message, None);
    st.workflowStatus := Some(Complete);
    st.currentAgent := Some(End);
  }

  /** `NetworkMonitorSpecialist.execute`, in place. */
  method Execute(st: State, env: Env)
    modifies st
    ensures st.Snap() == AfterNetwork(env, old(st.Snap()))
  {
    st.LogCommunication(env.now, AgentId, "Starting network analysis", None);
    var systems := st.incident.affectedSystems;
    if systems == [] {
      Finish(st, env.now, "No affected systems to analyze");
      return;
    }
    var r := Call(env, NetworkTool, NetworkConnectivityTester(systems));
    if r.Failure? {
      Finish(st, env.now, "Error in network analysis: " + r.error);
      return;
    }
    var v := AnalyzeNetworkHealth(r.value);
    ApplyAnalysis(st, env.now, Findings(r.value, v, env.now), v);
  }
}
