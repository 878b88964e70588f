// The disk monitor (src/agents/specialists/disk.py): a nested pass over
// every host's filesystems collecting those above 90 percent; an empty
// host list or a failing analyzer ends the run.
module DiskMonitor {
  import opened Wrappers
  import opened Dicts
  import opened Values
  import opened RunState
  import opened Config
  import opened Monitoring

  const AgentId := "disk-monitor"
  const Complete := "disk_analysis_complete"

  /** The "host:path" entries of one host's filesystems that are above 90 percent, in order. */
  function CriticalOn(host: string, fss: Dict<FilesystemUsage>): seq<string> {
    if fss == [] then []
    else
      var last := fss[|fss| - 1];
      CriticalOn(host, fss[..|fss| - 1]) + (if last.1.usedPercent > 90 then [host + ":" + last.0] else [])
  }

  function CriticalFilesystems(m: Dict<Dict<FilesystemUsage>>): seq<string> {
    if m == [] then [] else CriticalFilesystems(m[..|m| - 1]) + CriticalOn(m[|m| - 1].0, m[|m| - 1].1)
  }

  /** An entry is reported for one host exactly when one of its filesystems is above 90 percent. */
  lemma {:induction false} CriticalOnIff(host: string, fss: Dict<FilesystemUsage>, x: string)
    ensures x in CriticalOn(host, fss) <==>
      exists j :: 0 <= j < |fss| && fss[j].1.usedPercent > 90 && x == host + ":" + fss[j].0
  {
    if fss != [] {
      var init := fss[..|fss| - 1];
      CriticalOnIff(host, init, x);
      if x in CriticalOn(host, init) {
        var j :| 0 <= j < |init| && init[j].1.usedPercent > 90 && x == host + ":" + init[j].0;
        assert fss[j] == init[j];
      }
      if exists j :: 0 <= j < |fss| && fss[j].1.usedPercent > 90 && x == host + ":" + fss[j].0 {
        var j :| 0 <= j < |fss| && fss[j].1.usedPercent > 90 && x == host + ":" + fss[j].0;
        if j < |init| {
          assert init[j] == fss[j];
        }
      }
    }
  }

  /** `critical_filesystems` holds "host:path" for exactly the filesystems above 90 percent. */
  lemma {:induction false} CriticalIff(m: Dict<Dict<FilesystemUsage>>, x: string)
    ensures x in CriticalFilesystems(m) <==>
      exists i, j :: 0 <= i < |m| && 0 <= j < |m[i].1| && m[i].1[j].1.usedPercent > 90 && x == m[i].0 + ":" + m[i].1[j].0
  {
    if m != [] {
      var init := m[..|m| - 1];
      var last := m[|m| - 1];
      CriticalIff(init, x);
      CriticalOnIff(last.0, last.1, x);
      if x in CriticalFilesystems(init) {
        var i, j :| 0 <= i < |init| && 0 <= j < |init[i].1| && init[i].1[j].1.usedPercent > 90 && x == init[i].0 + ":" + init[i].1[j].0;
        assert m[i] == init[i];
      }
      if x in CriticalOn(last.0, last.1) {
        var j :| 0 <= j < |last.1| && last.1[j].1.usedPercent > 90 && x == last.0 + ":" + last.1[j].0;
        assert m[|m| - 1] == last;
      }
      if exists i, j :: 0 <= i < |m| && 0 <= j < |m[i].1| && m[i].1[j].1.usedPercent > 90 && x == m[i].0 + ":" + m[i].1[j].0 {
        var i, j :| 0 <= i < |m| && 0 <= j < |m[i].1| && m[i].1[j].1.usedPercent > 90 && x == m[i].0 + ":" + m[i].1[j].0;
        if i < |init| {
          assert init[i] == m[i];
        } else {
          assert m[i] == last;
        }
      }
    }
  }

  /** The record `_analyze_disk_usage` returns. */
  datatype Verdict = Verdict(criticalFilesystems: seq<string>) {
    predicate RequiresResponse() {
      |criticalFilesystems| > 0
    }

    function Actions(): (r: seq<string>)
      ensures |r| == 2
      ensures r[0] == "cleanup_logs" <==> criticalFilesystems != []
      ensures r[1] == "expand_storage" <==> |criticalFilesystems| > 2
      ensures r[0] in {"cleanup_logs", "monitor"} && r[1] in {"expand_storage", "monitor"}
    {
      [if criticalFilesystems != [] then "cleanup_logs" else "monitor",
       if |criticalFilesystems| > 2 then "expand_storage" else "monitor"]
    }

    function Severity(): (r: string)
      ensures r == "high" <==> RequiresResponse()
    {
      if criticalFilesystems != [] then "high" else "low"
    }

    function Record(): Dict<Value> {
      [("critical_filesystems", StrList(criticalFilesystems)),
       ("requires_response", VBool(RequiresResponse())),
       ("confidence_score", VFloat(0.95)),
       ("recommended_actions", StrList(Actions())),
       ("severity_assessment", VStr(Severity()))]
    }
  }

  function Usage(m: Dict<Dict<FilesystemUsage>>): Verdict {
    Verdict(CriticalFilesystems(m))
  }

  /** `_analyze_disk_usage`: the nested loop over hosts and their filesystems. */
  method AnalyzeDiskUsage(report: DiskReport) returns (v: Verdict)
    ensures v == Usage(report.diskUsageMetrics)
  {
    var m := report.diskUsageMetrics;
    var critical: seq<string> := [];
    var i := 0;
    while i < |m|
      invariant 0 <= i <= |m|
      invariant critical == CriticalFilesystems(m[..i])
    {
      var host := m[i].0;
      var fss := m[i].1;
      ghost var before := critical;
      var j := 0;
      while j < |fss|
        invariant 0 <= j <= |fss|
        invariant critical == before + CriticalOn(host, fss[..j])
      {
        if fss[j].1.usedPercent > 90 {
          critical := critical + [host + ":" + fss[j].0];
        }
        assert fss[..j + 1][..j] == fss[..j];
        j := j + 1;
      }
      assert fss[..|fss|] == fss;
      assert m[..i + 1][..i] == m[..i];
      i := i + 1;
    }
    assert m[..|m|] == m;
    v := Verdict(critical);
  }

  /** Of the shipped filesystems only "/var/log" (92 percent) is above 90 percent. */
  lemma ShippedFilesystems(host: string)
    ensures CriticalOn(host, HostFilesystems) == [host + ":" + "/var/log"]
  {
    var fs := HostFilesystems;
    assert fs[..1][..0] == [];
    assert CriticalOn(host, fs[..1]) == [];
    var two := fs[..2];
    assert |two| == 2 && two[..1] == fs[..1] && two[1] == ("/var/log", FilesystemUsage(92, 0.8, 10));
    assert CriticalOn(host, two) == CriticalOn(host, fs[..1]) + [host + ":" + "/var/log"];
    assert fs[..2] == fs[..|fs| - 1];
  }

  /** Hosts that all report the shipped filesystems each contribute exactly "host:/var/log". */
  lemma {:induction false} FixtureCritical(m: Dict<Dict<FilesystemUsage>>)
    requires forall i :: 0 <= i < |m| ==> m[i].1 == HostFilesystems
    ensures |CriticalFilesystems(m)| == |m|
    ensures forall i :: 0 <= i < |m| ==> CriticalFilesystems(m)[i] == m[i].0 + ":" + "/var/log"
  {
    if m != [] {
      var init := m[..|m| - 1];
      FixtureCritical(init);
      ShippedFilesystems(m[|m| - 1].0);
    }
  }

  /**
   * With the shipped analyzer every named host has exactly one critical
   * filesystem, so a response is required exactly when hosts were named
   * and storage is expanded exactly when more than two distinct hosts were.
   */
  lemma FixtureVerdict(hosts: seq<string>)
    ensures var v := Usage(DiskUsageAnalyzer(hosts).diskUsageMetrics);
      && |v.criticalFilesystems| == |Distinct(hosts)|
      && (v.RequiresResponse() <==> hosts != [])
      && (v.Actions()[1] == "expand_storage" <==> |Distinct(hosts)| > 2)
  {
    var m := DiskUsageAnalyzer(hosts).diskUsageMetrics;
    assert m == FromKeys(hosts, _ => HostFilesystems);
    forall i | 0 <= i < |m| ensures m[i].1 == HostFilesystems {
      FromKeysAt(hosts, _ => HostFilesystems, i);
    }
    FixtureCritical(m);
    assert |Keys(m)| == |Distinct(hosts)|;
    if hosts != [] {
      assert hosts[0] in Distinct(hosts);
    }
  }

  function Findings(r: DiskReport, v: Verdict, now: string): Value {
    VDict([("raw_data", DiskValue(r)),
           ("analysis_result", VDict(v.Record())),
           ("timestamp", VStr(now)),
           ("specialist_id", VStr(AgentId))])
  }

  /** The state after a completed analysis. */
  function Analysed(s: Snapshot, now: string, findings: Value, v: Verdict): Snapshot {
    var s1 := s.(specialistFindings := Put(s.specialistFindings, "disk_analysis", findings));
    var s2 := Logged(s1, now, AgentId, "Disk analysis complete. Critical filesystems: " + Str(StrList(v.criticalFilesystems)), None);
    if v.RequiresResponse() then s2.(currentAgent := Some("response-squad"), workflowStatus := Some("analysis_requires_response"))
    else s2.(workflowStatus := Some(Complete), currentAgent := Some(End))
  }

  /** Log `message`, declare the disk analysis complete and end the run. */
  function Ended(s: Snapshot, now: string, message: string): (r: Snapshot)
    ensures Logs(r) == Logs(s) + [LogEntry(now, AgentId, "system", message, s.incident.incidentId)]
    ensures r.workflowStatus == Some(Complete) && r.currentAgent == Some(End)
    ensures r.(communicationLogs := s.communicationLogs, workflowStatus := s.workflowStatus, currentAgent := s.currentAgent) == s
  {
    Logged(s, now, AgentId, message, None).(workflowStatus := Some(Complete), currentAgent := Some(End))
  }

  /** `DiskMonitorSpecialist.execute`; it never raises. */
  function AfterDisk(env: Env, s: Snapshot): Snapshot {
    var s1 := Logged(s, env.now, AgentId, "Starting disk analysis", None);
    var systems := s.incident.affectedSystems;
    if systems == [] then Ended(s1, env.now, "No affected systems to analyze")
    else
      match Call(env, DiskTool, DiskUsageAnalyzer(systems))
      case Failure(e) => Ended(s1, env.now, "Error in disk analysis: " + e)
      case Success(r) =>
        var v := Usage(r.diskUsageMetrics);
        Analysed(s1, env.now, Findings(r, v, env.now), v)
  }

  lemma AnalysedRoutes(s: Snapshot, now: string, findings: Value, v: Verdict)
    ensures var r := Analysed(s, now, findings, v);
      && Get(r.specialistFindings, "disk_analysis") == Some(findings)
      && |Logs(r)| == |Logs(s)| + 1
      && Logs(r) == Logs(s) + [LogEntry(now, AgentId, "system", "Disk analysis complete. Critical filesystems: " + Str(StrList(v.criticalFilesystems)),
                                        s.incident.incidentId)]
      && (v.RequiresResponse() ==> r.currentAgent == Some("response-squad") && r.workflowStatus == Some("analysis_requires_response"))
      && (!v.RequiresResponse() ==> r.currentAgent == Some(End) && r.workflowStatus == Some(Complete))
  {
  }

  /**
   * The start entry is always logged first; the monitor hands over to the
   * response squad exactly when it had hosts, the analyzer answered and a
   * filesystem was critical, and every other run ends here.
   */
  lemma AfterDiskSpec(env: Env, s: Snapshot)
    ensures var r := AfterDisk(env, s);
      var systems := s.incident.affectedSystems;
      var responds := systems != [] && DiskTool !in env.toolErrors
        && Usage(DiskUsageAnalyzer(systems).diskUsageMetrics).RequiresResponse();
      && |Logs(r)| == |Logs(s)| + 2
      && Logs(r)[|Logs(s)|] == LogEntry(env.now, AgentId, "system", "Starting disk analysis", s.incident.incidentId)
      && (responds ==> r.currentAgent == Some("response-squad") && r.workflowStatus == Some("analysis_requires_response"))
      && (!responds ==> r.currentAgent == Some(End) && r.workflowStatus == Some(Complete))
  {
    var s1 := Logged(s, env.now, AgentId, "Starting disk analysis", None);
    var systems := s.incident.affectedSystems;
    if systems != [] && DiskTool !in env.toolErrors {
      var r := DiskUsageAnalyzer(systems);
      var v := Usage(r.diskUsageMetrics);
      AnalysedRoutes(s1, env.now, Findings(r, v, env.now), v);
    }
  }

  /** With the shipped analyzer and a working tool, any incident naming a host goes on to the response squad. */
  lemma FixtureResponds(env: Env, s: Snapshot)
    requires s.incident.affectedSystems != [] && DiskTool !in env.toolErrors
    ensures AfterDisk(env, s).currentAgent == Some("response-squad")
    ensures AfterDisk(env, s).workflowStatus == Some("analysis_requires_response")
  {
    FixtureVerdict(s.incident.affectedSystems);
    AfterDiskSpec(env, s);
  }

  // ---- in place ----

  method ApplyAnalysis(st: State, now: string, analysis: Value, v: Verdict)
    modifies st
    ensures st.Snap() == Analysed(old(st.Snap()), now, analysis, v)
  {
    var findings := Put(st.specialistFindings, "disk_analysis", analysis);
    var message := "Disk analysis complete. Critical filesystems: " + Str(StrList(v.criticalFilesystems));
    st.specialistFindings := findings;
    st.LogCommunication(now, AgentId, message, None);
    if v.RequiresResponse() {
      st.currentAgent := Some("response-squad");
      st.workflowStatus := Some("analysis_requires_response");
    } else {
      st.workflowStatus := Some(Complete);
      st.currentAgent := Some(End);
    }
  }

  method Finish(st: State, now: string, message: string)
    modifies st
    ensures st.Snap() == Ended(old(st.Snap()), now, message)
  {
    st.LogCommunication(now, AgentId, message, None);
    st.workflowStatus := Some(Complete);
    st.currentAgent := Some(End);
  }

  /** `DiskMonitorSpecialist.execute`, in place. */
  method Execute(st: State, env: Env)
    modifies st
    ensures st.Snap() == AfterDisk(env, old(st.Snap()))
  {
    st.LogCommunication(env.now, AgentId, "Starting disk analysis", None);
    var systems := st.incident.affectedSystems;
    if systems == [] {
      Finish(st, env.now, "No affected systems to analyze");
      return;
    }
    var r := Call(env, DiskTool, DiskUsageAnalyzer(systems));
    if r.Failure? {
      Finish(st, env.now, "Error in disk analysis: " + r.error);
      return;
    }
    var v := AnalyzeDiskUsage(r.value);
    ApplyAnalysis(st, env.now, Findings(r.value, v, env.now), v);
  }
}
