/** The monitoring agent (src/monitor_agent.py): one scan runs the
    detectors over a snapshot, appends their findings to the agent's
    long-lived alert list, and builds a report of everything so far. */
module Agent {
  import opened Common
  import opened Processes
  import opened Whitelist
  import opened Services
  import opened Anomaly
  import opened Alerts
  import opened Reporting

  /** The alert raised for a suspicious lineage. */
  function ChainAlert(chain: SuspiciousChain): Alert {
    Alert("suspicious_parent_child", Some("HIGH"), ChainDetails(chain))
  }

  /** The alert raised for an unauthorized process. */
  function UnauthorizedAlert(process: UnauthorizedProcess): Alert {
    Alert("unauthorized_process", Some("MEDIUM"), ProcessDetails(process))
  }

  /** The alerts for a list of chains, one per chain, in order. */
  function ChainAlerts(chains: seq<SuspiciousChain>): seq<Alert>
  {
    if chains == [] then [] else ChainAlerts(chains[..|chains| - 1]) + [ChainAlert(chains[|chains| - 1])]
  }

  /** The alerts for a list of unauthorized processes, one each, in order. */
  function UnauthorizedAlerts(processes: seq<UnauthorizedProcess>): seq<Alert>
  {
    if processes == [] then [] else UnauthorizedAlerts(processes[..|processes| - 1]) + [UnauthorizedAlert(processes[|processes| - 1])]
  }

  /** The j-th chain alert is HIGH, of type `suspicious_parent_child`, and
      carries the j-th chain as its details. */
  lemma {:induction false} ChainAlertsAt(chains: seq<SuspiciousChain>)
    ensures |ChainAlerts(chains)| == |chains|
    ensures forall j :: 0 <= j < |chains| ==>
      ChainAlerts(chains)[j] == Alert("suspicious_parent_child", Some("HIGH"), ChainDetails(chains[j]))
  {
    if chains != [] {
      ChainAlertsAt(chains[..|chains| - 1]);
    }
  }

  /** The j-th unauthorized alert is MEDIUM, of type `unauthorized_process`,
      and carries the j-th process as its details. */
  lemma {:induction false} UnauthorizedAlertsAt(processes: seq<UnauthorizedProcess>)
    ensures |UnauthorizedAlerts(processes)| == |processes|
    ensures forall j :: 0 <= j < |processes| ==>
      UnauthorizedAlerts(processes)[j] == Alert("unauthorized_process", Some("MEDIUM"), ProcessDetails(processes[j]))
  {
    if processes != [] {
      UnauthorizedAlertsAt(processes[..|processes| - 1]);
    }
  }

  /** The alerts one scan adds: every chain is counted as HIGH and every
      unauthorized process as MEDIUM, and none is LOW or left uncounted. */
  lemma {:induction false} ScanAlertsHistogram(chains: seq<SuspiciousChain>, processes: seq<UnauthorizedProcess>)
    ensures CountOf(ChainAlerts(chains) + UnauthorizedAlerts(processes), "HIGH") == |chains|
    ensures CountOf(ChainAlerts(chains) + UnauthorizedAlerts(processes), "MEDIUM") == |processes|
    ensures CountOf(ChainAlerts(chains) + UnauthorizedAlerts(processes), "LOW") == 0
    ensures CountUnbucketed(ChainAlerts(chains) + UnauthorizedAlerts(processes)) == 0
  {
    var added := ChainAlerts(chains) + UnauthorizedAlerts(processes);
    CountOfAppend(ChainAlerts(chains), UnauthorizedAlerts(processes), "HIGH");
    CountOfAppend(ChainAlerts(chains), UnauthorizedAlerts(processes), "MEDIUM");
    CountOfAppend(ChainAlerts(chains), UnauthorizedAlerts(processes), "LOW");
    ChainCounts(chains);
    UnauthorizedCounts(processes);
    ChainAlertsAt(chains);
    UnauthorizedAlertsAt(processes);
    UnbucketedZero(added);
  }

  /** Chain alerts are all HIGH. */
  lemma {:induction false} ChainCounts(chains: seq<SuspiciousChain>)
    ensures CountOf(ChainAlerts(chains), "HIGH") == |chains|
    ensures CountOf(ChainAlerts(chains), "MEDIUM") == 0
    ensures CountOf(ChainAlerts(chains), "LOW") == 0
  {
    if chains != [] {
      ChainCounts(chains[..|chains| - 1]);
    }
  }

  /** Unauthorized-process alerts are all MEDIUM. */
  lemma {:induction false} UnauthorizedCounts(processes: seq<UnauthorizedProcess>)
    ensures CountOf(UnauthorizedAlerts(processes), "HIGH") == 0
    ensures CountOf(UnauthorizedAlerts(processes), "MEDIUM") == |processes|
    ensures CountOf(UnauthorizedAlerts(processes), "LOW") == 0
  {
    if processes != [] {
      UnauthorizedCounts(processes[..|processes| - 1]);
    }
  }

  class MonitoringAgent {
    const configPath: string
    const whitelistManager: WhitelistManager
    const anomalyDetector: AnomalyDetector
    /** Every alert raised since the agent was created; never cleared. */
    var alerts: seq<Alert>

    /** `whitelistFile` and `rulesFile` are what loading the two
        configuration files under `configPath` produced. */
    constructor (configPath: string, whitelistFile: Option<seq<string>>, rulesFile: Option<map<string, string>>)
      ensures this.configPath == configPath
      ensures alerts == []
      ensures fresh(whitelistManager) && fresh(anomalyDetector)
      ensures whitelistFile.None? ==> whitelistManager.whitelist == DefaultWhitelist
      ensures whitelistFile.Some? ==> whitelistManager.whitelist == DefaultWhitelist + LoadedNames(whitelistFile.value)
      ensures whitelistManager.blacklist == {}
    {
      this.configPath := configPath;
      whitelistManager := new WhitelistManager(whitelistFile);
      anomalyDetector := new AnomalyDetector(rulesFile);
      alerts := [];
    }

    /** Appends one HIGH `suspicious_parent_child` alert per chain, in order. */
    method AppendChainAlerts(chains: seq<SuspiciousChain>)
      modifies this`alerts
      ensures alerts == old(alerts) + ChainAlerts(chains)
    {
      for j := 0 to |chains|
        invariant alerts == old(alerts) + ChainAlerts(chains[..j])
      {
        assert chains[..j + 1][..j] == chains[..j];
        alerts := alerts + [Alert("suspicious_parent_child", Some("HIGH"), ChainDetails(chains[j]))];
      }
      assert chains[..|chains|] == chains;
    }

    /** Appends one MEDIUM `unauthorized_process` alert per process, in order. */
    method AppendUnauthorizedAlerts(processes: seq<UnauthorizedProcess>)
      modifies this`alerts
      ensures alerts == old(alerts) + UnauthorizedAlerts(processes)
    {
      for j := 0 to |processes|
        invariant alerts == old(alerts) + UnauthorizedAlerts(processes[..j])
      {
        assert processes[..j + 1][..j] == processes[..j];
        alerts := alerts + [Alert("unauthorized_process", Some("MEDIUM"), ProcessDetails(processes[j]))];
      }
      assert processes[..|processes|] == processes;
    }

    /** One scan over one snapshot: `parentNames` resolves parent pids,
        `services` is what the service enumeration returned, `timestamp`
        the clock reading. It appends one HIGH alert per suspicious chain,
        then one MEDIUM alert per unauthorized process, after the alerts of
        earlier scans; services raise no alert and only count in the
        report, which is built from the whole accumulated list. */
    method RunScan(snapshot: seq<ProcessRecord>, parentNames: map<int, string>, services: seq<Service>, timestamp: string)
      returns (report: Report)
      modifies this`alerts
      ensures alerts == old(alerts)
                        + ChainAlerts(Chains(snapshot, parentNames))
                        + UnauthorizedAlerts(Unauthorized(snapshot, whitelistManager.whitelist))
      ensures |alerts| == |old(alerts)| + |Chains(snapshot, parentNames)| + |Unauthorized(snapshot, whitelistManager.whitelist)|
      ensures old(alerts) <= alerts
      ensures whitelistManager.whitelist == old(whitelistManager.whitelist)
      ensures report.alerts == alerts
      ensures report.timestamp == timestamp
      ensures report.summary.totalProcesses == |snapshot|
      ensures report.summary.totalServices == |services|
      ensures report.summary.totalAlerts == |alerts|
      ensures report.summary.alertSeverity.Keys == SeverityBuckets
      ensures forall bucket :: bucket in SeverityBuckets ==> report.summary.alertSeverity[bucket] == CountOf(alerts, bucket)
      ensures report.topProcesses <= snapshot
      ensures |report.topProcesses| == if |snapshot| < TopProcessCount then |snapshot| else TopProcessCount
    {
      var processes := snapshot;
      var suspiciousChains := DetectSuspiciousChains(snapshot, parentNames);
      AppendChainAlerts(suspiciousChains);
      var unauthorized := DetectUnauthorized(snapshot, whitelistManager);
      AppendUnauthorizedAlerts(unauthorized);
      ChainAlertsAt(suspiciousChains);
      UnauthorizedAlertsAt(unauthorized);
      assert alerts == old(alerts) + (ChainAlerts(suspiciousChains) + UnauthorizedAlerts(unauthorized));
      report := GenerateReport(processes, services, alerts, timestamp);
    }
  }

  /** Two scans of the same snapshot on a fresh agent: the second report
      holds the first scan's alerts unchanged, followed by as many again. */
  method ScanTwice(snapshot: seq<ProcessRecord>, parentNames: map<int, string>)
    returns (first: Report, second: Report)
    ensures first.alerts <= second.alerts
    ensures second.summary.totalAlerts == 2 * first.summary.totalAlerts
    ensures second.alerts[|first.alerts|..] == first.alerts
  {
    var agent := new MonitoringAgent("config/", None, None);
    first := agent.RunScan(snapshot, parentNames, [], "first");
    second := agent.RunScan(snapshot, parentNames, [], "second");
  }
}
