# Windows process and service monitoring agent: the detection pipeline

This project models the detection pipeline of a host monitoring agent and
proves properties about it. The agent has three detectors:

- over one snapshot of the process table, it builds a parent-to-children
  index and flags risky parent/child lineages;
- it flags processes whose name is not on an allow-list;
- it flags services whose executable path lies in a temporary or
  user-writable place.

The agent appends its findings to a long-lived alert list and builds a
report with a severity histogram. The live process table becomes an
explicit snapshot: a sequence of `(pid, ppid, name, path)` records plus a
partial map from pid to process name that stands in for the parent lookup.
A pid missing from that map behaves like a process that vanished or denied
access, so its record is skipped.

Modules, one per source file, plus two shared ones:

- `Common`: optional values, ASCII lower-casing, and the substring test.
- `Processes` (`src/process_monitor.py`):
  - the rule tables;
  - the tree builder `GetProcessTree`, a method whose loop runs over the
    snapshot and updates a `map` from parent pid to child pids;
  - `DetectSuspiciousChains`;
  - `DetectUnauthorized`.

  Each method is proved equal to a recursive specification function
  (`ChildrenOf`, `Chains`, `Unauthorized`), and the source's promises are
  proved as lemmas about those functions.
- `Whitelist` (`src/whitelist_manager.py`): the class `WhitelistManager`
  with the two set fields its methods update, and the pure query
  `IsWhitelisted`.
- `Services` (`src/service_audit.py`): the nested scan over services and
  path fragments, with its early `break`. It is proved equal to
  `ServiceAlerts`.
- `Alerts`: the shape of the alert records that the agent builds and the
  reporter reads.
- `Reporting` (`src/reporter.py`): the severity tally loop `CountSeverity`
  and the report summary.
- `Anomaly` (`src/anomaly_detector.py`): the threshold filter over a scoring
  function, and the current constant scorer.
- `Agent` (`src/monitor_agent.py`): the class `MonitoringAgent` with its
  `alerts` field, and `RunScan`, which appends alerts in two loops and then
  builds the report.

Facts about the code that shape the model:

- the tree has no bucket for parents absent from the snapshot: every pid is
  filed under its own ppid, whatever that is (src/process_monitor.py:55);
- `is_whitelisted` never reads the blacklist (src/whitelist_manager.py:41),
  so a blacklisted name that is also whitelisted is still allowed;
- an alert whose severity is not HIGH, MEDIUM or LOW is not counted in any
  bucket (src/reporter.py:56-58); only a missing severity counts as LOW;
- `alerts` is set to the empty list once, in the constructor
  (src/monitor_agent.py:41), and every scan appends to it
  (src/monitor_agent.py:74, 91);
- lineages come from scanning every record and looking its parent up by pid
  (src/process_monitor.py:67-74), not from the tree;
- `run_scan` turns only chains and unauthorized processes into alerts
  (src/monitor_agent.py:70-95). It never calls `detect_suspicious_services`
  or `detect_anomalies`, and the services only count in the report
  (src/monitor_agent.py:82, 99-104).

Names loaded from a whitelist file are stored as written, while lookups are
lower-cased. A loaded entry with an upper-case letter can therefore never
match (`MixedCaseEntryIsDead`).

## Model

| member | source | states |
|---|---|---|
| `Common.ContainsIffOccurs` | src/service_audit.py:44 | the substring test holds exactly when the fragment occurs at some position of the text |
| `Common.NotLowerNeverHit` | src/whitelist_manager.py:41 | a string with an upper-case letter is never the lower-cased form of any query |
| `Whitelist.DefaultWhitelistSize` | src/whitelist_manager.py:19-23 | the default allow-list has exactly twelve distinct names |
| `Whitelist.DefaultWhitelistIsLower` | src/whitelist_manager.py:19-23 | every default name is in lower case, so the lower-cased lookup can reach it |
| `Whitelist.LoadedLowerNameMatches` | src/whitelist_manager.py:33-41 | a lower-case name from the whitelist file is allowed afterwards in every casing and under every path |
| `Whitelist.WhitelistManager.constructor` | src/whitelist_manager.py:14-26 | with no file, the whitelist is exactly the defaults; with a file, it is the defaults plus the loaded names; the blacklist is empty |
| `Whitelist.WhitelistManager.LoadWhitelist` | src/whitelist_manager.py:28-37 | loading is a set union, so it only grows the whitelist and leaves the blacklist alone |
| `Whitelist.WhitelistManager.AddToWhitelist` | src/whitelist_manager.py:43-46 | inserts the lower-cased name; afterwards every casing of the name is allowed under every path; adding an allowed name again changes nothing; the blacklist is unchanged |
| `Whitelist.WhitelistManager.AddToBlacklist` | src/whitelist_manager.py:48-51 | inserts the lower-cased name; adding it again changes nothing; the whitelist is unchanged |
| `Whitelist.IsWhitelistedByLowerName` | src/whitelist_manager.py:39-41 | the answer depends only on the lower-cased name, never on the path or the casing |
| `Whitelist.BlacklistNotConsulted` | src/whitelist_manager.py:39-41 | two managers with equal whitelists answer alike, whatever their blacklists hold |
| `Whitelist.MixedCaseEntryIsDead` | src/whitelist_manager.py:33-41 | a loaded entry that is not lower case is never matched, so every answer is as if it were absent |
| `Processes.ChildrenOf` | src/process_monitor.py:49-61 | a child list is never longer than the snapshot |
| `Processes.GetProcessTree` | src/process_monitor.py:49-61 | the keys are exactly the ppids that occur; each key holds the children under its ppid in snapshot order; the list lengths sum to the number of records |
| `Processes.ChildrenOfAppend` | src/process_monitor.py:53-55 | child lists keep the snapshot's iteration order: the children of a concatenation are those of the first part followed by those of the second |
| `Processes.ChildrenOfMembers` | src/process_monitor.py:53-55 | a pid is listed under a key exactly when some record with that pid has that key as its ppid |
| `Processes.DetectSuspiciousChains` | src/process_monitor.py:63-90 | the method returns exactly the chains of the snapshot in snapshot order, so two runs on one snapshot give identical lists |
| `Processes.ChainsAppend` | src/process_monitor.py:67-90 | skipped records do not stop the scan: the chains of a concatenation are those of the parts, in order |
| `Processes.ChainsOfRecord` | src/process_monitor.py:69-84 | a record yields at most one chain; it yields one exactly when the ppid is set and nonzero, the parent resolves, and the lower-cased pair is in the rule table; the chain is HIGH, with the record's pids and the lower-cased names |
| `Processes.ChainsSound` | src/process_monitor.py:70-84 | every chain is HIGH, has lower-case names, has a pair from the rule table and a nonzero resolved parent, and comes from a record of the snapshot with that ppid |
| `Processes.ChainsCount` | src/process_monitor.py:67-84 | there is no deduplication: the number of chains equals the number of matching records |
| `Processes.CmdSpawningWinword` | src/process_monitor.py:63-90 | explorer.exe spawning cmd.exe spawning winword.exe gives exactly one HIGH chain, for the cmd.exe to winword.exe edge |
| `Processes.DetectUnauthorized` | src/process_monitor.py:92-114 | the method returns exactly the unauthorized list of the snapshot under the manager's current whitelist |
| `Processes.UnauthorizedAppend` | src/process_monitor.py:96-108 | the output keeps snapshot order: the list for a concatenation is the lists of the parts, in order |
| `Processes.UnauthorizedOfRecord` | src/process_monitor.py:98-108 | a record is listed exactly when its lower-cased name is not whitelisted, and then with its own pid, name and path |
| `Processes.UnauthorizedSound` | src/process_monitor.py:102-108 | no listed entry is whitelisted, and each entry carries the pid, name and path of some record |
| `Services.DetectSuspiciousServices` | src/service_audit.py:35-53 | the nested scan with early exit returns exactly the service alerts of the input, whatever order the fragment set is visited in |
| `Services.ServiceAlertsAppend` | src/service_audit.py:39-53 | output order follows input order: the alerts of a concatenation are those of the parts, in order |
| `Services.ServiceAlertsOfOne` | src/service_audit.py:40-51 | a service yields one HIGH "Suspicious path" alert, with its name and lower-cased path, exactly when that path contains one of the four fragments; otherwise it yields nothing |
| `Services.ServiceAlertsSound` | src/service_audit.py:39-53 | there are at most as many alerts as services; every alert is HIGH with reason "Suspicious path", has a suspicious path, and carries the name and lower-cased path of some input service |
| `Services.MissingPathNeverFlagged` | src/service_audit.py:40 | a service without a path is never flagged |
| `Services.System32ServiceNotFlagged` | src/service_audit.py:39-51 | `C:\Windows\System32\svc.exe` raises no alert |
| `Services.TempServiceFlagged` | src/service_audit.py:39-51 | `C:\Users\bob\AppData\Local\Temp\svc.exe` raises exactly one alert, and it is HIGH |
| `Reporting.CountSeverity` | src/reporter.py:52-59 | the tally has exactly the keys HIGH, MEDIUM and LOW, each holding the number of alerts counted under it; a missing severity counts as LOW |
| `Reporting.CountOfAppend` | src/reporter.py:55-58 | counting distributes over concatenation |
| `Reporting.SeverityPartition` | src/reporter.py:55-58 | HIGH + MEDIUM + LOW + the alerts with an unknown severity = the number of alerts |
| `Reporting.UnbucketedZero` | src/reporter.py:56-58 | no alert is left uncounted exactly when every severity is one of the three buckets |
| `Reporting.HistogramBound` | src/reporter.py:56-58 | HIGH + MEDIUM + LOW is at most the number of alerts, with equality exactly when no alert has an unknown severity |
| `Reporting.GenerateReport` | src/reporter.py:24-36 | the totals are the input lengths; the histogram is the severity tally; the alerts are passed on in order; the sample is the prefix of the processes of length min(10, count) |
| `Reporting.ThreeHighOneMedium` | src/reporter.py:24-59 | three HIGH alerts and one MEDIUM alert give the histogram HIGH 3, MEDIUM 1, LOW 0, with four alerts in all |
| `Anomaly.AnomalyDetector.constructor` | src/anomaly_detector.py:16-18 | the rules are what was loaded, or empty when nothing was; the history is empty |
| `Anomaly.AnomalyDetector.DetectAnomalies` | src/anomaly_detector.py:31-47 | returns exactly the filtered entries under the current scorer, which is the empty list; it modifies neither field |
| `Anomaly.FlaggedAppend` | src/anomaly_detector.py:35-47 | the filter keeps input order: the entries of a concatenation are those of the parts, in order |
| `Anomaly.FlaggedOne` | src/anomaly_detector.py:37-45 | a process is flagged exactly when its score is strictly above 0.5, and then with its own pid, name and score |
| `Anomaly.FlaggedSound` | src/anomaly_detector.py:35-45 | there are at most as many entries as processes; every entry scores above 0.5 and carries the pid, name and score of some input process |
| `Anomaly.LowScoreNeverFlagged` | src/anomaly_detector.py:37-39 | when no process scores above the threshold, nothing is flagged |
| `Anomaly.StubScorerFlagsNothing` | src/anomaly_detector.py:49-56 | the current scorer gives 0.0 to every process, so nothing is ever flagged |
| `Agent.ChainAlertsAt` | src/monitor_agent.py:73-78 | one alert per chain, in order; the j-th has type `suspicious_parent_child`, severity HIGH, and the j-th chain as details |
| `Agent.UnauthorizedAlertsAt` | src/monitor_agent.py:90-95 | one alert per unauthorized process, in order; the j-th has type `unauthorized_process`, severity MEDIUM, and the j-th process as details |
| `Agent.ChainCounts` | src/monitor_agent.py:73-78 | chain alerts all count as HIGH |
| `Agent.UnauthorizedCounts` | src/monitor_agent.py:90-95 | unauthorized-process alerts all count as MEDIUM |
| `Agent.ScanAlertsHistogram` | src/monitor_agent.py:70-95 | in the alerts one scan adds, HIGH is the number of chains, MEDIUM the number of unauthorized processes, LOW is zero, and none is left uncounted |
| `Agent.MonitoringAgent.constructor` | src/monitor_agent.py:34-41 | the alert list starts empty; the whitelist manager starts from the defaults and the loaded names |
| `Agent.MonitoringAgent.AppendChainAlerts` | src/monitor_agent.py:73-78 | appends exactly the chain alerts after the existing ones |
| `Agent.MonitoringAgent.AppendUnauthorizedAlerts` | src/monitor_agent.py:90-95 | appends exactly the unauthorized-process alerts after the existing ones |
| `Agent.MonitoringAgent.RunScan` | src/monitor_agent.py:59-104 | the old alerts are kept as an unchanged prefix, followed by the chain alerts and then the unauthorized alerts, so the new length is old + chains + unauthorized; services add no alert; the whitelist is unchanged; the report covers the whole accumulated list, counts the services, and samples the first min(10, n) processes |
| `Agent.ScanTwice` | src/monitor_agent.py:59-104 | two scans of one snapshot on a new agent: the second report keeps the first scan's alerts as a prefix, the same alerts follow again, and the alert total doubles |

## Left out

- Process enumeration by the operating system is left out. The process table is a given snapshot sequence. Every detector reads that one snapshot, although the original re-enumerates the live table each time. `enumerate_processes` only repackages the records, so it is not modelled.
- The per-item `NoSuchProcess`/`AccessDenied` handling and the outer `except Exception` are left out. The only effect modelled is the parent lookup failing, a pid absent from `parentNames`, which skips the record. A record whose name is `None` would raise `AttributeError`, either at `.lower()` (src/process_monitor.py:70) or inside `is_whitelisted` (src/whitelist_manager.py:41, called from src/process_monitor.py:102). The per-item handler does not catch it. The outer handler logs it, and the detector then returns the entries found for the records before that one. This is not modelled: names are always strings.
- Lower-casing is ASCII only (A-Z to a-z). Python's `str.lower` also folds non-ASCII letters.
- A flagged service without a `name` key would raise `KeyError` (src/service_audit.py:46), which `detect_suspicious_services` does not handle and passes to its caller. This is not modelled: every `Service` has a name.
- A negative pid in the process table is not modelled as the original treats it. `psutil.Process` raises `ValueError` on a negative ppid, which the per-item handler (src/process_monitor.py:85) does not catch, so the outer handler ends the chain scan early. The model instead looks a negative ppid up in `parentNames` like any other.
- A service whose `path` key holds `None` would raise on `.lower()`. This is not modelled. A path is either absent, which reads as the empty string, or a string.
- File I/O is left out:
  - the JSON report export and the creation of the report and log directories;
  - the CSV append and its 5-record sample;
  - opening and parsing the whitelist JSON file and the rules YAML file.

  Each file's parsed content is a constructor parameter. `None` means missing or unreadable.
- Timestamps and logging are left out. The per-entry `timestamp` fields are not modelled. The report timestamp is an opaque string parameter. Logging has no effect on results.
- `RunScan` returns the report it builds so that its contents can be stated; the original discards it.
- `audit_services` is a placeholder that returns an empty list. Its result is an input to `RunScan`.
- There is no orchestration: no command-line interface, no continuous loop with its sleep, and no interrupt handling.
- `kali_linux/threat_analyzer.py` is not part of this model.
- Anomaly scores are mathematical reals. Floating-point rounding plays no part with the constant 0.0 scorer and the `> 0.5` comparison.
- The rule tables `SuspiciousParents`, `SystemCritical`, `SuspiciousPaths` and `CriticalServices` are module constants. They are unchanged by construction, not by a proof about fields.
