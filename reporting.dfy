/** The report built for each scan (src/reporter.py), without writing it
    anywhere. */
module Reporting {
  import opened Common
  import opened Processes
  import opened Services
  import opened Alerts

  /** The histogram's fixed buckets. */
  const SeverityBuckets: set<string> := {"HIGH", "MEDIUM", "LOW"}

  /** The severity an alert is counted under: an alert without one counts as LOW. */
  function SeverityOf(alert: Alert): string {
    alert.severity.GetOr("LOW")
  }

  /** How many alerts are counted under `bucket`. */
  function CountOf(alerts: seq<Alert>, bucket: string): nat
  {
    if alerts == [] then 0
    else CountOf(alerts[..|alerts| - 1], bucket) + (if SeverityOf(alerts[|alerts| - 1]) == bucket then 1 else 0)
  }

  /** How many alerts have a severity outside the three buckets. */
  function CountUnbucketed(alerts: seq<Alert>): nat
  {
    if alerts == [] then 0
    else CountUnbucketed(alerts[..|alerts| - 1]) + (if SeverityOf(alerts[|alerts| - 1]) !in SeverityBuckets then 1 else 0)
  }

  /** Tallies alerts by severity into the three fixed buckets, all present
      from the start; an alert whose severity is not a bucket is not counted. */
  method CountSeverity(alerts: seq<Alert>) returns (severityCount: map<string, nat>)
    ensures severityCount.Keys == SeverityBuckets
    ensures forall bucket :: bucket in severityCount ==> severityCount[bucket] == CountOf(alerts, bucket)
  {
    severityCount := map["HIGH" := 0, "MEDIUM" := 0, "LOW" := 0];
    for i := 0 to |alerts|
      invariant severityCount.Keys == SeverityBuckets
      invariant forall bucket :: bucket in severityCount ==> severityCount[bucket] == CountOf(alerts[..i], bucket)
    {
      assert alerts[..i + 1][..i] == alerts[..i];
      var severity := alerts[i].severity.GetOr("LOW");
      if severity in severityCount {
        severityCount := severityCount[severity := severityCount[severity] + 1];
      }
    }
    assert alerts[..|alerts|] == alerts;
  }

  /** Counting distributes over concatenation. */
  lemma {:induction false} CountOfAppend(s: seq<Alert>, t: seq<Alert>, bucket: string)
    ensures CountOf(s + t, bucket) == CountOf(s, bucket) + CountOf(t, bucket)
    decreases |t|
  {
    if t == [] {
      assert s + t == s;
    } else {
      assert (s + t)[..|s + t| - 1] == s + t[..|t| - 1];
      CountOfAppend(s, t[..|t| - 1], bucket);
    }
  }

  /** Every alert lands in exactly one bucket or in none: the three counts
      and the uncounted alerts together make up the whole list. */
  lemma {:induction false} SeverityPartition(alerts: seq<Alert>)
    ensures CountOf(alerts, "HIGH") + CountOf(alerts, "MEDIUM") + CountOf(alerts, "LOW") + CountUnbucketed(alerts) == |alerts|
  {
    if alerts != [] {
      SeverityPartition(alerts[..|alerts| - 1]);
    }
  }

  /** No alert is uncounted exactly when every alert's severity is a bucket. */
  lemma {:induction false} UnbucketedZero(alerts: seq<Alert>)
    ensures CountUnbucketed(alerts) == 0 <==> forall a :: a in alerts ==> SeverityOf(a) in SeverityBuckets
  {
    if alerts != [] {
      var prefix := alerts[..|alerts| - 1];
      UnbucketedZero(prefix);
      assert alerts == prefix + [alerts[|alerts| - 1]];
    }
  }

  /** The histogram never counts more than the alerts there are, and
      counts all of them exactly when none has a severity outside the buckets. */
  lemma HistogramBound(alerts: seq<Alert>)
    ensures CountOf(alerts, "HIGH") + CountOf(alerts, "MEDIUM") + CountOf(alerts, "LOW") <= |alerts|
    ensures CountOf(alerts, "HIGH") + CountOf(alerts, "MEDIUM") + CountOf(alerts, "LOW") == |alerts|
            <==> forall a :: a in alerts ==> SeverityOf(a) in SeverityBuckets
  {
    SeverityPartition(alerts);
    UnbucketedZero(alerts);
  }

  /** The summary section of a report. */
  datatype Summary = Summary(totalProcesses: nat, totalServices: nat, totalAlerts: nat, alertSeverity: map<string, nat>)

  /** A scan report: its timestamp (an opaque rendering of the clock), the
      summary, the alerts, and a sample of the processes. */
  datatype Report = Report(timestamp: string, summary: Summary, alerts: seq<Alert>, topProcesses: seq<ProcessRecord>)

  /** How many processes a report samples. */
  const TopProcessCount: nat := 10

  /** Builds the report for one scan: the counts are the lengths of the
      inputs, the histogram is the severity tally of the alerts, the alerts
      are passed on in order, and the sample is the first ten processes
      (all of them when there are fewer). */
  method GenerateReport(processes: seq<ProcessRecord>, services: seq<Service>, alerts: seq<Alert>, timestamp: string)
    returns (report: Report)
    ensures report.timestamp == timestamp
    ensures report.summary.totalProcesses == |processes|
    ensures report.summary.totalServices == |services|
    ensures report.summary.totalAlerts == |alerts|
    ensures report.summary.alertSeverity.Keys == SeverityBuckets
    ensures forall bucket :: bucket in SeverityBuckets ==> report.summary.alertSeverity[bucket] == CountOf(alerts, bucket)
    ensures report.alerts == alerts
    ensures report.topProcesses <= processes
    ensures |report.topProcesses| == if |processes| < TopProcessCount then |processes| else TopProcessCount
  {
    var severity := CountSeverity(alerts);
    var top := if |processes| > 0 then (if |processes| < TopProcessCount then processes else processes[..TopProcessCount]) else [];
    report := Report(timestamp, Summary(|processes|, |services|, |alerts|, severity), alerts, top);
  }

  /** Three HIGH alerts and one MEDIUM alert give the histogram
      HIGH 3, MEDIUM 1, LOW 0, and four alerts in all. */
  method ThreeHighOneMedium(chain: SuspiciousChain, process: UnauthorizedProcess) returns (report: Report)
    ensures report.summary.alertSeverity == map["HIGH" := 3, "MEDIUM" := 1, "LOW" := 0]
    ensures report.summary.totalAlerts == 4
  {
    var high := Alert("suspicious_parent_child", Some("HIGH"), ChainDetails(chain));
    var medium := Alert("unauthorized_process", Some("MEDIUM"), ProcessDetails(process));
    var alerts := [high, high, high, medium];
    CountOfAppend([high], [high], "HIGH");
    CountOfAppend([high, high], [high], "HIGH");
    CountOfAppend([high, high, high], [medium], "HIGH");
    CountOfAppend([high], [high], "MEDIUM");
    CountOfAppend([high, high], [high], "MEDIUM");
    CountOfAppend([high, high, high], [medium], "MEDIUM");
    CountOfAppend([high], [high], "LOW");
    CountOfAppend([high, high], [high], "LOW");
    CountOfAppend([high, high, high], [medium], "LOW");
    assert [high][..0] == [] && [medium][..0] == [];
    assert [high] + [high] == [high, high] && [high, high] + [high] == [high, high, high];
    assert [high, high, high] + [medium] == alerts;
    report := GenerateReport([], [], alerts, "");
    var expected := map["HIGH" := 3, "MEDIUM" := 1, "LOW" := 0];
    assert report.summary.alertSeverity.Keys == expected.Keys;
    assert forall b :: b in expected ==> report.summary.alertSeverity[b] == expected[b];
  }
}
