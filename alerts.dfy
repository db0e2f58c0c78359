/** The alert records the agent accumulates and the reporter summarises
    (built in src/monitor_agent.py, read in src/reporter.py). */
module Alerts {
  import opened Common
  import opened Processes

  /** What an alert is about: a lineage finding or an unauthorized process. */
  datatype AlertDetails =
    | ChainDetails(chain: SuspiciousChain)
    | ProcessDetails(process: UnauthorizedProcess)

  /** An alert: its type tag, its severity (`None` when the record has no
      `severity` key) and the finding it carries. */
  datatype Alert = Alert(kind: string, severity: Option<string>, details: AlertDetails)
}
