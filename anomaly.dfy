/** The anomaly detector (src/anomaly_detector.py): a threshold filter
    over a per-process score. */
module Anomaly {
  import opened Common
  import opened Processes

  /** A flagged process with the score that flagged it. */
  datatype AnomalyEntry = AnomalyEntry(pid: int, name: string, anomalyScore: real)

  /** A process is flagged when its score is strictly above this. */
  const Threshold: real := 0.5

  /** The current scorer: a placeholder that gives every process 0.0. */
  function AnomalyScore(process: ProcessRecord): real {
    0.0
  }

  /** The entries for the processes whose score is above the threshold, in input order. */
  function Flagged(processes: seq<ProcessRecord>, score: ProcessRecord -> real): seq<AnomalyEntry>
  {
    if processes == [] then []
    else
      var last := processes[|processes| - 1];
      Flagged(processes[..|processes| - 1], score)
        + (if score(last) > Threshold then [AnomalyEntry(last.pid, last.name, score(last))] else [])
  }

  class AnomalyDetector {
    /** The detection rules as loaded (the scorer does not read them yet). */
    var rules: map<string, string>
    /** Past anomalies; nothing ever appends to it. */
    var alertHistory: seq<AnomalyEntry>

    /** `rulesFile` is what loading the rules file produced: `None` when
        there was no file or it could not be read, which leaves no rules. */
    constructor (rulesFile: Option<map<string, string>>)
      ensures rules == rulesFile.GetOr(map[])
      ensures alertHistory == []
    {
      rules := rulesFile.GetOr(map[]);
      alertHistory := [];
    }

    /** Scores every process and keeps those above the threshold. The
        detector's own state is not touched, and with the current scorer
        nothing is ever flagged. */
    method DetectAnomalies(processes: seq<ProcessRecord>) returns (anomalies: seq<AnomalyEntry>)
      ensures anomalies == Flagged(processes, AnomalyScore)
      ensures anomalies == []
    {
      anomalies := [];
      for i := 0 to |processes|
        invariant anomalies == Flagged(processes[..i], AnomalyScore)
      {
        var proc := processes[i];
        assert processes[..i + 1][..i] == processes[..i];
        var score := AnomalyScore(proc);
        if score > Threshold {
          anomalies := anomalies + [AnomalyEntry(proc.pid, proc.name, score)];
        }
      }
      assert processes[..|processes|] == processes;
      StubScorerFlagsNothing(processes);
    }
  }

  /** Filtering two lists one after the other gives the entries of the
      first followed by those of the second. */
  lemma {:induction false} FlaggedAppend(s: seq<ProcessRecord>, t: seq<ProcessRecord>, score: ProcessRecord -> real)
    ensures Flagged(s + t, score) == Flagged(s, score) + Flagged(t, score)
    decreases |t|
  {
    if t == [] {
      assert s + t == s;
    } else {
      assert (s + t)[..|s + t| - 1] == s + t[..|t| - 1];
      FlaggedAppend(s, t[..|t| - 1], score);
    }
  }

  /** One process is flagged exactly when its score is strictly greater
      than 0.5, and then with its own pid, name and score. */
  lemma FlaggedOne(process: ProcessRecord, score: ProcessRecord -> real)
    ensures |Flagged([process], score)| == (if score(process) > 0.5 then 1 else 0)
    ensures score(process) > 0.5 ==>
      Flagged([process], score)[0] == AnomalyEntry(process.pid, process.name, score(process))
  {
    assert [process][..0] == [];
  }

  /** Every entry comes from a process of the input, with that process's
      pid, name and score, and its score is above the threshold. */
  lemma {:induction false} FlaggedSound(processes: seq<ProcessRecord>, score: ProcessRecord -> real)
    ensures |Flagged(processes, score)| <= |processes|
    ensures forall e :: e in Flagged(processes, score) ==>
      e.anomalyScore > 0.5 &&
      exists i :: 0 <= i < |processes| && e == AnomalyEntry(processes[i].pid, processes[i].name, score(processes[i]))
  {
    if processes != [] {
      var prefix := processes[..|processes| - 1];
      FlaggedSound(prefix, score);
      forall e | e in Flagged(processes, score)
        ensures exists i :: 0 <= i < |processes| && e == AnomalyEntry(processes[i].pid, processes[i].name, score(processes[i]))
      {
        if e in Flagged(prefix, score) {
          var i :| 0 <= i < |prefix| && e == AnomalyEntry(prefix[i].pid, prefix[i].name, score(prefix[i]));
          assert prefix[i] == processes[i];
        }
      }
    }
  }

  /** A process scoring at most the threshold never appears, whatever the
      others score. */
  lemma {:induction false} LowScoreNeverFlagged(processes: seq<ProcessRecord>, score: ProcessRecord -> real)
    requires forall p :: p in processes ==> score(p) <= Threshold
    ensures Flagged(processes, score) == []
  {
    if processes != [] {
      var prefix := processes[..|processes| - 1];
      assert forall p :: p in prefix ==> p in processes;
      LowScoreNeverFlagged(prefix, score);
      assert processes[|processes| - 1] in processes;
    }
  }

  /** The placeholder scorer gives 0.0 to every process, so nothing is flagged. */
  lemma StubScorerFlagsNothing(processes: seq<ProcessRecord>)
    ensures forall p :: AnomalyScore(p) == 0.0
    ensures Flagged(processes, AnomalyScore) == []
  {
    LowScoreNeverFlagged(processes, AnomalyScore);
  }
}
