/** Process-tree construction and the lineage and authorization rules
    (src/process_monitor.py), over one snapshot of the process table. */
module Processes {
  import opened Common
  import opened Whitelist

  /** One row of the process table. `ppid` is `None` when it could not be read. */
  datatype ProcessRecord = ProcessRecord(pid: int, ppid: Option<int>, name: string, path: Option<string>)

  /** Risky lineages: a parent name (lower case) and the child names it must not spawn. */
  const SuspiciousParents: map<string, set<string>> := map[
    "cmd.exe" := {"winword.exe", "excel.exe", "acrobat.exe"},
    "powershell.exe" := {"winword.exe", "excel.exe"},
    "cscript.exe" := {"explorer.exe", "svchost.exe"},
    "wscript.exe" := {"explorer.exe", "svchost.exe"}
  ]

  /** Names of system-critical images (held by the monitor, read by no rule). */
  const SystemCritical: set<string> := {
    "system", "svchost.exe", "csrss.exe", "services.exe",
    "lsass.exe", "explorer.exe", "kernel32.dll"
  }

  // ---------------------------------------------------------------------
  // get_process_tree

  /** The tree maps every parent pid seen (including `None`) to its children. */
  type ProcessTree = map<Option<int>, seq<int>>

  /** The pids of the records whose parent is `key`, in snapshot order. */
  function ChildrenOf(snapshot: seq<ProcessRecord>, key: Option<int>): (children: seq<int>)
    ensures |children| <= |snapshot|
  {
    if snapshot == [] then []
    else
      var last := snapshot[|snapshot| - 1];
      ChildrenOf(snapshot[..|snapshot| - 1], key) + (if last.ppid == key then [last.pid] else [])
  }

  /** Some record of the snapshot has parent `key`. */
  ghost predicate HasChildUnder(snapshot: seq<ProcessRecord>, key: Option<int>) {
    exists i :: 0 <= i < |snapshot| && snapshot[i].ppid == key
  }

  /** The sum of the lengths of all child lists of a tree. */
  ghost function TotalChildren(tree: ProcessTree): nat
    decreases |tree|
  {
    if tree == map[] then 0
    else
      var k :| k in tree;
      |tree[k]| + TotalChildren(tree - {k})
  }

  /** The sum does not depend on which key is taken first. */
  lemma {:induction false} TotalChildrenRemove(tree: ProcessTree, key: Option<int>)
    requires key in tree
    ensures TotalChildren(tree) == |tree[key]| + TotalChildren(tree - {key})
    decreases |tree|
  {
    var k :| k in tree && TotalChildren(tree) == |tree[k]| + TotalChildren(tree - {k});
    if k != key {
      var rest := tree - {k};
      TotalChildrenRemove(rest, key);
      assert rest - {key} == tree - {key} - {k};
      TotalChildrenRemove(tree - {key}, k);
      assert (tree - {key})[k] == tree[k];
    }
  }

  /** Appending one pid to one child list (creating it if need be) adds one to the sum. */
  lemma TotalChildrenAppend(tree: ProcessTree, key: Option<int>, pid: int)
    ensures key in tree ==> TotalChildren(tree[key := tree[key] + [pid]]) == TotalChildren(tree) + 1
    ensures key !in tree ==> TotalChildren(tree[key := [pid]]) == TotalChildren(tree) + 1
  {
    var updated := if key in tree then tree[key := tree[key] + [pid]] else tree[key := [pid]];
    TotalChildrenRemove(updated, key);
    assert updated - {key} == tree - {key};
    if key in tree {
      TotalChildrenRemove(tree, key);
    } else {
      assert tree - {key} == tree;
    }
  }

  /** A ppid under which no record sits has no children. */
  lemma {:induction false} ChildrenOfAbsent(snapshot: seq<ProcessRecord>, key: Option<int>)
    requires !HasChildUnder(snapshot, key)
    ensures ChildrenOf(snapshot, key) == []
  {
    if snapshot != [] {
      var prefix := snapshot[..|snapshot| - 1];
      forall j | 0 <= j < |prefix| ensures prefix[j].ppid != key {
        assert prefix[j] == snapshot[j];
      }
      ChildrenOfAbsent(prefix, key);
    }
  }

  /** Indexing two parts of a snapshot one after the other lists the
      children found in the first part before those found in the second:
      the snapshot's order is kept. */
  lemma {:induction false} ChildrenOfAppend(s: seq<ProcessRecord>, t: seq<ProcessRecord>, key: Option<int>)
    ensures ChildrenOf(s + t, key) == ChildrenOf(s, key) + ChildrenOf(t, key)
    decreases |t|
  {
    if t == [] {
      assert s + t == s;
    } else {
      var t' := t[..|t| - 1];
      assert (s + t)[..|s + t| - 1] == s + t';
      ChildrenOfAppend(s, t', key);
    }
  }

  /** A pid is listed under `key` exactly when some record with that pid
      has `key` as its ppid. */
  lemma {:induction false} ChildrenOfMembers(snapshot: seq<ProcessRecord>, key: Option<int>)
    ensures forall pid :: pid in ChildrenOf(snapshot, key) <==>
      exists i :: 0 <= i < |snapshot| && snapshot[i].ppid == key && snapshot[i].pid == pid
  {
    if snapshot != [] {
      var prefix := snapshot[..|snapshot| - 1];
      ChildrenOfMembers(prefix, key);
      forall pid | exists i :: 0 <= i < |snapshot| && snapshot[i].ppid == key && snapshot[i].pid == pid
        ensures pid in ChildrenOf(snapshot, key)
      {
        var i :| 0 <= i < |snapshot| && snapshot[i].ppid == key && snapshot[i].pid == pid;
        if i < |prefix| {
          assert prefix[i] == snapshot[i];
        }
      }
      forall pid | pid in ChildrenOf(prefix, key)
        ensures exists i :: 0 <= i < |snapshot| && snapshot[i].ppid == key && snapshot[i].pid == pid
      {
        var i :| 0 <= i < |prefix| && prefix[i].ppid == key && prefix[i].pid == pid;
        assert snapshot[i] == prefix[i];
      }
    }
  }

  /** The tree of a snapshot: keys are exactly the ppids that occur, each
      holding the children of that ppid. */
  ghost predicate IsTreeOf(tree: ProcessTree, snapshot: seq<ProcessRecord>) {
    && (forall key :: key in tree <==> HasChildUnder(snapshot, key))
    && (forall key :: key in tree ==> tree[key] == ChildrenOf(snapshot, key))
  }

  /** The tree after filing one more record under its ppid, creating
      that child list if need be. */
  function FileUnder(tree: ProcessTree, proc: ProcessRecord): ProcessTree {
    if proc.ppid in tree then tree[proc.ppid := tree[proc.ppid] + [proc.pid]]
    else tree[proc.ppid := [proc.pid]]
  }

  /** Filing one more record under its ppid extends the tree of a snapshot
      to the tree of the longer snapshot, and adds one to the sum. */
  lemma TreeStep(tree: ProcessTree, done: seq<ProcessRecord>, proc: ProcessRecord)
    requires IsTreeOf(tree, done)
    ensures IsTreeOf(FileUnder(tree, proc), done + [proc])
    ensures TotalChildren(FileUnder(tree, proc)) == TotalChildren(tree) + 1
  {
    var next := done + [proc];
    assert next[..|done|] == done;
    forall key ensures HasChildUnder(next, key) <==> HasChildUnder(done, key) || key == proc.ppid {
      if HasChildUnder(done, key) {
        var j :| 0 <= j < |done| && done[j].ppid == key;
        assert next[j] == done[j];
      }
      assert next[|done|] == proc;
    }
    if proc.ppid !in tree {
      ChildrenOfAbsent(done, proc.ppid);
    }
    TotalChildrenAppend(tree, proc.ppid, proc.pid);
  }

  /** The first `i + 1` records are the first `i` followed by record `i`. */
  lemma PrefixStep(snapshot: seq<ProcessRecord>, i: nat)
    requires i < |snapshot|
    ensures snapshot[..i + 1] == snapshot[..i] + [snapshot[i]]
  {
  }

  /** Builds the parent-to-children index of a snapshot: every record's pid
      goes under its own ppid, in snapshot order, and nothing is lost: the
      child lists together hold exactly as many pids as there are records.
      There is no separate bucket for parents absent from the snapshot. */
  method GetProcessTree(snapshot: seq<ProcessRecord>) returns (tree: ProcessTree)
    ensures forall key :: key in tree <==> HasChildUnder(snapshot, key)
    ensures forall key :: key in tree ==> tree[key] == ChildrenOf(snapshot, key)
    ensures TotalChildren(tree) == |snapshot|
  {
    tree := map[];
    ghost var done: seq<ProcessRecord> := [];
    for i := 0 to |snapshot|
      invariant done == snapshot[..i]
      invariant IsTreeOf(tree, done)
      invariant TotalChildren(tree) == i
    {
      var proc := snapshot[i];
      TreeStep(tree, done, proc);
      if proc.ppid in tree {
        tree := tree[proc.ppid := tree[proc.ppid] + [proc.pid]];
      } else {
        tree := tree[proc.ppid := [proc.pid]];
      }
      PrefixStep(snapshot, i);
      done := done + [proc];
    }
    assert done == snapshot;
  }

  // ---------------------------------------------------------------------
  // detect_suspicious_chains

  /** A parent/child pair found in the snapshot, names in lower case. */
  datatype SuspiciousChain = SuspiciousChain(parentPid: int, parentName: string, childPid: int, childName: string, riskLevel: string)

  /** The chain one record gives rise to: none when its ppid is 0 or
      unknown, when the parent pid does not resolve to a name (the process
      is gone or access is denied), or when the lower-cased pair is not in
      the rule table. `parentNames` is the pid-to-name lookup. */
  function ChainOf(proc: ProcessRecord, parentNames: map<int, string>): Option<SuspiciousChain>
  {
    if proc.ppid.None? || proc.ppid.value == 0 || proc.ppid.value !in parentNames then None
    else
      var parentName := Lower(parentNames[proc.ppid.value]);
      var currentName := Lower(proc.name);
      if parentName in SuspiciousParents && currentName in SuspiciousParents[parentName] then
        Some(SuspiciousChain(proc.ppid.value, parentName, proc.pid, currentName, "HIGH"))
      else None
  }

  /** The chains of a snapshot, in snapshot order. */
  function Chains(snapshot: seq<ProcessRecord>, parentNames: map<int, string>): seq<SuspiciousChain>
  {
    if snapshot == [] then []
    else
      var last := snapshot[|snapshot| - 1];
      Chains(snapshot[..|snapshot| - 1], parentNames)
        + (match ChainOf(last, parentNames) case Some(c) => [c] case None => [])
  }

  /** Scans the snapshot for risky parent/child pairs; a record that is
      skipped does not stop the scan. */
  method DetectSuspiciousChains(snapshot: seq<ProcessRecord>, parentNames: map<int, string>)
    returns (suspicious: seq<SuspiciousChain>)
    ensures suspicious == Chains(snapshot, parentNames)
  {
    suspicious := [];
    for i := 0 to |snapshot|
      invariant suspicious == Chains(snapshot[..i], parentNames)
    {
      var proc := snapshot[i];
      assert snapshot[..i + 1][..i] == snapshot[..i];
      var ppid := proc.ppid;
      var currentName := Lower(proc.name);
      if ppid.Some? && ppid.value != 0 {
        if ppid.value in parentNames {
          var parentName := Lower(parentNames[ppid.value]);
          if parentName in SuspiciousParents {
            if currentName in SuspiciousParents[parentName] {
              suspicious := suspicious + [SuspiciousChain(ppid.value, parentName, proc.pid, currentName, "HIGH")];
            }
          }
        }
      }
    }
    assert snapshot[..|snapshot|] == snapshot;
  }

  /** Scanning two parts of a snapshot one after the other gives the
      chains of the first part followed by those of the second. */
  lemma {:induction false} ChainsAppend(s: seq<ProcessRecord>, t: seq<ProcessRecord>, parentNames: map<int, string>)
    ensures Chains(s + t, parentNames) == Chains(s, parentNames) + Chains(t, parentNames)
    decreases |t|
  {
    if t == [] {
      assert s + t == s;
    } else {
      var t' := t[..|t| - 1];
      assert (s + t)[..|s + t| - 1] == s + t';
      ChainsAppend(s, t', parentNames);
    }
  }

  /** One record yields one chain exactly when its ppid is set and
      nonzero, the parent resolves to a name, the lower-cased parent name
      is a rule key and the lower-cased child name is among that key's
      children; the chain is HIGH and carries the record's pids and the
      lower-cased names. Otherwise it yields nothing. */
  lemma ChainsOfRecord(proc: ProcessRecord, parentNames: map<int, string>)
    ensures |Chains([proc], parentNames)| <= 1
    ensures |Chains([proc], parentNames)| == 1 <==>
      && proc.ppid.Some? && proc.ppid.value != 0
      && proc.ppid.value in parentNames
      && Lower(parentNames[proc.ppid.value]) in SuspiciousParents
      && Lower(proc.name) in SuspiciousParents[Lower(parentNames[proc.ppid.value])]
    ensures |Chains([proc], parentNames)| == 1 ==>
      Chains([proc], parentNames)[0] ==
        SuspiciousChain(proc.ppid.value, Lower(parentNames[proc.ppid.value]), proc.pid, Lower(proc.name), "HIGH")
  {
    assert [proc][..0] == [];
  }

  /** Every chain comes from a record of the snapshot whose pair is in the
      rule table; it is HIGH and its names are in lower case. */
  lemma {:induction false} ChainsSound(snapshot: seq<ProcessRecord>, parentNames: map<int, string>, c: SuspiciousChain)
    requires c in Chains(snapshot, parentNames)
    ensures c.riskLevel == "HIGH"
    ensures IsLower(c.parentName) && IsLower(c.childName)
    ensures c.parentName in SuspiciousParents && c.childName in SuspiciousParents[c.parentName]
    ensures c.parentPid != 0 && c.parentPid in parentNames && c.parentName == Lower(parentNames[c.parentPid])
    ensures exists i :: 0 <= i < |snapshot| && snapshot[i].pid == c.childPid
                     && snapshot[i].ppid == Some(c.parentPid) && c.childName == Lower(snapshot[i].name)
  {
    var prefix := snapshot[..|snapshot| - 1];
    var last := snapshot[|snapshot| - 1];
    if c in Chains(prefix, parentNames) {
      ChainsSound(prefix, parentNames, c);
      var i :| 0 <= i < |prefix| && prefix[i].pid == c.childPid
             && prefix[i].ppid == Some(c.parentPid) && c.childName == Lower(prefix[i].name);
      assert snapshot[i] == prefix[i];
    } else {
      assert ChainOf(last, parentNames) == Some(c);
      LowerIsLower(last.name);
      LowerIsLower(parentNames[c.parentPid]);
    }
  }

  /** Each matching record contributes its own chain (no deduplication):
      the number of chains is the number of matching records. */
  function CountMatching(snapshot: seq<ProcessRecord>, parentNames: map<int, string>): nat
  {
    if snapshot == [] then 0
    else CountMatching(snapshot[..|snapshot| - 1], parentNames)
         + (if ChainOf(snapshot[|snapshot| - 1], parentNames).Some? then 1 else 0)
  }

  lemma {:induction false} ChainsCount(snapshot: seq<ProcessRecord>, parentNames: map<int, string>)
    ensures |Chains(snapshot, parentNames)| == CountMatching(snapshot, parentNames)
  {
    if snapshot != [] {
      ChainsCount(snapshot[..|snapshot| - 1], parentNames);
    }
  }

  /** The lineage `explorer.exe` (pid 10) spawning `cmd.exe` (pid 55)
      spawning `winword.exe` (pid 90) gives exactly one HIGH chain, for
      the `cmd.exe` to `winword.exe` edge. */
  lemma CmdSpawningWinword(explorer: ProcessRecord, cmd: ProcessRecord, winword: ProcessRecord, names: map<int, string>)
    requires explorer == ProcessRecord(10, Some(0), "explorer.exe", None)
    requires cmd == ProcessRecord(55, Some(10), "cmd.exe", None)
    requires winword == ProcessRecord(90, Some(55), "winword.exe", None)
    requires names == map[10 := "explorer.exe", 55 := "cmd.exe", 90 := "winword.exe"]
    ensures Chains([explorer, cmd, winword], names) == [SuspiciousChain(55, "cmd.exe", 90, "winword.exe", "HIGH")]
  {
    assert names[10] == "explorer.exe" && names[55] == "cmd.exe";
    ExampleChainOfs(cmd, winword, names);
    ChainsOfRecord(explorer, names);
    ChainsOfRecord(cmd, names);
    ChainsOfRecord(winword, names);
    ChainsAppend([explorer], [cmd], names);
    ChainsAppend([explorer, cmd], [winword], names);
    assert [explorer] + [cmd] == [explorer, cmd];
    assert [explorer, cmd] + [winword] == [explorer, cmd, winword];
  }

  /** The two records of the example that have a resolvable parent. */
  lemma ExampleChainOfs(cmd: ProcessRecord, winword: ProcessRecord, names: map<int, string>)
    requires cmd == ProcessRecord(55, Some(10), "cmd.exe", None)
    requires winword == ProcessRecord(90, Some(55), "winword.exe", None)
    requires 10 in names && names[10] == "explorer.exe"
    requires 55 in names && names[55] == "cmd.exe"
    ensures ChainOf(cmd, names) == None
    ensures ChainOf(winword, names) == Some(SuspiciousChain(55, "cmd.exe", 90, "winword.exe", "HIGH"))
  {
    ExampleNames();
  }

  /** The lower-cased names the example needs: `explorer.exe` is too long
      to be any rule key. */
  lemma ExampleNames()
    ensures Lower("cmd.exe") == "cmd.exe"
    ensures Lower("winword.exe") == "winword.exe"
    ensures Lower("explorer.exe") !in SuspiciousParents
  {
    NoUpperIsLower("cmd.exe");
    NoUpperIsLower("winword.exe");
    LengthNotKey(Lower("explorer.exe"));
  }

  /** A name of twelve characters is no rule key. */
  lemma LengthNotKey(name: string)
    requires |name| == 12
    ensures name !in SuspiciousParents
  {
  }

  // ---------------------------------------------------------------------
  // detect_unauthorized

  /** A process whose name is not allowed, with its pid, name and path as read. */
  datatype UnauthorizedProcess = UnauthorizedProcess(pid: int, name: string, path: Option<string>)

  /** The records whose lower-cased name is not in `whitelist`, in snapshot order. */
  function Unauthorized(snapshot: seq<ProcessRecord>, whitelist: set<string>): seq<UnauthorizedProcess>
  {
    if snapshot == [] then []
    else
      var last := snapshot[|snapshot| - 1];
      Unauthorized(snapshot[..|snapshot| - 1], whitelist)
        + (if Lower(last.name) !in whitelist then [UnauthorizedProcess(last.pid, last.name, last.path)] else [])
  }

  /** Lists the processes of the snapshot that the manager does not allow. */
  method DetectUnauthorized(snapshot: seq<ProcessRecord>, whitelistManager: WhitelistManager)
    returns (unauthorized: seq<UnauthorizedProcess>)
    ensures unauthorized == Unauthorized(snapshot, whitelistManager.whitelist)
  {
    unauthorized := [];
    for i := 0 to |snapshot|
      invariant unauthorized == Unauthorized(snapshot[..i], whitelistManager.whitelist)
    {
      var proc := snapshot[i];
      assert snapshot[..i + 1][..i] == snapshot[..i];
      if !whitelistManager.IsWhitelisted(proc.name, proc.path) {
        unauthorized := unauthorized + [UnauthorizedProcess(proc.pid, proc.name, proc.path)];
      }
    }
    assert snapshot[..|snapshot|] == snapshot;
  }

  /** Classifying two parts of a snapshot one after the other gives the
      entries of the first part followed by those of the second. */
  lemma {:induction false} UnauthorizedAppend(s: seq<ProcessRecord>, t: seq<ProcessRecord>, whitelist: set<string>)
    ensures Unauthorized(s + t, whitelist) == Unauthorized(s, whitelist) + Unauthorized(t, whitelist)
    decreases |t|
  {
    if t == [] {
      assert s + t == s;
    } else {
      var t' := t[..|t| - 1];
      assert (s + t)[..|s + t| - 1] == s + t';
      UnauthorizedAppend(s, t', whitelist);
    }
  }

  /** One record is listed exactly when its lower-cased name is not
      allowed, and then with its own pid, name and path. */
  lemma UnauthorizedOfRecord(proc: ProcessRecord, whitelist: set<string>)
    ensures Unauthorized([proc], whitelist) ==
      if Lower(proc.name) in whitelist then [] else [UnauthorizedProcess(proc.pid, proc.name, proc.path)]
  {
    assert [proc][..0] == [];
  }

  /** No entry is allowed, and each entry is a record of the snapshot. */
  lemma {:induction false} UnauthorizedSound(snapshot: seq<ProcessRecord>, whitelist: set<string>, u: UnauthorizedProcess)
    requires u in Unauthorized(snapshot, whitelist)
    ensures Lower(u.name) !in whitelist
    ensures exists i :: 0 <= i < |snapshot| && snapshot[i].pid == u.pid
                     && snapshot[i].name == u.name && snapshot[i].path == u.path
  {
    var prefix := snapshot[..|snapshot| - 1];
    if u in Unauthorized(prefix, whitelist) {
      UnauthorizedSound(prefix, whitelist, u);
      var i :| 0 <= i < |prefix| && prefix[i].pid == u.pid && prefix[i].name == u.name && prefix[i].path == u.path;
      assert snapshot[i] == prefix[i];
    } else {
      assert snapshot[|snapshot| - 1].pid == u.pid;
    }
  }
}
