/** The allow/deny lists of process names (src/whitelist_manager.py). */
module Whitelist {
  import opened Common

  /** The twelve process names every manager starts with. */
  const DefaultWhitelist: set<string> := {
    "explorer.exe", "svchost.exe", "csrss.exe", "services.exe",
    "lsass.exe", "wininit.exe", "winlogon.exe", "dwm.exe",
    "searchindexer.exe", "chrome.exe", "firefox.exe", "notepad.exe"
  }

  /** The default set holds twelve distinct names. */
  lemma DefaultWhitelistSize()
    ensures |DefaultWhitelist| == 12
  {
  }

  /** Every default name is in lower case, so each one can be hit by the
      lower-cased lookup. */
  lemma DefaultWhitelistIsLower()
    ensures forall n :: n in DefaultWhitelist ==> IsLower(n)
  {
    DefaultNamesLowerFirst();
    DefaultNamesLowerSecond();
  }

  /** The first six default names are in lower case. */
  lemma DefaultNamesLowerFirst()
    ensures IsLower("explorer.exe")
    ensures IsLower("svchost.exe")
    ensures IsLower("csrss.exe")
    ensures IsLower("services.exe")
    ensures IsLower("lsass.exe")
    ensures IsLower("wininit.exe")
  {
    NoUpperIsLower("explorer.exe");
    NoUpperIsLower("svchost.exe");
    NoUpperIsLower("csrss.exe");
    NoUpperIsLower("services.exe");
    NoUpperIsLower("lsass.exe");
    NoUpperIsLower("wininit.exe");
  }

  /** The last six default names are in lower case. */
  lemma DefaultNamesLowerSecond()
    ensures IsLower("winlogon.exe")
    ensures IsLower("dwm.exe")
    ensures IsLower("searchindexer.exe")
    ensures IsLower("chrome.exe")
    ensures IsLower("firefox.exe")
    ensures IsLower("notepad.exe")
  {
    NoUpperIsLower("winlogon.exe");
    NoUpperIsLower("dwm.exe");
    NoUpperIsLower("searchindexer.exe");
    NoUpperIsLower("chrome.exe");
    NoUpperIsLower("firefox.exe");
    NoUpperIsLower("notepad.exe");
  }

  /** The names a whitelist file contributes: the elements of its
      `processes` list, taken as they are (not lower-cased). */
  function LoadedNames(processes: seq<string>): set<string>
  {
    set n | n in processes
  }

  class WhitelistManager {
    var whitelist: set<string>
    var blacklist: set<string>

    /** `whitelistFile` is what reading the whitelist file produced: `None`
        when no file was given or it could not be read or parsed, otherwise
        the file's `processes` list (empty when the key is missing). */
    constructor (whitelistFile: Option<seq<string>>)
      ensures whitelistFile.None? ==> whitelist == DefaultWhitelist
      ensures whitelistFile.Some? ==> whitelist == DefaultWhitelist + LoadedNames(whitelistFile.value)
      ensures DefaultWhitelist <= whitelist
      ensures blacklist == {}
    {
      whitelist := DefaultWhitelist;
      blacklist := {};
      new;
      if whitelistFile.Some? {
        LoadWhitelist(whitelistFile.value);
      }
    }

    /** Merges the names of a whitelist file into the whitelist: a set
        union, so nothing already allowed is removed. */
    method LoadWhitelist(processes: seq<string>)
      modifies this`whitelist
      ensures whitelist == old(whitelist) + LoadedNames(processes)
      ensures old(whitelist) <= whitelist
      ensures blacklist == old(blacklist)
    {
      whitelist := whitelist + LoadedNames(processes);
    }

    /** Whether a process name is allowed: case-insensitive on the name;
        the path and the blacklist play no part. */
    function IsWhitelisted(processName: string, path: Option<string>): bool
      reads this
    {
      Lower(processName) in whitelist
    }

    /** Allows a name in every casing; nothing else changes, and adding an
        allowed name again changes nothing at all. */
    method AddToWhitelist(processName: string)
      modifies this`whitelist
      ensures whitelist == old(whitelist) + {Lower(processName)}
      ensures Lower(processName) in old(whitelist) ==> whitelist == old(whitelist)
      ensures forall n, p :: Lower(n) == Lower(processName) ==> IsWhitelisted(n, p)
      ensures old(whitelist) <= whitelist
      ensures blacklist == old(blacklist)
    {
      whitelist := whitelist + {Lower(processName)};
    }

    /** Records a denied name; the whitelist, and so every answer of
        `IsWhitelisted`, stays as it was. */
    method AddToBlacklist(processName: string)
      modifies this`blacklist
      ensures blacklist == old(blacklist) + {Lower(processName)}
      ensures Lower(processName) in old(blacklist) ==> blacklist == old(blacklist)
      ensures whitelist == old(whitelist)
    {
      blacklist := blacklist + {Lower(processName)};
    }
  }

  /** The answer depends on the lower-cased name only: the path and the
      name's casing never change it. */
  lemma IsWhitelistedByLowerName(wm: WhitelistManager, a: string, pa: Option<string>, b: string, pb: Option<string>)
    requires Lower(a) == Lower(b)
    ensures wm.IsWhitelisted(a, pa) == wm.IsWhitelisted(b, pb)
  {
  }

  /** The blacklist is never consulted: two managers with the same
      whitelist give the same answers, whatever their blacklists hold. */
  lemma BlacklistNotConsulted(wm1: WhitelistManager, wm2: WhitelistManager, name: string, path: Option<string>)
    requires wm1.whitelist == wm2.whitelist
    ensures wm1.IsWhitelisted(name, path) == wm2.IsWhitelisted(name, path)
  {
  }

  /** After loading a file, a lower-case name from its list is allowed in
      every casing and under every path. */
  lemma LoadedLowerNameMatches(wm: WhitelistManager, processes: seq<string>, n: string, query: string, path: Option<string>)
    requires wm.whitelist == DefaultWhitelist + LoadedNames(processes)
    requires n in processes && IsLower(n)
    requires Lower(query) == n
    ensures wm.IsWhitelisted(query, path)
  {
  }

  /** A loaded entry that is not in lower case is dead: every query is
      answered as if the entry were absent. */
  lemma {:induction false} MixedCaseEntryIsDead(wm: WhitelistManager, entry: string, name: string, path: Option<string>)
    requires entry in wm.whitelist
    requires !IsLower(entry)
    ensures wm.IsWhitelisted(name, path) <==> Lower(name) in wm.whitelist - {entry}
  {
    NotLowerNeverHit(entry, name);
  }

  /** A manager in use: a default name matches in another casing, the
      blacklist does not override it, and a repeated add changes nothing. */
  method WhitelistScenario()
  {
    var wm := new WhitelistManager(None);
    assert Lower("DWM.exe") == "dwm.exe";
    assert wm.IsWhitelisted("DWM.exe", None);
    wm.AddToBlacklist("dwm.exe");
    assert wm.IsWhitelisted("DWM.exe", Some("C:\\Temp\\dwm.exe"));
    wm.AddToWhitelist("Evil.exe");
    var once := wm.whitelist;
    wm.AddToWhitelist("Evil.exe");
    assert wm.whitelist == once;
    assert wm.IsWhitelisted("Evil.exe", None);
  }
}
