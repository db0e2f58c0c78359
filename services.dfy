/** The service path auditor (src/service_audit.py). */
module Services {
  import opened Common

  /** A service as enumerated: `path` is `None` when the record has no `path` key. */
  datatype Service = Service(name: string, path: Option<string>)

  /** One finding of the auditor; `path` is the lower-cased path. */
  datatype ServiceAlert = ServiceAlert(service: string, path: string, reason: string, severity: string)

  /** Path fragments that mark a user-writable or temporary location (lower case). */
  const SuspiciousPaths: set<string> := {"temp", "appdata", "users\\public", "windows\\temp"}

  /** Account names the auditor holds (read by no rule). */
  const CriticalServices: set<string> := {"SYSTEM", "LOCAL SERVICE", "NETWORK SERVICE"}

  /** The lower-cased path of a service; a missing path reads as empty. */
  function AuditedPath(service: Service): string {
    Lower(service.path.GetOr(""))
  }

  /** A path is suspicious when it contains at least one of the fragments. */
  ghost predicate IsSuspiciousPath(path: string) {
    exists bad :: bad in SuspiciousPaths && Contains(path, bad)
  }

  /** The alert a flagged service produces. */
  function AlertFor(service: Service): ServiceAlert {
    ServiceAlert(service.name, AuditedPath(service), "Suspicious path", "HIGH")
  }

  /** The alerts for a list of services, in input order, one per flagged service. */
  ghost function ServiceAlerts(services: seq<Service>): seq<ServiceAlert>
  {
    if services == [] then []
    else
      var last := services[|services| - 1];
      ServiceAlerts(services[..|services| - 1])
        + (if IsSuspiciousPath(AuditedPath(last)) then [AlertFor(last)] else [])
  }

  /** Flags the services whose lower-cased path contains a suspicious
      fragment. The fragments are tried in the set's own (unspecified)
      order, and the first hit ends the search, so a service is flagged at
      most once; since the alert does not name the fragment, the order
      does not matter. */
  method DetectSuspiciousServices(services: seq<Service>) returns (suspicious: seq<ServiceAlert>)
    ensures suspicious == ServiceAlerts(services)
  {
    suspicious := [];
    for i := 0 to |services|
      invariant suspicious == ServiceAlerts(services[..i])
    {
      var service := services[i];
      assert services[..i + 1][..i] == services[..i];
      var path := Lower(service.path.GetOr(""));
      var remaining := SuspiciousPaths;
      ghost var before := suspicious;
      while remaining != {}
        invariant remaining <= SuspiciousPaths
        invariant suspicious == before
        invariant forall bad :: bad in SuspiciousPaths - remaining ==> !Contains(path, bad)
        decreases remaining
      {
        var badPath :| badPath in remaining;
        if Contains(path, badPath) {
          suspicious := suspicious + [ServiceAlert(service.name, path, "Suspicious path", "HIGH")];
          break;
        }
        remaining := remaining - {badPath};
      }
    }
    assert services[..|services|] == services;
  }

  /** Auditing two lists one after the other gives the alerts of the first
      followed by those of the second. */
  lemma {:induction false} ServiceAlertsAppend(s: seq<Service>, t: seq<Service>)
    ensures ServiceAlerts(s + t) == ServiceAlerts(s) + ServiceAlerts(t)
    decreases |t|
  {
    if t == [] {
      assert s + t == s;
    } else {
      var t' := t[..|t| - 1];
      assert (s + t)[..|s + t| - 1] == s + t';
      ServiceAlertsAppend(s, t');
    }
  }

  /** One service yields one HIGH "Suspicious path" alert, with its name and
      its lower-cased path, exactly when that path contains one of the
      fragments; otherwise it yields nothing. */
  lemma ServiceAlertsOfOne(service: Service)
    ensures ServiceAlerts([service]) ==
      if exists bad :: bad in SuspiciousPaths && Contains(Lower(service.path.GetOr("")), bad)
      then [ServiceAlert(service.name, Lower(service.path.GetOr("")), "Suspicious path", "HIGH")]
      else []
  {
    assert [service][..0] == [];
  }

  /** At most one alert per service, and every alert is HIGH, for a
      service of the input, with that service's lower-cased path. */
  lemma {:induction false} ServiceAlertsSound(services: seq<Service>)
    ensures |ServiceAlerts(services)| <= |services|
    ensures forall a :: a in ServiceAlerts(services) ==>
      a.severity == "HIGH" && a.reason == "Suspicious path" && IsSuspiciousPath(a.path)
      && exists i :: 0 <= i < |services| && a.service == services[i].name && a.path == AuditedPath(services[i])
  {
    if services != [] {
      var prefix := services[..|services| - 1];
      ServiceAlertsSound(prefix);
      forall a | a in ServiceAlerts(services)
        ensures exists i :: 0 <= i < |services| && a.service == services[i].name && a.path == AuditedPath(services[i])
      {
        if a in ServiceAlerts(prefix) {
          var i :| 0 <= i < |prefix| && a.service == prefix[i].name && a.path == AuditedPath(prefix[i]);
          assert prefix[i] == services[i];
        } else {
          assert a == AlertFor(services[|services| - 1]);
        }
      }
    }
  }

  /** A service without a path is never flagged: no fragment is empty. */
  lemma MissingPathNeverFlagged(service: Service)
    requires service.path.None?
    ensures ServiceAlerts([service]) == []
  {
    ServiceAlertsOfOne(service);
    assert AuditedPath(service) == [];
  }

  /** Every fragment contains the letter `p`. */
  lemma FragmentsContainP()
    ensures forall bad :: bad in SuspiciousPaths ==> 'p' in bad
  {
    assert "temp"[3] == 'p';
    assert "appdata"[1] == 'p';
    assert "users\\public"[6] == 'p';
    assert "windows\\temp"[11] == 'p';
  }

  /** `C:\Windows\System32\svc.exe` is not flagged: its path has no `p`
      in either casing, and every fragment has one. */
  lemma System32ServiceNotFlagged(service: Service)
    requires service.path == Some("C:\\Windows\\System32\\svc.exe")
    ensures ServiceAlerts([service]) == []
  {
    var path := "C:\\Windows\\System32\\svc.exe";
    assert 'p' !in path && 'P' !in path;
    LowerAvoids(path, 'p');
    FragmentsContainP();
    forall bad | bad in SuspiciousPaths ensures !Contains(Lower(path), bad) {
      if Contains(Lower(path), bad) {
        ContainsChar(Lower(path), bad, 'p');
      }
    }
    ServiceAlertsOfOne(service);
  }

  /** `C:\Users\bob\AppData\Local\Temp\svc.exe` gives exactly one HIGH alert. */
  lemma TempServiceFlagged(service: Service)
    requires service.path == Some("C:\\Users\\bob\\AppData\\Local\\Temp\\svc.exe")
    ensures |ServiceAlerts([service])| == 1
    ensures ServiceAlerts([service])[0].severity == "HIGH"
  {
    var head, tail := "C:\\Users\\bob\\AppData\\Local\\", "\\svc.exe";
    assert service.path.value == head + "Temp" + tail;
    LowerAppend(head + "Temp", tail);
    LowerAppend(head, "Temp");
    assert Lower("Temp") == "temp";
    ContainsInfix(Lower(head), "temp", Lower(tail));
    assert "temp" in SuspiciousPaths;
    ServiceAlertsOfOne(service);
  }
}
