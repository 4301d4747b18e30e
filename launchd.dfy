/** The launchd side of internal/daemon/launchd.go: which launchctl domain a
    plist belongs to, the names of the monitor agent that sits beside the
    runner daemon, and what uninstalling and probing either one issues and
    returns. `os.Getuid()` is the parameter `uid`; whether `os.Stat` reports
    the plist missing is `missing`; what `launchctl` answers is an `Outcome`,
    and what `os.Remove` answers is an optional error. */
module Launchd {
  import opened Wrappers
  import opened Strings
  import opened Config
  import opened Effects

  /** The directory of system-wide launch daemons. */
  const SystemDaemons: Text := "/Library/LaunchDaemons/"

  const PlistSuffix: Text := ".plist"
  const MonitorPlistSuffix: Text := ".monitor.plist"

  /** `launchctlDomain`: the system domain for a plist under the system daemons
      directory, the logged-in user's GUI domain for any other. */
  function Domain(plistPath: Text, uid: int): (d: Text)
    ensures d == "system" <==> HasPrefix(plistPath, SystemDaemons)
    ensures !HasPrefix(plistPath, SystemDaemons) ==> d == "gui/" + Itoa(uid)
  {
    if HasPrefix(plistPath, SystemDaemons) then "system"
    else
      var d := "gui/" + Itoa(uid);
      assert d[0] != "system"[0];
      d
  }

  /** The label of the monitor agent: the daemon's label with `.monitor` appended. */
  function MonitorLabel(daemonLabel: Text): (r: Text)
    ensures HasPrefix(r, daemonLabel) && HasSuffix(r, ".monitor")
  {
    var r := daemonLabel + ".monitor";
    assert r[..|daemonLabel|] == daemonLabel;
    r
  }

  /** The monitor agent's plist: the first `.plist` of the daemon's plist path
      becomes `.monitor.plist`. */
  function MonitorPlistPath(plistPath: Text): Text {
    ReplaceFirst(plistPath, PlistSuffix, MonitorPlistSuffix)
  }

  /** A path without `.plist` anywhere is used unchanged for the monitor, so
      the two agents then share one plist file. */
  lemma MonitorPlistWithoutSuffix(plistPath: Text)
    requires forall j :: 0 <= j <= |plistPath| ==> !HasPrefix(plistPath[j..], PlistSuffix)
    ensures MonitorPlistPath(plistPath) == plistPath
  {
  }

  /** Otherwise only the first `.plist` is rewritten: what precedes it is kept,
      the path grows by `.monitor`, and so it differs from the daemon's. */
  lemma MonitorPlistRewritesFirst(plistPath: Text, k: nat)
    requires k + |PlistSuffix| <= |plistPath| && HasPrefix(plistPath[k..], PlistSuffix)
    requires forall j :: 0 <= j < k ==> !HasPrefix(plistPath[j..], PlistSuffix)
    ensures MonitorPlistPath(plistPath)
      == plistPath[..k] + MonitorPlistSuffix + plistPath[k + |PlistSuffix|..]
    ensures |MonitorPlistPath(plistPath)| == |plistPath| + 8
    ensures MonitorPlistPath(plistPath) != plistPath
  {
    assert Find(plistPath, PlistSuffix) == k;
  }

  /** The monitor's plist lies in the same launchctl domain as the daemon's:
      the system daemons directory holds no `.`, so the rewrite never touches
      the part that decides the domain. */
  lemma MonitorSameDomain(plistPath: Text, uid: int)
    ensures Domain(MonitorPlistPath(plistPath), uid) == Domain(plistPath, uid)
  {
    var k := Find(plistPath, PlistSuffix);
    if k >= 0 {
      var r := MonitorPlistPath(plistPath);
      assert r == plistPath[..k] + MonitorPlistSuffix + plistPath[k + |PlistSuffix|..];
      var n := |SystemDaemons|;
      if k >= n {
        assert r[..n] == plistPath[..n];
      } else {
        assert plistPath[k] == '.' by { assert plistPath[k..][0] == PlistSuffix[0]; }
        assert r[k] == '.';
        assert SystemDaemons[k] != '.';
        assert !HasPrefix(plistPath, SystemDaemons);
        assert !HasPrefix(r, SystemDaemons);
      }
    }
  }

  /** The default daemon plist lies in the system domain. */
  lemma DefaultDaemonIsSystem(uid: int)
    ensures Domain(DefaultConfig.daemon.plistPath, uid) == "system"
  {
    assert DefaultConfig.daemon.plistPath[..|SystemDaemons|] == SystemDaemons;
  }

  /** The `launchctl print` target of an agent. */
  function PrintTarget(plistPath: Text, daemonLabel: Text, uid: int): Text {
    Domain(plistPath, uid) + "/" + daemonLabel
  }

  /** `IsRunning`: the daemon counts as running exactly when `launchctl print`
      succeeds; a failure of the command is not an error. */
  method IsRunning(cfg: Config, uid: int, probe: Outcome, host: Host) returns (running: bool, err: Option<Text>)
    modifies host
    ensures host.log == old(host.log) + [Launchctl(["print", PrintTarget(cfg.daemon.plistPath, cfg.daemon.launchLabel, uid)])]
    ensures err == None
    ensures running <==> probe.Done?
  {
    var target := PrintTarget(cfg.daemon.plistPath, cfg.daemon.launchLabel, uid);
    host.Issue(Launchctl(["print", target]));
    if probe.Failed? {
      return false, None;
    }
    return true, None;
  }

  /** Boot an installed agent out of its domain and delete its plist: a failed
      bootout is only logged; a failed removal is the error, with `failure`
      in front. */
  method BootOutAndRemove(plistPath: Text, uid: int, bootout: Outcome, remove: Option<Text>,
                          failure: Text, host: Host)
    returns (err: Option<Text>)
    modifies host
    ensures host.log == old(host.log)
      + [Launchctl(["bootout", Domain(plistPath, uid), plistPath]), RemoveFile(plistPath)]
    ensures err == if remove.Some? then Some(failure + remove.value) else None
  {
    var domain := Domain(plistPath, uid);
    host.Issue(Launchctl(["bootout", domain, plistPath]));
    host.Issue(RemoveFile(plistPath));
    if remove.Some? {
      return Some(failure + remove.value);
    }
    return None;
  }

  /** `Uninstall`: with no plist there is nothing to do and nothing is issued;
      otherwise the daemon is booted out and its plist removed. `out` is what
      is written to the user. */
  method Uninstall(cfg: Config, uid: int, missing: bool, bootout: Outcome, remove: Option<Text>, host: Host)
    returns (err: Option<Text>, out: Text)
    modifies host
    ensures missing ==> err == None && out == "LaunchDaemon is not installed\n" && host.log == old(host.log)
    ensures !missing ==>
      && host.log == old(host.log) + [Launchctl(["bootout", Domain(cfg.daemon.plistPath, uid), cfg.daemon.plistPath]),
                                      RemoveFile(cfg.daemon.plistPath)]
      && (err == None <==> remove.None?)
      && (remove.Some? ==> err == Some("failed to remove plist (try with sudo): " + remove.value) && out == "")
      && (remove.None? ==> out == "LaunchDaemon " + cfg.daemon.launchLabel + " uninstalled\n")
  {
    var plistPath := cfg.daemon.plistPath;
    if missing {
      return None, "LaunchDaemon is not installed\n";
    }
    err := BootOutAndRemove(plistPath, uid, bootout, remove, "failed to remove plist (try with sudo): ", host);
    out := if err.None? then "LaunchDaemon " + cfg.daemon.launchLabel + " uninstalled\n" else "";
  }

  /** `UninstallMonitor`: the same steps on the monitor agent's plist. */
  method UninstallMonitor(cfg: Config, uid: int, missing: bool, bootout: Outcome, remove: Option<Text>, host: Host)
    returns (err: Option<Text>, out: Text)
    modifies host
    ensures var p := MonitorPlistPath(cfg.daemon.plistPath);
      && (missing ==> err == None && out == "Monitor LaunchAgent is not installed\n" && host.log == old(host.log))
      && (!missing ==>
        && host.log == old(host.log) + [Launchctl(["bootout", Domain(p, uid), p]), RemoveFile(p)]
        && (err == None <==> remove.None?)
        && (remove.Some? ==> err == Some("failed to remove plist: " + remove.value) && out == "")
        && (remove.None? ==> out == "Monitor LaunchAgent " + MonitorLabel(cfg.daemon.launchLabel) + " uninstalled\n"))
  {
    var monitorLabel := MonitorLabel(cfg.daemon.launchLabel);
    var monitorPlistPath := MonitorPlistPath(cfg.daemon.plistPath);
    if missing {
      return None, "Monitor LaunchAgent is not installed\n";
    }
    err := BootOutAndRemove(monitorPlistPath, uid, bootout, remove, "failed to remove plist: ", host);
    out := if err.None? then "Monitor LaunchAgent " + monitorLabel + " uninstalled\n" else "";
  }

  /** Uninstalling the monitor boots it out of the domain the daemon is in, and
      never touches the daemon's own plist when that path names a `.plist`. */
  lemma UninstallMonitorLeavesDaemon(plistPath: Text, uid: int, k: nat)
    requires k + |PlistSuffix| <= |plistPath| && HasPrefix(plistPath[k..], PlistSuffix)
    requires forall j :: 0 <= j < k ==> !HasPrefix(plistPath[j..], PlistSuffix)
    ensures RemoveFile(MonitorPlistPath(plistPath)) != RemoveFile(plistPath)
    ensures Domain(MonitorPlistPath(plistPath), uid) == Domain(plistPath, uid)
  {
    MonitorPlistRewritesFirst(plistPath, k);
    MonitorSameDomain(plistPath, uid);
  }

  /** A daemon plist path without `.plist` is also the monitor's, so
      uninstalling the monitor removes the daemon's own plist. */
  lemma UninstallMonitorWithoutSuffixRemovesDaemonPlist(plistPath: Text, uid: int)
    requires forall j :: 0 <= j <= |plistPath| ==> !HasPrefix(plistPath[j..], PlistSuffix)
    ensures RemoveFile(MonitorPlistPath(plistPath)) == RemoveFile(plistPath)
    ensures Domain(MonitorPlistPath(plistPath), uid) == Domain(plistPath, uid)
  {
    MonitorPlistWithoutSuffix(plistPath);
  }
}
